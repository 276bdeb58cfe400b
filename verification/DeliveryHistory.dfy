/**
 * What every run of the delivery protocol guarantees about each single id: its counter, its Deliver calls, its state.
 */
module DeliveryHistory {
  import opened Common
  import opened Backoff
  import opened Handoff
  import opened Delivery

  // ----- Where an id is -----

  datatype Place = InQueue | InRetry(score: int) | InHand(r: nat) | InJob(r: nat, stage: Stage) | InDone(fate: Fate)

  ghost predicate Sits(s: State, id: Id, p: Place) {
    match p
    case InQueue => id in s.store.queue
    case InRetry(score) => id in s.store.retry && s.store.retry[id] == score
    case InHand(r) => r < |s.reps| && id in s.reps[r].held
    case InJob(r, stage) => r < |s.reps| && s.reps[r].job == Job(id, stage)
    case InDone(fate) => id in s.done && s.done[id] == fate
  }

  lemma SitsOwns(s: State, id: Id, r: nat)
    requires r < |s.reps|
    ensures (id in s.reps[r].held || (s.reps[r].job.Job? && s.reps[r].job.id == id)) <==> Own(s.reps[r], id) > 0
  {
  }

  /** Exclusive ownership, as a statement about places: no id is in two of them at once. */
  lemma OnePlace(s: State, id: Id, p: Place, q: Place)
    requires Owned(s) && Sits(s, id, p) && Sits(s, id, q)
    ensures p == q && id in s.hist
  {
    assert Places(s, id) == Bit(id in s.hist);
    if p.InHand? || p.InJob? { SitsOwns(s, id, p.r); Exclusive(s, p.r, id); }
    if q.InHand? || q.InJob? { SitsOwns(s, id, q.r); Exclusive(s, q.r, id); }
  }

  // ----- What holds of an id there -----

  /** The data the protocol keeps about one id. */
  datatype Track = Track(counter: Option<Counter>, webhook: WebhookState, hist: History)

  function TrackOf(s: State, id: Id): Track
    requires id in s.hist
  {
    Track(CounterOf(s.store, id), WebhookOf(s.store, id), s.hist[id])
  }

  predicate Deliverable(c: Config, id: Id) {
    c.payload(id).Envelope? && c.payload(id).webhookURL != ""
  }

  /** An envelope without a webhook: the client polls for the result. */
  predicate PollOnly(c: Config, id: Id) {
    c.payload(id).Envelope? && c.payload(id).webhookURL == ""
  }

  function Expiry(c: Config, id: Id): int {
    if c.payload(id).Envelope? then c.payload(id).expiresAt else 0
  }

  /** Less than `bound` lies between the first Schedule call, if there was one, and the expiry. */
  predicate Window(c: Config, id: Id, h: History, bound: int) {
    h.first.Some? ==> Expiry(c, id) - h.first.value < bound
  }

  /** No counter read failed for the id, and durations up to its expiry fit in int64 (292 years). */
  predicate Exact(c: Config, id: Id, h: History) {
    h.readFaults == 0 && Window(c, id, h, TWO63)
  }

  /** The stored counter, after k scheduled retries. */
  ghost predicate Counted(c: Config, id: Id, now: int, t: Track, k: nat) {
    && (t.counter.None? <==> k == 0)
    && (t.hist.first.Some? ==> t.hist.first.value <= now)
    && (t.counter.Some? ==>
          && t.hist.first.Some? && t.counter.value.n >= 1
          && WithinBudget(c, id, t.hist, t.counter.value.n - 1)
          && (Window(c, id, t.hist, TWO63) ==> t.counter.value.until >= Expiry(c, id))
          && (Exact(c, id, t.hist) ==> t.counter.value.n == k))
    && Stored(t) <= c.maxAttempts
    && (Window(c, id, t.hist, TWO63) ==> k <= Allowed(t.hist.readFaults, c.maxAttempts) + Stored(t))
  }

  function Stored(t: Track): nat {
    if t.counter.Some? then t.counter.value.n else 0
  }

  /** Every failed counter read makes the count start over, and so allows maxAttempts retries more. */
  function Allowed(faults: nat, maxAttempts: int): int {
    if faults == 0 then 0 else maxAttempts + Allowed(faults - 1, maxAttempts)
  }

  lemma {:induction false} AllowedIsProduct(faults: nat, maxAttempts: int)
    ensures Allowed(faults, maxAttempts) == faults * maxAttempts
  {
    if faults > 0 {
      AllowedIsProduct(faults - 1, maxAttempts);
      assert faults * maxAttempts == maxAttempts + (faults - 1) * maxAttempts;
    }
  }

  /** The exact delay of an accepted attempt is at most the time from the first Schedule call to the expiry. */
  ghost predicate WithinBudget(c: Config, id: Id, h: History, attempt: nat) {
    && h.first.Some?
    && (Window(c, id, h, TWO62) ==> c.base * Pow2(attempt) <= Expiry(c, id) - h.first.value)
  }

  predicate Running(t: Track) {
    !t.hist.acked && (t.webhook == Handoff.Pending || t.webhook == Handoff.Delivering)
  }

  ghost predicate Rested(c: Config, id: Id, now: int, t: Track) {
    && Running(t) && t.hist.delivers == t.hist.fails
    && Counted(c, id, now, t, t.hist.fails)
    && (t.hist.first.None? <==> t.hist.fails == 0)
    && (t.hist.fails >= 1 || t.webhook == Handoff.Delivering ==> Deliverable(c, id))
  }

  /** A Deliver call has just failed, and nothing has been scheduled for it. */
  ghost predicate Failing(c: Config, id: Id, now: int, t: Track) {
    && Running(t) && t.hist.delivers == t.hist.fails >= 1 && Deliverable(c, id)
    && Counted(c, id, now, t, t.hist.fails - 1)
  }

  /** The attempt Schedule is called with: exact, or 0 because the counter has expired along with the result. */
  ghost predicate AttemptRead(c: Config, id: Id, now: int, t: Track, attempt: nat) {
    && (attempt >= 1 ==> WithinBudget(c, id, t.hist, attempt - 1))
    && (Exact(c, id, t.hist) ==> attempt == t.hist.fails - 1 || (attempt == 0 && now >= Expiry(c, id)))
    && (Window(c, id, t.hist, TWO63) ==> Afforded(c, t.hist, attempt) || (attempt == 0 && now >= Expiry(c, id)))
  }

  /** The failed Deliver calls before the last one are accounted for by the faults and the attempt. */
  predicate Afforded(c: Config, h: History, attempt: nat) {
    h.fails - 1 <= Allowed(h.readFaults, c.maxAttempts) + attempt
  }

  predicate Bounded(c: Config, id: Id, h: History) {
    Window(c, id, h, TWO63) ==> h.delivers <= Allowed(h.readFaults, c.maxAttempts) + c.maxAttempts + 1
  }

  ghost predicate Good(c: Config, now: int, id: Id, p: Place, t: Track) {
    match p
    case InQueue => Rested(c, id, now, t)
    case InHand(_) => Rested(c, id, now, t)
    case InRetry(score) => Rested(c, id, now, t) && t.hist.fails >= 1 && score <= Unix(Expiry(c, id))
    case InJob(_, stage) => GoodStage(c, now, id, stage, t)
    case InDone(fate) =>
      && (t.hist.acked <==> fate == WasDelivered) && Bounded(c, id, t.hist)
      && (!t.hist.dbFault ==> t.webhook == FinalState(fate))
      && (fate == WasDelivered ==> Deliverable(c, id)) && (fate == WasSkipped ==> PollOnly(c, id))
  }

  function FinalState(fate: Fate): WebhookState {
    match fate
    case WasDelivered => Handoff.Delivered
    case WasFailed => Handoff.Failed
    case WasSkipped => Handoff.Pending
  }

  ghost predicate GoodStage(c: Config, now: int, id: Id, stage: Stage, t: Track) {
    match stage
    case AtFetch => Rested(c, id, now, t)
    case AtRequeue => Rested(c, id, now, t)
    case AtMarkDelivering => Rested(c, id, now, t) && Deliverable(c, id)
    case AtDeliver =>
      Rested(c, id, now, t) && Deliverable(c, id) && (!t.hist.dbFault ==> t.webhook == Handoff.Delivering)
    case AtMarkDelivered =>
      t.hist.acked && Deliverable(c, id) && (!t.hist.dbFault ==> t.webhook == Handoff.Delivering) &&
      Bounded(c, id, t.hist) &&
      (t.webhook == Handoff.Pending || t.webhook == Handoff.Delivering)
    case AtReadCounter => Failing(c, id, now, t) && (t.hist.first.None? <==> t.hist.fails == 1)
    case AtSchedule(attempt) =>
      Failing(c, id, now, t) && (t.hist.first.None? <==> t.hist.fails == 1) && AttemptRead(c, id, now, t, attempt)
    case AtSaveCounter(attempt, score, ttl) =>
      && Failing(c, id, now, t) && t.hist.first.Some?
      && attempt < c.maxAttempts && score <= Unix(Expiry(c, id))
      && (Window(c, id, t.hist, TWO63) ==> now + ttl >= Expiry(c, id))
      && WithinBudget(c, id, t.hist, attempt)
      && (Exact(c, id, t.hist) ==> attempt == t.hist.fails - 1)
      && (Window(c, id, t.hist, TWO63) ==> Afforded(c, t.hist, attempt))
    case AtAddRetry(score) =>
      Rested(c, id, now, t) && t.hist.fails >= 1 && score <= Unix(Expiry(c, id))
    case AtMarkFailed => Running(t) && Bounded(c, id, t.hist)
  }

  ghost predicate Tracked(c: Config, s: State) {
    forall id, p :: Sits(s, id, p) ==> id in s.hist && Good(c, s.now, id, p, TrackOf(s, id))
  }

  // ----- One command of processOne keeps it -----

  /** The place a move of replica r brings the id to. */
  function Landing(r: nat, move: Move): Place {
    match move
    case Stay(stage) => InJob(r, stage)
    case Back => InQueue
    case Wait(score) => InRetry(score)
    case End(fate) => InDone(fate)
  }

  lemma StageStep(c: Config, s: State, r: nat, id: Id, stage: Stage, cmd: Command)
    requires ValidConfig(c) && id in s.hist && Fits(stage, cmd)
    requires GoodStage(c, s.now, id, stage, TrackOf(s, id))
    ensures Good(c, s.now, id, Landing(r, Next(c, s, id, stage, cmd)), TrackOf(Effect(s, id, stage, cmd), id))
  {
    match cmd
    case Schedule => ScheduleStep(c, s, r, id, stage);
    case ReadCounter(ok) => ReadCounterStep(c, s, r, id, ok);
    case SaveCounter(ok) => SaveCounterStep(c, s, r, id, stage, ok);
    case Deliver(outcome) => DeliverStep(c, s, r, id, outcome);
    case Fetch(_) => QuietStep(c, s, r, id, stage, cmd);
    case Requeue => QuietStep(c, s, r, id, stage, cmd);
    case AddRetry(_) => QuietStep(c, s, r, id, stage, cmd);
    case _ => StateStep(c, s, r, id, stage, cmd);
  }

  lemma QuietStep(c: Config, s: State, r: nat, id: Id, stage: Stage, cmd: Command)
    requires cmd.Fetch? || cmd.Requeue? || cmd.AddRetry?
    requires ValidConfig(c) && id in s.hist && Fits(stage, cmd)
    requires GoodStage(c, s.now, id, stage, TrackOf(s, id))
    ensures Good(c, s.now, id, Landing(r, Next(c, s, id, stage, cmd)), TrackOf(Effect(s, id, stage, cmd), id))
  {
  }

  lemma StateStep(c: Config, s: State, r: nat, id: Id, stage: Stage, cmd: Command)
    requires cmd.MarkDelivering? || cmd.MarkDelivered? || cmd.MarkFailed?
    requires ValidConfig(c) && id in s.hist && Fits(stage, cmd)
    requires GoodStage(c, s.now, id, stage, TrackOf(s, id))
    ensures Good(c, s.now, id, Landing(r, Next(c, s, id, stage, cmd)), TrackOf(Effect(s, id, stage, cmd), id))
  {
  }

  lemma DeliverStep(c: Config, s: State, r: nat, id: Id, outcome: Outcome)
    requires ValidConfig(c) && id in s.hist
    requires GoodStage(c, s.now, id, AtDeliver, TrackOf(s, id))
    ensures Good(c, s.now, id, Landing(r, Next(c, s, id, AtDeliver, Deliver(outcome))),
                 TrackOf(Effect(s, id, AtDeliver, Deliver(outcome)), id))
  {
  }

  lemma ReadCounterStep(c: Config, s: State, r: nat, id: Id, ok: bool)
    requires ValidConfig(c) && id in s.hist
    requires GoodStage(c, s.now, id, AtReadCounter, TrackOf(s, id))
    ensures Good(c, s.now, id, Landing(r, Next(c, s, id, AtReadCounter, ReadCounter(ok))),
                 TrackOf(Effect(s, id, AtReadCounter, ReadCounter(ok)), id))
  {
  }

  lemma SaveCounterStep(c: Config, s: State, r: nat, id: Id, stage: Stage, ok: bool)
    requires ValidConfig(c) && id in s.hist && stage.AtSaveCounter?
    requires GoodStage(c, s.now, id, stage, TrackOf(s, id))
    ensures Good(c, s.now, id, Landing(r, Next(c, s, id, stage, SaveCounter(ok))),
                 TrackOf(Effect(s, id, stage, SaveCounter(ok)), id))
  {
  }

  lemma ScheduleStep(c: Config, s: State, r: nat, id: Id, stage: Stage)
    requires ValidConfig(c) && id in s.hist && stage.AtSchedule?
    requires GoodStage(c, s.now, id, stage, TrackOf(s, id))
    ensures Good(c, s.now, id, Landing(r, Next(c, s, id, stage, Schedule)), TrackOf(Effect(s, id, stage, Schedule), id))
  {
    var t := TrackOf(s, id);
    var t' := TrackOf(Effect(s, id, stage, Schedule), id);
    assert t'.hist.first.Some? && t'.hist.first.value <= s.now;
    if Ruling(c, s, id, stage).RetryAt? {
      AcceptedInsideExpiry(c.base, c.maxAttempts, stage.attempt, s.now, Expiry(c, id));
      if Window(c, id, t'.hist, TWO62) {
        NoOverflow(c, id, s.now, t', stage.attempt);
        AcceptedIff(c.base, c.maxAttempts, stage.attempt, s.now, Expiry(c, id));
      }
    }
  }

  /** The budget of the previous attempt keeps the doubled delay of this one below 2^63. */
  lemma NoOverflow(c: Config, id: Id, now: int, t: Track, attempt: nat)
    requires ValidConfig(c) && Window(c, id, t.hist, TWO62)
    requires attempt >= 1 ==> WithinBudget(c, id, t.hist, attempt - 1)
    ensures c.base * Pow2(attempt) < TWO63
  {
    if attempt >= 1 { DoubledDelay(c.base, attempt); } else { assert Pow2(0) == 1; }
  }

  // ----- Every step keeps it -----

  lemma GoodLater(c: Config, now: int, later: int, id: Id, p: Place, t: Track)
    requires now <= later && Good(c, now, id, p, t)
    ensures Good(c, later, id, p, t)
  {
    if p.InJob? { StageLater(c, now, later, id, p.stage, t); } else { RestedLater(c, now, later, id, t); }
  }

  lemma RestedLater(c: Config, now: int, later: int, id: Id, t: Track)
    requires now <= later
    ensures Rested(c, id, now, t) ==> Rested(c, id, later, t)
    ensures Failing(c, id, now, t) ==> Failing(c, id, later, t)
  {
  }

  lemma StageLater(c: Config, now: int, later: int, id: Id, stage: Stage, t: Track)
    requires now <= later && GoodStage(c, now, id, stage, t)
    ensures GoodStage(c, later, id, stage, t)
  {
    RestedLater(c, now, later, id, t);
  }

  /** Only produced ids have a counter or a webhook_state of their own. */
  ghost predicate Known(s: State) {
    s.store.counters.Keys <= s.hist.Keys && s.store.webhook.Keys <= s.hist.Keys
  }

  function DoneWith(s: State, fate: Fate): set<Id> {
    set id | id in s.done && s.done[id] == fate
  }

  /** The outcome metric counts the ids, each once. */
  ghost predicate Metered(s: State) {
    s.store.delivered == |DoneWith(s, WasDelivered)| && s.store.failed == |DoneWith(s, WasFailed)|
  }

  ghost predicate Inv(c: Config, s: State) {
    ValidConfig(c) && Owned(s) && Known(s) && Metered(s) && Tracked(c, s)
  }

  lemma TickKeeps(c: Config, s: State, to: int)
    requires Inv(c, s) && s.now <= to
    ensures Inv(c, s.(now := to))
  {
    var s' := s.(now := to);
    forall id {:trigger Places(s', id)}
      ensures Places(s', id) == Bit(id in s'.hist)
    {
      assert Places(s, id) == Bit(id in s.hist);
    }
    forall id, p | Sits(s', id, p)
      ensures id in s'.hist && Good(c, to, id, p, TrackOf(s', id))
    {
      assert Sits(s, id, p);
      GoodLater(c, s.now, to, id, p, TrackOf(s, id));
    }
    assert DoneWith(s', WasDelivered) == DoneWith(s, WasDelivered) && DoneWith(s', WasFailed) == DoneWith(s, WasFailed);
  }

  /** From s to s' every id other than x stays where it was, with the data it had. */
  ghost predicate OthersStay(s: State, s': State, x: Id) {
    && s'.now == s.now
    && (forall id, p :: id != x && Sits(s', id, p) ==> Sits(s, id, p))
    && (forall id :: id != x && id in s.hist ==> id in s'.hist && TrackOf(s', id) == TrackOf(s, id))
  }

  lemma OneMoves(c: Config, s: State, s': State, x: Id, q: Place)
    requires Tracked(c, s) && Owned(s') && OthersStay(s, s', x)
    requires x in s'.hist && Sits(s', x, q) && Good(c, s'.now, x, q, TrackOf(s', x))
    ensures Tracked(c, s')
  {
    forall id, p | Sits(s', id, p)
      ensures id in s'.hist && Good(c, s'.now, id, p, TrackOf(s', id))
    {
      if id == x { OnePlace(s', x, p, q); } else { assert Sits(s, id, p); }
    }
  }

  lemma NoneMoves(c: Config, s: State, s': State)
    requires Tracked(c, s) && s'.now == s.now && s'.hist == s.hist && s'.store == s.store
    requires forall id, p :: Sits(s', id, p) ==> Sits(s, id, p)
    ensures Tracked(c, s')
  {
  }

  lemma ProduceKeeps(c: Config, s: State, x: Id)
    requires Inv(c, s) && x !in s.hist && Owned(Apply(c, s, Produce(x)))
    ensures Tracked(c, Apply(c, s, Produce(x)))
  {
    OneMoves(c, s, Apply(c, s, Produce(x)), x, InQueue);
  }

  lemma PopMoves(s: State, r: nat)
    requires r < |s.reps| && s.reps[r].job == NoJob && s.store.queue != []
    ensures OthersStay(s, ApplyPop(s, r, true), RightEnd(s.store))
    ensures Sits(ApplyPop(s, r, true), RightEnd(s.store), InJob(r, AtFetch))
  {
  }

  lemma PopKeeps(c: Config, s: State, r: nat, ok: bool)
    requires Tracked(c, s) && Enabled(c, s, Pop(r, ok)) && Owned(ApplyPop(s, r, ok))
    ensures Tracked(c, ApplyPop(s, r, ok))
  {
    if ok && s.store.queue != [] {
      var x := RightEnd(s.store);
      assert Sits(s, x, InQueue);
      PopMoves(s, r);
      OneMoves(c, s, ApplyPop(s, r, ok), x, InJob(r, AtFetch));
    } else {
      NoneMoves(c, s, ApplyPop(s, r, ok));
    }
  }

  lemma ClaimMoves(s: State, r: nat, x: Id)
    requires r < |s.reps| && s.reps[r].phase.Claiming? && s.reps[r].phase.todo != []
    requires x == s.reps[r].phase.todo[0] && x in s.store.retry
    ensures OthersStay(s, ApplyClaim(s, r), x)
    ensures Sits(ApplyClaim(s, r), x, InHand(r))
  {
  }

  lemma ClaimKeeps(c: Config, s: State, r: nat)
    requires Tracked(c, s) && Enabled(c, s, Claim(r)) && Owned(ApplyClaim(s, r))
    ensures Tracked(c, ApplyClaim(s, r))
  {
    var todo := s.reps[r].phase.todo;
    if todo != [] && todo[0] in s.store.retry {
      assert Sits(s, todo[0], InRetry(s.store.retry[todo[0]]));
      ClaimMoves(s, r, todo[0]);
      OneMoves(c, s, ApplyClaim(s, r), todo[0], InHand(r));
    } else {
      NoneMoves(c, s, ApplyClaim(s, r));
    }
  }

  lemma TakeMoves(s: State, r: nat)
    requires r < |s.reps| && s.reps[r].job == NoJob && s.reps[r].held != []
    ensures OthersStay(s, ApplyTake(s, r), s.reps[r].held[0])
    ensures Sits(ApplyTake(s, r), s.reps[r].held[0], InJob(r, AtFetch))
  {
  }

  lemma TakeKeeps(c: Config, s: State, r: nat)
    requires Tracked(c, s) && Enabled(c, s, Take(r)) && Owned(ApplyTake(s, r))
    ensures Tracked(c, ApplyTake(s, r))
  {
    var held := s.reps[r].held;
    if held != [] {
      assert Sits(s, held[0], InHand(r));
      TakeMoves(s, r);
      OneMoves(c, s, ApplyTake(s, r), held[0], InJob(r, AtFetch));
    } else {
      NoneMoves(c, s, ApplyTake(s, r));
    }
  }

  lemma WorkMoves(c: Config, s: State, r: nat, cmd: Command)
    requires Busy(s, r) && Fits(s.reps[r].job.stage, cmd)
    ensures var Job(x, stage) := s.reps[r].job;
      && OthersStay(s, ApplyWork(c, s, r, cmd), x)
      && Sits(ApplyWork(c, s, r, cmd), x, Landing(r, Next(c, s, x, stage, cmd)))
      && x in ApplyWork(c, s, r, cmd).hist
      && TrackOf(ApplyWork(c, s, r, cmd), x) == TrackOf(Effect(s, x, stage, cmd), x)
  {
    var Job(x, stage) := s.reps[r].job;
    EffectFrame(s, x, stage, cmd);
    SettleMoves(Effect(s, x, stage, cmd), r, x, Next(c, s, x, stage, cmd));
  }

  lemma SettleMoves(e: State, r: nat, x: Id, move: Move)
    requires r < |e.reps| && x in e.hist
    ensures OthersStay(e, Settle(e, r, x, move), x)
    ensures Sits(Settle(e, r, x, move), x, Landing(r, move))
    ensures Settle(e, r, x, move).hist == e.hist && TrackOf(Settle(e, r, x, move), x) == TrackOf(e, x)
  {
  }

  lemma WorkKeeps(c: Config, s: State, r: nat, cmd: Command)
    requires ValidConfig(c) && Tracked(c, s) && Enabled(c, s, Work(r, cmd)) && Owned(ApplyWork(c, s, r, cmd))
    ensures Tracked(c, ApplyWork(c, s, r, cmd))
  {
    var Job(x, stage) := s.reps[r].job;
    assert Sits(s, x, InJob(r, stage));
    StageStep(c, s, r, x, stage, cmd);
    WorkMoves(c, s, r, cmd);
    OneMoves(c, s, ApplyWork(c, s, r, cmd), x, Landing(r, Next(c, s, x, stage, cmd)));
  }

  /** Finishing an id counts it once, in its own metric. */
  lemma WorkMeters(c: Config, s: State, r: nat, cmd: Command)
    requires Owned(s) && Known(s) && Metered(s) && Enabled(c, s, Work(r, cmd))
    ensures Known(ApplyWork(c, s, r, cmd)) && Metered(ApplyWork(c, s, r, cmd))
  {
    var Job(x, stage) := s.reps[r].job;
    Exclusive(s, r, x);
    EffectMeters(c, s, x, stage, cmd);
    SettleMeters(s, Effect(s, x, stage, cmd), r, x, Next(c, s, x, stage, cmd));
  }

  lemma SettleMeters(s: State, e: State, r: nat, x: Id, move: Move)
    requires Metered(s) && Known(e) && r < |e.reps| && x !in s.done && e.done == s.done
    requires e.store.delivered == s.store.delivered + Bit(move == End(WasDelivered))
    requires e.store.failed == s.store.failed + Bit(move == End(WasFailed))
    ensures Known(Settle(e, r, x, move)) && Metered(Settle(e, r, x, move))
  {
    forall fate
      ensures DoneWith(e, fate) == DoneWith(s, fate)
    {
    }
    DoneAfter(e, r, x, move, WasDelivered);
    DoneAfter(e, r, x, move, WasFailed);
  }

  lemma EffectMeters(c: Config, s: State, x: Id, stage: Stage, cmd: Command)
    requires x in s.hist && Fits(stage, cmd) && Known(s)
    ensures var e := Effect(s, x, stage, cmd);
      && Known(e) && e.done == s.done && e.reps == s.reps
      && e.store.delivered == s.store.delivered + Bit(Next(c, s, x, stage, cmd) == End(WasDelivered))
      && e.store.failed == s.store.failed + Bit(Next(c, s, x, stage, cmd) == End(WasFailed))
  {
  }

  lemma DoneAfter(e: State, r: nat, x: Id, move: Move, fate: Fate)
    requires r < |e.reps| && x !in e.done
    ensures DoneWith(Settle(e, r, x, move), fate) == DoneWith(e, fate) + (if move == End(fate) then {x} else {})
  {
  }

  lemma CycleMeters(c: Config, s: State, a: Action)
    requires Inv(c, s) && Enabled(c, s, a) && !a.Work?
    ensures Known(Apply(c, s, a)) && Metered(Apply(c, s, a))
  {
    CycleKeepsRecords(c, s, a);
    RecordsMeter(s, Apply(c, s, a));
  }

  lemma CycleKeepsRecords(c: Config, s: State, a: Action)
    requires Enabled(c, s, a) && !a.Work?
    ensures SameRecords(s, Apply(c, s, a))
  {
  }

  ghost predicate SameRecords(s: State, s': State) {
    && s'.done == s.done && s.hist.Keys <= s'.hist.Keys
    && s'.store.delivered == s.store.delivered && s'.store.failed == s.store.failed
    && s'.store.counters == s.store.counters && s'.store.webhook == s.store.webhook
  }

  lemma RecordsMeter(s: State, s': State)
    requires Known(s) && Metered(s) && SameRecords(s, s')
    ensures Known(s') && Metered(s')
  {
    forall fate
      ensures DoneWith(s', fate) == DoneWith(s, fate)
    {
    }
  }

  lemma InvStep(c: Config, s: State, a: Action)
    requires Inv(c, s) && Enabled(c, s, a)
    ensures Inv(c, Apply(c, s, a))
  {
    OwnershipStep(c, s, a);
    match a
    case Work(r, cmd) => WorkKeeps(c, s, r, cmd); WorkMeters(c, s, r, cmd);
    case _ =>
      CycleMeters(c, s, a);
      CycleKeeps(c, s, a);
  }

  lemma CycleKeeps(c: Config, s: State, a: Action)
    requires Inv(c, s) && Enabled(c, s, a) && !a.Work? && Owned(Apply(c, s, a))
    ensures Tracked(c, Apply(c, s, a))
  {
    match a
    case Tick(to) => TickKeeps(c, s, to);
    case Produce(x) => ProduceKeeps(c, s, x);
    case Pop(r, ok) => PopKeeps(c, s, r, ok);
    case Claim(r) => ClaimKeeps(c, s, r);
    case Take(r) => TakeKeeps(c, s, r);
    case ReadClock(_) => NoneMoves(c, s, Apply(c, s, a));
    case Range(_, _, _) => NoneMoves(c, s, Apply(c, s, a));
  }

  lemma InitInv(c: Config, s: State)
    requires ValidConfig(c) && Init(s)
    ensures Inv(c, s)
  {
    forall id
      ensures Places(s, id) == Bit(id in s.hist)
    {
      OwnAllIdle(s.reps, id);
    }
    assert DoneWith(s, WasDelivered) == {} && DoneWith(s, WasFailed) == {};
  }

  lemma {:induction false} RunInv(c: Config, s: State, acts: seq<Action>)
    requires Inv(c, s) && CanRun(c, s, acts)
    ensures Inv(c, Run(c, s, acts))
    decreases |acts|
  {
    if acts != [] {
      InvStep(c, s, acts[0]);
      RunInv(c, Apply(c, s, acts[0]), acts[1..]);
    }
  }

  lemma ReachableInv(c: Config, s: State)
    requires ValidConfig(c) && Reachable(c, s)
    ensures Inv(c, s)
  {
    var s0, acts :| Init(s0) && CanRun(c, s0, acts) && Run(c, s0, acts) == s;
    InitInv(c, s0);
    RunInv(c, s0, acts);
  }
}
