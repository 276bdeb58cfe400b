/** What one uninterrupted call of the consumer's functions does to the stores, and that it is a run of the protocol. */
module Processing {
  import opened Backoff
  import opened Handoff
  import opened Delivery

  /** The answers one processOne call gets from the stores and from the client's webhook. */
  datatype Answers = Answers(
    read: Read, markOk: bool, outcome: Outcome, deliveredOk: bool,
    counterOk: bool, saveOk: bool, addOk: bool, failedOk: bool)

  /**
   * The instants of one processOne call: the store reads the attempt counter, Schedule reads its clock, the store
   * writes the counter.
   */
  datatype Times = Times(read: int, schedule: int, save: int)

  predicate Ordered(t: Times) {
    t.read <= t.schedule <= t.save
  }

  datatype ScheduleError = NoError | ErrExhausted | ErrExpired | ErrStore

  function Scheduling(c: Config, attempt: nat, now: int, expiresAt: int, o: Answers): ScheduleError {
    match Decide(c.base, c.maxAttempts, attempt, now, expiresAt)
    case Exhausted => ErrExhausted
    case Expired => ErrExpired
    case RetryAt(_, _) => if o.saveOk && o.addOk then NoError else ErrStore
  }

  /** The store Schedule leaves: a refusal writes nothing, a failed ZADD leaves the counter written. */
  function Scheduled(c: Config, st: Store, id: Id, attempt: nat, t: Times, expiresAt: int, o: Answers): Store {
    match Decide(c.base, c.maxAttempts, attempt, t.schedule, expiresAt)
    case RetryAt(score, ttl) =>
      if !o.saveOk then st
      else
        var saved := SetCounter(st, id, attempt + 1, t.save + ttl);
        if o.addOk then ZAdd(saved, id, score) else saved
    case _ => st
  }

  function Written(st: Store, id: Id, w: WebhookState, ok: bool): Store {
    if ok then SetWebhook(st, id, w) else st
  }

  function Terminated(st: Store, id: Id, o: Answers): Store {
    CountFailed(Written(st, id, Handoff.Failed, o.failedOk))
  }

  function Retried(c: Config, t: Times, st: Store, id: Id, expiresAt: int, o: Answers): Store {
    var attempt := if o.counterOk then GetCounter(st, id, t.read) else 0;
    var st' := Scheduled(c, st, id, attempt, t, expiresAt, o);
    if Scheduling(c, attempt, t.schedule, expiresAt, o) == NoError then st' else Terminated(st', id, o)
  }

  function Attempted(c: Config, t: Times, st: Store, id: Id, expiresAt: int, o: Answers): Store {
    match o.outcome
    case Accepted => CountDelivered(Written(st, id, Handoff.Delivered, o.deliveredOk))
    case Permanent => Terminated(st, id, o)
    case Transient => Retried(c, t, st, id, expiresAt, o)
  }

  function Processed(c: Config, t: Times, st: Store, id: Id, o: Answers): Store {
    match o.read
    case Missing => Terminated(st, id, o)
    case Unreadable => LPush(st, id)
    case Found =>
      match c.payload(id)
      case Malformed => Terminated(st, id, o)
      case Envelope(url, expiresAt) =>
        if url == "" then st
        else Attempted(c, t, Written(st, id, Handoff.Delivering, o.markOk), id, expiresAt, o)
  }

  /**
   * What each answer to the payload read does: an id whose payload is gone or malformed is failed and counted, never
   * dropped; one that cannot be read goes back to the queue; one without a webhook leaves everything as it was; any
   * other is marked as being delivered before its Deliver call.
   */
  lemma FetchSettles(c: Config, t: Times, st: Store, id: Id, o: Answers)
    ensures var st' := Processed(c, t, st, id, o); var found := o.read == Found && c.payload(id).Envelope?;
      && (o.read == Missing || (o.read == Found && c.payload(id) == Malformed) ==>
            st' == st.(failed := st.failed + 1,
                       webhook := if o.failedOk then st.webhook[id := Handoff.Failed] else st.webhook))
      && (o.read == Unreadable ==> st' == st.(queue := [id] + st.queue))
      && (found && c.payload(id).webhookURL == "" ==> st' == st)
      && (found && c.payload(id).webhookURL != "" ==>
            var marked := if o.markOk then st.webhook[id := Handoff.Delivering] else st.webhook;
            st' == Attempted(c, t, st.(webhook := marked), id, c.payload(id).expiresAt, o))
  {
  }

  /**
   * And what each answer to the POST does: a 2xx is counted as delivered; a permanently bad payload is failed without a
   * retry; a transient failure is failed exactly if Schedule errs, and otherwise leaves the next attempt's counter and
   * its place in the retry set.
   */
  lemma DeliverSettles(c: Config, t: Times, st: Store, id: Id, expiresAt: int, o: Answers)
    ensures var st' := Attempted(c, t, st, id, expiresAt, o);
      var attempt := if o.counterOk then GetCounter(st, id, t.read) else 0;
      var v := Decide(c.base, c.maxAttempts, attempt, t.schedule, expiresAt);
      var failed := if o.failedOk then st.webhook[id := Handoff.Failed] else st.webhook;
      && (o.outcome == Accepted ==> st' == st.(
            delivered := st.delivered + 1,
            webhook := if o.deliveredOk then st.webhook[id := Handoff.Delivered] else st.webhook))
      && (o.outcome == Permanent ==> st' == st.(failed := st.failed + 1, webhook := failed))
      && (o.outcome == Transient && v.RetryAt? && o.saveOk && o.addOk ==> st' == st.(
            counters := st.counters[id := Counter(attempt + 1, t.save + v.ttl)], retry := st.retry[id := v.score]))
      && (o.outcome == Transient && !(v.RetryAt? && o.saveOk && o.addOk) ==> st' == st.(
            counters := if v.RetryAt? && o.saveOk then st.counters[id := Counter(attempt + 1, t.save + v.ttl)]
                        else st.counters,
            failed := st.failed + 1, webhook := failed))
  {
  }

  // ----- An uninterrupted call is a run of the protocol -----

  function CommandAt(stage: Stage, o: Answers): (cmd: Command)
    ensures Fits(stage, cmd)
  {
    match stage
    case AtFetch => Fetch(o.read)
    case AtRequeue => Requeue
    case AtMarkDelivering => MarkDelivering(o.markOk)
    case AtDeliver => Deliver(o.outcome)
    case AtMarkDelivered => MarkDelivered(o.deliveredOk)
    case AtReadCounter => ReadCounter(o.counterOk)
    case AtSchedule(_) => Schedule
    case AtSaveCounter(_, _, _) => SaveCounter(o.saveOk)
    case AtAddRetry(_) => AddRetry(o.addOk)
    case AtMarkFailed => MarkFailed(o.failedOk)
  }

  function Rank(stage: Stage): nat {
    match stage
    case AtFetch => 9
    case AtMarkDelivering => 8
    case AtDeliver => 7
    case AtReadCounter => 6
    case AtSchedule(_) => 5
    case AtSaveCounter(_, _, _) => 4
    case AtAddRetry(_) => 3
    case _ => 1
  }

  /** The store after processOne has run to its end from a stage on. */
  function FromStage(c: Config, t: Times, st: Store, id: Id, stage: Stage, o: Answers): Store {
    match stage
    case AtFetch => Processed(c, t, st, id, o)
    case AtRequeue => LPush(st, id)
    case AtMarkDelivering => Attempted(c, t, Written(st, id, Handoff.Delivering, o.markOk), id, ExpiryOf(c, id), o)
    case AtDeliver => Attempted(c, t, st, id, ExpiryOf(c, id), o)
    case AtMarkDelivered => CountDelivered(Written(st, id, Handoff.Delivered, o.deliveredOk))
    case AtReadCounter => Retried(c, t, st, id, ExpiryOf(c, id), o)
    case AtSchedule(attempt) => AfterSchedule(c, t, st, id, attempt, o)
    case AtSaveCounter(attempt, score, ttl) =>
      if o.saveOk then AfterSave(SetCounter(st, id, attempt + 1, t.save + ttl), id, score, o) else Terminated(st, id, o)
    case AtAddRetry(score) => AfterSave(st, id, score, o)
    case AtMarkFailed => Terminated(st, id, o)
  }

  function ExpiryOf(c: Config, id: Id): int {
    if c.payload(id).Envelope? then c.payload(id).expiresAt else 0
  }

  function AfterSchedule(c: Config, t: Times, st: Store, id: Id, attempt: nat, o: Answers): Store {
    var st' := Scheduled(c, st, id, attempt, t, ExpiryOf(c, id), o);
    if Scheduling(c, attempt, t.schedule, ExpiryOf(c, id), o) == NoError then st' else Terminated(st', id, o)
  }

  function AfterSave(st: Store, id: Id, score: int, o: Answers): Store {
    if o.addOk then ZAdd(st, id, score) else Terminated(st, id, o)
  }

  /** Past the fetch, processOne only goes on for an id with an envelope. */
  predicate Enveloped(c: Config, id: Id, stage: Stage) {
    Rank(stage) in {4, 5, 6, 7, 8} ==> c.payload(id).Envelope?
  }

  /** The instant a stage's command is issued at: one of the three if it depends on it, else as soon as possible. */
  function TimeAt(t: Times, stage: Stage, now: int): int {
    match stage
    case AtReadCounter => t.read
    case AtSchedule(_) => t.schedule
    case AtSaveCounter(_, _, _) => t.save
    case _ => now
  }

  /** It is not too late for the rest of the call to keep to the instants. */
  predicate InTime(t: Times, stage: Stage, now: int) {
    && Ordered(t) && now <= t.save
    && (Rank(stage) == 5 ==> now <= t.schedule)
    && (Rank(stage) >= 6 ==> now <= t.read)
  }

  /** One command of the protocol brings the call one stage on, without changing where it ends. */
  lemma StageUnfolds(c: Config, t: Times, s: State, r: nat, o: Answers)
    requires Busy(s, r) && s.now == TimeAt(t, s.reps[r].job.stage, s.now) &&
      Enveloped(c, s.reps[r].job.id, s.reps[r].job.stage)
    ensures var Job(id, stage) := s.reps[r].job; var cmd := CommandAt(stage, o); var s' := ApplyWork(c, s, r, cmd);
      && s'.now == s.now && s'.hist.Keys == s.hist.Keys && s'.hist[id] == Effect(s, id, stage, cmd).hist[id]
      && |s'.reps| == |s.reps| && s'.reps == s.reps[r := s'.reps[r]]
      && s'.reps[r] == s.reps[r].(job := s'.reps[r].job)
      && match Next(c, s, id, stage, cmd)
         case Stay(stage') =>
           && s'.reps[r].job == Job(id, stage') && Rank(stage') < Rank(stage) && Enveloped(c, id, stage')
           && FromStage(c, t, s'.store, id, stage', o) == FromStage(c, t, s.store, id, stage, o)
         case _ => s'.reps[r].job == NoJob && s'.store == FromStage(c, t, s.store, id, stage, o)
  {
    var Job(id, stage) := s.reps[r].job;
    var cmd := CommandAt(stage, o);
    EffectFrame(s, id, stage, cmd);
    EffectStore(s, id, stage, cmd);
    EndUnchanged(c, t, s, id, stage, o);
    SettleShape(Effect(s, id, stage, cmd), r, id, Next(c, s, id, stage, cmd));
  }

  function Settled(st: Store, id: Id, move: Move): Store {
    match move
    case Back => LPush(st, id)
    case Wait(score) => ZAdd(st, id, score)
    case _ => st
  }

  lemma SettleShape(e: State, r: nat, id: Id, move: Move)
    requires r < |e.reps|
    ensures var s' := Settle(e, r, id, move);
      && s'.now == e.now && s'.hist == e.hist && s'.store == Settled(e.store, id, move)
      && s'.reps == e.reps[r := e.reps[r].(job := if move.Stay? then Job(id, move.stage) else NoJob)]
  {
  }

  lemma EndUnchanged(c: Config, t: Times, s: State, id: Id, stage: Stage, o: Answers)
    requires Enveloped(c, id, stage) && s.now == TimeAt(t, stage, s.now)
    ensures var cmd := CommandAt(stage, o); var st := EffectOnStore(s.now, s.store, id, stage, cmd);
      match Next(c, s, id, stage, cmd)
      case Stay(stage') =>
        && Rank(stage') < Rank(stage) && Enveloped(c, id, stage')
        && FromStage(c, t, st, id, stage', o) == FromStage(c, t, s.store, id, stage, o)
      case move => Settled(st, id, move) == FromStage(c, t, s.store, id, stage, o)
  {
    if Rank(stage) >= 7 { OpeningUnchanged(c, t, s, id, stage, o); } else { ClosingUnchanged(c, t, s, id, stage, o); }
  }

  lemma OpeningUnchanged(c: Config, t: Times, s: State, id: Id, stage: Stage, o: Answers)
    requires Rank(stage) >= 7 && Enveloped(c, id, stage) && s.now == TimeAt(t, stage, s.now)
    ensures var cmd := CommandAt(stage, o); var st := EffectOnStore(s.now, s.store, id, stage, cmd);
      match Next(c, s, id, stage, cmd)
      case Stay(stage') =>
        && Rank(stage') < Rank(stage) && Enveloped(c, id, stage')
        && FromStage(c, t, st, id, stage', o) == FromStage(c, t, s.store, id, stage, o)
      case move => Settled(st, id, move) == FromStage(c, t, s.store, id, stage, o)
  {
  }

  lemma ClosingUnchanged(c: Config, t: Times, s: State, id: Id, stage: Stage, o: Answers)
    requires Rank(stage) < 7 && Enveloped(c, id, stage) && s.now == TimeAt(t, stage, s.now)
    ensures var cmd := CommandAt(stage, o); var st := EffectOnStore(s.now, s.store, id, stage, cmd);
      match Next(c, s, id, stage, cmd)
      case Stay(stage') =>
        && Rank(stage') < Rank(stage) && Enveloped(c, id, stage')
        && FromStage(c, t, st, id, stage', o) == FromStage(c, t, s.store, id, stage, o)
      case move => Settled(st, id, move) == FromStage(c, t, s.store, id, stage, o)
  {
  }

  function EffectOnStore(now: int, st: Store, id: Id, stage: Stage, cmd: Command): Store
    requires Fits(stage, cmd)
  {
    match cmd
    case MarkDelivering(ok) => Written(st, id, Handoff.Delivering, ok)
    case MarkDelivered(ok) => CountDelivered(Written(st, id, Handoff.Delivered, ok))
    case SaveCounter(ok) => if ok then SetCounter(st, id, stage.nextAttempt + 1, now + stage.ttl) else st
    case MarkFailed(ok) => CountFailed(Written(st, id, Handoff.Failed, ok))
    case _ => st
  }

  lemma EffectStore(s: State, id: Id, stage: Stage, cmd: Command)
    requires id in s.hist && Fits(stage, cmd)
    ensures Effect(s, id, stage, cmd).store == EffectOnStore(s.now, s.store, id, stage, cmd)
  {
  }

  /** The Deliver calls and the failed counter reads still to come from a stage on. */
  function CallsFrom(c: Config, id: Id, stage: Stage, o: Answers): (nat, nat) {
    var delivers := stage == AtMarkDelivering || stage == AtDeliver ||
      (stage == AtFetch && o.read == Found && c.payload(id).Envelope? && c.payload(id).webhookURL != "");
    var counted := stage == AtReadCounter || (delivers && o.outcome == Transient);
    (Bit(delivers), Bit(counted && !o.counterOk))
  }

  /** The same counts, those of the history included. */
  function CallsWith(c: Config, h: History, id: Id, stage: Stage, o: Answers): (nat, nat) {
    (h.delivers + CallsFrom(c, id, stage, o).0, h.readFaults + CallsFrom(c, id, stage, o).1)
  }

  lemma CallsUnfold(c: Config, s: State, r: nat, o: Answers)
    requires Busy(s, r)
    ensures var Job(id, stage) := s.reps[r].job; var cmd := CommandAt(stage, o);
      var h' := Effect(s, id, stage, cmd).hist[id];
      match Next(c, s, id, stage, cmd)
      case Stay(stage') => CallsWith(c, h', id, stage', o) == CallsWith(c, s.hist[id], id, stage, o)
      case _ => (h'.delivers, h'.readFaults) == CallsWith(c, s.hist[id], id, stage, o)
  {
    if Rank(s.reps[r].job.stage) >= 7 { OpeningCalls(c, s, r, o); } else { ClosingCalls(c, s, r, o); }
  }

  lemma OpeningCalls(c: Config, s: State, r: nat, o: Answers)
    requires Busy(s, r) && Rank(s.reps[r].job.stage) >= 7
    ensures var Job(id, stage) := s.reps[r].job; var cmd := CommandAt(stage, o);
      var h' := Effect(s, id, stage, cmd).hist[id];
      match Next(c, s, id, stage, cmd)
      case Stay(stage') => CallsWith(c, h', id, stage', o) == CallsWith(c, s.hist[id], id, stage, o)
      case _ => (h'.delivers, h'.readFaults) == CallsWith(c, s.hist[id], id, stage, o)
  {
  }

  lemma ClosingCalls(c: Config, s: State, r: nat, o: Answers)
    requires Busy(s, r) && Rank(s.reps[r].job.stage) < 7
    ensures var Job(id, stage) := s.reps[r].job; var cmd := CommandAt(stage, o);
      var h' := Effect(s, id, stage, cmd).hist[id];
      match Next(c, s, id, stage, cmd)
      case Stay(stage') => CallsWith(c, h', id, stage', o) == CallsWith(c, s.hist[id], id, stage, o)
      case _ => (h'.delivers, h'.readFaults) == CallsWith(c, s.hist[id], id, stage, o)
  {
  }

  lemma RunCons(c: Config, s: State, a: Action, rest: seq<Action>)
    requires Enabled(c, s, a) && CanRun(c, Apply(c, s, a), rest)
    ensures CanRun(c, s, [a] + rest) && Run(c, s, [a] + rest) == Run(c, Apply(c, s, a), rest)
  {
    assert ([a] + rest)[1..] == rest;
  }

  /**
   * The sequential processOne refines the protocol: from any state in which a replica has taken an id, time and the
   * replica's own commands, uninterrupted, end with the id out of its hands and the stores exactly as Processed says.
   */
  lemma {:induction false} ProcessedIsARun(c: Config, t: Times, s: State, r: nat, o: Answers)
    returns (acts: seq<Action>)
    requires Busy(s, r) && Enveloped(c, s.reps[r].job.id, s.reps[r].job.stage) && InTime(t, s.reps[r].job.stage, s.now)
    ensures CanRun(c, s, acts) && forall a :: a in acts ==> a.Tick? || (a.Work? && a.r == r)
    ensures var Job(id, stage) := s.reps[r].job; var s' := Run(c, s, acts);
      && s'.store == FromStage(c, t, s.store, id, stage, o) && s.now <= s'.now <= t.save
      && s'.reps == s.reps[r := s.reps[r].(job := NoJob)] && s'.hist.Keys == s.hist.Keys
      && (s'.hist[id].delivers, s'.hist[id].readFaults) == CallsWith(c, s.hist[id], id, stage, o)
    decreases Rank(s.reps[r].job.stage)
  {
    var Job(id, stage) := s.reps[r].job;
    var s0 := s.(now := TimeAt(t, stage, s.now));
    var a := Work(r, CommandAt(stage, o));
    var s1 := ApplyWork(c, s0, r, a.cmd);
    StageUnfolds(c, t, s0, r, o);
    CallsUnfold(c, s0, r, o);
    var rest := [];
    if s1.reps[r].job != NoJob { rest := ProcessedIsARun(c, t, s1, r, o); }
    RunCons(c, s0, a, rest);
    RunCons(c, s, Tick(s0.now), [a] + rest);
    acts := [Tick(s0.now)] + ([a] + rest);
  }
}
