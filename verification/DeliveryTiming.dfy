/** With a single consumer retries keep their backoff schedule; with several, a stale range lets one run early. */
module DeliveryTiming {
  import opened Common
  import opened Backoff
  import opened Handoff
  import opened Delivery
  import opened DeliveryHistory

  /**
   * The backoffs of the first k retries together: doubling each time, or at least the base each time once the count has
   * started over after a failed counter read.
   */
  function Owed(base: int, faults: nat, k: nat): int {
    if k == 0 then 0 else Owed(base, faults, k - 1) + (if faults == 0 then base * Pow2(k - 1) else base)
  }

  /** k backoffs: base * (2^k - 1), or at least k times the base if a counter read failed. */
  function Together(base: int, faults: nat, k: nat): int {
    if faults == 0 then base * (Pow2(k) - 1) else base * k
  }

  lemma {:induction false} OwedIs(base: int, faults: nat, k: nat)
    ensures Owed(base, faults, k) == Together(base, faults, k)
  {
    if k > 0 {
      OwedIs(base, faults, k - 1);
      DoubledDelay(base, k);
    }
  }

  lemma {:induction false} OwedDrops(base: int, faults: nat, k: nat)
    requires base > 0
    ensures Owed(base, faults + 1, k) <= Owed(base, faults, k)
  {
    if k > 0 {
      OwedDrops(base, faults, k - 1);
      MulGrows(base, Pow2(k - 1));
    }
  }

  /** Retry k, scheduled for whole second `score`, comes no sooner than k backoffs after the first Schedule call. */
  ghost predicate Spaced(c: Config, id: Id, h: History, score: int) {
    && h.first.Some? && h.fails >= 1
    && (score + 1) * SECOND > h.first.value + Owed(c.base, h.readFaults, h.fails) - (h.fails - 1) * SECOND
    && Owed(c.base, h.readFaults, h.fails) <= Expiry(c, id) - h.first.value + (h.fails - 1) * SECOND
  }

  /** The k-th retry is past its backoff. */
  ghost predicate Past(c: Config, now: int, h: History, k: nat) {
    k >= 1 ==> h.first.Some? && now > h.first.value + Owed(c.base, h.readFaults, k) - k * SECOND
  }

  ghost predicate Timed(c: Config, now: int, id: Id, p: Place, h: History) {
    Window(c, id, h, TWO62) ==>
      match p
      case InQueue => Past(c, now, h, h.fails)
      case InHand(_) => Past(c, now, h, h.fails)
      case InRetry(score) => Spaced(c, id, h, score)
      case InJob(_, AtFetch) => Past(c, now, h, h.fails)
      case InJob(_, AtRequeue) => Past(c, now, h, h.fails)
      case InJob(_, AtMarkDelivering) => Past(c, now, h, h.fails)
      case InJob(_, AtDeliver) => Past(c, now, h, h.fails)
      case InJob(_, AtReadCounter) => h.fails >= 1 && Past(c, now, h, h.fails - 1)
      case InJob(_, AtSchedule(_)) => h.fails >= 1 && Past(c, now, h, h.fails - 1)
      case InJob(_, AtSaveCounter(_, score, _)) => Spaced(c, id, h, score)
      case InJob(_, AtAddRetry(score)) => Spaced(c, id, h, score)
      case _ => true
  }

  /** While the one replica claims, every id of its range is still in the retry set and due. */
  ghost predicate RangeFresh(s: State, rep: Replica) {
    && (rep.phase.AtClock? || rep.phase.AtRange? || rep.phase.Claiming? ==> rep.job == NoJob)
    && (rep.phase.AtRange? ==> rep.phase.cutoff * SECOND <= s.now)
    && (rep.phase.Claiming? ==>
          && NoDuplicates(rep.phase.todo)
          && forall id :: id in rep.phase.todo ==> id in s.store.retry && s.store.retry[id] * SECOND <= s.now)
  }

  ghost predicate TimedInv(c: Config, s: State) {
    && Inv(c, s) && |s.reps| == 1 && RangeFresh(s, s.reps[0])
    && forall id, p :: Sits(s, id, p) ==> id in s.hist && Timed(c, s.now, id, p, s.hist[id])
  }

  lemma TimedMove(c: Config, s: State, s': State, x: Id, q: Place)
    requires TimedInv(c, s) && Inv(c, s') && |s'.reps| == 1 && RangeFresh(s', s'.reps[0]) && OthersStay(s, s', x)
    requires x in s'.hist && Sits(s', x, q) && Timed(c, s'.now, x, q, s'.hist[x])
    ensures TimedInv(c, s')
  {
    forall id, p | Sits(s', id, p)
      ensures id in s'.hist && Timed(c, s'.now, id, p, s'.hist[id])
    {
      if id == x {
        OnePlace(s', x, p, q);
      } else {
        assert Sits(s, id, p);
        assert TrackOf(s', id) == TrackOf(s, id);
      }
    }
  }

  lemma TimedStay(c: Config, s: State, s': State)
    requires TimedInv(c, s) && Inv(c, s') && |s'.reps| == 1 && RangeFresh(s', s'.reps[0])
    requires s'.now >= s.now && s'.hist == s.hist && forall id, p :: Sits(s', id, p) ==> Sits(s, id, p)
    ensures TimedInv(c, s')
  {
  }

  lemma TimedStep(c: Config, s: State, a: Action)
    requires TimedInv(c, s) && Enabled(c, s, a)
    ensures TimedInv(c, Apply(c, s, a))
  {
    InvStep(c, s, a);
    if a.Tick? || a.Produce? || a.ReadClock? { TimedQuiet(c, s, a); } else { TimedReplica(c, s, a); }
  }

  lemma TimedQuiet(c: Config, s: State, a: Action)
    requires TimedInv(c, s) && Enabled(c, s, a) && Inv(c, Apply(c, s, a))
    requires a.Tick? || a.Produce? || a.ReadClock?
    ensures TimedInv(c, Apply(c, s, a))
  {
    if a.Produce? {
      TimedProduce(c, s, a.id);
    } else {
      assert forall id, p :: Sits(Apply(c, s, a), id, p) ==> Sits(s, id, p);
      TimedStay(c, s, Apply(c, s, a));
    }
  }

  lemma TimedProduce(c: Config, s: State, id: Id)
    requires TimedInv(c, s) && Enabled(c, s, Produce(id)) && Inv(c, Apply(c, s, Produce(id)))
    ensures TimedInv(c, Apply(c, s, Produce(id)))
  {
    ProduceShape(c, s, id);
    TimedMove(c, s, Apply(c, s, Produce(id)), id, InQueue);
  }

  lemma ProduceShape(c: Config, s: State, id: Id)
    requires |s.reps| == 1 && RangeFresh(s, s.reps[0]) && id !in s.hist
    ensures var s' := Apply(c, s, Produce(id));
      && s'.reps == s.reps && RangeFresh(s', s'.reps[0]) && s'.hist == s.hist[id := FRESH] && s'.now == s.now
      && OthersStay(s, s', id) && Sits(s', id, InQueue)
  {
  }

  lemma TimedReplica(c: Config, s: State, a: Action)
    requires TimedInv(c, s) && Enabled(c, s, a) && Inv(c, Apply(c, s, a))
    requires !a.Tick? && !a.Produce? && !a.ReadClock?
    ensures TimedInv(c, Apply(c, s, a))
  {
    match a
    case Pop(_, ok) => TimedPop(c, s, ok);
    case Range(_, ok, due) => TimedRange(c, s, ok, due);
    case Claim(_) => TimedClaim(c, s);
    case Take(_) => TimedTake(c, s);
    case Work(r, cmd) => TimedWork(c, s, r, cmd);
  }

  lemma TimedPop(c: Config, s: State, ok: bool)
    requires TimedInv(c, s) && Enabled(c, s, Pop(0, ok)) && Inv(c, ApplyPop(s, 0, ok))
    ensures TimedInv(c, ApplyPop(s, 0, ok))
  {
    if ok && s.store.queue != [] {
      PopMoves(s, 0);
      assert Sits(s, RightEnd(s.store), InQueue);
      TimedMove(c, s, ApplyPop(s, 0, ok), RightEnd(s.store), InJob(0, AtFetch));
    } else {
      TimedStay(c, s, ApplyPop(s, 0, ok));
    }
  }

  lemma TimedRange(c: Config, s: State, ok: bool, due: seq<Id>)
    requires TimedInv(c, s) && Enabled(c, s, Range(0, ok, due)) && Inv(c, Apply(c, s, Range(0, ok, due)))
    ensures TimedInv(c, Apply(c, s, Range(0, ok, due)))
  {
  }

  lemma TimedTake(c: Config, s: State)
    requires TimedInv(c, s) && Enabled(c, s, Take(0)) && Inv(c, ApplyTake(s, 0))
    ensures TimedInv(c, ApplyTake(s, 0))
  {
    var held := s.reps[0].held;
    if held != [] {
      TakeMoves(s, 0);
      assert Sits(s, held[0], InHand(0));
      TimedMove(c, s, ApplyTake(s, 0), held[0], InJob(0, AtFetch));
    } else {
      TimedStay(c, s, ApplyTake(s, 0));
    }
  }

  lemma TimedClaim(c: Config, s: State)
    requires TimedInv(c, s) && Enabled(c, s, Claim(0)) && Inv(c, ApplyClaim(s, 0))
    ensures TimedInv(c, ApplyClaim(s, 0))
  {
    var todo, s' := s.reps[0].phase.todo, ApplyClaim(s, 0);
    if todo == [] {
      TimedStay(c, s, s');
    } else {
      var x := todo[0];
      assert x in todo;
      assert Sits(s, x, InRetry(s.store.retry[x]));
      ClaimedOnTime(s, todo);
      ClaimMoves(s, 0, x);
      TimedMove(c, s, s', x, InHand(0));
    }
  }

  lemma ClaimedOnTime(s: State, todo: seq<Id>)
    requires |s.reps| == 1 && s.reps[0].phase == Claiming(todo) && todo != [] && RangeFresh(s, s.reps[0])
    ensures var s' := ApplyClaim(s, 0); |s'.reps| == 1 && RangeFresh(s', s'.reps[0])
  {
    assert forall id :: id in todo[1..] ==> id in todo && id != todo[0];
  }

  lemma TimedWork(c: Config, s: State, r: nat, cmd: Command)
    requires TimedInv(c, s) && Enabled(c, s, Work(r, cmd)) && Inv(c, ApplyWork(c, s, r, cmd))
    ensures TimedInv(c, ApplyWork(c, s, r, cmd))
  {
    JobTimed(c, s, r);
    WorkLandsTimed(c, s, r, cmd);
    WorkShape(c, s, r, cmd);
    var Job(x, stage) := s.reps[r].job;
    TimedMove(c, s, ApplyWork(c, s, r, cmd), x, Landing(r, Next(c, s, x, stage, cmd)));
  }

  lemma JobTimed(c: Config, s: State, r: nat)
    requires TimedInv(c, s) && Busy(s, r)
    ensures var Job(x, stage) := s.reps[r].job;
      ValidConfig(c) && r == 0 && RangeFresh(s, s.reps[r]) &&
      GoodStage(c, s.now, x, stage, TrackOf(s, x)) && Timed(c, s.now, x, InJob(r, stage), s.hist[x])
  {
    assert Sits(s, s.reps[r].job.id, InJob(r, s.reps[r].job.stage));
  }

  lemma WorkLandsTimed(c: Config, s: State, r: nat, cmd: Command)
    requires ValidConfig(c) && Busy(s, r) && Fits(s.reps[r].job.stage, cmd)
    requires var Job(x, stage) := s.reps[r].job;
      GoodStage(c, s.now, x, stage, TrackOf(s, x)) && Timed(c, s.now, x, InJob(r, stage), s.hist[x])
    ensures var Job(x, stage) := s.reps[r].job;
      var s', p := ApplyWork(c, s, r, cmd), Landing(r, Next(c, s, x, stage, cmd));
      OthersStay(s, s', x) && x in s'.hist && Sits(s', x, p) && Timed(c, s'.now, x, p, s'.hist[x])
  {
    WorkMoves(c, s, r, cmd);
    StageTimed(c, s, r, s.reps[r].job.id, s.reps[r].job.stage, cmd);
  }

  lemma WorkShape(c: Config, s: State, r: nat, cmd: Command)
    requires Busy(s, r) && Fits(s.reps[r].job.stage, cmd)
    ensures var s' := ApplyWork(c, s, r, cmd);
      && |s'.reps| == |s.reps| && s'.reps[r].phase == s.reps[r].phase
      && (RangeFresh(s, s.reps[r]) ==> RangeFresh(s', s'.reps[r]))
  {
  }

  /** One command of processOne keeps the schedule; the interesting one is Schedule itself. */
  lemma StageTimed(c: Config, s: State, r: nat, x: Id, stage: Stage, cmd: Command)
    requires ValidConfig(c) && x in s.hist && Fits(stage, cmd)
    requires GoodStage(c, s.now, x, stage, TrackOf(s, x)) && Timed(c, s.now, x, InJob(r, stage), s.hist[x])
    ensures x in Effect(s, x, stage, cmd).hist
    ensures Timed(c, s.now, x, Landing(r, Next(c, s, x, stage, cmd)), Effect(s, x, stage, cmd).hist[x])
  {
    if cmd == Schedule { ScheduleTimed(c, s, r, x, stage); }
    else if BeforeOutcome(cmd) { OpeningTimed(c, s, r, x, stage, cmd); }
    else { ClosingTimed(c, s, r, x, stage, cmd); }
  }

  predicate BeforeOutcome(cmd: Command) {
    cmd.Fetch? || cmd.Requeue? || cmd.MarkDelivering? || cmd.Deliver?
  }

  lemma OpeningTimed(c: Config, s: State, r: nat, x: Id, stage: Stage, cmd: Command)
    requires x in s.hist && Fits(stage, cmd) && BeforeOutcome(cmd)
    requires GoodStage(c, s.now, x, stage, TrackOf(s, x)) && Timed(c, s.now, x, InJob(r, stage), s.hist[x])
    ensures x in Effect(s, x, stage, cmd).hist
    ensures Timed(c, s.now, x, Landing(r, Next(c, s, x, stage, cmd)), Effect(s, x, stage, cmd).hist[x])
  {
  }

  lemma ClosingTimed(c: Config, s: State, r: nat, x: Id, stage: Stage, cmd: Command)
    requires ValidConfig(c) && x in s.hist && Fits(stage, cmd) && !BeforeOutcome(cmd) && cmd != Schedule
    requires GoodStage(c, s.now, x, stage, TrackOf(s, x)) && Timed(c, s.now, x, InJob(r, stage), s.hist[x])
    ensures x in Effect(s, x, stage, cmd).hist
    ensures Timed(c, s.now, x, Landing(r, Next(c, s, x, stage, cmd)), Effect(s, x, stage, cmd).hist[x])
  {
    if cmd.ReadCounter? && s.hist[x].fails >= 1 { OwedDrops(c.base, s.hist[x].readFaults, s.hist[x].fails - 1); }
  }

  lemma ScheduleTimed(c: Config, s: State, r: nat, x: Id, stage: Stage)
    requires ValidConfig(c) && x in s.hist && stage.AtSchedule?
    requires GoodStage(c, s.now, x, stage, TrackOf(s, x)) && Timed(c, s.now, x, InJob(r, stage), s.hist[x])
    ensures x in Effect(s, x, stage, Schedule).hist
    ensures Timed(c, s.now, x, Landing(r, Next(c, s, x, stage, Schedule)), Effect(s, x, stage, Schedule).hist[x])
  {
    var h, n := Effect(s, x, stage, Schedule).hist[x], stage.attempt;
    if Window(c, x, h, TWO62) && Ruling(c, s, x, stage).RetryAt? {
      NoOverflow(c, x, s.now, TrackOf(s, x), n);
      AcceptedIff(c.base, c.maxAttempts, n, s.now, Expiry(c, x));
      AcceptedInsideExpiry(c.base, c.maxAttempts, n, s.now, Expiry(c, x));
      var k := h.fails - 1;
      assert h.readFaults == 0 ==> n == k;
      MulGrows(c.base, Pow2(n));
      assert Owed(c.base, h.readFaults, h.fails) <= Owed(c.base, h.readFaults, k) + c.base * Pow2(n);
      assert s.now >= h.first.value + Owed(c.base, h.readFaults, k) - k * SECOND;
    }
  }

  lemma {:induction false} RunTimed(c: Config, s: State, acts: seq<Action>)
    requires TimedInv(c, s) && CanRun(c, s, acts)
    ensures TimedInv(c, Run(c, s, acts))
    decreases |acts|
  {
    if acts != [] {
      TimedStep(c, s, acts[0]);
      RunTimed(c, Apply(c, s, acts[0]), acts[1..]);
    }
  }

  lemma InitTimed(c: Config, s: State)
    requires ValidConfig(c) && Init(s) && |s.reps| == 1
    ensures TimedInv(c, s)
  {
    InitInv(c, s);
  }

  /**
   * A lone consumer, over all its runs: no retry is claimed before its score; the k-th retry is claimed later than
   * first + owed - k seconds, where first is the first Schedule call and owed the k backoffs together; and it can only
   * have been scheduled if owed fits before the expiry, up to k - 1 seconds of truncation.
   */
  lemma LoneConsumerKeepsSchedule(c: Config, s0: State, acts: seq<Action>)
    requires ValidConfig(c) && Init(s0) && |s0.reps| == 1 && CanRun(c, s0, acts)
    requires Enabled(c, Run(c, s0, acts), Claim(0)) && Run(c, s0, acts).reps[0].phase.todo != []
    ensures var s := Run(c, s0, acts); var id := s.reps[0].phase.todo[0];
      && id in s.store.retry && s.store.retry[id] * SECOND <= s.now && id in s.hist
      && var h := s.hist[id]; var owed := Together(c.base, h.readFaults, h.fails);
         (Window(c, id, h, TWO62) ==>
            && h.first.Some? && h.fails >= 1
            && s.now > h.first.value + owed - h.fails * SECOND
            && owed <= Expiry(c, id) - h.first.value + (h.fails - 1) * SECOND)
  {
    InitTimed(c, s0);
    RunTimed(c, s0, acts);
    var s := Run(c, s0, acts);
    var id := s.reps[0].phase.todo[0];
    assert id in s.reps[0].phase.todo;
    assert Sits(s, id, InRetry(s.store.retry[id]));
    OwedIs(c.base, s.hist[id].readFaults, s.hist[id].fails);
  }

  /**
   * With a lone consumer, in every run, a k-th retry waits in the retry set only if its k backoffs together fit before
   * the expiry, up to k - 1 seconds, and for a second no sooner than that after the first Schedule call.
   */
  lemma StoredScoresSpaced(c: Config, s0: State, acts: seq<Action>, id: Id)
    requires ValidConfig(c) && Init(s0) && |s0.reps| == 1 && CanRun(c, s0, acts)
    requires id in Run(c, s0, acts).store.retry
    ensures var s := Run(c, s0, acts);
      && id in s.hist
      && var h := s.hist[id]; var owed := Together(c.base, h.readFaults, h.fails);
         (Window(c, id, h, TWO62) ==>
            && h.first.Some? && h.fails >= 1
            && (s.store.retry[id] + 1) * SECOND > h.first.value + owed - (h.fails - 1) * SECOND
            && owed <= Expiry(c, id) - h.first.value + (h.fails - 1) * SECOND)
  {
    InitTimed(c, s0);
    RunTimed(c, s0, acts);
    var s := Run(c, s0, acts);
    assert Sits(s, id, InRetry(s.store.retry[id]));
    OwedIs(c.base, s.hist[id].readFaults, s.hist[id].fails);
  }
}
