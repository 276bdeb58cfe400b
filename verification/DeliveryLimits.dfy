/** Where the delivery protocol stops keeping a promise one might read into it: runs that break it, and exactly when. */
module DeliveryLimits {
  import opened Common
  import opened Backoff
  import opened Handoff
  import opened Delivery
  import opened DeliveryHistory
  import opened DeliveryTheorems
  import opened DeliveryTiming
  import opened Processing
  import opened Consumer
  import opened Refinement
  import Ordering

  const TEN := 10 * SECOND
  const HOOK := "https://client.example/hook"

  /** Ten seconds of base backoff, an expiry after a thousand seconds. */
  const SAMPLE := Config(TEN, 5, _ => Envelope(HOOK, 100 * TEN))

  const UNLUCKY := Answers(Found, true, Transient, true, true, true, true, true)

  const IDLE := Replica(Draining, [], NoJob)

  lemma SampleBackoff(attempt: nat, now: int)
    requires attempt <= 1 && 0 <= now && now + 2 * TEN <= 100 * TEN
    ensures Decide(TEN, 5, attempt, now, 100 * TEN) ==
            RetryAt(Unix(now + (if attempt == 0 then TEN else 2 * TEN)), 100 * TEN - now)
  {
    assert Pow2(0) == 1 && Pow2(1) == 2;
    AcceptedIff(TEN, 5, attempt, now, 100 * TEN);
    AcceptedInsideExpiry(TEN, 5, attempt, now, 100 * TEN);
  }

  /**
   * Replica 0 has taken an id; its delivery fails, and whatever the answers of the store are, the call goes to its end.
   */
  lemma FailsAgain(c: Config, s: State, t: Times, o: Answers) returns (acts: seq<Action>)
    requires Busy(s, 0) && s.reps[0].job.stage == AtFetch && InTime(t, AtFetch, s.now)
    requires c.payload(s.reps[0].job.id).Envelope? && c.payload(s.reps[0].job.id).webhookURL != ""
    requires o.read == Found && o.outcome == Transient && o.markOk
    ensures CanRun(c, s, acts)
    ensures var id := s.reps[0].job.id; var s' := Run(c, s, acts);
      && s.now <= s'.now <= t.save && s'.reps == s.reps[0 := s.reps[0].(job := NoJob)] && s'.hist.Keys == s.hist.Keys
      && s'.store ==
         Retried(c, t, SetWebhook(s.store, id, Handoff.Delivering), id, c.payload(id).expiresAt, o)
      && s'.hist[id].delivers == s.hist[id].delivers + 1
      && s'.hist[id].readFaults == s.hist[id].readFaults + Bit(!o.counterOk)
  {
    acts := ProcessedIsARun(c, t, s, 0, o);
  }

  /** Time, the store and the producer bring an id into the hands of the one replica there is. */
  lemma PickedUp(c: Config) returns (s0: State, acts: seq<Action>)
    ensures Init(s0) && |s0.reps| == 1 && CanRun(c, s0, acts)
    ensures var s := Run(c, s0, acts);
      && s.now == 0 && s.store == EMPTY && s.reps == [IDLE.(job := Job("a", AtFetch))]
      && "a" in s.hist && s.hist["a"] == FRESH
  {
    s0 := State(0, EMPTY, [IDLE], map[], map[]);
    var s1 := Apply(c, s0, Produce("a"));
    assert s1.store.queue == ["a"] && ["a"][..0] == [];
    RunCons(c, s1, Pop(0, true), []);
    RunCons(c, s0, Produce("a"), [Pop(0, true)] + []);
    acts := [Produce("a")] + ([Pop(0, true)] + []);
  }

  // ----- The attempt counter can outlive the result -----

  /**
   * A run in which time passes between Schedule's clock reading and its SET: the counter is to end a nanosecond after
   * the result.
   */
  lemma CounterOutlivesResult() returns (s0: State, acts: seq<Action>)
    ensures Init(s0) && CanRun(SAMPLE, s0, acts)
    ensures var s := Run(SAMPLE, s0, acts);
      "a" in s.store.counters && s.store.counters["a"].until > Expiry(SAMPLE, "a")
  {
    SampleBackoff(0, 0);
    var start;
    s0, start := PickedUp(SAMPLE);
    var try := FailsAgain(SAMPLE, Run(SAMPLE, s0, start), Times(0, 0, 1), UNLUCKY);
    RunAppend(SAMPLE, s0, start, try);
    acts := start + try;
  }

  lemma {:induction false} ClockRuns(c: Config, s: State, acts: seq<Action>)
    requires CanRun(c, s, acts)
    ensures s.now <= Run(c, s, acts).now
    decreases |acts|
  {
    if acts != [] {
      ClockStep(c, s, acts[0]);
      ClockRuns(c, Apply(c, s, acts[0]), acts[1..]);
    }
  }

  lemma ClockStep(c: Config, s: State, a: Action)
    requires Enabled(c, s, a)
    ensures s.now <= Apply(c, s, a).now && (!a.Tick? ==> Apply(c, s, a).now == s.now)
  {
    if a.Work? {
      var Job(id, stage) := s.reps[a.r].job;
      EffectFrame(s, id, stage, a.cmd);
      SettleShape(Effect(s, id, stage, a.cmd), a.r, id, Next(c, s, id, stage, a.cmd));
    }
  }

  /**
   * A Schedule call accepts a retry and, after any run of everything else, its SET succeeds. The counter then ends no
   * later than the result if and only if no time has passed since Schedule read its clock.
   */
  lemma CounterEndsByExpiryIff(c: Config, s: State, r: nat, acts: seq<Action>)
    requires ValidConfig(c) && Reachable(c, s) && Enabled(c, s, Work(r, Schedule))
    requires Expiry(c, s.reps[r].job.id) - s.now < TWO63
    requires var s1 := Apply(c, s, Work(r, Schedule));
      && r < |s1.reps| && s1.reps[r].job.Job? && s1.reps[r].job.stage.AtSaveCounter? && CanRun(c, s1, acts)
      && var s2 := Run(c, s1, acts); r < |s2.reps| && s2.reps[r].job == s1.reps[r].job && Busy(s2, r)
    ensures var id := s.reps[r].job.id; var s2 := Run(c, Apply(c, s, Work(r, Schedule)), acts);
      var s3 := Apply(c, s2, Work(r, SaveCounter(true)));
      && id in s3.store.counters && s3.store.counters[id].until >= Expiry(c, id)
      && (s3.store.counters[id].until <= Expiry(c, id) <==> s2.now == s.now)
  {
    var s1 := Apply(c, s, Work(r, Schedule));
    ReachableInv(c, s);
    var Job(id, stage) := s.reps[r].job;
    assert Sits(s, id, InJob(r, stage));
    ClockStep(c, s, Work(r, Schedule));
    ClockRuns(c, s1, acts);
    AcceptedInsideExpiry(c.base, c.maxAttempts, stage.attempt, s.now, Expiry(c, id));
    AcceptedStage(c, s, r);
    SavedUntil(c, Run(c, s1, acts), r);
  }

  lemma AcceptedStage(c: Config, s: State, r: nat)
    requires Busy(s, r) && s.reps[r].job.stage.AtSchedule? && c.payload(s.reps[r].job.id).Envelope?
    ensures var Job(id, stage) := s.reps[r].job; var s1 := ApplyWork(c, s, r, Schedule);
      var v := Decide(c.base, c.maxAttempts, stage.attempt, s.now, Expiry(c, id));
      s1.reps[r].job == Job(id, if v.RetryAt? then AtSaveCounter(stage.attempt, v.score, v.ttl) else AtMarkFailed)
  {
  }

  lemma SavedUntil(c: Config, s: State, r: nat)
    requires Busy(s, r) && s.reps[r].job.stage.AtSaveCounter?
    ensures var Job(id, stage) := s.reps[r].job; var s1 := ApplyWork(c, s, r, SaveCounter(true));
      id in s1.store.counters && s1.store.counters[id].until == s.now + stage.ttl
  {
  }

  // ----- Which errors of Schedule are terminal, and what they leave -----

  /** Exhausted and expired are the refusals; a failing store is an error too, and any error ends the id as failed. */
  lemma ErrorsAreTerminal(c: Config, t: Times, st: Store, id: Id, expiresAt: int, o: Answers)
    ensures var attempt := if o.counterOk then GetCounter(st, id, t.read) else 0;
      var err := Scheduling(c, attempt, t.schedule, expiresAt, o);
      var v := Decide(c.base, c.maxAttempts, attempt, t.schedule, expiresAt);
      var st' := Retried(c, t, st, id, expiresAt, o);
      && (err == ErrExhausted <==> attempt >= c.maxAttempts)
      && (err == ErrExpired <==> attempt < c.maxAttempts && !v.RetryAt?)
      && (err == ErrStore <==> v.RetryAt? && !(o.saveOk && o.addOk))
      && st'.failed == st.failed + (if err == NoError then 0 else 1)
      && st'.retry == (if err == NoError then st.retry[id := v.score] else st.retry)
  {
  }

  /** A Schedule call that errs leaves every store as it was, unless it accepted, its SET worked and its ZADD failed. */
  lemma ErringScheduleWritesIff(c: Config, t: Times, id: Id, attempt: nat, expiresAt: int, o: Answers)
    requires Scheduling(c, attempt, t.schedule, expiresAt, o) != NoError
    ensures (exists st: Store :: Scheduled(c, st, id, attempt, t, expiresAt, o) != st) <==>
            Decide(c.base, c.maxAttempts, attempt, t.schedule, expiresAt).RetryAt? && o.saveOk && !o.addOk
    ensures o.saveOk && !o.addOk ==> forall st: Store :: var st' := Scheduled(c, st, id, attempt, t, expiresAt, o);
      st' == st || (id in st'.counters && st'.counters[id].n == attempt + 1 && st' == st.(counters := st'.counters))
  {
    if Decide(c.base, c.maxAttempts, attempt, t.schedule, expiresAt).RetryAt? && o.saveOk && !o.addOk {
      assert id in Scheduled(c, EMPTY, id, attempt, t, expiresAt, o).counters;
      assert Scheduled(c, EMPTY, id, attempt, t, expiresAt, o) != EMPTY;
    }
  }

  /** A run that ends an id as failed with neither attempts nor time exhausted, and leaves its counter behind. */
  lemma FailedWithCounter() returns (s0: State, acts: seq<Action>)
    ensures Init(s0) && CanRun(SAMPLE, s0, acts)
    ensures var s := Run(SAMPLE, s0, acts);
      && s.store.failed == 1 && "a" !in s.store.retry
      && "a" in s.store.counters && s.store.counters["a"].n == 1 && s.now < s.store.counters["a"].until
  {
    SampleBackoff(0, 0);
    var start;
    s0, start := PickedUp(SAMPLE);
    var try := FailsAgain(SAMPLE, Run(SAMPLE, s0, start), Times(0, 0, 0), UNLUCKY.(addOk := false));
    RunAppend(SAMPLE, s0, start, try);
    acts := start + try;
  }

  // ----- Two replicas: a retry before its time -----

  /**
   * "Never before its score" is a property of a lone consumer. Two replicas read the same due range; the first claims
   * "a", fails and reschedules it for second 30; the second then still claims it, at second 10, from its stale range.
   */
  lemma EarlyRetry() returns (s0: State, acts: seq<Action>)
    ensures Init(s0) && |s0.reps| == 2 && CanRun(SAMPLE, s0, acts)
    ensures var s := Run(SAMPLE, s0, acts);
      && Enabled(SAMPLE, s, Claim(1)) && s.reps[1].phase == Claiming(["a"])
      && "a" in s.store.retry && s.now < s.store.retry["a"] * SECOND
      && "a" in Apply(SAMPLE, s, Claim(1)).reps[1].held
  {
    s0 := State(0, EMPTY, [IDLE, IDLE], map[], map[]);
    acts := [];
    RunOneMore(SAMPLE, s0, acts, Produce("a"));
    acts := acts + [Produce("a")];
    RunOneMore(SAMPLE, s0, acts, Pop(0, true));
    acts := acts + [Pop(0, true)];
    SampleBackoff(0, 0);
    var firstTry := FailsAgain(SAMPLE, Run(SAMPLE, s0, acts), Times(0, 0, 0), UNLUCKY);
    RunAppend(SAMPLE, s0, acts, firstTry);
    acts := acts + firstTry;
    var ranged := BothRange(Run(SAMPLE, s0, acts));
    RunAppend(SAMPLE, s0, acts, ranged);
    acts := acts + ranged;
    SampleBackoff(1, TEN);
    var secondTry := FailsAgain(SAMPLE, Run(SAMPLE, s0, acts), Times(TEN, TEN, TEN), UNLUCKY);
    RunAppend(SAMPLE, s0, acts, secondTry);
    acts := acts + secondTry;
  }

  /** The states of the two replicas between their deliveries, ten seconds on. */
  function Pair(s: State, retry: map<Id, int>, p: Replica, q: Replica): State {
    s.(now := TEN, store := s.store.(retry := retry), reps := [p, q])
  }

  /** Ten seconds on, both replicas read the due range, and the first claims and takes "a". */
  lemma BothRange(s: State) returns (acts: seq<Action>)
    requires s.now == 0 && "a" in s.hist && s.reps == [IDLE, IDLE]
    requires s.store.queue == [] && s.store.retry == map["a" := 10]
    ensures CanRun(SAMPLE, s, acts)
    ensures Run(SAMPLE, s, acts) ==
      Pair(s, map[], Replica(Working, [], Job("a", AtFetch)), Replica(Claiming(["a"]), [], NoJob))
  {
    acts := ReachRange(s);
    var retry := map["a" := 10];
    RunOneMore(SAMPLE, s, acts, Range(0, true, ["a"]));
    acts := acts + [Range(0, true, ["a"])];
    assert Run(SAMPLE, s, acts) == Pair(s, retry, Replica(Claiming(["a"]), [], NoJob), Replica(AtRange(10), [], NoJob));
    RunOneMore(SAMPLE, s, acts, Range(1, true, ["a"]));
    acts := acts + [Range(1, true, ["a"])];
    var both := Replica(Claiming(["a"]), [], NoJob);
    assert Run(SAMPLE, s, acts) == Pair(s, retry, both, both);
    var last := FirstTakes(Run(SAMPLE, s, acts));
    RunAppend(SAMPLE, s, acts, last);
    acts := acts + last;
  }

  lemma FirstTakes(s: State) returns (acts: seq<Action>)
    requires s.now == TEN && s.store.retry == map["a" := 10]
    requires s.reps == [Replica(Claiming(["a"]), [], NoJob), Replica(Claiming(["a"]), [], NoJob)]
    ensures CanRun(SAMPLE, s, acts)
    ensures Run(SAMPLE, s, acts) ==
      Pair(s, map[], Replica(Working, [], Job("a", AtFetch)), Replica(Claiming(["a"]), [], NoJob))
  {
    acts := [];
    var second := Replica(Claiming(["a"]), [], NoJob);
    assert s.store.retry - {"a"} == map[] && ["a"][1..] == [] && [] + ["a"] == ["a"];
    RunOneMore(SAMPLE, s, acts, Claim(0));
    acts := acts + [Claim(0)];
    assert Run(SAMPLE, s, acts) == Pair(s, map[], Replica(Claiming([]), ["a"], NoJob), second);
    RunOneMore(SAMPLE, s, acts, Claim(0));
    acts := acts + [Claim(0)];
    assert Run(SAMPLE, s, acts) == Pair(s, map[], Replica(Working, ["a"], NoJob), second);
    RunOneMore(SAMPLE, s, acts, Take(0));
    acts := acts + [Take(0)];
    assert Run(SAMPLE, s, acts) == Pair(s, map[], Replica(Working, [], Job("a", AtFetch)), second);
  }

  lemma ReachRange(s: State) returns (acts: seq<Action>)
    requires s.now == 0 && s.reps == [IDLE, IDLE]
    requires s.store.queue == []
    ensures CanRun(SAMPLE, s, acts)
    ensures Run(SAMPLE, s, acts) ==
      Pair(s, s.store.retry, Replica(AtRange(10), [], NoJob), Replica(AtRange(10), [], NoJob))
  {
    acts := [];
    var idle, r := IDLE, s.store.retry;
    RunOneMore(SAMPLE, s, acts, Tick(TEN));
    acts := acts + [Tick(TEN)];
    assert Run(SAMPLE, s, acts) == Pair(s, r, idle, idle);
    RunOneMore(SAMPLE, s, acts, Pop(0, true));
    acts := acts + [Pop(0, true)];
    assert Run(SAMPLE, s, acts) == Pair(s, r, Replica(AtClock, [], NoJob), idle);
    RunOneMore(SAMPLE, s, acts, Pop(1, true));
    acts := acts + [Pop(1, true)];
    assert Run(SAMPLE, s, acts) == Pair(s, r, Replica(AtClock, [], NoJob), Replica(AtClock, [], NoJob));
    RunOneMore(SAMPLE, s, acts, ReadClock(0));
    acts := acts + [ReadClock(0)];
    assert Run(SAMPLE, s, acts) == Pair(s, r, Replica(AtRange(10), [], NoJob), Replica(AtClock, [], NoJob));
    RunOneMore(SAMPLE, s, acts, ReadClock(1));
    acts := acts + [ReadClock(1)];
    assert Run(SAMPLE, s, acts) == Pair(s, r, Replica(AtRange(10), [], NoJob), Replica(AtRange(10), [], NoJob));
  }

  // ----- When retries are on time: exactly for a lone consumer -----

  /** The same state with further replicas beside the ones at work. */
  function Joined(s: State, rest: seq<Replica>): State {
    s.(reps := s.reps + rest)
  }

  lemma SetRepJoined(s: State, rest: seq<Replica>, r: nat, rep: Replica)
    requires r < |s.reps|
    ensures Joined(s, rest).reps[r] == s.reps[r]
    ensures SetRep(Joined(s, rest), r, rep) == Joined(SetRep(s, r, rep), rest)
  {
  }

  lemma StepJoined(c: Config, s: State, a: Action, rest: seq<Replica>)
    requires Enabled(c, s, a)
    ensures Enabled(c, Joined(s, rest), a) && Apply(c, Joined(s, rest), a) == Joined(Apply(c, s, a), rest)
  {
    match a
    case Tick(_) =>
    case Produce(_) =>
    case Work(r, cmd) => WorkJoined(c, s, r, cmd, rest);
    case _ =>
      var rep := Apply(c, s, a).reps[a.r];
      SetRepJoined(s, rest, a.r, rep);
      SetRepJoined(s.(store := Apply(c, s, a).store), rest, a.r, rep);
  }

  lemma WorkJoined(c: Config, s: State, r: nat, cmd: Command, rest: seq<Replica>)
    requires Busy(s, r) && Fits(s.reps[r].job.stage, cmd)
    ensures Busy(Joined(s, rest), r) && Fits(Joined(s, rest).reps[r].job.stage, cmd)
    ensures ApplyWork(c, Joined(s, rest), r, cmd) == Joined(ApplyWork(c, s, r, cmd), rest)
  {
    var Job(id, stage) := s.reps[r].job;
    var e, move := Effect(s, id, stage, cmd), Next(c, s, id, stage, cmd);
    EffectFrame(s, id, stage, cmd);
    EffectJoined(s, id, stage, cmd, rest);
    assert Next(c, Joined(s, rest), id, stage, cmd) == move;
    SettleJoined(e, r, id, move, rest);
  }

  lemma EffectJoined(s: State, id: Id, stage: Stage, cmd: Command, rest: seq<Replica>)
    requires id in s.hist && Fits(stage, cmd)
    ensures Effect(Joined(s, rest), id, stage, cmd) == Joined(Effect(s, id, stage, cmd), rest)
  {
  }

  lemma SettleJoined(e: State, r: nat, id: Id, move: Move, rest: seq<Replica>)
    requires r < |e.reps|
    ensures Settle(Joined(e, rest), r, id, move) == Joined(Settle(e, r, id, move), rest)
  {
  }

  /** Replicas that stand by do not stop the others from doing what they would do without them. */
  lemma {:induction false} RunJoined(c: Config, s: State, acts: seq<Action>, rest: seq<Replica>)
    requires CanRun(c, s, acts)
    ensures CanRun(c, Joined(s, rest), acts) && Run(c, Joined(s, rest), acts) == Joined(Run(c, s, acts), rest)
    decreases |acts|
  {
    if acts != [] {
      StepJoined(c, s, acts[0], rest);
      RunJoined(c, Apply(c, s, acts[0]), acts[1..], rest);
    }
  }

  /** Replica r is about to take an id from the retry set before the second it is scheduled for. */
  ghost predicate ClaimsEarly(s: State, r: nat) {
    && r < |s.reps| && s.reps[r].phase.Claiming? && s.reps[r].phase.todo != []
    && var id := s.reps[r].phase.todo[0]; id in s.store.retry && s.now < s.store.retry[id] * SECOND
  }

  /** n replicas never retry an id before its score, whatever the configuration and the run. */
  ghost predicate AlwaysOnTime(n: nat) {
    forall c, s0, acts, r: nat :: ValidConfig(c) && Init(s0) && |s0.reps| == n && CanRun(c, s0, acts) ==>
      !ClaimsEarly(Run(c, s0, acts), r)
  }

  /** "Never before its score" holds of the claim by ZREM exactly when there is no second replica. */
  lemma OnTimeIffAlone(n: nat)
    ensures AlwaysOnTime(n) <==> n <= 1
  {
    if n <= 1 {
      forall c, s0, acts, r: nat | ValidConfig(c) && Init(s0) && |s0.reps| == n && CanRun(c, s0, acts)
        ensures !ClaimsEarly(Run(c, s0, acts), r)
      {
        AloneOnTime(c, s0, acts, r);
      }
    } else {
      var s0, acts := EarlyRetry();
      var rest := seq(n - 2, _ => IDLE);
      RunJoined(SAMPLE, s0, acts, rest);
      assert Init(Joined(s0, rest));
      var s := Run(SAMPLE, s0, acts);
      assert Joined(s, rest).reps[1] == s.reps[1];
      assert ClaimsEarly(Joined(s, rest), 1);
    }
  }

  lemma AloneOnTime(c: Config, s0: State, acts: seq<Action>, r: nat)
    requires ValidConfig(c) && Init(s0) && |s0.reps| <= 1 && CanRun(c, s0, acts)
    ensures !ClaimsEarly(Run(c, s0, acts), r)
  {
    RepsStay(c, s0, acts);
    if ClaimsEarly(Run(c, s0, acts), r) { LoneConsumerKeepsSchedule(c, s0, acts); }
  }

  lemma {:induction false} RepsStay(c: Config, s: State, acts: seq<Action>)
    requires CanRun(c, s, acts)
    ensures |Run(c, s, acts).reps| == |s.reps|
    decreases |acts|
  {
    if acts != [] {
      RepsStep(c, s, acts[0]);
      RepsStay(c, Apply(c, s, acts[0]), acts[1..]);
    }
  }

  lemma RepsStep(c: Config, s: State, a: Action)
    requires Enabled(c, s, a)
    ensures |Apply(c, s, a).reps| == |s.reps|
  {
  }

  // ----- A failed counter read lets an id exceed maxAttempts -----

  /** A single retry, a second later. */
  const ONCE := Config(SECOND, 1, _ => Envelope(HOOK, 100 * SECOND))

  ghost predicate FewFaults(c: Config, s: State, id: Id, faults: nat) {
    && ValidConfig(c) && Reachable(c, s)
    && id in s.hist && Window(c, id, s.hist[id], TWO63) && s.hist[id].readFaults <= faults
  }

  /** In every run, an id with at most this many failed counter reads gets at most maxAttempts + 1 Deliver calls. */
  ghost predicate LimitHoldsUpTo(faults: nat) {
    forall c, s, id :: FewFaults(c, s, id, faults) ==> s.hist[id].delivers <= c.maxAttempts + 1
  }

  /** So maxAttempts bounds the attempts by itself exactly if counter reads do not fail. */
  lemma LimitHoldsIff(faults: nat)
    ensures LimitHoldsUpTo(faults) <==> faults == 0
  {
    if faults == 0 {
      forall c, s, id | FewFaults(c, s, id, faults)
        ensures s.hist[id].delivers <= c.maxAttempts + 1
      {
        DeliverCallsBounded(c, s, id);
      }
    } else {
      var s0, acts := ExtraRetry();
      var s := Run(ONCE, s0, acts);
      assert Reachable(ONCE, s);
      assert FewFaults(ONCE, s, "a", faults) && s.hist["a"].delivers > ONCE.maxAttempts + 1;
    }
  }

  /** One failed read, and an id that may be retried once gets three Deliver calls. */
  lemma ExtraRetry() returns (s0: State, acts: seq<Action>)
    ensures Init(s0) && CanRun(ONCE, s0, acts)
    ensures var s := Run(ONCE, s0, acts);
      && "a" in s.hist && s.hist["a"].delivers == 3 && s.hist["a"].readFaults == 1
      && Window(ONCE, "a", s.hist["a"], TWO63)
  {
    var start;
    s0, start := PickedUp(ONCE);
    var s1 := Run(ONCE, s0, start);
    var first := TriesOnce(s1, 0, true);
    var s2 := Run(ONCE, s1, first);
    var second := TriesOnce(s2, SECOND, false);
    var s3 := Run(ONCE, s2, second);
    var o := UNLUCKY.(counterOk := true);
    var third := FailsAgain(ONCE, s3, Times(2 * SECOND, 2 * SECOND, 2 * SECOND), o);
    RunAppend(ONCE, s2, second, third);
    RunAppend(ONCE, s1, first, second + third);
    RunAppend(ONCE, s0, start, first + (second + third));
    acts := start + (first + (second + third));
    FirstKept(ONCE, s1, first + (second + third), "a");
  }

  lemma OneSecondOn(now: int)
    requires 0 <= now <= SECOND && now % SECOND == 0
    ensures Decide(SECOND, 1, 0, now, 100 * SECOND) == RetryAt(Unix(now) + 1, 100 * SECOND - now)
    ensures Unix(now + SECOND) == Unix(now) + 1
  {
    assert Pow2(0) == 1;
  }

  /** A try fails, is retried for the next second, and is picked up then. */
  lemma TriesOnce(s: State, now: int, counterOk: bool) returns (acts: seq<Action>)
    requires 0 <= now <= SECOND && now % SECOND == 0 && s.now == now && Busy(s, 0)
    requires s.reps == [Replica(s.reps[0].phase, [], Job("a", AtFetch))]
    requires s.reps[0].phase == Draining || s.reps[0].phase == Working
    requires s.store.queue == [] && s.store.retry == map[]
    requires counterOk ==> "a" !in s.store.counters
    ensures CanRun(ONCE, s, acts)
    ensures var s' := Run(ONCE, s, acts);
      && s'.now == now + SECOND && Busy(s', 0) && s'.reps == [Replica(Working, [], Job("a", AtFetch))]
      && s'.store.queue == [] && s'.store.retry == map[]
      && s'.hist["a"].delivers == s.hist["a"].delivers + 1
      && s'.hist["a"].readFaults == s.hist["a"].readFaults + Bit(!counterOk)
  {
    OneSecondOn(now);
    var try := FailsAgain(ONCE, s, Times(now, now, now), UNLUCKY.(counterOk := counterOk));
    var s1 := Run(ONCE, s, try);
    assert s1.store.retry == map["a" := Unix(now) + 1];
    var back := GoesBack(ONCE, s1);
    var s2 := Run(ONCE, s1, back);
    var again := PicksUpDue(ONCE, s2, now + SECOND);
    RunAppend(ONCE, s1, back, again);
    RunAppend(ONCE, s, try, back + again);
    acts := try + (back + again);
  }

  /** From the end of its work a replica goes back to draining. */
  lemma GoesBack(c: Config, s: State) returns (acts: seq<Action>)
    requires |s.reps| == 1 && s.reps[0].held == [] && s.reps[0].job == NoJob
    requires s.reps[0].phase == Draining || s.reps[0].phase == Working
    ensures CanRun(c, s, acts) && Run(c, s, acts) == s.(reps := [IDLE])
  {
    if s.reps[0].phase == Draining {
      acts := [];
      assert s.(reps := [IDLE]) == s;
    } else {
      RunCons(c, s, Take(0), []);
      acts := [Take(0)] + [];
      assert Apply(c, s, Take(0)).reps == [IDLE];
    }
  }

  /** The replica finds the queue empty and claims and takes the one id that is due. */
  lemma PicksUpDue(c: Config, s: State, dueAt: int) returns (acts: seq<Action>)
    requires s.reps == [IDLE] && s.store.queue == [] && s.now <= dueAt && "a" in s.hist
    requires "a" in s.store.retry && s.store.retry == map["a" := s.store.retry["a"]] &&
      s.store.retry["a"] <= Unix(dueAt)
    ensures CanRun(c, s, acts)
    ensures Run(c, s, acts) ==
      s.(now := dueAt, store := s.store.(retry := map[]), reps := [Replica(Working, [], Job("a", AtFetch))])
  {
    var s1 := Apply(c, s, Pop(0, true));
    assert s1 == s.(reps := [Replica(AtClock, [], NoJob)]);
    var due := ClaimsDue(c, s1, dueAt);
    var s2 := Run(c, s1, due);
    assert ["a"][1..] == [];
    RunCons(c, s2, Take(0), []);
    RunAppend(c, s1, due, [Take(0)] + []);
    RunCons(c, s, Pop(0, true), due + ([Take(0)] + []));
    acts := [Pop(0, true)] + (due + ([Take(0)] + []));
  }

  lemma ClaimsDue(c: Config, s: State, dueAt: int) returns (acts: seq<Action>)
    requires s.reps == [Replica(AtClock, [], NoJob)] && s.now <= dueAt && "a" in s.store.retry
    requires s.store.retry == map["a" := s.store.retry["a"]] && s.store.retry["a"] <= Unix(dueAt)
    ensures CanRun(c, s, acts)
    ensures Run(c, s, acts) ==
      s.(now := dueAt, store := s.store.(retry := map[]), reps := [Replica(Working, ["a"], NoJob)])
  {
    acts := DueIsARun(c, s, 0, dueAt);
    Ordering.ListedUnique(ScoreIn(s.store.retry), ["a"], DueIn(s.store.retry, Unix(dueAt)));
    OnlyOneClaimed(s, dueAt);
  }

  lemma OnlyOneClaimed(s: State, dueAt: int)
    requires s.reps == [Replica(AtClock, [], NoJob)] && "a" in s.store.retry
    requires s.store.retry == map["a" := s.store.retry["a"]]
    ensures Moved(Without(s.(now := dueAt), ["a"]), 0, Working, [] + ["a"]) ==
      s.(now := dueAt, store := s.store.(retry := map[]), reps := [Replica(Working, ["a"], NoJob)])
  {
    assert s.store.retry - Elements(["a"]) == map[] && [] + ["a"] == ["a"];
  }

  // ----- The backoff overflows from a window of 2^62 ns on -----

  /** A base of 2^62 ns (146 years) and a result that lives as long. */
  const AGES := Config(TWO62, 2, _ => Envelope(HOOK, TWO62))

  /** The window of an id when Schedule is called: from its first Schedule call to its expiry. */
  function WindowAt(c: Config, s: State, id: Id): int
    requires id in s.hist
  {
    Expiry(c, id) - FirstSchedule(s, id)
  }

  /** Replica r is about to call Schedule, which computes the intended delay and accepts exactly if that is in time. */
  ghost predicate SchedulesRight(c: Config, s: State, r: nat)
    requires Enabled(c, s, Work(r, Schedule))
  {
    var Job(id, stage) := s.reps[r].job;
    && Delay(c.base, stage.attempt) == c.base * Pow2(stage.attempt)
    && (Next(c, s, id, stage, Schedule) != Stay(AtMarkFailed) <==>
          stage.attempt < c.maxAttempts && s.now + c.base * Pow2(stage.attempt) <= Expiry(c, id))
  }

  /** In every run, Schedule is right for ids whose window is below the bound. */
  ghost predicate AlwaysRightBelow(bound: int) {
    forall c, s, r: nat ::
      (ValidConfig(c) && Reachable(c, s) && Enabled(c, s, Work(r, Schedule)) &&
       WindowAt(c, s, s.reps[r].job.id) < bound) ==>
        SchedulesRight(c, s, r)
  }

  /** So the bound of ScheduleNeverOverflows cannot be raised. */
  lemma RightBelowIff(bound: int)
    ensures AlwaysRightBelow(bound) <==> bound <= TWO62
  {
    if bound <= TWO62 {
      forall c, s, r: nat | ValidConfig(c) && Reachable(c, s) && Enabled(c, s, Work(r, Schedule))
        && WindowAt(c, s, s.reps[r].job.id) < bound
        ensures SchedulesRight(c, s, r)
      {
        ScheduleNeverOverflows(c, s, r);
      }
    } else {
      var s0, acts := OverflowRun();
      var s := Run(AGES, s0, acts);
      assert Reachable(AGES, s);
      OverflowAtTheBound(s.now);
      assert !SchedulesRight(AGES, s, 0);
    }
  }

  /**
   * A run to the overflow: the first try fails at once, is retried after 146 years, a fraction of a second before the
   * result expires, and fails again; Schedule is then called with the second doubling.
   */
  lemma OverflowRun() returns (s0: State, acts: seq<Action>)
    ensures Init(s0) && |s0.reps| == 1 && CanRun(AGES, s0, acts)
    ensures var s := Run(AGES, s0, acts);
      && Enabled(AGES, s, Work(0, Schedule)) && s.reps[0].job == Job("a", AtSchedule(1)) && s.now < TWO62
      && WindowAt(AGES, s, "a") <= TWO62
      && Next(AGES, s, "a", AtSchedule(1), Schedule) == Stay(AtSaveCounter(1, Unix(s.now - TWO63), TWO62 - s.now))
  {
    var start;
    s0, start := PickedUp(AGES);
    var s1 := Run(AGES, s0, start);
    var on := TriesTwice(s1);
    RunAppend(AGES, s0, start, on);
    acts := start + on;
    FirstKept(AGES, s1, on, "a");
    LateOverflow(LATE);
  }

  lemma TriesTwice(s: State) returns (acts: seq<Action>)
    requires s.now == 0 && s.store == EMPTY && s.reps == [IDLE.(job := Job("a", AtFetch))] && "a" in s.hist
    ensures CanRun(AGES, s, acts)
    ensures var s' := Run(AGES, s, acts); s'.now == LATE && Busy(s', 0) && s'.reps[0].job == Job("a", AtSchedule(1))
  {
    FirstDelay();
    var try := FailsAgain(AGES, s, Times(0, 0, 0), UNLUCKY);
    var s1 := Run(AGES, s, try);
    assert s1.reps == [IDLE];
    var wait := WaitsAges(s1);
    var again := ReachesSchedule(AGES, Run(AGES, s1, wait));
    RunAppend(AGES, s1, wait, again);
    RunAppend(AGES, s, try, wait + again);
    acts := try + (wait + again);
  }

  const LATE := Unix(TWO62) * SECOND

  lemma FirstDelay()
    ensures Decide(TWO62, 2, 0, 0, TWO62) == RetryAt(Unix(TWO62), TWO62)
    ensures 0 < LATE < TWO62 && Unix(LATE) == Unix(TWO62)
  {
    assert Pow2(0) == 1;
  }

  lemma LateOverflow(now: int)
    requires 0 <= now < TWO62
    ensures Decide(TWO62, 2, 1, now, TWO62) == RetryAt(Unix(now - TWO63), TWO62 - now)
  {
    OverflowAtTheBound(now);
  }

  /** The replica finds the queue empty, waits, and claims and takes "a" in the second it is scheduled for. */
  lemma WaitsAges(s: State) returns (acts: seq<Action>)
    requires s.now == 0 && s.reps == [IDLE] && s.store.queue == [] && s.store.retry == map["a" := Unix(TWO62)] &&
      "a" in s.hist
    ensures CanRun(AGES, s, acts)
    ensures var s' := Run(AGES, s, acts);
      && s'.now == LATE && s'.reps == [Replica(Working, [], Job("a", AtFetch))] && "a" in s'.hist
      && s'.store.counters == s.store.counters
  {
    FirstDelay();
    acts := PicksUpDue(AGES, s, LATE);
  }

  /** Fetch, mark, a failed POST and a counter read, all at one instant. */
  lemma ReachesSchedule(c: Config, s: State) returns (acts: seq<Action>)
    requires Busy(s, 0) && s.reps[0].job.stage == AtFetch
    requires c.payload(s.reps[0].job.id).Envelope? && c.payload(s.reps[0].job.id).webhookURL != ""
    ensures CanRun(c, s, acts)
    ensures var s' := Run(c, s, acts); var id := s.reps[0].job.id;
      && s'.now == s.now && Busy(s', 0) && s'.reps[0].job == Job(id, AtSchedule(GetCounter(s.store, id, s.now)))
  {
    var s1 := Apply(c, s, Work(0, Fetch(Found)));
    var s2 := Apply(c, s1, Work(0, MarkDelivering(true)));
    var s3 := Apply(c, s2, Work(0, Deliver(Transient)));
    RunCons(c, s3, Work(0, ReadCounter(true)), []);
    RunCons(c, s2, Work(0, Deliver(Transient)), [Work(0, ReadCounter(true))] + []);
    var two := [Work(0, Deliver(Transient))] + ([Work(0, ReadCounter(true))] + []);
    RunCons(c, s1, Work(0, MarkDelivering(true)), two);
    RunCons(c, s, Work(0, Fetch(Found)), [Work(0, MarkDelivering(true))] + two);
    acts := [Work(0, Fetch(Found))] + ([Work(0, MarkDelivering(true))] + two);
  }

  /** The first Schedule call of an id is noted at its own instant and then kept. */
  lemma {:induction false} FirstKept(c: Config, s: State, acts: seq<Action>, id: Id)
    requires CanRun(c, s, acts) && id in s.hist
    ensures var s' := Run(c, s, acts);
      && id in s'.hist && s.now <= s'.now
      && (s.hist[id].first.Some? ==> s'.hist[id].first == s.hist[id].first)
      && (s.hist[id].first.None? && s'.hist[id].first.Some? ==> s.now <= s'.hist[id].first.value <= s'.now)
    decreases |acts|
  {
    if acts != [] {
      FirstStep(c, s, acts[0], id);
      FirstKept(c, Apply(c, s, acts[0]), acts[1..], id);
    }
  }

  lemma FirstStep(c: Config, s: State, a: Action, id: Id)
    requires Enabled(c, s, a) && id in s.hist
    ensures var s' := Apply(c, s, a);
      && id in s'.hist && s.now <= s'.now
      && (s'.hist[id].first == s.hist[id].first || (s.hist[id].first.None? && s'.hist[id].first == Some(s.now)))
  {
    ClockStep(c, s, a);
    if a.Work? {
      var Job(x, stage) := s.reps[a.r].job;
      EffectFrame(s, x, stage, a.cmd);
      SettleShape(Effect(s, x, stage, a.cmd), a.r, x, Next(c, s, x, stage, a.cmd));
    }
  }
}
