/**
 * Webhook delivery as a protocol: any number of consumer replicas over one shared store, every store command, clock
 * reading and POST an atomic step of its own, interleaved arbitrarily with each other, with the producer and with time.
 */
module Delivery {
  import opened Common
  import opened Backoff
  import opened Handoff

  datatype Config = Config(base: int, maxAttempts: int, payload: Id -> Payload)

  ghost predicate ValidConfig(c: Config) {
    0 < c.base < TWO63 && 0 < c.maxAttempts
  }

  /** Where processOne stands: the next command it will issue. */
  datatype Stage =
    | AtFetch
    | AtRequeue
    | AtMarkDelivering
    | AtDeliver
    | AtMarkDelivered
    | AtReadCounter
    | AtSchedule(attempt: nat)
    | AtSaveCounter(nextAttempt: nat, nextScore: int, ttl: int)
    | AtAddRetry(score: int)
    | AtMarkFailed

  datatype Job = NoJob | Job(id: Id, stage: Stage)

  /** Where runOnce stands: draining the queue, inside Due, or working through the ids Due claimed. */
  datatype Phase = Draining | AtClock | AtRange(cutoff: int) | Claiming(todo: seq<Id>) | Working

  /** `held` are the ids this replica claimed and has not started on. */
  datatype Replica = Replica(phase: Phase, held: seq<Id>, job: Job)

  datatype Fate = WasDelivered | WasFailed | WasSkipped

  /**
   * An id's history: Deliver calls, those that failed transiently, whether a POST got a 2xx, when Schedule first ran,
   * how many counter reads failed, and whether a webhook_state write did.
   */
  datatype History = History(delivers: nat, fails: nat, acked: bool, first: Option<int>, readFaults: nat, dbFault: bool)

  const FRESH := History(0, 0, false, None, 0, false)

  datatype State = State(now: int, store: Store, reps: seq<Replica>, hist: map<Id, History>, done: map<Id, Fate>)

  datatype Read = Missing | Unreadable | Found
  datatype Outcome = Accepted | Transient | Permanent

  /** A command of processOne with its answer; `ok` false is a store command that failed and changed nothing. */
  datatype Command =
    | Fetch(read: Read)
    | Requeue
    | MarkDelivering(ok: bool)
    | Deliver(outcome: Outcome)
    | MarkDelivered(ok: bool)
    | ReadCounter(ok: bool)
    | Schedule
    | SaveCounter(ok: bool)
    | AddRetry(ok: bool)
    | MarkFailed(ok: bool)

  /** Time passes, the producer enqueues, or replica `r` moves: in runOnce, in Due, or in processOne. */
  datatype Action =
    | Tick(to: int)
    | Produce(id: Id)
    | Pop(r: nat, ok: bool)
    | ReadClock(r: nat)
    | Range(r: nat, ok: bool, due: seq<Id>)
    | Claim(r: nat)
    | Take(r: nat)
    | Work(r: nat, cmd: Command)

  // ----- processOne: the data it writes, where it goes next, and what becomes of the id -----

  predicate Busy(s: State, r: nat) {
    r < |s.reps| && s.reps[r].job.Job? && s.reps[r].job.id in s.hist
  }

  predicate Fits(stage: Stage, cmd: Command) {
    match cmd
    case Fetch(_) => stage == AtFetch
    case Requeue => stage == AtRequeue
    case MarkDelivering(_) => stage == AtMarkDelivering
    case Deliver(_) => stage == AtDeliver
    case MarkDelivered(_) => stage == AtMarkDelivered
    case ReadCounter(_) => stage == AtReadCounter
    case Schedule => stage.AtSchedule?
    case SaveCounter(_) => stage.AtSaveCounter?
    case AddRetry(_) => stage.AtAddRetry?
    case MarkFailed(_) => stage == AtMarkFailed
  }

  function Note(s: State, id: Id, h: History): State {
    s.(hist := s.hist[id := h])
  }

  /** SetWebhookState; a failure is only logged. */
  function WriteState(s: State, id: Id, w: WebhookState, ok: bool): State
    requires id in s.hist
  {
    if ok then s.(store := SetWebhook(s.store, id, w)) else Note(s, id, s.hist[id].(dbFault := true))
  }

  /** Everything a command changes besides the whereabouts of the id. */
  function Effect(s: State, id: Id, stage: Stage, cmd: Command): State
    requires id in s.hist && Fits(stage, cmd)
  {
    var h := s.hist[id];
    match cmd
    case MarkDelivering(ok) => WriteState(s, id, Handoff.Delivering, ok)
    case Deliver(Accepted) => Note(s, id, h.(delivers := h.delivers + 1, acked := true))
    case Deliver(Permanent) => Note(s, id, h.(delivers := h.delivers + 1))
    case Deliver(Transient) => Note(s, id, h.(delivers := h.delivers + 1, fails := h.fails + 1))
    case MarkDelivered(ok) => var w := WriteState(s, id, Handoff.Delivered, ok); w.(store := CountDelivered(w.store))
    case ReadCounter(ok) => if ok then s else Note(s, id, h.(readFaults := h.readFaults + 1))
    case Schedule => if h.first.Some? then s else Note(s, id, h.(first := Some(s.now)))
    case SaveCounter(ok) =>
      if ok then s.(store := SetCounter(s.store, id, stage.nextAttempt + 1, s.now + stage.ttl)) else s
    case MarkFailed(ok) => var w := WriteState(s, id, Handoff.Failed, ok); w.(store := CountFailed(w.store))
    case _ => s
  }

  /** What becomes of the id: processing goes on, it returns to the queue, it waits in the retry set, or it is over. */
  datatype Move = Stay(stage: Stage) | Back | Wait(score: int) | End(fate: Fate)

  function Next(c: Config, s: State, id: Id, stage: Stage, cmd: Command): Move
    requires Fits(stage, cmd)
  {
    match cmd
    case Fetch(Missing) => Stay(AtMarkFailed)
    case Fetch(Unreadable) => Stay(AtRequeue)
    case Fetch(Found) =>
      if c.payload(id) == Malformed then Stay(AtMarkFailed)
      else if c.payload(id).webhookURL == "" then End(WasSkipped)
      else Stay(AtMarkDelivering)
    case Requeue => Back
    case MarkDelivering(_) => Stay(AtDeliver)
    case Deliver(Accepted) => Stay(AtMarkDelivered)
    case Deliver(Permanent) => Stay(AtMarkFailed)
    case Deliver(Transient) => Stay(AtReadCounter)
    case MarkDelivered(_) => End(WasDelivered)
    case ReadCounter(ok) => Stay(AtSchedule(if ok then GetCounter(s.store, id, s.now) else 0))
    case Schedule =>
      (match Ruling(c, s, id, stage)
       case RetryAt(score, ttl) => Stay(AtSaveCounter(stage.attempt, score, ttl))
       case _ => Stay(AtMarkFailed))
    case SaveCounter(ok) => Stay(if ok then AtAddRetry(stage.nextScore) else AtMarkFailed)
    case AddRetry(ok) => if ok then Wait(stage.score) else Stay(AtMarkFailed)
    case MarkFailed(_) => End(WasFailed)
  }

  /** Schedule's decision. Only an id with an envelope gets this far (Tracked), so the second branch never counts. */
  function Ruling(c: Config, s: State, id: Id, stage: Stage): Verdict
    requires stage.AtSchedule?
  {
    match c.payload(id)
    case Envelope(_, expiresAt) => Decide(c.base, c.maxAttempts, stage.attempt, s.now, expiresAt)
    case Malformed => Expired
  }

  function SetJob(s: State, r: nat, job: Job): State
    requires r < |s.reps|
  {
    s.(reps := s.reps[r := s.reps[r].(job := job)])
  }

  function Settle(s: State, r: nat, id: Id, move: Move): State
    requires r < |s.reps|
  {
    match move
    case Stay(stage) => SetJob(s, r, Job(id, stage))
    case Back => SetJob(s, r, NoJob).(store := LPush(s.store, id))
    case Wait(score) => SetJob(s, r, NoJob).(store := ZAdd(s.store, id, score))
    case End(fate) => SetJob(s, r, NoJob).(done := s.done[id := fate])
  }

  // ----- Steps -----

  ghost predicate Enabled(c: Config, s: State, a: Action) {
    match a
    case Tick(to) => s.now <= to
    case Produce(id) => id !in s.hist
    case Pop(r, ok) => r < |s.reps| && s.reps[r].phase == Draining && s.reps[r].job == NoJob
    case ReadClock(r) => r < |s.reps| && s.reps[r].phase == AtClock
    case Range(r, ok, due) =>
      r < |s.reps| && s.reps[r].phase.AtRange? && NoDuplicates(due) &&
      forall id :: id in due <==> id in s.store.retry && s.store.retry[id] <= s.reps[r].phase.cutoff
    case Claim(r) => r < |s.reps| && s.reps[r].phase.Claiming?
    case Take(r) => r < |s.reps| && s.reps[r].phase == Working && s.reps[r].job == NoJob
    case Work(r, cmd) => Busy(s, r) && Fits(s.reps[r].job.stage, cmd)
  }

  function SetRep(s: State, r: nat, rep: Replica): State
    requires r < |s.reps|
  {
    s.(reps := s.reps[r := rep])
  }

  ghost function Apply(c: Config, s: State, a: Action): State
    requires Enabled(c, s, a)
  {
    match a
    case Tick(to) => s.(now := to)
    case Produce(id) => s.(store := LPush(s.store, id), hist := s.hist[id := FRESH])
    case Pop(r, ok) => ApplyPop(s, r, ok)
    case ReadClock(r) => SetRep(s, r, s.reps[r].(phase := AtRange(Unix(s.now))))
    case Range(r, ok, due) => SetRep(s, r, s.reps[r].(phase := if ok then Claiming(due) else Draining))
    case Claim(r) => ApplyClaim(s, r)
    case Take(r) => ApplyTake(s, r)
    case Work(r, cmd) => ApplyWork(c, s, r, cmd)
  }

  function ApplyPop(s: State, r: nat, ok: bool): State
    requires r < |s.reps|
  {
    if ok && s.store.queue != [] then
      SetRep(s.(store := RPop(s.store)), r, s.reps[r].(job := Job(RightEnd(s.store), AtFetch)))
    else SetRep(s, r, s.reps[r].(phase := AtClock))
  }

  /** One ZREM of Due: only the caller it answers 1 to gets the id. */
  function ApplyClaim(s: State, r: nat): State
    requires r < |s.reps| && s.reps[r].phase.Claiming?
  {
    var rep := s.reps[r];
    if rep.phase.todo == [] then SetRep(s, r, rep.(phase := Working))
    else
      var id, rest := rep.phase.todo[0], Claiming(rep.phase.todo[1..]);
      if id in s.store.retry then
        SetRep(s.(store := ZRem(s.store, id)), r, rep.(phase := rest, held := rep.held + [id]))
      else SetRep(s, r, rep.(phase := rest))
  }

  function ApplyTake(s: State, r: nat): State
    requires r < |s.reps| && s.reps[r].job == NoJob
  {
    var rep := s.reps[r];
    if rep.held == [] then SetRep(s, r, rep.(phase := Draining))
    else SetRep(s, r, rep.(held := rep.held[1..], job := Job(rep.held[0], AtFetch)))
  }

  function ApplyWork(c: Config, s: State, r: nat, cmd: Command): State
    requires Busy(s, r) && Fits(s.reps[r].job.stage, cmd)
  {
    var Job(id, stage) := s.reps[r].job;
    Settle(Effect(s, id, stage, cmd), r, id, Next(c, s, id, stage, cmd))
  }

  // ----- Runs -----

  ghost predicate Init(s: State) {
    s.store == EMPTY && s.hist == map[] && s.done == map[] &&
    forall r :: 0 <= r < |s.reps| ==> s.reps[r] == Replica(Draining, [], NoJob)
  }

  ghost predicate CanRun(c: Config, s: State, acts: seq<Action>)
    decreases |acts|
  {
    acts == [] || (Enabled(c, s, acts[0]) && CanRun(c, Apply(c, s, acts[0]), acts[1..]))
  }

  ghost function Run(c: Config, s: State, acts: seq<Action>): State
    requires CanRun(c, s, acts)
    decreases |acts|
  {
    if acts == [] then s else Run(c, Apply(c, s, acts[0]), acts[1..])
  }

  /** The states of all runs, of any length, from an initial state. */
  ghost predicate Reachable(c: Config, s: State) {
    exists s0, acts :: Init(s0) && CanRun(c, s0, acts) && Run(c, s0, acts) == s
  }

  // ----- Ownership: every produced id is in exactly one place -----

  function Bit(b: bool): nat {
    if b then 1 else 0
  }

  function Count(ids: seq<Id>, id: Id): nat {
    multiset(ids)[id]
  }

  lemma CountCons(x: Id, ids: seq<Id>, id: Id)
    ensures Count([x] + ids, id) == Bit(x == id) + Count(ids, id)
  {
  }

  lemma CountSnoc(ids: seq<Id>, x: Id, id: Id)
    ensures Count(ids + [x], id) == Count(ids, id) + Bit(x == id)
  {
  }

  /** How often a replica has an id in its hands. */
  function Own(rep: Replica, id: Id): nat {
    Count(rep.held, id) + Bit(rep.job.Job? && rep.job.id == id)
  }

  function OwnAll(reps: seq<Replica>, id: Id): nat {
    if reps == [] then 0 else Own(reps[0], id) + OwnAll(reps[1..], id)
  }

  function Outside(s: State, id: Id): nat {
    Count(s.store.queue, id) + Bit(id in s.store.retry) + Bit(id in s.done)
  }

  /** In how many places an id is: queue, retry set, hands of the replicas and the finished ids, with multiplicity. */
  function Places(s: State, id: Id): nat {
    Outside(s, id) + OwnAll(s.reps, id)
  }

  ghost predicate Owned(s: State) {
    forall id :: Places(s, id) == Bit(id in s.hist)
  }

  lemma {:induction false} OwnAllUpdate(reps: seq<Replica>, r: nat, rep: Replica, id: Id)
    requires r < |reps|
    ensures OwnAll(reps[r := rep], id) + Own(reps[r], id) == OwnAll(reps, id) + Own(rep, id)
  {
    if r == 0 {
      assert reps[r := rep][1..] == reps[1..];
    } else {
      assert reps[r := rep][1..] == reps[1..][r - 1 := rep];
      OwnAllUpdate(reps[1..], r - 1, rep, id);
    }
  }

  lemma {:induction false} OwnAllIdle(reps: seq<Replica>, id: Id)
    requires forall r :: 0 <= r < |reps| ==> reps[r] == Replica(Draining, [], NoJob)
    ensures OwnAll(reps, id) == 0
  {
    if reps != [] { OwnAllIdle(reps[1..], id); }
  }

  lemma {:induction false} OwnAllHas(reps: seq<Replica>, r: nat, id: Id)
    requires r < |reps|
    ensures OwnAll(reps, id) >= Own(reps[r], id)
  {
    if r > 0 { OwnAllHas(reps[1..], r - 1, id); }
  }

  lemma {:induction false} OwnAllHasBoth(reps: seq<Replica>, r: nat, q: nat, id: Id)
    requires r < q < |reps|
    ensures OwnAll(reps, id) >= Own(reps[r], id) + Own(reps[q], id)
  {
    if r > 0 { OwnAllHasBoth(reps[1..], r - 1, q - 1, id); } else { OwnAllHas(reps[1..], q - 1, id); }
  }

  /** An id in a replica's hands is nowhere else: in no store, not finished, in no other replica. */
  lemma Exclusive(s: State, r: nat, id: Id)
    requires Owned(s) && r < |s.reps| && Own(s.reps[r], id) > 0
    ensures id in s.hist && Own(s.reps[r], id) == 1 && Outside(s, id) == 0
    ensures forall q :: 0 <= q < |s.reps| && q != r ==> Own(s.reps[q], id) == 0
  {
    assert Places(s, id) <= 1;
    OwnAllHas(s.reps, r, id);
    forall q | 0 <= q < |s.reps| && q != r
      ensures Own(s.reps[q], id) == 0
    {
      if q < r { OwnAllHasBoth(s.reps, q, r, id); } else { OwnAllHasBoth(s.reps, r, q, id); }
    }
  }

  /** An id a replica drops is put down once, an id it picks up is taken once; nothing else moves. */
  ghost predicate Shift(s: State, s': State, r: nat, id: Id) {
    && r < |s.reps| == |s'.reps|
    && s'.reps == s.reps[r := s'.reps[r]]
    && s'.hist.Keys == s.hist.Keys
    && Outside(s', id) + Own(s'.reps[r], id) == Outside(s, id) + Own(s.reps[r], id)
  }

  lemma OwnershipStep(c: Config, s: State, a: Action)
    requires Owned(s) && Enabled(c, s, a)
    ensures Owned(Apply(c, s, a))
  {
    forall id
      ensures Places(Apply(c, s, a), id) == Bit(id in Apply(c, s, a).hist)
    {
      PlacesStep(c, s, a, id);
    }
  }

  lemma PlacesStep(c: Config, s: State, a: Action, id: Id)
    requires Owned(s) && Enabled(c, s, a)
    ensures Places(Apply(c, s, a), id) == Bit(id in Apply(c, s, a).hist)
  {
    assert Places(s, id) == Bit(id in s.hist);
    match a
    case Tick(_) =>
    case Produce(x) => CountCons(x, s.store.queue, id);
    case _ =>
      ReplicaShifts(c, s, a, id);
      ShiftedPlaces(s, Apply(c, s, a), a.r, id);
  }

  lemma ShiftedPlaces(s: State, s': State, r: nat, id: Id)
    requires Shift(s, s', r, id)
    ensures Places(s', id) == Places(s, id)
  {
    OwnAllUpdate(s.reps, r, s'.reps[r], id);
  }

  lemma ReplicaShifts(c: Config, s: State, a: Action, id: Id)
    requires Owned(s) && Enabled(c, s, a) && !a.Tick? && !a.Produce?
    ensures Shift(s, Apply(c, s, a), a.r, id)
  {
    match a
    case Pop(r, ok) => PopShifts(s, r, ok, id);
    case Claim(r) => ClaimShifts(s, r, id);
    case Take(r) => TakeShifts(s, r, id);
    case Work(r, cmd) => WorkShifts(c, s, r, cmd, id);
    case _ =>
  }

  lemma PopShifts(s: State, r: nat, ok: bool, id: Id)
    requires r < |s.reps| && s.reps[r].job == NoJob
    ensures Shift(s, ApplyPop(s, r, ok), r, id)
  {
    if ok && s.store.queue != [] {
      assert s.store.queue == RPop(s.store).queue + [RightEnd(s.store)];
      CountSnoc(RPop(s.store).queue, RightEnd(s.store), id);
    }
  }

  lemma ClaimShifts(s: State, r: nat, id: Id)
    requires r < |s.reps| && s.reps[r].phase.Claiming?
    ensures Shift(s, ApplyClaim(s, r), r, id)
  {
  }

  lemma TakeShifts(s: State, r: nat, id: Id)
    requires r < |s.reps| && s.reps[r].job == NoJob
    ensures Shift(s, ApplyTake(s, r), r, id)
  {
    var rep := s.reps[r];
    if rep.held != [] {
      assert rep.held == [rep.held[0]] + rep.held[1..];
      CountCons(rep.held[0], rep.held[1..], id);
    }
  }

  lemma WorkShifts(c: Config, s: State, r: nat, cmd: Command, id: Id)
    requires Owned(s) && Busy(s, r) && Fits(s.reps[r].job.stage, cmd)
    ensures Shift(s, ApplyWork(c, s, r, cmd), r, id)
  {
    var Job(x, stage) := s.reps[r].job;
    EffectFrame(s, x, stage, cmd);
    Exclusive(s, r, x);
    SettleShifts(Effect(s, x, stage, cmd), r, x, Next(c, s, x, stage, cmd), id);
  }

  lemma SettleShifts(s: State, r: nat, x: Id, move: Move, id: Id)
    requires r < |s.reps| && s.reps[r].job.Job? && s.reps[r].job.id == x
    requires Outside(s, x) == 0
    ensures Shift(s, Settle(s, r, x, move), r, id)
  {
  }

  /** A command's data effects leave the clock, the queue, the retry set, the replicas and the finished ids alone. */
  lemma EffectFrame(s: State, id: Id, stage: Stage, cmd: Command)
    requires id in s.hist && Fits(stage, cmd)
    ensures var s' := Effect(s, id, stage, cmd);
      && s'.now == s.now && s'.reps == s.reps && s'.done == s.done && s'.hist.Keys == s.hist.Keys
      && s'.store.queue == s.store.queue && s'.store.retry == s.store.retry
      && (forall x :: x != id && x in s.hist ==> s'.hist[x] == s.hist[x])
      && (forall x :: x != id ==> WebhookOf(s'.store, x) == WebhookOf(s.store, x))
      && (forall x :: x != id ==> CounterOf(s'.store, x) == CounterOf(s.store, x))
  {
  }

  /** The stored counter itself, whether or not it has expired. */
  function CounterOf(st: Store, id: Id): Option<Counter> {
    if id in st.counters then Some(st.counters[id]) else None
  }
}
