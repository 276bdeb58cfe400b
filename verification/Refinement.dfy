/** The sequential cycle of the consumer, drain, claim and work, is a run of the protocol. */
module Refinement {
  import opened Common
  import opened Handoff
  import opened Delivery
  import opened Processing
  import opened Draining
  import opened Consumer
  import Ordering

  lemma {:induction false} RunAppend(c: Config, s: State, a: seq<Action>, b: seq<Action>)
    requires CanRun(c, s, a) && CanRun(c, Run(c, s, a), b)
    ensures CanRun(c, s, a + b) && Run(c, s, a + b) == Run(c, Run(c, s, a), b)
    decreases |a|
  {
    if a == [] {
      assert a + b == b;
    } else {
      assert (a + b)[1..] == a[1..] + b;
      RunAppend(c, Apply(c, s, a[0]), a[1..], b);
    }
  }

  /** One more step at the end of a run. */
  lemma RunOneMore(c: Config, s0: State, acts: seq<Action>, a: Action)
    requires CanRun(c, s0, acts) && Enabled(c, Run(c, s0, acts), a)
    ensures CanRun(c, s0, acts + [a]) && Run(c, s0, acts + [a]) == Apply(c, Run(c, s0, acts), a)
  {
    var s := Run(c, s0, acts);
    assert [a][1..] == [];
    assert CanRun(c, Apply(c, s, a), []);
    assert CanRun(c, s, [a]) && Run(c, s, [a]) == Apply(c, s, a);
    RunAppend(c, s0, acts, [a]);
  }

  lemma {:induction false} RunOwned(c: Config, s: State, acts: seq<Action>)
    requires Owned(s) && CanRun(c, s, acts)
    ensures Owned(Run(c, s, acts))
    decreases |acts|
  {
    if acts != [] {
      OwnershipStep(c, s, acts[0]);
      RunOwned(c, Apply(c, s, acts[0]), acts[1..]);
    }
  }

  // ----- The drain loop -----

  ghost predicate Clocked(io: nat -> Io) {
    forall k: nat :: Ordered(io(k).at) && io(k).at.save <= io(k + 1).at.read
  }

  /** A replica between two RPOPs. */
  ghost predicate ReadyToPop(s: State, r: nat) {
    Owned(s) && r < |s.reps| && s.reps[r].phase == Draining && s.reps[r].job == NoJob
  }

  /** A replica that has just picked up an id processes it without interruption. */
  lemma JobIsARun(c: Config, s: State, r: nat, io: Io) returns (acts: seq<Action>)
    requires Owned(s) && r < |s.reps| && s.reps[r].job.Job? && s.reps[r].job.stage == AtFetch
    requires Ordered(io.at) && s.now <= io.at.read
    ensures CanRun(c, s, acts) && Owned(Run(c, s, acts))
    ensures var s' := Run(c, s, acts);
      && s'.store == Processed(c, io.at, s.store, s.reps[r].job.id, io.answers)
      && s.now <= s'.now <= io.at.save && s'.reps == s.reps[r := s.reps[r].(job := NoJob)]
  {
    Exclusive(s, r, s.reps[r].job.id);
    acts := ProcessedIsARun(c, io.at, s, r, io.answers);
    RunOwned(c, s, acts);
  }

  /** Handling one id of the drain loop: the replica pops and processes without interruption. */
  lemma HandledIsARun(c: Config, s: State, r: nat, io: Io) returns (acts: seq<Action>)
    requires ReadyToPop(s, r) && s.store.queue != [] && Ordered(io.at) && s.now <= io.at.read
    ensures CanRun(c, s, acts) && ReadyToPop(Run(c, s, acts), r)
    ensures var s' := Run(c, s, acts);
      s'.store == Handled(c, s.store, io) && s.now <= s'.now <= io.at.save && s'.reps == s.reps
  {
    var s1 := ApplyPop(s, r, true);
    OwnershipStep(c, s, Pop(r, true));
    var work := JobIsARun(c, s1, r, io);
    acts := [Pop(r, true)] + work;
    assert acts[1..] == work;
    assert s1.reps[r := s1.reps[r].(job := NoJob)] == s.reps;
  }

  /** The instant the k-th processOne call of a cycle has ended by. */
  function EndedBy(start: int, io: nat -> Io, k: nat): int {
    if k == 0 then start else io(k - 1).at.save
  }

  /** A run that did what a drain from its k-th answer on does. */
  ghost predicate Drained(s: State, s': State, io: nat -> Io, k: nat, d: Cycle) {
    && s'.store == d.store && s'.reps == s.reps && s.now <= s'.now
    && s'.now <= (if d.log == [] then s.now else io(k + |d.log| - 1).at.save)
    && (io(k + |d.log|).popOk ==> d.store.queue == [])
  }

  lemma DrainedLonger(s: State, s1: State, s': State, io: nat -> Io, k: nat, d: Cycle, x: Id)
    requires s1.reps == s.reps && s.now <= s1.now <= io(k).at.save && Drained(s1, s', io, k + 1, d)
    ensures Drained(s, s', io, k, Cycle(d.store, [x] + d.log))
  {
    assert io(k + |[x] + d.log| - 1).at.save == io(k + 1 + |d.log| - 1).at.save;
  }

  /** The drain loop of RunOnce refines the protocol: one replica, moving alone, reaches exactly the stores of Drain. */
  lemma {:induction false} DrainIsARun(c: Config, s: State, r: nat, io: nat -> Io, k: nat, n: nat)
    returns (acts: seq<Action>)
    requires QuietFrom(io, n) && Clocked(io) && ReadyToPop(s, r) && s.now <= io(k).at.read
    ensures CanRun(c, s, acts) && ReadyToPop(Run(c, s, acts), r)
    ensures Drained(s, Run(c, s, acts), io, k, Drain(c, s.store, io, k, n))
    decreases if k < n then n - k else 0, |s.store.queue|
  {
    if !io(k).popOk || s.store.queue == [] {
      acts := [];
    } else {
      DrainUnfolds(c, s.store, io, k, n);
      var first := HandledIsARun(c, s, r, io(k));
      var rest := DrainIsARun(c, Run(c, s, first), r, io, k + 1, n);
      acts := DrainOnwards(c, s, r, io, k, first, rest, Drain(c, Handled(c, s.store, io(k)), io, k + 1, n));
    }
  }

  lemma DrainOnwards(
    c: Config, s: State, r: nat, io: nat -> Io, k: nat, first: seq<Action>, rest: seq<Action>, d: Cycle)
    returns (acts: seq<Action>)
    requires s.store.queue != [] && CanRun(c, s, first) && CanRun(c, Run(c, s, first), rest)
    requires var s' := Run(c, s, first); s'.reps == s.reps && s.now <= s'.now <= io(k).at.save
    requires ReadyToPop(Run(c, Run(c, s, first), rest), r) &&
      Drained(Run(c, s, first), Run(c, Run(c, s, first), rest), io, k + 1, d)
    ensures CanRun(c, s, acts) && ReadyToPop(Run(c, s, acts), r)
    ensures Drained(s, Run(c, s, acts), io, k, Cycle(d.store, [RightEnd(s.store)] + d.log))
  {
    var s' := Run(c, s, first);
    RunAppend(c, s, first, rest);
    DrainedLonger(s, s', Run(c, s', rest), io, k, d, RightEnd(s.store));
    acts := first + rest;
  }

  // ----- Claiming -----

  /** Replica r, put elsewhere in its cycle, and the rest of the state. */
  function Moved(s: State, r: nat, phase: Phase, held: seq<Id>): State
    requires r < |s.reps|
  {
    SetRep(s, r, s.reps[r].(phase := phase, held := held))
  }

  function Without(s: State, ids: seq<Id>): State {
    s.(store := s.store.(retry := s.store.retry - Elements(ids)))
  }

  lemma {:induction false} ClaimsAreARun(c: Config, s: State, r: nat, todo: seq<Id>) returns (acts: seq<Action>)
    requires r < |s.reps| && s.reps[r].phase == Claiming(todo)
    requires NoDuplicates(todo) && forall id :: id in todo ==> id in s.store.retry
    ensures CanRun(c, s, acts) && Run(c, s, acts) == Moved(Without(s, todo), r, Working, s.reps[r].held + todo)
    decreases |todo|
  {
    var s1 := Apply(c, s, Claim(r));
    var rest := [];
    if todo == [] {
      assert Elements(todo) == {} && s.store.retry - {} == s.store.retry && s.reps[r].held + todo == s.reps[r].held;
    } else {
      assert todo == [todo[0]] + todo[1..];
      rest := ClaimsAreARun(c, s1, r, todo[1..]);
      ClaimedFirst(s, r, todo);
    }
    acts := [Claim(r)] + rest;
    assert acts[1..] == rest;
  }

  lemma ClaimedFirst(s: State, r: nat, todo: seq<Id>)
    requires r < |s.reps| && s.reps[r].phase == Claiming(todo) && todo != [] && todo[0] in s.store.retry
    ensures var s1 := ApplyClaim(s, r);
      r < |s1.reps| && Moved(Without(s1, todo[1..]), r, Working, s1.reps[r].held + todo[1..]) ==
      Moved(Without(s, todo), r, Working, s.reps[r].held + todo)
  {
    assert Elements(todo) == {todo[0]} + Elements(todo[1..]);
    assert s.store.retry - {todo[0]} - Elements(todo[1..]) == s.store.retry - Elements(todo);
    assert (s.reps[r].held + [todo[0]]) + todo[1..] == s.reps[r].held + todo;
  }

  /** Due: read the clock, read the range, claim. Only this replica moves, so it claims all of the range. */
  lemma DueIsARun(c: Config, s: State, r: nat, dueAt: int) returns (acts: seq<Action>)
    requires r < |s.reps| && s.reps[r].phase == AtClock && s.reps[r].job == NoJob && s.now <= dueAt
    ensures CanRun(c, s, acts)
    ensures var ids := Ordering.Listed(ScoreIn(s.store.retry), DueIn(s.store.retry, Unix(dueAt)));
      Run(c, s, acts) == Moved(Without(s.(now := dueAt), ids), r, Working, s.reps[r].held + ids)
  {
    var ids := Ordering.Listed(ScoreIn(s.store.retry), DueIn(s.store.retry, Unix(dueAt)));
    ListedNoDuplicates(ids, ScoreIn(s.store.retry));
    var s1 := s.(now := dueAt);
    var s2 := Moved(s1, r, AtRange(Unix(dueAt)), s.reps[r].held);
    var s3 := Moved(s1, r, Claiming(ids), s.reps[r].held);
    var claims := ClaimsAreARun(c, s3, r, ids);
    assert Apply(c, s1, ReadClock(r)) == s2;
    assert Enabled(c, s2, Range(r, true, ids)) && Apply(c, s2, Range(r, true, ids)) == s3;
    RunCons(c, s2, Range(r, true, ids), claims);
    RunCons(c, s1, ReadClock(r), [Range(r, true, ids)] + claims);
    acts := [Tick(dueAt)] + ([ReadClock(r)] + ([Range(r, true, ids)] + claims));
    RunCons(c, s, Tick(dueAt), [ReadClock(r)] + ([Range(r, true, ids)] + claims));
  }

  lemma ListedNoDuplicates(ids: seq<Id>, key: string -> int)
    requires Ordering.Sorted(key, ids)
    ensures NoDuplicates(ids)
  {
    forall i, j | 0 <= i < j < |ids|
      ensures ids[i] != ids[j]
    {
      ListedOnce(ids, j, key);
      assert ids[i] in ids[..j];
    }
  }

  // ----- Working off, and the whole cycle -----

  /** The claimed ids, one after the other, and then back to draining. */
  lemma {:induction false} WorkOffIsARun(c: Config, s: State, r: nat, io: nat -> Io, k: nat) returns (acts: seq<Action>)
    requires Owned(s) && Clocked(io) && r < |s.reps| && s.reps[r].phase == Working && s.reps[r].job == NoJob
    requires s.now <= io(k).at.read
    ensures CanRun(c, s, acts)
    ensures var s' := Run(c, s, acts);
      && s'.store == WorkOff(c, s.store, s.reps[r].held, io, k)
      && s'.reps == s.reps[r := Replica(Draining, [], NoJob)]
    decreases |s.reps[r].held|
  {
    var s1 := ApplyTake(s, r);
    if s.reps[r].held == [] {
      RunCons(c, s, Take(r), []);
      acts := [Take(r)] + [];
    } else {
      OwnershipStep(c, s, Take(r));
      var work := JobIsARun(c, s1, r, io(k));
      var s2 := Run(c, s1, work);
      var rest := WorkOffIsARun(c, s2, r, io, k + 1);
      RunAppend(c, s1, work, rest);
      RunCons(c, s, Take(r), work + rest);
      acts := [Take(r)] + (work + rest);
    }
  }

  /** The stores a cycle without a failing ZREM leaves: the contract of Consumer.RunOnce. */
  ghost function Cycled(c: Config, st: Store, io: nat -> Io, n: nat, dueAt: int, rangeOk: bool): Store
    requires QuietFrom(io, n)
  {
    var d := Drain(c, st, io, 0, n);
    var ids := Ordering.Listed(ScoreIn(d.store.retry), DueIn(d.store.retry, Unix(dueAt)));
    if !rangeOk then d.store
    else WorkOff(c, d.store.(retry := d.store.retry - Elements(ids)), ids, io, |d.log|)
  }

  /**
   * The sequential runOnce refines the protocol: a replica that moves alone, its clock reading for Due between the
   * last drained id and the first claimed one, drains, claims and works off exactly as RunOnce says, and is then
   * ready for its next cycle.
   */
  lemma CycleIsARun(c: Config, s: State, r: nat, io: nat -> Io, n: nat, dueAt: int, rangeOk: bool)
    returns (acts: seq<Action>)
    requires QuietFrom(io, n) && Clocked(io) && ReadyToPop(s, r) && s.reps[r].held == [] && s.now <= io(0).at.read
    requires var k := |Drain(c, s.store, io, 0, n).log|; EndedBy(s.now, io, k) <= dueAt <= io(k).at.read
    ensures CanRun(c, s, acts)
    ensures var s' := Run(c, s, acts); s'.store == Cycled(c, s.store, io, n, dueAt, rangeOk) && s'.reps == s.reps
  {
    var k := |Drain(c, s.store, io, 0, n).log|;
    var first := DrainIsARun(c, s, r, io, 0, n);
    var s1 := Run(c, s, first);
    var stop := Pop(r, io(k).popOk);
    var s2 := Moved(s1, r, AtClock, []);
    OwnershipStep(c, s1, stop);
    assert Apply(c, s1, stop) == s2;
    var rest := AfterDrain(c, s2, r, io, k, dueAt, rangeOk);
    RunCons(c, s1, stop, rest);
    RunAppend(c, s, first, [stop] + rest);
    acts := first + ([stop] + rest);
    assert s2.reps[r := Replica(Draining, [], NoJob)] == s.reps;
  }

  lemma AfterDrain(c: Config, s: State, r: nat, io: nat -> Io, k: nat, dueAt: int, rangeOk: bool)
    returns (acts: seq<Action>)
    requires Owned(s) && Clocked(io) && r < |s.reps| && s.reps[r] == Replica(AtClock, [], NoJob)
    requires s.now <= dueAt <= io(k).at.read
    ensures CanRun(c, s, acts)
    ensures var s' := Run(c, s, acts);
      var ids := Ordering.Listed(ScoreIn(s.store.retry), DueIn(s.store.retry, Unix(dueAt)));
      && s'.reps == s.reps[r := Replica(Draining, [], NoJob)]
      && s'.store == if !rangeOk then s.store
                     else WorkOff(c, s.store.(retry := s.store.retry - Elements(ids)), ids, io, k)
  {
    if rangeOk {
      var due := DueIsARun(c, s, r, dueAt);
      RunOwned(c, s, due);
      var ids := Ordering.Listed(ScoreIn(s.store.retry), DueIn(s.store.retry, Unix(dueAt)));
      assert [] + ids == ids;
      var work := WorkOffIsARun(c, Run(c, s, due), r, io, k);
      RunAppend(c, s, due, work);
      acts := due + work;
    } else {
      acts := RangeFails(c, s, r, dueAt);
    }
  }

  lemma RangeFails(c: Config, s: State, r: nat, dueAt: int) returns (acts: seq<Action>)
    requires r < |s.reps| && s.reps[r] == Replica(AtClock, [], NoJob) && s.now <= dueAt
    ensures CanRun(c, s, acts) && Run(c, s, acts) == Moved(s.(now := dueAt), r, Draining, [])
  {
    var ids := Ordering.Listed(ScoreIn(s.store.retry), DueIn(s.store.retry, Unix(dueAt)));
    ListedNoDuplicates(ids, ScoreIn(s.store.retry));
    var s1 := s.(now := dueAt);
    var s2 := Moved(s1, r, AtRange(Unix(dueAt)), []);
    assert Enabled(c, s2, Range(r, false, ids));
    RunCons(c, s2, Range(r, false, ids), []);
    RunCons(c, s1, ReadClock(r), [Range(r, false, ids)] + []);
    acts := [Tick(dueAt)] + ([ReadClock(r)] + ([Range(r, false, ids)] + []));
    RunCons(c, s, Tick(dueAt), [ReadClock(r)] + ([Range(r, false, ids)] + []));
  }
}
