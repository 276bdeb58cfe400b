/** One runOnce cycle as a function of the stores and of the answers its calls get: order, counts and termination. */
module Draining {
  import opened Handoff
  import opened Delivery
  import opened Processing

  /** What the k-th id of a cycle meets: whether the RPOP works, and the instants and answers of processOne. */
  datatype Io = Io(popOk: bool, at: Times, answers: Answers)

  ghost predicate QuietFrom(io: nat -> Io, n: nat) {
    forall k :: k >= n ==> io(k).answers.read != Unreadable
  }

  ghost predicate AllPop(io: nat -> Io) {
    forall k :: io(k).popOk
  }

  datatype Cycle = Cycle(store: Store, log: seq<Id>)

  lemma ProcessedQueue(c: Config, t: Times, st: Store, id: Id, o: Answers)
    ensures Processed(c, t, st, id, o).queue == if o.read == Unreadable then [id] + st.queue else st.queue
  {
  }

  function Handled(c: Config, st: Store, io: Io): Store
    requires st.queue != []
  {
    Processed(c, io.at, RPop(st), RightEnd(st), io.answers)
  }

  /**
   * The drain loop: pop and process until the queue is empty or a pop fails, with the ids it handled in order. From
   * the n-th id on no payload read fails transiently, so it terminates: failures left first, then the queue's length.
   */
  ghost function Drain(c: Config, st: Store, io: nat -> Io, k: nat, n: nat): Cycle
    requires QuietFrom(io, n)
    decreases if k < n then n - k else 0, |st.queue|
  {
    if !io(k).popOk || st.queue == [] then Cycle(st, [])
    else
      ProcessedQueue(c, io(k).at, RPop(st), RightEnd(st), io(k).answers);
      var rest := Drain(c, Handled(c, st, io(k)), io, k + 1, n);
      Cycle(rest.store, [RightEnd(st)] + rest.log)
  }

  /** The drain of st0 has handled `log` and left st. */
  ghost predicate DrainedTo(c: Config, st0: Store, log: seq<Id>, st: Store, io: nat -> Io, n: nat)
    requires QuietFrom(io, n)
  {
    && Drain(c, st0, io, 0, n).store == Drain(c, st, io, |log|, n).store
    && Drain(c, st0, io, 0, n).log == log + Drain(c, st, io, |log|, n).log
  }

  /** One round of the drain loop. */
  lemma DrainedOnce(c: Config, st0: Store, log: seq<Id>, st: Store, io: nat -> Io, n: nat)
    requires QuietFrom(io, n) && DrainedTo(c, st0, log, st, io, n)
    requires io(|log|).popOk && st.queue != []
    ensures DrainedTo(c, st0, log + [RightEnd(st)], Handled(c, st, io(|log|)), io, n)
    ensures |log| < n || |Handled(c, st, io(|log|)).queue| < |st.queue|
  {
    ProcessedQueue(c, io(|log|).at, RPop(st), RightEnd(st), io(|log|).answers);
    var rest := Drain(c, Handled(c, st, io(|log|)), io, |log| + 1, n);
    assert log + ([RightEnd(st)] + rest.log) == log + [RightEnd(st)] + rest.log;
  }

  lemma DrainedAll(c: Config, st0: Store, log: seq<Id>, st: Store, io: nat -> Io, n: nat)
    requires QuietFrom(io, n) && DrainedTo(c, st0, log, st, io, n)
    requires !io(|log|).popOk || st.queue == []
    ensures Drain(c, st0, io, 0, n) == Cycle(st, log)
  {
  }

  /** The second half of a cycle: the claimed ids, in order. */
  function WorkOff(c: Config, st: Store, due: seq<Id>, io: nat -> Io, k: nat): Store
    decreases |due|
  {
    if due == [] then st else WorkOff(c, Processed(c, io(k).at, st, due[0], io(k).answers), due[1..], io, k + 1)
  }

  lemma WorkOffFirst(c: Config, st: Store, due: seq<Id>, i: nat, io: nat -> Io, k: nat)
    requires i < |due|
    ensures WorkOff(c, st, due[i..], io, k) ==
            WorkOff(c, Processed(c, io(k).at, st, due[i], io(k).answers), due[i + 1..], io, k + 1)
  {
    assert due[i..][1..] == due[i + 1..];
  }

  /** The drain, one round on. */
  lemma DrainUnfolds(c: Config, st: Store, io: nat -> Io, k: nat, n: nat)
    requires QuietFrom(io, n) && io(k).popOk && st.queue != []
    ensures var rest := Drain(c, Handled(c, st, io(k)), io, k + 1, n);
      Drain(c, st, io, k, n) == Cycle(rest.store, [RightEnd(st)] + rest.log)
    ensures k < n || |Handled(c, st, io(k)).queue| < |st.queue|
  {
    ProcessedQueue(c, io(k).at, RPop(st), RightEnd(st), io(k).answers);
  }

  lemma {:induction false} DrainEmpties(c: Config, st: Store, io: nat -> Io, k: nat, n: nat)
    requires QuietFrom(io, n) && AllPop(io)
    ensures Drain(c, st, io, k, n).store.queue == []
    decreases if k < n then n - k else 0, |st.queue|
  {
    if st.queue != [] {
      ProcessedQueue(c, io(k).at, RPop(st), RightEnd(st), io(k).answers);
      DrainEmpties(c, Handled(c, st, io(k)), io, k + 1, n);
    }
  }

  /** How many of the handled ids were id and failed to be read. */
  function Failures(log: seq<Id>, io: nat -> Io, k: nat, id: Id): nat {
    if log == [] then 0
    else Bit(log[0] == id && io(k).answers.read == Unreadable) + Failures(log[1..], io, k + 1, id)
  }

  /** Each id is handled once for each time it was queued, plus once for each of its failed reads. */
  lemma {:induction false} DrainCounts(c: Config, st: Store, io: nat -> Io, k: nat, n: nat, id: Id)
    requires QuietFrom(io, n)
    ensures var d := Drain(c, st, io, k, n);
      Count(d.log, id) + Count(d.store.queue, id) == Count(st.queue, id) + Failures(d.log, io, k, id)
    decreases if k < n then n - k else 0, |st.queue|
  {
    if io(k).popOk && st.queue != [] {
      DrainUnfolds(c, st, io, k, n);
      DrainCounts(c, Handled(c, st, io(k)), io, k + 1, n, id);
      HandledCounts(c, st, io(k), id);
      CountsOneMore(RightEnd(st), Drain(c, Handled(c, st, io(k)), io, k + 1, n).log, io, k, id);
    }
  }

  lemma CountsOneMore(x: Id, log: seq<Id>, io: nat -> Io, k: nat, id: Id)
    ensures Count([x] + log, id) == Bit(x == id) + Count(log, id)
    ensures Failures([x] + log, io, k, id) ==
            Bit(x == id && io(k).answers.read == Unreadable) + Failures(log, io, k + 1, id)
  {
    CountCons(x, log, id);
    assert ([x] + log)[1..] == log;
  }

  lemma HandledCounts(c: Config, st: Store, io: Io, id: Id)
    requires st.queue != []
    ensures Count(Handled(c, st, io).queue, id) ==
            Count(st.queue, id) - Bit(RightEnd(st) == id) + Bit(RightEnd(st) == id && io.answers.read == Unreadable)
    ensures io.answers.read != Unreadable ==> |Handled(c, st, io).queue| == |st.queue| - 1
  {
    ProcessedQueue(c, io.at, RPop(st), RightEnd(st), io.answers);
    CountCons(RightEnd(st), RPop(st).queue, id);
    CountSnoc(RPop(st).queue, RightEnd(st), id);
    assert st.queue == RPop(st).queue + [RightEnd(st)];
  }

  /** The queue as it will be popped: oldest first. */
  function Waiting(q: seq<Id>): seq<Id> {
    if q == [] then [] else [q[|q| - 1]] + Waiting(q[..|q| - 1])
  }

  /** What the k-th handled id adds to the queue; from the n-th on, nothing. */
  function Again(id: Id, io: nat -> Io, k: nat, n: nat): seq<Id> {
    if k < n && io(k).answers.read == Unreadable then [id] else []
  }

  lemma {:induction false} WaitingPushed(id: Id, q: seq<Id>)
    ensures Waiting([id] + q) == Waiting(q) + [id]
  {
    if q == [] {
      assert [id] + q == [id] && Waiting([]) == [];
    } else {
      assert ([id] + q)[..|q|] == [id] + q[..|q| - 1];
      WaitingPushed(id, q[..|q| - 1]);
    }
  }

  /** The order in which the ids waiting are handled, pops permitting: one that cannot be read goes to the end. */
  function Order(f: seq<Id>, io: nat -> Io, k: nat, n: nat): seq<Id>
    decreases if k < n then n - k else 0, |f|
  {
    if f == [] then [] else [f[0]] + Order(f[1..] + Again(f[0], io, k, n), io, k + 1, n)
  }

  lemma {:induction false} DrainOrder(c: Config, st: Store, io: nat -> Io, k: nat, n: nat)
    requires QuietFrom(io, n) && AllPop(io)
    ensures Drain(c, st, io, k, n).log == Order(Waiting(st.queue), io, k, n)
    decreases if k < n then n - k else 0, |st.queue|
  {
    if st.queue != [] {
      DrainUnfolds(c, st, io, k, n);
      WaitingHandled(c, st, io, k, n);
      DrainOrder(c, Handled(c, st, io(k)), io, k + 1, n);
    }
  }

  /** Handling an id takes the oldest waiting one off, and puts it at the end again if it could not be read. */
  lemma WaitingHandled(c: Config, st: Store, io: nat -> Io, k: nat, n: nat)
    requires QuietFrom(io, n) && st.queue != []
    ensures var x, w, w' := RightEnd(st), Waiting(st.queue), Waiting(Handled(c, st, io(k)).queue);
      w != [] && w[0] == x && w[1..] + Again(x, io, k, n) == w'
  {
    var x, q' := RightEnd(st), RPop(st).queue;
    ProcessedQueue(c, io(k).at, RPop(st), x, io(k).answers);
    WaitingPushed(x, q');
    assert Waiting(st.queue)[1..] == Waiting(q');
  }

  /** The ids of one pass that could not be read, in the order of their failures. */
  function Failing(f: seq<Id>, io: nat -> Io, k: nat, n: nat): seq<Id> {
    if f == [] then [] else Again(f[0], io, k, n) + Failing(f[1..], io, k + 1, n)
  }

  lemma OrderPops(x: Id, g: seq<Id>, w: seq<Id>, io: nat -> Io, k: nat, n: nat)
    ensures Order([x] + g + w, io, k, n) == [x] + Order(g + (w + Again(x, io, k, n)), io, k + 1, n)
  {
    assert ([x] + g + w)[1..] + Again(x, io, k, n) == g + (w + Again(x, io, k, n));
  }

  lemma FailingPops(x: Id, g: seq<Id>, w: seq<Id>, io: nat -> Io, k: nat, n: nat)
    ensures w + Failing([x] + g, io, k, n) == (w + Again(x, io, k, n)) + Failing(g, io, k + 1, n)
  {
  }

  lemma {:induction false} OrderFrom(f: seq<Id>, w: seq<Id>, io: nat -> Io, k: nat, n: nat)
    ensures Order(f + w, io, k, n) == f + Order(w + Failing(f, io, k, n), io, k + |f|, n)
    decreases |f|
  {
    if f == [] {
      assert f + w == w + Failing(f, io, k, n) == w;
    } else {
      var x, g := f[0], f[1..];
      OrderPops(x, g, w, io, k, n);
      OrderFrom(g, w + Again(x, io, k, n), io, k + 1, n);
      FailingPops(x, g, w, io, k, n);
      JoinFirst(f, g + Order((w + Again(x, io, k, n)) + Failing(g, io, k + 1, n), io, k + 1 + |g|, n), w);
    }
  }

  lemma JoinFirst(f: seq<Id>, tail: seq<Id>, w: seq<Id>)
    requires f != []
    ensures f == [f[0]] + f[1..] && f + w == [f[0]] + f[1..] + w
    ensures f[1..] <= tail ==> [f[0]] + tail == f + tail[|f| - 1..]
  {
  }

  /**
   * FIFO: a drain handles every id waiting at its start, oldest first, before any id it re-enqueues; those then form
   * the next pass, in the order of their failures.
   */
  lemma DrainIsFifo(c: Config, st: Store, io: nat -> Io, k: nat, n: nat)
    requires QuietFrom(io, n) && AllPop(io)
    ensures var f := Waiting(st.queue);
      && Drain(c, st, io, k, n).log == Order(f, io, k, n)
      && Order(f, io, k, n) == f + Order(Failing(f, io, k, n), io, k + |f|, n)
  {
    DrainOrder(c, st, io, k, n);
    OrderOnePass(Waiting(st.queue), io, k, n);
  }

  lemma OrderOnePass(f: seq<Id>, io: nat -> Io, k: nat, n: nat)
    requires QuietFrom(io, n)
    ensures Order(f, io, k, n) == f + Order(Failing(f, io, k, n), io, k + |f|, n)
  {
    assert f + [] == f && [] + Failing(f, io, k, n) == Failing(f, io, k, n);
    OrderFrom(f, [], io, k, n);
  }
}
