/** The consumer, the retrier and the in-memory Valkey they share, as objects updated command by command. */
module Consumer {
  import opened Common
  import opened Backoff
  import opened Handoff
  import opened Delivery
  import opened Processing
  import opened Draining
  import Ordering

  /** The three keys of delivery: the handoff list, the retry ZSET and the attempt counters. */
  class Valkey {
    var queue: seq<Id>
    var retry: map<Id, int>
    var counters: map<Id, Counter>

    constructor ()
      ensures queue == [] && retry == map[] && counters == map[]
    {
      queue, retry, counters := [], map[], map[];
    }

    /** The ids with a score of at most max, in ZRANGEBYSCORE's order. */
    ghost function InRange(max: int): seq<Id>
      reads this
    {
      Ordering.Listed(ScoreIn(retry), DueIn(retry, max))
    }

    method ZRangeByScore(max: int) returns (ids: seq<Id>)
      ensures ids == InRange(max)
    {
      ids := Ordering.List(ScoreIn(retry), DueIn(retry, max));
    }

    /** ZREM answers whether it removed the member. */
    method ZRem(id: Id) returns (removed: bool)
      modifies this`retry
      ensures removed <==> id in old(retry)
      ensures retry == old(retry) - {id}
    {
      removed := id in retry;
      retry := retry - {id};
    }
  }

  function ScoreIn(retry: map<Id, int>): string -> int {
    id => if id in retry then retry[id] else 0
  }

  function DueIn(retry: map<Id, int>, max: int): set<Id> {
    set id | id in retry && retry[id] <= max
  }

  function Elements(s: seq<Id>): set<Id> {
    set id | id in s
  }

  class Retrier {
    const rdb: Valkey
    const c: Config

    constructor (rdb: Valkey, c: Config)
      ensures this.rdb == rdb && this.c == c
    {
      this.rdb, this.c := rdb, c;
    }

    /** Schedules the next attempt, unless it is exhausted, would pass the expiry, or the store fails. */
    method Schedule(id: Id, attempt: nat, expiresAt: int, t: Times, o: Answers) returns (err: ScheduleError)
      modifies rdb`counters, rdb`retry
      ensures err == Scheduling(c, attempt, t.schedule, expiresAt, o)
      ensures forall st: Store :: st.counters == old(rdb.counters) && st.retry == old(rdb.retry) ==>
        var st' := Scheduled(c, st, id, attempt, t, expiresAt, o);
        rdb.counters == st'.counters && rdb.retry == st'.retry
    {
      if attempt >= c.maxAttempts { return ErrExhausted; }
      var now := t.schedule;
      var next := now + Delay(c.base, attempt);
      if next > expiresAt { return ErrExpired; }
      var ttl := Sub(expiresAt, now);
      if ttl <= 0 { return ErrExpired; }
      if !o.saveOk { return ErrStore; }
      rdb.counters := rdb.counters[id := Counter(attempt + 1, t.save + ttl)];
      if !o.addOk { return ErrStore; }
      rdb.retry := rdb.retry[id := Unix(next)];
      return NoError;
    }

    /** The stored attempt count; a missing or expired counter is 0, and so is a failed read (with an error logged). */
    method Attempts(id: Id, now: int, ok: bool) returns (n: nat)
      ensures n == if ok && id in rdb.counters && now < rdb.counters[id].until then rdb.counters[id].n else 0
    {
      n := if ok && id in rdb.counters && now < rdb.counters[id].until then rdb.counters[id].n else 0;
    }

    /**
     * Claims the due ids one ZREM at a time, in score order. If the failAt-th ZREM fails, the caller gets nothing,
     * although the ids before it are already gone from the retry set.
     */
    method Due(now: int, rangeOk: bool, failAt: nat) returns (claimed: Option<seq<Id>>)
      modifies rdb`retry
      ensures !rangeOk ==> claimed == None && rdb.retry == old(rdb.retry)
      ensures rangeOk ==> var ids := old(rdb.InRange(Unix(now)));
        if failAt < |ids| then claimed == None && rdb.retry == old(rdb.retry) - Elements(ids[..failAt])
        else claimed == Some(ids) && rdb.retry == old(rdb.retry) - Elements(ids)
    {
      if !rangeOk { return None; }
      var ids := rdb.ZRangeByScore(Unix(now));
      claimed := ClaimAll(ids, failAt);
    }

    method ClaimAll(ids: seq<Id>, failAt: nat) returns (claimed: Option<seq<Id>>)
      requires exists max :: ids == rdb.InRange(max)
      modifies rdb`retry
      ensures if failAt < |ids| then claimed == None && rdb.retry == old(rdb.retry) - Elements(ids[..failAt])
              else claimed == Some(ids) && rdb.retry == old(rdb.retry) - Elements(ids)
    {
      var taken: seq<Id> := [];
      ghost var key := ScoreIn(rdb.retry);
      for i := 0 to |ids|
        invariant i <= failAt && taken == ids[..i]
        invariant rdb.retry == old(rdb.retry) - Elements(ids[..i])
      {
        if i == failAt { return None; }
        ListedOnce(ids, i, key);
        assert ids[i] in ids;
        var removed := rdb.ZRem(ids[i]);
        ElementsGrow(ids, i);
        if removed { taken := taken + [ids[i]]; }
      }
      assert ids[..|ids|] == ids;
      return Some(taken);
    }
  }

  lemma ElementsGrow(ids: seq<Id>, i: nat)
    requires i < |ids|
    ensures ids[..i + 1] == ids[..i] + [ids[i]] && Elements(ids[..i + 1]) == Elements(ids[..i]) + {ids[i]}
  {
  }

  lemma ListedOnce(ids: seq<Id>, i: nat, key: string -> int)
    requires i < |ids| && Ordering.Sorted(key, ids)
    ensures ids[i] !in ids[..i]
  {
    Ordering.StringLessTotal(ids[i], ids[i]);
  }

  class Consumer {
    const rdb: Valkey
    const retrier: Retrier
    const c: Config
    var webhook: map<Id, WebhookState>
    var delivered: nat
    var failed: nat

    constructor (rdb: Valkey, c: Config)
      ensures this.rdb == rdb && this.c == c && retrier.rdb == rdb && retrier.c == c
      ensures View() == Store(rdb.queue, rdb.retry, rdb.counters, map[], 0, 0)
    {
      this.rdb, this.c := rdb, c;
      retrier := new Retrier(rdb, c);
      webhook, delivered, failed := map[], 0, 0;
    }

    ghost predicate Valid() {
      retrier.rdb == rdb && retrier.c == c
    }

    /** The stores as the protocol sees them. */
    ghost function View(): Store
      reads this, rdb
    {
      Store(rdb.queue, rdb.retry, rdb.counters, webhook, delivered, failed)
    }

    method SetWebhookState(id: Id, w: WebhookState, ok: bool)
      modifies this`webhook
      ensures View() == Written(old(View()), id, w, ok)
    {
      if ok { webhook := webhook[id := w]; }
    }

    method Terminal(id: Id, o: Answers)
      modifies this`webhook, this`failed
      ensures View() == Terminated(old(View()), id, o)
    {
      SetWebhookState(id, Handoff.Failed, o.failedOk);
      failed := failed + 1;
    }

    method ProcessOne(id: Id, t: Times, o: Answers)
      requires Valid()
      modifies this, rdb
      ensures View() == Processed(c, t, old(View()), id, o)
    {
      if o.read == Missing { Terminal(id, o); return; }
      if o.read == Unreadable { rdb.queue := [id] + rdb.queue; return; }
      var env := c.payload(id);
      if env == Malformed { Terminal(id, o); return; }
      if env.webhookURL == "" { return; }
      SetWebhookState(id, Handoff.Delivering, o.markOk);
      if o.outcome == Accepted {
        SetWebhookState(id, Handoff.Delivered, o.deliveredOk);
        delivered := delivered + 1;
        return;
      }
      if o.outcome == Permanent { Terminal(id, o); return; }
      Retry(id, env.expiresAt, t, o);
    }

    /** processOne after a transient delivery failure. */
    method Retry(id: Id, expiresAt: int, t: Times, o: Answers)
      requires Valid()
      modifies this, rdb
      ensures View() == Retried(c, t, old(View()), id, expiresAt, o)
    {
      ghost var st := View();
      var attempt := retrier.Attempts(id, t.read, o.counterOk);
      assert attempt == if o.counterOk then GetCounter(st, id, t.read) else 0;
      var err := retrier.Schedule(id, attempt, expiresAt, t, o);
      assert View() == Scheduled(c, st, id, attempt, t, expiresAt, o);
      if err != NoError { Terminal(id, o); }
    }

    /**
     * One cycle: drain the queue, then claim and work off what is due. The answers of the k-th handled id come from
     * io(k), and from the n-th on no payload read fails transiently; log is the order in which ids were handled.
     */
    method RunOnce(io: nat -> Io, ghost n: nat, dueAt: int, rangeOk: bool, failAt: nat) returns (log: seq<Id>)
      requires Valid() && QuietFrom(io, n)
      modifies this, rdb
      ensures var d := Drain(c, old(View()), io, 0, n);
        var ids := Ordering.Listed(ScoreIn(d.store.retry), DueIn(d.store.retry, Unix(dueAt)));
        if !rangeOk then View() == d.store && log == d.log
        else if failAt < |ids| then
          View() == d.store.(retry := d.store.retry - Elements(ids[..failAt])) && log == d.log
        else
          && View() == WorkOff(c, d.store.(retry := d.store.retry - Elements(ids)), ids, io, |d.log|)
          && log == d.log + ids
    {
      log := DrainQueue(io, n);
      ghost var drained := View();
      var due := retrier.Due(dueAt, rangeOk, failAt);
      if due == None { return; }
      WorkThrough(due.value, io, |log|);
      log := log + due.value;
    }

    method DrainQueue(io: nat -> Io, ghost n: nat) returns (log: seq<Id>)
      requires Valid() && QuietFrom(io, n)
      modifies this, rdb
      ensures Drain(c, old(View()), io, 0, n) == Cycle(View(), log)
    {
      log := [];
      ghost var start := View();
      assert [] + Drain(c, start, io, 0, n).log == Drain(c, start, io, 0, n).log;
      while io(|log|).popOk && rdb.queue != []
        invariant DrainedTo(c, start, log, View(), io, n)
        decreases if |log| < n then n - |log| else 0, |rdb.queue|
      {
        DrainedOnce(c, start, log, View(), io, n);
        var id := PopAndProcess(io(|log|));
        log := log + [id];
      }
      DrainedAll(c, start, log, View(), io, n);
    }

    method PopAndProcess(io: Io) returns (id: Id)
      requires Valid() && rdb.queue != []
      modifies this, rdb
      ensures id == RightEnd(old(View())) && View() == Handled(c, old(View()), io)
    {
      id := rdb.queue[|rdb.queue| - 1];
      rdb.queue := rdb.queue[..|rdb.queue| - 1];
      assert View() == RPop(old(View()));
      ProcessOne(id, io.at, io.answers);
    }

    method WorkThrough(due: seq<Id>, io: nat -> Io, k: nat)
      requires Valid()
      modifies this, rdb
      ensures View() == WorkOff(c, old(View()), due, io, k)
    {
      ghost var end := WorkOff(c, View(), due, io, k);
      assert due[0..] == due;
      for i := 0 to |due|
        invariant WorkOff(c, View(), due[i..], io, k + i) == end
      {
        ghost var st := View();
        WorkOffFirst(c, st, due, i, io, k + i);
        ProcessOne(due[i], io(k + i).at, io(k + i).answers);
        assert View() == Processed(c, io(k + i).at, st, due[i], io(k + i).answers);
      }
    }
  }
}
