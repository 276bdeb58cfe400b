/** The session table: lazy expiry, cancellation, code redemption, webhook state and the expiry sweep. */
module Sessions {
  import opened Common
  import Ordering

  type Id = string

  datatype Status = Pending | WalletEngaged | Verified | Failed | Expired | Cancelled

  /** `expiresAt` None is Go's zero time: the session never expires. */
  datatype Session = Session(
    clientID: string, status: Status, flow: Flow, expiresAt: Option<int>, createdAt: int, updatedAt: int,
    redeemedAt: Option<int>, webhookURL: string, webhookState: string)

  type Table = map<Id, Session>

  datatype Error = NotFound | NotCancellable | Invalid

  predicate Live(st: Status) {
    st == Pending || st == WalletEngaged
  }

  predicate Due(s: Session, now: int) {
    Live(s.status) && s.expiresAt.Some? && s.expiresAt.value <= now
  }

  function Expire(s: Session, now: int): Session {
    s.(status := Expired, updatedAt := now)
  }

  function LazilyExpired(s: Session, now: int): Session {
    if Due(s, now) then Expire(s, now) else s
  }

  predicate Owns(t: Table, client: string, id: Id) {
    id in t && t[id].clientID == client
  }

  function GetForClient(t: Table, client: string, id: Id, now: int): (Table, Result<Session, Error>) {
    if !Owns(t, client, id) then (t, Err(NotFound))
    else var s := LazilyExpired(t[id], now); (t[id := s], Ok(s))
  }

  /**
   * The client's own session and no other is found; it is expired on the spot if it is live and at or past its expiry,
   * and what is returned is what is stored.
   */
  lemma GetIff(t: Table, client: string, id: Id, now: int)
    ensures var (t', r) := GetForClient(t, client, id, now);
      && (r.Ok? <==> id in t && t[id].clientID == client)
      && (r.Err? ==> r == Err(NotFound) && t' == t)
      && (r.Ok? ==> t' == t[id := r.value])
      && (r.Ok? ==>
            var live := t[id].status in {Pending, WalletEngaged};
            r.value == if live && t[id].expiresAt.Some? && t[id].expiresAt.value <= now
                       then t[id].(status := Expired, updatedAt := now) else t[id])
  {
  }

  /** A session found past its expiry is expired on the spot, even though the cancellation is then refused. */
  function Cancel(t: Table, client: string, id: Id, now: int): (Table, Result<(), Error>) {
    if !Owns(t, client, id) then (t, Err(NotFound))
    else
      var s := LazilyExpired(t[id], now);
      if !Live(s.status) then (t[id := s], Err(NotCancellable))
      else (t[id := s.(status := Cancelled, updatedAt := now)], Ok(()))
  }

  /**
   * A session is cancelled exactly if it is the client's, live, and before its expiry; an owned session that is not
   * ends up terminal anyway, expired if it was live. Nothing else in the table changes.
   */
  lemma CancelIff(t: Table, client: string, id: Id, now: int)
    ensures var (t', r) := Cancel(t, client, id, now);
      && (r.Ok? <==> id in t && t[id].clientID == client && t[id].status in {Pending, WalletEngaged}
                     && (t[id].expiresAt.None? || now < t[id].expiresAt.value))
      && (r == Err(NotFound) <==> !(id in t && t[id].clientID == client))
      && (r == Err(NotFound) ==> t' == t)
      && (r.Ok? ==> t' == t[id := t[id].(status := Cancelled, updatedAt := now)])
      && (r == Err(NotCancellable) ==>
            t' == t[id := if Live(t[id].status) then t[id].(status := Expired, updatedAt := now) else t[id]])
  {
  }

  /** The first redemption wins; later ones change nothing. */
  function MarkCodeRedeemed(t: Table, client: string, id: Id, now: int): (Table, Result<(), Error>) {
    if !Owns(t, client, id) then (t, Err(NotFound))
    else if t[id].redeemedAt.Some? then (t, Ok(()))
    else (t[id := t[id].(redeemedAt := Some(now))], Ok(()))
  }

  /** A redemption is recorded exactly for the client's own session, with the instant of the first one. */
  lemma RedeemIff(t: Table, client: string, id: Id, now: int)
    ensures var (t', r) := MarkCodeRedeemed(t, client, id, now);
      && (r.Ok? <==> id in t && t[id].clientID == client)
      && (r.Err? ==> r == Err(NotFound) && t' == t)
      && (r.Ok? ==> t' == t[id := t[id].(redeemedAt := if t[id].redeemedAt.Some? then t[id].redeemedAt else Some(now))])
  {
  }

  const WEBHOOK_STATES := {"pending", "delivering", "delivered", "failed"}

  function SetWebhookState(t: Table, id: Id, state: string): (Table, Result<(), Error>) {
    if state !in WEBHOOK_STATES then (t, Err(Invalid))
    else if id !in t then (t, Err(NotFound))
    else (t[id := t[id].(webhookState := state)], Ok(()))
  }

  /** One of the four states is written to a session that exists, and nothing else is touched. */
  lemma WebhookWriteIff(t: Table, id: Id, state: string)
    ensures var (t', r) := SetWebhookState(t, id, state);
      var valid := state == "pending" || state == "delivering" || state == "delivered" || state == "failed";
      && (r == Err(Invalid) <==> !valid)
      && (r == Err(NotFound) <==> valid && id !in t)
      && (r.Ok? <==> valid && id in t)
      && (r.Err? ==> t' == t)
      && (r.Ok? ==> t'.Keys == t.Keys && t'[id] == t[id].(webhookState := state)
                    && forall x :: x in t && x != id ==> t'[x] == t[x])
  {
  }

  // ----- The expiry sweep -----

  /** sort.Strings order. */
  const BY_ID: string -> int := _ => 0

  function DueIds(t: Table, now: int): set<Id> {
    set id | id in t && Due(t[id], now)
  }

  /** All due sessions, by id. */
  ghost function DueList(t: Table, now: int): (s: seq<Id>)
    ensures |s| == |DueIds(t, now)| && (forall x :: x in s <==> x in DueIds(t, now)) && Ordering.Sorted(BY_ID, s)
  {
    Ordering.Listed(BY_ID, DueIds(t, now))
  }

  function Clamp(limit: int, n: nat): (k: nat)
    ensures k <= n
  {
    if limit < 0 then 0 else if limit < n then limit else n
  }

  ghost function Batch(t: Table, limit: int, now: int): seq<Id> {
    DueList(t, now)[..Clamp(limit, |DueList(t, now)|)]
  }

  function ExpireAll(t: Table, ids: seq<Id>, now: int): (t': Table)
    ensures t'.Keys == t.Keys
  {
    map id | id in t :: if id in ids then Expire(t[id], now) else t[id]
  }

  ghost function ExpireDue(t: Table, limit: int, now: int): (Table, seq<Id>) {
    (ExpireAll(t, Batch(t, limit, now), now), Batch(t, limit, now))
  }

  lemma SortedDistinct(s: seq<Id>, i: nat, j: nat)
    requires Ordering.Sorted(BY_ID, s) && i < |s| && j < |s| && s[i] == s[j]
    ensures i == j
  {
    Ordering.StringLessTotal(s[i], s[i]);
  }

  /**
   * A sweep expires the smallest-id due sessions, min(limit, n) of them, in order; every other due session has a
   * larger id, and every other row is untouched.
   */
  lemma SweepTakesSmallest(t: Table, limit: int, now: int)
    ensures var (t', batch) := ExpireDue(t, limit, now);
      && |batch| == (if limit <= 0 then 0 else if limit < |DueIds(t, now)| then limit else |DueIds(t, now)|)
      && Ordering.Sorted(BY_ID, batch)
      && (forall id :: id in batch ==>
            id in DueIds(t, now) && t'[id] == t[id].(status := Expired, updatedAt := now))
      && (forall id :: id in t && id !in batch ==> t'[id] == t[id])
      && (forall id, d :: id in batch && d in DueIds(t, now) && d !in batch ==> Ordering.StringLess(id, d))
  {
  }

  lemma RestIsDisjoint(due: seq<Id>, k: nat, x: Id)
    requires Ordering.Sorted(BY_ID, due) && k <= |due|
    ensures x in due[k..] <==> x in due && x !in due[..k]
  {
    if x in due[k..] && x in due[..k] {
      var i :| 0 <= i < k && due[i] == x;
      var j :| k <= j < |due| && due[j] == x;
      SortedDistinct(due, i, j);
    }
  }

  /** What remains due after a sweep is the rest of the list. */
  lemma DueAfterSweep(t: Table, limit: int, now: int)
    ensures DueList(ExpireDue(t, limit, now).0, now) == DueList(t, now)[|Batch(t, limit, now)|..]
  {
    var due, batch, t' := DueList(t, now), Batch(t, limit, now), ExpireDue(t, limit, now).0;
    forall x
      ensures x in due[|batch|..] <==> x in DueIds(t', now)
    {
      RestIsDisjoint(due, |batch|, x);
      StillDue(t, batch, now, x);
    }
    Ordering.ListedUnique(BY_ID, due[|batch|..], DueIds(t', now));
  }

  lemma StillDue(t: Table, ids: seq<Id>, now: int, x: Id)
    ensures x in DueIds(ExpireAll(t, ids, now), now) <==> x in DueIds(t, now) && x !in ids
  {
  }

  /** k sweeps in a row at one instant, and all they expired. */
  ghost function Sweeps(t: Table, limit: int, now: int, k: nat): (Table, seq<Id>) {
    if k == 0 then (t, [])
    else
      var (t1, batch) := ExpireDue(t, limit, now);
      var (t', rest) := Sweeps(t1, limit, now, k - 1);
      (t', batch + rest)
  }

  /** k sweeps expire exactly the first min(m, n) due sessions, in order, and leave the others due. */
  ghost predicate Drains(t: Table, limit: nat, now: int, k: nat, m: nat) {
    var due := DueList(t, now);
    && Sweeps(t, limit, now, k).1 == due[..Clamp(m, |due|)]
    && DueList(Sweeps(t, limit, now, k).0, now) == due[Clamp(m, |due|)..]
  }

  /** k times limit, added up. */
  function Times(k: nat, limit: nat): nat {
    if k == 0 then 0 else limit + Times(k - 1, limit)
  }

  lemma {:induction false} TimesIsProduct(k: nat, limit: nat)
    ensures Times(k, limit) == k * limit
  {
    if k > 0 {
      TimesIsProduct(k - 1, limit);
      assert k * limit == limit + (k - 1) * limit;
    }
  }

  /** Sweeping drains the due list front to back, limit sessions at a time, each session once. */
  lemma {:induction false} SweepsDrain(t: Table, limit: nat, now: int, k: nat)
    requires limit >= 1
    ensures Drains(t, limit, now, k, Times(k, limit))
    decreases k
  {
    if k == 0 {
      DrainsNone(t, limit, now);
    } else {
      SweepsDrain(ExpireDue(t, limit, now).0, limit, now, k - 1);
      DrainsOneMore(t, limit, now, k, Times(k - 1, limit));
    }
  }

  lemma DrainsNone(t: Table, limit: nat, now: int)
    ensures Drains(t, limit, now, 0, 0)
  {
  }

  lemma DrainsOneMore(t: Table, limit: nat, now: int, k: nat, m: nat)
    requires limit >= 1 && k > 0 && Drains(ExpireDue(t, limit, now).0, limit, now, k - 1, m)
    ensures Drains(t, limit, now, k, limit + m)
  {
    DueAfterSweep(t, limit, now);
    SlicesClamp(DueList(t, now), limit, m);
  }

  lemma SlicesClamp(s: seq<Id>, limit: nat, m: nat)
    ensures var b := Clamp(limit, |s|); var c := Clamp(m, |s[b..]|); var all := Clamp(limit + m, |s|);
      s[..b] + s[b..][..c] == s[..all] && s[b..][c..] == s[all..]
  {
  }

  lemma DrainedInCeil(t: Table, limit: nat, now: int, k: nat)
    requires limit >= 1
    ensures DueIds(Sweeps(t, limit, now, k).0, now) == {} <==> k * limit >= |DueIds(t, now)|
  {
    SweepsDrain(t, limit, now, k);
    TimesIsProduct(k, limit);
    var rest := DueList(Sweeps(t, limit, now, k).0, now);
    if rest == [] {
      assert DueIds(Sweeps(t, limit, now, k).0, now) == {};
    } else {
      assert rest[0] in DueIds(Sweeps(t, limit, now, k).0, now);
    }
  }

  // ----- The table as an object -----

  /** The due ids among a list, in its order. */
  function DueAmong(t: Table, ids: seq<Id>, now: int): seq<Id> {
    if ids == [] then []
    else
      var last := ids[|ids| - 1];
      DueAmong(t, ids[..|ids| - 1], now) + (if last in t && Due(t[last], now) then [last] else [])
  }

  lemma {:induction false} DueAmongElements(t: Table, ids: seq<Id>, now: int)
    ensures forall x :: x in DueAmong(t, ids, now) <==> x in ids && x in t && Due(t[x], now)
  {
    if ids != [] {
      DueAmongElements(t, ids[..|ids| - 1], now);
      assert ids == ids[..|ids| - 1] + [ids[|ids| - 1]];
    }
  }

  lemma {:induction false} DueAmongSorted(t: Table, ids: seq<Id>, now: int)
    requires Ordering.Sorted(BY_ID, ids)
    ensures Ordering.Sorted(BY_ID, DueAmong(t, ids, now))
  {
    if ids != [] {
      var front := ids[..|ids| - 1];
      DueAmongSorted(t, front, now);
      DueAmongElements(t, front, now);
      var kept := DueAmong(t, front, now);
      forall i | 0 <= i < |kept|
        ensures Ordering.Before(BY_ID, kept[i], ids[|ids| - 1])
      {
        assert kept[i] in kept;
        var j :| 0 <= j < |front| && front[j] == kept[i];
        assert ids[j] == front[j];
      }
    }
  }

  lemma DueAmongAll(t: Table, ids: seq<Id>, now: int)
    requires ids == Ordering.Listed(BY_ID, t.Keys)
    ensures DueAmong(t, ids, now) == DueList(t, now)
  {
    DueAmongElements(t, ids, now);
    DueAmongSorted(t, ids, now);
    Ordering.ListedUnique(BY_ID, DueAmong(t, ids, now), DueIds(t, now));
  }

  lemma {:induction false} DueAmongPrefix(t: Table, ids: seq<Id>, i: nat, now: int)
    requires i <= |ids|
    ensures DueAmong(t, ids[..i], now) <= DueAmong(t, ids, now)
    decreases |ids|
  {
    if i < |ids| {
      assert ids[..|ids| - 1][..i] == ids[..i];
      DueAmongPrefix(t, ids[..|ids| - 1], i, now);
    } else {
      assert ids[..i] == ids;
    }
  }

  class SessionStore {
    var sessions: Table
    var errCodes: map<Id, string>

    constructor ()
      ensures sessions == map[] && errCodes == map[]
    {
      sessions, errCodes := map[], map[];
    }

    method ExpireIfDue(id: Id, now: int)
      requires id in sessions
      modifies this`sessions
      ensures sessions == old(sessions)[id := LazilyExpired(old(sessions)[id], now)]
    {
      var s := sessions[id];
      if (s.status == Pending || s.status == WalletEngaged) && s.expiresAt.Some? && s.expiresAt.value <= now {
        s := s.(status := Expired, updatedAt := now);
      }
      sessions := sessions[id := s];
    }

    method Get(client: string, id: Id, now: int) returns (r: Result<Session, Error>)
      modifies this`sessions
      ensures (sessions, r) == GetForClient(old(sessions), client, id, now)
    {
      if id !in sessions || sessions[id].clientID != client { return Err(NotFound); }
      ExpireIfDue(id, now);
      return Ok(sessions[id]);
    }

    method CancelSession(client: string, id: Id, now: int) returns (r: Result<(), Error>)
      modifies this`sessions
      ensures (sessions, r) == Cancel(old(sessions), client, id, now)
    {
      if id !in sessions || sessions[id].clientID != client { return Err(NotFound); }
      ExpireIfDue(id, now);
      if sessions[id].status != Pending && sessions[id].status != WalletEngaged { return Err(NotCancellable); }
      var s := sessions[id].(status := Cancelled, updatedAt := now);
      sessions := sessions[id := s];
      assert sessions == old(sessions)[id := s];
      return Ok(());
    }

    method Redeem(client: string, id: Id, now: int) returns (r: Result<(), Error>)
      modifies this`sessions
      ensures (sessions, r) == MarkCodeRedeemed(old(sessions), client, id, now)
    {
      if id !in sessions || sessions[id].clientID != client { return Err(NotFound); }
      if sessions[id].redeemedAt.None? {
        var s := sessions[id].(redeemedAt := Some(now));
        sessions := sessions[id := s];
      }
      return Ok(());
    }

    method WriteWebhookState(id: Id, state: string, errCode: string) returns (r: Result<(), Error>)
      modifies this
      ensures (sessions, r) == SetWebhookState(old(sessions), id, state)
      ensures errCodes == if r.Ok? then old(errCodes)[id := errCode] else old(errCodes)
    {
      if state !in WEBHOOK_STATES { return Err(Invalid); }
      if id !in sessions { return Err(NotFound); }
      sessions := sessions[id := sessions[id].(webhookState := state)];
      errCodes := errCodes[id := errCode];
      return Ok(());
    }

    /** Goes through all ids in order, expiring due sessions until the limit is reached. */
    method Sweep(limit: int, now: int) returns (out: seq<Id>)
      modifies this`sessions
      ensures (sessions, out) == ExpireDue(old(sessions), limit, now)
    {
      var ids := Ordering.List(BY_ID, sessions.Keys);
      out := SweepOver(ids, limit, now);
    }

    method SweepOver(ids: seq<Id>, limit: int, now: int) returns (out: seq<Id>)
      requires ids == Ordering.Listed(BY_ID, sessions.Keys)
      modifies this`sessions
      ensures out == Batch(old(sessions), limit, now) && sessions == ExpireAll(old(sessions), out, now)
    {
      ghost var t := sessions;
      out := [];
      var i := 0;
      NothingSwept(t, ids, now);
      while i < |ids| && |out| < limit
        invariant i <= |ids| && (out == [] || |out| <= limit)
        invariant Considered(t, sessions, ids, i, out, now)
      {
        out := ExpireOne(ids, i, out, now, t);
        i := i + 1;
      }
      SweptInOrder(t, ids, i, limit, now);
    }

    /** The loop body: expires one session if it is due, and appends it. */
    method ExpireOne(ids: seq<Id>, i: nat, out: seq<Id>, now: int, ghost t: Table) returns (out': seq<Id>)
      requires i < |ids| && Considered(t, sessions, ids, i, out, now)
      modifies this`sessions
      ensures Considered(t, sessions, ids, i + 1, out', now) && |out'| <= |out| + 1
    {
      UndecidedUntouched(t, ids, i, now);
      ExpireOneMore(t, out, ids[i], now);
      var s := sessions[ids[i]];
      if (s.status == Pending || s.status == WalletEngaged) && s.expiresAt.Some? && s.expiresAt.value <= now {
        sessions := sessions[ids[i] := s.(status := Expired, updatedAt := now)];
        return out + [ids[i]];
      }
      return out;
    }
  }

  /** The first i ids of the listing of t have been considered, `out` of them expired, which gave cur. */
  ghost predicate Considered(t: Table, cur: Table, ids: seq<Id>, i: nat, out: seq<Id>, now: int)
    requires i <= |ids|
  {
    ids == Ordering.Listed(BY_ID, t.Keys) && out == DueAmong(t, ids[..i], now) && cur == ExpireAll(t, out, now)
  }

  lemma NothingSwept(t: Table, ids: seq<Id>, now: int)
    ensures DueAmong(t, ids[..0], now) == [] && ExpireAll(t, [], now) == t
  {
  }

  lemma ExpireOneMore(t: Table, out: seq<Id>, id: Id, now: int)
    requires id in t && id !in out
    ensures ExpireAll(t, out, now)[id] == t[id]
    ensures ExpireAll(t, out + [id], now) == ExpireAll(t, out, now)[id := Expire(t[id], now)]
  {
  }

  /** Where the sweep stops, it has taken the batch. */
  lemma SweptInOrder(t: Table, ids: seq<Id>, i: nat, limit: int, now: int)
    requires ids == Ordering.Listed(BY_ID, t.Keys) && i <= |ids|
    requires DueAmong(t, ids[..i], now) == [] || |DueAmong(t, ids[..i], now)| <= limit
    requires i == |ids| || |DueAmong(t, ids[..i], now)| >= limit
    ensures DueAmong(t, ids[..i], now) == Batch(t, limit, now)
  {
    DueAmongAll(t, ids, now);
    DueAmongPrefix(t, ids, i, now);
    if i == |ids| { assert ids[..i] == ids; }
    PrefixClamped(DueAmong(t, ids[..i], now), DueList(t, now), limit, i == |ids|);
  }

  lemma PrefixClamped(p: seq<Id>, s: seq<Id>, limit: int, whole: bool)
    requires p <= s && (p == [] || |p| <= limit) && (if whole then p == s else |p| >= limit)
    ensures p == s[..Clamp(limit, |s|)]
  {
  }

  lemma UndecidedUntouched(t: Table, ids: seq<Id>, i: nat, now: int)
    requires ids == Ordering.Listed(BY_ID, t.Keys) && i < |ids|
    ensures ids[i] in t && ids[i] !in DueAmong(t, ids[..i], now)
    ensures DueAmong(t, ids[..i + 1], now) ==
            DueAmong(t, ids[..i], now) + (if Due(t[ids[i]], now) then [ids[i]] else [])
  {
    assert ids[i] in ids && ids[..i + 1][..i] == ids[..i];
    DueAmongElements(t, ids[..i], now);
    if ids[i] in ids[..i] {
      var j :| 0 <= j < i && ids[j] == ids[i];
      SortedDistinct(ids, j, i);
    }
  }
}
