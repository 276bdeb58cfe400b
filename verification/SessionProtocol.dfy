/**
 * Sessions under concurrent polls, cancellations, expiry sweeps, webhook deliveries and the external engine. A poll is
 * several steps: it reads the session, its report, perhaps redeems a response code, and then responds.
 */
module SessionProtocol {
  import opened Common
  import opened Sessions
  import Ordering

  datatype Response = Failure | Body(state: Status, completedAt: Option<int>, released: bool)

  datatype Stage = AtReport | AtRedeem | AtMark | AtRespond | Responded(response: Response)

  /** `sess` is the session as the poll read it; `redeemed` whether it counts as redeemed for this poll. */
  datatype Poll = Poll(client: string, id: Id, code: string, stage: Stage, sess: Session, redeemed: bool)

  /** Which poll took a response code, for whom, which session it was polling, and which one the code indexed. */
  datatype Spent = Spent(poll: nat, client: string, polled: Id, owner: Id)

  /**
   * `codes` is the response-code index. History: the codes ever issued, those taken, the code behind each redemption,
   * the ids the engine enqueued and those the consumer delivered, the ids flipped to expired by a sweep and by a lazy
   * expiry, and the expired notifications outstanding and sent.
   */
  datatype State = State(
    sessions: Table, codes: map<string, Id>, now: int, polls: map<nat, Poll>,
    issued: set<string>, spent: map<string, Spent>, redeemedBy: map<Id, string>,
    handoff: set<Id>, delivered: set<Id>, swept: set<Id>, lazy: set<Id>, notices: seq<Id>, notified: seq<Id>)

  datatype Action =
    | Tick(to: int)
    | Create(id: Id, session: Session)
    | Engage(id: Id)
    | Complete(id: Id, verified: bool, enqueue: bool)
    | Issue(code: string, id: Id)
    | LoseCode(code: string)
    | CancelCall(client: string, id: Id)
    | WebhookCall(id: Id, state: string)
    | Start(p: nat, client: string, id: Id, code: string)
    | Report(p: nat, ok: bool)
    | Redeem(p: nat, ok: bool)
    | Mark(p: nat, ok: bool)
    | Respond(p: nat, ok: bool)
    | Sweep(limit: int)
    | Notify
    | DeliverHandoff(id: Id)

  predicate Terminal(st: Status) {
    st == Verified || st == Sessions.Failed || st == Expired || st == Cancelled
  }

  /** Every state is one or the other. */
  lemma LiveOrTerminal(st: Status)
    ensures Live(st) <==> st in {Pending, WalletEngaged}
    ensures Terminal(st) <==> st in {Verified, Sessions.Failed, Expired, Cancelled}
    ensures Live(st) <==> !Terminal(st)
  {
  }

  /** Reported once the state is terminal: the instant of the last status change. */
  function CompletedAt(s: Session): Option<int> {
    if Terminal(s.status) then Some(s.updatedAt) else None
  }

  /** The release gate. */
  predicate Releases(sess: Session, redeemed: bool) {
    sess.status == Verified && (sess.flow != SameDevice || redeemed)
  }

  predicate At(s: State, p: nat, stage: Stage) {
    p in s.polls && s.polls[p].stage == stage
  }

  /** The engine moves live sessions only, and enqueues only what it has just completed. */
  predicate Enabled(s: State, a: Action) {
    match a
    case Tick(to) => s.now <= to
    case Create(id, n) => id !in s.sessions && n.status == Pending && n.redeemedAt == None
    case Engage(id) => id in s.sessions && s.sessions[id].status == Pending
    case Complete(id, _, _) => id in s.sessions && Live(s.sessions[id].status)
    case Issue(code, id) => code !in s.issued && code != "" && id in s.sessions
    case LoseCode(code) => code in s.codes
    case CancelCall(_, _) => true
    case WebhookCall(_, _) => true
    case Start(p, _, _, _) => p !in s.polls
    case Report(p, _) => At(s, p, AtReport)
    case Redeem(p, _) => At(s, p, AtRedeem)
    case Mark(p, _) => At(s, p, AtMark)
    case Respond(p, _) => At(s, p, AtRespond)
    case Sweep(_) => true
    case Notify => s.notices != []
    case DeliverHandoff(id) => id in s.handoff
  }

  function SetStatus(s: State, id: Id, st: Status): State
    requires id in s.sessions
  {
    s.(sessions := s.sessions[id := s.sessions[id].(status := st, updatedAt := s.now)])
  }

  function PutPoll(s: State, p: nat, q: Poll): State {
    s.(polls := s.polls[p := q])
  }

  /** The id, if this access finds it past its expiry and flips it. */
  function LazilyFlipped(s: State, client: string, id: Id): set<Id> {
    if Owns(s.sessions, client, id) && Due(s.sessions[id], s.now) then {id} else {}
  }

  function ApplyStart(s: State, p: nat, client: string, id: Id, code: string): State {
    match GetForClient(s.sessions, client, id, s.now)
    case (_, Err(_)) => s
    case (t, Ok(sess)) =>
      PutPoll(s.(sessions := t, lazy := s.lazy + LazilyFlipped(s, client, id)), p,
              Poll(client, id, code, AtReport, sess, sess.redeemedAt.Some?))
  }

  function ApplyReport(s: State, p: nat, ok: bool): State
    requires p in s.polls
  {
    var q := s.polls[p];
    if !ok then PutPoll(s, p, q.(stage := Responded(Failure)))
    else
      var asks := q.sess.flow == SameDevice && !q.redeemed && q.code != "";
      PutPoll(s, p, q.(stage := if asks then AtRedeem else AtRespond))
  }

  /** GETDEL: whoever takes a code removes it; a code of another session is spent without releasing anything. */
  function ApplyRedeem(s: State, p: nat, ok: bool): State
    requires p in s.polls
  {
    var q := s.polls[p];
    if !ok then PutPoll(s, p, q.(stage := Responded(Failure)))
    else if q.code !in s.codes then PutPoll(s, p, q.(stage := AtRespond))
    else
      var owner := s.codes[q.code];
      PutPoll(s, p, q.(stage := if owner == q.id then AtMark else AtRespond)).(
        codes := s.codes - {q.code}, spent := s.spent[q.code := Spent(p, q.client, q.id, owner)])
  }

  function ApplyMark(s: State, p: nat, ok: bool): State
    requires p in s.polls
  {
    var q := s.polls[p];
    var (t, r) := MarkCodeRedeemed(s.sessions, q.client, q.id, s.now);
    if !ok || r.Err? then PutPoll(s, p, q.(stage := Responded(Failure)))
    else
      PutPoll(s, p, q.(stage := AtRespond, redeemed := true)).(
        sessions := t,
        redeemedBy := if s.sessions[q.id].redeemedAt.Some? then s.redeemedBy else s.redeemedBy[q.id := q.code])
  }

  function ApplyRespond(s: State, p: nat, ok: bool): State
    requires p in s.polls
  {
    var q := s.polls[p];
    var released := Releases(q.sess, q.redeemed);
    PutPoll(s, p, q.(stage := Responded(
      if released && !ok then Failure else Body(q.sess.status, CompletedAt(q.sess), released))))
  }

  ghost function ApplySweep(s: State, limit: int): State {
    var (t, batch) := ExpireDue(s.sessions, limit, s.now);
    s.(sessions := t, swept := s.swept + (set id | id in batch), notices := s.notices + batch)
  }

  /** Sends the next expired notification, unless the session has no webhook. */
  function ApplyNotify(s: State): State
    requires s.notices != []
  {
    var id := s.notices[0];
    s.(notices := s.notices[1..],
       notified := if id in s.sessions && s.sessions[id].webhookURL != "" then s.notified + [id] else s.notified)
  }

  ghost function Apply(s: State, a: Action): State
    requires Enabled(s, a)
  {
    match a
    case Tick(to) => s.(now := to)
    case Create(id, n) => s.(sessions := s.sessions[id := n])
    case Engage(id) => SetStatus(s, id, WalletEngaged)
    case Complete(id, verified, enqueue) =>
      SetStatus(s, id, if verified then Verified else Sessions.Failed).(
        handoff := if enqueue then s.handoff + {id} else s.handoff)
    case Issue(code, id) => s.(codes := s.codes[code := id], issued := s.issued + {code})
    case LoseCode(code) => s.(codes := s.codes - {code})
    case CancelCall(client, id) =>
      s.(sessions := Cancel(s.sessions, client, id, s.now).0, lazy := s.lazy + LazilyFlipped(s, client, id))
    case WebhookCall(id, state) => s.(sessions := SetWebhookState(s.sessions, id, state).0)
    case Start(p, client, id, code) => ApplyStart(s, p, client, id, code)
    case Report(p, ok) => ApplyReport(s, p, ok)
    case Redeem(p, ok) => ApplyRedeem(s, p, ok)
    case Mark(p, ok) => ApplyMark(s, p, ok)
    case Respond(p, ok) => ApplyRespond(s, p, ok)
    case Sweep(limit) => ApplySweep(s, limit)
    case Notify => ApplyNotify(s)
    case DeliverHandoff(id) => s.(delivered := s.delivered + {id})
  }

  // ----- What no operation on the table can undo -----

  /** The identity of a session stays; a terminal state stays, with its instant; a redemption stays. */
  predicate Follows(s: Session, s': Session) {
    && s'.clientID == s.clientID && s'.flow == s.flow && s'.expiresAt == s.expiresAt && s'.webhookURL == s.webhookURL
    && (Terminal(s.status) ==> s'.status == s.status && s'.updatedAt == s.updatedAt)
    && (s.redeemedAt.Some? ==> s'.redeemedAt == s.redeemedAt)
  }

  ghost predicate Evolves(t: Table, t': Table) {
    forall id :: id in t ==> id in t' && Follows(t[id], t'[id])
  }

  /** Terminal states absorb: every operation of the store and of the engine, in any order. */
  lemma TableEvolves(s: State, a: Action)
    requires Enabled(s, a)
    ensures Evolves(s.sessions, Apply(s, a).sessions)
  {
    match a
    case Sweep(limit) => SweepEvolves(s.sessions, limit, s.now);
    case Start(_, client, id, _) => GetEvolves(s.sessions, client, id, s.now);
    case CancelCall(client, id) => CancelEvolves(s.sessions, client, id, s.now);
    case Mark(p, ok) => MarkEvolves(s, p, ok);
    case _ => EngineEvolves(s, a);
  }

  lemma EngineEvolves(s: State, a: Action)
    requires Enabled(s, a) && !a.Sweep? && !a.Start? && !a.CancelCall? && !a.Mark?
    ensures Evolves(s.sessions, Apply(s, a).sessions)
  {
  }

  lemma MarkEvolves(s: State, p: nat, ok: bool)
    requires p in s.polls
    ensures Evolves(s.sessions, ApplyMark(s, p, ok).sessions)
  {
  }

  lemma GetEvolves(t: Table, client: string, id: Id, now: int)
    ensures Evolves(t, GetForClient(t, client, id, now).0)
  {
  }

  lemma CancelEvolves(t: Table, client: string, id: Id, now: int)
    ensures Evolves(t, Cancel(t, client, id, now).0)
    ensures forall x :: x in t && t[x].status != Cancelled && Cancel(t, client, id, now).0[x].status == Cancelled ==>
      x == id && t[x].clientID == client && Live(t[x].status) && (t[x].expiresAt.Some? ==> now < t[x].expiresAt.value)
  {
  }

  lemma SweepEvolves(t: Table, limit: int, now: int)
    ensures Evolves(t, ExpireDue(t, limit, now).0)
    ensures forall id :: id in Batch(t, limit, now) ==>
      id in t && Due(t[id], now) && ExpireDue(t, limit, now).0[id].status == Expired
  {
    SweepTakesSmallest(t, limit, now);
  }

  /** A session at or past its expiry is never cancelled, and only its owner's call cancels it. */
  lemma CancelOnlyBeforeExpiry(s: State, a: Action, id: Id)
    requires Enabled(s, a) && id in s.sessions && s.sessions[id].status != Cancelled
    requires id in Apply(s, a).sessions && Apply(s, a).sessions[id].status == Cancelled
    ensures a == CancelCall(s.sessions[id].clientID, id) && Live(s.sessions[id].status)
    ensures s.sessions[id].expiresAt.Some? ==> s.now < s.sessions[id].expiresAt.value
  {
  }

  // ----- The invariant -----

  /** A code is in the index or spent, never both, and was issued. */
  ghost predicate CodesOk(s: State) {
    && (forall code :: code in s.codes ==> code in s.issued && code !in s.spent)
    && (forall code :: code in s.spent ==>
      code in s.issued && Owns(s.sessions, s.spent[code].client, s.spent[code].polled))
  }

  /** The code `code` was spent on session id itself, by its owner. */
  ghost predicate SpentOn(s: State, code: string, id: Id) {
    code in s.spent && s.spent[code].polled == id && s.spent[code].owner == id
  }

  ghost predicate RedeemedOk(s: State) {
    forall id :: id in s.sessions && s.sessions[id].redeemedAt.Some? ==>
      id in s.redeemedBy && SpentOn(s, s.redeemedBy[id], id)
  }

  ghost predicate PollOk(s: State, p: nat, q: Poll) {
    && Owns(s.sessions, q.client, q.id) && Follows(q.sess, s.sessions[q.id])
    && (q.sess.redeemedAt.Some? ==> q.redeemed) && (q.redeemed ==> s.sessions[q.id].redeemedAt.Some?)
    && (match q.stage
        case AtRedeem => q.sess.flow == SameDevice && !q.redeemed
        case AtMark => q.sess.flow == SameDevice && !q.redeemed && SpentOn(s, q.code, q.id) && s.spent[q.code].poll == p
        case Responded(Body(state, completedAt, released)) =>
          && state == q.sess.status && completedAt == CompletedAt(q.sess)
          && (released <==> Releases(q.sess, q.redeemed))
        case _ => true)
  }

  ghost predicate PollsOk(s: State) {
    forall p :: p in s.polls ==> PollOk(s, p, s.polls[p])
  }

  predicate Was(s: State, id: Id, st: Status) {
    id in s.sessions && s.sessions[id].status == st
  }

  ghost predicate NoticesOk(s: State) {
    && (forall id :: id in s.handoff ==> Was(s, id, Verified) || Was(s, id, Sessions.Failed))
    && s.delivered <= s.handoff
    && (forall id :: id in s.swept ==> Was(s, id, Expired))
    && (forall id :: id in s.lazy ==> Was(s, id, Expired))
    && s.swept !! s.lazy
    && NoDuplicates(s.notified + s.notices)
    && (forall id :: id in s.notified + s.notices ==> id in s.swept)
  }

  ghost predicate Inv(s: State) {
    CodesOk(s) && RedeemedOk(s) && PollsOk(s) && NoticesOk(s)
  }

  // ----- Every step keeps it -----

  /** The table moves on without a new redemption, and nothing a poll relies on changes. */
  lemma TableMoves(s: State, s': State)
    requires Inv(s) && Evolves(s.sessions, s'.sessions)
    requires forall id :: id in s'.sessions && s'.sessions[id].redeemedAt.Some? ==>
      id in s.sessions && s.sessions[id].redeemedAt.Some?
    requires s'.codes == s.codes && s'.spent == s.spent && s'.issued == s.issued && s'.redeemedBy == s.redeemedBy
    requires s'.polls == s.polls
    ensures CodesOk(s') && RedeemedOk(s') && PollsOk(s')
  {
  }

  /** The table moves on, and the notification records stay. */
  lemma NoticesStay(s: State, s': State)
    requires NoticesOk(s) && Evolves(s.sessions, s'.sessions)
    requires s'.handoff == s.handoff && s'.delivered == s.delivered && s'.swept == s.swept && s'.lazy == s.lazy
    requires s'.notices == s.notices && s'.notified == s.notified
    ensures NoticesOk(s')
  {
  }

  /** A lazy expiry flips a live session, which no sweep has touched. */
  lemma LazyFlip(s: State, s': State, x: set<Id>)
    requires NoticesOk(s) && Evolves(s.sessions, s'.sessions)
    requires forall id :: id in x ==> id in s.sessions && Live(s.sessions[id].status) && Was(s', id, Expired)
    requires s'.handoff == s.handoff && s'.delivered == s.delivered && s'.swept == s.swept && s'.lazy == s.lazy + x
    requires s'.notices == s.notices && s'.notified == s.notified
    ensures NoticesOk(s')
  {
  }

  /** One poll takes a step that leaves the table and the codes alone. */
  lemma PollMoves(s: State, s': State, p: nat)
    requires Inv(s) && p in s.polls && p in s'.polls && s'.polls == s.polls[p := s'.polls[p]] &&
      PollOk(s', p, s'.polls[p])
    requires s' == s.(polls := s'.polls)
    ensures Inv(s')
  {
  }

  lemma StartKeeps(s: State, p: nat, client: string, id: Id, code: string)
    requires Inv(s) && p !in s.polls
    ensures Inv(Apply(s, Start(p, client, id, code)))
  {
    if Owns(s.sessions, client, id) {
      var s' := ApplyStart(s, p, client, id, code);
      var s1 := s'.(polls := s.polls);
      GetEvolves(s.sessions, client, id, s.now);
      TableMoves(s, s1);
      LazyFlip(s, s', LazilyFlipped(s, client, id));
      forall x | x in s'.polls
        ensures PollOk(s', x, s'.polls[x])
      {
        if x != p { assert PollOk(s1, x, s1.polls[x]); }
      }
    }
  }

  lemma RedeemKeeps(s: State, p: nat, ok: bool)
    requires Inv(s) && Enabled(s, Redeem(p, ok))
    ensures Inv(Apply(s, Redeem(p, ok)))
  {
    var s', q := ApplyRedeem(s, p, ok), s.polls[p];
    assert PollOk(s, p, q);
    if !ok || q.code !in s.codes {
      PollMoves(s, s', p);
    } else {
      assert forall code, id :: SpentOn(s, code, id) ==> SpentOn(s', code, id);
      forall x | x in s'.polls
        ensures PollOk(s', x, s'.polls[x])
      {
        if x != p { assert PollOk(s, x, s.polls[x]); }
      }
      NoticesStay(s, s');
    }
  }

  lemma MarkKeeps(s: State, p: nat, ok: bool)
    requires Inv(s) && Enabled(s, Mark(p, ok))
    ensures Inv(Apply(s, Mark(p, ok)))
  {
    var s', q := ApplyMark(s, p, ok), s.polls[p];
    assert PollOk(s, p, q);
    if !ok {
      PollMoves(s, s', p);
    } else {
      MarkRedeems(s, p);
      NoticesStay(s, s');
      MarkedPollsOk(s, p);
    }
  }

  lemma MarkedPollsOk(s: State, p: nat)
    requires CodesOk(s) && RedeemedOk(s) && PollsOk(s) && Enabled(s, Mark(p, true))
    ensures PollsOk(ApplyMark(s, p, true))
  {
    assert PollOk(s, p, s.polls[p]);
    MarkRedeems(s, p);
    var s' := ApplyMark(s, p, true);
    forall x | x in s'.polls
      ensures PollOk(s', x, s'.polls[x])
    {
      assert PollOk(s, x, s.polls[x]);
    }
  }

  /** Marking commits the redemption, with the poll's own code behind it unless there was one before. */
  lemma MarkRedeems(s: State, p: nat)
    requires CodesOk(s) && RedeemedOk(s) && Enabled(s, Mark(p, true)) && PollOk(s, p, s.polls[p])
    ensures var s' := ApplyMark(s, p, true); var q := s.polls[p];
      && Evolves(s.sessions, s'.sessions) && s'.sessions[q.id].redeemedAt.Some?
      && s'.polls == s.polls[p := q.(stage := AtRespond, redeemed := true)]
      && CodesOk(s') && RedeemedOk(s') && (forall code, id :: SpentOn(s', code, id) <==> SpentOn(s, code, id))
  {
    assert forall code, id :: SpentOn(ApplyMark(s, p, true), code, id) <==> SpentOn(s, code, id);
  }

  lemma SweepKeeps(s: State, limit: int)
    requires Inv(s)
    ensures Inv(ApplySweep(s, limit))
  {
    var s', batch := ApplySweep(s, limit), Batch(s.sessions, limit, s.now);
    SweepEvolves(s.sessions, limit, s.now);
    SweepTakesSmallest(s.sessions, limit, s.now);
    TableMoves(s, s');
    SweptOnce(s, s', batch);
  }

  /** A batch holds live sessions, so it repeats no earlier notice; and it holds each once. */
  lemma SweptOnce(s: State, s': State, batch: seq<Id>)
    requires NoticesOk(s) && Evolves(s.sessions, s'.sessions) && Ordering.Sorted(BY_ID, batch)
    requires forall id :: id in batch ==> id in s.sessions && Live(s.sessions[id].status) && Was(s', id, Expired)
    requires s'.handoff == s.handoff && s'.delivered == s.delivered && s'.lazy == s.lazy
    requires s'.swept == s.swept + (set id | id in batch)
    requires s'.notices == s.notices + batch && s'.notified == s.notified
    ensures NoticesOk(s')
  {
    var all, all' := s.notified + s.notices, s'.notified + s'.notices;
    assert all' == all + batch;
    forall i, j | 0 <= i < j < |all'|
      ensures all'[i] != all'[j]
    {
      if i >= |all| {
        if all'[i] == all'[j] { SortedDistinct(batch, i - |all|, j - |all|); }
      } else if j >= |all| {
        assert all[i] in all && batch[j - |all|] in batch;
      }
    }
  }

  lemma NotifyKeeps(s: State)
    requires Inv(s) && s.notices != []
    ensures Inv(ApplyNotify(s))
  {
    var s' := ApplyNotify(s);
    TableMoves(s, s');
    var all, all' := s.notified + s.notices, s'.notified + s'.notices;
    if s'.notified == s.notified {
      assert all' == all[..|s.notified|] + all[|s.notified| + 1..];
    } else {
      assert all' == all;
    }
  }

  lemma EngineKeeps(s: State, a: Action)
    requires Inv(s) && Enabled(s, a) && (a.Create? || a.Engage? || a.Complete? || a.WebhookCall?)
    ensures Inv(Apply(s, a))
  {
    var s' := Apply(s, a);
    TableEvolves(s, a);
    EngineRedeemsNone(s, a);
    TableMoves(s, s');
    NoticesStay(s, s'.(handoff := s.handoff));
  }

  lemma EngineRedeemsNone(s: State, a: Action)
    requires Enabled(s, a) && (a.Create? || a.Engage? || a.Complete? || a.WebhookCall?)
    ensures forall id :: id in Apply(s, a).sessions && Apply(s, a).sessions[id].redeemedAt.Some? ==>
      id in s.sessions && s.sessions[id].redeemedAt.Some?
    ensures Apply(s, a) == s.(sessions := Apply(s, a).sessions, handoff := Apply(s, a).handoff)
    ensures forall id :: id in Apply(s, a).handoff ==>
      id in s.handoff || Was(Apply(s, a), id, Verified) || Was(Apply(s, a), id, Sessions.Failed)
  {
  }

  lemma CancelKeeps(s: State, client: string, id: Id)
    requires Inv(s)
    ensures Inv(Apply(s, CancelCall(client, id)))
  {
    var s' := Apply(s, CancelCall(client, id));
    CancelEvolves(s.sessions, client, id, s.now);
    TableMoves(s, s');
    LazyFlip(s, s', LazilyFlipped(s, client, id));
  }

  lemma InvStep(s: State, a: Action)
    requires Inv(s) && Enabled(s, a)
    ensures Inv(Apply(s, a))
  {
    if a.Start? || a.Report? || a.Redeem? || a.Mark? || a.Respond? { PollKeeps(s, a); }
    else if a.CancelCall? { CancelKeeps(s, a.client, a.id); }
    else if a.Sweep? { SweepKeeps(s, a.limit); }
    else if a.Notify? { NotifyKeeps(s); }
    else { RestKeeps(s, a); }
  }

  lemma PollKeeps(s: State, a: Action)
    requires Inv(s) && Enabled(s, a) && (a.Start? || a.Report? || a.Redeem? || a.Mark? || a.Respond?)
    ensures Inv(Apply(s, a))
  {
    match a
    case Start(p, client, id, code) => StartKeeps(s, p, client, id, code);
    case Redeem(p, ok) => RedeemKeeps(s, p, ok);
    case Mark(p, ok) => MarkKeeps(s, p, ok);
    case Report(p, ok) => ReportKeeps(s, p, ok);
    case Respond(p, ok) => RespondKeeps(s, p, ok);
  }

  lemma ReportKeeps(s: State, p: nat, ok: bool)
    requires Inv(s) && At(s, p, AtReport)
    ensures Inv(Apply(s, Report(p, ok)))
  {
  }

  lemma RespondKeeps(s: State, p: nat, ok: bool)
    requires Inv(s) && At(s, p, AtRespond)
    ensures Inv(Apply(s, Respond(p, ok)))
  {
  }

  lemma RestKeeps(s: State, a: Action)
    requires Inv(s) && Enabled(s, a)
    requires a.Tick? || a.Issue? || a.LoseCode? || a.DeliverHandoff? ||
      a.Create? || a.Engage? || a.Complete? || a.WebhookCall?
    ensures Inv(Apply(s, a))
  {
    if a.Create? || a.Engage? || a.Complete? || a.WebhookCall? {
      EngineKeeps(s, a);
    } else {
      var s' := Apply(s, a);
      forall p | p in s'.polls
        ensures PollOk(s', p, s'.polls[p])
      {
        assert PollOk(s, p, s.polls[p]);
      }
      NoticesStay(s, s'.(delivered := s.delivered));
    }
  }
}
