/** The poll and cancel handlers and the expiry notifier, over the in-memory session store. */
module SessionRoutes {
  import opened Common
  import opened Sessions
  import opened SessionProtocol
  import opened SessionTheorems
  import Ordering

  /**
   * How the calls a poll makes turn out: the report, the code index, the redemption and the result; and when the store
   * sees the redemption, some time after it saw the first call.
   */
  datatype PollIo = PollIo(reportOk: bool, redeemOk: bool, markAt: int, markOk: bool, resultOk: bool)

  // ----- A poll run alone -----

  /** A step of poll p leaves its question alone. */
  predicate SameQuestion(s: State, s': State, p: nat)
    requires p in s.polls
  {
    && p in s'.polls
    && s'.polls[p].client == s.polls[p].client && s'.polls[p].id == s.polls[p].id
    && s'.polls[p].code == s.polls[p].code && s'.polls[p].sess == s.polls[p].sess
  }

  function Reported(s: State, p: nat, io: PollIo): (s': State)
    requires p in s.polls
    ensures SameQuestion(s, s', p) && s'.sessions == s.sessions && s'.codes == s.codes && s'.now == s.now
  {
    if At(s, p, AtReport) then ApplyReport(s, p, io.reportOk) else s
  }

  function Redeemed(s: State, p: nat, io: PollIo): (s': State)
    requires p in s.polls
    ensures SameQuestion(s, s', p) && s'.sessions == s.sessions && s'.now == s.now
  {
    if At(s, p, AtRedeem) then ApplyRedeem(s, p, io.redeemOk) else s
  }

  function Marked(s: State, p: nat, io: PollIo): (s': State)
    requires p in s.polls
    ensures SameQuestion(s, s', p) && s'.codes == s.codes
  {
    if At(s, p, AtMark) then ApplyMark(s.(now := io.markAt), p, io.markOk) else s
  }

  function Answered(s: State, p: nat, io: PollIo): (s': State)
    requires p in s.polls
    ensures SameQuestion(s, s', p) && s'.sessions == s.sessions && s'.codes == s.codes
  {
    if At(s, p, AtRespond) then ApplyRespond(s, p, io.resultOk) else s
  }

  function FromReportOn(s: State, p: nat, io: PollIo): (s': State)
    requires p in s.polls
    ensures p in s'.polls
  {
    FromRedeemOn(Reported(s, p, io), p, io)
  }

  function FromRedeemOn(s: State, p: nat, io: PollIo): (s': State)
    requires p in s.polls
    ensures p in s'.polls
  {
    FromMarkOn(Redeemed(s, p, io), p, io)
  }

  function FromMarkOn(s: State, p: nat, io: PollIo): (s': State)
    requires p in s.polls
    ensures p in s'.polls
  {
    Answered(Marked(s, p, io), p, io)
  }

  /**
   * The protocol steps of one poll, nothing in between; a session that is absent or another client's yields no poll.
   */
  function Polled(s: State, p: nat, client: string, id: Id, code: string, io: PollIo): State
    requires p !in s.polls
  {
    var s1 := ApplyStart(s, p, client, id, code);
    if p in s1.polls then FromReportOn(s1, p, io) else s1
  }

  function Outcome(s: State, p: nat): Option<Response> {
    if p in s.polls && s.polls[p].stage.Responded? then Some(s.polls[p].stage.response) else None
  }

  /** The handler's steps as protocol actions: each is taken if the poll stands there. */
  function PollActions(s: State, p: nat, client: string, id: Id, code: string, io: PollIo): seq<Action>
    requires p !in s.polls
  {
    var s1 := ApplyStart(s, p, client, id, code);
    [Start(p, client, id, code)] + if p in s1.polls then FromReport(s1, p, io) else []
  }

  function FromReport(s: State, p: nat, io: PollIo): seq<Action>
    requires p in s.polls
  {
    (if At(s, p, AtReport) then [Report(p, io.reportOk)] else []) + FromRedeem(Reported(s, p, io), p, io)
  }

  function FromRedeem(s: State, p: nat, io: PollIo): seq<Action>
    requires p in s.polls
  {
    (if At(s, p, AtRedeem) then [Redeem(p, io.redeemOk)] else []) + FromMark(Redeemed(s, p, io), p, io)
  }

  function FromMark(s: State, p: nat, io: PollIo): seq<Action>
    requires p in s.polls
  {
    if At(s, p, AtMark) then [Tick(io.markAt)] + ([Mark(p, io.markOk)] + FromRespond(Marked(s, p, io), p, io))
    else FromRespond(s, p, io)
  }

  function FromRespond(s: State, p: nat, io: PollIo): seq<Action>
    requires p in s.polls
  {
    (if At(s, p, AtRespond) then [Respond(p, io.resultOk)] else []) + []
  }

  lemma MarkingIsARun(s: State, p: nat, io: PollIo)
    requires p in s.polls && s.now <= io.markAt
    ensures RunsTo(s, FromMark(s, p, io), FromMarkOn(s, p, io))
  {
    var s' := Marked(s, p, io);
    RunsIf(s', At(s', p, AtRespond), Respond(p, io.resultOk), [], Answered(s', p, io));
    if At(s, p, AtMark) {
      var rest := FromRespond(s', p, io);
      RunsFirst(s.(now := io.markAt), Mark(p, io.markOk), rest, Answered(s', p, io));
      RunsFirst(s, Tick(io.markAt), [Mark(p, io.markOk)] + rest, Answered(s', p, io));
    }
  }

  lemma RedeemingIsARun(s: State, p: nat, io: PollIo)
    requires p in s.polls && s.now <= io.markAt
    ensures RunsTo(s, FromRedeem(s, p, io), FromRedeemOn(s, p, io))
  {
    var s' := Redeemed(s, p, io);
    MarkingIsARun(s', p, io);
    RunsIf(s, At(s, p, AtRedeem), Redeem(p, io.redeemOk), FromMark(s', p, io), FromMarkOn(s', p, io));
  }

  lemma ReportingIsARun(s: State, p: nat, io: PollIo)
    requires p in s.polls && s.now <= io.markAt
    ensures RunsTo(s, FromReport(s, p, io), FromReportOn(s, p, io))
  {
    var s' := Reported(s, p, io);
    RedeemingIsARun(s', p, io);
    RunsIf(s, At(s, p, AtReport), Report(p, io.reportOk), FromRedeem(s', p, io), FromRedeemOn(s', p, io));
  }

  /** A poll run alone is a run of the protocol, so everything proved of all runs holds of the handler. */
  lemma PollIsARun(s: State, p: nat, client: string, id: Id, code: string, io: PollIo)
    requires p !in s.polls && s.now <= io.markAt
    ensures RunsTo(s, PollActions(s, p, client, id, code, io), Polled(s, p, client, id, code, io))
  {
    var s1 := ApplyStart(s, p, client, id, code);
    if p in s1.polls { ReportingIsARun(s1, p, io); }
    RunsFirst(s, Start(p, client, id, code), if p in s1.polls then FromReport(s1, p, io) else [],
              Polled(s, p, client, id, code, io));
  }

  // ----- The same poll on values -----

  function Answer(sess: Session, redeemed: bool, ok: bool): Response {
    var released := Releases(sess, redeemed);
    if released && !ok then Failure else Body(sess.status, CompletedAt(sess), released)
  }

  /** Does this poll ask for the code it brings? */
  predicate Asks(sess: Session, code: string) {
    sess.flow == SameDevice && sess.redeemedAt.None? && code != ""
  }

  datatype After = After(sessions: Table, codes: map<string, Id>, response: Option<Response>)

  /** What a poll that got its report leaves and answers. */
  function Redemption(
    t: Table, codes: map<string, Id>, client: string, id: Id, code: string, sess: Session, io: PollIo): After
  {
    if !Asks(sess, code) then After(t, codes, Some(Answer(sess, sess.redeemedAt.Some?, io.resultOk)))
    else if !io.redeemOk then After(t, codes, Some(Failure))
    else if code !in codes then After(t, codes, Some(Answer(sess, false, io.resultOk)))
    else if codes[code] != id then After(t, codes - {code}, Some(Answer(sess, false, io.resultOk)))
    else if !io.markOk then After(t, codes - {code}, Some(Failure))
    else After(MarkCodeRedeemed(t, client, id, io.markAt).0, codes - {code}, Some(Answer(sess, true, io.resultOk)))
  }

  function PollOf(t: Table, codes: map<string, Id>, client: string, id: Id, code: string, now: int, io: PollIo): After {
    match GetForClient(t, client, id, now)
    case (_, Err(_)) => After(t, codes, None)
    case (t1, Ok(sess)) =>
      if io.reportOk then Redemption(t1, codes, client, id, code, sess, io) else After(t1, codes, Some(Failure))
  }

  function AfterOf(s: State, p: nat): After {
    After(s.sessions, s.codes, Outcome(s, p))
  }

  lemma RespondingValue(s: State, p: nat, io: PollIo)
    requires At(s, p, AtRespond)
    ensures AfterOf(FromMarkOn(s, p, io), p) ==
            After(s.sessions, s.codes, Some(Answer(s.polls[p].sess, s.polls[p].redeemed, io.resultOk)))
  {
  }

  lemma MarkingValue(s: State, p: nat, io: PollIo)
    requires At(s, p, AtMark) && Owns(s.sessions, s.polls[p].client, s.polls[p].id)
    ensures var q := s.polls[p];
      AfterOf(FromMarkOn(s, p, io), p) ==
      if !io.markOk then After(s.sessions, s.codes, Some(Failure))
      else After(MarkCodeRedeemed(s.sessions, q.client, q.id, io.markAt).0, s.codes,
                 Some(Answer(q.sess, true, io.resultOk)))
  {
  }

  lemma RedeemingValue(s: State, p: nat, io: PollIo)
    requires At(s, p, AtRedeem) && Owns(s.sessions, s.polls[p].client, s.polls[p].id)
    requires Asks(s.polls[p].sess, s.polls[p].code) && !s.polls[p].redeemed
    ensures var q := s.polls[p];
      AfterOf(FromRedeemOn(s, p, io), p) == Redemption(s.sessions, s.codes, q.client, q.id, q.code, q.sess, io)
  {
    var s' := Redeemed(s, p, io);
    if At(s', p, AtMark) { MarkingValue(s', p, io); }
    if At(s', p, AtRespond) { RespondingValue(s', p, io); }
  }

  lemma ReportingValue(s: State, p: nat, io: PollIo)
    requires At(s, p, AtReport) && Owns(s.sessions, s.polls[p].client, s.polls[p].id)
    requires s.polls[p].redeemed == s.polls[p].sess.redeemedAt.Some?
    ensures var q := s.polls[p];
      AfterOf(FromReportOn(s, p, io), p) ==
      if !io.reportOk then After(s.sessions, s.codes, Some(Failure))
      else Redemption(s.sessions, s.codes, q.client, q.id, q.code, q.sess, io)
  {
    var s' := Reported(s, p, io);
    if At(s', p, AtRedeem) { RedeemingValue(s', p, io); }
    if At(s', p, AtRespond) { RespondingValue(s', p, io); }
  }

  /** The poll of the protocol, read off the table, the code index and the response. */
  lemma PolledValue(s: State, p: nat, client: string, id: Id, code: string, io: PollIo)
    requires p !in s.polls
    ensures AfterOf(Polled(s, p, client, id, code, io), p) == PollOf(s.sessions, s.codes, client, id, code, s.now, io)
  {
    var s1 := ApplyStart(s, p, client, id, code);
    if p in s1.polls { ReportingValue(s1, p, io); }
  }

  /**
   * What a poll answers, whichever calls fail: the state after lazy expiry, the instant of completion, and the result
   * if and only if the session is verified and, for a same-device one, was redeemed before or is redeemed by this very
   * code. It fails exactly if a call it makes fails. A code asked for is gone afterwards, whichever session it indexed;
   * nothing else about the index changes, and nothing else about the sessions but the expiry and the redemption.
   */
  lemma PollAnswers(t: Table, codes: map<string, Id>, client: string, id: Id, code: string, now: int, io: PollIo)
    requires id in t && t[id].clientID == client
    ensures var after := PollOf(t, codes, client, id, code, now, io);
      var sess := LazilyExpired(t[id], now);
      var asks := io.reportOk && sess.flow == SameDevice && sess.redeemedAt.None? && code != "";
      var takes := asks && io.redeemOk && code in codes;
      var redeems := takes && codes[code] == id && io.markOk;
      var releases := sess.status == Verified && (sess.flow == SameDevice ==> sess.redeemedAt.Some? || redeems);
      var fails := !io.reportOk || (asks && !io.redeemOk) || (takes && codes[code] == id && !io.markOk)
                   || (releases && !io.resultOk);
      && after.response == Some(if fails then Failure else Body(
           sess.status,
           if sess.status in {Verified, Sessions.Failed, Expired, Cancelled} then Some(sess.updatedAt) else None,
           releases))
      && (forall c :: c in after.codes <==> c in codes && !(takes && c == code))
      && (forall c :: c in after.codes ==> after.codes[c] == codes[c])
      && after.sessions.Keys == t.Keys && (forall x :: x in t && x != id ==> after.sessions[x] == t[x])
      && after.sessions[id] == if redeems then sess.(redeemedAt := Some(io.markAt)) else sess
  {
  }

  /** A session that is absent or another client's is not found, and nothing changes. */
  lemma PollFinds(t: Table, codes: map<string, Id>, client: string, id: Id, code: string, now: int, io: PollIo)
    ensures var after := PollOf(t, codes, client, id, code, now, io);
      && (after.response == None <==> !(id in t && t[id].clientID == client))
      && (after.response == None ==> after == After(t, codes, None))
  {
  }

  class SessionRouter {
    const sessions: SessionStore
    var codes: map<string, Id>
    /** The sessions the engine was told to drop. */
    var drops: seq<Id>

    constructor (sessions: SessionStore)
      ensures this.sessions == sessions && codes == map[] && drops == []
    {
      this.sessions, codes, drops := sessions, map[], [];
    }

    /**
     * None is 404. In any protocol state with these sessions and codes, the handler does what the protocol's poll does.
     */
    method GetSession(client: string, id: Id, code: string, now: int, io: PollIo, ghost s: State, ghost p: nat)
      returns (r: Option<Response>)
      requires s.sessions == sessions.sessions && s.codes == codes && s.now == now && p !in s.polls
      modifies sessions, this`codes
      ensures After(sessions.sessions, codes, r) == AfterOf(Polled(s, p, client, id, code, io), p)
    {
      PolledValue(s, p, client, id, code, io);
      r := Poll(client, id, code, now, io);
    }

    method Poll(client: string, id: Id, code: string, now: int, io: PollIo) returns (r: Option<Response>)
      modifies sessions, this`codes
      ensures After(sessions.sessions, codes, r) ==
              PollOf(old(sessions.sessions), old(codes), client, id, code, now, io)
    {
      var got := sessions.Get(client, id, now);
      if got.Err? { return None; }
      var sess := got.value;
      var completedAt := None;
      if Terminal(sess.status) { completedAt := Some(sess.updatedAt); }
      if !io.reportOk { return Some(Failure); }
      var redeemed := sess.redeemedAt.Some?;
      if sess.flow == SameDevice && !redeemed && code != "" {
        if !io.redeemOk { return Some(Failure); }
        if code in codes {
          var owner := codes[code];
          codes := codes - {code};
          if owner == id {
            if !io.markOk { return Some(Failure); }
            var marked := sessions.Redeem(client, id, io.markAt);
            if marked.Err? { return Some(Failure); }
            redeemed := true;
          }
        }
      }
      var released := sess.status == Verified && (sess.flow != SameDevice || redeemed);
      if released && !io.resultOk { return Some(Failure); }
      return Some(Body(sess.status, completedAt, released));
    }

    /** The cancellation is authoritative; the engine is told afterwards, and only if it committed. */
    method CancelSession(client: string, id: Id, now: int) returns (r: Result<(), Error>)
      modifies sessions, this`drops
      ensures (sessions.sessions, r) == Cancel(old(sessions.sessions), client, id, now)
      ensures drops == old(drops) + if r.Ok? then [id] else []
    {
      r := sessions.CancelSession(client, id, now);
      if r.Err? { return; }
      drops := drops + [id];
    }
  }

  // ----- Expired notifications -----

  /** How reading an expired session's report turns out. */
  datatype ReportRead = ReadFailed | NoReport | MalformedReport | GoodReport(body: string)

  /** A POST of an expired payload: tried once, whatever comes of it. */
  datatype Post = Post(id: Id, url: string, report: Option<string>)

  function Attached(r: ReportRead): Option<string> {
    if r.GoodReport? then Some(r.body) else None
  }

  /** One POST per session with a webhook, in order. */
  function Notices(t: Table, ids: seq<Id>, read: Id -> ReportRead): seq<Post> {
    if ids == [] then []
    else
      var last := ids[|ids| - 1];
      Notices(t, ids[..|ids| - 1], read) +
      if last in t && t[last].webhookURL != "" then [Post(last, t[last].webhookURL, Attached(read(last)))] else []
  }

  class Sweeper {
    const db: SessionStore
    const limit: int
    var posts: seq<Post>

    constructor (db: SessionStore, limit: int)
      ensures this.db == db && this.limit == limit && posts == []
    {
      this.db, this.limit, posts := db, limit, [];
    }

    method RunOnce(now: int, sweepOk: bool, read: Id -> ReportRead)
      requires this as object != db
      modifies db, this`posts
      ensures if !sweepOk then db.sessions == old(db.sessions) && posts == old(posts)
              else
                var (t, batch) := ExpireDue(old(db.sessions), limit, now);
                db.sessions == t && posts == old(posts) + Notices(t, batch, read)
    {
      if !sweepOk { return; }
      var batch := db.Sweep(limit, now);
      for i := 0 to |batch|
        invariant db.sessions == ExpireDue(old(db.sessions), limit, now).0
        invariant posts == old(posts) + Notices(db.sessions, batch[..i], read)
      {
        assert batch[..i + 1][..i] == batch[..i];
        assert batch[i] in batch;
        SweepTakesSmallest(old(db.sessions), limit, now);
        NotifyOne(batch[i], read(batch[i]));
      }
      assert batch[..|batch|] == batch;
    }

    /** A report that cannot be read or mapped is left out; the notification still goes out. */
    method NotifyOne(id: Id, read: ReportRead)
      requires id in db.sessions
      modifies this`posts
      ensures posts == old(posts) + if db.sessions[id].webhookURL == "" then []
                                    else [Post(id, db.sessions[id].webhookURL, Attached(read))]
    {
      var url := db.sessions[id].webhookURL;
      if url == "" { return; }
      var report := None;
      if read.GoodReport? { report := Some(read.body); }
      posts := posts + [Post(id, url, report)];
    }
  }

  function IdsOf(posts: seq<Post>): (ids: seq<Id>)
    ensures |ids| == |posts|
  {
    seq(|posts|, i requires 0 <= i < |posts| => posts[i].id)
  }

  /** The post about a session: to its own webhook, with its report if that could be read and mapped. */
  predicate Posts(t: Table, p: Post, read: Id -> ReportRead) {
    && p.id in t && p.url == t[p.id].webhookURL != ""
    && p.report == (match read(p.id)
                    case GoodReport(body) => Some(body)
                    case _ => None)
  }

  /** The posts are about the sessions of the list that have a webhook, each of them, in the list's order. */
  lemma NoticesAre(t: Table, ids: seq<Id>, read: Id -> ReportRead)
    requires Ordering.Sorted(BY_ID, ids) && forall id :: id in ids ==> id in t
    ensures var posts := Notices(t, ids, read);
      && (forall p :: p in posts ==> Posts(t, p, read))
      && (forall id :: id in IdsOf(posts) <==> id in ids && t[id].webhookURL != "")
      && Ordering.Sorted(BY_ID, IdsOf(posts))
  {
    NoticesPost(t, ids, read);
    NoticesSorted(t, ids, read);
  }

  lemma {:induction false} NoticesPost(t: Table, ids: seq<Id>, read: Id -> ReportRead)
    requires forall id :: id in ids ==> id in t
    ensures forall p :: p in Notices(t, ids, read) ==> Posts(t, p, read)
    ensures forall id :: id in IdsOf(Notices(t, ids, read)) <==> id in ids && t[id].webhookURL != ""
  {
    if ids != [] {
      var front := ids[..|ids| - 1];
      assert ids == front + [ids[|ids| - 1]];
      NoticesPost(t, front, read);
      NoticesLast(t, ids, read);
    }
  }

  lemma NoticesLast(t: Table, ids: seq<Id>, read: Id -> ReportRead)
    requires ids != [] && ids[|ids| - 1] in t
    ensures var last := ids[|ids| - 1];
      IdsOf(Notices(t, ids, read)) ==
      IdsOf(Notices(t, ids[..|ids| - 1], read)) + if t[last].webhookURL != "" then [last] else []
  {
  }

  lemma {:induction false} NoticesSorted(t: Table, ids: seq<Id>, read: Id -> ReportRead)
    requires Ordering.Sorted(BY_ID, ids) && forall id :: id in ids ==> id in t
    ensures Ordering.Sorted(BY_ID, IdsOf(Notices(t, ids, read)))
  {
    if ids != [] {
      var front := ids[..|ids| - 1];
      assert ids == front + [ids[|ids| - 1]];
      NoticesSorted(t, front, read);
      NoticesPost(t, front, read);
      NoticesLast(t, ids, read);
      var before := IdsOf(Notices(t, front, read));
      forall i | 0 <= i < |before|
        ensures Ordering.Before(BY_ID, before[i], ids[|ids| - 1])
      {
        assert before[i] in before;
        var j :| 0 <= j < |front| && front[j] == before[i];
        assert ids[j] == front[j];
      }
    }
  }

  /** Tick by tick the protocol's Notify sends what the sweeper sends: its k-th notification is for the k-th post. */
  function Notifies(k: nat): seq<Action> {
    if k == 0 then [] else [Notify] + Notifies(k - 1)
  }

  lemma {:induction false} NotifyRun(s: State, read: Id -> ReportRead)
    ensures var n := |s.notices|;
      && CanRun(s, Notifies(n))
      && Run(s, Notifies(n)) == s.(notices := [], notified := s.notified + IdsOf(Notices(s.sessions, s.notices, read)))
    decreases |s.notices|
  {
    if s.notices != [] {
      var s1 := ApplyNotify(s);
      NotifyRun(s1, read);
      RunsFirst(s, Notify, Notifies(|s1.notices|), Run(s1, Notifies(|s1.notices|)));
      NotifyFirst(s, read);
    }
  }

  lemma NotifyFirst(s: State, read: Id -> ReportRead)
    requires s.notices != []
    ensures var s1 := ApplyNotify(s);
      s1.notified + IdsOf(Notices(s1.sessions, s1.notices, read)) ==
      s.notified + IdsOf(Notices(s.sessions, s.notices, read))
  {
    NoticesFirst(s.sessions, s.notices, read);
    var one := s.notices[..1];
    assert one[|one| - 1] == s.notices[0] && one[..|one| - 1] == [];
    assert Notices(s.sessions, one[..|one| - 1], read) == [];
  }

  /** Notices, read from the front. */
  lemma {:induction false} NoticesFirst(t: Table, ids: seq<Id>, read: Id -> ReportRead)
    requires ids != []
    ensures Notices(t, ids, read) == Notices(t, ids[..1], read) + Notices(t, ids[1..], read)
    decreases |ids|
  {
    if |ids| > 1 {
      var front := ids[..|ids| - 1];
      NoticesFirst(t, front, read);
      assert front[..1] == ids[..1] && front[1..] == ids[1..][..|ids| - 2];
    } else {
      assert ids[..1] == ids && ids[1..] == [];
    }
  }

  /**
   * A sweep cycle is a run of the protocol: with nothing outstanding, it notifies exactly the sessions it posts about.
   */
  lemma SweepIsARun(s: State, limit: int, read: Id -> ReportRead)
    requires s.notices == []
    ensures var (t, batch) := ExpireDue(s.sessions, limit, s.now);
      var acts := [Sweep(limit)] + Notifies(|batch|);
      && CanRun(s, acts)
      && Run(s, acts).sessions == t
      && Run(s, acts).notified == s.notified + IdsOf(Notices(t, batch, read))
  {
    var s1 := ApplySweep(s, limit);
    assert s1.notices == Batch(s.sessions, limit, s.now);
    NotifyRun(s1, read);
    RunsFirst(s, Sweep(limit), Notifies(|s1.notices|), Run(s1, Notifies(|s1.notices|)));
  }
}
