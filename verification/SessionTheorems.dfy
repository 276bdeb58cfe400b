/** What clients can rely on across all runs of sessions, polls, sweeps and deliveries. */
module SessionTheorems {
  import opened Common
  import opened Sessions
  import opened SessionProtocol

  ghost predicate Init(s: State) {
    && s.sessions == map[] && s.codes == map[] && s.polls == map[] && s.issued == {} && s.spent == map[]
    && s.redeemedBy == map[] && s.handoff == {} && s.delivered == {} && s.swept == {} && s.lazy == {}
    && s.notices == [] && s.notified == []
  }

  ghost predicate CanRun(s: State, acts: seq<Action>)
    decreases |acts|
  {
    acts == [] || (Enabled(s, acts[0]) && CanRun(Apply(s, acts[0]), acts[1..]))
  }

  ghost function Run(s: State, acts: seq<Action>): State
    requires CanRun(s, acts)
    decreases |acts|
  {
    if acts == [] then s else Run(Apply(s, acts[0]), acts[1..])
  }

  lemma {:induction false} RunInv(s: State, acts: seq<Action>)
    requires Inv(s) && CanRun(s, acts)
    ensures Inv(Run(s, acts))
    decreases |acts|
  {
    if acts != [] {
      InvStep(s, acts[0]);
      RunInv(Apply(s, acts[0]), acts[1..]);
    }
  }

  ghost predicate RunsTo(s: State, acts: seq<Action>, s': State) {
    CanRun(s, acts) && Run(s, acts) == s'
  }

  lemma RunsFirst(s: State, a: Action, rest: seq<Action>, s': State)
    requires Enabled(s, a) && RunsTo(Apply(s, a), rest, s')
    ensures RunsTo(s, [a] + rest, s')
  {
  }

  /** A step taken only under a condition. */
  lemma RunsIf(s: State, taken: bool, a: Action, rest: seq<Action>, s': State)
    requires taken ==> Enabled(s, a)
    requires RunsTo(if taken then Apply(s, a) else s, rest, s')
    ensures RunsTo(s, (if taken then [a] else []) + rest, s')
  {
    if taken { RunsFirst(s, a, rest, s'); } else { assert [] + rest == rest; }
  }

  lemma EvolvesTransitive(t: Table, u: Table, v: Table)
    requires Evolves(t, u) && Evolves(u, v)
    ensures Evolves(t, v)
  {
  }

  /** Terminal states, their instants, identities and redemptions survive every run. */
  lemma {:induction false} RunEvolves(s: State, acts: seq<Action>)
    requires CanRun(s, acts)
    ensures Evolves(s.sessions, Run(s, acts).sessions)
    decreases |acts|
  {
    if acts != [] {
      TableEvolves(s, acts[0]);
      RunEvolves(Apply(s, acts[0]), acts[1..]);
      EvolvesTransitive(s.sessions, Apply(s, acts[0]).sessions, Run(s, acts).sessions);
    }
  }

  // ----- Release -----

  /**
   * In every concurrent run: a response that carries the result of a same-device session implies that a poll by the
   * same client, this one or an earlier one, took a code indexing that very session.
   */
  lemma ReleaseImpliesRedemption(s0: State, acts: seq<Action>, p: nat)
    requires Init(s0) && CanRun(s0, acts) && p in Run(s0, acts).polls
    requires var q := Run(s0, acts).polls[p]; q.stage.Responded? && q.stage.response.Body? && q.stage.response.released
    ensures var s := Run(s0, acts); var q := s.polls[p];
      && q.stage.response.state == Verified
      && (q.sess.flow == SameDevice ==>
            exists code :: code in s.spent && s.spent[code].client == q.client
                        && s.spent[code].polled == q.id && s.spent[code].owner == q.id)
  {
    RunInv(s0, acts);
    var s := Run(s0, acts);
    var q := s.polls[p];
    assert PollOk(s, p, q);
    if q.sess.flow == SameDevice { assert SpentOn(s, s.redeemedBy[q.id], q.id); }
  }

  /** A code is taken by at most one poll: it leaves the index when taken, and the record of its taking is final. */
  lemma {:induction false} CodeSpentForGood(s: State, acts: seq<Action>, code: string)
    requires Inv(s) && CanRun(s, acts) && code in s.spent
    ensures var s' := Run(s, acts); code in s'.spent && s'.spent[code] == s.spent[code] && code !in s'.codes
    decreases |acts|
  {
    if acts != [] {
      SpentStep(s, acts[0], code);
      InvStep(s, acts[0]);
      CodeSpentForGood(Apply(s, acts[0]), acts[1..], code);
    }
  }

  lemma SpentStep(s: State, a: Action, code: string)
    requires CodesOk(s) && Enabled(s, a) && code in s.spent
    ensures code in Apply(s, a).spent && Apply(s, a).spent[code] == s.spent[code]
  {
  }

  /** The record of spent codes is what it says: the step that takes a code notes the session it indexed there. */
  lemma SpentIsCurrent(s: State, a: Action)
    requires Enabled(s, a)
    ensures Apply(s, a).spent ==
      if a.Redeem? && a.ok && s.polls[a.p].code in s.codes
      then var q := s.polls[a.p]; s.spent[q.code := Spent(a.p, q.client, q.id, s.codes[q.code])]
      else s.spent
  {
    if a.Report? || a.Mark? || a.Respond? { PollRecords(s, a.p, a.ok); }
  }

  /** And so are those of hand-offs, deliveries and notifications: each grows by the step of its name. */
  lemma RecordsAreCurrent(s: State, a: Action)
    requires Enabled(s, a)
    ensures Apply(s, a).handoff == if a.Complete? && a.enqueue then s.handoff + {a.id} else s.handoff
    ensures Apply(s, a).delivered == if a.DeliverHandoff? then s.delivered + {a.id} else s.delivered
    ensures Apply(s, a).notified != s.notified ==> a.Notify? && Apply(s, a).notified == s.notified + [s.notices[0]]
  {
    if a.Report? || a.Redeem? || a.Mark? || a.Respond? { PollRecords(s, a.p, a.ok); }
  }

  predicate SameRecords(s: State, s': State) {
    s'.handoff == s.handoff && s'.delivered == s.delivered && s'.notified == s.notified
  }

  lemma PollRecords(s: State, p: nat, ok: bool)
    requires p in s.polls
    ensures SameRecords(s, ApplyReport(s, p, ok)) && ApplyReport(s, p, ok).spent == s.spent
    ensures SameRecords(s, ApplyMark(s, p, ok)) && ApplyMark(s, p, ok).spent == s.spent
    ensures SameRecords(s, ApplyRespond(s, p, ok)) && ApplyRespond(s, p, ok).spent == s.spent
    ensures SameRecords(s, ApplyRedeem(s, p, ok))
  {
  }

  /** Only a same-device poll that is not redeemed yet ever touches the code index. */
  lemma OnlySameDeviceTakesCodes(s: State, a: Action, p: nat)
    requires PollsOk(s) && Enabled(s, a) && p in s.polls
    requires (a.Report? || a.Redeem? || a.Mark? || a.Respond?) && a.p == p
    ensures Apply(s, a).codes != s.codes ==>
      s.polls[p].sess.flow == SameDevice && s.polls[p].sess.redeemedAt == None && s.polls[p].code in s.codes
  {
    if a.Redeem? { RedeemTakes(s, p, a.ok); } else { OthersKeepCodes(s, a); }
  }

  lemma OthersKeepCodes(s: State, a: Action)
    requires Enabled(s, a) && (a.Report? || a.Mark? || a.Respond?)
    ensures Apply(s, a).codes == s.codes
  {
    CodesKept(s, a.p, a.ok);
  }

  lemma RedeemTakes(s: State, p: nat, ok: bool)
    requires At(s, p, AtRedeem) && PollsOk(s)
    ensures ApplyRedeem(s, p, ok).codes != s.codes ==>
      s.polls[p].sess.flow == SameDevice && s.polls[p].sess.redeemedAt == None && s.polls[p].code in s.codes
  {
    assert PollOk(s, p, s.polls[p]);
  }

  lemma CodesKept(s: State, p: nat, ok: bool)
    requires p in s.polls
    ensures ApplyReport(s, p, ok).codes == s.codes && ApplyMark(s, p, ok).codes == s.codes
    ensures ApplyRespond(s, p, ok).codes == s.codes
  {
  }

  // ----- Completion -----

  lemma {:induction false} PollFixed(s: State, acts: seq<Action>, p: nat)
    requires CanRun(s, acts) && p in s.polls
    ensures p in Run(s, acts).polls
    ensures Run(s, acts).polls[p].sess == s.polls[p].sess && Run(s, acts).polls[p].id == s.polls[p].id
    decreases |acts|
  {
    if acts != [] {
      PollStep(s, acts[0], p);
      PollFixed(Apply(s, acts[0]), acts[1..], p);
    }
  }

  predicate SamePoll(s: State, s': State, p: nat)
    requires p in s.polls
  {
    p in s'.polls && s'.polls[p].sess == s.polls[p].sess && s'.polls[p].id == s.polls[p].id
  }

  lemma ReadingKeepsPoll(s: State, x: nat, client: string, id: Id, code: string, ok: bool, p: nat)
    requires p in s.polls
    ensures x !in s.polls ==> SamePoll(s, ApplyStart(s, x, client, id, code), p)
    ensures x in s.polls ==> SamePoll(s, ApplyReport(s, x, ok), p) && SamePoll(s, ApplyRespond(s, x, ok), p)
  {
  }

  lemma RedeemingKeepsPoll(s: State, x: nat, ok: bool, p: nat)
    requires p in s.polls && x in s.polls
    ensures SamePoll(s, ApplyRedeem(s, x, ok), p) && SamePoll(s, ApplyMark(s, x, ok), p)
  {
  }

  lemma PollStep(s: State, a: Action, p: nat)
    requires Enabled(s, a) && p in s.polls
    ensures SamePoll(s, Apply(s, a), p)
  {
    match a
    case Start(x, client, id, code) => ReadingKeepsPoll(s, x, client, id, code, true, p);
    case Report(x, ok) => ReadingKeepsPoll(s, x, "", "", "", ok, p);
    case Respond(x, ok) => ReadingKeepsPoll(s, x, "", "", "", ok, p);
    case Redeem(x, ok) => RedeemingKeepsPoll(s, x, ok, p);
    case Mark(x, ok) => RedeemingKeepsPoll(s, x, ok, p);
    case _ =>
  }

  /** A poll that starts later sees a later session. */
  lemma {:induction false} LaterPollSeesLater(s: State, acts: seq<Action>, p: nat)
    requires CanRun(s, acts) && p !in s.polls && p in Run(s, acts).polls
    requires Run(s, acts).polls[p].id in s.sessions
    ensures Follows(s.sessions[Run(s, acts).polls[p].id], Run(s, acts).polls[p].sess)
    decreases |acts|
  {
    var a, s1 := acts[0], Apply(s, acts[0]);
    if p in s1.polls {
      PollFixed(s1, acts[1..], p);
      StartedSees(s, a, p);
    } else {
      TableEvolves(s, a);
      LaterPollSeesLater(s1, acts[1..], p);
    }
  }

  lemma StartedSees(s: State, a: Action, p: nat)
    requires Enabled(s, a) && p !in s.polls && p in Apply(s, a).polls
    ensures var q := Apply(s, a).polls[p];
      q.id in s.sessions && q.sess == LazilyExpired(s.sessions[q.id], s.now)
  {
  }

  /** Once a response reports a completion instant, every poll started afterwards reports the same state and instant. */
  lemma CompletionIsFinal(s: State, acts: seq<Action>, p: nat, p': nat)
    requires Inv(s) && CanRun(s, acts) && p in s.polls && p' !in s.polls && p' in Run(s, acts).polls
    requires s.polls[p].stage.Responded? && s.polls[p].stage.response.Body? &&
      s.polls[p].stage.response.completedAt.Some?
    requires Run(s, acts).polls[p'].id == s.polls[p].id
    requires Run(s, acts).polls[p'].stage.Responded? && Run(s, acts).polls[p'].stage.response.Body?
    ensures var b, b' := s.polls[p].stage.response, Run(s, acts).polls[p'].stage.response;
      b'.state == b.state && b'.completedAt == b.completedAt
  {
    assert PollOk(s, p, s.polls[p]);
    LaterPollSeesLater(s, acts, p');
    RunInv(s, acts);
    assert PollOk(Run(s, acts), p', Run(s, acts).polls[p']);
  }

  /** Whatever ended a session, every poll started afterwards reports that state with the instant it was reached at. */
  lemma FinalStateIsReported(s: State, acts: seq<Action>, id: Id, p: nat)
    requires Inv(s) && CanRun(s, acts) && p !in s.polls && p in Run(s, acts).polls && Run(s, acts).polls[p].id == id
    requires id in s.sessions && s.sessions[id].status in {Verified, Sessions.Failed, Expired, Cancelled}
    requires Run(s, acts).polls[p].stage.Responded? && Run(s, acts).polls[p].stage.response.Body?
    ensures var b := Run(s, acts).polls[p].stage.response;
      b.state == s.sessions[id].status && b.completedAt == Some(s.sessions[id].updatedAt)
  {
    LaterPollSeesLater(s, acts, p);
    RunInv(s, acts);
    assert PollOk(Run(s, acts), p, Run(s, acts).polls[p]);
  }

  /** So once a cancellation has succeeded, all polls started afterwards report it, with its instant, in every run. */
  lemma CancelIsReported(s: State, client: string, id: Id, acts: seq<Action>, p: nat)
    requires Inv(s) && Cancel(s.sessions, client, id, s.now).1.Ok?
    requires var s1 := Apply(s, CancelCall(client, id));
      CanRun(s1, acts) && p !in s.polls && p in Run(s1, acts).polls && Run(s1, acts).polls[p].id == id
    requires var q := Run(Apply(s, CancelCall(client, id)), acts).polls[p];
      q.stage.Responded? && q.stage.response.Body?
    ensures var b := Run(Apply(s, CancelCall(client, id)), acts).polls[p].stage.response;
      b.state == Cancelled && b.completedAt == Some(s.now)
  {
    CancelIff(s.sessions, client, id, s.now);
    InvStep(s, CancelCall(client, id));
    FinalStateIsReported(Apply(s, CancelCall(client, id)), acts, id, p);
  }

  /**
   * Redemption is sticky: once committed, every poll of the session that starts later, however it is interleaved with
   * everything else, never reaches for a code, and its response releases the result exactly if it found the session
   * verified.
   */
  lemma RedemptionIsSticky(s: State, acts: seq<Action>, p: nat)
    requires Inv(s) && CanRun(s, acts) && p !in s.polls && p in Run(s, acts).polls
    requires var id := Run(s, acts).polls[p].id; id in s.sessions && s.sessions[id].redeemedAt.Some?
    ensures var q := Run(s, acts).polls[p];
      && q.redeemed && q.stage != AtRedeem && q.stage != AtMark
      && (q.stage.Responded? && q.stage.response.Body? ==>
            q.stage.response.state == q.sess.status && (q.stage.response.released <==> q.sess.status == Verified))
  {
    LaterPollSeesLater(s, acts, p);
    RunInv(s, acts);
    assert PollOk(Run(s, acts), p, Run(s, acts).polls[p]);
  }

  // ----- Notifications -----

  /**
   * No session gets both an expired notification and a webhook delivery, none gets two expired notifications, and only
   * a session that a sweep flipped gets one.
   */
  lemma NotifiedOnceAndExclusively(s0: State, acts: seq<Action>)
    requires Init(s0) && CanRun(s0, acts)
    ensures var s := Run(s0, acts);
      && NoDuplicates(s.notified)
      && (forall id :: id in s.notified ==> id in s.swept && id !in s.lazy && id !in s.delivered && id !in s.handoff)
  {
    RunInv(s0, acts);
    NotifiedOk(Run(s0, acts));
  }

  lemma NotifiedOk(s: State)
    requires NoticesOk(s)
    ensures NoDuplicates(s.notified)
    ensures forall id :: id in s.notified ==> id in s.swept && id !in s.lazy && id !in s.delivered && id !in s.handoff
  {
    var all := s.notified + s.notices;
    forall i, j | 0 <= i < j < |s.notified|
      ensures s.notified[i] != s.notified[j]
    {
      assert all[i] != all[j];
    }
    forall id | id in s.notified
      ensures id in s.swept && id !in s.lazy && id !in s.delivered && id !in s.handoff
    {
      assert id in all;
    }
  }

  /**
   * A session that a poll or a cancellation finds expired is never notified, in any continuation: the sweeper is the
   * only notifier, and it no longer sees the session as due.
   */
  lemma LazyExpiryIsSilent(s: State, acts: seq<Action>, id: Id)
    requires Inv(s) && CanRun(s, acts) && id in s.lazy
    ensures id !in Run(s, acts).notified
  {
    RunInv(s, acts);
    LazyGrows(s, acts, id);
    NotifiedOk(Run(s, acts));
  }

  lemma {:induction false} LazyGrows(s: State, acts: seq<Action>, id: Id)
    requires CanRun(s, acts) && id in s.lazy
    ensures id in Run(s, acts).lazy
    decreases |acts|
  {
    if acts != [] {
      LazyStep(s, acts[0], id);
      LazyGrows(Apply(s, acts[0]), acts[1..], id);
    }
  }

  lemma LazyStep(s: State, a: Action, id: Id)
    requires Enabled(s, a) && id in s.lazy
    ensures id in Apply(s, a).lazy
  {
  }

  /** Across any run sweeps are disjoint: a batch repeats no session expired before, by a sweep or otherwise. */
  lemma BatchesDisjoint(s0: State, acts: seq<Action>, limit: int)
    requires Init(s0) && CanRun(s0, acts)
    ensures var s := Run(s0, acts);
      forall id :: id in Batch(s.sessions, limit, s.now) ==> id !in s.swept && id !in s.lazy
  {
    RunInv(s0, acts);
    SweepEvolves(Run(s0, acts).sessions, limit, Run(s0, acts).now);
  }
}
