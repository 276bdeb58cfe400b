/** Which expired sessions are notified: exactly those that a sweep expired, and not a poll or a cancellation. */
module SessionExpiry {
  import opened Common
  import opened Sessions
  import opened SessionProtocol
  import opened SessionTheorems

  /**
   * Every expired session was flipped by a sweep or lazily; every swept one with a webhook is notified or about to be.
   */
  ghost predicate ExpiryOk(s: State) {
    && (forall id :: Was(s, id, Expired) ==> id in s.swept || id in s.lazy)
    && (forall id :: id in s.swept && id in s.sessions && s.sessions[id].webhookURL != "" ==>
          id in s.notified || id in s.notices)
  }

  /** Nothing but `flipped` has become expired, and the records have only grown. */
  ghost predicate Accounted(s: State, s': State, flipped: set<Id>) {
    && (forall id :: Was(s', id, Expired) ==> Was(s, id, Expired) || id in flipped)
    && s.swept <= s'.swept && s.lazy <= s'.lazy && flipped <= s'.swept + s'.lazy
  }

  lemma StaysAccounted(s: State, s': State, flipped: set<Id>)
    requires ExpiryOk(s) && NoticesOk(s) && Evolves(s.sessions, s'.sessions) && Accounted(s, s', flipped)
    requires s'.swept == s.swept && s'.notified == s.notified && s'.notices == s.notices
    ensures ExpiryOk(s')
  {
  }

  lemma StartFlips(s: State, p: nat, client: string, id: Id, code: string)
    ensures Accounted(s, ApplyStart(s, p, client, id, code), LazilyFlipped(s, client, id))
  {
  }

  lemma CancelFlips(s: State, client: string, id: Id)
    ensures Accounted(s, Apply(s, CancelCall(client, id)), LazilyFlipped(s, client, id))
  {
  }

  /** A step that expires nothing and leaves the records alone. */
  ghost predicate FlipsNone(s: State, s': State) {
    Accounted(s, s', {}) && s'.swept == s.swept && s'.lazy == s.lazy && s'.notified == s.notified &&
      s'.notices == s.notices
  }

  lemma PollFlipsNone(s: State, p: nat, ok: bool)
    requires p in s.polls
    ensures FlipsNone(s, ApplyReport(s, p, ok)) && FlipsNone(s, ApplyRedeem(s, p, ok))
    ensures FlipsNone(s, ApplyMark(s, p, ok)) && FlipsNone(s, ApplyRespond(s, p, ok))
  {
  }

  lemma EngineFlipsNone(s: State, a: Action)
    requires Enabled(s, a) && (a.Create? || a.Engage? || a.Complete? || a.WebhookCall?)
    ensures FlipsNone(s, Apply(s, a))
  {
  }

  /** No other action but a sweep expires anything. */
  lemma OthersFlipNone(s: State, a: Action)
    requires Enabled(s, a) && !a.Start? && !a.CancelCall? && !a.Sweep? && !a.Notify?
    ensures FlipsNone(s, Apply(s, a))
  {
    match a
    case Report(p, ok) => PollFlipsNone(s, p, ok);
    case Redeem(p, ok) => PollFlipsNone(s, p, ok);
    case Mark(p, ok) => PollFlipsNone(s, p, ok);
    case Respond(p, ok) => PollFlipsNone(s, p, ok);
    case _ => if a.Create? || a.Engage? || a.Complete? || a.WebhookCall? { EngineFlipsNone(s, a); }
  }

  lemma SweepAccounts(s: State, limit: int)
    requires ExpiryOk(s) && NoticesOk(s)
    ensures ExpiryOk(Apply(s, Sweep(limit)))
  {
    var s', batch := ApplySweep(s, limit), Batch(s.sessions, limit, s.now);
    SweepTakesSmallest(s.sessions, limit, s.now);
    SweepEvolves(s.sessions, limit, s.now);
    forall id | Was(s', id, Expired)
      ensures id in s'.swept || id in s'.lazy
    {
      if id !in batch { assert Was(s, id, Expired); }
    }
  }

  lemma NotifyAccounts(s: State)
    requires ExpiryOk(s) && NoticesOk(s) && s.notices != []
    ensures ExpiryOk(Apply(s, Notify))
  {
    var s' := ApplyNotify(s);
    assert s.notices == [s.notices[0]] + s.notices[1..];
    forall id | id in s'.swept && id in s'.sessions && s'.sessions[id].webhookURL != ""
      ensures id in s'.notified || id in s'.notices
    {
      assert id in s.notified || id in s.notices;
    }
  }

  lemma StartAccounts(s: State, p: nat, client: string, id: Id, code: string)
    requires ExpiryOk(s) && NoticesOk(s) && p !in s.polls
    ensures ExpiryOk(Apply(s, Start(p, client, id, code)))
  {
    StartFlips(s, p, client, id, code);
    GetEvolves(s.sessions, client, id, s.now);
    StaysAccounted(s, ApplyStart(s, p, client, id, code), LazilyFlipped(s, client, id));
  }

  lemma CancelAccounts(s: State, client: string, id: Id)
    requires ExpiryOk(s) && NoticesOk(s)
    ensures ExpiryOk(Apply(s, CancelCall(client, id)))
  {
    CancelFlips(s, client, id);
    CancelEvolves(s.sessions, client, id, s.now);
    StaysAccounted(s, Apply(s, CancelCall(client, id)), LazilyFlipped(s, client, id));
  }

  lemma OthersAccount(s: State, a: Action)
    requires ExpiryOk(s) && NoticesOk(s) && Enabled(s, a) && !a.Start? && !a.CancelCall? && !a.Sweep? && !a.Notify?
    ensures ExpiryOk(Apply(s, a))
  {
    OthersFlipNone(s, a);
    TableEvolves(s, a);
    StaysAccounted(s, Apply(s, a), {});
  }

  lemma ExpiryStep(s: State, a: Action)
    requires ExpiryOk(s) && NoticesOk(s) && Enabled(s, a)
    ensures ExpiryOk(Apply(s, a))
  {
    match a
    case Sweep(limit) => SweepAccounts(s, limit);
    case Notify => NotifyAccounts(s);
    case Start(p, client, id, code) => StartAccounts(s, p, client, id, code);
    case CancelCall(client, id) => CancelAccounts(s, client, id);
    case _ => OthersAccount(s, a);
  }

  lemma {:induction false} RunExpiry(s: State, acts: seq<Action>)
    requires Inv(s) && ExpiryOk(s) && CanRun(s, acts)
    ensures Inv(Run(s, acts)) && ExpiryOk(Run(s, acts))
    decreases |acts|
  {
    if acts != [] {
      ExpiryStep(s, acts[0]);
      InvStep(s, acts[0]);
      RunExpiry(Apply(s, acts[0]), acts[1..]);
    }
  }

  /** `swept` and `lazy` are what they say: only a sweep adds to the one, only a poll or a cancellation to the other. */
  lemma FlippedBy(s: State, a: Action)
    requires Enabled(s, a)
    ensures Apply(s, a).swept != s.swept ==> a.Sweep?
    ensures Apply(s, a).lazy != s.lazy ==> a.Start? || a.CancelCall?
  {
    if !a.Start? && !a.CancelCall? && !a.Sweep? && !a.Notify? { OthersFlipNone(s, a); }
  }

  /**
   * In every run an expired session was flipped by a sweep or by a poll or cancellation, never both; and one with a
   * webhook has been notified, or its notification is outstanding, if and only if it was the sweep.
   */
  lemma NotifiedIffSwept(s0: State, acts: seq<Action>, id: Id)
    requires Init(s0) && CanRun(s0, acts) && Was(Run(s0, acts), id, Expired)
    ensures var s := Run(s0, acts);
      && (id in s.swept <==> id !in s.lazy)
      && (s.sessions[id].webhookURL != "" ==> (id in s.notified || id in s.notices <==> id in s.swept))
  {
    RunExpiry(s0, acts);
    var s := Run(s0, acts);
    if id in s.notified || id in s.notices { assert id in s.notified + s.notices; }
  }

  const DUE_SOON :=
    Session("client", Pending, CrossDevice, Some(1), 0, 0, None, "https://client.example/hook", "pending")

  /** A run that expires a session with a webhook, of which its client is not notified then or in any continuation. */
  lemma SilentExpiry() returns (s0: State, acts: seq<Action>)
    ensures Init(s0) && CanRun(s0, acts)
    ensures var s := Run(s0, acts);
      && Was(s, "session", Expired) && s.sessions["session"].webhookURL != "" && "session" in s.lazy
      && forall more :: CanRun(s, more) ==> "session" !in Run(s, more).notified
  {
    s0 := State(map[], map[], 0, map[], {}, map[], map[], {}, {}, {}, {}, [], []);
    var s1 := Apply(s0, Create("session", DUE_SOON));
    var s2 := Apply(s1, Tick(1));
    var start := Start(0, "client", "session", "");
    var s3 := Apply(s2, start);
    RunsFirst(s2, start, [], s3);
    RunsFirst(s1, Tick(1), [start] + [], s3);
    acts := [Create("session", DUE_SOON)] + ([Tick(1)] + ([start] + []));
    RunsFirst(s0, Create("session", DUE_SOON), [Tick(1)] + ([start] + []), s3);
    RunInv(s0, acts);
    forall more | CanRun(s3, more)
      ensures "session" !in Run(s3, more).notified
    {
      LazyExpiryIsSilent(s3, more, "session");
    }
  }
}
