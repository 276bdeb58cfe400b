/** The guarantees of webhook delivery over all runs: any number of replicas, ids, faults and any interleaving. */
module DeliveryTheorems {
  import opened Common
  import opened Backoff
  import opened Handoff
  import opened Delivery
  import opened DeliveryHistory

  // ----- Nothing is lost, nothing is held twice -----

  lemma {:induction false} SomeoneOwns(reps: seq<Replica>, id: Id) returns (r: nat)
    requires OwnAll(reps, id) > 0
    ensures r < |reps| && Own(reps[r], id) > 0
  {
    if Own(reps[0], id) > 0 { r := 0; } else { r := SomeoneOwns(reps[1..], id); r := r + 1; }
  }

  /**
   * Every produced id is in exactly one place, once: the queue, the retry set, one replica's hands or the finished
   * ids. An id nobody produced is nowhere.
   */
  lemma ExactlyOnePlace(c: Config, s: State, id: Id)
    requires ValidConfig(c) && Reachable(c, s)
    ensures Places(s, id) == if id in s.hist then 1 else 0
    ensures id in s.hist <==> exists p :: Sits(s, id, p)
    ensures forall p, q :: Sits(s, id, p) && Sits(s, id, q) ==> p == q
  {
    ReachableInv(c, s);
    forall p, q | Sits(s, id, p) && Sits(s, id, q)
      ensures p == q
    {
      OnePlace(s, id, p, q);
    }
    assert Places(s, id) == Bit(id in s.hist);
    if id in s.hist {
      if id in s.store.queue { assert Sits(s, id, InQueue); }
      else if id in s.store.retry { assert Sits(s, id, InRetry(s.store.retry[id])); }
      else if id in s.done { assert Sits(s, id, InDone(s.done[id])); }
      else {
        var r := SomeoneOwns(s.reps, id);
        SitsOwns(s, id, r);
        if id in s.reps[r].held { assert Sits(s, id, InHand(r)); }
        else { assert Sits(s, id, InJob(r, s.reps[r].job.stage)); }
      }
    }
  }

  // ----- The backoff arithmetic -----

  /** When Schedule first ran for the id, or now if this call is the first. */
  function FirstSchedule(s: State, id: Id): int
    requires id in s.hist
  {
    if s.hist[id].first.Some? then s.hist[id].first.value else s.now
  }

  /**
   * Whatever maxAttempts is and whichever counter reads failed: when less than 2^62 ns lie between the first Schedule
   * call for an id and its expiry, every Schedule call computes the exact delay and accepts exactly when it should.
   */
  lemma ScheduleNeverOverflows(c: Config, s: State, r: nat)
    requires ValidConfig(c) && Reachable(c, s) && Enabled(c, s, Work(r, Schedule))
    requires Expiry(c, s.reps[r].job.id) - FirstSchedule(s, s.reps[r].job.id) < TWO62
    ensures var Job(id, stage) := s.reps[r].job;
      && c.payload(id).Envelope?
      && c.base * Pow2(stage.attempt) < TWO63
      && Delay(c.base, stage.attempt) == c.base * Pow2(stage.attempt)
      && (Next(c, s, id, stage, Schedule) != Stay(AtMarkFailed) <==>
            stage.attempt < c.maxAttempts && s.now + c.base * Pow2(stage.attempt) <= c.payload(id).expiresAt)
  {
    ReachableInv(c, s);
    var Job(id, stage) := s.reps[r].job;
    assert Sits(s, id, InJob(r, stage));
    NoOverflow(c, id, s.now, TrackOf(s, id), stage.attempt);
    DelayExactIff(c.base, stage.attempt);
    AcceptedIff(c.base, c.maxAttempts, stage.attempt, s.now, Expiry(c, id));
  }

  // ----- The attempt counter and the number of Deliver calls -----

  /**
   * Without failed counter reads, the counter an owner is about to read equals the number of failed Deliver calls
   * before the last one; or it has expired, and then Schedule refuses at this and every later instant.
   */
  lemma CounterReadIsExact(c: Config, s: State, r: nat, later: int)
    requires ValidConfig(c) && Reachable(c, s) && Enabled(c, s, Work(r, ReadCounter(true)))
    requires Exact(c, s.reps[r].job.id, s.hist[s.reps[r].job.id]) && s.now <= later
    ensures var id := s.reps[r].job.id; var n := GetCounter(s.store, id, s.now);
      n == s.hist[id].fails - 1 ||
      (n == 0 && !Decide(c.base, c.maxAttempts, n, later, Expiry(c, id)).RetryAt?)
  {
    ReachableInv(c, s);
    var id := s.reps[r].job.id;
    assert Sits(s, id, InJob(r, AtReadCounter));
    if Decide(c.base, c.maxAttempts, 0, later, Expiry(c, id)).RetryAt? {
      AcceptedInsideExpiry(c.base, c.maxAttempts, 0, later, Expiry(c, id));
    }
  }

  /**
   * Hence an id whose counter reads all work gets at most maxAttempts + 1 Deliver calls, an expired counter never
   * buying another one; each failed read buys at most maxAttempts more.
   */
  lemma DeliverCallsBounded(c: Config, s: State, id: Id)
    requires ValidConfig(c) && Reachable(c, s) && id in s.hist && Window(c, id, s.hist[id], TWO63)
    ensures s.hist[id].delivers <= (s.hist[id].readFaults + 1) * c.maxAttempts + 1
  {
    AllowedIsProduct(s.hist[id].readFaults + 1, c.maxAttempts);
    ExactlyOnePlace(c, s, id);
    ReachableInv(c, s);
    var p :| Sits(s, id, p);
    assert Good(c, s.now, id, p, TrackOf(s, id));
  }

  /** Retries live inside the result's time to live: no stored score lies beyond the expiry. */
  lemma ScoresInsideExpiry(c: Config, s: State, id: Id)
    requires ValidConfig(c) && Reachable(c, s) && id in s.store.retry
    ensures id in s.hist && Deliverable(c, id) && s.store.retry[id] <= Unix(c.payload(id).expiresAt)
  {
    ReachableInv(c, s);
    assert Sits(s, id, InRetry(s.store.retry[id]));
  }

  // ----- Outcomes -----

  /** Every Deliver call is for an id that has a webhook, is not finished, and never got a 2xx. */
  lemma NoPostAfterAck(c: Config, s: State, r: nat, outcome: Outcome)
    requires ValidConfig(c) && Reachable(c, s) && Enabled(c, s, Work(r, Deliver(outcome)))
    ensures var id := s.reps[r].job.id;
      !s.hist[id].acked && id !in s.done && Deliverable(c, id) &&
      (!s.hist[id].dbFault ==> WebhookOf(s.store, id) == Handoff.Delivering)
  {
    ReachableInv(c, s);
    assert Sits(s, s.reps[r].job.id, InJob(r, AtDeliver));
    Exclusive(s, r, s.reps[r].job.id);
  }

  /** webhook_state moves only along pending -> delivering -> delivered, or from either of the first two to failed. */
  predicate Follows(w: WebhookState, w': WebhookState) {
    || w' == w
    || (w == Handoff.Pending && (w' == Handoff.Delivering || w' == Handoff.Failed))
    || (w == Handoff.Delivering && (w' == Handoff.Delivered || w' == Handoff.Failed))
  }

  lemma WebhookStateFollows(c: Config, s: State, a: Action, id: Id)
    requires ValidConfig(c) && Reachable(c, s) && Enabled(c, s, a)
    requires id in s.hist ==> !s.hist[id].dbFault
    ensures Follows(WebhookOf(s.store, id), WebhookOf(Apply(c, s, a).store, id))
  {
    if a.Work? {
      ReachableInv(c, s);
      WorkFollows(c, s, a.r, a.cmd, id);
    }
  }

  lemma WorkFollows(c: Config, s: State, r: nat, cmd: Command, id: Id)
    requires Tracked(c, s) && Busy(s, r) && Fits(s.reps[r].job.stage, cmd)
    requires id in s.hist ==> !s.hist[id].dbFault
    ensures Follows(WebhookOf(s.store, id), WebhookOf(ApplyWork(c, s, r, cmd).store, id))
  {
    var Job(x, stage) := s.reps[r].job;
    EffectFrame(s, x, stage, cmd);
    SettleKeepsData(Effect(s, x, stage, cmd), r, x, Next(c, s, x, stage, cmd));
    if x == id {
      assert Sits(s, x, InJob(r, stage));
      EffectFollows(c, s, x, stage, cmd);
    }
  }

  lemma EffectFollows(c: Config, s: State, id: Id, stage: Stage, cmd: Command)
    requires id in s.hist && Fits(stage, cmd) && GoodStage(c, s.now, id, stage, TrackOf(s, id)) && !s.hist[id].dbFault
    ensures Follows(WebhookOf(s.store, id), WebhookOf(Effect(s, id, stage, cmd).store, id))
  {
  }

  lemma SettleKeepsData(e: State, r: nat, x: Id, move: Move)
    requires r < |e.reps|
    ensures Settle(e, r, x, move).store.webhook == e.store.webhook && Settle(e, r, x, move).hist == e.hist
  {
  }

  /** A finished id is finished for good: same fate, no further Deliver call, same webhook_state, through every run. */
  lemma {:induction false} FinishedForGood(c: Config, s: State, acts: seq<Action>, id: Id)
    requires Inv(c, s) && id in s.done && CanRun(c, s, acts)
    ensures var s' := Run(c, s, acts);
      && id in s'.done && s'.done[id] == s.done[id]
      && id in s.hist && id in s'.hist && TrackOf(s', id) == TrackOf(s, id)
    decreases |acts|
  {
    assert Sits(s, id, InDone(s.done[id]));
    if acts != [] {
      FinishedStep(c, s, acts[0], id);
      InvStep(c, s, acts[0]);
      FinishedForGood(c, Apply(c, s, acts[0]), acts[1..], id);
    }
  }

  /** A step changes the data of no id but the one its replica is processing. */
  lemma OthersKeepData(c: Config, s: State, a: Action, id: Id)
    requires Enabled(c, s, a) && id in s.hist && (a.Work? ==> s.reps[a.r].job.id != id)
    ensures id in Apply(c, s, a).hist && TrackOf(Apply(c, s, a), id) == TrackOf(s, id)
  {
    if a.Work? { WorkMoves(c, s, a.r, a.cmd); }
  }

  lemma DoneGrows(c: Config, s: State, a: Action, id: Id)
    requires Enabled(c, s, a) && id in s.done && (a.Work? ==> s.reps[a.r].job.id != id)
    ensures id in Apply(c, s, a).done && Apply(c, s, a).done[id] == s.done[id]
  {
  }

  lemma FinishedStep(c: Config, s: State, a: Action, id: Id)
    requires Owned(s) && id in s.done && id in s.hist && Enabled(c, s, a)
    ensures var s' := Apply(c, s, a);
      id in s'.done && s'.done[id] == s.done[id] && id in s'.hist && TrackOf(s', id) == TrackOf(s, id)
  {
    if a.Work? { Exclusive(s, a.r, s.reps[a.r].job.id); }
    OthersKeepData(c, s, a, id);
    DoneGrows(c, s, a, id);
  }

  /**
   * A 2xx is final: through every continuation the id gets no further Deliver call, and once its replica has noted the
   * outcome the id is finished as delivered.
   */
  lemma {:induction false} AckedStaysAcked(c: Config, s: State, acts: seq<Action>, id: Id)
    requires Inv(c, s) && id in s.hist && s.hist[id].acked && CanRun(c, s, acts)
    ensures var s' := Run(c, s, acts);
      && id in s'.hist && s'.hist[id].acked && s'.hist[id].delivers == s.hist[id].delivers
      && (id in s'.done ==> s'.done[id] == WasDelivered)
    decreases |acts|
  {
    if acts == [] {
      if id in s.done { assert Sits(s, id, InDone(s.done[id])); }
    } else {
      AckedStep(c, s, acts[0], id);
      InvStep(c, s, acts[0]);
      AckedStaysAcked(c, Apply(c, s, acts[0]), acts[1..], id);
    }
  }

  lemma AckedStep(c: Config, s: State, a: Action, id: Id)
    requires Inv(c, s) && id in s.hist && s.hist[id].acked && Enabled(c, s, a)
    ensures var s' := Apply(c, s, a);
      id in s'.hist && s'.hist[id].acked && s'.hist[id].delivers == s.hist[id].delivers
  {
    if a.Work? && s.reps[a.r].job.id == id {
      assert Sits(s, id, InJob(a.r, s.reps[a.r].job.stage));
      assert a.cmd.MarkDelivered?;
      WorkMoves(c, s, a.r, a.cmd);
    } else {
      OthersKeepData(c, s, a, id);
    }
  }

  /**
   * An id is only dropped in silence if it has an envelope without a webhook, which then never got a Deliver call; and
   * only one with a webhook is finished as delivered. Every other id finishes as failed, which is counted and alerts.
   */
  lemma NeverDroppedInSilence(c: Config, s: State, id: Id)
    requires ValidConfig(c) && Reachable(c, s) && id in s.done
    ensures s.done[id] == WasSkipped ==> c.payload(id).Envelope? && c.payload(id).webhookURL == ""
    ensures s.done[id] == WasDelivered ==> c.payload(id).Envelope? && c.payload(id).webhookURL != ""
  {
    ReachableInv(c, s);
    assert Sits(s, id, InDone(s.done[id]));
  }

  /** A command, or none, adds to an id's history what it is named for. */
  ghost predicate Records(h: History, h': History, cmd: Option<Command>, now: int) {
    && h'.delivers == h.delivers + Bit(cmd.Some? && cmd.value.Deliver?)
    && h'.fails == h.fails + Bit(cmd == Some(Deliver(Transient)))
    && (h'.acked <==> h.acked || cmd == Some(Deliver(Accepted)))
    && h'.readFaults == h.readFaults + Bit(cmd == Some(ReadCounter(false)))
    && h'.first == (if h.first.None? && cmd == Some(Schedule) then Some(now) else h.first)
    && (h'.dbFault <==> h.dbFault || cmd == Some(MarkDelivering(false)) || cmd == Some(MarkDelivered(false))
                        || cmd == Some(MarkFailed(false)))
  }

  /** The history is what it says: only the commands of the replica processing the id add to it. */
  lemma HistoryIsCurrent(c: Config, s: State, a: Action, id: Id)
    requires Enabled(c, s, a) && id in s.hist
    ensures id in Apply(c, s, a).hist
    ensures Records(s.hist[id], Apply(c, s, a).hist[id],
                    if a.Work? && s.reps[a.r].job.id == id then Some(a.cmd) else None, s.now)
  {
    if a.Work? && s.reps[a.r].job.id == id {
      WorkMoves(c, s, a.r, a.cmd);
      EffectRecords(s, id, s.reps[a.r].job.stage, a.cmd);
    } else {
      OthersKeepData(c, s, a, id);
    }
  }

  lemma EffectRecords(s: State, id: Id, stage: Stage, cmd: Command)
    requires id in s.hist && Fits(stage, cmd)
    ensures id in Effect(s, id, stage, cmd).hist
    ensures Records(s.hist[id], Effect(s, id, stage, cmd).hist[id], Some(cmd), s.now)
  {
  }

  /**
   * The outcome metric counts each finished id once, under its own label; a finished id whose webhook_state writes
   * succeeded shows its fate there, and an id is finished as delivered exactly if it got a 2xx.
   */
  lemma OutcomesCounted(c: Config, s: State)
    requires ValidConfig(c) && Reachable(c, s)
    ensures s.store.delivered == |DoneWith(s, WasDelivered)| && s.store.failed == |DoneWith(s, WasFailed)|
    ensures forall id :: id in s.done ==>
      && id in s.hist && (s.hist[id].acked <==> s.done[id] == WasDelivered)
      && (!s.hist[id].dbFault ==> WebhookOf(s.store, id) == FinalState(s.done[id]))
  {
    ReachableInv(c, s);
    forall id | id in s.done
      ensures id in s.hist && (s.hist[id].acked <==> s.done[id] == WasDelivered)
      ensures !s.hist[id].dbFault ==> WebhookOf(s.store, id) == FinalState(s.done[id])
    {
      assert Sits(s, id, InDone(s.done[id]));
    }
  }
}
