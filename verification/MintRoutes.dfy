/** The createSession and createTemplate handlers over the in-memory registry. */
module MintRoutes {
  import opened Common
  import opened Registry
  import opened Minting
  import opened MintProtocol
  import opened Refusals
  import RegistryStore
  import Tenancy

  /** From a stage to the end when the k-th last read succeeds if and only if ok(k). */
  ghost function RestIo(lib: Lib, clientID: Id, req: Request, saw: Saw, stage: Stage, ok: nat -> bool): (end: Stage)
    requires !stage.Sent?
    ensures end.Ready? || end.Stopped?
    decreases Ahead(stage)
  {
    if !AtRead(stage) then stage
    else if !ok(Ahead(stage)) then Stopped(StoreFailed)
    else RestIo(lib, clientID, req, saw, ReadOn(lib, Reading(saw, stage), clientID, req, stage), ok)
  }

  /** A failing store is fail-closed: a request that gets through although some reads may fail is the one authorized. */
  lemma {:induction false} FailsClosed(lib: Lib, clientID: Id, req: Request, saw: Saw, stage: Stage, ok: nat -> bool)
    requires !stage.Sent?
    ensures var end := RestIo(lib, clientID, req, saw, stage, ok);
      end != Stopped(StoreFailed) ==> end == Rest(lib, clientID, req, saw, stage)
    decreases Ahead(stage)
  {
    if AtRead(stage) && ok(Ahead(stage)) {
      FailsClosed(lib, clientID, req, saw, ReadOn(lib, Reading(saw, stage), clientID, req, stage), ok);
    }
  }

  /**
   * So whatever the reads find and whichever fail, the engine is called with an authorized create only, and an
   * authorized one is not refused but for a failing store.
   */
  lemma SequentialMint(lib: Lib, clientID: Id, req: Request, saw: Saw, ok: nat -> bool, c: Create)
    ensures var end := RestIo(lib, clientID, req, saw, Opened(req), ok);
      && (end == Ready(c) ==> Authorized(lib, clientID, req, saw, c))
      && (Authorized(lib, clientID, req, saw, c) ==> end == Ready(c) || end == Stopped(StoreFailed))
  {
    FailsClosed(lib, clientID, req, saw, Opened(req), ok);
    GrantedIffAuthorized(lib, clientID, req, saw, c);
  }

  /** The k-th last read is made, if none before it fails. */
  ghost predicate Makes(lib: Lib, clientID: Id, req: Request, saw: Saw, k: nat) {
    && 1 <= k <= 4 && WellFormed(req)
    && (k < 4 ==> clientID in saw.client.clients)
    && (k == 3 ==> req.templateID != "" || req.intendedUseID == "")
    && (k < 3 ==> exists query, target ::
          && Sourced(saw.source, clientID, req, query, target)
          && (k == 1 ==> Passes(lib, clientID, req, saw, query, target)))
  }

  /** Nothing is wrong with the intended use or with the targets. */
  predicate Passes(lib: Lib, clientID: Id, req: Request, saw: Saw, query: string, target: string)
    requires WellFormed(req) && clientID in saw.client.clients
  {
    var row, flow := saw.client.clients[clientID], FlowOf(req.flow).value;
    && Covers(lib, saw.use, clientID, target, query)
    && OriginsUsable(lib, row, flow) && RedirectFine(lib, row, req, flow) && WebhookFine(lib, row, req)
  }

  lemma FailsFromUse(
    lib: Lib, clientID: Id, req: Request, saw: Saw, query: string, target: string, ok: nat -> bool)
    requires WellFormed(req) && clientID in saw.client.clients
    ensures var stage := AtUse(FlowOf(req.flow).value, saw.client.clients[clientID], query, target);
      RestIo(lib, clientID, req, saw, stage, ok) == Stopped(StoreFailed) <==>
      !ok(2) || (Passes(lib, clientID, req, saw, query, target) && !ok(1))
  {
    var flow, row := FlowOf(req.flow).value, saw.client.clients[clientID];
    UsedIff(lib, saw.use, clientID, req, flow, row, query, target, StoreFailed);
    var next := WithUse(lib, saw.use, clientID, req, flow, row, query, target);
    if next.AtCertificate? {
      assert RestIo(lib, clientID, req, saw, next, ok) == Stopped(StoreFailed) <==> !ok(1);
    }
  }

  lemma FailsFromSource(lib: Lib, clientID: Id, req: Request, saw: Saw, ok: nat -> bool)
    requires WellFormed(req) && clientID in saw.client.clients && (req.templateID != "" || req.intendedUseID == "")
    ensures var stage := AtSource(FlowOf(req.flow).value, saw.client.clients[clientID]);
      RestIo(lib, clientID, req, saw, stage, ok) == Stopped(StoreFailed) <==>
      !ok(3) || exists query, target ::
        && Sourced(saw.source, clientID, req, query, target)
        && (!ok(2) || (Passes(lib, clientID, req, saw, query, target) && !ok(1)))
  {
    var flow, row := FlowOf(req.flow).value, saw.client.clients[clientID];
    var next := WithSource(saw.source, clientID, req, flow, row);
    forall query, target
      ensures next == AtUse(flow, row, query, target) <==> Sourced(saw.source, clientID, req, query, target)
    {
      SourcedIff(saw.source, clientID, req, flow, row, query, target);
    }
    SourceStops(saw.source, clientID, req, flow, row);
    if next.AtUse? { FailsFromUse(lib, clientID, req, saw, next.query, next.target, ok); }
  }

  /** A store failure is reported exactly if a read fails that the request gets to make. */
  lemma StoreFailedIff(lib: Lib, clientID: Id, req: Request, saw: Saw, ok: nat -> bool)
    ensures RestIo(lib, clientID, req, saw, Opened(req), ok) == Stopped(StoreFailed) <==>
            exists k :: Makes(lib, clientID, req, saw, k) && !ok(k)
  {
    if WellFormed(req) && clientID in saw.client.clients {
      if req.templateID != "" || req.intendedUseID == "" {
        FailsFromSource(lib, clientID, req, saw, ok);
      } else {
        assert Sourced(saw.source, clientID, req, req.dcqlQuery, req.intendedUseID);
        FailsFromUse(lib, clientID, req, saw, req.dcqlQuery, req.intendedUseID, ok);
      }
    }
  }

  ghost predicate NoneFails(lib: Lib, clientID: Id, req: Request, saw: Saw, ok: nat -> bool) {
    forall k :: Makes(lib, clientID, req, saw, k) ==> ok(k)
  }

  /** Where a request ends: if a read it makes fails, with that; else with an authorized create or a refusal's cause. */
  ghost predicate Settles(lib: Lib, clientID: Id, req: Request, saw: Saw, ok: nat -> bool, end: Stage) {
    match end
    case Ready(c) => NoneFails(lib, clientID, req, saw, ok) && Authorized(lib, clientID, req, saw, c)
    case Stopped(StoreFailed) => !NoneFails(lib, clientID, req, saw, ok)
    case Stopped(why) => NoneFails(lib, clientID, req, saw, ok) && Cause(lib, clientID, req, saw, why)
    case _ => false
  }

  /** That says where every request ends, and leaves no choice. */
  lemma MintSettles(lib: Lib, clientID: Id, req: Request, saw: Saw, ok: nat -> bool, end: Stage)
    ensures RestIo(lib, clientID, req, saw, Opened(req), ok) == end <==> Settles(lib, clientID, req, saw, ok, end)
  {
    StoreFailedIff(lib, clientID, req, saw, ok);
    FailsClosed(lib, clientID, req, saw, Opened(req), ok);
    if end.Ready? { GrantedIffAuthorized(lib, clientID, req, saw, end.create); }
    if end.Stopped? { RefusedIff(lib, clientID, req, saw, end.why); }
  }

  /** What createTemplate does to the registry it writes to, having checked against the one it read. */
  function TemplateWrite(
    lib: Lib, seen: Reg, reg: Reg, clientID: Id, t: TemplateNew, readOk: bool, writeOk: bool): (Reg, WriteStage)
  {
    var checked := if Proposed(t) != AtCheck then Proposed(t)
                   else if !readOk then Refused(StoreFailed) else Checked(lib, seen, clientID, t);
    if checked != AtWrite then (reg, checked)
    else if !writeOk then (reg, Refused(StoreFailed))
    else var (reg', r) := Registry.CreateTemplate(reg, clientID, t); (reg', WriteOutcome(r))
  }

  /** The cause of each refusal of a template, in the order in which it is looked for. */
  predicate TemplateCause(
    lib: Lib, seen: Reg, reg: Reg, clientID: Id, t: TemplateNew, readOk: bool, writeOk: bool, why: Refusal)
  {
    if t.name == "" || t.intendedUseID == "" || t.dcqlQuery == "" then why == BadPresentation
    else if !readOk then why == StoreFailed
    else if !Covers(lib, seen, clientID, t.intendedUseID, t.dcqlQuery) then
      UseCause(lib, seen, clientID, t.dcqlQuery, t.intendedUseID, why)
    else if !writeOk then why == StoreFailed
    else if !InPlace(reg, clientID, t.intendedUseID) then why == Absent
    else why == Revoked && reg.uses[clientID][t.intendedUseID].revokedAt != ""
  }

  /** Every refusal of a template is given exactly for its cause, and leaves the registry as it was. */
  lemma TemplateRefusedIff(
    lib: Lib, seen: Reg, reg: Reg, clientID: Id, t: TemplateNew, readOk: bool, writeOk: bool, why: Refusal)
    ensures var (reg', r) := TemplateWrite(lib, seen, reg, clientID, t, readOk, writeOk);
      && (r == Refused(why) <==> TemplateCause(lib, seen, reg, clientID, t, readOk, writeOk, why))
      && (r.Refused? ==> reg' == reg)
  {
    CheckedIff(lib, seen, clientID, t, why);
    WriteRefusedIff(reg, clientID, t, why);
  }

  lemma CheckedIff(lib: Lib, reg: Reg, clientID: Id, t: TemplateNew, why: Refusal)
    ensures var checked := Checked(lib, reg, clientID, t);
      if Covers(lib, reg, clientID, t.intendedUseID, t.dcqlQuery) then checked == AtWrite
      else
        && checked.Refused?
        && (checked == Refused(why) <==> UseCause(lib, reg, clientID, t.dcqlQuery, t.intendedUseID, why))
  {
  }

  lemma WriteRefusedIff(reg: Reg, clientID: Id, t: TemplateNew, why: Refusal)
    ensures var (reg', r) := Registry.CreateTemplate(reg, clientID, t); var written := WriteOutcome(r);
      && (written.Written? || written.Refused?) && (written.Refused? ==> reg' == reg)
      && (written == Refused(why) <==>
            if !InPlace(reg, clientID, t.intendedUseID) then why == Absent
            else why == Revoked && reg.uses[clientID][t.intendedUseID].revokedAt != "")
  {
  }

  /**
   * A template is written exactly if it has a name, a use and a query, the use covers the query at the check, is in
   * place and unrevoked at the write, and no store call fails; it then reads back under a fresh id.
   */
  lemma WrittenIff(lib: Lib, seen: Reg, reg: Reg, clientID: Id, t: TemplateNew, readOk: bool, writeOk: bool)
    requires Consistent(reg)
    ensures var (reg', r) := TemplateWrite(lib, seen, reg, clientID, t, readOk, writeOk);
      && (r.Written? || r.Refused?)
      && (r.Written? <==>
            && t.name != "" && t.intendedUseID != "" && t.dcqlQuery != "" && readOk && writeOk
            && Covers(lib, seen, clientID, t.intendedUseID, t.dcqlQuery)
            && InPlace(reg, clientID, t.intendedUseID) && reg.uses[clientID][t.intendedUseID].revokedAt == "")
      && (r.Written? ==> r.id !in reg.templates && GetTemplate(reg', clientID, r.id) == Ok(t))
  {
    CreatedTemplateReads(reg, clientID, t, "");
  }

  /** The registry as each read of a mint finds it: one object if nothing changed it in between. */
  datatype Moments = Moments(
    client: RegistryStore.Store, source: RegistryStore.Store,
    use: RegistryStore.Store, certificate: RegistryStore.Store)

  ghost function SawAt(m: Moments): Saw
    reads m.client, m.source, m.use, m.certificate
  {
    Saw(m.client.View(), m.source.View(), m.use.View(), m.certificate.View())
  }

  class Router {
    const lib: Lib
    /** The calls made to the engine. */
    var creates: seq<Create>

    constructor (lib: Lib)
      ensures this.lib == lib && creates == []
    {
      this.lib, creates := lib, [];
    }

    method IsAllowed(url: string, allowed: seq<string>) returns (r: bool)
      ensures r <==> OriginAllowed(lib, url, allowed)
      ensures r <==>
        && lib.origin(url).Some?
        && exists i :: 0 <= i < |allowed| && lib.fold(allowed[i]) == lib.fold(lib.origin(url).value)
    {
      var origin := lib.origin(url);
      if origin == None { return false; }
      for i := 0 to |allowed|
        invariant forall j :: 0 <= j < i ==> lib.fold(allowed[j]) != lib.fold(origin.value)
      {
        if lib.fold(allowed[i]) == lib.fold(origin.value) { return true; }
      }
      return false;
    }

    method UnusableOrigin(origins: seq<string>) returns (r: Option<string>)
      ensures r == FirstUnusable(lib, origins)
    {
      for i := 0 to |origins|
        invariant FirstUnusable(lib, origins[i..]) == FirstUnusable(lib, origins)
      {
        if !lib.webOrigin(origins[i]) { return Some(origins[i]); }
        assert origins[i..][1..] == origins[i + 1..];
      }
      return None;
    }

    /** The checks of the flow's origins and of the request's redirect and webhook targets. */
    method CheckTargets(row: Client, req: Request, flow: Flow) returns (fault: Option<Refusal>)
      ensures fault == TargetFault(lib, row, req, flow)
    {
      if flow == DcApi {
        if row.allowedOrigins == [] { return Some(NoOrigins); }
        var unusable := UnusableOrigin(row.allowedOrigins);
        if unusable != None { return Some(Refusal.UnusableOrigin(unusable.value)); }
      }
      if flow == SameDevice && req.redirectURI == "" { return Some(RedirectRequired); }
      if req.redirectURI != "" {
        var ok := IsAllowed(req.redirectURI, row.allowedOrigins);
        if !ok { return Some(RedirectNotRegistered); }
      }
      if req.webhookURL != "" {
        var ok := IsAllowed(req.webhookURL, row.allowedOrigins);
        if !ok { return Some(WebhookNotRegistered); }
      }
      return None;
    }

    ghost function RestFrom(clientID: Id, req: Request, m: Moments, stage: Stage, ok: nat -> bool): Stage
      requires !stage.Sent?
      reads m.client, m.source, m.use, m.certificate
    {
      RestIo(lib, clientID, req, SawAt(m), stage, ok)
    }

    /**
     * The engine is called at most once, with exactly the create the guard chain ends in by what each read finds: an
     * authorized one. Otherwise the refusal has its cause, a failing store's being that a read it makes fails.
     */
    method CreateSession(clientID: Id, req: Request, m: Moments, ok: nat -> bool) returns (refusal: Option<Refusal>)
      modifies this`creates
      ensures match RestFrom(clientID, req, m, Opened(req), ok)
        case Ready(c) => refusal == None && creates == old(creates) + [c]
        case Stopped(why) => refusal == Some(why) && creates == old(creates)
        case _ => false
      ensures refusal.Some? ==>
        creates == old(creates) && Settles(lib, clientID, req, SawAt(m), ok, Stopped(refusal.value))
      ensures refusal == None ==>
        exists c :: creates == old(creates) + [c] && Settles(lib, clientID, req, SawAt(m), ok, Ready(c))
    {
      MintSettles(lib, clientID, req, SawAt(m), ok, RestFrom(clientID, req, m, Opened(req), ok));
      var hasTemplate, hasInline := req.templateID != "", req.dcqlQuery != "";
      if hasTemplate == hasInline { return Some(BadPresentation); }
      var flow := FlowOf(req.flow);
      if flow == None { return Some(BadFlow); }
      if req.ttlSeconds != 0 && (req.ttlSeconds < 60 || req.ttlSeconds > 3600) { return Some(BadTTL); }

      if !ok(4) { return Some(StoreFailed); }
      var client := m.client.ReadClient(clientID);
      if client.Err? { return Some(Absent); }
      var stage := Resolve(clientID, req, flow.value, client.value, m, ok);
      if stage.Stopped? { return Some(stage.why); }
      stage := Finish(clientID, req, flow.value, client.value, stage.query, stage.target, m, ok);
      if stage.Stopped? { return Some(stage.why); }
      creates := creates + [stage.create];
      return None;
    }

    /** Finds the query and the intended use: the template's, the request's, or the client's only one. */
    method Resolve(clientID: Id, req: Request, flow: Flow, row: Client, m: Moments, ok: nat -> bool)
      returns (stage: Stage)
      requires GetClient(m.client.View(), clientID) == Ok(row) && ok(4)
      ensures stage.Stopped? || (stage.AtUse? && stage.flow == flow && stage.row == row)
      ensures RestFrom(clientID, req, m, AtClient(flow), ok) == RestFrom(clientID, req, m, stage, ok)
    {
      ghost var first := WithClient(m.client.View(), clientID, req, flow);
      assert RestFrom(clientID, req, m, AtClient(flow), ok) == RestFrom(clientID, req, m, first, ok);
      if req.templateID == "" && req.intendedUseID != "" {
        return AtUse(flow, row, req.dcqlQuery, req.intendedUseID);
      }
      if !ok(3) { return Stopped(StoreFailed); }
      ghost var second := WithSource(m.source.View(), clientID, req, flow, row);
      assert RestFrom(clientID, req, m, first, ok) == RestFrom(clientID, req, m, second, ok);
      if req.templateID != "" {
        var tpl := m.source.ReadTemplate(clientID, req.templateID);
        if tpl.Err? { return Stopped(Absent); }
        return AtUse(flow, row, tpl.value.dcqlQuery, tpl.value.intendedUseID);
      }
      var ius := m.source.ReadUses(clientID);
      if |ius| != 1 { return Stopped(UseRequired); }
      SoleKey(ius.Keys);
      var u :| u in ius;
      assert u in {Sole(ius)};
      return AtUse(flow, row, req.dcqlQuery, ius[u].intendedUseID);
    }

    /** From the intended use on. */
    method Finish(
      clientID: Id, req: Request, flow: Flow, row: Client, query: string, target: string, m: Moments, ok: nat -> bool)
      returns (stage: Stage)
      ensures stage == RestFrom(clientID, req, m, AtUse(flow, row, query, target), ok)
    {
      if !ok(2) { return Stopped(StoreFailed); }
      ghost var next := WithUse(lib, m.use.View(), clientID, req, flow, row, query, target);
      assert RestFrom(clientID, req, m, AtUse(flow, row, query, target), ok) == RestFrom(clientID, req, m, next, ok);
      var iu := m.use.ReadUse(clientID, target);
      if iu.Err? { return Stopped(Absent); }
      if iu.value.revokedAt != "" { return Stopped(Revoked); }
      var verdict := lib.scope(query, iu.value.credentials);
      match verdict {
        case Exceeded(offending) => return Stopped(OutOfScope(offending));
        case Unparsable => return Stopped(BadQuery);
        case Broken => return Stopped(ScopeFailed);
        case Within =>
      }
      var fault := CheckTargets(row, req, flow);
      if fault != None { return Stopped(fault.value); }
      stage := Build(clientID, req, flow, row, query, target, m, ok);
    }

    method Build(
      clientID: Id, req: Request, flow: Flow, row: Client, query: string, target: string, m: Moments, ok: nat -> bool)
      returns (stage: Stage)
      ensures stage == RestFrom(clientID, req, m, AtCertificate(flow, row, query, target), ok)
    {
      var webhookURL := row.defaultWebhook;
      if req.webhookURL != "" { webhookURL := req.webhookURL; }
      if !ok(1) { return Stopped(StoreFailed); }
      ghost var next := WithCertificate(lib, m.certificate.View(), clientID, req, flow, row, query, target);
      assert RestFrom(clientID, req, m, AtCertificate(flow, row, query, target), ok) ==
             RestFrom(clientID, req, m, next, ok);
      var wrprc := m.certificate.ReadWRPRC(clientID, target);
      if wrprc.Err? { return Stopped(Absent); }
      var reference := lib.reference(row.name, row.clientIdentifier, row.registryURI, target);
      if reference == None { return Stopped(NoRegistrarIdentity); }
      var ttl := req.ttlSeconds;
      if ttl == 0 { ttl := lib.defaultTTL; }
      var expectedOrigins := [];
      if flow == DcApi { expectedOrigins := row.allowedOrigins; }
      return Ready(Create(clientID, flow, query, row.policy, webhookURL, req.redirectURI, reference.value, wrprc.value,
                          expectedOrigins, ttl));
    }

    /**
     * The registry gains the template exactly if check and write both pass; if nothing changed it between the two, the
     * template is within the registration.
     */
    method CreateTemplate(
      clientID: Id, t: TemplateNew, checkedIn: RegistryStore.Store, registry: RegistryStore.Store,
      readOk: bool, writeOk: bool) returns (r: WriteStage)
      requires registry.Valid()
      modifies registry
      ensures registry.Valid()
      ensures (registry.View(), r) ==
              TemplateWrite(lib, old(checkedIn.View()), old(registry.View()), clientID, t, readOk, writeOk)
      ensures r.Refused? ==>
        && registry.View() == old(registry.View())
        && TemplateCause(lib, old(checkedIn.View()), old(registry.View()), clientID, t, readOk, writeOk, r.why)
      ensures r.Written? && old(checkedIn.View()) == old(registry.View()) ==>
        r.id !in old(registry.View()).templates &&
        Covers(lib, registry.View(), clientID, t.intendedUseID, t.dcqlQuery)
    {
      ghost var seen, before := checkedIn.View(), registry.View();
      ghost var (_, outcome) := TemplateWrite(lib, seen, before, clientID, t, readOk, writeOk);
      if outcome.Refused? { TemplateRefusedIff(lib, seen, before, clientID, t, readOk, writeOk, outcome.why); }
      if t.name == "" || t.intendedUseID == "" || t.dcqlQuery == "" { return Refused(BadPresentation); }
      if !readOk { return Refused(StoreFailed); }
      var iu := checkedIn.ReadUse(clientID, t.intendedUseID);
      if iu.Err? { return Refused(Absent); }
      if iu.value.revokedAt != "" { return Refused(Revoked); }
      match lib.scope(t.dcqlQuery, iu.value.credentials) {
        case Exceeded(offending) => return Refused(OutOfScope(offending));
        case Unparsable => return Refused(BadQuery);
        case Broken => return Refused(ScopeFailed);
        case Within =>
      }
      if !writeOk { return Refused(StoreFailed); }
      var id := registry.AddTemplate(clientID, t);
      if id.Ok? { return Written(id.value); }
      return if id.error == UseRevoked then Refused(Revoked) else Refused(Absent);
    }
  }

  // ----- The handlers are runs of the protocol, whatever happens to the registry in between -----

  ghost predicate Foreign(ops: seq<Op>) {
    forall i :: 0 <= i < |ops| ==> !ops[i].OpCreateTemplate?
  }

  lemma {:induction false} ChangesAreARun(lib: Lib, s: State, ops: seq<Op>) returns (acts: seq<Action>)
    requires Foreign(ops)
    ensures CanRun(lib, s, acts) && Run(lib, s, acts) == s.(reg := Tenancy.PerformAll(s.reg, ops))
    decreases |ops|
  {
    if ops == [] {
      acts := [];
    } else {
      var rest := ChangesAreARun(lib, Apply(lib, s, Change(ops[0])), ops[1..]);
      RunCons(lib, s, Change(ops[0]), rest);
      acts := [Change(ops[0])] + rest;
    }
  }

  /** What a request comes to see when between(k) happens to the registry before its k-th last read. */
  ghost function SawBy(
    lib: Lib, clientID: Id, req: Request, reg: Reg, saw: Saw, stage: Stage,
    between: nat -> seq<Op>, ok: nat -> bool): (r: Saw)
    ensures Agree(saw, r, stage)
    decreases Ahead(stage)
  {
    if !AtRead(stage) then saw
    else
      var reg' := Tenancy.PerformAll(reg, between(Ahead(stage)));
      var saw' := SawNow(saw, stage, reg');
      if !ok(Ahead(stage)) then saw'
      else
        ReadGoesAhead(lib, reg', clientID, req, stage);
        SawBy(lib, clientID, req, reg', saw', ReadOn(lib, reg', clientID, req, stage), between, ok)
  }

  lemma ReadPinned(
    lib: Lib, clientID: Id, req: Request, reg: Reg, saw: Saw, stage: Stage, between: nat -> seq<Op>, ok: nat -> bool)
    requires AtRead(stage)
    ensures Reading(SawBy(lib, clientID, req, reg, saw, stage, between, ok), stage) ==
            Tenancy.PerformAll(reg, between(Ahead(stage)))
  {
    var reg' := Tenancy.PerformAll(reg, between(Ahead(stage)));
    ReadGoesAhead(lib, reg', clientID, req, stage);
  }

  /**
   * The createSession handler is a run of the protocol: with any changes of the registry between its reads, and
   * whichever reads fail, the request ends where CreateSession's contract says for what it came to see.
   */
  lemma MintIsARun(
    lib: Lib, s: State, j: nat, clientID: Id, req: Request, between: nat -> seq<Op>, ok: nat -> bool)
    returns (acts: seq<Action>)
    requires j !in s.jobs && forall k :: Foreign(between(k))
    ensures CanRun(lib, s, acts) && j in Run(lib, s, acts).jobs
    ensures var saw := SawBy(lib, clientID, req, s.reg, Saw(s.reg, s.reg, s.reg, s.reg), Opened(req), between, ok);
      var job := Run(lib, s, acts).jobs[j]; var end := RestIo(lib, clientID, req, saw, Opened(req), ok);
      job.saw == saw && job.stage == if end.Ready? then Sent(end.create) else end
  {
    var ask := Ask(j, clientID, req);
    var s1 := Apply(lib, s, ask);
    var reading := ReadsAreARun(lib, s1, j, between, ok);
    var s2 := Run(lib, s1, reading);
    var send := [];
    if s2.jobs[j].stage.Ready? {
      RunCons(lib, s2, Send(j), []);
      send := [Send(j)] + [];
    }
    RunAppend(lib, s1, reading, send);
    RunCons(lib, s, ask, reading + send);
    acts := [ask] + (reading + send);
  }

  lemma {:induction false} ReadsAreARun(lib: Lib, s: State, j: nat, between: nat -> seq<Op>, ok: nat -> bool)
    returns (acts: seq<Action>)
    requires j in s.jobs && !s.jobs[j].stage.Sent? && forall k :: Foreign(between(k))
    ensures CanRun(lib, s, acts) && j in Run(lib, s, acts).jobs
    ensures var job := s.jobs[j];
      var saw := SawBy(lib, job.clientID, job.req, s.reg, job.saw, job.stage, between, ok);
      Run(lib, s, acts).jobs[j] ==
      Job(job.clientID, job.req, saw, RestIo(lib, job.clientID, job.req, saw, job.stage, ok))
    decreases Ahead(s.jobs[j].stage)
  {
    var job := s.jobs[j];
    if !AtRead(job.stage) {
      acts := [];
    } else {
      var k := Ahead(job.stage);
      var changes := ChangesAreARun(lib, s, between(k));
      var s1 := Run(lib, s, changes);
      var read := Read(j, ok(k));
      var s2 := Apply(lib, s1, read);
      ReadPinned(lib, job.clientID, job.req, s.reg, job.saw, job.stage, between, ok);
      ReadGoesAhead(lib, s1.reg, job.clientID, job.req, job.stage);
      var rest := ReadsAreARun(lib, s2, j, between, ok);
      RunCons(lib, s1, read, rest);
      RunAppend(lib, s, changes, [read] + rest);
      acts := changes + ([read] + rest);
    }
  }

  /** And so is the createTemplate handler, with any changes of the registry between its check and its write. */
  lemma TemplateIsARun(
    lib: Lib, s: State, w: nat, clientID: Id, t: TemplateNew, between: seq<Op>, readOk: bool, writeOk: bool)
    returns (acts: seq<Action>)
    requires w !in s.writers && Foreign(between)
    ensures CanRun(lib, s, acts) && w in Run(lib, s, acts).writers
    ensures var s' := Run(lib, s, acts);
      (s'.reg, s'.writers[w].stage) ==
      TemplateWrite(lib, s.reg, Tenancy.PerformAll(s.reg, between), clientID, t, readOk, writeOk)
  {
    var propose := Propose(w, clientID, t);
    var s1 := Apply(lib, s, propose);
    var check := [];
    if s1.writers[w].stage == AtCheck {
      RunCons(lib, s1, Check(w, readOk), []);
      check := [Check(w, readOk)] + [];
    }
    var s2 := Run(lib, s1, check);
    var changes := ChangesAreARun(lib, s2, between);
    var s3 := Run(lib, s2, changes);
    var write := [];
    if s3.writers[w].stage == AtWrite {
      RunCons(lib, s3, Write(w, writeOk), []);
      write := [Write(w, writeOk)] + [];
    }
    RunAppend(lib, s2, changes, write);
    RunAppend(lib, s1, check, changes + write);
    RunCons(lib, s, propose, check + (changes + write));
    acts := [propose] + (check + (changes + write));
  }
}
