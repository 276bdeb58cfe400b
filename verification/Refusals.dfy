/** Which refusal a mint gets: the causes, in the order in which they are looked for. */
module Refusals {
  import opened Common
  import opened Registry
  import opened Minting

  lemma FlowNames(api: string)
    ensures FlowOf(api) == Some(SameDevice) <==> api == "same_device"
    ensures FlowOf(api) == Some(DcApi) <==> api == "dc_api"
    ensures FlowOf(api) == Some(CrossDevice) <==> api in {"", "cross_device"}
  {
  }

  // ----- The causes -----

  predicate InPlace(reg: Reg, clientID: Id, target: string) {
    clientID in reg.uses && target in reg.uses[clientID]
  }

  /** The i-th origin is the first that is not a web origin. */
  predicate FirstBad(lib: Lib, origins: seq<string>, i: int) {
    0 <= i < |origins| && !lib.webOrigin(origins[i]) && forall j :: 0 <= j < i ==> lib.webOrigin(origins[j])
  }

  predicate OriginsUsable(lib: Lib, row: Client, flow: Flow) {
    flow == DcApi ==> row.allowedOrigins != [] && forall o :: o in row.allowedOrigins ==> lib.webOrigin(o)
  }

  predicate RedirectFine(lib: Lib, row: Client, req: Request, flow: Flow) {
    if req.redirectURI == "" then flow != SameDevice else OriginAllowed(lib, req.redirectURI, row.allowedOrigins)
  }

  predicate WebhookFine(lib: Lib, row: Client, req: Request) {
    req.webhookURL == "" || OriginAllowed(lib, req.webhookURL, row.allowedOrigins)
  }

  /** Origins come first, then the redirect target, then the webhook. */
  ghost predicate TargetCause(lib: Lib, row: Client, req: Request, flow: Flow, why: Refusal) {
    match why
    case NoOrigins => flow == DcApi && row.allowedOrigins == []
    case UnusableOrigin(o) =>
      flow == DcApi && exists i :: FirstBad(lib, row.allowedOrigins, i) && row.allowedOrigins[i] == o
    case RedirectRequired => flow == SameDevice && req.redirectURI == ""
    case RedirectNotRegistered =>
      && OriginsUsable(lib, row, flow)
      && req.redirectURI != "" && !OriginAllowed(lib, req.redirectURI, row.allowedOrigins)
    case WebhookNotRegistered =>
      OriginsUsable(lib, row, flow) && RedirectFine(lib, row, req, flow) && !WebhookFine(lib, row, req)
    case _ => false
  }

  /** The scope judgement about a query decides which refusal it is. */
  predicate ScopeCause(verdict: ScopeVerdict, why: Refusal) {
    match why
    case OutOfScope(offending) => verdict == Exceeded(offending)
    case BadQuery => verdict == Unparsable
    case ScopeFailed => verdict == Broken
    case _ => false
  }

  /** What can be wrong with the intended use: it is not the client's, revoked, or does not cover the query. */
  predicate UseCause(lib: Lib, reg: Reg, clientID: Id, query: string, target: string, why: Refusal) {
    if !InPlace(reg, clientID, target) then why == Absent
    else
      var use := reg.uses[clientID][target];
      if use.revokedAt != "" then why == Revoked else ScopeCause(lib.scope(query, use.credentials), why)
  }

  predicate CertificateCause(lib: Lib, reg: Reg, clientID: Id, row: Client, target: string, why: Refusal) {
    if !InPlace(reg, clientID, target) then why == Absent
    else
      why == NoRegistrarIdentity && lib.reference(row.name, row.clientIdentifier, row.registryURI, target) == None
  }

  /** All that can go wrong once query and intended use are found. */
  ghost predicate SourcedCause(
    lib: Lib, clientID: Id, req: Request, saw: Saw, flow: Flow, row: Client, query: string, target: string,
    why: Refusal)
  {
    if !Covers(lib, saw.use, clientID, target, query) then UseCause(lib, saw.use, clientID, query, target, why)
    else if OriginsUsable(lib, row, flow) && RedirectFine(lib, row, req, flow) && WebhookFine(lib, row, req) then
      CertificateCause(lib, saw.certificate, clientID, row, target, why)
    else TargetCause(lib, row, req, flow, why)
  }

  /** The cause of each refusal, the request's own faults first, then those of the registry as each read found it. */
  ghost predicate Cause(lib: Lib, clientID: Id, req: Request, saw: Saw, why: Refusal) {
    if (req.templateID != "") == (req.dcqlQuery != "") then why == BadPresentation
    else if req.flow !in {"", "cross_device", "same_device", "dc_api"} then why == BadFlow
    else if req.ttlSeconds != 0 && !(60 <= req.ttlSeconds <= 3600) then why == BadTTL
    else if clientID !in saw.client.clients then why == Absent
    else
      var flow, row := FlowOf(req.flow).value, saw.client.clients[clientID];
      || (req.templateID != "" && !HasTemplate(saw.source, clientID, req.templateID) && why == Absent)
      || (req.templateID == "" && req.intendedUseID == "" && why == UseRequired &&
          !exists u :: SoleUse(saw.source, clientID, u))
      || exists query, target :: Sourced(saw.source, clientID, req, query, target) &&
           SourcedCause(lib, clientID, req, saw, flow, row, query, target, why)
  }

  // ----- A refusal is given exactly for its cause -----

  lemma {:induction false} FirstBadIff(lib: Lib, origins: seq<string>, o: string)
    ensures FirstUnusable(lib, origins) == Some(o) <==> exists i :: FirstBad(lib, origins, i) && origins[i] == o
  {
    if origins != [] {
      if lib.webOrigin(origins[0]) {
        FirstBadIff(lib, origins[1..], o);
        forall i
          ensures FirstBad(lib, origins, i + 1) <==> FirstBad(lib, origins[1..], i)
        {
          FirstBadShifts(lib, origins, i);
        }
        if i :| FirstBad(lib, origins, i) { assert FirstBad(lib, origins, (i - 1) + 1); }
      } else {
        assert FirstBad(lib, origins, 0);
      }
    }
  }

  lemma FirstBadShifts(lib: Lib, origins: seq<string>, i: int)
    requires origins != [] && lib.webOrigin(origins[0])
    ensures FirstBad(lib, origins, i + 1) <==> FirstBad(lib, origins[1..], i)
  {
    if FirstBad(lib, origins, i + 1) {
      forall j | 0 <= j < i
        ensures lib.webOrigin(origins[1..][j])
      {
        assert lib.webOrigin(origins[j + 1]);
      }
    }
  }

  lemma TargetFaultIff(lib: Lib, row: Client, req: Request, flow: Flow, why: Refusal)
    ensures TargetFault(lib, row, req, flow) == Some(why) <==> TargetCause(lib, row, req, flow, why)
    ensures TargetFault(lib, row, req, flow) == None <==>
      OriginsUsable(lib, row, flow) && RedirectFine(lib, row, req, flow) && WebhookFine(lib, row, req)
  {
    UnusableIff(lib, row.allowedOrigins);
    if why.UnusableOrigin? { FirstBadIff(lib, row.allowedOrigins, why.origin); }
  }

  lemma RefusedFromCertificate(
    lib: Lib, clientID: Id, req: Request, saw: Saw, flow: Flow, row: Client, query: string, target: string,
    why: Refusal)
    ensures Rest(lib, clientID, req, saw, AtCertificate(flow, row, query, target)) == Stopped(why) <==>
      CertificateCause(lib, saw.certificate, clientID, row, target, why)
  {
  }

  lemma RefusedFromUse(
    lib: Lib, clientID: Id, req: Request, saw: Saw, flow: Flow, row: Client, query: string, target: string,
    why: Refusal)
    ensures Rest(lib, clientID, req, saw, AtUse(flow, row, query, target)) == Stopped(why) <==>
      SourcedCause(lib, clientID, req, saw, flow, row, query, target, why)
  {
    var next := WithUse(lib, saw.use, clientID, req, flow, row, query, target);
    assert Rest(lib, clientID, req, saw, AtUse(flow, row, query, target)) == Rest(lib, clientID, req, saw, next);
    UsedIff(lib, saw.use, clientID, req, flow, row, query, target, why);
    if next.AtCertificate? { RefusedFromCertificate(lib, clientID, req, saw, flow, row, query, target, why); }
  }

  lemma UsedIff(
    lib: Lib, reg: Reg, clientID: Id, req: Request, flow: Flow, row: Client, query: string, target: string,
    why: Refusal)
    ensures var next := WithUse(lib, reg, clientID, req, flow, row, query, target);
      if !Covers(lib, reg, clientID, target, query) then
        next.Stopped? && (next == Stopped(why) <==> UseCause(lib, reg, clientID, query, target, why))
      else if OriginsUsable(lib, row, flow) && RedirectFine(lib, row, req, flow) && WebhookFine(lib, row, req) then
        next == AtCertificate(flow, row, query, target)
      else next.Stopped? && (next == Stopped(why) <==> TargetCause(lib, row, req, flow, why))
  {
    TargetFaultIff(lib, row, req, flow, why);
  }

  lemma RefusedFromSource(lib: Lib, clientID: Id, req: Request, saw: Saw, flow: Flow, row: Client, why: Refusal)
    requires req.templateID != "" || req.intendedUseID == ""
    ensures Rest(lib, clientID, req, saw, AtSource(flow, row)) == Stopped(why) <==>
      || (req.templateID != "" && !HasTemplate(saw.source, clientID, req.templateID) && why == Absent)
      || (req.templateID == "" && !(exists u :: SoleUse(saw.source, clientID, u)) && why == UseRequired)
      || exists query, target :: Sourced(saw.source, clientID, req, query, target) &&
           SourcedCause(lib, clientID, req, saw, flow, row, query, target, why)
  {
    var next := WithSource(saw.source, clientID, req, flow, row);
    assert Rest(lib, clientID, req, saw, AtSource(flow, row)) == Rest(lib, clientID, req, saw, next);
    forall query, target
      ensures next == AtUse(flow, row, query, target) <==> Sourced(saw.source, clientID, req, query, target)
    {
      SourcedIff(saw.source, clientID, req, flow, row, query, target);
    }
    SourceStops(saw.source, clientID, req, flow, row);
    if next.AtUse? { RefusedFromUse(lib, clientID, req, saw, flow, row, next.query, next.target, why); }
  }

  lemma SourceStops(reg: Reg, clientID: Id, req: Request, flow: Flow, row: Client)
    requires req.templateID != "" || req.intendedUseID == ""
    ensures var next := WithSource(reg, clientID, req, flow, row);
      if req.templateID != "" then
        if HasTemplate(reg, clientID, req.templateID) then next.AtUse? else next == Stopped(Absent)
      else if exists u :: SoleUse(reg, clientID, u) then next.AtUse? else next == Stopped(UseRequired)
    ensures var next := WithSource(reg, clientID, req, flow, row); next.AtUse? ==> next.flow == flow && next.row == row
  {
    var ius := ListIntendedUses(reg, clientID);
    if |ius| == 1 { assert SoleUse(reg, clientID, Sole(ius)); }
    if u :| SoleUse(reg, clientID, u) { assert |ius.Keys| == |{u}| == |ius|; }
  }

  /** Every refusal but a failing store's is given exactly for its cause, and in the source's order. */
  lemma RefusedIff(lib: Lib, clientID: Id, req: Request, saw: Saw, why: Refusal)
    ensures Decide(lib, clientID, req, saw) == Stopped(why) <==> Cause(lib, clientID, req, saw, why)
  {
    FlowNames(req.flow);
    if WellFormed(req) && clientID in saw.client.clients {
      RefusedFromRow(lib, clientID, req, saw, FlowOf(req.flow).value, saw.client.clients[clientID], why);
    }
  }

  lemma RefusedFromRow(lib: Lib, clientID: Id, req: Request, saw: Saw, flow: Flow, row: Client, why: Refusal)
    requires clientID in saw.client.clients && row == saw.client.clients[clientID]
    ensures Rest(lib, clientID, req, saw, AtClient(flow)) == Stopped(why) <==>
      || (req.templateID != "" && !HasTemplate(saw.source, clientID, req.templateID) && why == Absent)
      || (req.templateID == "" && req.intendedUseID == "" && why == UseRequired &&
          !exists u :: SoleUse(saw.source, clientID, u))
      || exists query, target :: Sourced(saw.source, clientID, req, query, target) &&
           SourcedCause(lib, clientID, req, saw, flow, row, query, target, why)
  {
    var next := WithClient(saw.client, clientID, req, flow);
    assert Rest(lib, clientID, req, saw, AtClient(flow)) == Rest(lib, clientID, req, saw, next);
    if req.templateID != "" || req.intendedUseID == "" {
      RefusedFromSource(lib, clientID, req, saw, flow, row, why);
    } else {
      assert Sourced(saw.source, clientID, req, req.dcqlQuery, req.intendedUseID);
      RefusedFromUse(lib, clientID, req, saw, flow, row, req.dcqlQuery, req.intendedUseID, why);
    }
  }
}
