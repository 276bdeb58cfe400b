/** Authorization of a new session: which requests reach the verifier engine, and with what. */
module Minting {
  import opened Common
  import opened Registry
  import Tenancy

  function FlowOf(api: string): Option<Flow> {
    if api == "" || api == "cross_device" then Some(CrossDevice)
    else if api == "same_device" then Some(SameDevice)
    else if api == "dc_api" then Some(DcApi)
    else None
  }

  /**
   * The verdict on a query against a use's registered credentials; Broken is a registration that cannot be converted.
   */
  datatype ScopeVerdict = Within | Exceeded(offending: seq<string>) | Unparsable | Broken

  /**
   * Judgements of libraries, left abstract: scope inclusion, the scheme://host of a URL that has both, whether a string
   * is a bare web origin, Unicode case folding, and the registration reference of a usable registrar identity.
   */
  datatype Lib = Lib(
    scope: (string, string) -> ScopeVerdict, origin: string -> Option<string>, webOrigin: string -> bool,
    fold: string -> string, reference: (string, string, string, string) -> Option<string>, defaultTTL: int)

  /** An empty string is an absent member; an empty dcqlQuery is an absent or empty object. */
  datatype Request = Request(
    templateID: string, dcqlQuery: string, flow: string, intendedUseID: string,
    redirectURI: string, webhookURL: string, ttlSeconds: int)

  /** What the engine is asked to create. */
  datatype Create = Create(
    clientID: Id, flow: Flow, dcqlQuery: string, policy: string, webhookURL: string, redirectURI: string,
    registration: string, wrprc: Option<string>, expectedOrigins: seq<string>, ttlSeconds: int)

  datatype Refusal =
    | BadPresentation | BadFlow | BadTTL
    | Absent
    | UseRequired | Revoked
    | OutOfScope(offending: seq<string>) | BadQuery | ScopeFailed
    | NoOrigins | UnusableOrigin(origin: string) | RedirectRequired
    | RedirectNotRegistered | WebhookNotRegistered
    | NoRegistrarIdentity
    | StoreFailed

  /** The registry as each of the four reads of one request finds it: client, template or use list, use, certificate. */
  datatype Saw = Saw(client: Reg, source: Reg, use: Reg, certificate: Reg)

  // ----- What a request must satisfy -----

  predicate WellFormed(req: Request) {
    && ((req.templateID != "") != (req.dcqlQuery != ""))
    && FlowOf(req.flow).Some?
    && (req.ttlSeconds == 0 || 60 <= req.ttlSeconds <= 3600)
  }

  predicate SoleUse(reg: Reg, clientID: Id, u: string) {
    clientID in reg.uses && reg.uses[clientID].Keys == {u}
  }

  /**
   * The query and the intended use are the template's, or the request's; only a client's sole use need not be named.
   */
  ghost predicate Sourced(reg: Reg, clientID: Id, req: Request, query: string, target: string) {
    if req.templateID != "" then
      && HasTemplate(reg, clientID, req.templateID)
      && var t := reg.templates[req.templateID].t; query == t.dcqlQuery && target == t.intendedUseID
    else
      && query == req.dcqlQuery
      && if req.intendedUseID != "" then target == req.intendedUseID
         else exists u :: SoleUse(reg, clientID, u) && reg.uses[clientID][u].intendedUseID == target
  }

  /** The intended use is the client's own, not revoked, and covers the query. */
  predicate Covers(lib: Lib, reg: Reg, clientID: Id, target: string, query: string) {
    && clientID in reg.uses && target in reg.uses[clientID]
    && reg.uses[clientID][target].revokedAt == ""
    && lib.scope(query, reg.uses[clientID][target].credentials) == Within
  }

  predicate OriginAllowed(lib: Lib, url: string, allowed: seq<string>) {
    lib.origin(url).Some? && exists a :: a in allowed && lib.fold(a) == lib.fold(lib.origin(url).value)
  }

  /** Everything the request points to is registered, and the engine gets origins for the browser flow only. */
  predicate Targets(lib: Lib, row: Client, req: Request, c: Create) {
    && (c.flow == DcApi ==> row.allowedOrigins != [] && forall o :: o in row.allowedOrigins ==> lib.webOrigin(o))
    && c.expectedOrigins == (if c.flow == DcApi then row.allowedOrigins else [])
    && (c.flow == SameDevice ==> req.redirectURI != "")
    && c.redirectURI == req.redirectURI
    && (req.redirectURI != "" ==> OriginAllowed(lib, req.redirectURI, row.allowedOrigins))
    && (if req.webhookURL == "" then c.webhookURL == row.defaultWebhook
        else c.webhookURL == req.webhookURL && OriginAllowed(lib, req.webhookURL, row.allowedOrigins))
  }

  ghost predicate AuthorizedFor(lib: Lib, clientID: Id, req: Request, saw: Saw, c: Create, target: string) {
    && Sourced(saw.source, clientID, req, c.dcqlQuery, target)
    && Covers(lib, saw.use, clientID, target, c.dcqlQuery)
    && GetWRPRC(saw.certificate, clientID, target) == Ok(c.wrprc)
    && clientID in saw.client.clients
    && var row := saw.client.clients[clientID];
      && Targets(lib, row, req, c)
      && c.policy == row.policy
      && lib.reference(row.name, row.clientIdentifier, row.registryURI, target) == Some(c.registration)
  }

  /** c is what this request may have the engine create, by the registry as the request read it. */
  ghost predicate Authorized(lib: Lib, clientID: Id, req: Request, saw: Saw, c: Create) {
    && WellFormed(req)
    && c.clientID == clientID && FlowOf(req.flow) == Some(c.flow)
    && c.ttlSeconds == (if req.ttlSeconds == 0 then lib.defaultTTL else req.ttlSeconds)
    && exists target :: AuthorizedFor(lib, clientID, req, saw, c, target)
  }

  // ----- The guard chain, one stage per registry read -----

  datatype Stage =
    | AtClient(flow: Flow)
    | AtSource(flow: Flow, row: Client)
    | AtUse(flow: Flow, row: Client, query: string, target: string)
    | AtCertificate(flow: Flow, row: Client, query: string, target: string)
    | Ready(create: Create)
    | Sent(create: Create)
    | Stopped(why: Refusal)

  function Opened(req: Request): Stage {
    if (req.templateID != "") == (req.dcqlQuery != "") then Stopped(BadPresentation)
    else if FlowOf(req.flow) == None then Stopped(BadFlow)
    else if req.ttlSeconds != 0 && (req.ttlSeconds < 60 || req.ttlSeconds > 3600) then Stopped(BadTTL)
    else AtClient(FlowOf(req.flow).value)
  }

  function WithClient(reg: Reg, clientID: Id, req: Request, flow: Flow): Stage {
    match GetClient(reg, clientID)
    case Err(_) => Stopped(Absent)
    case Ok(row) =>
      if req.templateID != "" || req.intendedUseID == "" then AtSource(flow, row)
      else AtUse(flow, row, req.dcqlQuery, req.intendedUseID)
  }

  ghost function Sole(ius: map<string, IntendedUse>): (u: string)
    requires |ius| == 1
    ensures ius.Keys == {u}
  {
    SoleKey(ius.Keys);
    var u :| ius.Keys == {u};
    u
  }

  lemma SoleKey(keys: set<string>)
    requires |keys| == 1
    ensures exists u :: keys == {u}
  {
    var u :| u in keys;
    assert |keys - {u}| == 0;
    assert keys == {u};
  }

  ghost function WithSource(reg: Reg, clientID: Id, req: Request, flow: Flow, row: Client): Stage {
    if req.templateID != "" then
      match GetTemplate(reg, clientID, req.templateID)
      case Err(_) => Stopped(Absent)
      case Ok(t) => AtUse(flow, row, t.dcqlQuery, t.intendedUseID)
    else
      var ius := ListIntendedUses(reg, clientID);
      if |ius| != 1 then Stopped(UseRequired) else AtUse(flow, row, req.dcqlQuery, ius[Sole(ius)].intendedUseID)
  }

  function WithUse(
    lib: Lib, reg: Reg, clientID: Id, req: Request, flow: Flow, row: Client, query: string, target: string): Stage
  {
    match GetIntendedUse(reg, clientID, target)
    case Err(_) => Stopped(Absent)
    case Ok(iu) =>
      if iu.revokedAt != "" then Stopped(Revoked)
      else
        match lib.scope(query, iu.credentials)
        case Exceeded(offending) => Stopped(OutOfScope(offending))
        case Unparsable => Stopped(BadQuery)
        case Broken => Stopped(ScopeFailed)
        case Within =>
          match TargetFault(lib, row, req, flow)
          case Some(why) => Stopped(why)
          case None => AtCertificate(flow, row, query, target)
  }

  function FirstUnusable(lib: Lib, origins: seq<string>): Option<string> {
    if origins == [] then None
    else if !lib.webOrigin(origins[0]) then Some(origins[0])
    else FirstUnusable(lib, origins[1..])
  }

  function TargetFault(lib: Lib, row: Client, req: Request, flow: Flow): Option<Refusal> {
    if flow == DcApi && row.allowedOrigins == [] then Some(NoOrigins)
    else if flow == DcApi && FirstUnusable(lib, row.allowedOrigins).Some? then
      Some(UnusableOrigin(FirstUnusable(lib, row.allowedOrigins).value))
    else if flow == SameDevice && req.redirectURI == "" then Some(RedirectRequired)
    else if req.redirectURI != "" && !OriginAllowed(lib, req.redirectURI, row.allowedOrigins) then
      Some(RedirectNotRegistered)
    else if req.webhookURL != "" && !OriginAllowed(lib, req.webhookURL, row.allowedOrigins) then
      Some(WebhookNotRegistered)
    else None
  }

  function WithCertificate(
    lib: Lib, reg: Reg, clientID: Id, req: Request, flow: Flow, row: Client, query: string, target: string): Stage
  {
    match GetWRPRC(reg, clientID, target)
    case Err(_) => Stopped(Absent)
    case Ok(wrprc) =>
      match lib.reference(row.name, row.clientIdentifier, row.registryURI, target)
      case None => Stopped(NoRegistrarIdentity)
      case Some(registration) =>
        Ready(Create(clientID, flow, query, row.policy,
                     if req.webhookURL != "" then req.webhookURL else row.defaultWebhook, req.redirectURI,
                     registration, wrprc, if flow == DcApi then row.allowedOrigins else [],
                     if req.ttlSeconds == 0 then lib.defaultTTL else req.ttlSeconds))
  }

  predicate AtRead(stage: Stage) {
    stage.AtClient? || stage.AtSource? || stage.AtUse? || stage.AtCertificate?
  }

  /** One registry read, and the checks up to the next one. */
  ghost function ReadOn(lib: Lib, reg: Reg, clientID: Id, req: Request, stage: Stage): Stage
    requires AtRead(stage)
  {
    match stage
    case AtClient(flow) => WithClient(reg, clientID, req, flow)
    case AtSource(flow, row) => WithSource(reg, clientID, req, flow, row)
    case AtUse(flow, row, query, target) => WithUse(lib, reg, clientID, req, flow, row, query, target)
    case AtCertificate(flow, row, query, target) => WithCertificate(lib, reg, clientID, req, flow, row, query, target)
  }

  /** The registry a stage is about to read. */
  function Reading(saw: Saw, stage: Stage): Reg
    requires AtRead(stage)
  {
    match stage
    case AtClient(_) => saw.client
    case AtSource(_, _) => saw.source
    case AtUse(_, _, _, _) => saw.use
    case AtCertificate(_, _, _, _) => saw.certificate
  }

  /** Reads still to come at most. */
  function Ahead(stage: Stage): nat {
    match stage
    case AtClient(_) => 4
    case AtSource(_, _) => 3
    case AtUse(_, _, _, _) => 2
    case AtCertificate(_, _, _, _) => 1
    case _ => 0
  }

  /** From a stage to the end. */
  ghost function Rest(lib: Lib, clientID: Id, req: Request, saw: Saw, stage: Stage): (end: Stage)
    ensures !AtRead(end)
    decreases Ahead(stage)
  {
    if AtRead(stage) then Rest(lib, clientID, req, saw, ReadOn(lib, Reading(saw, stage), clientID, req, stage))
    else stage
  }

  ghost function Decide(lib: Lib, clientID: Id, req: Request, saw: Saw): Stage {
    Rest(lib, clientID, req, saw, Opened(req))
  }

  // ----- The chain grants exactly what is authorized -----

  lemma {:induction false} UnusableIff(lib: Lib, origins: seq<string>)
    ensures FirstUnusable(lib, origins) == None <==> forall o :: o in origins ==> lib.webOrigin(o)
    ensures FirstUnusable(lib, origins).Some? ==>
              FirstUnusable(lib, origins).value in origins && !lib.webOrigin(FirstUnusable(lib, origins).value)
  {
    if origins != [] && lib.webOrigin(origins[0]) {
      UnusableIff(lib, origins[1..]);
      assert origins == [origins[0]] + origins[1..];
    }
  }

  lemma TargetsIff(lib: Lib, row: Client, req: Request, c: Create)
    requires c.redirectURI == req.redirectURI
    requires c.webhookURL == if req.webhookURL != "" then req.webhookURL else row.defaultWebhook
    requires c.expectedOrigins == if c.flow == DcApi then row.allowedOrigins else []
    ensures TargetFault(lib, row, req, c.flow) == None <==> Targets(lib, row, req, c)
  {
    UnusableIff(lib, row.allowedOrigins);
  }

  lemma SourcedIff(reg: Reg, clientID: Id, req: Request, flow: Flow, row: Client, query: string, target: string)
    requires req.templateID != "" || req.intendedUseID == ""
    ensures WithSource(reg, clientID, req, flow, row) == AtUse(flow, row, query, target) <==>
            Sourced(reg, clientID, req, query, target)
  {
  }

  /** What the request and the client's row make of a create, besides query, certificate and reference. */
  predicate Shaped(lib: Lib, clientID: Id, req: Request, flow: Flow, row: Client, c: Create) {
    && c.clientID == clientID && c.flow == flow && c.policy == row.policy && c.redirectURI == req.redirectURI
    && c.webhookURL == (if req.webhookURL != "" then req.webhookURL else row.defaultWebhook)
    && c.expectedOrigins == (if flow == DcApi then row.allowedOrigins else [])
    && c.ttlSeconds == (if req.ttlSeconds == 0 then lib.defaultTTL else req.ttlSeconds)
  }

  lemma FromCertificate(
    lib: Lib, clientID: Id, req: Request, saw: Saw, flow: Flow, row: Client, query: string, target: string, c: Create)
    ensures Rest(lib, clientID, req, saw, AtCertificate(flow, row, query, target)) == Ready(c) <==>
      && c.dcqlQuery == query && Shaped(lib, clientID, req, flow, row, c)
      && GetWRPRC(saw.certificate, clientID, target) == Ok(c.wrprc)
      && lib.reference(row.name, row.clientIdentifier, row.registryURI, target) == Some(c.registration)
  {
  }

  lemma FromUse(
    lib: Lib, clientID: Id, req: Request, saw: Saw, flow: Flow, row: Client, query: string, target: string, c: Create)
    ensures Rest(lib, clientID, req, saw, AtUse(flow, row, query, target)) == Ready(c) <==>
      && Covers(lib, saw.use, clientID, target, query) && TargetFault(lib, row, req, flow) == None
      && Rest(lib, clientID, req, saw, AtCertificate(flow, row, query, target)) == Ready(c)
  {
  }

  lemma FromRow(lib: Lib, clientID: Id, req: Request, saw: Saw, flow: Flow, row: Client, c: Create, target: string)
    requires clientID in saw.client.clients && row == saw.client.clients[clientID]
    ensures Shaped(lib, clientID, req, flow, row, c) ==>
      ((Sourced(saw.source, clientID, req, c.dcqlQuery, target) &&
        Rest(lib, clientID, req, saw, AtUse(flow, row, c.dcqlQuery, target)) == Ready(c))
       <==> AuthorizedFor(lib, clientID, req, saw, c, target))
  {
    FromUse(lib, clientID, req, saw, flow, row, c.dcqlQuery, target, c);
    FromCertificate(lib, clientID, req, saw, flow, row, c.dcqlQuery, target, c);
    if Shaped(lib, clientID, req, flow, row, c) { TargetsIff(lib, row, req, c); }
  }

  /**
   * The guard chain grants a create if and only if it is the authorized one: whatever the four reads found, nothing
   * unauthorized passes and nothing authorized is refused.
   */
  lemma GrantedIffAuthorized(lib: Lib, clientID: Id, req: Request, saw: Saw, c: Create)
    ensures Decide(lib, clientID, req, saw) == Ready(c) <==> Authorized(lib, clientID, req, saw, c)
  {
    if Authorized(lib, clientID, req, saw, c) {
      AuthorizedIsGranted(lib, clientID, req, saw, c);
    }
    if Decide(lib, clientID, req, saw) == Ready(c) {
      GrantedIsAuthorized(lib, clientID, req, saw, c);
    }
  }

  lemma AuthorizedIsGranted(lib: Lib, clientID: Id, req: Request, saw: Saw, c: Create)
    requires Authorized(lib, clientID, req, saw, c)
    ensures Decide(lib, clientID, req, saw) == Ready(c)
  {
    var target :| AuthorizedFor(lib, clientID, req, saw, c, target);
    var row := saw.client.clients[clientID];
    FromRow(lib, clientID, req, saw, c.flow, row, c, target);
    if req.templateID != "" || req.intendedUseID == "" {
      SourcedIff(saw.source, clientID, req, c.flow, row, c.dcqlQuery, target);
    }
  }

  lemma GrantedIsAuthorized(lib: Lib, clientID: Id, req: Request, saw: Saw, c: Create)
    requires Decide(lib, clientID, req, saw) == Ready(c)
    ensures Authorized(lib, clientID, req, saw, c)
  {
    var flow := FlowOf(req.flow).value;
    var row := saw.client.clients[clientID];
    var stage := if req.templateID != "" || req.intendedUseID == ""
                 then WithSource(saw.source, clientID, req, flow, row)
                 else AtUse(flow, row, req.dcqlQuery, req.intendedUseID);
    assert Rest(lib, clientID, req, saw, stage) == Ready(c);
    var AtUse(_, _, query, target) := stage;
    FromUse(lib, clientID, req, saw, flow, row, query, target, c);
    FromCertificate(lib, clientID, req, saw, flow, row, query, target, c);
    FromRow(lib, clientID, req, saw, flow, row, c, target);
    if req.templateID != "" || req.intendedUseID == "" {
      SourcedIff(saw.source, clientID, req, flow, row, query, target);
    }
    assert AuthorizedFor(lib, clientID, req, saw, c, target);
  }

  // ----- Other tenants -----

  /** A mint depends on the client's own rows only, so foreign and absent ids cannot be told apart through it. */
  lemma MintDependsOnView(lib: Lib, clientID: Id, req: Request, saw: Saw, saw': Saw)
    requires Tenancy.ViewOf(saw.client, clientID) == Tenancy.ViewOf(saw'.client, clientID)
    requires Tenancy.ViewOf(saw.source, clientID) == Tenancy.ViewOf(saw'.source, clientID)
    requires Tenancy.ViewOf(saw.use, clientID) == Tenancy.ViewOf(saw'.use, clientID)
    requires Tenancy.ViewOf(saw.certificate, clientID) == Tenancy.ViewOf(saw'.certificate, clientID)
    ensures Decide(lib, clientID, req, saw) == Decide(lib, clientID, req, saw')
  {
    SameRest(lib, clientID, req, saw, saw', Opened(req));
  }

  lemma {:induction false} SameRest(lib: Lib, clientID: Id, req: Request, saw: Saw, saw': Saw, stage: Stage)
    requires Tenancy.ViewOf(saw.client, clientID) == Tenancy.ViewOf(saw'.client, clientID)
    requires Tenancy.ViewOf(saw.source, clientID) == Tenancy.ViewOf(saw'.source, clientID)
    requires Tenancy.ViewOf(saw.use, clientID) == Tenancy.ViewOf(saw'.use, clientID)
    requires Tenancy.ViewOf(saw.certificate, clientID) == Tenancy.ViewOf(saw'.certificate, clientID)
    ensures Rest(lib, clientID, req, saw, stage) == Rest(lib, clientID, req, saw', stage)
    decreases Ahead(stage)
  {
    if AtRead(stage) {
      SameRead(lib, Reading(saw, stage), Reading(saw', stage), clientID, req, stage);
      SameRest(lib, clientID, req, saw, saw', ReadOn(lib, Reading(saw, stage), clientID, req, stage));
    }
  }

  lemma SameRead(lib: Lib, reg: Reg, reg': Reg, clientID: Id, req: Request, stage: Stage)
    requires AtRead(stage)
    requires Tenancy.ViewOf(reg, clientID) == Tenancy.ViewOf(reg', clientID)
    ensures ReadOn(lib, reg, clientID, req, stage) == ReadOn(lib, reg', clientID, req, stage)
  {
    match stage
    case AtClient(_) => Tenancy.AnswersDependOnView(reg, reg', clientID, Tenancy.QClient);
    case AtSource(_, _) =>
      Tenancy.AnswersDependOnView(reg, reg', clientID, Tenancy.QUses);
      Tenancy.AnswersDependOnView(reg, reg', clientID, Tenancy.QTemplate(req.templateID));
    case AtUse(_, _, _, target) => Tenancy.AnswersDependOnView(reg, reg', clientID, Tenancy.QUse(target));
    case AtCertificate(_, _, _, target) => Tenancy.AnswersDependOnView(reg, reg', clientID, Tenancy.QWRPRC(target));
  }

  /** Whatever other clients do with their templates and intended uses, a client's mint comes out the same. */
  lemma OthersCannotAffectMint(lib: Lib, reg: Reg, ops: seq<Op>, clientID: Id, req: Request)
    requires Consistent(reg)
    requires forall i :: 0 <= i < |ops| ==> Tenancy.ByClient(ops[i]) && ops[i].clientID != clientID
    ensures var reg' := Tenancy.PerformAll(reg, ops);
      Decide(lib, clientID, req, Saw(reg', reg', reg', reg')) == Decide(lib, clientID, req, Saw(reg, reg, reg, reg))
  {
    var reg' := Tenancy.PerformAll(reg, ops);
    Tenancy.Isolation(reg, ops, clientID, Tenancy.QUses);
    MintDependsOnView(lib, clientID, req, Saw(reg', reg', reg', reg'), Saw(reg, reg, reg, reg));
  }
}
