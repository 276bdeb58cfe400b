/**
 * Minting and template writing as a protocol: any number of requests, each a few registry reads apart, while the
 * registration service rewrites clients and intended uses, and clients write and delete templates.
 */
module MintProtocol {
  import opened Common
  import opened Registry
  import opened Minting
  import opened Refusals

  /** `saw` keeps the registry each read of the request found. */
  datatype Job = Job(clientID: Id, req: Request, saw: Saw, stage: Stage)

  datatype WriteStage = AtCheck | AtWrite | Written(id: Id) | Refused(why: Refusal)

  /** A createTemplate request; `seen` is the registry its check read. */
  datatype Writer = Writer(clientID: Id, t: TemplateNew, seen: Reg, stage: WriteStage)

  /** History: for every template the registry its check saw and the one it was written to. */
  datatype Birth = Birth(checked: Reg, wrote: Reg)

  datatype State = State(reg: Reg, jobs: map<nat, Job>, writers: map<nat, Writer>, births: map<Id, Birth>)

  datatype Action =
    | Change(op: Op)
    | Ask(j: nat, clientID: Id, req: Request)
    | Read(j: nat, ok: bool)
    | Send(j: nat)
    | Propose(w: nat, clientID: Id, t: TemplateNew)
    | Check(w: nat, ok: bool)
    | Write(w: nat, ok: bool)

  /** Templates come from createTemplate only. */
  predicate Enabled(s: State, a: Action) {
    match a
    case Change(op) => !op.OpCreateTemplate?
    case Ask(j, _, _) => j !in s.jobs
    case Read(j, _) => j in s.jobs && AtRead(s.jobs[j].stage)
    case Send(j) => j in s.jobs && s.jobs[j].stage.Ready?
    case Propose(w, _, _) => w !in s.writers
    case Check(w, _) => w in s.writers && s.writers[w].stage == AtCheck
    case Write(w, _) => w in s.writers && s.writers[w].stage == AtWrite
  }

  function SawNow(saw: Saw, stage: Stage, reg: Reg): Saw
    requires AtRead(stage)
  {
    match stage
    case AtClient(_) => saw.(client := reg)
    case AtSource(_, _) => saw.(source := reg)
    case AtUse(_, _, _, _) => saw.(use := reg)
    case AtCertificate(_, _, _, _) => saw.(certificate := reg)
  }

  ghost function AfterRead(lib: Lib, reg: Reg, job: Job, ok: bool): Job
    requires AtRead(job.stage)
  {
    job.(saw := SawNow(job.saw, job.stage, reg),
         stage := if ok then ReadOn(lib, reg, job.clientID, job.req, job.stage) else Stopped(StoreFailed))
  }

  /** The body needs a name, a query and an intended use. */
  function Proposed(t: TemplateNew): WriteStage {
    if t.name == "" || t.intendedUseID == "" || t.dcqlQuery == "" then Refused(BadPresentation) else AtCheck
  }

  /** createTemplate's write-time check. */
  function Checked(lib: Lib, reg: Reg, clientID: Id, t: TemplateNew): WriteStage {
    match GetIntendedUse(reg, clientID, t.intendedUseID)
    case Err(_) => Refused(Absent)
    case Ok(iu) =>
      if iu.revokedAt != "" then Refused(Revoked)
      else
        match lib.scope(t.dcqlQuery, iu.credentials)
        case Exceeded(offending) => Refused(OutOfScope(offending))
        case Unparsable => Refused(BadQuery)
        case Broken => Refused(ScopeFailed)
        case Within => AtWrite
  }

  function WriteOutcome(r: Result<Id, Error>): WriteStage {
    match r
    case Ok(id) => Written(id)
    case Err(UseRevoked) => Refused(Revoked)
    case Err(_) => Refused(Absent)
  }

  function ApplyWrite(s: State, w: nat): State
    requires w in s.writers
  {
    var wr := s.writers[w];
    var (reg', r) := CreateTemplate(s.reg, wr.clientID, wr.t);
    State(reg', s.jobs, s.writers[w := wr.(stage := WriteOutcome(r))],
          if r.Ok? then s.births[r.value := Birth(wr.seen, reg')] else s.births)
  }

  ghost function Apply(lib: Lib, s: State, a: Action): State
    requires Enabled(s, a)
  {
    match a
    case Change(op) => s.(reg := Perform(s.reg, op))
    case Ask(j, clientID, req) =>
      s.(jobs := s.jobs[j := Job(clientID, req, Saw(s.reg, s.reg, s.reg, s.reg), Opened(req))])
    case Read(j, ok) => s.(jobs := s.jobs[j := AfterRead(lib, s.reg, s.jobs[j], ok)])
    case Send(j) => s.(jobs := s.jobs[j := s.jobs[j].(stage := Sent(s.jobs[j].stage.create))])
    case Propose(w, clientID, t) => s.(writers := s.writers[w := Writer(clientID, t, s.reg, Proposed(t))])
    case Check(w, ok) =>
      var wr := s.writers[w];
      s.(writers := s.writers[w := wr.(
        seen := s.reg, stage := if ok then Checked(lib, s.reg, wr.clientID, wr.t) else Refused(StoreFailed))])
    case Write(w, ok) =>
      if ok then ApplyWrite(s, w) else s.(writers := s.writers[w := s.writers[w].(stage := Refused(StoreFailed))])
  }

  // ----- The invariant -----

  /** The same up to the reads a stage has behind it. */
  predicate Agree(a: Saw, b: Saw, stage: Stage) {
    && (Ahead(stage) < 4 ==> a.client == b.client)
    && (Ahead(stage) < 3 ==> a.source == b.source)
    && (Ahead(stage) < 2 ==> a.use == b.use)
    && (Ahead(stage) < 1 ==> a.certificate == b.certificate)
  }

  function Granted(stage: Stage): Stage {
    if stage.Sent? then Ready(stage.create) else stage
  }

  /**
   * A request stands where the guard chain would take it from what it has read so far, whatever it reads from here on;
   * a refusal for any reason but a failing store is the chain's own.
   */
  ghost predicate JobOk(lib: Lib, job: Job) {
    job.stage != Stopped(StoreFailed) ==>
      forall later :: Agree(job.saw, later, job.stage) ==>
        Decide(lib, job.clientID, job.req, later) == Rest(lib, job.clientID, job.req, later, Granted(job.stage))
  }

  ghost predicate WriterOk(lib: Lib, wr: Writer) {
    wr.stage == AtWrite || wr.stage.Written? ==> Covers(lib, wr.seen, wr.clientID, wr.t.intendedUseID, wr.t.dcqlQuery)
  }

  /** A template was in scope when checked, and its use was in place when it was written. */
  ghost predicate BirthOk(lib: Lib, row: Template, b: Birth) {
    && Covers(lib, b.checked, row.clientID, row.t.intendedUseID, row.t.dcqlQuery)
    && GetIntendedUse(b.wrote, row.clientID, row.t.intendedUseID).Ok?
    && GetIntendedUse(b.wrote, row.clientID, row.t.intendedUseID).value.revokedAt == ""
  }

  /** Templates of an earlier registry: still there, with the same owner and content, and deleted ones still deleted. */
  ghost predicate Kept(before: Reg, reg: Reg) {
    forall id :: id in before.templates ==>
      && id in reg.templates && reg.templates[id].clientID == before.templates[id].clientID
      && reg.templates[id].t == before.templates[id].t && (before.templates[id].deleted ==> reg.templates[id].deleted)
  }

  ghost predicate Inv(lib: Lib, s: State) {
    && Consistent(s.reg)
    && (forall j :: j in s.jobs ==> JobOk(lib, s.jobs[j]) && Kept(s.jobs[j].saw.source, s.reg))
    && (forall w :: w in s.writers ==> WriterOk(lib, s.writers[w]))
    && (forall id :: id in s.reg.templates ==> id in s.births && BirthOk(lib, s.reg.templates[id], s.births[id]))
  }

  // ----- Every step keeps it -----

  lemma ReadKeepsJob(lib: Lib, reg: Reg, job: Job, ok: bool)
    requires JobOk(lib, job) && AtRead(job.stage)
    ensures JobOk(lib, AfterRead(lib, reg, job, ok))
  {
    var job' := AfterRead(lib, reg, job, ok);
    if job'.stage != Stopped(StoreFailed) {
      ReadGoesAhead(lib, reg, job.clientID, job.req, job.stage);
      forall later | Agree(job'.saw, later, job'.stage)
        ensures Decide(lib, job.clientID, job.req, later) ==
                Rest(lib, job.clientID, job.req, later, Granted(job'.stage))
      {
        assert Agree(job.saw, later, job.stage);
        assert Reading(later, job.stage) == reg;
      }
    }
  }

  lemma ReadGoesAhead(lib: Lib, reg: Reg, clientID: Id, req: Request, stage: Stage)
    requires AtRead(stage)
    ensures var stage' := ReadOn(lib, reg, clientID, req, stage);
      Ahead(stage') < Ahead(stage) && !stage'.Sent? && stage' != Stopped(StoreFailed)
  {
  }

  lemma OpenedOk(lib: Lib, clientID: Id, req: Request, saw: Saw)
    ensures JobOk(lib, Job(clientID, req, saw, Opened(req)))
  {
  }

  lemma SendKeepsJob(lib: Lib, job: Job)
    requires JobOk(lib, job) && job.stage.Ready?
    ensures JobOk(lib, job.(stage := Sent(job.stage.create)))
  {
  }

  lemma PerformKeepsTemplates(reg: Reg, op: Op)
    requires Consistent(reg)
    ensures Kept(reg, Perform(reg, op))
    ensures !op.OpCreateTemplate? ==> Perform(reg, op).templates.Keys == reg.templates.Keys
  {
    NextIsFresh(reg);
  }

  lemma KeptTransitive(a: Reg, b: Reg, c: Reg)
    requires Kept(a, b) && Kept(b, c)
    ensures Kept(a, c)
  {
  }

  /** The registry moves on: requests in progress, the writers and the records of templates are unaffected. */
  lemma RegistryMoves(lib: Lib, s: State, reg': Reg)
    requires Inv(lib, s) && Consistent(reg') && Kept(s.reg, reg') && reg'.templates.Keys == s.reg.templates.Keys
    ensures Inv(lib, s.(reg := reg'))
  {
    JobsKept(lib, s, reg');
  }

  lemma ChangeKeeps(lib: Lib, s: State, op: Op)
    requires Inv(lib, s) && !op.OpCreateTemplate?
    ensures Inv(lib, Apply(lib, s, Change(op)))
  {
    PerformConsistent(s.reg, op);
    PerformKeepsTemplates(s.reg, op);
    RegistryMoves(lib, s, Perform(s.reg, op));
  }

  lemma JobKeeps(lib: Lib, s: State, j: nat, job: Job)
    requires Inv(lib, s) && JobOk(lib, job) && Kept(job.saw.source, s.reg)
    ensures Inv(lib, s.(jobs := s.jobs[j := job]))
  {
  }

  lemma WriteKeeps(lib: Lib, s: State, w: nat)
    requires Inv(lib, s) && w in s.writers && s.writers[w].stage == AtWrite
    ensures Inv(lib, ApplyWrite(s, w))
  {
    var wr := s.writers[w];
    var op := OpCreateTemplate(wr.clientID, wr.t);
    PerformConsistent(s.reg, op);
    PerformKeepsTemplates(s.reg, op);
    JobsKept(lib, s, Perform(s.reg, op));
    WriteShape(lib, s, w);
    BirthsOk(lib, s, w);
  }

  lemma JobsKept(lib: Lib, s: State, reg': Reg)
    requires Inv(lib, s) && Kept(s.reg, reg')
    ensures forall j :: j in s.jobs ==> Kept(s.jobs[j].saw.source, reg')
  {
  }

  lemma WriteShape(lib: Lib, s: State, w: nat)
    requires w in s.writers && s.writers[w].stage == AtWrite
    requires forall x :: x in s.writers ==> WriterOk(lib, s.writers[x])
    ensures var wr, s' := s.writers[w], ApplyWrite(s, w);
      && s'.reg == Perform(s.reg, OpCreateTemplate(wr.clientID, wr.t)) && s'.jobs == s.jobs
      && forall x :: x in s'.writers ==> WriterOk(lib, s'.writers[x])
  {
  }

  lemma BirthsOk(lib: Lib, s: State, w: nat)
    requires Inv(lib, s) && w in s.writers && s.writers[w].stage == AtWrite
    ensures var s' := ApplyWrite(s, w);
      forall id :: id in s'.reg.templates ==> id in s'.births && BirthOk(lib, s'.reg.templates[id], s'.births[id])
  {
  }

  lemma InvStep(lib: Lib, s: State, a: Action)
    requires Inv(lib, s) && Enabled(s, a)
    ensures Inv(lib, Apply(lib, s, a))
  {
    match a
    case Change(op) => ChangeKeeps(lib, s, op);
    case Ask(j, clientID, req) =>
      OpenedOk(lib, clientID, req, Saw(s.reg, s.reg, s.reg, s.reg));
      JobKeeps(lib, s, j, Job(clientID, req, Saw(s.reg, s.reg, s.reg, s.reg), Opened(req)));
    case Read(j, ok) =>
      ReadKeepsJob(lib, s.reg, s.jobs[j], ok);
      JobKeeps(lib, s, j, AfterRead(lib, s.reg, s.jobs[j], ok));
    case Send(j) =>
      SendKeepsJob(lib, s.jobs[j]);
      JobKeeps(lib, s, j, s.jobs[j].(stage := Sent(s.jobs[j].stage.create)));
    case Write(w, true) => WriteKeeps(lib, s, w);
    case _ => WritersKeep(lib, s, a);
  }

  lemma WritersKeep(lib: Lib, s: State, a: Action)
    requires Inv(lib, s) && Enabled(s, a) && (a.Propose? || a.Check? || (a.Write? && !a.ok))
    ensures Inv(lib, Apply(lib, s, a))
  {
  }

  // ----- Runs -----

  ghost predicate Init(s: State) {
    s.reg == EMPTY && s.jobs == map[] && s.writers == map[] && s.births == map[]
  }

  ghost predicate CanRun(lib: Lib, s: State, acts: seq<Action>)
    decreases |acts|
  {
    acts == [] || (Enabled(s, acts[0]) && CanRun(lib, Apply(lib, s, acts[0]), acts[1..]))
  }

  ghost function Run(lib: Lib, s: State, acts: seq<Action>): State
    requires CanRun(lib, s, acts)
    decreases |acts|
  {
    if acts == [] then s else Run(lib, Apply(lib, s, acts[0]), acts[1..])
  }

  lemma {:induction false} RunInv(lib: Lib, s: State, acts: seq<Action>)
    requires Inv(lib, s) && CanRun(lib, s, acts)
    ensures Inv(lib, Run(lib, s, acts))
    decreases |acts|
  {
    if acts != [] {
      InvStep(lib, s, acts[0]);
      RunInv(lib, Apply(lib, s, acts[0]), acts[1..]);
    }
  }

  // ----- Theorems -----

  /**
   * What the engine is asked to create is, in every run, exactly what the registry as read by that request authorizes.
   */
  lemma CreatesAreAuthorized(lib: Lib, s0: State, acts: seq<Action>, j: nat)
    requires Init(s0) && CanRun(lib, s0, acts) && j in Run(lib, s0, acts).jobs
    requires Run(lib, s0, acts).jobs[j].stage.Sent?
    ensures var job := Run(lib, s0, acts).jobs[j]; Authorized(lib, job.clientID, job.req, job.saw, job.stage.create)
  {
    RunInv(lib, s0, acts);
    var job := Run(lib, s0, acts).jobs[j];
    assert Agree(job.saw, job.saw, job.stage);
    GrantedIffAuthorized(lib, job.clientID, job.req, job.saw, job.stage.create);
  }

  /**
   * And a request is refused, unless the store failed, only if the registry as it read it authorizes no create at all;
   * and the refusal it gets is the one it has the cause for.
   */
  lemma RefusalsAreDue(lib: Lib, s0: State, acts: seq<Action>, j: nat, c: Create)
    requires Init(s0) && CanRun(lib, s0, acts) && j in Run(lib, s0, acts).jobs
    requires var stage := Run(lib, s0, acts).jobs[j].stage; stage.Stopped? && stage != Stopped(StoreFailed)
    ensures var job := Run(lib, s0, acts).jobs[j];
      && !Authorized(lib, job.clientID, job.req, job.saw, c)
      && Cause(lib, job.clientID, job.req, job.saw, job.stage.why)
  {
    RunInv(lib, s0, acts);
    var job := Run(lib, s0, acts).jobs[j];
    assert Agree(job.saw, job.saw, job.stage);
    GrantedIffAuthorized(lib, job.clientID, job.req, job.saw, c);
    RefusedIff(lib, job.clientID, job.req, job.saw, job.stage.why);
  }

  /** `saw` is what it says: a read records the registry of its own moment, and no other step touches the record. */
  lemma ReadsAreCurrent(lib: Lib, s: State, a: Action, j: nat)
    requires Enabled(s, a) && j in s.jobs
    ensures j in Apply(lib, s, a).jobs
    ensures var job, job' := s.jobs[j], Apply(lib, s, a).jobs[j];
      && job'.clientID == job.clientID && job'.req == job.req
      && job'.saw == if a.Read? && a.j == j then SawNow(job.saw, job.stage, s.reg) else job.saw
  {
  }

  /** So are the records of templates: the registry of the check, and the one the write left. */
  lemma BirthsAreCurrent(lib: Lib, s: State, a: Action, w: nat)
    requires Enabled(s, a) && w in s.writers
    ensures w in Apply(lib, s, a).writers
    ensures Apply(lib, s, a).writers[w].seen == if a.Check? && a.w == w then s.reg else s.writers[w].seen
    ensures var s' := Apply(lib, s, a);
      if a.Write? && s'.writers[a.w].stage.Written?
      then s'.births == s.births[s'.writers[a.w].stage.id := Birth(s.writers[a.w].seen, s'.reg)]
      else s'.births == s.births
  {
  }

  /**
   * A template gives no exemption: a session minted from one needs, besides the check made when it was written, that
   * at the time of its own read the intended use is still the client's, unrevoked, and covers the template's query.
   */
  lemma TemplateGivesNoExemption(lib: Lib, s0: State, acts: seq<Action>, j: nat)
    requires Init(s0) && CanRun(lib, s0, acts) && j in Run(lib, s0, acts).jobs
    requires var job := Run(lib, s0, acts).jobs[j]; job.stage.Sent? && job.req.templateID != ""
    ensures var s := Run(lib, s0, acts); var job := s.jobs[j]; var id := job.req.templateID;
      && id in s.reg.templates && id in s.births
      && s.reg.templates[id].clientID == job.clientID
      && HasTemplate(job.saw.source, job.clientID, id)
      && var t := s.reg.templates[id].t;
        && job.stage.create.dcqlQuery == t.dcqlQuery
        && Covers(lib, s.births[id].checked, job.clientID, t.intendedUseID, t.dcqlQuery)
        && Covers(lib, job.saw.use, job.clientID, t.intendedUseID, t.dcqlQuery)
  {
    CreatesAreAuthorized(lib, s0, acts, j);
    RunInv(lib, s0, acts);
    var s := Run(lib, s0, acts);
    var job := s.jobs[j];
    var target :| AuthorizedFor(lib, job.clientID, job.req, job.saw, job.stage.create, target);
    assert Kept(job.saw.source, s.reg);
    assert BirthOk(lib, s.reg.templates[job.req.templateID], s.births[job.req.templateID]);
  }

  /** The request has not read its template yet. */
  predicate TemplateUnread(s: State, j: nat) {
    j in s.jobs ==> s.jobs[j].stage.AtClient? || s.jobs[j].stage.AtSource?
  }

  predicate NeverPast(s: State, j: nat, id: Id) {
    j in s.jobs && s.jobs[j].req.templateID == id ==>
      s.jobs[j].stage.AtClient? || s.jobs[j].stage.AtSource? || s.jobs[j].stage.Stopped?
  }

  lemma NeverPastStep(lib: Lib, s: State, a: Action, j: nat, id: Id)
    requires Enabled(s, a) && NeverPast(s, j, id) && id != "" && id in s.reg.templates && s.reg.templates[id].deleted
    ensures NeverPast(Apply(lib, s, a), j, id)
  {
  }

  lemma {:induction false} NeverPastRun(lib: Lib, s: State, acts: seq<Action>, j: nat, id: Id)
    requires Inv(lib, s) && CanRun(lib, s, acts) && NeverPast(s, j, id)
    requires id != "" && id in s.reg.templates && s.reg.templates[id].deleted
    ensures NeverPast(Run(lib, s, acts), j, id)
    decreases |acts|
  {
    if acts != [] {
      NeverPastStep(lib, s, acts[0], j, id);
      StepKeepsTemplates(lib, s, acts[0]);
      InvStep(lib, s, acts[0]);
      NeverPastRun(lib, Apply(lib, s, acts[0]), acts[1..], j, id);
    }
  }

  /**
   * A deleted template mints nothing: a request that had not read it by then, or was not there yet, never gets the
   * engine called, in any continuation.
   */
  lemma DeletedTemplateMintsNothing(lib: Lib, s: State, acts: seq<Action>, j: nat)
    requires Inv(lib, s) && CanRun(lib, s, acts) && TemplateUnread(s, j) && j in Run(lib, s, acts).jobs
    requires var id := Run(lib, s, acts).jobs[j].req.templateID;
      id != "" && id in s.reg.templates && s.reg.templates[id].deleted
    ensures var stage := Run(lib, s, acts).jobs[j].stage; !stage.Ready? && !stage.Sent?
  {
    NeverPastRun(lib, s, acts, j, Run(lib, s, acts).jobs[j].req.templateID);
  }

  /** Through every run a template id stays bound to its owner and content, and a deleted template stays deleted. */
  lemma {:induction false} RunKeepsTemplates(lib: Lib, s: State, acts: seq<Action>)
    requires Inv(lib, s) && CanRun(lib, s, acts)
    ensures Kept(s.reg, Run(lib, s, acts).reg)
    decreases |acts|
  {
    if acts != [] {
      StepKeepsTemplates(lib, s, acts[0]);
      InvStep(lib, s, acts[0]);
      RunKeepsTemplates(lib, Apply(lib, s, acts[0]), acts[1..]);
      KeptTransitive(s.reg, Apply(lib, s, acts[0]).reg, Run(lib, s, acts).reg);
    }
  }

  lemma StepKeepsTemplates(lib: Lib, s: State, a: Action)
    requires Consistent(s.reg) && Enabled(s, a)
    ensures Kept(s.reg, Apply(lib, s, a).reg)
  {
    match a
    case Change(op) => PerformKeepsTemplates(s.reg, op);
    case Write(w, true) => PerformKeepsTemplates(s.reg, OpCreateTemplate(s.writers[w].clientID, s.writers[w].t));
    case _ =>
  }

  // ----- A stored template can outrun the registration -----

  /** A scope judgement under which the given credentials cover everything, and all others nothing. */
  function OnlyFor(credentials: string): Lib {
    Lib((_, c) => if c == credentials then Within else Exceeded([]),
        _ => None, _ => false, x => x, (_, _, _, _) => None, 0)
  }

  /**
   * The check reads the intended use, the write does not look at its scope again. So a template that passed the check
   * is sure to be within the registration when written if and only if the use's credentials are still those checked.
   */
  lemma WrittenWithinScopeIff(seen: Reg, reg: Reg, clientID: Id, t: TemplateNew)
    requires GetIntendedUse(seen, clientID, t.intendedUseID).Ok?
    requires GetIntendedUse(seen, clientID, t.intendedUseID).value.revokedAt == ""
    requires CreateTemplate(reg, clientID, t).1.Ok?
    ensures (forall lib :: Checked(lib, seen, clientID, t) == AtWrite ==>
              Covers(lib, CreateTemplate(reg, clientID, t).0, clientID, t.intendedUseID, t.dcqlQuery)) <==>
            reg.uses[clientID][t.intendedUseID].credentials == seen.uses[clientID][t.intendedUseID].credentials
  {
    var only := OnlyFor(seen.uses[clientID][t.intendedUseID].credentials);
    assert Checked(only, seen, clientID, t) == AtWrite;
  }

  lemma RunCons(lib: Lib, s: State, a: Action, rest: seq<Action>)
    requires Enabled(s, a) && CanRun(lib, Apply(lib, s, a), rest)
    ensures CanRun(lib, s, [a] + rest) && Run(lib, s, [a] + rest) == Run(lib, Apply(lib, s, a), rest)
  {
    assert ([a] + rest)[1..] == rest;
  }

  lemma {:induction false} RunAppend(lib: Lib, s: State, a: seq<Action>, b: seq<Action>)
    requires CanRun(lib, s, a) && CanRun(lib, Run(lib, s, a), b)
    ensures CanRun(lib, s, a + b) && Run(lib, s, a + b) == Run(lib, Run(lib, s, a), b)
    decreases |a|
  {
    if a == [] {
      assert a + b == b;
    } else {
      assert (a + b)[1..] == a[1..] + b;
      RunAppend(lib, Apply(lib, s, a[0]), a[1..], b);
    }
  }

  function UseOf(credentials: string): IntendedUse {
    IntendedUse("row", "use", "", credentials)
  }

  const NOTED := TemplateNew("name", "", "use", "query")

  lemma OneUse(reg: Reg, credentials: string)
    ensures Perform(reg, OpSetUses("client", [UseOf(credentials)])) ==
            reg.(uses := reg.uses["client" := map["use" := UseOf(credentials)]])
  {
    var ius := [UseOf(credentials)];
    assert ius[..0] == [] && Rows([], reg.counter) == (map[], reg.counter);
  }

  /**
   * A run in which the registration is narrowed between the check and the write: the stored template was within it
   * when checked and is outside it from the start.
   */
  lemma TemplateOutruns() returns (lib: Lib, s0: State, acts: seq<Action>, id: Id)
    ensures Init(s0) && CanRun(lib, s0, acts)
    ensures var s := Run(lib, s0, acts);
      && id in s.reg.templates && id in s.births && s.reg.templates[id] == Template("client", NOTED, false)
      && Covers(lib, s.births[id].checked, "client", NOTED.intendedUseID, NOTED.dcqlQuery)
      && !Covers(lib, s.reg, "client", NOTED.intendedUseID, NOTED.dcqlQuery)
  {
    lib := OnlyFor("wide");
    s0 := State(EMPTY, map[], map[], map[]);
    OneUse(s0.reg, "wide");
    var widen, narrow := Change(OpSetUses("client", [UseOf("wide")])), Change(OpSetUses("client", [UseOf("narrow")]));
    var s1 := Apply(lib, s0, widen);
    var s2 := Apply(lib, s1, Propose(0, "client", NOTED));
    var s3 := Apply(lib, s2, Check(0, true));
    OneUse(s3.reg, "narrow");
    var s4 := Apply(lib, s3, narrow);
    var last := [Write(0, true)] + [];
    RunCons(lib, s4, Write(0, true), []);
    RunCons(lib, s3, narrow, last);
    RunCons(lib, s2, Check(0, true), [narrow] + last);
    RunCons(lib, s1, Propose(0, "client", NOTED), [Check(0, true)] + ([narrow] + last));
    acts := [widen] + ([Propose(0, "client", NOTED)] + ([Check(0, true)] + ([narrow] + last)));
    RunCons(lib, s0, widen, [Propose(0, "client", NOTED)] + ([Check(0, true)] + ([narrow] + last)));
    id := MintedId(1);
  }
}
