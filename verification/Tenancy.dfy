/**
 * Tenant isolation: what a client can read or delete depends on its own rows only, and no other client can touch them.
 */
module Tenancy {
  import opened Common
  import opened Registry

  /** The rows one client can see. */
  datatype View = View(
    client: Option<Client>, uses: Option<map<string, IntendedUse>>, certificates: map<string, string>,
    templates: map<Id, TemplateNew>)

  function Certificates(reg: Reg, c: Id): map<string, string> {
    map u | u in ListIntendedUses(reg, c) && Certificate(reg, c, u).Some? :: Certificate(reg, c, u).value
  }

  function ViewOf(reg: Reg, c: Id): View {
    View(if c in reg.clients then Some(reg.clients[c]) else None,
         if c in reg.uses then Some(reg.uses[c]) else None,
         Certificates(reg, c),
         ListTemplates(reg, c))
  }

  datatype Query =
    | QClient
    | QUses | QUse(useID: string) | QWRPRC(useID: string)
    | QTemplates | QTemplate(id: Id) | QDelete(id: Id)

  datatype Answer =
    | AClient(client: Result<Client, Error>)
    | AUses(uses: map<string, IntendedUse>)
    | AUse(use: Result<IntendedUse, Error>)
    | AWRPRC(certificate: Result<Option<string>, Error>)
    | ATemplates(templates: map<Id, TemplateNew>)
    | ATemplate(template: Result<TemplateNew, Error>)
    | ADelete(outcome: Result<(), Error>)

  /** What the store answers a client. */
  function Ask(reg: Reg, c: Id, q: Query): Answer {
    match q
    case QClient => AClient(GetClient(reg, c))
    case QUses => AUses(ListIntendedUses(reg, c))
    case QUse(u) => AUse(GetIntendedUse(reg, c, u))
    case QWRPRC(u) => AWRPRC(GetWRPRC(reg, c, u))
    case QTemplates => ATemplates(ListTemplates(reg, c))
    case QTemplate(id) => ATemplate(GetTemplate(reg, c, id))
    case QDelete(id) => ADelete(DeleteTemplate(reg, c, id).1)
  }

  /** Two registries that agree on a client's rows answer it alike, whatever else they hold. */
  lemma AnswersDependOnView(reg: Reg, reg': Reg, c: Id, q: Query)
    requires ViewOf(reg, c) == ViewOf(reg', c)
    ensures Ask(reg, c, q) == Ask(reg', c, q)
  {
    if q.QWRPRC? {
      assert c in reg.uses && q.useID in reg.uses[c] <==> c in reg'.uses && q.useID in reg'.uses[c];
      assert q.useID in Certificates(reg, c) <==> q.useID in Certificates(reg', c);
    }
    if q.QTemplate? || q.QDelete? {
      assert q.id in ListTemplates(reg, c) <==> HasTemplate(reg, c, q.id);
      assert q.id in ListTemplates(reg', c) <==> HasTemplate(reg', c, q.id);
    }
  }

  /** So a template of another client cannot be told from one that does not exist: both are not found. */
  lemma ForeignLooksAbsent(reg: Reg, c: Id, foreign: Id, absent: Id)
    requires foreign in reg.templates && reg.templates[foreign].clientID != c && absent !in reg.templates
    ensures Ask(reg, c, QTemplate(foreign)) == Ask(reg, c, QTemplate(absent)) == ATemplate(Err(NotFound))
    ensures Ask(reg, c, QDelete(foreign)) == Ask(reg, c, QDelete(absent)) == ADelete(Err(NotFound))
    ensures DeleteTemplate(reg, c, foreign).0 == DeleteTemplate(reg, c, absent).0 == reg
  {
  }

  /** The operations on one client's registration, keys, intended uses or templates. */
  predicate ByClient(op: Op) {
    || op.OpEditClient? || op.OpCreateKey? || op.OpRevokeKey?
    || op.OpSetUses? || op.OpCreateTemplate? || op.OpDeleteTemplate?
  }

  lemma OthersKeepTemplate(reg: Reg, op: Op, b: Id, id: Id)
    requires MintedId(reg.counter + 1) !in reg.templates && ByClient(op) && op.clientID != b
    ensures HasTemplate(Perform(reg, op), b, id) <==> HasTemplate(reg, b, id)
    ensures HasTemplate(reg, b, id) ==> Perform(reg, op).templates[id].t == reg.templates[id].t
  {
  }

  lemma OthersKeepUses(reg: Reg, op: Op, b: Id)
    requires ByClient(op) && op.clientID != b
    ensures var reg' := Perform(reg, op);
      && (b in reg'.uses <==> b in reg.uses) && (b in reg.uses ==> reg'.uses[b] == reg.uses[b])
      && (b in reg'.clients <==> b in reg.clients) && (b in reg.clients ==> reg'.clients[b] == reg.clients[b])
      && Certificates(reg', b) == Certificates(reg, b)
  {
    var reg' := Perform(reg, op);
    assert ListIntendedUses(reg', b) == ListIntendedUses(reg, b) && reg'.wrprcs == reg.wrprcs;
    assert forall u :: Certificate(reg', b, u) == Certificate(reg, b, u);
  }

  lemma OthersKeepView(reg: Reg, op: Op, b: Id)
    requires Consistent(reg) && ByClient(op) && op.clientID != b
    ensures ViewOf(Perform(reg, op), b) == ViewOf(reg, b)
  {
    NextIsFresh(reg);
    var reg' := Perform(reg, op);
    forall id
      ensures HasTemplate(reg', b, id) <==> HasTemplate(reg, b, id)
      ensures HasTemplate(reg, b, id) ==> reg'.templates[id].t == reg.templates[id].t
    {
      OthersKeepTemplate(reg, op, b, id);
    }
    assert ListTemplates(reg', b) == ListTemplates(reg, b);
    OthersKeepUses(reg, op, b);
  }

  function PerformAll(reg: Reg, ops: seq<Op>): Reg
    decreases |ops|
  {
    if ops == [] then reg else PerformAll(Perform(reg, ops[0]), ops[1..])
  }

  /** No sequence of operations of other clients changes any answer a client gets. */
  lemma {:induction false} Isolation(reg: Reg, ops: seq<Op>, b: Id, q: Query)
    requires Consistent(reg)
    requires forall i :: 0 <= i < |ops| ==> ByClient(ops[i]) && ops[i].clientID != b
    ensures Consistent(PerformAll(reg, ops))
    ensures ViewOf(PerformAll(reg, ops), b) == ViewOf(reg, b)
    ensures Ask(PerformAll(reg, ops), b, q) == Ask(reg, b, q)
    decreases |ops|
  {
    if ops != [] {
      OthersKeepView(reg, ops[0], b);
      PerformConsistent(reg, ops[0]);
      Isolation(Perform(reg, ops[0]), ops[1..], b, q);
      AnswersDependOnView(PerformAll(reg, ops), reg, b, q);
    }
  }

  /** A template id stays bound to its first owner and content, and a deleted one stays deleted. */
  lemma TemplateBinding(reg: Reg, op: Op, id: Id)
    requires Consistent(reg) && id in reg.templates
    ensures var reg' := Perform(reg, op);
      && id in reg'.templates
      && reg'.templates[id].clientID == reg.templates[id].clientID && reg'.templates[id].t == reg.templates[id].t
      && (reg.templates[id].deleted ==> reg'.templates[id].deleted)
  {
    NextIsFresh(reg);
  }
}
