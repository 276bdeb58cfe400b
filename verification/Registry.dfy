/** The client registry: clients, intended uses, templates and API keys, with every read scoped to one client. */
module Registry {
  import opened Common
  import opened Strings

  type Id = string

  datatype Client = Client(
    status: string, name: string, clientIdentifier: string, registryURI: string,
    allowedOrigins: seq<string>, defaultWebhook: string, policy: string)

  /** `revokedAt` is empty unless the use is revoked; `credentials` is its registered scope. */
  datatype IntendedUse = IntendedUse(rowID: Id, intendedUseID: string, revokedAt: string, credentials: string)

  datatype TemplateNew = TemplateNew(name: string, description: string, intendedUseID: string, dcqlQuery: string)

  datatype Template = Template(clientID: Id, t: TemplateNew, deleted: bool)

  datatype KeyRow = KeyRow(clientID: Id, secretHash: string, revoked: bool)

  /** What a key prefix resolves to; the status is the client's at that moment. */
  datatype KeyRecord = KeyRecord(keyID: Id, clientID: Id, secretHash: string, revoked: bool, status: string)

  datatype Error = NotFound | UseRevoked | Invalid

  datatype Reg = Reg(
    clients: map<Id, Client>,
    uses: map<Id, map<string, IntendedUse>>,
    templates: map<Id, Template>,
    apiKeys: map<Id, KeyRow>,
    keysByPrefix: map<string, Id>,
    wrprcs: map<string, string>,
    counter: nat)

  const EMPTY := Reg(map[], map[], map[], map[], map[], map[], 0)

  // ----- Fresh ids -----

  function Zeros(k: nat): (z: string)
    ensures |z| == k && forall i :: 0 <= i < k ==> z[i] == '0'
  {
    if k == 0 then [] else ['0'] + Zeros(k - 1)
  }

  /** "01JZXFAKE%017d". */
  function MintedId(n: nat): Id {
    var d := Decimal(n);
    "01JZXFAKE" + (if |d| < 17 then Zeros(17 - |d|) else "") + d
  }

  lemma {:induction false} ValueWithZeros(k: nat, s: string)
    requires forall i :: 0 <= i < |s| ==> IsDigit(s[i])
    ensures ValueOf(Zeros(k) + s) == ValueOf(s)
    decreases k + |s|
  {
    var t := Zeros(k) + s;
    if s != [] {
      assert t[..|t| - 1] == Zeros(k) + s[..|s| - 1];
      ValueWithZeros(k, s[..|s| - 1]);
    } else if k > 0 {
      assert t[..|t| - 1] == Zeros(k - 1) + [] by { ZerosPrefix(k); }
      ValueWithZeros(k - 1, []);
    }
  }

  lemma ZerosPrefix(k: nat)
    requires k > 0
    ensures Zeros(k)[..k - 1] == Zeros(k - 1)
  {
  }

  lemma MintedIdsDiffer(m: nat, n: nat)
    requires m != n
    ensures MintedId(m) != MintedId(n)
  {
    MintedValue(m);
    MintedValue(n);
  }

  /** The number can be read off the id. */
  lemma MintedValue(n: nat)
    ensures var digits := MintedId(n)[9..];
      (forall i :: 0 <= i < |digits| ==> IsDigit(digits[i])) && ValueOf(digits) == n
  {
    var d := Decimal(n);
    var k := if |d| < 17 then 17 - |d| else 0;
    assert MintedId(n)[9..] == Zeros(k) + d;
    ValueWithZeros(k, d);
    ValueOfDecimal(n);
  }

  /** The ids the counter has yielded. */
  function MintedIds(n: nat): set<Id> {
    if n == 0 then {} else MintedIds(n - 1) + {MintedId(n)}
  }

  lemma {:induction false} NextNotMinted(n: nat, next: nat)
    requires n < next
    ensures MintedId(next) !in MintedIds(n)
  {
    if n > 0 {
      NextNotMinted(n - 1, next);
      MintedIdsDiffer(n, next);
    }
  }

  lemma {:induction false} MintedIdsGrow(m: nat, n: nat)
    requires m <= n
    ensures MintedIds(m) <= MintedIds(n)
    decreases n
  {
    if m < n { MintedIdsGrow(m, n - 1); }
  }

  /** Ids of rows come from the counter. */
  ghost predicate IdsMinted(reg: Reg) {
    && reg.clients.Keys <= MintedIds(reg.counter)
    && reg.templates.Keys <= MintedIds(reg.counter)
    && reg.apiKeys.Keys <= MintedIds(reg.counter)
  }

  /** Every prefix leads to a key of its own. */
  ghost predicate PrefixesResolve(reg: Reg) {
    && (forall p :: p in reg.keysByPrefix ==> reg.keysByPrefix[p] in reg.apiKeys)
    && (forall p, q :: p in reg.keysByPrefix && q in reg.keysByPrefix && p != q ==>
      reg.keysByPrefix[p] != reg.keysByPrefix[q])
  }

  ghost predicate UsesKeyed(reg: Reg) {
    forall c, u :: c in reg.uses && u in reg.uses[c] ==> reg.uses[c][u].intendedUseID == u
  }

  ghost predicate Consistent(reg: Reg) {
    IdsMinted(reg) && PrefixesResolve(reg) && UsesKeyed(reg)
  }

  /** The id the counter yields next belongs to no row. */
  lemma NextIsFresh(reg: Reg)
    requires IdsMinted(reg)
    ensures var id := MintedId(reg.counter + 1);
      id !in reg.clients && id !in reg.templates && id !in reg.apiKeys
  {
    NextNotMinted(reg.counter, reg.counter + 1);
  }

  // ----- Keys -----

  function GetClientByKeyPrefix(reg: Reg, prefix: string): Result<KeyRecord, Error>
    requires PrefixesResolve(reg)
  {
    if prefix !in reg.keysByPrefix then Err(NotFound)
    else
      var keyID := reg.keysByPrefix[prefix];
      var k := reg.apiKeys[keyID];
      var status := if k.clientID in reg.clients then reg.clients[k.clientID].status else "";
      Ok(KeyRecord(keyID, k.clientID, k.secretHash, k.revoked, status))
  }

  function CreateAPIKey(reg: Reg, clientID: Id, prefix: string, secretHash: string): (Reg, Result<Id, Error>) {
    if prefix in reg.keysByPrefix then (reg, Err(Invalid))
    else
      var id := MintedId(reg.counter + 1);
      (reg.(counter := reg.counter + 1,
            apiKeys := reg.apiKeys[id := KeyRow(clientID, secretHash, false)],
            keysByPrefix := reg.keysByPrefix[prefix := id]), Ok(id))
  }

  function RevokeAPIKey(reg: Reg, clientID: Id, keyID: Id): (Reg, Result<(), Error>) {
    if keyID !in reg.apiKeys || reg.apiKeys[keyID].clientID != clientID then (reg, Err(NotFound))
    else (reg.(apiKeys := reg.apiKeys[keyID := reg.apiKeys[keyID].(revoked := true)]), Ok(()))
  }

  // ----- Clients and intended uses -----

  /** Inserts a client with a fresh id; an empty status means active, an empty policy an empty object. */
  function CreateClient(reg: Reg, c: Client): (Reg, Id) {
    var id := MintedId(reg.counter + 1);
    var row := c.(status := if c.status == "" then "active" else c.status,
                  policy := if c.policy == "" then "{}" else c.policy);
    (reg.(counter := reg.counter + 1, clients := reg.clients[id := row]), id)
  }

  function GetClient(reg: Reg, clientID: Id): Result<Client, Error> {
    if clientID in reg.clients then Ok(reg.clients[clientID]) else Err(NotFound)
  }

  /** The rows of a client by intended-use id; the source lists their values in no particular order. */
  function ListIntendedUses(reg: Reg, clientID: Id): map<string, IntendedUse> {
    if clientID in reg.uses then reg.uses[clientID] else map[]
  }

  function GetIntendedUse(reg: Reg, clientID: Id, useID: string): Result<IntendedUse, Error> {
    if clientID !in reg.uses || useID !in reg.uses[clientID] then Err(NotFound) else Ok(reg.uses[clientID][useID])
  }

  /** What is recorded for a use, if anything; an empty certificate is none. */
  function Certificate(reg: Reg, clientID: Id, useID: string): Option<string> {
    var key := clientID + "|" + useID;
    if key in reg.wrprcs && reg.wrprcs[key] != "" then Some(reg.wrprcs[key]) else None
  }

  /** An owned use without a registration certificate is a success without a value. */
  function GetWRPRC(reg: Reg, clientID: Id, useID: string): Result<Option<string>, Error> {
    if clientID !in reg.uses || useID !in reg.uses[clientID] then Err(NotFound)
    else Ok(Certificate(reg, clientID, useID))
  }

  /** The rows to store, and the counter after minting an id for each row without one. */
  function Rows(ius: seq<IntendedUse>, counter: nat): (map<string, IntendedUse>, nat)
    decreases |ius|
  {
    if ius == [] then (map[], counter)
    else
      var (m, n) := Rows(ius[..|ius| - 1], counter);
      var iu := ius[|ius| - 1];
      if iu.rowID == "" then (m[iu.intendedUseID := iu.(rowID := MintedId(n + 1))], n + 1)
      else (m[iu.intendedUseID := iu], n)
  }

  function SetIntendedUses(reg: Reg, clientID: Id, ius: seq<IntendedUse>): Reg {
    var (m, n) := Rows(ius, reg.counter);
    reg.(uses := reg.uses[clientID := m], counter := n)
  }

  // ----- Templates -----

  function CreateTemplate(reg: Reg, clientID: Id, t: TemplateNew): (Reg, Result<Id, Error>) {
    match GetIntendedUse(reg, clientID, t.intendedUseID)
    case Err(e) => (reg, Err(e))
    case Ok(iu) =>
      if iu.revokedAt != "" then (reg, Err(UseRevoked))
      else
        var id := MintedId(reg.counter + 1);
        (reg.(counter := reg.counter + 1, templates := reg.templates[id := Template(clientID, t, false)]), Ok(id))
  }

  predicate HasTemplate(reg: Reg, clientID: Id, id: Id) {
    id in reg.templates && reg.templates[id].clientID == clientID && !reg.templates[id].deleted
  }

  function GetTemplate(reg: Reg, clientID: Id, id: Id): Result<TemplateNew, Error> {
    if HasTemplate(reg, clientID, id) then Ok(reg.templates[id].t) else Err(NotFound)
  }

  function ListTemplates(reg: Reg, clientID: Id): map<Id, TemplateNew> {
    map id | id in reg.templates && HasTemplate(reg, clientID, id) :: reg.templates[id].t
  }

  function DeleteTemplate(reg: Reg, clientID: Id, id: Id): (Reg, Result<(), Error>) {
    if !HasTemplate(reg, clientID, id) then (reg, Err(NotFound))
    else (reg.(templates := reg.templates[id := reg.templates[id].(deleted := true)]), Ok(()))
  }

  // ----- Every operation keeps the registry consistent -----

  lemma {:induction false} RowsKeyed(ius: seq<IntendedUse>, counter: nat)
    ensures var (m, n) := Rows(ius, counter); n >= counter && forall u :: u in m ==> m[u].intendedUseID == u
  {
    if ius != [] { RowsKeyed(ius[..|ius| - 1], counter); }
  }

  /** A change of rows that mints ids in step with the counter. */
  datatype Op =
    | OpCreateClient(c: Client)
    | OpEditClient(clientID: Id, c: Client)
    | OpSetWRPRC(clientID: Id, useID: string, raw: string)
    | OpCreateKey(clientID: Id, prefix: string, secretHash: string)
    | OpRevokeKey(clientID: Id, keyID: Id)
    | OpSetUses(clientID: Id, ius: seq<IntendedUse>)
    | OpCreateTemplate(clientID: Id, t: TemplateNew)
    | OpDeleteTemplate(clientID: Id, templateID: Id)

  /**
   * EditClient and SetWRPRC are the registration service's: it suspends or re-registers clients and records
   * certificates.
   */
  function Perform(reg: Reg, op: Op): Reg {
    match op
    case OpCreateClient(c) => CreateClient(reg, c).0
    case OpEditClient(id, c) => if id in reg.clients then reg.(clients := reg.clients[id := c]) else reg
    case OpSetWRPRC(id, useID, raw) => reg.(wrprcs := reg.wrprcs[id + "|" + useID := raw])
    case OpCreateKey(id, prefix, hash) => CreateAPIKey(reg, id, prefix, hash).0
    case OpRevokeKey(id, keyID) => RevokeAPIKey(reg, id, keyID).0
    case OpSetUses(id, ius) => SetIntendedUses(reg, id, ius)
    case OpCreateTemplate(id, t) => CreateTemplate(reg, id, t).0
    case OpDeleteTemplate(id, tid) => DeleteTemplate(reg, id, tid).0
  }

  lemma PerformConsistent(reg: Reg, op: Op)
    requires Consistent(reg)
    ensures Consistent(Perform(reg, op)) && reg.counter <= Perform(reg, op).counter
  {
    PerformMints(reg, op);
    if op.OpCreateKey? { NextIsFresh(reg); }
    if op.OpSetUses? { RowsKeyed(op.ius, reg.counter); }
  }

  lemma PerformMints(reg: Reg, op: Op)
    requires IdsMinted(reg)
    ensures IdsMinted(Perform(reg, op)) && reg.counter <= Perform(reg, op).counter
  {
    if op.OpSetUses? { RowsKeyed(op.ius, reg.counter); }
    MintedIdsGrow(reg.counter, Perform(reg, op).counter);
  }

  // ----- What is written is what is read -----

  /** No minted id contains the separator of certificate keys. */
  lemma MintedLacksBar(n: nat)
    ensures Lacks(MintedId(n), '|')
  {
  }

  lemma BarKeysDiffer(c: Id, u: string, c': Id, u': string)
    requires Lacks(c, '|') && Lacks(c', '|') && c + "|" + u == c' + "|" + u'
    ensures c == c' && u == u'
  {
    CutAtFirst(c, '|', u);
    CutAtFirst(c', '|', u');
  }

  /** What the registration service records for a use is what is read for it, and for no other use of any client. */
  lemma RecordedCertificateReads(reg: Reg, c: Id, u: string, raw: string, c': Id, u': string)
    requires Lacks(c, '|') && Lacks(c', '|')
    ensures var reg' := Perform(reg, OpSetWRPRC(c, u, raw));
      && GetWRPRC(reg', c, u) ==
           (if !(c in reg.uses && u in reg.uses[c]) then Err(NotFound) else Ok(if raw == "" then None else Some(raw)))
      && ((c', u') != (c, u) ==> GetWRPRC(reg', c', u') == GetWRPRC(reg, c', u'))
      && reg' == reg.(wrprcs := reg'.wrprcs)
  {
    if c + "|" + u == c' + "|" + u' { BarKeysDiffer(c, u, c', u'); }
  }

  /** A new client reads back under a fresh id, active and with an empty policy if it came without; no other changes. */
  lemma CreatedClientReads(reg: Reg, c: Client, other: Id)
    requires Consistent(reg)
    ensures var (reg', id) := CreateClient(reg, c);
      && GetClient(reg, id) == Err(NotFound)
      && GetClient(reg', id) == Ok(c.(status := if c.status == "" then "active" else c.status,
                                     policy := if c.policy == "" then "{}" else c.policy))
      && (other != id ==> GetClient(reg', other) == GetClient(reg, other))
      && reg' == reg.(clients := reg'.clients, counter := reg'.counter)
  {
    NextIsFresh(reg);
  }

  /** A prefix is refused exactly if it is in use, and a key cannot be revoked exactly if it is not the client's own. */
  lemma KeyRefusedIff(reg: Reg, clientID: Id, prefix: string, secretHash: string, keyID: Id)
    ensures var (reg', r) := CreateAPIKey(reg, clientID, prefix, secretHash);
      (r.Err? <==> prefix in reg.keysByPrefix) && (r.Err? ==> r == Err(Invalid) && reg' == reg)
    ensures var (reg', r) := RevokeAPIKey(reg, clientID, keyID);
      (r.Err? <==> !(keyID in reg.apiKeys && reg.apiKeys[keyID].clientID == clientID)) &&
      (r.Err? ==> r == Err(NotFound) && reg' == reg)
  {
  }

  /** A created key resolves from its prefix, live, with the client's status; every other prefix resolves as before. */
  lemma CreatedKeyResolves(reg: Reg, clientID: Id, prefix: string, secretHash: string, other: string)
    requires Consistent(reg) && prefix !in reg.keysByPrefix && other != prefix
    ensures var (reg', r) := CreateAPIKey(reg, clientID, prefix, secretHash);
      && PrefixesResolve(reg') && r.Ok?
      && GetClientByKeyPrefix(reg', prefix) == Ok(KeyRecord(
           r.value, clientID, secretHash, false, if clientID in reg.clients then reg.clients[clientID].status else ""))
      && GetClientByKeyPrefix(reg', other) == GetClientByKeyPrefix(reg, other)
  {
    NextIsFresh(reg);
    PerformConsistent(reg, OpCreateKey(clientID, prefix, secretHash));
  }

  /** A revoked key resolves as revoked; every other prefix resolves as before. */
  lemma RevokedKeyResolves(reg: Reg, clientID: Id, keyID: Id, prefix: string)
    requires PrefixesResolve(reg) && prefix in reg.keysByPrefix
    ensures var (reg', r) := RevokeAPIKey(reg, clientID, keyID); var was := GetClientByKeyPrefix(reg, prefix).value;
      && PrefixesResolve(reg')
      && (r.Ok? <==> keyID in reg.apiKeys && reg.apiKeys[keyID].clientID == clientID)
      && GetClientByKeyPrefix(reg', prefix) == Ok(if r.Ok? && was.keyID == keyID then was.(revoked := true) else was)
  {
  }

  /** A template is written exactly against an existing, unrevoked use; it then reads back, and all others as before. */
  lemma CreatedTemplateReads(reg: Reg, clientID: Id, t: TemplateNew, other: Id)
    requires Consistent(reg)
    ensures var (reg', r) := CreateTemplate(reg, clientID, t);
      && (r.Ok? <==> clientID in reg.uses && t.intendedUseID in reg.uses[clientID]
                     && reg.uses[clientID][t.intendedUseID].revokedAt == "")
      && (r == Err(NotFound) <==> !(clientID in reg.uses && t.intendedUseID in reg.uses[clientID]))
      && (r.Err? ==> (r == Err(NotFound) || r == Err(UseRevoked)) && reg' == reg)
      && (r.Ok? ==> GetTemplate(reg', clientID, r.value) == Ok(t) && r.value !in reg.templates)
      && (r.Err? || other != r.value ==> GetTemplate(reg', clientID, other) == GetTemplate(reg, clientID, other))
  {
    NextIsFresh(reg);
  }

  /** A deletion succeeds exactly if the template could be read, which it cannot be afterwards; all others as before. */
  lemma DeletedTemplateGone(reg: Reg, clientID: Id, id: Id, c: Id, other: Id)
    ensures var (reg', r) := DeleteTemplate(reg, clientID, id);
      && (r.Ok? <==> GetTemplate(reg, clientID, id).Ok?)
      && (r.Err? ==> r == Err(NotFound) && reg' == reg)
      && GetTemplate(reg', clientID, id) == Err(NotFound)
      && (other != id || c != clientID ==> GetTemplate(reg', c, other) == GetTemplate(reg, c, other))
  {
  }

  /** The last row with the id, by which later rows win over earlier ones. */
  predicate LastRow(ius: seq<IntendedUse>, i: int) {
    0 <= i < |ius| && forall j :: i < j < |ius| ==> ius[j].intendedUseID != ius[i].intendedUseID
  }

  /** After a replacement a use is the last row given under its id, with a row id of its own if none was given. */
  lemma {:induction false} RowsHoldLast(ius: seq<IntendedUse>, counter: nat, i: int)
    requires LastRow(ius, i)
    ensures var m := Rows(ius, counter).0; var u := ius[i].intendedUseID;
      u in m && m[u] == ius[i].(rowID := m[u].rowID) && (ius[i].rowID != "" ==> m[u] == ius[i])
    decreases |ius|
  {
    if i < |ius| - 1 {
      assert LastRow(ius[..|ius| - 1], i);
      RowsHoldLast(ius[..|ius| - 1], counter, i);
    }
  }

  lemma {:induction false} RowsHoldOnlyThose(ius: seq<IntendedUse>, counter: nat, u: string)
    requires u in Rows(ius, counter).0
    ensures exists i :: LastRow(ius, i) && ius[i].intendedUseID == u
    decreases |ius|
  {
    var last := |ius| - 1;
    if ius[last].intendedUseID == u {
      assert LastRow(ius, last);
    } else {
      RowsHoldOnlyThose(ius[..last], counter, u);
      var i :| LastRow(ius[..last], i) && ius[..last][i].intendedUseID == u;
      assert forall j :: i < j < |ius| ==> j == last || ius[j] == ius[..last][j];
      assert LastRow(ius, i);
    }
  }

  /** The row ids minted between two states of the counter. */
  predicate MintedBetween(id: Id, m: nat, n: nat) {
    exists k :: m < k <= n && id == MintedId(k)
  }

  lemma LastRowsKept(ius: seq<IntendedUse>, counter: nat, i: int)
    requires LastRow(ius, i) && i < |ius| - 1
    ensures var front := Rows(ius[..|ius| - 1], counter).0; var m := Rows(ius, counter).0;
      var u := ius[i].intendedUseID;
      LastRow(ius[..|ius| - 1], i) && (u in m <==> u in front) && (u in m ==> m[u] == front[u])
  {
  }

  /** A row that came without an id gets one the counter had not yielded before. */
  lemma {:induction false} RowsMintIds(ius: seq<IntendedUse>, counter: nat, i: int)
    requires LastRow(ius, i) && ius[i].rowID == ""
    ensures var (m, n) := Rows(ius, counter); var u := ius[i].intendedUseID;
      u in m && counter <= n && MintedBetween(m[u].rowID, counter, n)
    decreases |ius|
  {
    var front := ius[..|ius| - 1];
    RowsKeyed(front, counter);
    if i < |ius| - 1 {
      LastRowsKept(ius, counter, i);
      RowsMintIds(front, counter, i);
      assert Rows(front, counter).1 <= Rows(ius, counter).1;
    } else {
      assert Rows(ius, counter).0[ius[i].intendedUseID].rowID == MintedId(Rows(ius, counter).1);
    }
  }

  /** And no two of them the same. */
  lemma {:induction false} MintedRowsDiffer(ius: seq<IntendedUse>, counter: nat, i: int, j: int)
    requires LastRow(ius, i) && LastRow(ius, j) && i < j && ius[i].rowID == "" && ius[j].rowID == ""
    ensures var m := Rows(ius, counter).0; var u, v := ius[i].intendedUseID, ius[j].intendedUseID;
      u in m && v in m && m[u].rowID != m[v].rowID
    decreases |ius|
  {
    var front := ius[..|ius| - 1];
    LastRowsKept(ius, counter, i);
    if j < |ius| - 1 {
      LastRowsKept(ius, counter, j);
      MintedRowsDiffer(front, counter, i, j);
    } else {
      RowsMintIds(front, counter, i);
      MintedEarlier(Rows(front, counter).0[ius[i].intendedUseID].rowID, counter, Rows(front, counter).1);
    }
  }

  lemma MintedEarlier(id: Id, m: nat, n: nat)
    requires MintedBetween(id, m, n)
    ensures id != MintedId(n + 1)
  {
    var k :| m < k <= n && id == MintedId(k);
    MintedIdsDiffer(k, n + 1);
  }

  /** A replacement leaves the client exactly the uses given, by their last rows, and no other client's changed. */
  lemma ReplacedUsesRead(reg: Reg, clientID: Id, ius: seq<IntendedUse>, u: string, other: Id)
    requires other != clientID
    ensures var reg' := SetIntendedUses(reg, clientID, ius);
      && (GetIntendedUse(reg', clientID, u).Ok? <==> exists i :: LastRow(ius, i) && ius[i].intendedUseID == u)
      && (forall i :: LastRow(ius, i) && ius[i].intendedUseID == u ==>
            && GetIntendedUse(reg', clientID, u).Ok?
            && var iu := GetIntendedUse(reg', clientID, u).value; iu == ius[i].(rowID := iu.rowID))
      && GetIntendedUse(reg', other, u) == GetIntendedUse(reg, other, u)
  {
    forall i | LastRow(ius, i) && ius[i].intendedUseID == u
      ensures u in Rows(ius, reg.counter).0
      ensures Rows(ius, reg.counter).0[u] == ius[i].(rowID := Rows(ius, reg.counter).0[u].rowID)
    {
      RowsHoldLast(ius, reg.counter, i);
    }
    if u in Rows(ius, reg.counter).0 { RowsHoldOnlyThose(ius, reg.counter, u); }
  }
}
