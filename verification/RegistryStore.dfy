/** The in-memory registry: maps of rows and an id counter, updated in place. */
module RegistryStore {
  import opened Common
  import opened Registry

  lemma RowsSnoc(ius: seq<IntendedUse>, i: nat, counter: nat)
    requires i < |ius|
    ensures var (m, n) := Rows(ius[..i], counter); var iu := ius[i];
      Rows(ius[..i + 1], counter) ==
      if iu.rowID == "" then (m[iu.intendedUseID := iu.(rowID := MintedId(n + 1))], n + 1)
      else (m[iu.intendedUseID := iu], n)
  {
    assert ius[..i + 1][..i] == ius[..i];
  }

  class Store {
    var clients: map<Id, Client>
    var uses: map<Id, map<string, IntendedUse>>
    var templates: map<Id, Template>
    var apiKeys: map<Id, KeyRow>
    var keysByPrefix: map<string, Id>
    var wrprcs: map<string, string>
    var counter: nat

    constructor ()
      ensures View() == EMPTY && Valid()
    {
      clients, uses, templates, apiKeys, keysByPrefix, wrprcs, counter := map[], map[], map[], map[], map[], map[], 0;
    }

    ghost function View(): Reg
      reads this
    {
      Reg(clients, uses, templates, apiKeys, keysByPrefix, wrprcs, counter)
    }

    ghost predicate Valid()
      reads this
    {
      Consistent(View())
    }

    method NextId() returns (id: Id)
      modifies this`counter
      ensures counter == old(counter) + 1 && id == MintedId(counter)
    {
      counter := counter + 1;
      id := MintedId(counter);
    }

    method LookupPrefix(prefix: string) returns (r: Result<KeyRecord, Error>)
      requires Valid()
      ensures r == GetClientByKeyPrefix(View(), prefix)
    {
      if prefix !in keysByPrefix { return Err(NotFound); }
      var keyID := keysByPrefix[prefix];
      var k := apiKeys[keyID];
      var status := "";
      if k.clientID in clients { status := clients[k.clientID].status; }
      return Ok(KeyRecord(keyID, k.clientID, k.secretHash, k.revoked, status));
    }

    method AddKey(clientID: Id, prefix: string, secretHash: string) returns (r: Result<Id, Error>)
      requires Valid()
      modifies this
      ensures (View(), r) == CreateAPIKey(old(View()), clientID, prefix, secretHash)
      ensures Valid() && (r.Ok? ==> r.value !in old(apiKeys))
    {
      ghost var before, op := View(), OpCreateKey(clientID, prefix, secretHash);
      PerformConsistent(before, op);
      if prefix in keysByPrefix { return Err(Invalid); }
      NextIsFresh(View());
      var id := NextId();
      apiKeys := apiKeys[id := KeyRow(clientID, secretHash, false)];
      keysByPrefix := keysByPrefix[prefix := id];
      assert View() == Perform(before, op);
      return Ok(id);
    }

    method RevokeKey(clientID: Id, keyID: Id) returns (r: Result<(), Error>)
      requires Valid()
      modifies this`apiKeys
      ensures (View(), r) == RevokeAPIKey(old(View()), clientID, keyID)
      ensures Valid()
    {
      PerformConsistent(View(), OpRevokeKey(clientID, keyID));
      if keyID !in apiKeys || apiKeys[keyID].clientID != clientID { return Err(NotFound); }
      apiKeys := apiKeys[keyID := apiKeys[keyID].(revoked := true)];
      return Ok(());
    }

    method AddClient(c: Client) returns (id: Id)
      requires Valid()
      modifies this
      ensures (View(), id) == CreateClient(old(View()), c)
      ensures Valid() && id !in old(clients)
    {
      PerformConsistent(View(), OpCreateClient(c));
      NextIsFresh(View());
      id := NextId();
      var row := c;
      if row.status == "" { row := row.(status := "active"); }
      if row.policy == "" { row := row.(policy := "{}"); }
      clients := clients[id := row];
    }

    /** Replaces the whole set of a client's intended uses; later rows win over earlier ones with the same id. */
    method ReplaceUses(clientID: Id, ius: seq<IntendedUse>)
      requires Valid()
      modifies this
      ensures View() == SetIntendedUses(old(View()), clientID, ius)
      ensures Valid()
    {
      ghost var before, op := View(), OpSetUses(clientID, ius);
      var m: map<string, IntendedUse> := map[];
      for i := 0 to |ius|
        invariant (m, counter) == Rows(ius[..i], before.counter)
        invariant View() == before.(counter := counter)
      {
        RowsSnoc(ius, i, before.counter);
        var iu := ius[i];
        if iu.rowID == "" {
          var id := NextId();
          iu := iu.(rowID := id);
        }
        m := m[iu.intendedUseID := iu];
      }
      assert ius[..|ius|] == ius;
      uses := uses[clientID := m];
      PerformConsistent(before, op);
      assert View() == Perform(before, op);
    }

    method AddTemplate(clientID: Id, t: TemplateNew) returns (r: Result<Id, Error>)
      requires Valid()
      modifies this
      ensures (View(), r) == CreateTemplate(old(View()), clientID, t)
      ensures Valid() && (r.Ok? ==> r.value !in old(templates))
    {
      ghost var before, op := View(), OpCreateTemplate(clientID, t);
      PerformConsistent(before, op);
      if clientID !in uses || t.intendedUseID !in uses[clientID] { return Err(NotFound); }
      if uses[clientID][t.intendedUseID].revokedAt != "" { return Err(UseRevoked); }
      NextIsFresh(View());
      var id := NextId();
      templates := templates[id := Template(clientID, t, false)];
      assert View() == Perform(before, op);
      return Ok(id);
    }

    method ReadClient(clientID: Id) returns (r: Result<Client, Error>)
      ensures r == GetClient(View(), clientID)
    {
      if clientID !in clients { return Err(NotFound); }
      return Ok(clients[clientID]);
    }

    method ReadUses(clientID: Id) returns (ius: map<string, IntendedUse>)
      ensures ius == ListIntendedUses(View(), clientID)
    {
      ius := if clientID in uses then uses[clientID] else map[];
    }

    method ReadUse(clientID: Id, useID: string) returns (r: Result<IntendedUse, Error>)
      ensures r == GetIntendedUse(View(), clientID, useID)
    {
      if clientID !in uses || useID !in uses[clientID] { return Err(NotFound); }
      return Ok(uses[clientID][useID]);
    }

    method ReadWRPRC(clientID: Id, useID: string) returns (r: Result<Option<string>, Error>)
      ensures r == GetWRPRC(View(), clientID, useID)
    {
      if clientID !in uses || useID !in uses[clientID] { return Err(NotFound); }
      var key := clientID + "|" + useID;
      if key !in wrprcs || wrprcs[key] == "" { return Ok(None); }
      return Ok(Some(wrprcs[key]));
    }

    method ReadTemplate(clientID: Id, id: Id) returns (r: Result<TemplateNew, Error>)
      ensures r == GetTemplate(View(), clientID, id)
    {
      if id !in templates || templates[id].clientID != clientID || templates[id].deleted { return Err(NotFound); }
      return Ok(templates[id].t);
    }

    method RemoveTemplate(clientID: Id, id: Id) returns (r: Result<(), Error>)
      requires Valid()
      modifies this`templates
      ensures (View(), r) == DeleteTemplate(old(View()), clientID, id)
      ensures Valid()
    {
      ghost var before, op := View(), OpDeleteTemplate(clientID, id);
      PerformConsistent(before, op);
      if id !in templates || templates[id].clientID != clientID || templates[id].deleted { return Err(NotFound); }
      templates := templates[id := templates[id].(deleted := true)];
      assert View() == Perform(before, op);
      return Ok(());
    }
  }
}
