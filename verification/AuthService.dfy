/** apiKeyAuth over the in-memory registry and the caching verifier, as objects. */
module AuthService {
  import opened Common
  import opened Encoding
  import opened ApiKeys
  import opened Registry
  import opened KeyCache
  import opened AuthProtocol
  import RegistryStore

  /** Every cached key still passes the hash its id stands for, with the secret that was cached. */
  ghost predicate Sound(k: Scheme, reg: Reg, c: Cache)
    requires ValidScheme(k)
  {
    forall id :: id in c.entries ==> Vouched(k, reg, id, c.entries[id].secretHash)
  }

  ghost predicate Vouched(k: Scheme, reg: Reg, id: Id, hash: seq<Byte>)
    requires ValidScheme(k)
  {
    exists secret :: hash == k.sha(secret) && Passes(k, reg, id, secret)
  }

  lemma SoundThrough(k: Scheme, reg: Reg, op: Op, c: Cache)
    requires ValidScheme(k) && Consistent(reg) && Sound(k, reg, c)
    ensures Sound(k, Perform(reg, op), c)
  {
    forall id | id in c.entries
      ensures Vouched(k, Perform(reg, op), id, c.entries[id].secretHash)
    {
      assert Vouched(k, reg, id, c.entries[id].secretHash);
      var secret :| c.entries[id].secretHash == k.sha(secret) && Passes(k, reg, id, secret);
      HashStays(k, reg, op, id);
      assert Passes(k, Perform(reg, op), id, secret);
    }
  }

  lemma SoundStored(k: Scheme, reg: Reg, c: Cache, id: Id, secret: string, now: int)
    requires ValidScheme(k) && WellKept(c) && Sound(k, reg, c) && Passes(k, reg, id, secret)
    ensures Sound(k, reg, Stored(c, id, k.sha(secret), now))
  {
  }

  /** A hit in a sound cache is what the derive would say. */
  lemma SoundHit(k: Scheme, reg: Reg, c: Cache, id: Id, secret: string, now: int)
    requires ValidScheme(k) && Sound(k, reg, c) && Hit(c, id, k.sha(secret), now)
    ensures Passes(k, reg, id, secret)
  {
  }

  /** What Verify is called with for a presented key, and the key record if there is one. */
  datatype Query = Query(keyID: Id, phc: string, secret: string, rec: Option<KeyRecord>)

  /** The decision, how many derives it took, and the cache it leaves. */
  datatype Outcome = Outcome(decision: Decision, derives: nat, cache: Cache)

  ghost function Arriving(reg: Reg, presented: string): Request {
    Request(Arrived, presented, reg, None, "", "", "", 0, 0, false)
  }

  /** A request that finds the registry and the cache as they are, with nothing else going on. */
  ghost function Alone(k: Scheme, reg: Reg, c: Cache, presented: string, infra: bool, now: int): Outcome
    requires ValidScheme(k) && PrefixesResolve(reg) && WellKept(c)
  {
    var r := Looked(k, reg, Arriving(reg, presented), infra);
    if r.stage.Finished? then Outcome(InfraError, 0, c)
    else if Hit(c, r.keyID, k.sha(r.secret), now) then Outcome(Decided(r, Some(true)), 0, c)
    else
      var ok := k.check(r.phc, r.secret);
      Outcome(Decided(r, ok), if ok == None then 0 else 1,
              if ok == Some(true) then Stored(c, r.keyID, k.sha(r.secret), now) else c)
  }

  /** With a sound cache that is the cache-free decision, and a failing verdict on a well-formed hash ran one derive. */
  lemma AloneIsTransparent(k: Scheme, reg: Reg, c: Cache, presented: string, infra: bool, now: int)
    requires ValidScheme(k) && Consistent(reg) && WellKept(c) && Sound(k, reg, c)
    ensures var o := Alone(k, reg, c, presented, infra, now); var r := Looked(k, reg, Arriving(reg, presented), infra);
      && o.decision == (if k.parse(presented).Some? && infra then InfraError
                        else AuthProtocol.Authenticate(k, reg, presented))
      && (!r.stage.Finished? && k.check(r.phc, r.secret) == Some(false) ==> o.derives == 1)
      && Sound(k, reg, o.cache)
  {
    var r := Looked(k, reg, Arriving(reg, presented), infra);
    if !r.stage.Finished? {
      LookedFaithful(k, reg, presented, infra);
      if Hit(c, r.keyID, k.sha(r.secret), now) { SoundHit(k, reg, c, r.keyID, r.secret, now); }
      DecidedIsAuthenticate(k, reg, r, k.check(r.phc, r.secret));
      if k.check(r.phc, r.secret) == Some(true) { SoundStored(k, reg, c, r.keyID, r.secret, now); }
    }
  }

  lemma LookedFaithful(k: Scheme, reg: Reg, presented: string, infra: bool)
    requires ValidScheme(k) && Consistent(reg)
    ensures var r := Looked(k, reg, Arriving(reg, presented), infra);
      !r.stage.Finished? ==> Faithful(k, reg, r) && r.seen == reg && r.presented == presented
  {
    DummyNotMinted(reg.counter);
  }

  // ----- A request run alone is a run of the protocol -----

  lemma RunCons(k: Scheme, s: State, a: Action, rest: seq<Action>)
    requires ValidScheme(k) && CanStep(s, a) && CanRun(k, Apply(k, s, a), rest)
    ensures CanRun(k, s, [a] + rest) && Run(k, s, [a] + rest) == Run(k, Apply(k, s, a), rest)
  {
    assert ([a] + rest)[1..] == rest;
  }

  /** Request q ends with this outcome, having presented this key, and leaves registry, clock and the others alone. */
  ghost predicate EndsWith(s: State, s': State, q: nat, presented: string, o: Outcome) {
    && s'.reqs.Keys == s.reqs.Keys + {q} && s'.reqs[q].presented == presented
    && s'.reg == s.reg && s'.now == s.now && s'.cache == o.cache
    && q in s'.reqs && s'.reqs[q].stage == Finished(o.decision) && s'.reqs[q].derives == o.derives
  }

  lemma AuthenticateIsARun(k: Scheme, s: State, q: nat, presented: string, infra: bool) returns (acts: seq<Action>)
    requires ValidScheme(k) && PrefixesResolve(s.reg) && WellKept(s.cache) && q !in s.reqs
    ensures CanRun(k, s, acts)
    ensures EndsWith(s, Run(k, s, acts), q, presented, Alone(k, s.reg, s.cache, presented, infra, s.now))
  {
    var s1 := Apply(k, s, Arrive(q, presented));
    var s2 := Apply(k, s1, Resolve(q, infra));
    var rest := [];
    if s2.reqs[q].stage == Resolved { rest := ResolvedIsARun(k, s2, q); }
    RunCons(k, s1, Resolve(q, infra), rest);
    RunCons(k, s, Arrive(q, presented), [Resolve(q, infra)] + rest);
    acts := [Arrive(q, presented)] + ([Resolve(q, infra)] + rest);
  }

  lemma ResolvedIsARun(k: Scheme, s: State, q: nat) returns (acts: seq<Action>)
    requires ValidScheme(k) && PrefixesResolve(s.reg) && WellKept(s.cache)
    requires q in s.reqs && s.reqs[q].stage == Resolved && s.reqs[q].derives == 0
    ensures CanRun(k, s, acts)
    ensures var r := s.reqs[q]; var hit := Hit(s.cache, r.keyID, k.sha(r.secret), s.now);
      var ok := k.check(r.phc, r.secret);
      EndsWith(s, Run(k, s, acts), q, r.presented,
        if hit then Outcome(Decided(r, Some(true)), 0, s.cache)
        else Outcome(Decided(r, ok), if ok == None then 0 else 1,
                     if ok == Some(true) then Stored(s.cache, r.keyID, k.sha(r.secret), s.now) else s.cache))
  {
    var s1 := Apply(k, s, ReadClock(q));
    var s2 := Apply(k, s1, Probe(q));
    var rest;
    if s2.reqs[q].stage.Judged? { rest := JudgedIsARun(k, s2, q); } else { rest := MissedIsARun(k, s2, q); }
    RunCons(k, s1, Probe(q), rest);
    RunCons(k, s, ReadClock(q), [Probe(q)] + rest);
    acts := [ReadClock(q)] + ([Probe(q)] + rest);
  }

  lemma MissedIsARun(k: Scheme, s: State, q: nat) returns (acts: seq<Action>)
    requires ValidScheme(k) && PrefixesResolve(s.reg) && WellKept(s.cache)
    requires q in s.reqs && s.reqs[q].stage == Missed && s.reqs[q].derives == 0
    ensures CanRun(k, s, acts)
    ensures var r := s.reqs[q]; var ok := k.check(r.phc, r.secret);
      EndsWith(s, Run(k, s, acts), q, r.presented,
        Outcome(Decided(r, ok), if ok == None then 0 else 1,
                if ok == Some(true) then Stored(s.cache, r.keyID, k.sha(r.secret), r.at) else s.cache))
  {
    var s1 := Apply(k, s, Derive(q));
    var rest;
    if s1.reqs[q].stage == Derived { rest := DerivedIsARun(k, s1, q); } else { rest := JudgedIsARun(k, s1, q); }
    RunCons(k, s, Derive(q), rest);
    acts := [Derive(q)] + rest;
  }

  lemma DerivedIsARun(k: Scheme, s: State, q: nat) returns (acts: seq<Action>)
    requires ValidScheme(k) && PrefixesResolve(s.reg) && WellKept(s.cache)
    requires q in s.reqs && s.reqs[q].stage == Derived
    ensures CanRun(k, s, acts)
    ensures var r := s.reqs[q];
      EndsWith(s, Run(k, s, acts), q, r.presented,
        Outcome(Decided(r, Some(true)), r.derives, Stored(s.cache, r.keyID, k.sha(r.secret), r.at)))
  {
    var s1 := Apply(k, s, Save(q));
    StoredKeeps(s.cache, s.reqs[q].keyID, k.sha(s.reqs[q].secret), s.reqs[q].at);
    var rest := JudgedIsARun(k, s1, q);
    RunCons(k, s, Save(q), rest);
    acts := [Save(q)] + rest;
  }

  lemma JudgedIsARun(k: Scheme, s: State, q: nat) returns (acts: seq<Action>)
    requires ValidScheme(k) && PrefixesResolve(s.reg) && WellKept(s.cache) && q in s.reqs && s.reqs[q].stage.Judged?
    ensures CanRun(k, s, acts)
    ensures var r := s.reqs[q];
      EndsWith(s, Run(k, s, acts), q, r.presented, Outcome(Decided(r, r.stage.ok), r.derives, s.cache))
  {
    RunCons(k, s, Decide(q), []);
    acts := [Decide(q)] + [];
  }

  // ----- A refusal that costs nothing -----

  lemma {:induction false} RunAppend(k: Scheme, s: State, a: seq<Action>, b: seq<Action>)
    requires ValidScheme(k) && CanRun(k, s, a) && CanRun(k, Run(k, s, a), b)
    ensures CanRun(k, s, a + b) && Run(k, s, a + b) == Run(k, Run(k, s, a), b)
    decreases |a|
  {
    if a == [] {
      assert a + b == b;
    } else {
      assert (a + b)[1..] == a[1..] + b;
      RunAppend(k, Apply(k, s, a[0]), a[1..], b);
    }
  }

  /** The text of the dummy secret is no key. */
  lemma DummySecretIsNoKey()
    ensures Parse(DUMMY_SECRET) == None
  {
    assert DUMMY_SECRET[0] == 'a';
    ParsedStarts(DUMMY_SECRET);
  }

  /** But it passes the dummy hash. */
  lemma DummySecretPasses(cr: Crypto, secret: string)
    requires ValidCrypto(cr) && secret == DUMMY_SECRET
    ensures Check(cr.kdf, DummyPhc(cr), secret) == Some(true)
  {
    FreshHashChecks(secret, cr.sha(DUMMY_SALT)[..SALT_LEN], cr.kdf);
  }

  /** A secret that is no key and passes the dummy hash. */
  ghost predicate PassesDummy(k: Scheme, secret: string) {
    k.parse(secret) == None && k.check(k.dummyPhc, secret) == Some(true)
  }

  /** One try with it: refused, at the cost of a derive unless the last one was cached, and cached for the next. */
  lemma DummyTry(k: Scheme, s: State, q: nat, secret: string) returns (acts: seq<Action>)
    requires ValidScheme(k) && PrefixesResolve(s.reg) && WellKept(s.cache) && q !in s.reqs && PassesDummy(k, secret)
    ensures CanRun(k, s, acts)
    ensures var s' := Run(k, s, acts);
      && s'.reqs.Keys == s.reqs.Keys + {q} && s'.reg == s.reg && s'.now == s.now
      && s'.reqs[q].presented == secret && s'.reqs[q].stage == Finished(Unauthorized)
      && s'.reqs[q].derives == (if Hit(s.cache, DUMMY_KEY_ID, k.sha(secret), s.now) then 0 else 1)
      && WellKept(s'.cache) && Hit(s'.cache, DUMMY_KEY_ID, k.sha(secret), s'.now)
  {
    StoredKeeps(s.cache, DUMMY_KEY_ID, k.sha(secret), s.now);
    acts := AuthenticateIsARun(k, s, q, secret, false);
  }

  lemma DummyTwice(k: Scheme, s0: State, secret: string) returns (acts: seq<Action>)
    requires ValidScheme(k) && Init(s0) && PassesDummy(k, secret)
    ensures CanRun(k, s0, acts)
    ensures var s := Run(k, s0, acts);
      && 1 in s.reqs && s.reqs[1].presented == secret
      && s.reqs[1].stage == Finished(Unauthorized) && s.reqs[1].derives == 0
  {
    var first := DummyTry(k, s0, 0, secret);
    var second := DummyTry(k, Run(k, s0, first), 1, secret);
    RunAppend(k, s0, first, second);
    acts := first + second;
  }

  /**
   * A run in which a malformed key, the text of the dummy secret, is refused without a derive: presented once before,
   * it has passed the dummy hash and been cached.
   */
  lemma RefusedFast(cr: Crypto) returns (s0: State, acts: seq<Action>)
    requires ValidCrypto(cr)
    ensures ValidScheme(Real(cr)) && Init(s0) && CanRun(Real(cr), s0, acts)
    ensures var s := Run(Real(cr), s0, acts);
      && 1 in s.reqs && Parse(s.reqs[1].presented) == None
      && s.reqs[1].stage == Finished(Unauthorized) && s.reqs[1].derives == 0
  {
    RealIsValid(cr);
    var secret := DUMMY_SECRET;
    DummySecretIsNoKey();
    DummySecretPasses(cr, secret);
    s0 := State(Registry.EMPTY, KeyCache.EMPTY, 0, map[], map[], {}, []);
    acts := DummyTwice(Real(cr), s0, secret);
  }

  class Service {
    const registry: RegistryStore.Store
    const verifier: Verifier

    constructor (cr: Crypto)
      requires ValidCrypto(cr)
      ensures Valid() && registry.View() == Registry.EMPTY && verifier.View() == KeyCache.EMPTY && verifier.cr == cr
      ensures fresh(registry) && fresh(verifier)
    {
      registry := new RegistryStore.Store();
      verifier := new Verifier(cr);
      new;
      RealIsValid(cr);
    }

    ghost predicate Valid()
      reads registry, verifier
    {
      && ValidCrypto(verifier.cr) && ValidScheme(Real(verifier.cr))
      && registry.Valid() && verifier.Valid() && Sound(Real(verifier.cr), registry.View(), verifier.View())
    }

    /** The dummy pair stands in for a malformed or unknown key; None is a failing registry. */
    method Find(presented: string, infra: bool) returns (q: Option<Query>)
      requires Valid()
      ensures var r := Looked(Real(verifier.cr), registry.View(), Arriving(registry.View(), presented), infra);
        q == if r.stage.Finished? then None else Some(Query(r.keyID, r.phc, r.secret, r.rec))
      ensures match Parse(presented)
        case None => q == Some(Query("apikeys:dummy", DummyPhc(verifier.cr), presented, None))
        case Some((prefix, secret)) =>
          if infra then q == None
          else if prefix !in registry.keysByPrefix then
            q == Some(Query("apikeys:dummy", DummyPhc(verifier.cr), secret, None))
          else
            && q.Some? && q.value.secret == secret && q.value.keyID == registry.keysByPrefix[prefix]
            && q.value.phc == registry.apiKeys[q.value.keyID].secretHash
            && q.value.rec.Some? && q.value.rec.value.keyID == q.value.keyID
    {
      var dummy := DummyPhc(verifier.cr);
      var parsed := Parse(presented);
      if parsed == None { return Some(Query(DUMMY_KEY_ID, dummy, presented, None)); }
      var (prefix, secret) := parsed.value;
      if infra { return None; }
      var found := registry.LookupPrefix(prefix);
      if found.Err? { return Some(Query(DUMMY_KEY_ID, dummy, secret, None)); }
      return Some(Query(found.value.keyID, found.value.secretHash, secret, Some(found.value)));
    }

    /**
     * What the protocol does with the request alone. Hence the cached decision is the uncached one, whatever the cache
     * holds, and a failing verdict on a well-formed hash, the dummy's included, ran exactly one derive.
     */
    method Authenticate(presented: string, infra: bool, now: int) returns (d: Decision, derives: nat)
      requires Valid()
      modifies verifier
      ensures Valid()
      ensures Outcome(d, derives, verifier.View()) ==
              Alone(Real(verifier.cr), registry.View(), old(verifier.View()), presented, infra, now)
      ensures d == if Parse(presented).Some? && infra then InfraError
                   else AuthProtocol.Authenticate(Real(verifier.cr), registry.View(), presented)
      ensures var r := Looked(Real(verifier.cr), registry.View(), Arriving(registry.View(), presented), infra);
        !r.stage.Finished? && Check(verifier.cr.kdf, r.phc, r.secret) == Some(false) ==> derives == 1
    {
      AloneIsTransparent(Real(verifier.cr), registry.View(), verifier.View(), presented, infra, now);
      var q := Find(presented, infra);
      if q == None { return InfraError, 0; }
      d, derives := Verdict(q.value, now);
    }

    /** The rest of apiKeyAuth: verify once, then judge the record. */
    method Verdict(q: Query, now: int) returns (d: Decision, derives: nat)
      requires verifier.Valid()
      modifies verifier
      ensures verifier.Valid()
      ensures var c := old(verifier.View()); var hash := verifier.cr.sha(q.secret);
        var ok := if Hit(c, q.keyID, hash, now) then Some(true) else Check(verifier.cr.kdf, q.phc, q.secret);
        && d == (if ok != Some(true) || q.rec == None then Unauthorized else Admit(q.rec.value))
        && derives == (if Hit(c, q.keyID, hash, now) || ok == None then 0 else 1)
        && verifier.View() == if !Hit(c, q.keyID, hash, now) && ok == Some(true) then Stored(c, q.keyID, hash, now)
                              else c
    {
      var ok, n := verifier.Verify(q.keyID, q.phc, q.secret, now);
      derives := n;
      if ok != Some(true) || q.rec == None { return Unauthorized, n; }
      if q.rec.value.revoked { return Unauthorized, n; }
      if q.rec.value.status != "active" { return NotRegistered, n; }
      return Authenticated(q.rec.value.clientID), n;
    }

    method CreateKey(clientID: Id, prefix: string, secretHash: string) returns (r: Result<Id, Error>)
      requires Valid()
      modifies registry
      ensures Valid() && (registry.View(), r) == CreateAPIKey(old(registry.View()), clientID, prefix, secretHash)
    {
      ghost var before, op := registry.View(), OpCreateKey(clientID, prefix, secretHash);
      SoundThrough(Real(verifier.cr), before, op, verifier.View());
      r := registry.AddKey(clientID, prefix, secretHash);
      assert registry.View() == Perform(before, op);
    }

    method RevokeKey(clientID: Id, keyID: Id) returns (r: Result<(), Error>)
      requires Valid()
      modifies registry
      ensures Valid() && (registry.View(), r) == RevokeAPIKey(old(registry.View()), clientID, keyID)
    {
      ghost var before, op := registry.View(), OpRevokeKey(clientID, keyID);
      SoundThrough(Real(verifier.cr), before, op, verifier.View());
      r := registry.RevokeKey(clientID, keyID);
      assert registry.View() == Perform(before, op);
    }
  }
}
