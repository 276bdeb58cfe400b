/** Authentication requests interleaved with registry changes, the clock and each other, over the shared key cache. */
module AuthProtocol {
  import opened Common
  import opened Encoding
  import opened ApiKeys
  import opened Registry
  import opened KeyCache

  datatype Decision = Authenticated(clientID: Id) | Unauthorized | NotRegistered | InfraError

  /**
   * What authentication takes from the key functions: how keys are parsed, which secrets a stored hash accepts (None:
   * the hash is malformed), the cache's digest of a secret, and the dummy hash.
   */
  datatype Scheme = Scheme(
    parse: string -> Option<(string, string)>, check: (string, string) -> Option<bool>,
    sha: string -> seq<Byte>, dummyPhc: string)

  ghost predicate ValidScheme(k: Scheme) {
    forall a, b :: k.sha(a) == k.sha(b) ==> a == b
  }

  /** The scheme in use: Parse, and argon2id against the stored PHC string. */
  ghost function Real(cr: Crypto): Scheme
    requires ValidCrypto(cr)
  {
    Scheme(Parse, (phcHash, secret) => Check(cr.kdf, phcHash, secret), cr.sha, DummyPhc(cr))
  }

  lemma RealIsValid(cr: Crypto)
    requires ValidCrypto(cr)
    ensures ValidScheme(Real(cr)) && Real(cr).check(DummyPhc(cr), DUMMY_SECRET).Some?
  {
    DummyIsWellFormed(cr);
  }

  // ----- The decision without a cache -----

  /** A resolved key that passed the check: revoked keys and inactive clients are refused. */
  function Admit(rec: KeyRecord): Decision {
    if rec.revoked then Unauthorized
    else if rec.status != "active" then NotRegistered
    else Authenticated(rec.clientID)
  }

  /** What a presented key deserves, by the registry alone. */
  function Authenticate(k: Scheme, reg: Reg, presented: string): Decision
    requires PrefixesResolve(reg)
  {
    match k.parse(presented)
    case None => Unauthorized
    case Some((prefix, secret)) =>
      match GetClientByKeyPrefix(reg, prefix)
      case Err(_) => Unauthorized
      case Ok(rec) => if k.check(rec.secretHash, secret) == Some(true) then Admit(rec) else Unauthorized
  }

  /**
   * Who gets in: the holder of a secret that passes the hash of a registered, unrevoked key of an active client, and is
   * taken for that client. With an inactive client the same holder is told so; everyone else is just unauthorized.
   */
  lemma AuthenticateIff(k: Scheme, reg: Reg, presented: string)
    requires PrefixesResolve(reg)
    ensures var d := Authenticate(k, reg, presented);
      var right := k.parse(presented).Some? && k.parse(presented).value.0 in reg.keysByPrefix
        && var row := reg.apiKeys[reg.keysByPrefix[k.parse(presented).value.0]];
           k.check(row.secretHash, k.parse(presented).value.1) == Some(true) && !row.revoked;
      if !right then d == Unauthorized
      else
        var c := reg.apiKeys[reg.keysByPrefix[k.parse(presented).value.0]].clientID;
        d == if c in reg.clients && reg.clients[c].status == "active" then Authenticated(c) else NotRegistered
  {
  }

  // ----- The protocol -----

  /** A request's progress through apiKeyAuth and Verify; every step touches shared state at most once. */
  datatype Stage =
    | Arrived | Resolved | Timed | Missed | Derived
    | Judged(ok: Option<bool>)
    | Finished(decision: Decision)

  /**
   * `seen` is the registry as the request's lookup found it; `keyID`, `phc` and `secret` are what Verify is called
   * with; `at` is the instant Verify read, `derives` how often it ran the KDF, `hit` whether the cache answered.
   */
  datatype Request = Request(
    stage: Stage, presented: string, seen: Reg, rec: Option<KeyRecord>,
    keyID: Id, phc: string, secret: string, at: int, derives: nat, hit: bool)

  /** A successful derive: the secret and the instant its Verify had read. */
  datatype Win = Win(keyID: Id, secret: string, at: int)

  /**
   * History: `why` is the success behind each cache entry, `wins` all successful derives, `inserted` the keys in the
   * order of their insertion into the cache.
   */
  datatype State = State(
    reg: Reg, cache: Cache, now: int, reqs: map<nat, Request>,
    why: map<Id, Win>, wins: set<Win>, inserted: seq<Id>)

  datatype Action =
    | Tick(to: int)
    | Change(op: Op)
    | Arrive(q: nat, presented: string)
    | Resolve(q: nat, infra: bool)
    | ReadClock(q: nat)
    | Probe(q: nat)
    | Derive(q: nat)
    | Save(q: nat)
    | Decide(q: nat)

  ghost predicate Enabled(s: State, a: Action) {
    match a
    case Tick(to) => s.now <= to
    case Change(_) => true
    case Arrive(q, _) => q !in s.reqs
    case Resolve(q, _) => q in s.reqs && s.reqs[q].stage == Arrived
    case ReadClock(q) => q in s.reqs && s.reqs[q].stage == Resolved
    case Probe(q) => q in s.reqs && s.reqs[q].stage == Timed
    case Derive(q) => q in s.reqs && s.reqs[q].stage == Missed
    case Save(q) => q in s.reqs && s.reqs[q].stage == Derived
    case Decide(q) => q in s.reqs && s.reqs[q].stage.Judged?
  }

  function Put(s: State, q: nat, r: Request): State {
    s.(reqs := s.reqs[q := r])
  }

  /** Parse and look up: a malformed key or an unknown prefix stands in as the dummy key, with the same work to do. */
  ghost function Looked(k: Scheme, reg: Reg, r: Request, infra: bool): Request
    requires ValidScheme(k) && PrefixesResolve(reg)
  {
    var dummy := r.(stage := Resolved, seen := reg, rec := None, keyID := DUMMY_KEY_ID, phc := k.dummyPhc);
    match k.parse(r.presented)
    case None => dummy.(secret := r.presented)
    case Some((prefix, secret)) =>
      if infra then r.(stage := Finished(InfraError), seen := reg)
      else
        match GetClientByKeyPrefix(reg, prefix)
        case Err(_) => dummy.(secret := secret)
        case Ok(rec) =>
          r.(stage := Resolved, seen := reg, rec := Some(rec), keyID := rec.keyID, phc := rec.secretHash,
            secret := secret)
  }

  /** The branches of apiKeyAuth after Verify. */
  function Decided(r: Request, ok: Option<bool>): Decision {
    if ok != Some(true) || r.rec == None then Unauthorized else Admit(r.rec.value)
  }

  ghost function Apply(k: Scheme, s: State, a: Action): State
    requires ValidScheme(k) && PrefixesResolve(s.reg) && WellKept(s.cache) && Enabled(s, a)
  {
    match a
    case Tick(to) => s.(now := to)
    case Change(op) => s.(reg := Perform(s.reg, op))
    case Arrive(q, presented) => Put(s, q, Request(Arrived, presented, s.reg, None, "", "", "", 0, 0, false))
    case Resolve(q, infra) => Put(s, q, Looked(k, s.reg, s.reqs[q], infra))
    case ReadClock(q) => Put(s, q, s.reqs[q].(stage := Timed, at := s.now))
    case Probe(q) =>
      var r := s.reqs[q];
      var hit := Hit(s.cache, r.keyID, k.sha(r.secret), r.at);
      Put(s, q, r.(hit := hit, stage := if hit then Judged(Some(true)) else Missed))
    case Derive(q) => ApplyDerive(k, s, q)
    case Save(q) => ApplySave(k, s, q)
    case Decide(q) => Put(s, q, s.reqs[q].(stage := Finished(Decided(s.reqs[q], s.reqs[q].stage.ok))))
  }

  function ApplyDerive(k: Scheme, s: State, q: nat): State
    requires q in s.reqs
  {
    var r := s.reqs[q];
    match k.check(r.phc, r.secret)
    case None => Put(s, q, r.(stage := Judged(None)))
    case Some(false) => Put(s, q, r.(stage := Judged(Some(false)), derives := r.derives + 1))
    case Some(true) =>
      Put(s, q, r.(stage := Derived, derives := r.derives + 1)).(wins := s.wins + {Win(r.keyID, r.secret, r.at)})
  }

  function ApplySave(k: Scheme, s: State, q: nat): State
    requires WellKept(s.cache) && q in s.reqs
  {
    var r := s.reqs[q];
    Put(s, q, r.(stage := Judged(Some(true)))).(
      cache := Stored(s.cache, r.keyID, k.sha(r.secret), r.at),
      why := s.why[r.keyID := Win(r.keyID, r.secret, r.at)],
      inserted := Inserted(s.cache, r.keyID, s.inserted))
  }

  // ----- The invariant -----

  /** The hash a key id stands for; it never changes. */
  ghost function HashOf(k: Scheme, reg: Reg, keyID: Id): Option<string>
    requires ValidScheme(k)
  {
    if keyID == DUMMY_KEY_ID then Some(k.dummyPhc)
    else if keyID in reg.apiKeys then Some(reg.apiKeys[keyID].secretHash)
    else None
  }

  /** The secret passes the hash its key id stands for. */
  ghost predicate Passes(k: Scheme, reg: Reg, keyID: Id, secret: string)
    requires ValidScheme(k)
  {
    HashOf(k, reg, keyID).Some? && k.check(HashOf(k, reg, keyID).value, secret) == Some(true)
  }

  ghost predicate CacheSound(k: Scheme, s: State)
    requires ValidScheme(k)
  {
    forall id :: id in s.cache.entries ==>
      && id in s.why && s.why[id] in s.wins && s.why[id].keyID == id
      && s.cache.entries[id] == Entry(k.sha(s.why[id].secret), s.why[id].at + CACHE_TTL)
      && Passes(k, s.reg, id, s.why[id].secret)
  }

  /** The hash and the secret a presented key comes down to: the key's own hash, or else the dummy's. */
  function Pair(k: Scheme, reg: Reg, presented: string): (string, string)
    requires PrefixesResolve(reg)
  {
    match k.parse(presented)
    case None => (k.dummyPhc, presented)
    case Some((prefix, secret)) =>
      match GetClientByKeyPrefix(reg, prefix)
      case Err(_) => (k.dummyPhc, secret)
      case Ok(rec) => (rec.secretHash, secret)
  }

  /** What the pair's own check says. */
  function PairCheck(k: Scheme, reg: Reg, presented: string): Option<bool>
    requires PrefixesResolve(reg)
  {
    k.check(Pair(k, reg, presented).0, Pair(k, reg, presented).1)
  }

  /** What a request holds agrees with the registry it saw. */
  ghost predicate Faithful(k: Scheme, reg: Reg, r: Request)
    requires ValidScheme(k)
  {
    && PrefixesResolve(r.seen)
    && HashOf(k, reg, r.keyID) == Some(r.phc)
    && (r.phc, r.secret) == Pair(k, r.seen, r.presented)
    && (match k.parse(r.presented)
        case None => r.rec == None
        case Some((prefix, secret)) =>
          match GetClientByKeyPrefix(r.seen, prefix)
          case Err(_) => r.rec == None
          case Ok(rec) => r.rec == Some(rec))
  }

  /** A verdict cost one derive, unless the hash is malformed or the cache answered, and that is a success. */
  predicate Paid(r: Request, ok: Option<bool>) {
    r.derives == (if r.hit || ok == None then 0 else 1) && (r.hit ==> ok == Some(true))
  }

  predicate Unpaid(r: Request) {
    r.derives == 0 && !r.hit
  }

  ghost predicate RequestOk(k: Scheme, s: State, r: Request)
    requires ValidScheme(k)
  {
    match r.stage
    case Arrived => Unpaid(r)
    case Resolved => Faithful(k, s.reg, r) && Unpaid(r)
    case Timed => Faithful(k, s.reg, r) && Unpaid(r)
    case Missed => Faithful(k, s.reg, r) && Unpaid(r)
    case Derived =>
      Faithful(k, s.reg, r) && r.derives == 1 && !r.hit && k.check(r.phc, r.secret) == Some(true) &&
      Win(r.keyID, r.secret, r.at) in s.wins
    case Judged(ok) => Faithful(k, s.reg, r) && Paid(r, ok) && ok == k.check(r.phc, r.secret)
    case Finished(InfraError) => r.derives == 0
    case Finished(d) =>
      && Faithful(k, s.reg, r) && d == Decided(r, k.check(r.phc, r.secret))
      && d == Authenticate(k, r.seen, r.presented) && Paid(r, k.check(r.phc, r.secret))
  }

  ghost predicate Inv(k: Scheme, s: State)
    requires ValidScheme(k)
  {
    && Consistent(s.reg) && WellKept(s.cache) && Recent(s.cache, s.inserted) && CacheSound(k, s)
    && forall q :: q in s.reqs ==> RequestOk(k, s, s.reqs[q])
  }

  // ----- A key id is bound to one hash for good -----

  lemma {:induction false} DummyNotMinted(n: nat)
    ensures DUMMY_KEY_ID !in MintedIds(n)
  {
    if n > 0 {
      DummyNotMinted(n - 1);
      assert MintedId(n)[0] == '0' && DUMMY_KEY_ID[0] == 'a';
    }
  }

  lemma HashStays(k: Scheme, reg: Reg, op: Op, keyID: Id)
    requires ValidScheme(k) && Consistent(reg) && HashOf(k, reg, keyID).Some?
    ensures HashOf(k, Perform(reg, op), keyID) == HashOf(k, reg, keyID)
  {
    if op.OpCreateKey? { NextIsFresh(reg); }
  }

  // ----- Every step keeps the invariant -----

  lemma ChangeKeeps(k: Scheme, s: State, op: Op)
    requires ValidScheme(k) && Inv(k, s)
    ensures Inv(k, s.(reg := Perform(s.reg, op)))
  {
    var s' := s.(reg := Perform(s.reg, op));
    PerformConsistent(s.reg, op);
    forall keyID | HashOf(k, s.reg, keyID).Some?
      ensures HashOf(k, s'.reg, keyID) == HashOf(k, s.reg, keyID)
    {
      HashStays(k, s.reg, op, keyID);
    }
    ChangedCacheSound(k, s, s');
    forall q | q in s'.reqs
      ensures RequestOk(k, s', s'.reqs[q])
    {
      ChangedRequestOk(k, s, s', s.reqs[q]);
    }
  }

  ghost predicate HashesStay(k: Scheme, reg: Reg, reg': Reg)
    requires ValidScheme(k)
  {
    forall keyID :: HashOf(k, reg, keyID).Some? ==> HashOf(k, reg', keyID) == HashOf(k, reg, keyID)
  }

  lemma ChangedCacheSound(k: Scheme, s: State, s': State)
    requires ValidScheme(k) && CacheSound(k, s) && s' == s.(reg := s'.reg) && HashesStay(k, s.reg, s'.reg)
    ensures CacheSound(k, s')
  {
  }

  lemma ChangedRequestOk(k: Scheme, s: State, s': State, r: Request)
    requires ValidScheme(k) && RequestOk(k, s, r) && s' == s.(reg := s'.reg) && HashesStay(k, s.reg, s'.reg)
    ensures RequestOk(k, s', r)
  {
  }

  /** A step of one request that leaves registry and cache alone. */
  lemma OneRequest(k: Scheme, s: State, s': State, q: nat)
    requires ValidScheme(k) && Inv(k, s) && q in s'.reqs
    requires s'.reg == s.reg && s'.cache == s.cache && s'.why == s.why && s'.inserted == s.inserted
    requires s.wins <= s'.wins && s'.reqs.Keys <= s.reqs.Keys + {q}
    requires forall p :: p in s'.reqs && p != q ==> s'.reqs[p] == s.reqs[p]
    requires RequestOk(k, s', s'.reqs[q])
    ensures Inv(k, s')
  {
    CacheSoundLater(k, s, s');
    forall p | p in s'.reqs && p != q
      ensures RequestOk(k, s', s'.reqs[p])
    {
      assert p in s.reqs;
      RequestOkLater(k, s, s', s.reqs[p]);
    }
  }

  lemma CacheSoundLater(k: Scheme, s: State, s': State)
    requires ValidScheme(k) && CacheSound(k, s)
    requires s'.reg == s.reg && s'.cache == s.cache && s'.why == s.why && s.wins <= s'.wins
    ensures CacheSound(k, s')
  {
  }

  lemma RequestOkLater(k: Scheme, s: State, s': State, r: Request)
    requires ValidScheme(k) && RequestOk(k, s, r) && s'.reg == s.reg && s.wins <= s'.wins
    ensures RequestOk(k, s', r)
  {
  }

  lemma LookedOk(k: Scheme, s: State, r: Request, infra: bool)
    requires ValidScheme(k) && Consistent(s.reg) && r.stage == Arrived && Unpaid(r)
    ensures RequestOk(k, s, Looked(k, s.reg, r, infra))
  {
    var r' := Looked(k, s.reg, r, infra);
    if r'.rec.Some? && r'.stage == Resolved { DummyNotMinted(s.reg.counter); }
  }

  /** A hit is a success: the entry's secret is the request's own, since their hashes agree. */
  lemma HitPasses(k: Scheme, s: State, r: Request)
    requires ValidScheme(k) && CacheSound(k, s) && Faithful(k, s.reg, r)
    requires Hit(s.cache, r.keyID, k.sha(r.secret), r.at)
    ensures k.check(r.phc, r.secret) == Some(true)
    ensures s.why[r.keyID].secret == r.secret && s.why[r.keyID] in s.wins && r.at <= s.why[r.keyID].at + CACHE_TTL
  {
  }

  lemma DecidedIsAuthenticate(k: Scheme, reg: Reg, r: Request, ok: Option<bool>)
    requires ValidScheme(k) && Faithful(k, reg, r) && ok == k.check(r.phc, r.secret)
    ensures Decided(r, ok) == Authenticate(k, r.seen, r.presented)
  {
  }

  lemma SaveKeepsSound(k: Scheme, s: State, q: nat)
    requires ValidScheme(k) && WellKept(s.cache) && CacheSound(k, s) && Enabled(s, Save(q))
    requires RequestOk(k, s, s.reqs[q])
    ensures CacheSound(k, ApplySave(k, s, q))
  {
  }

  lemma SaveKeeps(k: Scheme, s: State, q: nat)
    requires ValidScheme(k) && Inv(k, s) && Enabled(s, Save(q))
    ensures Inv(k, ApplySave(k, s, q))
  {
    var r, s' := s.reqs[q], ApplySave(k, s, q);
    StoredKeeps(s.cache, r.keyID, k.sha(r.secret), r.at);
    StoredRecent(s.cache, r.keyID, k.sha(r.secret), r.at, s.inserted);
    SaveKeepsSound(k, s, q);
    SaveShape(k, s, q);
    RequestsOkLater(k, s, s', q);
  }

  lemma SaveShape(k: Scheme, s: State, q: nat)
    requires ValidScheme(k) && WellKept(s.cache) && Enabled(s, Save(q)) && RequestOk(k, s, s.reqs[q])
    ensures var s' := ApplySave(k, s, q);
      && s'.reg == s.reg && s'.wins == s.wins && s'.reqs.Keys == s.reqs.Keys
      && (forall p :: p in s.reqs && p != q ==> s'.reqs[p] == s.reqs[p])
      && RequestOk(k, s', s'.reqs[q])
  {
  }

  lemma RequestsOkLater(k: Scheme, s: State, s': State, q: nat)
    requires ValidScheme(k) && forall p :: p in s.reqs ==> RequestOk(k, s, s.reqs[p])
    requires s'.reg == s.reg && s.wins <= s'.wins && s'.reqs.Keys == s.reqs.Keys
    requires forall p :: p in s.reqs && p != q ==> s'.reqs[p] == s.reqs[p]
    requires q in s.reqs && RequestOk(k, s', s'.reqs[q])
    ensures forall p :: p in s'.reqs ==> RequestOk(k, s', s'.reqs[p])
  {
    forall p | p in s'.reqs && p != q
      ensures RequestOk(k, s', s'.reqs[p])
    {
      RequestOkLater(k, s, s', s.reqs[p]);
    }
  }

  lemma InvStep(k: Scheme, s: State, a: Action)
    requires ValidScheme(k) && Inv(k, s) && Enabled(s, a)
    ensures Inv(k, Apply(k, s, a))
  {
    match a
    case Tick(to) => TickKeeps(k, s, to);
    case Change(op) => ChangeKeeps(k, s, op);
    case Save(q) => SaveKeeps(k, s, q);
    case _ =>
      RequestShape(k, s, a);
      RequestStep(k, s, a);
      OneRequest(k, s, Apply(k, s, a), a.q);
  }

  /** The steps of a request before and after Save touch that request only, and add to the history at most a success. */
  lemma RequestShape(k: Scheme, s: State, a: Action)
    requires ValidScheme(k) && PrefixesResolve(s.reg) && WellKept(s.cache)
    requires Enabled(s, a) && !a.Tick? && !a.Change? && !a.Save?
    ensures var s' := Apply(k, s, a);
      && s'.reg == s.reg && s'.cache == s.cache && s'.why == s.why && s'.inserted == s.inserted
      && s.wins <= s'.wins && a.q in s'.reqs && s'.reqs.Keys <= s.reqs.Keys + {a.q}
      && forall p :: p in s'.reqs && p != a.q ==> s'.reqs[p] == s.reqs[p]
  {
  }

  lemma TickKeeps(k: Scheme, s: State, to: int)
    requires ValidScheme(k) && Inv(k, s)
    ensures Inv(k, s.(now := to))
  {
    forall q | q in s.reqs
      ensures RequestOk(k, s.(now := to), s.reqs[q])
    {
      assert RequestOk(k, s, s.reqs[q]);
    }
  }

  lemma RequestStep(k: Scheme, s: State, a: Action)
    requires ValidScheme(k) && Inv(k, s) && Enabled(s, a) && !a.Tick? && !a.Change? && !a.Save?
    ensures a.q in Apply(k, s, a).reqs && RequestOk(k, Apply(k, s, a), Apply(k, s, a).reqs[a.q])
  {
    if !a.Arrive? { assert RequestOk(k, s, s.reqs[a.q]); }
    match a
    case Arrive(_, _) =>
    case Resolve(q, infra) => LookedOk(k, s, s.reqs[q], infra);
    case Probe(q) => ProbedOk(k, s, q);
    case Derive(q) => DerivedOk(k, s, q);
    case _ => TimedOrDecidedOk(k, s, a);
  }

  lemma TimedOrDecidedOk(k: Scheme, s: State, a: Action)
    requires ValidScheme(k) && PrefixesResolve(s.reg) && WellKept(s.cache) && Enabled(s, a)
    requires (a.ReadClock? || a.Decide?) && RequestOk(k, s, s.reqs[a.q])
    ensures a.q in Apply(k, s, a).reqs && RequestOk(k, Apply(k, s, a), Apply(k, s, a).reqs[a.q])
  {
    var r := s.reqs[a.q];
    StillFaithful(k, s.reg, r, Apply(k, s, a).reqs[a.q]);
    if a.Decide? { DecidedIsAuthenticate(k, s.reg, r, r.stage.ok); }
  }

  lemma ProbedOk(k: Scheme, s: State, q: nat)
    requires ValidScheme(k) && PrefixesResolve(s.reg) && WellKept(s.cache) && CacheSound(k, s) && Enabled(s, Probe(q))
    requires RequestOk(k, s, s.reqs[q])
    ensures q in Apply(k, s, Probe(q)).reqs && RequestOk(k, Apply(k, s, Probe(q)), Apply(k, s, Probe(q)).reqs[q])
  {
    if Hit(s.cache, s.reqs[q].keyID, k.sha(s.reqs[q].secret), s.reqs[q].at) { HitPasses(k, s, s.reqs[q]); }
  }

  lemma DerivedOk(k: Scheme, s: State, q: nat)
    requires ValidScheme(k) && PrefixesResolve(s.reg) && WellKept(s.cache) && Enabled(s, Derive(q))
    requires RequestOk(k, s, s.reqs[q])
    ensures q in Apply(k, s, Derive(q)).reqs && RequestOk(k, Apply(k, s, Derive(q)), Apply(k, s, Derive(q)).reqs[q])
  {
    StillFaithful(k, s.reg, s.reqs[q], ApplyDerive(k, s, q).reqs[q]);
  }

  /** A request stays faithful as long as what it holds stays. */
  lemma StillFaithful(k: Scheme, reg: Reg, r: Request, r': Request)
    requires ValidScheme(k) && Faithful(k, reg, r)
    requires r'.presented == r.presented && r'.seen == r.seen && r'.rec == r.rec
    requires r'.keyID == r.keyID && r'.phc == r.phc && r'.secret == r.secret
    ensures Faithful(k, reg, r')
  {
  }

  // ----- Runs -----

  ghost predicate Init(s: State) {
    s.reg == Registry.EMPTY && s.cache == KeyCache.EMPTY && s.reqs == map[] && s.why == map[] && s.wins == {} &&
      s.inserted == []
  }

  ghost predicate CanStep(s: State, a: Action) {
    PrefixesResolve(s.reg) && WellKept(s.cache) && Enabled(s, a)
  }

  ghost predicate CanRun(k: Scheme, s: State, acts: seq<Action>)
    requires ValidScheme(k)
    decreases |acts|
  {
    acts == [] || (CanStep(s, acts[0]) && CanRun(k, Apply(k, s, acts[0]), acts[1..]))
  }

  ghost function Run(k: Scheme, s: State, acts: seq<Action>): State
    requires ValidScheme(k) && CanRun(k, s, acts)
    decreases |acts|
  {
    if acts == [] then s else Run(k, Apply(k, s, acts[0]), acts[1..])
  }

  lemma InitInv(k: Scheme, s: State)
    requires ValidScheme(k) && Init(s)
    ensures Inv(k, s)
  {
  }

  lemma {:induction false} RunInv(k: Scheme, s: State, acts: seq<Action>)
    requires ValidScheme(k) && Inv(k, s) && CanRun(k, s, acts)
    ensures Inv(k, Run(k, s, acts))
    decreases |acts|
  {
    if acts != [] {
      InvStep(k, s, acts[0]);
      RunInv(k, Apply(k, s, acts[0]), acts[1..]);
    }
  }

  /**
   * In reachable states the side conditions of a step hold by themselves: only the request's own progress enables it.
   */
  lemma StepsAreFree(k: Scheme, s: State, a: Action)
    requires ValidScheme(k) && Inv(k, s) && Enabled(s, a)
    ensures CanStep(s, a)
  {
  }

  // ----- Theorems -----

  /**
   * Through every interleaving, a finished request was decided as if there were no cache, by the registry its own
   * lookup saw: authenticated or refused exactly as Authenticate says. If the secret fails the hash that the presented
   * key comes down to, the dummy's for a malformed or unknown key, the KDF ran exactly once, and never more than once.
   */
  lemma CacheIsTransparent(k: Scheme, s0: State, acts: seq<Action>, q: nat)
    requires ValidScheme(k) && Init(s0) && CanRun(k, s0, acts)
    requires q in Run(k, s0, acts).reqs && Run(k, s0, acts).reqs[q].stage.Finished?
    requires Run(k, s0, acts).reqs[q].stage.decision != InfraError
    ensures var r := Run(k, s0, acts).reqs[q];
      && PrefixesResolve(r.seen)
      && r.stage.decision == Authenticate(k, r.seen, r.presented)
      && (PairCheck(k, r.seen, r.presented) == Some(false) ==> r.derives == 1)
      && r.derives <= 1
  {
    InitInv(k, s0);
    RunInv(k, s0, acts);
    FinishedOk(k, Run(k, s0, acts), Run(k, s0, acts).reqs[q]);
  }

  lemma FinishedOk(k: Scheme, s: State, r: Request)
    requires ValidScheme(k) && RequestOk(k, s, r) && r.stage.Finished? && r.stage.decision != InfraError
    ensures PrefixesResolve(r.seen) && r.stage.decision == Authenticate(k, r.seen, r.presented)
    ensures Paid(r, PairCheck(k, r.seen, r.presented))
    ensures r.stage.decision == Decided(r, PairCheck(k, r.seen, r.presented))
  {
  }

  /** `hit` is what it says: set by the probe to whether the cache answers, and never touched again. */
  lemma HitAtProbe(k: Scheme, s: State, a: Action, q: nat)
    requires ValidScheme(k) && CanStep(s, a) && q in s.reqs
    ensures q in Apply(k, s, a).reqs
    ensures a.Probe? && a.q == q ==> var r := s.reqs[q];
      Apply(k, s, a).reqs[q].hit == Hit(s.cache, r.keyID, k.sha(r.secret), r.at)
    ensures !(a.Probe? && a.q == q) ==> Apply(k, s, a).reqs[q].hit == s.reqs[q].hit
  {
  }

  /**
   * `derives` and `wins` are what they say: a derive counts for its own request, unless the stored hash is malformed,
   * and a successful one is recorded with the key, the secret and the instant it was made for.
   */
  lemma DerivesAreCurrent(k: Scheme, s: State, a: Action, q: nat)
    requires ValidScheme(k) && CanStep(s, a) && q in s.reqs
    ensures q in Apply(k, s, a).reqs
    ensures var r := s.reqs[q]; var derives := a.Derive? && a.q == q;
      var won := if k.check(r.phc, r.secret) == Some(true) then {Win(r.keyID, r.secret, r.at)} else {};
      && Apply(k, s, a).reqs[q].derives == r.derives + (if derives && k.check(r.phc, r.secret).Some? then 1 else 0)
      && (derives ==> Apply(k, s, a).wins == s.wins + won)
    ensures !a.Derive? ==> Apply(k, s, a).wins == s.wins
  {
  }

  /**
   * A refusal comes without a derive exactly if the stored hash is malformed or the cache answers. It then answers that
   * the secret is right, so the refusal is for a secret that happens to pass the dummy hash, a revoked key or an
   * inactive client.
   */
  lemma RefusedWithoutDeriveIff(k: Scheme, s0: State, acts: seq<Action>, q: nat)
    requires ValidScheme(k) && Init(s0) && CanRun(k, s0, acts)
    requires q in Run(k, s0, acts).reqs && Run(k, s0, acts).reqs[q].stage.Finished?
    requires Run(k, s0, acts).reqs[q].stage.decision in {Unauthorized, NotRegistered}
    ensures var r := Run(k, s0, acts).reqs[q];
      && PrefixesResolve(r.seen)
      && (r.derives == 0 <==> PairCheck(k, r.seen, r.presented) == None || r.hit)
      && (r.hit ==> PairCheck(k, r.seen, r.presented) == Some(true)
                    && (r.rec == None || r.rec.value.revoked || r.rec.value.status != "active"))
  {
    InitInv(k, s0);
    RunInv(k, s0, acts);
    FinishedOk(k, Run(k, s0, acts), Run(k, s0, acts).reqs[q]);
  }

  /** `seen` is what it says: set to the registry of the moment by the lookup, and never touched again. */
  lemma SeenAtLookup(k: Scheme, s: State, a: Action, q: nat)
    requires ValidScheme(k) && CanStep(s, a) && q in s.reqs
    ensures q in Apply(k, s, a).reqs
    ensures Apply(k, s, a).reqs[q].presented == s.reqs[q].presented
    ensures a.Resolve? && a.q == q ==> Apply(k, s, a).reqs[q].seen == s.reg
    ensures !(a.Resolve? && a.q == q) ==> Apply(k, s, a).reqs[q].seen == s.reqs[q].seen
  {
  }

  /**
   * A cache hit is justified by a successful derive for the same key and secret, captured at most five minutes earlier.
   */
  lemma HitIsJustified(k: Scheme, s0: State, acts: seq<Action>, q: nat)
    requires ValidScheme(k) && Init(s0) && CanRun(k, s0, acts)
    requires Enabled(Run(k, s0, acts), Probe(q))
    requires var s := Run(k, s0, acts); var r := s.reqs[q]; Hit(s.cache, r.keyID, k.sha(r.secret), r.at)
    ensures var s := Run(k, s0, acts); var r := s.reqs[q];
      && k.check(r.phc, r.secret) == Some(true)
      && exists w :: w in s.wins && w.keyID == r.keyID && w.secret == r.secret && r.at - w.at <= CACHE_TTL
  {
    InitInv(k, s0);
    RunInv(k, s0, acts);
    var s := Run(k, s0, acts);
    assert RequestOk(k, s, s.reqs[q]);
    HitPasses(k, s, s.reqs[q]);
    assert s.why[s.reqs[q].keyID] in s.wins;
  }

  /**
   * In every reachable state the cache is bounded, its keys are the members of a duplicate-free order list, that list
   * is the last part of the history of insertions, and the last 1024 insertions are present.
   */
  lemma CacheIsBounded(k: Scheme, s0: State, acts: seq<Action>)
    requires ValidScheme(k) && Init(s0) && CanRun(k, s0, acts)
    ensures var s := Run(k, s0, acts);
      && WellKept(s.cache) && Recent(s.cache, s.inserted)
      && forall i :: 0 <= i < |s.inserted| && |s.inserted| - i <= CACHE_CAP ==> s.inserted[i] in s.cache.entries
  {
    InitInv(k, s0);
    RunInv(k, s0, acts);
    RecentPresent(Run(k, s0, acts).cache, Run(k, s0, acts).inserted);
  }

  lemma RecentPresent(c: Cache, inserted: seq<Id>)
    requires WellKept(c) && Recent(c, inserted)
    ensures forall i :: 0 <= i < |inserted| && |inserted| - i <= CACHE_CAP ==> inserted[i] in c.entries
  {
    forall i | 0 <= i < |inserted| && |inserted| - i <= CACHE_CAP
      ensures inserted[i] in c.entries
    {
      StaysUntilEvicted(c, inserted, i);
    }
  }

  ghost predicate Revoked(reg: Reg, prefix: string) {
    prefix in reg.keysByPrefix && reg.keysByPrefix[prefix] in reg.apiKeys &&
      reg.apiKeys[reg.keysByPrefix[prefix]].revoked
  }

  lemma RevokedStays(reg: Reg, op: Op, prefix: string)
    requires Consistent(reg) && Revoked(reg, prefix)
    ensures Revoked(Perform(reg, op), prefix)
  {
    if op.OpCreateKey? { NextIsFresh(reg); }
  }

  lemma RevokedStep(k: Scheme, s: State, a: Action, prefix: string)
    requires ValidScheme(k) && Consistent(s.reg) && CanStep(s, a) && Revoked(s.reg, prefix)
    ensures Revoked(Apply(k, s, a).reg, prefix)
  {
    if a.Change? { RevokedStays(s.reg, a.op, prefix); }
  }

  lemma {:induction false} RevokedThroughRun(k: Scheme, s: State, acts: seq<Action>, prefix: string)
    requires ValidScheme(k) && Inv(k, s) && CanRun(k, s, acts) && Revoked(s.reg, prefix)
    ensures Revoked(Run(k, s, acts).reg, prefix)
    decreases |acts|
  {
    if acts != [] {
      RevokedStep(k, s, acts[0], prefix);
      InvStep(k, s, acts[0]);
      RevokedThroughRun(k, Apply(k, s, acts[0]), acts[1..], prefix);
    }
  }

  lemma RevokedIsRefused(k: Scheme, reg: Reg, prefix: string, presented: string)
    requires PrefixesResolve(reg) && Revoked(reg, prefix)
    requires k.parse(presented).Some? && k.parse(presented).value.0 == prefix
    ensures Authenticate(k, reg, presented) == Unauthorized
  {
  }

  /** A request that has not looked its key up yet, or looked it up when it was revoked. */
  ghost predicate LooksUpRevoked(s: State, q: nat, prefix: string) {
    q in s.reqs ==> s.reqs[q].stage == Arrived || Revoked(s.reqs[q].seen, prefix)
  }

  lemma LooksUpRevokedStep(k: Scheme, s: State, a: Action, q: nat, prefix: string)
    requires ValidScheme(k) && CanStep(s, a) && Revoked(s.reg, prefix) && LooksUpRevoked(s, q, prefix)
    ensures LooksUpRevoked(Apply(k, s, a), q, prefix)
  {
    if q in s.reqs { SeenAtLookup(k, s, a, q); }
  }

  lemma {:induction false} LooksUpRevokedRun(k: Scheme, s: State, acts: seq<Action>, q: nat, prefix: string)
    requires ValidScheme(k) && Inv(k, s) && CanRun(k, s, acts) && Revoked(s.reg, prefix) && LooksUpRevoked(s, q, prefix)
    ensures LooksUpRevoked(Run(k, s, acts), q, prefix)
    decreases |acts|
  {
    if acts != [] {
      LooksUpRevokedStep(k, s, acts[0], q, prefix);
      RevokedStep(k, s, acts[0], prefix);
      InvStep(k, s, acts[0]);
      LooksUpRevokedRun(k, Apply(k, s, acts[0]), acts[1..], q, prefix);
    }
  }

  /**
   * Revocation takes effect at once and for good: once a key is revoked, and whatever is cached, a request that has not
   * looked it up by then is refused when it finishes, in every run, unless the registry fails it.
   */
  lemma RevocationIsImmediate(k: Scheme, s: State, acts: seq<Action>, q: nat, prefix: string)
    requires ValidScheme(k) && Inv(k, s) && CanRun(k, s, acts) && Revoked(s.reg, prefix)
    requires q in s.reqs ==> s.reqs[q].stage == Arrived
    requires q in Run(k, s, acts).reqs && Run(k, s, acts).reqs[q].stage.Finished?
    requires var key := k.parse(Run(k, s, acts).reqs[q].presented); key.Some? && key.value.0 == prefix
    ensures Run(k, s, acts).reqs[q].stage.decision in {Unauthorized, InfraError}
  {
    LooksUpRevokedRun(k, s, acts, q, prefix);
    RunInv(k, s, acts);
    var r := Run(k, s, acts).reqs[q];
    assert RequestOk(k, Run(k, s, acts), r);
    if r.stage.decision != InfraError {
      FinishedOk(k, Run(k, s, acts), r);
      RevokedIsRefused(k, r.seen, prefix, r.presented);
    }
  }

  // ----- From minting to admission -----

  /**
   * A freshly minted key, once created for a client, is admitted exactly while the client is active, and no more once
   * it has been revoked.
   */
  lemma MintedKeyAuthenticates(cr: Crypto, reg: Reg, clientID: Id, random: seq<Byte>)
    requires ValidCrypto(cr) && Consistent(reg) && clientID in reg.clients
    requires Mint(random, cr.kdf).Some? && Mint(random, cr.kdf).value.prefix !in reg.keysByPrefix
    ensures var m := Mint(random, cr.kdf).value;
      var (reg', r) := CreateAPIKey(reg, clientID, m.prefix, m.phcHash);
      && r.Ok? && PrefixesResolve(reg')
      && Authenticate(Real(cr), reg', m.displayKey) ==
           (if reg.clients[clientID].status == "active" then Authenticated(clientID) else NotRegistered)
      && var (reg'', revoked) := RevokeAPIKey(reg', clientID, r.value);
        revoked.Ok? && PrefixesResolve(reg'') && Authenticate(Real(cr), reg'', m.displayKey) == Unauthorized
  {
    var m := Mint(random, cr.kdf).value;
    MintedKeyChecks(random, cr.kdf);
    MintedResolves(reg, clientID, m);
  }

  lemma MintedResolves(reg: Reg, clientID: Id, m: Minted)
    requires Consistent(reg) && clientID in reg.clients && m.prefix !in reg.keysByPrefix
    ensures var (reg', r) := CreateAPIKey(reg, clientID, m.prefix, m.phcHash);
      && r.Ok? && PrefixesResolve(reg')
      && var rec := KeyRecord(r.value, clientID, m.phcHash, false, reg.clients[clientID].status);
        && GetClientByKeyPrefix(reg', m.prefix) == Ok(rec)
        && RevokeAPIKey(reg', clientID, r.value).1.Ok?
        && PrefixesResolve(RevokeAPIKey(reg', clientID, r.value).0)
        && GetClientByKeyPrefix(RevokeAPIKey(reg', clientID, r.value).0, m.prefix) == Ok(rec.(revoked := true))
  {
    CreatedKeyResolves(reg, clientID, m.prefix, m.phcHash, m.prefix + "x");
    var (reg', r) := CreateAPIKey(reg, clientID, m.prefix, m.phcHash);
    RevokedKeyResolves(reg', clientID, r.value, m.prefix);
  }
}
