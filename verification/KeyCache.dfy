/** The verified-key cache: bounded, expiring, filled by successes only, with first-in first-out eviction. */
module KeyCache {
  import opened Common
  import opened Encoding
  import opened ApiKeys

  const CACHE_TTL := 300 * SECOND
  const CACHE_CAP := 1024

  datatype Entry = Entry(secretHash: seq<Byte>, expiresAt: int)

  datatype Cache = Cache(entries: map<string, Entry>, order: seq<string>)

  const EMPTY := Cache(map[], [])

  /**
   * The key functions left uninterpreted. The KDF returns as many bytes as asked for; SHA-256 is taken to be injective,
   * which a function to exactly 32 bytes cannot be, so only its first 16 bytes, the dummy salt, are presumed.
   */
  datatype Crypto = Crypto(kdf: Kdf, sha: string -> seq<Byte>)

  ghost predicate ValidCrypto(cr: Crypto) {
    && ValidKdf(cr.kdf)
    && (forall a, b :: cr.sha(a) == cr.sha(b) ==> a == b)
    && (forall a :: |cr.sha(a)| >= SALT_LEN)
  }

  const DUMMY_KEY_ID := "apikeys:dummy"
  /** The two fixed inputs, as the bytes of their UTF-8 form. */
  const DUMMY_SALT := "apikeys" + ": fixed dummy salt v1 \U{E2}\U{80}\U{94} never a real key"
  const DUMMY_SECRET := "apikeys" + ": fixed dummy secret v1 \U{E2}\U{80}\U{94} never a real key"

  /** A well-formed hash that belongs to no key. */
  function DummyPhc(cr: Crypto): string
    requires ValidCrypto(cr)
  {
    var salt := cr.sha(DUMMY_SALT)[..SALT_LEN];
    EncodePhc(salt, cr.kdf(DUMMY_SECRET, salt, ARGON_TIME, ARGON_MEMORY, ARGON_THREADS, TAG_LEN))
  }

  lemma DummyIsWellFormed(cr: Crypto)
    requires ValidCrypto(cr)
    ensures var salt := cr.sha(DUMMY_SALT)[..16];
      DecodePhc(DummyPhc(cr)) == Some(Phc(19456, 2, 1, salt, cr.kdf(DUMMY_SECRET, salt, 2, 19456, 1, 32)))
  {
    var salt := cr.sha(DUMMY_SALT)[..SALT_LEN];
    DecodeOfEncode(salt, cr.kdf(DUMMY_SECRET, salt, ARGON_TIME, ARGON_MEMORY, ARGON_THREADS, TAG_LEN));
  }

  // ----- The cache as a value -----

  predicate Hit(c: Cache, keyID: string, hash: seq<Byte>, now: int) {
    keyID in c.entries && now <= c.entries[keyID].expiresAt && c.entries[keyID].secretHash == hash
  }

  function Stored(c: Cache, keyID: string, hash: seq<Byte>, now: int): Cache
    requires c.order != [] || keyID in c.entries || |c.order| < CACHE_CAP
  {
    var entry := Entry(hash, now + CACHE_TTL);
    if keyID in c.entries then c.(entries := c.entries[keyID := entry])
    else if |c.order| >= CACHE_CAP then Cache((c.entries - {c.order[0]})[keyID := entry], c.order[1..] + [keyID])
    else Cache(c.entries[keyID := entry], c.order + [keyID])
  }

  /** The keys are the members of the duplicate-free order list, of which there are at most 1024. */
  ghost predicate WellKept(c: Cache) {
    && |c.order| <= CACHE_CAP
    && NoDuplicates(c.order)
    && (forall k :: k in c.entries <==> k in c.order)
  }

  lemma StoredKeeps(c: Cache, keyID: string, hash: seq<Byte>, now: int)
    requires WellKept(c)
    ensures WellKept(Stored(c, keyID, hash, now))
  {
  }

  /** What is stored hits for five minutes, for its own secret only; of the other keys only the oldest can be lost. */
  lemma StoredHits(c: Cache, keyID: string, hash: seq<Byte>, now: int, other: string, h: seq<Byte>, t: int)
    requires WellKept(c) && other != keyID
    ensures Hit(Stored(c, keyID, hash, now), keyID, h, t) <==> h == hash && t <= now + CACHE_TTL
    ensures Hit(Stored(c, keyID, hash, now), other, h, t) <==>
            Hit(c, other, h, t) && (keyID in c.entries || |c.order| < CACHE_CAP || other != c.order[0])
  {
  }

  /** Eviction is first in, first out: against the history of all insertions, the order list is its last part. */
  ghost predicate Recent(c: Cache, inserted: seq<string>) {
    && |c.order| == (if |inserted| < CACHE_CAP then |inserted| else CACHE_CAP)
    && c.order == inserted[|inserted| - |c.order|..]
  }

  function Inserted(c: Cache, keyID: string, inserted: seq<string>): seq<string> {
    if keyID in c.entries then inserted else inserted + [keyID]
  }

  lemma StoredRecent(c: Cache, keyID: string, hash: seq<Byte>, now: int, inserted: seq<string>)
    requires WellKept(c) && Recent(c, inserted)
    ensures Recent(Stored(c, keyID, hash, now), Inserted(c, keyID, inserted))
  {
  }

  /** So an insertion stays cached until 1024 further keys have been inserted after it, and no longer. */
  lemma StaysUntilEvicted(c: Cache, inserted: seq<string>, i: nat)
    requires WellKept(c) && Recent(c, inserted) && i < |inserted|
    ensures |inserted| - i <= CACHE_CAP ==> inserted[i] in c.entries
    ensures |inserted| - i > CACHE_CAP ==> inserted[i] in c.entries ==>
              exists j :: i < j < |inserted| && inserted[j] == inserted[i]
  {
  }

  // ----- The verifier -----

  class Verifier {
    const cr: Crypto
    var cache: map<string, Entry>
    var order: seq<string>

    constructor (cr: Crypto)
      ensures View() == EMPTY && this.cr == cr && Valid()
    {
      this.cr := cr;
      cache, order := map[], [];
    }

    ghost function View(): Cache
      reads this
    {
      Cache(cache, order)
    }

    ghost predicate Valid()
      reads this
    {
      WellKept(View())
    }

    method CacheLookup(keyID: string, hash: seq<Byte>, now: int) returns (hit: bool)
      ensures hit <==> Hit(View(), keyID, hash, now)
    {
      if keyID !in cache || now > cache[keyID].expiresAt { return false; }
      return cache[keyID].secretHash == hash;
    }

    method CacheStore(keyID: string, hash: seq<Byte>, now: int)
      requires Valid()
      modifies this
      ensures View() == Stored(old(View()), keyID, hash, now)
      ensures Valid()
    {
      StoredKeeps(View(), keyID, hash, now);
      if keyID !in cache {
        if |order| >= CACHE_CAP {
          cache := cache - {order[0]};
          order := order[1..];
        }
        order := order + [keyID];
      }
      cache := cache[keyID := Entry(hash, now + CACHE_TTL)];
    }

    /**
     * The verdict, None for a malformed stored hash, and how many derives it took. Only a success changes the cache.
     */
    method Verify(keyID: string, phcHash: string, secret: string, now: int) returns (ok: Option<bool>, derives: nat)
      requires Valid()
      modifies this
      ensures Valid()
      ensures var hit := old(Hit(View(), keyID, cr.sha(secret), now));
        && ok == (if hit then Some(true) else Check(cr.kdf, phcHash, secret))
        && derives == (if hit || DecodePhc(phcHash) == None then 0 else 1)
        && View() == if !hit && ok == Some(true) then Stored(old(View()), keyID, cr.sha(secret), now) else old(View())
    {
      var hash := cr.sha(secret);
      var hit := CacheLookup(keyID, hash, now);
      if hit { return Some(true), 0; }
      var decoded := DecodePhc(phcHash);
      if decoded == None { return None, 0; }
      var p := decoded.value;
      var tag := cr.kdf(secret, p.salt, p.time, p.memory, p.threads, |p.tag|);
      if tag == p.tag { CacheStore(keyID, hash, now); }
      return Some(tag == p.tag), 1;
    }
  }
}
