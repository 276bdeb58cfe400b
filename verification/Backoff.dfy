/** The arithmetic of Retrier.Schedule: an int64 backoff clamped to the envelope's expiry. */
module Backoff {
  import opened Common

  const TWO62: int := 0x4000_0000_0000_0000
  const TWO63: int := 0x8000_0000_0000_0000
  const TWO64: int := 0x1_0000_0000_0000_0000

  /** Two's-complement truncation to int64. */
  function Wrap64(x: int): (w: int)
    ensures -TWO63 <= w < TWO63
    ensures -TWO63 <= x < TWO63 ==> w == x
    ensures (w - x) % TWO64 == 0
  {
    (x + TWO63) % TWO64 - TWO63
  }

  /** int64(1) << n: a shift by 64 or more gives zero, a shift by 63 the smallest int64. */
  function ShiftOne(n: nat): int {
    if n < 64 then Wrap64(Pow2(n)) else 0
  }

  /** base * time.Duration(int64(1) << attempt), on int64. */
  function Delay(base: int, attempt: nat): (d: int)
    ensures -TWO63 <= d < TWO63
  {
    Wrap64(base * ShiftOne(attempt))
  }

  /** Time.Sub saturates at the largest Duration. */
  function Sub(t: int, u: int): int {
    if t - u >= TWO63 then TWO63 - 1 else if t - u < -TWO63 then -TWO63 else t - u
  }

  datatype Verdict = Exhausted | Expired | RetryAt(score: int, ttl: int)

  /** Schedule up to its first write: refuse, or fix the ZSET score and the counter's time to live. */
  function Decide(base: int, maxAttempts: int, attempt: nat, now: int, expiresAt: int): Verdict {
    if attempt >= maxAttempts then Exhausted
    else
      var next := now + Delay(base, attempt);
      if next > expiresAt then Expired
      else
        var ttl := Sub(expiresAt, now);
        if ttl <= 0 then Expired else RetryAt(Unix(next), ttl)
  }

  lemma Pow2At63()
    ensures Pow2(62) == TWO62 && Pow2(63) == TWO63
  {
    assert Pow2(10) == 1024;
    assert Pow2(20) == 0x10_0000;
    assert Pow2(30) == 0x4000_0000;
    assert Pow2(40) == 0x100_0000_0000;
    assert Pow2(50) == 0x4_0000_0000_0000;
    assert Pow2(60) == 0x1000_0000_0000_0000;
  }

  /** The int64 delay is the intended base * 2^attempt exactly when that product fits in int64. */
  lemma DelayExactIff(base: int, attempt: nat)
    requires 0 < base < TWO63
    ensures Delay(base, attempt) == base * Pow2(attempt) <==> base * Pow2(attempt) < TWO63
  {
    Pow2At63();
    if base * Pow2(attempt) < TWO63 {
      MulGrows(Pow2(attempt), base);
      if attempt >= 63 { Pow2Monotone(63, attempt); assert false; }
    }
  }

  /** From 2^62 ns on the doubled delay wraps to a negative one, and Schedule accepts a retry in the distant past. */
  lemma OverflowAtTheBound(now: int)
    ensures Delay(TWO62, 1) == -TWO63
    ensures Decide(TWO62, 2, 1, now, now + TWO62) == RetryAt(Unix(now - TWO63), TWO62)
  {
  }

  lemma DoubledDelay(base: int, attempt: nat)
    requires attempt >= 1
    ensures base * Pow2(attempt) == 2 * (base * Pow2(attempt - 1))
  {
  }

  /** An accepted retry lies within the expiry, whatever the delay arithmetic did, and was decided before the expiry. */
  lemma AcceptedInsideExpiry(base: int, maxAttempts: int, attempt: nat, now: int, expiresAt: int)
    requires Decide(base, maxAttempts, attempt, now, expiresAt).RetryAt?
    ensures now < expiresAt && attempt < maxAttempts
    ensures Decide(base, maxAttempts, attempt, now, expiresAt).score <= Unix(expiresAt)
    ensures Decide(base, maxAttempts, attempt, now, expiresAt).ttl ==
            if expiresAt - now < TWO63 then expiresAt - now else TWO63 - 1
  {
  }

  /** Which refusal it is: the attempt limit comes first, then the clamp to the expiry. */
  lemma RefusedIff(base: int, maxAttempts: int, attempt: nat, now: int, expiresAt: int)
    ensures Decide(base, maxAttempts, attempt, now, expiresAt) == Exhausted <==> attempt >= maxAttempts
    ensures Decide(base, maxAttempts, attempt, now, expiresAt) == Expired <==>
            attempt < maxAttempts && (now + Delay(base, attempt) > expiresAt || now >= expiresAt)
  {
  }

  /**
   * When nothing overflows, Schedule accepts exactly the attempts below the limit whose exact delay ends by the expiry.
   */
  lemma AcceptedIff(base: int, maxAttempts: int, attempt: nat, now: int, expiresAt: int)
    requires 0 < base && base * Pow2(attempt) < TWO63
    ensures Decide(base, maxAttempts, attempt, now, expiresAt).RetryAt? <==>
            attempt < maxAttempts && now + base * Pow2(attempt) <= expiresAt
    ensures Decide(base, maxAttempts, attempt, now, expiresAt).RetryAt? ==>
            Decide(base, maxAttempts, attempt, now, expiresAt).score == Unix(now + base * Pow2(attempt))
  {
    MulGrows(base, Pow2(attempt));
    DelayExactIff(base, attempt);
  }
}
