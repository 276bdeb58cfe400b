/** Vocabulary shared by all components: optional values and results, flows, the clock's unit, powers of two. */
module Common {
  datatype Option<+T> = None | Some(value: T)

  datatype Result<+T, +E> = Ok(value: T) | Err(error: E)

  /** How a presentation reaches the wallet. */
  datatype Flow = SameDevice | CrossDevice | DcApi

  ghost predicate NoDuplicates<T>(s: seq<T>) {
    forall i, j :: 0 <= i < j < |s| ==> s[i] != s[j]
  }

  /** Instants and durations are integers counting nanoseconds, as Go's time package does. */
  const SECOND := 1_000_000_000

  /** Go's Time.Unix: whole seconds, rounded down (also before 1970). */
  function Unix(t: int): (s: int)
    ensures s * SECOND <= t < (s + 1) * SECOND
  {
    t / SECOND
  }

  function Pow2(n: nat): (p: nat)
    ensures p >= 1
  {
    if n == 0 then 1 else 2 * Pow2(n - 1)
  }

  lemma {:induction false} Pow2Monotone(m: nat, n: nat)
    requires m <= n
    ensures Pow2(m) <= Pow2(n)
    decreases n
  {
    if m < n { Pow2Monotone(m, n - 1); }
  }

  /** A product with a positive factor is at least the other, non-negative, factor. */
  lemma MulGrows(a: int, b: int)
    requires a >= 0 && b >= 1
    ensures a * b >= a
  {
  }
}
