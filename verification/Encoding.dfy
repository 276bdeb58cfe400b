/** The text encodings of keys and hashes, from RFC 4648: digits of one base regrouped into digits of another. */
module Encoding {
  import opened Common

  type Byte = b: nat | b < 256

  // ----- Positional numbers, most significant digit first -----

  function Power(b: nat, k: nat): nat {
    if k == 0 then 1 else Power(b, k - 1) * b
  }

  predicate Digits(ds: seq<nat>, b: nat) {
    forall i :: 0 <= i < |ds| ==> ds[i] < b
  }

  function FromDigits(ds: seq<nat>, b: nat): nat {
    if ds == [] then 0 else FromDigits(ds[..|ds| - 1], b) * b + ds[|ds| - 1]
  }

  /** Division with remainder. */
  function QuotRem(n: nat, b: nat): (p: (nat, nat))
    requires b > 0
    ensures n == p.0 * b + p.1 && p.1 < b
  {
    (n / b, n % b)
  }

  lemma QuotRemUnique(q: nat, r: nat, b: nat)
    requires r < b
    ensures QuotRem(q * b + r, b) == (q, r)
  {
    var p := QuotRem(q * b + r, b);
    if p.0 > q { MulGap(q, p.0, b); }
    if p.0 < q { MulGap(p.0, q, b); }
  }

  lemma MulMonotone(a: nat, c: nat, b: nat)
    requires a <= c
    ensures a * b <= c * b
  {
  }

  lemma MulGap(a: nat, c: nat, b: nat)
    requires a < c
    ensures a * b + b <= c * b
  {
    MulMonotone(a + 1, c, b);
    assert (a + 1) * b == a * b + b;
  }

  function ToDigits(n: nat, b: nat, k: nat): (ds: seq<nat>)
    requires b > 0
    ensures |ds| == k && Digits(ds, b)
    decreases k
  {
    if k == 0 then [] else ToDigits(QuotRem(n, b).0, b, k - 1) + [QuotRem(n, b).1]
  }

  lemma {:induction false} FromDigitsBound(ds: seq<nat>, b: nat)
    requires b > 0 && Digits(ds, b)
    ensures FromDigits(ds, b) < Power(b, |ds|)
  {
    if ds != [] {
      var rest := ds[..|ds| - 1];
      FromDigitsBound(rest, b);
      MulGap(FromDigits(rest, b), Power(b, |rest|), b);
    }
  }

  lemma {:induction false} ToFromDigits(ds: seq<nat>, b: nat)
    requires b > 0 && Digits(ds, b)
    ensures ToDigits(FromDigits(ds, b), b, |ds|) == ds
  {
    if ds != [] {
      ToFromDigits(ds[..|ds| - 1], b);
      QuotRemUnique(FromDigits(ds[..|ds| - 1], b), ds[|ds| - 1], b);
      assert ds == ds[..|ds| - 1] + [ds[|ds| - 1]];
    }
  }

  lemma {:induction false} FromToDigits(n: nat, b: nat, k: nat)
    requires b > 0 && n < Power(b, k)
    ensures FromDigits(ToDigits(n, b, k), b) == n
    decreases k
  {
    if k > 0 {
      var (q, r) := QuotRem(n, b);
      if q >= Power(b, k - 1) { MulMonotone(Power(b, k - 1), q, b); assert false; }
      FromToDigits(q, b, k - 1);
      var ds := ToDigits(n, b, k);
      assert ds[..k - 1] == ToDigits(q, b, k - 1) && ds[k - 1] == r;
    }
  }

  /** Digits of base b written with k digits of base c. */
  function Regroup(ds: seq<nat>, b: nat, c: nat, k: nat): (es: seq<nat>)
    requires c > 0
    ensures |es| == k && Digits(es, c)
  {
    ToDigits(FromDigits(ds, b), c, k)
  }

  /** Regrouping into enough digits loses nothing. */
  lemma RegroupBack(ds: seq<nat>, b: nat, c: nat, k: nat)
    requires b > 0 && c > 0 && Power(b, |ds|) <= Power(c, k) && Digits(ds, b)
    ensures Regroup(Regroup(ds, b, c, k), c, b, |ds|) == ds
  {
    FromDigitsBound(ds, b);
    FromToDigits(FromDigits(ds, b), c, k);
    ToFromDigits(ds, b);
  }

  lemma Powers()
    ensures Power(256, 5) == Power(32, 8) && Power(256, 3) == Power(64, 4)
    ensures Power(256, 1) == 256 && Power(256, 2) == 65536 && Power(64, 2) == 4096 && Power(64, 3) == 262144
  {
  }

  // ----- Base 64 without padding (sections 3.2, 4 and 5): groups of 24 bits, the last one cut short -----

  function Sextets(bs: seq<Byte>): (ds: seq<nat>)
    ensures Digits(ds, 64)
  {
    if |bs| >= 3 then Regroup(bs[..3], 256, 64, 4) + Sextets(bs[3..])
    else if |bs| == 2 then ToDigits(FromDigits(bs, 256) * 4, 64, 3)
    else if |bs| == 1 then ToDigits(FromDigits(bs, 256) * 16, 64, 2)
    else []
  }

  /** Go's decoder: a lone last sextet is an error, the unused low bits of a short last group are ignored. */
  function Octets(ds: seq<nat>): (r: Option<seq<Byte>>) {
    if |ds| >= 4 then
      match Octets(ds[4..])
      case None => None
      case Some(rest) => Some(AsBytes(Regroup(ds[..4], 64, 256, 3)) + rest)
    else if |ds| == 3 then Some(AsBytes(ToDigits(FromDigits(ds, 64) / 4, 256, 2)))
    else if |ds| == 2 then Some(AsBytes(ToDigits(FromDigits(ds, 64) / 16, 256, 1)))
    else if |ds| == 1 then None
    else Some([])
  }

  function AsBytes(ds: seq<nat>): (bs: seq<Byte>)
    requires Digits(ds, 256)
    ensures bs == ds
  {
    if ds == [] then [] else
      var first: Byte := ds[0];
      [first] + AsBytes(ds[1..])
  }

  lemma {:induction false} OctetsOfSextets(bs: seq<Byte>)
    ensures Octets(Sextets(bs)) == Some(bs)
  {
    if |bs| >= 3 {
      GroupBack(bs[..3]);
      OctetsOfSextets(bs[3..]);
      assert Sextets(bs)[..4] == Regroup(bs[..3], 256, 64, 4) && Sextets(bs)[4..] == Sextets(bs[3..]);
      assert bs == bs[..3] + bs[3..];
    } else if bs != [] {
      RestBack(bs);
    }
  }

  lemma GroupBack(bs: seq<Byte>)
    requires |bs| == 3
    ensures Regroup(Regroup(bs, 256, 64, 4), 64, 256, 3) == bs
  {
    Powers();
    RegroupBack(bs, 256, 64, 4);
  }

  /** A last group of one or two bytes is shifted left into whole sextets, and shifted back. */
  lemma RestBack(bs: seq<Byte>)
    requires 1 <= |bs| <= 2
    ensures Octets(Sextets(bs)) == Some(bs)
  {
    if |bs| == 2 { RestOfTwo(bs, FromDigits(bs, 256)); } else { RestOfOne(bs, FromDigits(bs, 256)); }
  }

  lemma NumberBack(bs: seq<Byte>, n: nat)
    requires n == FromDigits(bs, 256)
    ensures n < Power(256, |bs|) && ToDigits(n, 256, |bs|) == bs
  {
    FromDigitsBound(bs, 256);
    ToFromDigits(bs, 256);
  }

  lemma RestOfTwo(bs: seq<Byte>, n: nat)
    requires |bs| == 2 && n == FromDigits(bs, 256)
    ensures Octets(Sextets(bs)) == Some(bs)
  {
    NumberBack(bs, n);
    assert n * 4 < Power(64, 3) by { Powers(); }
    ShiftBack(n, 4, 3);
  }

  lemma RestOfOne(bs: seq<Byte>, n: nat)
    requires |bs| == 1 && n == FromDigits(bs, 256)
    ensures Octets(Sextets(bs)) == Some(bs)
  {
    NumberBack(bs, n);
    assert n * 16 < Power(64, 2) by { Powers(); }
    ShiftBack(n, 16, 2);
  }

  lemma ShiftBack(n: nat, shift: nat, k: nat)
    requires shift in {4, 16} && n * shift < Power(64, k)
    ensures FromDigits(ToDigits(n * shift, 64, k), 64) / shift == n
  {
    FromToDigits(n * shift, 64, k);
  }

  lemma {:induction false} SextetsOfOctets(ds: seq<nat>)
    requires |ds| % 4 == 0 && Digits(ds, 64)
    ensures Octets(ds).Some? && Sextets(Octets(ds).value) == ds && |Octets(ds).value| == |ds| / 4 * 3
  {
    if ds != [] {
      GroupForth(ds[..4]);
      SextetsOfOctets(ds[4..]);
      var group, rest := AsBytes(Regroup(ds[..4], 64, 256, 3)), Octets(ds[4..]).value;
      assert Octets(ds) == Some(group + rest);
      SextetsJoin(group, rest);
      assert ds == ds[..4] + ds[4..];
    }
  }

  lemma GroupForth(ds: seq<nat>)
    requires |ds| == 4 && Digits(ds, 64)
    ensures var group := AsBytes(Regroup(ds, 64, 256, 3)); |group| == 3 && Regroup(group, 256, 64, 4) == ds
  {
    Powers();
    RegroupBack(ds, 64, 256, 3);
  }

  lemma SextetsJoin(group: seq<Byte>, rest: seq<Byte>)
    requires |group| == 3
    ensures Sextets(group + rest) == Regroup(group, 256, 64, 4) + Sextets(rest)
  {
    assert (group + rest)[..3] == group && (group + rest)[3..] == rest;
  }

  lemma {:induction false} SextetsLength(bs: seq<Byte>)
    requires |bs| % 3 == 0
    ensures |Sextets(bs)| == |bs| / 3 * 4
  {
    if bs != [] { SextetsLength(bs[3..]); }
  }

  lemma {:induction false} FromDigitsJoin(ds: seq<nat>, es: seq<nat>, b: nat)
    ensures FromDigits(ds + es, b) == FromDigits(ds, b) * Power(b, |es|) + FromDigits(es, b)
    decreases |es|
  {
    if es == [] {
      assert ds + es == ds;
    } else {
      var front := es[..|es| - 1];
      FromDigitsJoin(ds, front, b);
      assert (ds + es)[..|ds + es| - 1] == ds + front;
      OneDigitMore(FromDigits(ds, b), Power(b, |front|), FromDigits(front, b), es[|es| - 1], b);
    }
  }

  lemma OneDigitMore(d: nat, p: nat, e: nat, last: nat, b: nat)
    ensures (d * p + e) * b + last == d * (p * b) + (e * b + last)
  {
    assert (d * p + e) * b == d * p * b + e * b;
  }

  /** What a last group of the byte string is shifted by to fill whole sextets. */
  function Shift(bs: seq<Byte>): nat {
    if |bs| >= 3 then Shift(bs[3..]) else if |bs| == 2 then 4 else if |bs| == 1 then 16 else 1
  }

  lemma {:induction false} SextetsPower(bs: seq<Byte>)
    ensures Power(64, |Sextets(bs)|) == Power(256, |bs|) * Shift(bs)
  {
    if |bs| >= 3 {
      SextetsPower(bs[3..]);
      GroupPower(|Sextets(bs[3..])|, |bs[3..]|, Shift(bs[3..]));
    } else {
      Powers();
    }
  }

  lemma GroupPower(k: nat, n: nat, shift: nat)
    requires Power(64, k) == Power(256, n) * shift
    ensures Power(64, k + 4) == Power(256, n + 3) * shift
  {
    PowerSum(64, k, 4);
    PowerSum(256, n, 3);
    Powers();
    assert Power(256, n) * shift * 0x100_0000 == Power(256, n) * 0x100_0000 * shift;
  }

  /**
   * Read as one number, the sextets are the bytes, shifted left by the bits that fill up the last sextet: the groups
   * are no more than a way to compute that.
   */
  lemma {:induction false} SextetsAreTheBytes(bs: seq<Byte>)
    ensures FromDigits(Sextets(bs), 64) == FromDigits(bs, 256) * Shift(bs)
  {
    if |bs| >= 3 {
      SextetsAreTheBytes(bs[3..]);
      GroupScaled(bs[..3], bs[3..]);
      assert bs == bs[..3] + bs[3..];
    } else if bs != [] {
      RestScaled(bs, FromDigits(bs, 256));
    }
  }

  lemma GroupScaled(group: seq<Byte>, rest: seq<Byte>)
    requires |group| == 3 && FromDigits(Sextets(rest), 64) == FromDigits(rest, 256) * Shift(rest)
    ensures FromDigits(Sextets(group + rest), 64) == FromDigits(group + rest, 256) * Shift(rest)
  {
    var sextets := Regroup(group, 256, 64, 4);
    assert Sextets(group + rest) == sextets + Sextets(rest) by { SextetsJoin(group, rest); }
    assert FromDigits(sextets + Sextets(rest), 64) == FromDigits(group + rest, 256) * Shift(rest) by {
      SextetsPower(rest);
      GroupNumber(group);
      JoinScaled(group, rest, sextets, Sextets(rest), Shift(rest));
    }
  }

  lemma RestScaled(bs: seq<Byte>, n: nat)
    requires 1 <= |bs| <= 2 && n == FromDigits(bs, 256)
    ensures FromDigits(Sextets(bs), 64) == n * Shift(bs)
  {
    FromDigitsBound(bs, 256);
    if |bs| == 2 { RestFits(n, 4, 3, 2); } else { RestFits(n, 16, 2, 1); }
  }

  lemma JoinScaled(a: seq<nat>, b: seq<nat>, a': seq<nat>, b': seq<nat>, shift: nat)
    requires FromDigits(a', 64) == FromDigits(a, 256)
    requires Power(64, |b'|) == Power(256, |b|) * shift && FromDigits(b', 64) == FromDigits(b, 256) * shift
    ensures FromDigits(a' + b', 64) == FromDigits(a + b, 256) * shift
  {
    FromDigitsJoin(a, b, 256);
    FromDigitsJoin(a', b', 64);
    Shifted(FromDigits(a, 256), Power(256, |b|), FromDigits(b, 256), shift);
  }

  lemma Shifted(g: nat, p: nat, r: nat, shift: nat)
    ensures g * (p * shift) + r * shift == (g * p + r) * shift
  {
    assert g * (p * shift) == g * p * shift;
  }

  lemma RestFits(n: nat, shift: nat, k: nat, len: nat)
    requires (shift == 4 && k == 3 && len == 2) || (shift == 16 && k == 2 && len == 1)
    requires n < Power(256, len)
    ensures FromDigits(ToDigits(n * shift, 64, k), 64) == n * shift
  {
    Powers();
    FromToDigits(n * shift, 64, k);
  }

  lemma GroupNumber(group: seq<Byte>)
    requires |group| == 3
    ensures FromDigits(Regroup(group, 256, 64, 4), 64) == FromDigits(group, 256)
  {
    Powers();
    FromDigitsBound(group, 256);
    FromToDigits(FromDigits(group, 256), 64, 4);
  }

  lemma {:induction false} PowerSum(b: nat, j: nat, k: nat)
    ensures Power(b, j + k) == Power(b, j) * Power(b, k)
  {
    if k > 0 { PowerSum(b, j, k - 1); }
  }

  // ----- Alphabets -----

  datatype Alphabet = Standard | UrlSafe

  function Char64(d: nat, a: Alphabet): char
    requires d < 64
  {
    if d < 26 then (d + 'A' as int) as char
    else if d < 52 then (d - 26 + 'a' as int) as char
    else if d < 62 then (d - 52 + '0' as int) as char
    else if d == 62 then (if a == UrlSafe then '-' else '+')
    else if a == UrlSafe then '_' else '/'
  }

  function Value64(c: char, a: Alphabet): (v: Option<nat>)
    ensures v.Some? ==> v.value < 64
  {
    if 'A' <= c <= 'Z' then Some(c as int - 'A' as int)
    else if 'a' <= c <= 'z' then Some(c as int - 'a' as int + 26)
    else if '0' <= c <= '9' then Some(c as int - '0' as int + 52)
    else if c == (if a == UrlSafe then '-' else '+') then Some(62)
    else if c == (if a == UrlSafe then '_' else '/') then Some(63)
    else None
  }

  const UPPER := "ABCDEFGHIJKLMNOPQRSTUVWXYZ"
  const LOWER := "abcdefghijklmnopqrstuvwxyz"
  const NUMERALS := "0123456789"

  /** The alphabets of RFC 4648, sections 4 and 5: the letters, the small letters, the numerals and two more. */
  lemma Char64IsTabled(d: nat, a: Alphabet)
    requires d < 64
    ensures d < 26 ==> Char64(d, a) == UPPER[d]
    ensures 26 <= d < 52 ==> Char64(d, a) == LOWER[d - 26]
    ensures 52 <= d < 62 ==> Char64(d, a) == NUMERALS[d - 52]
    ensures d == 62 ==> Char64(d, a) == (if a == Standard then '+' else '-')
    ensures d == 63 ==> Char64(d, a) == (if a == Standard then '/' else '_')
  {
  }

  lemma Value64OfChar(d: nat, a: Alphabet)
    requires d < 64
    ensures Value64(Char64(d, a), a) == Some(d)
  {
  }

  lemma Char64OfValue(c: char, a: Alphabet)
    requires Value64(c, a).Some?
    ensures Char64(Value64(c, a).value, a) == c
  {
  }

  function Text64(ds: seq<nat>, a: Alphabet): (s: string)
    requires Digits(ds, 64)
    ensures |s| == |ds| && forall i :: 0 <= i < |s| ==> s[i] == Char64(ds[i], a)
  {
    seq(|ds|, i requires 0 <= i < |ds| => Char64(ds[i], a))
  }

  function Values64(s: string, a: Alphabet): (r: Option<seq<nat>>)
    ensures r.Some? ==> |r.value| == |s| && Digits(r.value, 64)
  {
    if s == [] then Some([])
    else
      match (Value64(s[0], a), Values64(s[1..], a))
      case (Some(v), Some(rest)) => Some([v] + rest)
      case _ => None
  }

  lemma {:induction false} ValuesOfText(ds: seq<nat>, a: Alphabet)
    requires Digits(ds, 64)
    ensures Values64(Text64(ds, a), a) == Some(ds)
  {
    if ds != [] {
      Value64OfChar(ds[0], a);
      assert Text64(ds, a)[0] == Char64(ds[0], a);
      assert Text64(ds, a)[1..] == Text64(ds[1..], a);
      ValuesOfText(ds[1..], a);
      assert ds == [ds[0]] + ds[1..];
    }
  }

  lemma {:induction false} TextOfValues(s: string, a: Alphabet)
    requires forall c :: c in s ==> Value64(c, a).Some?
    ensures Values64(s, a).Some? && Text64(Values64(s, a).value, a) == s
  {
    if s != [] {
      assert s[0] in s;
      Char64OfValue(s[0], a);
      TextOfValues(s[1..], a);
    }
  }

  /** RawStdEncoding and RawURLEncoding. */
  function Encode64(bs: seq<Byte>, a: Alphabet): string {
    Text64(Sextets(bs), a)
  }

  /** DecodeString skips line breaks anywhere in its input. */
  function WithoutBreaks(s: string): string {
    if s == [] then [] else (if s[0] == '\r' || s[0] == '\n' then [] else [s[0]]) + WithoutBreaks(s[1..])
  }

  function Decode64(s: string, a: Alphabet): Option<seq<Byte>> {
    match Values64(WithoutBreaks(s), a)
    case None => None
    case Some(ds) => Octets(ds)
  }

  lemma {:induction false} NoBreaks(s: string)
    requires forall i :: 0 <= i < |s| ==> s[i] != '\r' && s[i] != '\n'
    ensures WithoutBreaks(s) == s
  {
    if s != [] { NoBreaks(s[1..]); assert s == [s[0]] + s[1..]; }
  }

  /** Every byte string survives encoding and decoding, whatever its length modulo 3. */
  lemma Decode64OfEncode(bs: seq<Byte>, a: Alphabet)
    ensures Decode64(Encode64(bs, a), a) == Some(bs)
    ensures forall c :: c in Encode64(bs, a) ==> Value64(c, a).Some?
  {
    var ds := Sextets(bs);
    forall i | 0 <= i < |ds|
      ensures Value64(Text64(ds, a)[i], a).Some?
    {
      Value64OfChar(ds[i], a);
    }
    NoBreaks(Encode64(bs, a));
    ValuesOfText(ds, a);
    OctetsOfSextets(bs);
  }

  lemma {:induction false} OctetsIff(ds: seq<nat>)
    ensures Octets(ds) == None <==> |ds| % 4 == 1
    decreases |ds|
  {
    if |ds| >= 4 { OctetsIff(ds[4..]); }
  }

  lemma {:induction false} ValuesIff(s: string, a: Alphabet)
    ensures Values64(s, a).Some? <==> forall c :: c in s ==> Value64(c, a).Some?
  {
    if s != [] {
      assert s[0] in s && s == [s[0]] + s[1..];
      ValuesIff(s[1..], a);
    }
  }

  /** Which texts decode: line breaks aside, all characters are in the alphabet and no sextet is left over alone. */
  lemma Decode64Iff(s: string, a: Alphabet)
    ensures Decode64(s, a).Some? <==>
      (forall c :: c in WithoutBreaks(s) ==> Value64(c, a).Some?) && |WithoutBreaks(s)| % 4 != 1
  {
    ValuesIff(WithoutBreaks(s), a);
    if Values64(WithoutBreaks(s), a).Some? { OctetsIff(Values64(WithoutBreaks(s), a).value); }
  }

  // ----- Crockford's base 32 -----

  const CROCKFORD := "0123456789ABCDEFGHJKMNPQRSTVWXYZ"

  /** Where a character stands in the alphabet; I, L, O and U are left out of it. */
  function Value32(c: char): (v: Option<nat>)
    ensures v.Some? ==> v.value < 32
  {
    if '0' <= c <= '9' then Some(c as int - '0' as int)
    else if 'A' <= c <= 'H' then Some(c as int - 'A' as int + 10)
    else if 'J' <= c <= 'K' then Some(c as int - 'J' as int + 18)
    else if 'M' <= c <= 'N' then Some(c as int - 'M' as int + 20)
    else if 'P' <= c <= 'T' then Some(c as int - 'P' as int + 22)
    else if 'V' <= c <= 'Z' then Some(c as int - 'V' as int + 27)
    else None
  }

  lemma Value32OfChar(d: nat)
    requires d < 32
    ensures Value32(CROCKFORD[d]) == Some(d)
  {
  }

  lemma Char32OfValue(c: char)
    ensures c in CROCKFORD <==> Value32(c).Some?
    ensures Value32(c).Some? ==> CROCKFORD[Value32(c).value] == c
  {
    Char32AtValue(c);
    if c in CROCKFORD {
      var d :| 0 <= d < |CROCKFORD| && CROCKFORD[d] == c;
      Value32OfChar(d);
    }
  }

  lemma Char32AtValue(c: char)
    ensures Value32(c).Some? ==> CROCKFORD[Value32(c).value] == c
  {
  }

  function CrockfordValue(c: char): (v: nat)
    requires c in CROCKFORD
    ensures v < 32 && CROCKFORD[v] == c
  {
    Char32OfValue(c);
    Value32(c).value
  }
}
