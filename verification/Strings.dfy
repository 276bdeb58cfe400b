/** The string functions of Go's standard library that keys and hashes are taken apart with. */
module Strings {
  import opened Common

  /** The position of the first c, or the length. */
  function IndexOf(s: string, c: char): (i: nat)
    ensures i <= |s| && (forall j :: 0 <= j < i ==> s[j] != c) && (i < |s| ==> s[i] == c)
  {
    if s == [] || s[0] == c then 0 else 1 + IndexOf(s[1..], c)
  }

  predicate Lacks(s: string, c: char) {
    forall i :: 0 <= i < |s| ==> s[i] != c
  }

  /** strings.SplitN for n > 0: at most n parts, the last one unsplit. */
  function SplitN(s: string, c: char, n: nat): (parts: seq<string>)
    requires n > 0
    ensures 1 <= |parts| <= n
    decreases n
  {
    var i := IndexOf(s, c);
    if n == 1 || i == |s| then [s] else [s[..i]] + SplitN(s[i + 1..], c, n - 1)
  }

  /** strings.Split. */
  function Split(s: string, c: char): (parts: seq<string>)
    ensures |parts| >= 1
    decreases |s|
  {
    var i := IndexOf(s, c);
    if i == |s| then [s] else [s[..i]] + Split(s[i + 1..], c)
  }

  function Join(parts: seq<string>, c: char): string
    requires parts != []
  {
    if |parts| == 1 then parts[0] else parts[0] + [c] + Join(parts[1..], c)
  }

  lemma CutAtFirst(a: string, c: char, b: string)
    requires Lacks(a, c)
    ensures IndexOf(a + [c] + b, c) == |a|
    ensures (a + [c] + b)[..|a|] == a && (a + [c] + b)[|a| + 1..] == b
  {
    assert (a + [c] + b)[|a|] == c;
  }

  lemma {:induction false} SplitOfJoin(parts: seq<string>, c: char)
    requires parts != [] && forall i :: 0 <= i < |parts| ==> Lacks(parts[i], c)
    ensures Split(Join(parts, c), c) == parts
  {
    if |parts| == 1 {
      assert parts == [parts[0]];
    } else {
      CutAtFirst(parts[0], c, Join(parts[1..], c));
      SplitOfJoin(parts[1..], c);
      assert parts == [parts[0]] + parts[1..];
    }
  }

  lemma JoinCons(x: string, parts: seq<string>, c: char)
    requires parts != []
    ensures Join([x] + parts, c) == x + [c] + Join(parts, c)
  {
  }

  /** Splitting cuts at every separator, and only there. */
  lemma {:induction false} JoinOfSplit(s: string, c: char)
    ensures Join(Split(s, c), c) == s && forall i :: 0 <= i < |Split(s, c)| ==> Lacks(Split(s, c)[i], c)
    decreases |s|
  {
    var i := IndexOf(s, c);
    if i < |s| {
      JoinOfSplit(s[i + 1..], c);
      JoinCons(s[..i], Split(s[i + 1..], c), c);
      assert s == s[..i] + [s[i]] + s[i + 1..];
    }
  }

  lemma {:induction false} JoinOfSplitN(s: string, c: char, n: nat)
    requires n > 0
    ensures Join(SplitN(s, c, n), c) == s
    decreases n
  {
    var i := IndexOf(s, c);
    if n > 1 && i < |s| {
      JoinOfSplitN(s[i + 1..], c, n - 1);
      JoinCons(s[..i], SplitN(s[i + 1..], c, n - 1), c);
      assert s == s[..i] + [s[i]] + s[i + 1..];
    }
  }

  // ----- Decimal numbers, printed by %d and scanned back -----

  predicate IsDigit(c: char) {
    '0' <= c <= '9'
  }

  function Decimal(n: nat): (s: string)
    ensures s != [] && forall i :: 0 <= i < |s| ==> IsDigit(s[i])
  {
    var last := [(n % 10 + '0' as int) as char];
    if n < 10 then last else Decimal(n / 10) + last
  }

  function DigitValue(c: char): nat
    requires IsDigit(c)
  {
    c as int - '0' as int
  }

  function ValueOf(s: string): nat
    requires forall i :: 0 <= i < |s| ==> IsDigit(s[i])
  {
    if s == [] then 0 else ValueOf(s[..|s| - 1]) * 10 + DigitValue(s[|s| - 1])
  }

  lemma {:induction false} ValueOfDecimal(n: nat)
    ensures ValueOf(Decimal(n)) == n
  {
    var s := Decimal(n);
    if n < 10 {
      assert s[..0] == [];
    } else {
      ValueOfDecimal(n / 10);
      assert s[..|s| - 1] == Decimal(n / 10);
    }
  }

  /** How many digits s begins with. */
  function DigitRun(s: string): (k: nat)
    ensures k <= |s| && (forall i :: 0 <= i < k ==> IsDigit(s[i])) && (k < |s| ==> !IsDigit(s[k]))
  {
    if s == [] || !IsDigit(s[0]) then 0 else 1 + DigitRun(s[1..])
  }

  /** The scanner's SkipSpace: blanks are skipped, a line break is an error. */
  function SkipSpace(s: string): Option<string> {
    if s == [] then Some(s)
    else if s[0] == '\n' then None
    else if s[0] in " \t\U{0B}\U{0C}\r" then SkipSpace(s[1..])
    else Some(s)
  }

  /** %d into an unsigned variable of the given range: a number and what follows it. */
  function ScanUint(s: string, range: nat): Option<(nat, string)> {
    match SkipSpace(s)
    case None => None
    case Some(t) =>
      var k := DigitRun(t);
      if k == 0 || ValueOf(t[..k]) >= range then None else Some((ValueOf(t[..k]), t[k..]))
  }

  /** %d into an int: as above, after an optional sign. */
  function ScanInt(s: string): Option<(int, string)> {
    match SkipSpace(s)
    case None => None
    case Some(t) =>
      var sign := if t != [] && (t[0] == '-' || t[0] == '+') then 1 else 0;
      var k := DigitRun(t[sign..]);
      if k == 0 then None
      else
        var v: int := ValueOf(t[sign..][..k]);
        var n: int := if sign == 1 && t[0] == '-' then -v else v;
        if -0x8000_0000_0000_0000 <= n < 0x8000_0000_0000_0000 then Some((n, t[sign + k..])) else None
  }

  /** Literal characters of a scan format. */
  function Expect(s: string, literal: string): Option<string> {
    if literal <= s then Some(s[|literal|..]) else None
  }

  lemma RunEndsAt(digits: string, rest: string)
    requires forall i :: 0 <= i < |digits| ==> IsDigit(digits[i])
    requires rest == [] || !IsDigit(rest[0])
    ensures DigitRun(digits + rest) == |digits|
    ensures (digits + rest)[..|digits|] == digits && (digits + rest)[|digits|..] == rest
  {
  }

  predicate Blank(s: string) {
    forall i :: 0 <= i < |s| ==> s[i] in " \t\U{0B}\U{0C}\r"
  }

  predicate Numeral(s: string) {
    s != [] && forall i :: 0 <= i < |s| ==> IsDigit(s[i])
  }

  /** s is blanks, a number and a rest that does not go on with digits. */
  ghost predicate Scans(s: string, blanks: string, digits: string, rest: string) {
    s == blanks + digits + rest && Blank(blanks) && Numeral(digits) && (rest == [] || !IsDigit(rest[0]))
  }

  /** Exactly what %d scans: a number in range after any blanks, and whatever follows its last digit is left. */
  lemma ScanUintIff(s: string, range: nat, n: nat, rest: string)
    ensures ScanUint(s, range) == Some((n, rest)) <==>
      exists blanks, digits :: Scans(s, blanks, digits, rest) && ValueOf(digits) == n < range
  {
    if ScanUint(s, range) == Some((n, rest)) { var blanks, digits := Scanned(s, range); }
    if blanks, digits :| Scans(s, blanks, digits, rest) && ValueOf(digits) == n < range {
      ScanOf(s, range, blanks, digits, rest);
    }
  }

  lemma Scanned(s: string, range: nat) returns (blanks: string, digits: string)
    requires ScanUint(s, range).Some?
    ensures var (n, rest) := ScanUint(s, range).value;
      Scans(s, blanks, digits, rest) && ValueOf(digits) == n < range
  {
    blanks := SkippedBlanks(s);
    var t := SkipSpace(s).value;
    digits := t[..DigitRun(t)];
    assert s == blanks + digits + t[DigitRun(t)..];
  }

  lemma ScanOf(s: string, range: nat, blanks: string, digits: string, rest: string)
    requires Scans(s, blanks, digits, rest) && ValueOf(digits) < range
    ensures ScanUint(s, range) == Some((ValueOf(digits), rest))
  {
    assert s == blanks + (digits + rest);
    BlanksSkipped(blanks, digits + rest);
    RunEndsAt(digits, rest);
  }

  /** And into an int: one sign may stand before the digits. */
  lemma ScanIntIff(s: string, n: int, rest: string)
    ensures ScanInt(s) == Some((n, rest)) <==>
      exists blanks, sign, digits :: SignedScans(s, blanks, sign, digits, rest) && n == Signed(sign, digits)
        && -0x8000_0000_0000_0000 <= n < 0x8000_0000_0000_0000
  {
    if ScanInt(s) == Some((n, rest)) { var blanks, sign, digits := ScannedInt(s); }
    if -0x8000_0000_0000_0000 <= n < 0x8000_0000_0000_0000 {
      if blanks, sign, digits :| SignedScans(s, blanks, sign, digits, rest) && n == Signed(sign, digits) {
        ScanIntOf(s, blanks, sign, digits, rest);
      }
    }
  }

  ghost predicate SignedScans(s: string, blanks: string, sign: string, digits: string, rest: string) {
    && s == blanks + (sign + (digits + rest)) && Blank(blanks) && sign in {"", "+", "-"}
    && Numeral(digits) && (rest == [] || !IsDigit(rest[0]))
  }

  function Signed(sign: string, digits: string): int
    requires forall i :: 0 <= i < |digits| ==> IsDigit(digits[i])
  {
    var v: int := ValueOf(digits);
    if sign == "-" then -v else v
  }

  lemma ScannedInt(s: string) returns (blanks: string, sign: string, digits: string)
    requires ScanInt(s).Some?
    ensures SignedScans(s, blanks, sign, digits, ScanInt(s).value.1) && ScanInt(s).value.0 == Signed(sign, digits)
  {
    blanks := SkippedBlanks(s);
    var t := SkipSpace(s).value;
    sign := if t != [] && (t[0] == '-' || t[0] == '+') then t[..1] else "";
    digits := t[|sign|..][..DigitRun(t[|sign|..])];
    SignParts(t, |sign|, |digits|);
  }

  lemma SignParts(t: string, i: nat, k: nat)
    requires i <= 1 && i + k <= |t|
    ensures t == t[..i] + (t[i..][..k] + t[i + k..]) && t[..0] == ""
    ensures t != [] && t[0] == '+' ==> t[..1] == "+"
    ensures t != [] && t[0] == '-' ==> t[..1] == "-"
  {
  }

  lemma ScanIntOf(s: string, blanks: string, sign: string, digits: string, rest: string)
    requires SignedScans(s, blanks, sign, digits, rest)
    requires -0x8000_0000_0000_0000 <= Signed(sign, digits) < 0x8000_0000_0000_0000
    ensures ScanInt(s) == Some((Signed(sign, digits), rest))
  {
    var t := sign + (digits + rest);
    BlanksSkipped(blanks, t);
    RunEndsAt(digits, rest);
    assert t[|sign|..] == digits + rest;
    assert t[|sign| + |digits|..] == rest;
  }

  lemma {:induction false} SkippedBlanks(s: string) returns (blanks: string)
    requires SkipSpace(s).Some?
    ensures s == blanks + SkipSpace(s).value && Blank(blanks)
    decreases |s|
  {
    if s != [] && s[0] in " \t\U{0B}\U{0C}\r" {
      blanks := SkippedBlanks(s[1..]);
      blanks := [s[0]] + blanks;
    } else {
      blanks := [];
    }
  }

  lemma {:induction false} BlanksSkipped(blanks: string, t: string)
    requires Blank(blanks) && t != [] && (IsDigit(t[0]) || t[0] == '+' || t[0] == '-')
    ensures SkipSpace(blanks + t) == Some(t)
    decreases |blanks|
  {
    if blanks == [] {
      assert blanks + t == t;
    } else {
      assert (blanks + t)[1..] == blanks[1..] + t;
      BlanksSkipped(blanks[1..], t);
    }
  }

  /** A printed number scans back, whatever follows it, as long as that is not a digit. */
  lemma ScanUintOfDecimal(n: nat, rest: string, range: nat)
    requires n < range && (rest == [] || !IsDigit(rest[0]))
    ensures ScanUint(Decimal(n) + rest, range) == Some((n, rest))
  {
    var s := Decimal(n) + rest;
    assert s[0] == Decimal(n)[0] && IsDigit(s[0]);
    assert SkipSpace(s) == Some(s);
    RunEndsAt(Decimal(n), rest);
    ValueOfDecimal(n);
  }
}
