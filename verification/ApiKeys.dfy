/** API keys: minting, parsing what a caller presents, and the stored PHC string of the secret's hash. */
module ApiKeys {
  import opened Common
  import opened Encoding
  import opened Strings

  const PREFIX_RAW := 5
  const PREFIX_LEN := 8
  const SECRET_RAW := 24
  const SECRET_LEN := 32
  const SALT_LEN := 16
  const TAG_LEN := 32
  const ARGON_MEMORY := 19456
  const ARGON_TIME := 2
  const ARGON_THREADS := 1
  const MAX_DECODED := 128

  // ----- The displayed key: vk_<prefix>_<secret> -----

  function Text32(ds: seq<nat>): (s: string)
    requires Digits(ds, 32)
    ensures |s| == |ds| && forall i :: 0 <= i < |s| ==> s[i] == CROCKFORD[ds[i]]
  {
    seq(|ds|, i requires 0 <= i < |ds| => CROCKFORD[ds[i]])
  }

  function PrefixOf(raw: seq<Byte>): string {
    Text32(Regroup(raw, 256, 32, PREFIX_LEN))
  }

  function SecretOf(raw: seq<Byte>): string {
    Encode64(raw, UrlSafe)
  }

  function Display(prefixRaw: seq<Byte>, secretRaw: seq<Byte>): string {
    "vk" + "_" + PrefixOf(prefixRaw) + "_" + SecretOf(secretRaw)
  }

  predicate IsCrockford(s: string) {
    forall i :: 0 <= i < |s| ==> s[i] in CROCKFORD
  }

  predicate IsBase64Url(s: string) {
    forall i :: 0 <= i < |s| ==>
      'A' <= s[i] <= 'Z' || 'a' <= s[i] <= 'z' || '0' <= s[i] <= '9' || s[i] == '-' || s[i] == '_'
  }

  /** None is ErrFormat, which never carries the input. */
  function Parse(presented: string): Option<(string, string)> {
    var parts := SplitN(presented, '_', 3);
    if |parts| != 3 || parts[0] != "vk" then None
    else
      var prefix, secret := parts[1], parts[2];
      if |prefix| != PREFIX_LEN || !IsCrockford(prefix) then None
      else if |secret| != SECRET_LEN || !IsBase64Url(secret) then None
      else Some((prefix, secret))
  }

  /** Five bytes become eight Crockford characters, and back. */
  lemma PrefixText(raw: seq<Byte>)
    requires |raw| == PREFIX_RAW
    ensures |PrefixOf(raw)| == PREFIX_LEN && IsCrockford(PrefixOf(raw)) && Lacks(PrefixOf(raw), '_')
    ensures PrefixBytes(PrefixOf(raw)) == raw
  {
    var ds := Regroup(raw, 256, 32, PREFIX_LEN);
    forall i | 0 <= i < PREFIX_LEN
      ensures PrefixOf(raw)[i] in CROCKFORD && PrefixOf(raw)[i] != '_' && Value32(PrefixOf(raw)[i]) == Some(ds[i])
    {
      Value32OfChar(ds[i]);
      Char32OfValue(PrefixOf(raw)[i]);
    }
    assert Values32(PrefixOf(raw)) == ds;
    Powers();
    RegroupBack(raw, 256, 32, PREFIX_LEN);
  }

  function Values32(s: string): (ds: seq<nat>)
    requires IsCrockford(s)
    ensures |ds| == |s| && Digits(ds, 32)
  {
    seq(|s|, i requires 0 <= i < |s| => CrockfordValue(s[i]))
  }

  function PrefixBytes(prefix: string): seq<Byte>
    requires IsCrockford(prefix)
  {
    AsBytes(Regroup(Values32(prefix), 32, 256, PREFIX_RAW))
  }

  lemma PrefixFromBytes(prefix: string)
    requires |prefix| == PREFIX_LEN && IsCrockford(prefix)
    ensures PrefixOf(PrefixBytes(prefix)) == prefix && |PrefixBytes(prefix)| == PREFIX_RAW
  {
    Powers();
    RegroupBack(Values32(prefix), 32, 256, PREFIX_RAW);
    forall i | 0 <= i < PREFIX_LEN
      ensures CROCKFORD[Values32(prefix)[i]] == prefix[i]
    {
      Char32OfValue(prefix[i]);
    }
  }

  lemma UrlCharIff(c: char)
    ensures Value64(c, UrlSafe).Some? <==>
            'A' <= c <= 'Z' || 'a' <= c <= 'z' || '0' <= c <= '9' || c == '-' || c == '_'
  {
  }

  /** 24 bytes become 32 base64url characters, and back. */
  lemma SecretText(raw: seq<Byte>)
    requires |raw| == SECRET_RAW
    ensures |SecretOf(raw)| == SECRET_LEN && IsBase64Url(SecretOf(raw))
    ensures Decode64(SecretOf(raw), UrlSafe) == Some(raw)
  {
    Decode64OfEncode(raw, UrlSafe);
    SextetsLength(raw);
    forall i | 0 <= i < SECRET_LEN
      ensures Value64(SecretOf(raw)[i], UrlSafe).Some?
    {
      assert SecretOf(raw)[i] in SecretOf(raw);
    }
  }

  lemma SecretFromBytes(secret: string) returns (raw: seq<Byte>)
    requires |secret| == SECRET_LEN && IsBase64Url(secret)
    ensures |raw| == SECRET_RAW && SecretOf(raw) == secret
  {
    forall c | c in secret
      ensures Value64(c, UrlSafe).Some?
    {
      UrlCharIff(c);
    }
    TextOfValues(secret, UrlSafe);
    SextetsOfOctets(Values64(secret, UrlSafe).value);
    raw := Octets(Values64(secret, UrlSafe).value).value;
  }

  lemma SplitsInThree(a: string, b: string, c: string)
    requires Lacks(a, '_') && Lacks(b, '_')
    ensures SplitN(a + "_" + b + "_" + c, '_', 3) == [a, b, c]
  {
    var s := a + "_" + b + "_" + c;
    assert s == a + ['_'] + (b + ['_'] + c);
    CutAtFirst(a, '_', b + ['_'] + c);
    CutAtFirst(b, '_', c);
    assert SplitN(b + ['_'] + c, '_', 2) == [b, c];
  }

  /** Every displayed key parses to its prefix and secret, wherever the secret itself contains the separator. */
  lemma ParseOfDisplay(prefixRaw: seq<Byte>, secretRaw: seq<Byte>)
    requires |prefixRaw| == PREFIX_RAW && |secretRaw| == SECRET_RAW
    ensures Parse(Display(prefixRaw, secretRaw)) == Some((PrefixOf(prefixRaw), SecretOf(secretRaw)))
  {
    PrefixText(prefixRaw);
    SecretText(secretRaw);
    SplitsInThree("vk", PrefixOf(prefixRaw), SecretOf(secretRaw));
  }

  /** SplitN and the separators it removed. */
  lemma ThreePartsJoin(s: string)
    requires |SplitN(s, '_', 3)| == 3
    ensures var parts := SplitN(s, '_', 3); s == parts[0] + "_" + parts[1] + "_" + parts[2]
  {
    JoinOfSplitN(s, '_', 3);
    JoinThree(SplitN(s, '_', 3));
  }

  lemma JoinThree(parts: seq<string>)
    requires |parts| == 3
    ensures Join(parts, '_') == parts[0] + "_" + parts[1] + "_" + parts[2]
  {
    assert parts == [parts[0]] + ([parts[1]] + [parts[2]]);
    JoinCons(parts[1], [parts[2]], '_');
    JoinCons(parts[0], [parts[1]] + [parts[2]], '_');
    assert parts[0] + ['_'] + (parts[1] + ['_'] + parts[2]) == parts[0] + "_" + parts[1] + "_" + parts[2];
  }

  /** Nothing is a key that does not start with the scheme. */
  lemma ParsedStarts(s: string)
    ensures Parse(s).Some? ==> s != "" && s[0] == 'v'
  {
    if Parse(s).Some? { ThreePartsJoin(s); }
  }

  /**
   * Parse accepts a string if and only if it is the displayed key of some 5 + 24 bytes, and then returns exactly
   * their prefix and secret.
   */
  lemma ParseIff(s: string)
    ensures Parse(s).Some? <==> exists p, k :: |p| == PREFIX_RAW && |k| == SECRET_RAW && s == Display(p, k)
    ensures forall p: seq<Byte>, k: seq<Byte> :: |p| == PREFIX_RAW && |k| == SECRET_RAW && s == Display(p, k) ==>
              Parse(s) == Some((PrefixOf(p), SecretOf(k)))
  {
    forall p: seq<Byte>, k: seq<Byte> | |p| == PREFIX_RAW && |k| == SECRET_RAW && s == Display(p, k)
      ensures Parse(s) == Some((PrefixOf(p), SecretOf(k)))
    {
      ParseOfDisplay(p, k);
    }
    if Parse(s).Some? {
      var (prefix, secret) := Parse(s).value;
      ThreePartsJoin(s);
      PrefixFromBytes(prefix);
      var k := SecretFromBytes(secret);
      assert s == Display(PrefixBytes(prefix), k);
    }
  }

  /** Different bytes give different keys: with ParseIff, 29-byte inputs and accepted keys correspond one to one. */
  lemma DisplayInjective(p: seq<Byte>, k: seq<Byte>, p': seq<Byte>, k': seq<Byte>)
    requires |p| == |p'| == PREFIX_RAW && |k| == |k'| == SECRET_RAW && Display(p, k) == Display(p', k')
    ensures p == p' && k == k'
  {
    ParseOfDisplay(p, k);
    ParseOfDisplay(p', k');
    PrefixText(p);
    PrefixText(p');
    SecretText(k);
    SecretText(k');
  }

  // ----- The stored hash -----

  datatype Phc = Phc(memory: nat, time: nat, threads: nat, salt: seq<Byte>, tag: seq<Byte>)

  function Params(memory: nat, time: nat, threads: nat): string {
    "m=" + Decimal(memory) + ",t=" + Decimal(time) + ",p=" + Decimal(threads)
  }

  /** The PHC string of any parameters; encodePHC fixes them. */
  function Render(memory: nat, time: nat, threads: nat, salt: seq<Byte>, tag: seq<Byte>): string {
    "$argon2id$v=" + Decimal(19) + "$" + Params(memory, time, threads)
    + "$" + Encode64(salt, Standard) + "$" + Encode64(tag, Standard)
  }

  function EncodePhc(salt: seq<Byte>, tag: seq<Byte>): string {
    Render(ARGON_MEMORY, ARGON_TIME, ARGON_THREADS, salt, tag)
  }

  function ScanVersion(s: string): Option<int> {
    match Expect(s, "v=")
    case None => None
    case Some(t) =>
      match ScanInt(t)
      case None => None
      case Some((v, _)) => Some(v)
  }

  /** One "literal%d" of a scan format. */
  function ScanField(s: string, literal: string, range: nat): Option<(nat, string)> {
    match Expect(s, literal)
    case None => None
    case Some(t) => ScanUint(t, range)
  }

  /** Sscanf "m=%d,t=%d,p=%d"; what follows the last number is ignored. */
  function ScanParams(s: string): Option<(nat, nat, nat)> {
    match ScanField(s, "m=", 0x1_0000_0000)
    case None => None
    case Some((m, s1)) =>
      match ScanField(s1, ",t=", 0x1_0000_0000)
      case None => None
      case Some((t, s2)) =>
        match ScanField(s2, ",p=", 256)
        case None => None
        case Some((p, _)) => Some((m, t, p))
  }

  predicate DecodedLength(bs: seq<Byte>) {
    1 <= |bs| <= MAX_DECODED
  }

  function DecodePhc(s: string): Option<Phc> {
    DecodeParts(Split(s, '$'))
  }

  function DecodeParts(parts: seq<string>): Option<Phc> {
    if |parts| != 6 || parts[0] != "" || parts[1] != "argon2id" then None
    else if ScanVersion(parts[2]) != Some(19) then None
    else
      match (ScanParams(parts[3]), Decode64(parts[4], Standard), Decode64(parts[5], Standard))
      case (Some((m, t, p)), Some(salt), Some(tag)) =>
        if DecodedLength(salt) && DecodedLength(tag) then Some(Phc(m, t, p, salt, tag)) else None
      case _ => None
  }

  lemma ScanParamsBack(m: nat, t: nat, p: nat)
    requires m < 0x1_0000_0000 && t < 0x1_0000_0000 && p < 256
    ensures ScanParams(Params(m, t, p)) == Some((m, t, p))
  {
    var s2 := ",p=" + (Decimal(p) + "");
    var s1 := ",t=" + (Decimal(t) + s2);
    assert Params(m, t, p) == "m=" + (Decimal(m) + s1);
    FieldBack("m=", m, s1, 0x1_0000_0000);
    FieldBack(",t=", t, s2, 0x1_0000_0000);
    FieldBack(",p=", p, "", 256);
  }

  lemma FieldBack(literal: string, n: nat, rest: string, range: nat)
    requires n < range && (rest == [] || !IsDigit(rest[0]))
    ensures ScanField(literal + (Decimal(n) + rest), literal, range) == Some((n, rest))
  {
    ScanUintOfDecimal(n, rest, range);
    assert (literal + (Decimal(n) + rest))[|literal|..] == Decimal(n) + rest;
  }

  lemma ParamsLackDollar(m: nat, t: nat, p: nat)
    ensures Lacks(Params(m, t, p), '$')
  {
  }

  lemma TextLacksDollar(bs: seq<Byte>)
    ensures Lacks(Encode64(bs, Standard), '$')
  {
  }

  lemma RenderSplits(m: nat, t: nat, p: nat, salt: seq<Byte>, tag: seq<Byte>)
    ensures Split(Render(m, t, p, salt, tag), '$') ==
      ["", "argon2id", "v=19", Params(m, t, p), Encode64(salt, Standard), Encode64(tag, Standard)]
  {
    var a, b, c := Params(m, t, p), Encode64(salt, Standard), Encode64(tag, Standard);
    ParamsLackDollar(m, t, p);
    TextLacksDollar(salt);
    TextLacksDollar(tag);
    assert Decimal(1) == "1" && Decimal(19) == "19";
    SixParts(a, b, c);
    SplitOfJoin(["", "argon2id", "v=19", a, b, c], '$');
  }

  lemma SixParts(a: string, b: string, c: string)
    ensures Join(["", "argon2id", "v=19", a, b, c], '$') ==
            "$argon2id$v=" + "19" + "$" + a + "$" + b + "$" + c
  {
    var last := [a, b, c];
    assert last == [a] + ([b] + [c]);
    JoinCons(b, [c], '$');
    JoinCons(a, [b] + [c], '$');
    JoinCons("v=19", last, '$');
    JoinCons("argon2id", ["v=19"] + last, '$');
    JoinCons("", ["argon2id"] + (["v=19"] + last), '$');
    assert ["", "argon2id", "v=19", a, b, c] == [""] + (["argon2id"] + (["v=19"] + last));
    FlatParts(a, b, c);
  }

  lemma FlatParts(a: string, b: string, c: string)
    ensures "" + ['$'] + ("argon2id" + ['$'] + ("v=19" + ['$'] + (a + ['$'] + (b + ['$'] + c)))) ==
            "$argon2id$v=" + "19" + "$" + a + "$" + b + "$" + c
  {
  }

  /**
   * A rendered hash decodes to exactly its parameters, salt and tag, for every length modulo 3; it is refused exactly
   * when the salt or the tag is empty or longer than 128 bytes.
   */
  lemma DecodeOfRender(m: nat, t: nat, p: nat, salt: seq<Byte>, tag: seq<Byte>)
    requires m < 0x1_0000_0000 && t < 0x1_0000_0000 && p < 256
    ensures DecodePhc(Render(m, t, p, salt, tag)) ==
      if DecodedLength(salt) && DecodedLength(tag) then Some(Phc(m, t, p, salt, tag)) else None
  {
    RenderSplits(m, t, p, salt, tag);
    ScanParamsBack(m, t, p);
    Decode64OfEncode(salt, Standard);
    Decode64OfEncode(tag, Standard);
    VersionScans();
    var a, b := Encode64(salt, Standard), Encode64(tag, Standard);
    SixGiven(Split(Render(m, t, p, salt, tag), '$'), Params(m, t, p), a, b);
    PartsDecode(Split(Render(m, t, p, salt, tag), '$'), (m, t, p), salt, tag);
  }

  lemma SixGiven(parts: seq<string>, params: string, a: string, b: string)
    requires parts == ["", "argon2id", "v=19", params, a, b]
    ensures |parts| == 6 && parts[0] == "" && parts[1] == "argon2id" && parts[2] == "v=19"
    ensures parts[3] == params && parts[4] == a && parts[5] == b
  {
  }

  lemma PartsDecode(parts: seq<string>, p: (nat, nat, nat), salt: seq<Byte>, tag: seq<Byte>)
    requires |parts| == 6 && parts[0] == "" && parts[1] == "argon2id"
    requires ScanVersion(parts[2]) == Some(19) && ScanParams(parts[3]) == Some(p)
    requires Decode64(parts[4], Standard) == Some(salt) && Decode64(parts[5], Standard) == Some(tag)
    ensures DecodeParts(parts) ==
      if DecodedLength(salt) && DecodedLength(tag) then Some(Phc(p.0, p.1, p.2, salt, tag)) else None
  {
  }

  lemma VersionScans()
    ensures ScanVersion("v=19") == Some(19)
  {
    assert Expect("v=19", "v=") == Some("19");
    assert Decimal(1) == "1" && Decimal(19) == "19";
    ValueOfDecimal(19);
    ScanIntOf("19", "", "", "19", "");
  }

  lemma DecodeOfEncode(salt: seq<Byte>, tag: seq<Byte>)
    ensures DecodePhc(EncodePhc(salt, tag)) ==
      if DecodedLength(salt) && DecodedLength(tag) then Some(Phc(ARGON_MEMORY, ARGON_TIME, ARGON_THREADS, salt, tag))
      else None
  {
    DecodeOfRender(ARGON_MEMORY, ARGON_TIME, ARGON_THREADS, salt, tag);
  }

  /** The text encodePHC fixes. */
  lemma EncodedText(salt: seq<Byte>, tag: seq<Byte>)
    ensures EncodePhc(salt, tag) ==
      "$argon2id$v=19$" + "m=19456,t=2,p=1" + "$" + Encode64(salt, Standard) + "$" + Encode64(tag, Standard)
  {
    MintParams();
    VersionText(Params(19456, 2, 1), Encode64(salt, Standard), Encode64(tag, Standard));
  }

  lemma VersionText(params: string, a: string, b: string)
    ensures "$argon2id$v=" + "19" + "$" + params + "$" + a + "$" + b == "$argon2id$v=19$" + params + "$" + a + "$" + b
  {
  }

  lemma MintParams()
    ensures Decimal(19) == "19" && Params(19456, 2, 1) == "m=19456,t=2,p=1"
  {
    assert Decimal(1) == "1" && Decimal(2) == "2";
    assert Decimal(19) == "19";
    assert Decimal(194) == "194";
    assert Decimal(1945) == "1945";
    assert Decimal(19456) == "19456";
  }

  // ----- Which stored hashes are accepted -----

  /** The text of a hash: the algorithm, and four sections without a separator in them. */
  ghost predicate Sectioned(s: string, version: string, params: string, salt: string, tag: string) {
    && s == Join(["", "argon2id", version, params, salt, tag], '$')
    && Lacks(version, '$') && Lacks(params, '$') && Lacks(salt, '$') && Lacks(tag, '$')
  }

  /** A number 19, three numbers in range, and two texts that decode to 1 to 128 bytes. */
  predicate Says(version: string, params: string, salt: string, tag: string, p: Phc) {
    && ScanVersion(version) == Some(19) && ScanParams(params) == Some((p.memory, p.time, p.threads))
    && Decode64(salt, Standard) == Some(p.salt) && Decode64(tag, Standard) == Some(p.tag)
    && 1 <= |p.salt| <= 128 && 1 <= |p.tag| <= 128
  }

  /** A stored hash is accepted exactly if its text names argon2id and has four more sections that say what it holds. */
  lemma DecodedIff(s: string, p: Phc)
    ensures DecodePhc(s) == Some(p) <==> exists version, params, salt, tag ::
      Sectioned(s, version, params, salt, tag) && Says(version, params, salt, tag, p)
  {
    if DecodePhc(s) == Some(p) { var version, params, salt, tag := DecodedSections(s, p); }
    if version, params, salt, tag :|
      Sectioned(s, version, params, salt, tag) && Says(version, params, salt, tag, p) {
      SectionsDecode(s, version, params, salt, tag, p);
    }
  }

  lemma DecodedSections(s: string, p: Phc) returns (version: string, params: string, salt: string, tag: string)
    requires DecodePhc(s) == Some(p)
    ensures Sectioned(s, version, params, salt, tag) && Says(version, params, salt, tag, p)
  {
    var parts := Split(s, '$');
    JoinOfSplit(s, '$');
    version, params, salt, tag := parts[2], parts[3], parts[4], parts[5];
    assert parts == ["", "argon2id", version, params, salt, tag];
  }

  lemma SectionsDecode(s: string, version: string, params: string, salt: string, tag: string, p: Phc)
    requires Sectioned(s, version, params, salt, tag) && Says(version, params, salt, tag, p)
    ensures DecodePhc(s) == Some(p)
  {
    SectionsSplit(s, version, params, salt, tag);
    PartsDecode(Split(s, '$'), (p.memory, p.time, p.threads), p.salt, p.tag);
  }

  lemma SectionsSplit(s: string, version: string, params: string, salt: string, tag: string)
    requires Sectioned(s, version, params, salt, tag)
    ensures var parts := Split(s, '$');
      && |parts| == 6 && parts[0] == "" && parts[1] == "argon2id"
      && parts[2] == version && parts[3] == params && parts[4] == salt && parts[5] == tag
  {
    SplitOfJoin(["", "argon2id", version, params, salt, tag], '$');
  }

  /**
   * An accepted hash is the text encodePHC would write for what it holds only if each section is the canonical one:
   * nothing after the numbers, no blanks, signs or zeros before them, no line breaks or stray bits in the base64.
   */
  lemma RenderedIff(s: string, version: string, params: string, salt: string, tag: string, p: Phc)
    requires Sectioned(s, version, params, salt, tag) && Says(version, params, salt, tag, p)
    ensures s == Render(p.memory, p.time, p.threads, p.salt, p.tag) <==>
      && version == "v=19" && params == Params(p.memory, p.time, p.threads)
      && salt == Encode64(p.salt, Standard) && tag == Encode64(p.tag, Standard)
  {
    SectionsSplit(s, version, params, salt, tag);
    RenderIsSectioned(p.memory, p.time, p.threads, p.salt, p.tag);
    SectionsSplit(Render(p.memory, p.time, p.threads, p.salt, p.tag), "v=19", Params(p.memory, p.time, p.threads),
                  Encode64(p.salt, Standard), Encode64(p.tag, Standard));
  }

  lemma RenderIsSectioned(m: nat, t: nat, p: nat, salt: seq<Byte>, tag: seq<Byte>)
    ensures Sectioned(Render(m, t, p, salt, tag), "v=19", Params(m, t, p), Encode64(salt, Standard),
                      Encode64(tag, Standard))
  {
    RenderSplits(m, t, p, salt, tag);
    JoinOfSplit(Render(m, t, p, salt, tag), '$');
    ParamsLackDollar(m, t, p);
    TextLacksDollar(salt);
    TextLacksDollar(tag);
  }

  /** Any section that scans as 19 will do for the version. */
  lemma AnyVersion(version: string, n: nat, bs: seq<Byte>) returns (s: string, p: Phc)
    requires ScanVersion(version) == Some(19) && version != "v=19" && Lacks(version, '$')
    requires n < 256 && 1 <= |bs| <= 128
    ensures DecodePhc(s) == Some(p) && s != Render(p.memory, p.time, p.threads, p.salt, p.tag)
  {
    p := Phc(n, n, n, bs, bs);
    var params, text := Params(n, n, n), Encode64(bs, Standard);
    s := Join(["", "argon2id", version, params, text, text], '$');
    ParamsLackDollar(n, n, n);
    TextLacksDollar(bs);
    ScanParamsBack(n, n, n);
    Decode64OfEncode(bs, Standard);
    SectionsDecode(s, version, params, text, text, p);
    RenderedIff(s, version, params, text, text, p);
  }

  /** So a hash of another shape is accepted: with "v=19x" for its version, and a byte each for salt and tag. */
  lemma LenientHash() returns (s: string, p: Phc)
    ensures DecodePhc(s) == Some(p) && s != Render(p.memory, p.time, p.threads, p.salt, p.tag)
  {
    LenientVersion();
    s, p := AnyVersion("v=19x", 1, [0]);
  }

  lemma LenientVersion()
    ensures ScanVersion("v=19x") == Some(19)
  {
    assert Expect("v=19x", "v=") == Some("19x");
    assert Decimal(1) == "1" && Decimal(19) == "19";
    ValueOfDecimal(19);
    ScanIntOf("19x", "", "", "19", "x");
  }

  /** The three numbers stand in this order, each right after its own label; what follows the last one is ignored. */
  lemma ScanParamsIff(s: string, m: nat, t: nat, p: nat)
    ensures ScanParams(s) == Some((m, t, p)) <==> exists s0, s1, s2, rest ::
      && s == "m=" + s0 && ScanUint(s0, 0x1_0000_0000) == Some((m, ",t=" + s1))
      && ScanUint(s1, 0x1_0000_0000) == Some((t, ",p=" + s2)) && ScanUint(s2, 256) == Some((p, rest))
  {
    if ScanParams(s) == Some((m, t, p)) {
      var s0 := s[2..];
      var s1 := ScanUint(s0, 0x1_0000_0000).value.1[3..];
      var s2 := ScanUint(s1, 0x1_0000_0000).value.1[3..];
      FieldAt(s, "m=", 0x1_0000_0000, m);
      FieldAt(ScanUint(s0, 0x1_0000_0000).value.1, ",t=", 0x1_0000_0000, t);
      FieldAt(ScanUint(s1, 0x1_0000_0000).value.1, ",p=", 256, p);
      assert ScanUint(s2, 256) == Some((p, ScanUint(s2, 256).value.1));
    }
  }

  lemma FieldAt(s: string, literal: string, range: nat, n: nat)
    requires ScanField(s, literal, range).Some? && ScanField(s, literal, range).value.0 == n
    ensures |literal| <= |s| && s == literal + s[|literal|..] && ScanUint(s[|literal|..], range).Some?
    ensures ScanUint(s[|literal|..], range).value.0 == n
  {
  }

  lemma ScanVersionIff(s: string, v: int)
    ensures ScanVersion(s) == Some(v) <==> exists t, rest :: s == "v=" + t && ScanInt(t) == Some((v, rest))
  {
    if ScanVersion(s) == Some(v) {
      assert s == "v=" + s[2..] && ScanInt(s[2..]) == Some((v, ScanInt(s[2..]).value.1));
    }
  }

  // ----- Minting -----

  /** argon2.IDKey, left uninterpreted: secret, salt, time, memory, threads and the length of the tag. */
  type Kdf = (string, seq<Byte>, nat, nat, nat, nat) -> seq<Byte>

  ghost predicate ValidKdf(kdf: Kdf) {
    forall secret, salt, time, memory, threads, len :: |kdf(secret, salt, time, memory, threads, len)| == len
  }

  datatype Minted = Minted(displayKey: string, prefix: string, phcHash: string)

  /** Mint over a finite source of random bytes; None is a source that runs dry. */
  function Mint(random: seq<Byte>, kdf: Kdf): Option<Minted> {
    if |random| < PREFIX_RAW + SECRET_RAW + SALT_LEN then None
    else
      var prefixRaw := random[..PREFIX_RAW];
      var secretRaw := random[PREFIX_RAW..PREFIX_RAW + SECRET_RAW];
      var salt := random[PREFIX_RAW + SECRET_RAW..PREFIX_RAW + SECRET_RAW + SALT_LEN];
      var tag := kdf(SecretOf(secretRaw), salt, ARGON_TIME, ARGON_MEMORY, ARGON_THREADS, TAG_LEN);
      Some(Minted(Display(prefixRaw, secretRaw), PrefixOf(prefixRaw), EncodePhc(salt, tag)))
  }

  /** Does the secret match the stored hash, derived with the hash's own parameters? None is a malformed hash. */
  function Check(kdf: Kdf, phcHash: string, secret: string): Option<bool> {
    match DecodePhc(phcHash)
    case None => None
    case Some(p) => Some(kdf(secret, p.salt, p.time, p.memory, p.threads, |p.tag|) == p.tag)
  }

  /** A stored hash is checked with its own parameters, whatever the mint's are by then. */
  lemma CheckOfRender(kdf: Kdf, m: nat, t: nat, p: nat, salt: seq<Byte>, tag: seq<Byte>, secret: string)
    requires m < 0x1_0000_0000 && t < 0x1_0000_0000 && p < 256
    ensures Check(kdf, Render(m, t, p, salt, tag), secret) ==
      if 1 <= |salt| <= 128 && 1 <= |tag| <= 128 then Some(kdf(secret, salt, t, m, p, |tag|) == tag) else None
  {
    DecodeOfRender(m, t, p, salt, tag);
  }

  /** And so is every other text that is accepted as one; all the rest is an error, not a mismatch. */
  lemma CheckIff(
    kdf: Kdf, s: string, version: string, params: string, salt: string, tag: string, p: Phc, secret: string)
    ensures Check(kdf, s, secret) == None <==> DecodePhc(s) == None
    ensures Sectioned(s, version, params, salt, tag) && Says(version, params, salt, tag, p) ==>
      Check(kdf, s, secret) == Some(kdf(secret, p.salt, p.time, p.memory, p.threads, |p.tag|) == p.tag)
  {
    if Sectioned(s, version, params, salt, tag) && Says(version, params, salt, tag, p) {
      SectionsDecode(s, version, params, salt, tag, p);
    }
  }

  /**
   * Prefix, secret and salt are drawn from the random source one after the other, none of it used twice: the first 5
   * bytes are published, the next 24 are the secret, and the next 16 salt the hash that is stored of it.
   */
  lemma MintedFrom(p: seq<Byte>, k: seq<Byte>, salt: seq<Byte>, rest: seq<Byte>, kdf: Kdf)
    requires ValidKdf(kdf) && |p| == 5 && |k| == 24 && |salt| == 16
    ensures Mint(p + k + salt + rest, kdf).Some?
    ensures var m := Mint(p + k + salt + rest, kdf).value;
      && m.displayKey == "vk_" + PrefixOf(p) + "_" + SecretOf(k) && m.prefix == PrefixOf(p)
      && DecodePhc(m.phcHash) == Some(Phc(19456, 2, 1, salt, kdf(SecretOf(k), salt, 2, 19456, 1, 32)))
  {
    FourSlices(p, k, salt, rest);
    MintedOf(p + k + salt + rest, p, k, salt, kdf);
    DisplayText(PrefixOf(p), SecretOf(k));
    MintedHash(SecretOf(k), salt, kdf);
  }

  lemma MintedOf(random: seq<Byte>, p: seq<Byte>, k: seq<Byte>, salt: seq<Byte>, kdf: Kdf)
    requires |random| >= 45 && random[..5] == p && random[5..29] == k && random[29..45] == salt
    ensures Mint(random, kdf) ==
      Some(Minted(Display(p, k), PrefixOf(p), EncodePhc(salt, kdf(SecretOf(k), salt, 2, 19456, 1, 32))))
  {
  }

  lemma DisplayText(prefix: string, secret: string)
    ensures "vk" + "_" + prefix + "_" + secret == "vk_" + prefix + "_" + secret
  {
  }

  lemma FourSlices(p: seq<Byte>, k: seq<Byte>, salt: seq<Byte>, rest: seq<Byte>)
    requires |p| == 5 && |k| == 24 && |salt| == 16
    ensures var random := p + k + salt + rest;
      |random| >= 45 && random[..5] == p && random[5..29] == k && random[29..45] == salt
  {
  }

  lemma MintedHash(secret: string, salt: seq<Byte>, kdf: Kdf)
    requires ValidKdf(kdf) && |salt| == 16
    ensures var tag := kdf(secret, salt, 2, 19456, 1, 32);
      DecodePhc(EncodePhc(salt, tag)) == Some(Phc(19456, 2, 1, salt, tag))
  {
    DecodeOfEncode(salt, kdf(secret, salt, 2, 19456, 1, 32));
  }

  /** And a source of fewer than 45 bytes mints nothing. */
  lemma MintedIff(random: seq<Byte>, kdf: Kdf)
    ensures Mint(random, kdf).Some? <==> |random| >= 45
  {
  }

  /** What Mint hands out and stores fits together: the displayed key parses, and its secret passes the stored hash. */
  lemma MintedKeyChecks(random: seq<Byte>, kdf: Kdf)
    requires ValidKdf(kdf) && Mint(random, kdf).Some?
    ensures var m := Mint(random, kdf).value;
      && Parse(m.displayKey).Some? && Parse(m.displayKey).value.0 == m.prefix
      && Check(kdf, m.phcHash, Parse(m.displayKey).value.1) == Some(true)
  {
    var prefixRaw, secretRaw := random[..PREFIX_RAW], random[PREFIX_RAW..PREFIX_RAW + SECRET_RAW];
    var salt := random[PREFIX_RAW + SECRET_RAW..PREFIX_RAW + SECRET_RAW + SALT_LEN];
    ParseOfDisplay(prefixRaw, secretRaw);
    FreshHashChecks(SecretOf(secretRaw), salt, kdf);
  }

  lemma FreshHashChecks(secret: string, salt: seq<Byte>, kdf: Kdf)
    requires ValidKdf(kdf) && |salt| == SALT_LEN
    ensures var tag := kdf(secret, salt, ARGON_TIME, ARGON_MEMORY, ARGON_THREADS, TAG_LEN);
      |tag| == TAG_LEN && Check(kdf, EncodePhc(salt, tag), secret) == Some(true)
  {
    DecodeOfEncode(salt, kdf(secret, salt, ARGON_TIME, ARGON_MEMORY, ARGON_THREADS, TAG_LEN));
  }
}
