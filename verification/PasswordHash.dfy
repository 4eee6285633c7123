/** The PHC text form of an argon2id hash: printing, parsing and password checking.
    The key derivation itself is an arbitrary function. */
module PasswordHash {
  import opened Text
  import opened Base64

  const ARGON_VERSION := 19
  const ARGON_MEMORY := 65536
  const ARGON_TIME := 3
  const ARGON_THREADS := 2

  const TWO_8 := 0x100
  const TWO_32 := 0x1_0000_0000
  const TWO_63 := 0x8000_0000_0000_0000

  /** argon2.IDKey(password, salt, time, memory, threads, keyLen) */
  type Kdf = (string, seq<Byte>, nat, nat, nat, nat) -> seq<Byte>

  // ----- decimal numbers, as %d prints and scans them -----

  predicate IsDigit(c: char)
  {
    '0' <= c <= '9'
  }

  function PrintDecimal(n: nat): (s: string)
    ensures s != "" && forall c | c in s :: IsDigit(c)
  {
    var last := ['0' + (n % 10) as char];
    if n < 10 then last else PrintDecimal(n / 10) + last
  }

  function DigitsValue(ds: string): nat
    requires forall c | c in ds :: IsDigit(c)
  {
    if ds == "" then 0
    else
      assert IsDigit(ds[|ds| - 1]);
      DigitsValue(ds[..|ds| - 1]) * 10 + (ds[|ds| - 1] as int - '0' as int)
  }

  lemma {:induction false} DigitsValuePrint(n: nat)
    ensures DigitsValue(PrintDecimal(n)) == n
  {
    var s := PrintDecimal(n);
    if n >= 10 {
      DigitsValuePrint(n / 10);
      assert s[..|s| - 1] == PrintDecimal(n / 10);
    }
  }

  /** The longest leading run of digits, and what follows it. */
  function TakeDigits(s: string): (r: (string, string))
    ensures r.0 + r.1 == s
    ensures forall c | c in r.0 :: IsDigit(c)
    ensures r.1 != "" ==> !IsDigit(r.1[0])
  {
    if s != "" && IsDigit(s[0]) then
      var (ds, rest) := TakeDigits(s[1..]);
      ([s[0]] + ds, rest)
    else ("", s)
  }

  lemma {:induction false} TakeDigitsAppend(ds: string, rest: string)
    requires forall c | c in ds :: IsDigit(c)
    requires rest != "" ==> !IsDigit(rest[0])
    ensures TakeDigits(ds + rest) == (ds, rest)
  {
    if ds == "" {
      assert ds + rest == rest;
    } else {
      TakeDigitsAppend(ds[1..], rest);
      assert (ds + rest)[1..] == ds[1..] + rest;
      assert [ds[0]] + ds[1..] == ds;
    }
  }

  /** fmt skips leading space before %d, but refuses a newline. */
  function SkipSpace(s: string): Option<string>
  {
    if s == "" then Some("")
    else if s[0] == '\r' && |s| > 1 && s[1] == '\n' then SkipSpace(s[1..])
    else if s[0] == '\n' then None
    else if GoSpace(s[0]) then SkipSpace(s[1..])
    else Some(s)
  }

  /** Sscanf's %d into a 64-bit int: the number and the unread input. */
  function ScanInt(s: string): Option<(int, string)>
  {
    match SkipSpace(s)
    case None => None
    case Some(t) =>
      var signed := t != "" && (t[0] == '+' || t[0] == '-');
      var (ds, rest) := TakeDigits(if signed then t[1..] else t);
      if ds == "" then None
      else
        var size: int := DigitsValue(ds);
        var n := if signed && t[0] == '-' then 0 - size else size;
        if -TWO_63 <= n < TWO_63 then Some((n, rest)) else None
  }

  lemma ScanIntPrinted(n: nat, rest: string)
    requires n < TWO_63
    requires rest != "" ==> !IsDigit(rest[0])
    ensures ScanInt(PrintDecimal(n) + rest) == Some((n, rest))
  {
    hide PrintDecimal, DigitsValue, TakeDigits;
    var ds := PrintDecimal(n);
    assert ds[0] in ds;
    assert SkipSpace(ds + rest) == Some(ds + rest);
    TakeDigitsAppend(ds, rest);
    DigitsValuePrint(n);
  }

  /** A minus sign makes the number negative, down to the least 64-bit one. */
  lemma ScanIntNegated(n: nat, rest: string)
    requires n <= TWO_63
    requires rest != "" ==> !IsDigit(rest[0])
    ensures ScanInt("-" + PrintDecimal(n) + rest) == Some((0 - n, rest))
  {
    hide PrintDecimal, DigitsValue, TakeDigits;
    var s := "-" + PrintDecimal(n) + rest;
    assert s[1..] == PrintDecimal(n) + rest;
    assert SkipSpace(s) == Some(s);
    TakeDigitsAppend(PrintDecimal(n), rest);
    DigitsValuePrint(n);
  }

  function Literal(s: string, lit: string): Option<string>
  {
    if lit <= s then Some(s[|lit|..]) else None
  }

  // ----- printing and parsing -----

  datatype Phc = Phc(salt: seq<Byte>, hash: seq<Byte>, m: nat, t: nat, p: nat)

  datatype PhcError = WrongParts | WrongAlgorithm | BadVersion | BadParams | BadSalt | BadHash

  datatype PhcResult = Parsed(phc: Phc) | Rejected(error: PhcError)

  function PrintParams(m: nat, t: nat, p: nat): string
  {
    "m=" + (PrintDecimal(m) + (",t=" + (PrintDecimal(t) + (",p=" + PrintDecimal(p)))))
  }

  function PrintPhc(version: nat, phc: Phc): string
  {
    Join(["", "argon2id", "v=" + PrintDecimal(version), PrintParams(phc.m, phc.t, phc.p),
          Encode(Std, phc.salt), Encode(Std, phc.hash)], "$")
  }

  /** Sscanf with "m=%d,t=%d,p=%d"; input left over is not an error. */
  function ScanParams(s: string): Option<(int, int, int)>
  {
    match Literal(s, "m=") case None => None case Some(s1) =>
    match ScanInt(s1) case None => None case Some((m, s2)) =>
    match Literal(s2, ",t=") case None => None case Some(s3) =>
    match ScanInt(s3) case None => None case Some((t, s4)) =>
    match Literal(s4, ",p=") case None => None case Some(s5) =>
    match ScanInt(s5) case None => None case Some((p, _)) => Some((m, t, p))
  }

  /** The conversions to uint32 and uint8 keep the low bits. */
  function ParseArgon2Phc(encoded: string): PhcResult
  {
    var parts := Split(encoded, '$');
    if |parts| != 6 then Rejected(WrongParts)
    else if parts[1] != "argon2id" then Rejected(WrongAlgorithm)
    else if Literal(parts[2], "v=").None? || ScanInt(Literal(parts[2], "v=").value).None? then Rejected(BadVersion)
    else match ScanParams(parts[3])
      case None => Rejected(BadParams)
      case Some((m, t, p)) =>
        match Decode(Std, parts[4])
        case None => Rejected(BadSalt)
        case Some(salt) =>
          match Decode(Std, parts[5])
          case None => Rejected(BadHash)
          case Some(hash) => Parsed(Phc(salt, hash, m % TWO_32, t % TWO_32, p % TWO_8))
  }

  lemma LiteralAppend(lit: string, rest: string)
    ensures Literal(lit + rest, lit) == Some(rest)
  {
    assert (lit + rest)[|lit|..] == rest;
  }

  lemma ScanPrintedParams(m: nat, t: nat, p: nat)
    requires m < TWO_63 && t < TWO_63 && p < TWO_63
    ensures ScanParams(PrintParams(m, t, p)) == Some((m, t, p))
  {
    var s5 := PrintDecimal(p);
    var s3 := PrintDecimal(t) + (",p=" + s5);
    var s1 := PrintDecimal(m) + (",t=" + s3);
    LiteralAppend("m=", s1);
    ScanIntPrinted(m, ",t=" + s3);
    LiteralAppend(",t=", s3);
    ScanIntPrinted(t, ",p=" + s5);
    LiteralAppend(",p=", s5);
    assert s5 + "" == s5;
    ScanIntPrinted(p, "");
  }

  lemma PrintedPartsAvoidDollar(version: nat, phc: Phc)
    ensures '$' !in "v=" + PrintDecimal(version)
    ensures '$' !in PrintParams(phc.m, phc.t, phc.p)
    ensures '$' !in Encode(Std, phc.salt) && '$' !in Encode(Std, phc.hash)
  {
    EncodeAvoids(Std, phc.salt, '$');
    EncodeAvoids(Std, phc.hash, '$');
    assert !IsDigit('$');
  }

  lemma SplitPrinted(version: nat, phc: Phc)
    ensures Split(PrintPhc(version, phc), '$')
         == ["", "argon2id", "v=" + PrintDecimal(version), PrintParams(phc.m, phc.t, phc.p),
             Encode(Std, phc.salt), Encode(Std, phc.hash)]
  {
    PrintedPartsAvoidDollar(version, phc);
    SplitJoin(["", "argon2id", "v=" + PrintDecimal(version), PrintParams(phc.m, phc.t, phc.p),
               Encode(Std, phc.salt), Encode(Std, phc.hash)], '$');
  }

  /** Every printable hash parses; salt and hash come back whole, the parameters modulo their widths. */
  lemma ParsePrinted(version: nat, phc: Phc)
    requires version < TWO_63 && phc.m < TWO_63 && phc.t < TWO_63 && phc.p < TWO_63
    ensures ParseArgon2Phc(PrintPhc(version, phc))
         == Parsed(phc.(m := phc.m % TWO_32, t := phc.t % TWO_32, p := phc.p % TWO_8))
  {
    SplitPrinted(version, phc);
    var v := PrintDecimal(version);
    LiteralAppend("v=", v);
    assert v + "" == v;
    ScanIntPrinted(version, "");
    ScanPrintedParams(phc.m, phc.t, phc.p);
    RoundTrip(Std, phc.salt);
    RoundTrip(Std, phc.hash);
  }

  /** The round trip is exact precisely for parameters that fit their machine types. */
  lemma PhcRoundTrip(version: nat, phc: Phc)
    requires version < TWO_63 && phc.m < TWO_63 && phc.t < TWO_63 && phc.p < TWO_63
    ensures ParseArgon2Phc(PrintPhc(version, phc)) == Parsed(phc)
       <==> phc.m < TWO_32 && phc.t < TWO_32 && phc.p < TWO_8
  {
    ParsePrinted(version, phc);
    FitsIff(phc.m, TWO_32);
    FitsIff(phc.t, TWO_32);
    FitsIff(phc.p, TWO_8);
  }

  lemma FitsIff(n: nat, width: nat)
    requires width > 0
    ensures n % width == n <==> n < width
  {
  }

  /** Whatever parses is six parts between dollar signs that name the algorithm and a version, with the salt and
      the hash the last two decode to. */
  lemma ParsedShape(encoded: string, phc: Phc)
    requires ParseArgon2Phc(encoded) == Parsed(phc)
    ensures exists first, version, params, salt, hash ::
      && encoded == Join([first, "argon2id", version, params, salt, hash], "$")
      && "v=" <= version && "m=" <= params
      && Decode(Std, salt) == Some(phc.salt) && Decode(Std, hash) == Some(phc.hash)
      && phc.m < TWO_32 && phc.t < TWO_32 && phc.p < TWO_8
  {
    var parts := Split(encoded, '$');
    JoinSplit(encoded, '$');
    assert parts == [parts[0], "argon2id", parts[2], parts[3], parts[4], parts[5]];
  }

  // ----- hashing and checking passwords -----

  function HashPassword(kdf: Kdf, plain: string, salt: seq<Byte>): string
  {
    var hash := kdf(plain, salt, ARGON_TIME, ARGON_MEMORY, ARGON_THREADS, 32);
    PrintPhc(ARGON_VERSION, Phc(salt, hash, ARGON_MEMORY, ARGON_TIME, ARGON_THREADS))
  }

  lemma PrintStep(n: nat, digit: char)
    requires digit == '0' + (n % 10) as char
    ensures PrintDecimal(n) == if n < 10 then [digit] else PrintDecimal(n / 10) + [digit]
  {
  }

  lemma PrintedParams()
    ensures PrintDecimal(19) == "19" && PrintDecimal(65536) == "65536" && PrintDecimal(3) == "3" && PrintDecimal(2) == "2"
  {
    hide PrintDecimal;
    PrintStep(1, '1');
    PrintStep(19, '9');
    PrintStep(3, '3');
    PrintStep(2, '2');
    PrintStep(6, '6');
    PrintStep(65, '5');
    PrintStep(655, '5');
    PrintStep(6553, '3');
    PrintStep(65536, '6');
  }

  /** The text that is stored: version and parameters in plain, then salt and key. */
  lemma StoredText(kdf: Kdf, plain: string, salt: seq<Byte>)
    ensures HashPassword(kdf, plain, salt)
         == Join(["", "argon2id", "v=19", "m=65536,t=3,p=2", Encode(Std, salt), Encode(Std, kdf(plain, salt, 3, 65536, 2, 32))], "$")
  {
    hide Join;
    PrintedParams();
    assert PrintParams(65536, 3, 2) == "m=" + ("65536" + (",t=" + ("3" + (",p=" + "2")))) == "m=65536,t=3,p=2";
    assert "v=" + "19" == "v=19";
  }

  datatype VerifyResult = Checked(ok: bool) | ParseFailure(error: PhcError)

  function VerifyPassword(kdf: Kdf, plain: string, encoded: string): VerifyResult
  {
    match ParseArgon2Phc(encoded)
    case Rejected(e) => ParseFailure(e)
    case Parsed(phc) => Checked(kdf(plain, phc.salt, phc.t, phc.m, phc.p, |phc.hash| % TWO_32) == phc.hash)
  }

  /** A stored hash accepts exactly the passwords that derive the stored key from its salt:
      the password hashed is accepted, and no parse failure can occur. */
  lemma StoredHashAcceptsExactly(kdf: Kdf, plain: string, salt: seq<Byte>, attempt: string)
    requires |kdf(plain, salt, 3, 65536, 2, 32)| == 32
    ensures VerifyPassword(kdf, attempt, HashPassword(kdf, plain, salt)) == Checked(kdf(attempt, salt, 3, 65536, 2, 32) == kdf(plain, salt, 3, 65536, 2, 32))
  {
    var hash := kdf(plain, salt, ARGON_TIME, ARGON_MEMORY, ARGON_THREADS, 32);
    ParsePrinted(ARGON_VERSION, Phc(salt, hash, ARGON_MEMORY, ARGON_TIME, ARGON_THREADS));
  }
}
