/** Padding-free base64 (sections 4 and 5 of RFC 4648), as Go's RawStdEncoding and
    RawURLEncoding write and read it. */
module Base64 {
  import opened Text

  type Byte = x: int | 0 <= x < 256
  type Sextet = x: int | 0 <= x < 64

  datatype Alphabet = Std | Url

  function CharOf(a: Alphabet, v: Sextet): (c: char)
    ensures ValueOf(a, c) == Some(v)
  {
    if v < 26 then ('A' as int + v) as char
    else if v < 52 then ('a' as int + v - 26) as char
    else if v < 62 then ('0' as int + v - 52) as char
    else if v == 62 then (if a.Std? then '+' else '-')
    else (if a.Std? then '/' else '_')
  }

  function ValueOf(a: Alphabet, c: char): Option<Sextet>
  {
    if 'A' <= c <= 'Z' then Some(c as int - 'A' as int)
    else if 'a' <= c <= 'z' then Some(c as int - 'a' as int + 26)
    else if '0' <= c <= '9' then Some(c as int - '0' as int + 52)
    else if c == (if a.Std? then '+' else '-') then Some(62)
    else if c == (if a.Std? then '/' else '_') then Some(63)
    else None
  }

  predicate InAlphabet(a: Alphabet, s: string)
  {
    forall c | c in s :: ValueOf(a, c).Some?
  }

  function Encode(a: Alphabet, bs: seq<Byte>): (s: string)
    ensures InAlphabet(a, s)
  {
    if |bs| == 0 then ""
    else if |bs| == 1 then
      [CharOf(a, bs[0] / 4), CharOf(a, bs[0] % 4 * 16)]
    else if |bs| == 2 then
      [CharOf(a, bs[0] / 4), CharOf(a, bs[0] % 4 * 16 + bs[1] / 16), CharOf(a, bs[1] % 16 * 4)]
    else
      [CharOf(a, bs[0] / 4), CharOf(a, bs[0] % 4 * 16 + bs[1] / 16),
       CharOf(a, bs[1] % 16 * 4 + bs[2] / 64), CharOf(a, bs[2] % 64)]
      + Encode(a, bs[3..])
  }

  /** Go's decoder skips carriage returns and newlines wherever they stand. */
  function StripNewlines(s: string): (r: string)
    ensures (forall c | c in s :: c != '\r' && c != '\n') ==> r == s
  {
    if s == "" then ""
    else
      assert s[0] in s && forall c | c in s[1..] :: c in s;
      if s[0] == '\r' || s[0] == '\n' then StripNewlines(s[1..])
      else [s[0]] + StripNewlines(s[1..])
  }

  /** Unused bits of a final partial group are ignored, as the non-strict encodings do. */
  function DecodeGroups(a: Alphabet, s: string): Option<seq<Byte>>
  {
    if |s| == 0 then Some([])
    else if |s| == 1 then None
    else
      var v0, v1 := ValueOf(a, s[0]), ValueOf(a, s[1]);
      if v0.None? || v1.None? then None
      else
        var b0: Byte := v0.value * 4 + v1.value / 16;
        if |s| == 2 then Some([b0])
        else
          var v2 := ValueOf(a, s[2]);
          if v2.None? then None
          else
            var b1: Byte := v1.value % 16 * 16 + v2.value / 4;
            if |s| == 3 then Some([b0, b1])
            else
              var v3 := ValueOf(a, s[3]);
              if v3.None? then None
              else
                var b2: Byte := v2.value % 4 * 64 + v3.value;
                match DecodeGroups(a, s[4..])
                case None => None
                case Some(rest) => Some([b0, b1, b2] + rest)
  }

  function Decode(a: Alphabet, s: string): Option<seq<Byte>>
  {
    DecodeGroups(a, StripNewlines(s))
  }

  /** The three bytes that four sextets carry. */
  function Combine(v0: Sextet, v1: Sextet, v2: Sextet, v3: Sextet): seq<Byte>
  {
    [v0 * 4 + v1 / 16, v1 % 16 * 16 + v2 / 4, v2 % 4 * 64 + v3]
  }

  lemma CombineSplit(b0: Byte, b1: Byte, b2: Byte)
    ensures Combine(b0 / 4, b0 % 4 * 16 + b1 / 16, b1 % 16 * 4 + b2 / 64, b2 % 64) == [b0, b1, b2]
  {
    assert (b0 % 4 * 16 + b1 / 16) / 16 == b0 % 4 && (b0 % 4 * 16 + b1 / 16) % 16 == b1 / 16;
    assert (b1 % 16 * 4 + b2 / 64) / 4 == b1 % 16 && (b1 % 16 * 4 + b2 / 64) % 4 == b2 / 64;
  }

  lemma DecodeGroup(a: Alphabet, v0: Sextet, v1: Sextet, v2: Sextet, v3: Sextet, rest: string)
    ensures DecodeGroups(a, [CharOf(a, v0), CharOf(a, v1), CharOf(a, v2), CharOf(a, v3)] + rest)
         == match DecodeGroups(a, rest) case None => None case Some(more) => Some(Combine(v0, v1, v2, v3) + more)
  {
    assert ([CharOf(a, v0), CharOf(a, v1), CharOf(a, v2), CharOf(a, v3)] + rest)[4..] == rest;
  }

  lemma {:induction false} DecodeGroupsEncode(a: Alphabet, bs: seq<Byte>)
    ensures DecodeGroups(a, Encode(a, bs)) == Some(bs)
  {
    if |bs| >= 3 {
      DecodeGroupsEncode(a, bs[3..]);
      DecodeGroup(a, bs[0] / 4, bs[0] % 4 * 16 + bs[1] / 16, bs[1] % 16 * 4 + bs[2] / 64, bs[2] % 64, Encode(a, bs[3..]));
      CombineSplit(bs[0], bs[1], bs[2]);
      assert bs == [bs[0], bs[1], bs[2]] + bs[3..];
    } else {
      DecodePartial(a, bs);
    }
  }

  lemma DecodePartial(a: Alphabet, bs: seq<Byte>)
    requires |bs| < 3
    ensures DecodeGroups(a, Encode(a, bs)) == Some(bs)
  {
    if |bs| == 2 {
      assert bs == [bs[0], bs[1]];
    } else if |bs| == 1 {
      assert bs == [bs[0]];
    }
  }

  /** Decoding undoes encoding for every byte string, in both alphabets. */
  lemma RoundTrip(a: Alphabet, bs: seq<Byte>)
    ensures Decode(a, Encode(a, bs)) == Some(bs)
  {
    var s := Encode(a, bs);
    assert StripNewlines(s) == s by {
      forall c | c in s ensures c != '\r' && c != '\n' {
        assert ValueOf(a, c).Some?;
      }
    }
    DecodeGroupsEncode(a, bs);
  }

  lemma EncodeInjective(a: Alphabet, x: seq<Byte>, y: seq<Byte>)
    requires Encode(a, x) == Encode(a, y)
    ensures x == y
  {
    RoundTrip(a, x);
    RoundTrip(a, y);
  }

  /** A character outside the alphabet never occurs in encoded text. */
  lemma EncodeAvoids(a: Alphabet, bs: seq<Byte>, c: char)
    requires ValueOf(a, c).None?
    ensures c !in Encode(a, bs)
  {
    assert InAlphabet(a, Encode(a, bs));
  }
}
