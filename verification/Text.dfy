/** String helpers with the meaning they have in the program: Go's strings.Split and
    strings.TrimSpace, and JavaScript's split, join and trim. */
module Text {

  datatype Option<+T> = None | Some(value: T)

  /** strings.Split for a one-character separator. */
  function Split(s: string, sep: char): (parts: seq<string>)
    ensures |parts| >= 1
    ensures forall p | p in parts :: sep !in p
  {
    if s == "" then [""]
    else
      var rest := Split(s[1..], sep);
      if s[0] == sep then [""] + rest
      else [[s[0]] + rest[0]] + rest[1..]
  }

  function Join(parts: seq<string>, sep: string): string
  {
    if |parts| == 0 then ""
    else if |parts| == 1 then parts[0]
    else parts[0] + sep + Join(parts[1..], sep)
  }

  lemma {:induction false} SplitAtom(a: string, sep: char)
    requires sep !in a
    ensures Split(a, sep) == [a]
  {
    if a != "" {
      SplitAtom(a[1..], sep);
      assert [a[0]] + a[1..] == a;
    }
  }

  /** A separator ends exactly the piece before it. */
  lemma {:induction false} SplitCons(a: string, sep: char, rest: string)
    requires sep !in a
    ensures Split(a + [sep] + rest, sep) == [a] + Split(rest, sep)
  {
    var s := a + [sep] + rest;
    if a == "" {
      assert s[1..] == rest;
    } else {
      assert s[1..] == a[1..] + [sep] + rest;
      SplitCons(a[1..], sep, rest);
      assert [a[0]] + a[1..] == a;
    }
  }

  /** Splitting undoes joining when no piece holds the separator. */
  lemma {:induction false} SplitJoin(parts: seq<string>, sep: char)
    requires |parts| >= 1
    requires forall p | p in parts :: sep !in p
    ensures Split(Join(parts, [sep]), sep) == parts
  {
    SplitAtom(parts[0], sep);
    if |parts| > 1 {
      SplitJoin(parts[1..], sep);
      SplitCons(parts[0], sep, Join(parts[1..], [sep]));
    }
  }

  /** And joining undoes splitting. */
  lemma {:induction false} JoinSplit(s: string, sep: char)
    ensures Join(Split(s, sep), [sep]) == s
  {
    if s != "" {
      JoinSplit(s[1..], sep);
      var rest := Split(s[1..], sep);
      assert s == [s[0]] + s[1..];
      if s[0] == sep {
        assert Split(s, sep)[1..] == rest;
      } else {
        assert Split(s, sep)[1..] == rest[1..];
      }
    }
  }

  /** unicode.IsSpace, as strings.TrimSpace uses it. */
  predicate GoSpace(c: char)
  {
    || CommonSpace(c)
    || c == '\U{0085}'
  }

  /** White space and line terminators, as String.prototype.trim uses them. */
  predicate JsSpace(c: char)
  {
    || CommonSpace(c)
    || c == '\U{FEFF}'
  }

  predicate CommonSpace(c: char)
  {
    || '\t' <= c <= '\r'
    || c == ' '
    || c == '\U{00A0}'
    || c == '\U{1680}'
    || '\U{2000}' <= c <= '\U{200A}'
    || c == '\U{2028}' || c == '\U{2029}' || c == '\U{202F}' || c == '\U{205F}' || c == '\U{3000}'
  }

  function TrimLeft(s: string, space: char -> bool): string
  {
    if s != "" && space(s[0]) then TrimLeft(s[1..], space) else s
  }

  function TrimRight(s: string, space: char -> bool): string
  {
    if s != "" && space(s[|s| - 1]) then TrimRight(s[..|s| - 1], space) else s
  }

  function Trim(s: string, space: char -> bool): string
  {
    TrimRight(TrimLeft(s, space), space)
  }

  /** strings.TrimSpace. */
  function GoTrim(s: string): string
  {
    Trim(s, GoSpace)
  }

  /** String.prototype.trim. */
  function JsTrim(s: string): string
  {
    Trim(s, JsSpace)
  }

  /** No white space at either end. */
  predicate Trimmed(s: string, space: char -> bool)
  {
    s == "" || (!space(s[0]) && !space(s[|s| - 1]))
  }

  lemma {:induction false} TrimLeftIs(s: string, space: char -> bool)
    ensures var r := TrimLeft(s, space);
      && |r| <= |s| && r == s[|s| - |r|..]
      && (r != "" ==> !space(r[0]))
      && (s == "" || !space(s[0]) ==> r == s)
  {
    if s != "" && space(s[0]) {
      TrimLeftIs(s[1..], space);
    }
  }

  lemma {:induction false} TrimRightIs(s: string, space: char -> bool)
    ensures var r := TrimRight(s, space);
      && |r| <= |s| && r == s[..|r|]
      && (r != "" ==> !space(r[|r| - 1]))
      && (s == "" || !space(s[|s| - 1]) ==> r == s)
  {
    if s != "" && space(s[|s| - 1]) {
      TrimRightIs(s[..|s| - 1], space);
    }
  }

  /** Trimming leaves a trimmed string, changes no trimmed one, and adds no character. */
  lemma TrimIs(s: string, space: char -> bool)
    ensures var r := Trim(s, space);
      && Trimmed(r, space)
      && (r == s <==> Trimmed(s, space))
      && |r| <= |s| && (|r| == |s| ==> r == s)
      && (forall c | c in r :: c in s)
  {
    var l := TrimLeft(s, space);
    TrimLeftIs(s, space);
    TrimRightIs(l, space);
    var r := Trim(s, space);
    assert r != "" ==> r[0] == l[0];
    assert forall c | c in r :: c in l;
  }

  /** Trims every piece and drops the empty ones. */
  function TrimAll(parts: seq<string>, trim: string -> string): seq<string>
  {
    if parts == [] then []
    else if trim(parts[0]) == "" then TrimAll(parts[1..], trim)
    else [trim(parts[0])] + TrimAll(parts[1..], trim)
  }

  lemma TrimAllCons(a: string, rest: seq<string>, trim: string -> string)
    ensures TrimAll([a] + rest, trim) == (if trim(a) == "" then [] else [trim(a)]) + TrimAll(rest, trim)
  {
    assert ([a] + rest)[1..] == rest;
  }

  lemma {:induction false} TrimAllClean(parts: seq<string>, trim: string -> string)
    requires forall p | p in parts :: p != "" && trim(p) == p
    ensures TrimAll(parts, trim) == parts
  {
    if parts != [] {
      assert parts[0] in parts;
      assert forall p | p in parts[1..] :: p in parts;
      TrimAllClean(parts[1..], trim);
      assert parts == [parts[0]] + parts[1..];
    }
  }

  /** Every piece kept is a non-empty trimmed piece. */
  lemma {:induction false} TrimAllMember(parts: seq<string>, trim: string -> string, p: string)
    requires p in TrimAll(parts, trim)
    ensures p != "" && exists x :: x in parts && p == trim(x)
  {
    var a, rest := parts[0], parts[1..];
    if p == trim(a) && p != "" {
      assert a in parts;
    } else {
      TrimAllMember(rest, trim, p);
      var x :| x in rest && p == trim(x);
      assert x in parts;
    }
  }
}
