/** The string operations of JavaScript that the core relies on: `trim`,
    `Array.prototype.join`, `String.prototype.split` on a one-character
    separator, and the decimal rendering of a count inside a template literal. */
module Text {

  /** The characters `String.prototype.trim` removes: the WhiteSpace and
      LineTerminator code points of ECMAScript. */
  predicate IsWhitespace(c: char) {
    || c == ' ' || c == '\t' || c == '\n' || c == '\r' || c == '\U{000B}' || c == '\U{000C}'
    || c == '\U{00A0}' || c == '\U{1680}' || ('\U{2000}' <= c <= '\U{200A}')
    || c == '\U{2028}' || c == '\U{2029}' || c == '\U{202F}' || c == '\U{205F}'
    || c == '\U{3000}' || c == '\U{FEFF}'
  }

  predicate AllWhitespace(s: string) {
    forall k :: 0 <= k < |s| ==> IsWhitespace(s[k])
  }

  /** `s` with its leading whitespace removed. */
  function TrimStart(s: string): string {
    if s != [] && IsWhitespace(s[0]) then TrimStart(s[1..]) else s
  }

  /** `s` with its trailing whitespace removed. */
  function TrimEnd(s: string): string {
    if s != [] && IsWhitespace(s[|s| - 1]) then TrimEnd(s[..|s| - 1]) else s
  }

  /** What `TrimStart` keeps is a suffix that does not start with whitespace,
      after a prefix of whitespace only. */
  lemma {:induction false} TrimStartParts(s: string)
    ensures var r := TrimStart(s);
      && |r| <= |s| && r == s[|s| - |r|..]
      && AllWhitespace(s[..|s| - |r|])
      && (r == [] || !IsWhitespace(r[0]))
  {
    if s != [] && IsWhitespace(s[0]) {
      TrimStartParts(s[1..]);
      var r := TrimStart(s[1..]);
      assert s[..|s| - |r|] == [s[0]] + s[1..][..|s| - 1 - |r|];
    }
  }

  /** What `TrimEnd` keeps is a prefix that does not end with whitespace,
      before a suffix of whitespace only. */
  lemma {:induction false} TrimEndParts(s: string)
    ensures var r := TrimEnd(s);
      && |r| <= |s| && r == s[..|r|]
      && AllWhitespace(s[|r|..])
      && (r == [] || !IsWhitespace(r[|r| - 1]))
  {
    if s != [] && IsWhitespace(s[|s| - 1]) {
      TrimEndParts(s[..|s| - 1]);
      var r := TrimEnd(s[..|s| - 1]);
      assert s[|r|..] == s[..|s| - 1][|r|..] + [s[|s| - 1]];
    }
  }

  /** JavaScript's `s.trim()`: the part of `s` between its leading and its
      trailing whitespace. */
  function Trim(s: string): (r: string)
    ensures r == [] || (!IsWhitespace(r[0]) && !IsWhitespace(r[|r| - 1]))
    ensures r == [] <==> AllWhitespace(s)
  {
    TrimParts(s);
    TrimEnd(TrimStart(s))
  }

  /** What trimming removes is whitespace on both sides. */
  lemma {:induction false} TrimIsInfix(s: string)
    ensures exists i, j :: 0 <= i <= j <= |s| && Trim(s) == s[i..j] && AllWhitespace(s[..i]) && AllWhitespace(s[j..])
  {
    TrimParts(s);
  }

  lemma {:induction false} TrimParts(s: string)
    ensures var r := TrimEnd(TrimStart(s));
      && (exists i, j :: 0 <= i <= j <= |s| && r == s[i..j] && AllWhitespace(s[..i]) && AllWhitespace(s[j..]))
      && (r == [] || (!IsWhitespace(r[0]) && !IsWhitespace(r[|r| - 1])))
      && (r == [] <==> AllWhitespace(s))
  {
    var t := TrimStart(s);
    var r := TrimEnd(t);
    TrimStartParts(s);
    TrimEndParts(t);
    var i := |s| - |t|;
    var j := i + |r|;
    assert r == s[i..j];
    assert s[j..] == t[|r|..];
    assert AllWhitespace(s[..i]) && AllWhitespace(s[j..]);
    if r == [] {
      assert t[|r|..] == t;
      assert t == [];
      assert s[..i] == s;
    } else {
      assert r[0] == t[0];
    }
  }

  /** Trimming is idempotent. */
  lemma {:induction false} TrimIdempotent(s: string)
    ensures Trim(Trim(s)) == Trim(s)
  {
    var r := Trim(s);
    if r != [] {
      assert TrimStart(r) == r;
      assert TrimEnd(r) == r;
    }
  }

  /** A non-empty trim is its own trim and has no whitespace at either end. */
  lemma {:induction false} TrimmedIsTrimmed(t: string, s: string)
    requires t == Trim(s) && t != ""
    ensures Trim(t) == t && !IsWhitespace(t[0]) && !IsWhitespace(t[|t| - 1])
  {
    TrimIdempotent(s);
  }

  lemma {:induction false} TrimStartSkips(a: string, t: string)
    requires AllWhitespace(a)
    requires t == [] || !IsWhitespace(t[0])
    ensures TrimStart(a + t) == t
  {
    if a != [] {
      assert (a + t)[1..] == a[1..] + t;
      TrimStartSkips(a[1..], t);
    }
  }

  lemma {:induction false} TrimEndSkips(t: string, b: string)
    requires AllWhitespace(b)
    requires t == [] || !IsWhitespace(t[|t| - 1])
    ensures TrimEnd(t + b) == t
  {
    if b != [] {
      assert (t + b)[..|t + b| - 1] == t + b[..|b| - 1];
      TrimEndSkips(t, b[..|b| - 1]);
    }
  }

  /** Trim is determined by its contract: whitespace around a middle part that
      neither starts nor ends with whitespace is exactly what is removed. */
  lemma {:induction false} TrimOf(a: string, m: string, b: string)
    requires AllWhitespace(a) && AllWhitespace(b)
    requires m != [] && !IsWhitespace(m[0]) && !IsWhitespace(m[|m| - 1])
    ensures Trim(a + m + b) == m
  {
    assert a + m + b == a + (m + b);
    TrimStartSkips(a, m + b);
    TrimEndSkips(m, b);
  }

  /** A string that neither starts nor ends with whitespace is its own trim. */
  lemma {:induction false} TrimUnpadded(m: string)
    requires m != [] && !IsWhitespace(m[0]) && !IsWhitespace(m[|m| - 1])
    ensures Trim(m) == m && !AllWhitespace(m)
  {
    TrimOf("", m, "");
    assert "" + m + "" == m;
  }

  /** `Array.prototype.join(sep)`. */
  function Join(parts: seq<string>, sep: string): string
  {
    if |parts| == 0 then ""
    else if |parts| == 1 then parts[0]
    else parts[0] + sep + Join(parts[1..], sep)
  }

  /** With a non-empty separator the joined text is empty only for `[]` and `[""]`. */
  lemma {:induction false} JoinEmptyIff(parts: seq<string>, sep: string)
    requires sep != ""
    ensures Join(parts, sep) == "" <==> (parts == [] || parts == [""])
  {
    if |parts| >= 2 {
      assert |Join(parts, sep)| >= |sep|;
    }
  }

  /** A character found neither in the parts nor in the separator is not in
      the joined text. */
  lemma {:induction false} JoinAvoids(parts: seq<string>, sep: string, d: char)
    requires d !in sep
    requires forall i :: 0 <= i < |parts| ==> d !in parts[i]
    ensures d !in Join(parts, sep)
  {
    if |parts| >= 2 {
      JoinAvoids(parts[1..], sep, d);
    }
  }

  lemma {:induction false} JoinTwo(a: string, b: string, sep: string)
    ensures Join([a, b], sep) == a + sep + b
  {
    assert [a, b][1..] == [b];
  }

  lemma {:induction false} JoinThree(a: string, b: string, c: string, sep: string)
    ensures Join([a, b, c], sep) == a + sep + b + sep + c
  {
    assert [a, b, c][1..] == [b, c];
    JoinTwo(b, c, sep);
  }

  /** The first position of `d` in `s`. */
  function IndexOf(s: string, d: char): (k: nat)
    requires d in s
    ensures k < |s| && s[k] == d && d !in s[..k]
  {
    if s[0] == d then 0
    else
      var k := IndexOf(s[1..], d);
      assert s[..k + 1] == [s[0]] + s[1..][..k];
      k + 1
  }

  /** `s.split(d)` for a one-character separator `d`: the maximal pieces of `s`
      between occurrences of `d` (an empty string splits into `[""]`). */
  function Split(s: string, d: char): (parts: seq<string>)
    ensures |parts| >= 1
    ensures forall i :: 0 <= i < |parts| ==> d !in parts[i]
    decreases |s|
  {
    if d !in s then [s]
    else
      var k := IndexOf(s, d);
      [s[..k]] + Split(s[k + 1..], d)
  }

  /** Joining the pieces of a split with its separator gives the string back. */
  lemma {:induction false} JoinSplit(s: string, d: char)
    ensures Join(Split(s, d), [d]) == s
    decreases |s|
  {
    if d in s {
      var k := IndexOf(s, d);
      var rest := Split(s[k + 1..], d);
      JoinSplit(s[k + 1..], d);
      assert ([s[..k]] + rest)[1..] == rest;
      assert s == s[..k] + [d] + s[k + 1..];
    }
  }

  /** If `d` does not occur in `a`, the first `d` of `a + [d] + b` is at `|a|`. */
  lemma {:induction false} IndexOfAfter(a: string, d: char, b: string)
    requires d !in a
    ensures d in a + [d] + b && IndexOf(a + [d] + b, d) == |a|
  {
    var s := a + [d] + b;
    assert s[|a|] == d;
    assert s[..|a|] == a;
  }

  /** Splitting `a + [d] + b`, where `a` has no `d`, gives `a` and then the pieces of `b`. */
  lemma {:induction false} SplitAfter(a: string, d: char, b: string)
    requires d !in a
    ensures Split(a + [d] + b, d) == [a] + Split(b, d)
  {
    var s := a + [d] + b;
    IndexOfAfter(a, d, b);
    assert s[..|a|] == a;
    assert s[|a| + 1..] == b;
  }

  /** Splitting on a separator that occurs in none of the parts undoes a join. */
  lemma {:induction false} SplitJoin(parts: seq<string>, d: char)
    requires |parts| >= 1
    requires forall i :: 0 <= i < |parts| ==> d !in parts[i]
    ensures Split(Join(parts, [d]), d) == parts
  {
    if |parts| >= 2 {
      var rest := Join(parts[1..], [d]);
      assert Join(parts, [d]) == parts[0] + [d] + rest;
      assert d !in parts[0];
      SplitAfter(parts[0], d, rest);
      SplitJoin(parts[1..], d);
      assert parts == [parts[0]] + parts[1..];
    }
  }

  predicate IsDigit(c: char) {
    '0' <= c <= '9'
  }

  predicate AllDigits(s: string) {
    forall k :: 0 <= k < |s| ==> IsDigit(s[k])
  }

  function DigitChar(d: nat): (c: char)
    requires d < 10
    ensures IsDigit(c)
  {
    (('0' as int) + d) as char
  }

  function DigitValue(c: char): (d: nat)
    requires IsDigit(c)
    ensures d < 10 && DigitChar(d) == c
  {
    (c as int) - ('0' as int)
  }

  /** The decimal rendering of `n`, as `${n}` produces it for a count. */
  function NatToString(n: nat): (r: string)
    ensures |r| >= 1 && AllDigits(r)
    ensures |r| > 1 ==> r[0] != '0'
  {
    if n < 10 then [DigitChar(n)]
    else NatToString(n / 10) + [DigitChar(n % 10)]
  }

  /** Decimal digits are never a line break. */
  lemma {:induction false} DigitsAvoidNewline(s: string)
    requires AllDigits(s)
    ensures '\n' !in s
  {
    forall k | 0 <= k < |s|
      ensures s[k] != '\n'
    {
      assert IsDigit(s[k]);
    }
  }

  /** The value of a string of decimal digits. */
  function ParseDecimal(s: string): nat
    requires AllDigits(s)
  {
    if s == [] then 0
    else 10 * ParseDecimal(s[..|s| - 1]) + DigitValue(s[|s| - 1])
  }

  /** Reading back the decimal rendering of a count gives the count. */
  lemma {:induction false} ParseNatToString(n: nat)
    ensures ParseDecimal(NatToString(n)) == n
  {
    if n >= 10 {
      var r := NatToString(n);
      assert r[..|r| - 1] == NatToString(n / 10);
      ParseNatToString(n / 10);
    }
  }

  /** `${i}` for an integer. */
  function IntToString(i: int): (r: string)
    ensures |r| >= 1
  {
    if i < 0 then "-" + NatToString(-i) else NatToString(i)
  }
}
