/**
 * The string operations the service relies on: Python's `startswith`, `in`,
 * `strip`, `rstrip(chars)`, `lower` and `<` on `str`, JavaScript's `trim`,
 * and the decimal rendering of a count of bytes.
 */
module Text {

  /** `s.startswith(p)` in Python, `s.startsWith(p)` in JavaScript. */
  predicate StartsWith(s: string, p: string) {
    |p| <= |s| && s[..|p|] == p
  }

  lemma StartsWithAppend(a: string, b: string)
    ensures StartsWith(a + b, a)
  {
    assert (a + b)[..|a|] == a;
  }

  /** A string that starts with `a + b` starts with `a` and contains `b`. */
  lemma StartsWithSplit(s: string, a: string, b: string)
    requires StartsWith(s, a + b)
    ensures StartsWith(s, a) && Contains(s, b)
  {
    assert s[..|a|] == (a + b)[..|a|] == a;
    assert s[|a|..][..|b|] == (a + b)[|a|..] == b;
  }

  /** `t in s` for two Python strings: `t` occurs in `s` as a contiguous piece. */
  predicate Contains(s: string, t: string) {
    exists i :: 0 <= i <= |s| - |t| && StartsWith(s[i..], t)
  }

  /** `s.rfind(c)`: the index of the last occurrence of `c`, or -1. */
  function LastIndexOf(s: string, c: char): (r: int)
    ensures -1 <= r < |s|
    ensures r >= 0 ==> s[r] == c
    ensures forall j :: r < j < |s| ==> s[j] != c
  {
    if s == [] then -1
    else if s[|s| - 1] == c then |s| - 1
    else LastIndexOf(s[..|s| - 1], c)
  }

  /** Removes the longest prefix made only of characters of `cs` (Python's `lstrip`). */
  function TrimLeft(s: string, cs: set<char>): (r: string)
    ensures |r| <= |s|
  {
    if s != [] && s[0] in cs then TrimLeft(s[1..], cs) else s
  }

  /** `TrimLeft` removes a prefix of characters of `cs` and stops at the first other one. */
  lemma {:induction false} TrimLeftFacts(s: string, cs: set<char>)
    ensures var r := TrimLeft(s, cs);
      && r == s[|s| - |r|..]
      && (r == [] || r[0] !in cs)
      && forall i :: 0 <= i < |s| - |r| ==> s[i] in cs
  {
    if s != [] && s[0] in cs {
      TrimLeftFacts(s[1..], cs);
      var r := TrimLeft(s, cs);
      assert forall i :: 1 <= i < |s| ==> s[i] == s[1..][i - 1];
      assert s[1..][|s| - 1 - |r|..] == s[|s| - |r|..];
    }
  }

  /** Removes the longest suffix made only of characters of `cs` (Python's `rstrip`). */
  function TrimRight(s: string, cs: set<char>): (r: string)
    ensures |r| <= |s|
  {
    if s != [] && s[|s| - 1] in cs then TrimRight(s[..|s| - 1], cs) else s
  }

  /** `TrimRight` removes a suffix of characters of `cs` and stops at the last other one. */
  lemma {:induction false} TrimRightFacts(s: string, cs: set<char>)
    ensures var r := TrimRight(s, cs);
      && r == s[..|r|]
      && (r == [] || r[|r| - 1] !in cs)
      && forall i :: |r| <= i < |s| ==> s[i] in cs
  {
    if s != [] && s[|s| - 1] in cs {
      TrimRightFacts(s[..|s| - 1], cs);
      var r := TrimRight(s, cs);
      assert s[..|s| - 1][..|r|] == s[..|r|];
    }
  }

  /** Removes characters of `cs` from both ends. */
  function Strip(s: string, cs: set<char>): string {
    TrimRight(TrimLeft(s, cs), cs)
  }

  /** The characters for which Python's `str.isspace()` holds: what `str.strip()` removes. */
  const PyWhitespace: set<char> := {
    '\t', '\n', '\U{B}', '\U{C}', '\r', '\U{1C}', '\U{1D}', '\U{1E}', '\U{1F}', ' ',
    '\U{85}', '\U{A0}', '\U{1680}',
    '\U{2000}', '\U{2001}', '\U{2002}', '\U{2003}', '\U{2004}', '\U{2005}',
    '\U{2006}', '\U{2007}', '\U{2008}', '\U{2009}', '\U{200A}',
    '\U{2028}', '\U{2029}', '\U{202F}', '\U{205F}', '\U{3000}'
  }

  /**
   * ECMAScript WhiteSpace and LineTerminator code points: what `String.prototype.trim`
   * removes. It differs from Python's set (U+FEFF is in, U+001C-U+001F and U+0085 are out).
   */
  const JsWhitespace: set<char> := {
    '\t', '\n', '\U{B}', '\U{C}', '\r', ' ', '\U{A0}', '\U{1680}',
    '\U{2000}', '\U{2001}', '\U{2002}', '\U{2003}', '\U{2004}', '\U{2005}',
    '\U{2006}', '\U{2007}', '\U{2008}', '\U{2009}', '\U{200A}',
    '\U{2028}', '\U{2029}', '\U{202F}', '\U{205F}', '\U{3000}', '\U{FEFF}'
  }

  /** Python's `s.strip()`. */
  function PyStrip(s: string): string {
    Strip(s, PyWhitespace)
  }

  /** JavaScript's `s.trim()`. */
  function JsTrim(s: string): string {
    Strip(s, JsWhitespace)
  }

  /** What `Strip` leaves is a piece of `s` that neither starts nor ends with a character of `cs`. */
  lemma StripEnds(s: string, cs: set<char>)
    ensures var r := Strip(s, cs);
      Contains(s, r) && (r == [] || (r[0] !in cs && r[|r| - 1] !in cs))
  {
    var l := TrimLeft(s, cs);
    var r := TrimRight(l, cs);
    TrimLeftFacts(s, cs);
    TrimRightFacts(l, cs);
    var k := |s| - |l|;
    assert l == s[k..];
    assert r == l[..|r|];
    assert 0 <= k <= |s| - |r| && StartsWith(s[k..], r);
    if r != [] {
      assert r[0] == l[0];
    }
  }

  /** Stripping twice is stripping once. */
  lemma {:induction false} StripIdempotent(s: string, cs: set<char>)
    ensures Strip(Strip(s, cs), cs) == Strip(s, cs)
  {
    StripEnds(s, cs);
    var r := Strip(s, cs);
    assert TrimLeft(r, cs) == r;
    assert TrimRight(r, cs) == r;
  }

  /** Padding made of stripped characters on either side does not change what `Strip` yields. */
  lemma {:induction false} StripIgnoresPadding(pre: string, s: string, post: string, cs: set<char>)
    requires forall i :: 0 <= i < |pre| ==> pre[i] in cs
    requires forall i :: 0 <= i < |post| ==> post[i] in cs
    ensures Strip(pre + s + post, cs) == Strip(s, cs)
  {
    assert pre + s + post == pre + (s + post);
    TrimLeftPadding(pre, s + post, cs);
    TrimLeftAppend(s, post, cs);
    if TrimLeft(s, cs) == [] {
      TrimLeftPadding(post, [], cs);
      assert post + [] == post;
    } else {
      TrimRightPadding(TrimLeft(s, cs), post, cs);
    }
  }

  lemma {:induction false} TrimLeftPadding(pre: string, s: string, cs: set<char>)
    requires forall i :: 0 <= i < |pre| ==> pre[i] in cs
    ensures TrimLeft(pre + s, cs) == TrimLeft(s, cs)
  {
    if pre != [] {
      var w := pre + s;
      assert w[0] == pre[0] && w[1..] == pre[1..] + s;
      TrimLeftPadding(pre[1..], s, cs);
    } else {
      assert pre + s == s;
    }
  }

  lemma {:induction false} TrimRightPadding(s: string, post: string, cs: set<char>)
    requires forall i :: 0 <= i < |post| ==> post[i] in cs
    ensures TrimRight(s + post, cs) == TrimRight(s, cs)
  {
    if post != [] {
      var w := s + post;
      assert w[|w| - 1] == post[|post| - 1];
      assert w[..|w| - 1] == s + post[..|post| - 1];
      TrimRightPadding(s, post[..|post| - 1], cs);
    } else {
      assert s + post == s;
    }
  }

  /** Trimming the left of `s + t` trims into `t` only once all of `s` is gone. */
  lemma {:induction false} TrimLeftAppend(s: string, t: string, cs: set<char>)
    ensures TrimLeft(s + t, cs) == if TrimLeft(s, cs) == [] then TrimLeft(t, cs) else TrimLeft(s, cs) + t
  {
    if s == [] {
      assert s + t == t;
    } else {
      var w := s + t;
      assert w[0] == s[0] && w[1..] == s[1..] + t;
      TrimLeftAppend(s[1..], t, cs);
    }
  }

  /** Lower-cases the ASCII letters and leaves every other character as it is. */
  function AsciiLower(s: string): (r: string)
    ensures |r| == |s|
    ensures forall i :: 0 <= i < |s| ==> r[i] == LowerChar(s[i])
  {
    seq(|s|, i requires 0 <= i < |s| => LowerChar(s[i]))
  }

  function LowerChar(c: char): char {
    if 'A' <= c <= 'Z' then (c as int + 32) as char else c
  }

  /** The piece of `s` at index `i` lower-cases to `t`. */
  ghost predicate LowerMatchAt(s: string, t: string, i: int) {
    0 <= i <= |s| - |t| && AsciiLower(s[i..i + |t|]) == t
  }

  /** Some piece of `s` lower-cases to `t`. */
  ghost predicate ContainsIgnoringCase(s: string, t: string) {
    exists i :: LowerMatchAt(s, t, i)
  }

  /** Lower-casing commutes with taking a slice. */
  lemma AsciiLowerSlice(s: string, i: int, j: int)
    requires 0 <= i <= j <= |s|
    ensures AsciiLower(s)[i..j] == AsciiLower(s[i..j])
  {
    assert forall k :: 0 <= k < j - i ==> AsciiLower(s)[i..j][k] == LowerChar(s[i..j][k]);
  }

  /** `t in s.lower()` holds exactly when some piece of `s` lower-cases to `t`. */
  lemma LowerContains(s: string, t: string)
    ensures Contains(AsciiLower(s), t) <==> ContainsIgnoringCase(s, t)
  {
    var l := AsciiLower(s);
    if Contains(l, t) {
      var i :| 0 <= i <= |l| - |t| && StartsWith(l[i..], t);
      AsciiLowerSlice(s, i, i + |t|);
      assert l[i..][..|t|] == l[i..i + |t|];
      assert LowerMatchAt(s, t, i);
    }
    if ContainsIgnoringCase(s, t) {
      var i :| LowerMatchAt(s, t, i);
      AsciiLowerSlice(s, i, i + |t|);
      assert l[i..][..|t|] == l[i..i + |t|];
      assert StartsWith(l[i..], t);
    }
  }

  /** A word that lower-cases to `t`, anywhere in a message, is found by the case-blind test. */
  lemma ContainsIgnoringCaseInfix(pre: string, w: string, post: string, t: string)
    requires AsciiLower(w) == t
    ensures ContainsIgnoringCase(pre + w + post, t)
  {
    var s := pre + w + post;
    assert s[|pre|..|pre| + |w|] == w;
    assert LowerMatchAt(s, t, |pre|);
  }

  /** Python's `a <= b` on `str`: lexicographic order of code points. */
  predicate LexLe(a: string, b: string) {
    a == [] || (b != [] && (a[0] < b[0] || (a[0] == b[0] && LexLe(a[1..], b[1..]))))
  }

  lemma {:induction false} LexLeReflexive(a: string)
    ensures LexLe(a, a)
  {
    if a != [] {
      LexLeReflexive(a[1..]);
    }
  }

  lemma {:induction false} LexLeTotal(a: string, b: string)
    ensures LexLe(a, b) || LexLe(b, a)
  {
    if a != [] && b != [] && a[0] == b[0] {
      LexLeTotal(a[1..], b[1..]);
    }
  }

  lemma {:induction false} LexLeTransitive(a: string, b: string, c: string)
    requires LexLe(a, b) && LexLe(b, c)
    ensures LexLe(a, c)
  {
    if a != [] && a[0] == b[0] && b[0] == c[0] {
      LexLeTransitive(a[1..], b[1..], c[1..]);
    }
  }

  lemma {:induction false} LexLeAntisymmetric(a: string, b: string)
    requires LexLe(a, b) && LexLe(b, a)
    ensures a == b
  {
    if a != [] && b != [] {
      LexLeAntisymmetric(a[1..], b[1..]);
    }
  }

  /** A common prefix does not decide the order. */
  lemma {:induction false} LexLeCommonPrefix(p: string, a: string, b: string)
    ensures LexLe(p + a, p + b) == LexLe(a, b)
  {
    if p != [] {
      assert (p + a)[0] == p[0] == (p + b)[0];
      assert (p + a)[1..] == p[1..] + a;
      assert (p + b)[1..] == p[1..] + b;
      LexLeCommonPrefix(p[1..], a, b);
    } else {
      assert p + a == a && p + b == b;
    }
  }

  /** The decimal digits of `n`, as JavaScript renders an integer number. */
  function Decimal(n: nat): (r: string)
    ensures r != []
    ensures forall i :: 0 <= i < |r| ==> '0' <= r[i] <= '9'
    ensures n > 0 ==> r[0] != '0'
  {
    if n < 10 then [Digit(n)] else Decimal(n / 10) + [Digit(n % 10)]
  }

  function Digit(d: nat): (c: char)
    requires d < 10
  {
    ('0' as int + d) as char
  }

  /** Reads back a string of decimal digits. */
  function DecimalValue(s: string): nat
    requires forall i :: 0 <= i < |s| ==> '0' <= s[i] <= '9'
  {
    if s == [] then 0 else 10 * DecimalValue(s[..|s| - 1]) + (s[|s| - 1] as int - '0' as int)
  }

  /** Rendering a count and reading it back gives the count. */
  lemma {:induction false} DecimalRoundTrip(n: nat)
    ensures DecimalValue(Decimal(n)) == n
  {
    if n >= 10 {
      DecimalRoundTrip(n / 10);
      var r := Decimal(n);
      assert r[..|r| - 1] == Decimal(n / 10);
    }
  }
}
