/** The Python string primitives the two front ends are built from: `str.strip`,
    substring search (`m in s`), `str.split(m)[0]` and `[1]`, `startswith`, slicing
    previews, `str.replace` of one character, `str.title` and `str()` of an int. */
module Text {
  import opened Options

  // ---------------------------------------------------------------------------
  // Whitespace and str.strip()
  // ---------------------------------------------------------------------------

  /** Python's `str.isspace()` for one character. */
  predicate IsSpace(c: char) {
    || ('\U{9}' <= c <= '\U{D}')
    || ('\U{1C}' <= c <= ' ')
    || c == '\U{85}' || c == '\U{A0}' || c == '\U{1680}'
    || ('\U{2000}' <= c <= '\U{200A}')
    || c == '\U{2028}' || c == '\U{2029}' || c == '\U{202F}'
    || c == '\U{205F}' || c == '\U{3000}'
  }

  predicate AllSpace(s: string) {
    forall k :: 0 <= k < |s| ==> IsSpace(s[k])
  }

  /** `s.lstrip()`: the longest suffix of `s` that does not start with whitespace. */
  function TrimLeft(s: string): (r: string)
    ensures |r| <= |s| && r == s[|s| - |r|..]
    ensures AllSpace(s[..|s| - |r|])
    ensures r == [] || !IsSpace(r[0])
  {
    if s != [] && IsSpace(s[0]) then
      var r := TrimLeft(s[1..]);
      assert s[..|s| - |r|] == [s[0]] + s[1..][..|s[1..]| - |r|];
      r
    else s
  }

  /** `s.rstrip()`: the longest prefix of `s` that does not end with whitespace. */
  function TrimRight(s: string): (r: string)
    ensures |r| <= |s| && r == s[..|r|]
    ensures AllSpace(s[|r|..])
    ensures r == [] || !IsSpace(r[|r| - 1])
  {
    if s != [] && IsSpace(s[|s| - 1]) then
      var r := TrimRight(s[..|s| - 1]);
      assert s[|r|..] == s[..|s| - 1][|r|..] + [s[|s| - 1]];
      r
    else s
  }

  /** `s.strip()`: neither end of the result is whitespace. */
  function Strip(s: string): (r: string)
    ensures |r| <= |s|
    ensures r == [] || (!IsSpace(r[0]) && !IsSpace(r[|r| - 1]))
  {
    TrimRight(TrimLeft(s))
  }

  /** What `strip` removes is whitespace at both ends, and what it keeps is
      one contiguous slice of `s`, starting at `lo`. */
  lemma StripSlice(s: string) returns (lo: nat)
    ensures lo + |Strip(s)| <= |s| && Strip(s) == s[lo..lo + |Strip(s)|]
    ensures AllSpace(s[..lo]) && AllSpace(s[lo + |Strip(s)|..])
  {
    hide TrimLeft, TrimRight;
    var t := TrimLeft(s);
    var r := TrimRight(t);
    lo := |s| - |t|;
    assert r == t[..|r|];
    assert s[lo + |r|..] == t[|r|..];
  }

  /** Stripping cannot create an occurrence of `m`. */
  lemma StripKeepsAbsence(s: string, m: string)
    requires !Contains(s, m)
    ensures !Contains(Strip(s), m)
  {
    var lo := StripSlice(s);
    NotContainsSlice(s, m, lo, lo + |Strip(s)|);
  }

  /** `not s.strip()`: the question-is-blank test. */
  predicate IsBlank(s: string) {
    Strip(s) == []
  }

  /** A string strips to nothing exactly when every character is whitespace. */
  lemma BlankIffAllSpace(s: string)
    ensures IsBlank(s) <==> AllSpace(s)
  {
    var lo := StripSlice(s);
    if IsBlank(s) {
      assert s == s[..lo] + s[lo..];
      forall k | 0 <= k < |s| ensures IsSpace(s[k]) {
        if k < lo { assert s[..lo][k] == s[k]; } else { assert s[lo..][k - lo] == s[k]; }
      }
    } else {
      var r := Strip(s);
      assert s[lo] == r[0];
    }
  }

  // ---------------------------------------------------------------------------
  // Substring search and str.split
  // ---------------------------------------------------------------------------

  /** `m` occurs in `s` starting at index `i`. */
  predicate OccursAt(s: string, m: string, i: int) {
    0 <= i && i + |m| <= |s| && s[i..i + |m|] == m
  }

  /** Python's `m in s`. */
  predicate Contains(s: string, m: string) {
    exists i | 0 <= i <= |s| :: OccursAt(s, m, i)
  }

  /** `s.find(m, i)`, as an option: the first occurrence of `m` at or after `i`. */
  function FindFrom(s: string, m: string, i: nat): (r: Option<nat>)
    requires i <= |s|
    ensures r.Some? ==> i <= r.value && OccursAt(s, m, r.value)
    ensures forall j :: i <= j && (r.None? || j < r.value) ==> !OccursAt(s, m, j)
    decreases |s| - i
  {
    if i + |m| > |s| then None
    else if s[i..i + |m|] == m then Some(i)
    else FindFrom(s, m, i + 1)
  }

  /** The first occurrence of `m` in `s`, present exactly when `m in s`. */
  function FindFirst(s: string, m: string): (r: Option<nat>)
    ensures r.Some? <==> Contains(s, m)
    ensures r.Some? ==> OccursAt(s, m, r.value)
    ensures forall j :: 0 <= j && (r.None? || j < r.value) ==> !OccursAt(s, m, j)
  {
    FindFrom(s, m, 0)
  }

  /** An occurrence inside a slice is an occurrence in the whole string. */
  lemma OccursInSlice(s: string, m: string, lo: nat, hi: nat, j: int)
    requires lo <= hi <= |s| && OccursAt(s[lo..hi], m, j)
    ensures OccursAt(s, m, lo + j)
  {
    var t := s[lo..hi];
    assert t[j..j + |m|] == m;
    assert forall k :: 0 <= k < |m| ==> s[lo + j..lo + j + |m|][k] == m[k];
  }

  /** A slice of a string that does not contain `m` does not contain it either. */
  lemma NotContainsSlice(s: string, m: string, lo: nat, hi: nat)
    requires lo <= hi <= |s| && !Contains(s, m)
    ensures !Contains(s[lo..hi], m)
  {
    if Contains(s[lo..hi], m) {
      var j :| 0 <= j <= |s[lo..hi]| && OccursAt(s[lo..hi], m, j);
      OccursInSlice(s, m, lo, hi, j);
      assert false;
    }
  }

  /** A prefix that no occurrence of `m` starts in does not contain `m`. */
  lemma NoOccurrenceInPrefix(s: string, m: string, n: nat)
    requires n <= |s|
    requires forall j :: 0 <= j < n ==> !OccursAt(s, m, j)
    requires m != []
    ensures !Contains(s[..n], m)
  {
    if Contains(s[..n], m) {
      var j :| 0 <= j <= n && OccursAt(s[..n], m, j);
      OccursInSlice(s, m, 0, n, j);
      assert false;
    }
  }

  /** A position `b` at or after `i` that ends the text or starts an occurrence
      of `m`, with no occurrence from `i` up to it, is what `s.find(m, i)`
      reports (the end of `s` standing for "not found"). */
  lemma FindFromAt(s: string, m: string, i: nat, b: nat)
    requires m != [] && i <= b <= |s|
    requires forall j :: i <= j < b ==> !OccursAt(s, m, j)
    requires b == |s| || OccursAt(s, m, b)
    ensures (var e := FindFrom(s, m, i); if e.Some? then e.value else |s|) == b
  {
  }

  /** The same for `s.find(m)`. */
  lemma FindFirstAt(s: string, m: string, b: nat)
    requires m != [] && b <= |s|
    requires forall j :: 0 <= j < b ==> !OccursAt(s, m, j)
    requires b == |s| || OccursAt(s, m, b)
    ensures (var e := FindFirst(s, m); if e.Some? then e.value else |s|) == b
  {
    FindFromAt(s, m, 0, b);
  }

  /** `s.split(m)[0]`: everything before the first occurrence of `m`, or all of
      `s` when `m` does not occur. */
  function Before(s: string, m: string): (r: string)
    requires m != []
    ensures |r| <= |s| && r == s[..|r|]
    ensures forall j :: 0 <= j < |r| ==> !OccursAt(s, m, j)
    ensures |r| == |s| || OccursAt(s, m, |r|)
    ensures !Contains(r, m)
  {
    var r := match FindFirst(s, m) case None => s case Some(i) => s[..i];
    NoOccurrenceInPrefix(s, m, |r|);
    r
  }

  /** The text after the first occurrence of `m` (the start of `s.split(m)[1]`). */
  function After(s: string, m: string): (r: string)
    requires Contains(s, m)
    ensures |r| + |m| <= |s| && r == s[|s| - |r|..]
    ensures OccursAt(s, m, |s| - |r| - |m|)
    ensures forall j :: 0 <= j < |s| - |r| - |m| ==> !OccursAt(s, m, j)
  {
    var i := FindFirst(s, m).value;
    s[i + |m|..]
  }

  /** `s.startswith(p)`. */
  predicate StartsWith(s: string, p: string) {
    |p| <= |s| && s[..|p|] == p
  }

  /** `s.endswith(p)`. */
  predicate EndsWith(s: string, p: string) {
    |p| <= |s| && s[|s| - |p|..] == p
  }

  lemma StartsWithAppend(a: string, b: string)
    ensures StartsWith(a + b, a)
  {
    assert (a + b)[..|a|] == a;
  }

  lemma StartsWithTrans(s: string, t: string, u: string)
    requires StartsWith(s, t) && StartsWith(t, u)
    ensures StartsWith(s, u)
  {
    assert s[..|u|] == s[..|t|][..|u|];
  }

  lemma EndsWithAppend(a: string, b: string)
    ensures EndsWith(a + b, b)
  {
    assert (a + b)[|a + b| - |b|..] == b;
  }

  /** Regrouping a concatenation of three texts. */
  lemma Assoc(a: string, b: string, c: string)
    ensures a + b + c == a + (b + c)
  {
  }

  /** Text appended piece by piece is the text followed by the pieces joined. */
  lemma AppendPieces(a: string, b: string, c: string, d: string, e: string, f: string)
    ensures a + b + c + d + e + f == a + (b + c + d + e + f)
  {
    Assoc(a, b, c);
    Assoc(a, b + c, d);
    Assoc(a, b + c + d, e);
    Assoc(a, b + c + d + e, f);
  }

  /** `x` occurs in `a + x + b` right after `a`. */
  lemma OccursInConcat(a: string, x: string, b: string)
    ensures OccursAt(a + x + b, x, |a|)
  {
    assert (a + x + b)[|a|..|a| + |x|] == x;
  }

  /** An occurrence survives appending text after it. */
  lemma OccursExtend(s: string, t: string, m: string, p: int)
    requires OccursAt(s, m, p)
    ensures OccursAt(s + t, m, p)
  {
    assert (s + t)[p..p + |m|] == s[p..p + |m|];
  }

  /** An occurrence moves right by the length of text put before it. */
  lemma OccursPrepend(a: string, s: string, m: string, p: int)
    requires OccursAt(s, m, p)
    ensures OccursAt(a + s, m, |a| + p)
  {
    assert (a + s)[|a| + p..|a| + p + |m|] == s[p..p + |m|];
  }

  /** An occurrence inside the body `e` of a titled part `t + e` of a text made
      of four parts. */
  lemma OccursInPart(a: string, t: string, e: string, c: string, d: string, m: string, q: int)
    requires OccursAt(e, m, q)
    ensures OccursAt(a + (t + e) + c + d, m, |a| + |t| + q)
  {
    OccursPrepend(t, e, m, q);
    OccursPrepend(a, t + e, m, |t| + q);
    OccursExtend(a + (t + e), c, m, |a| + |t| + q);
    OccursExtend(a + (t + e) + c, d, m, |a| + |t| + q);
  }

  lemma ContainsExtend(s: string, t: string, m: string)
    requires Contains(s, m)
    ensures Contains(s + t, m)
  {
    var j :| 0 <= j <= |s| && OccursAt(s, m, j);
    OccursExtend(s, t, m, j);
  }

  lemma ContainsSuffix(s: string, m: string)
    ensures Contains(s + m, m)
  {
    OccursInConcat(s, m, []);
    assert s + m + [] == s + m;
  }

  /** Each of the four inner pieces `a`, `b`, `c`, `d` of a text assembled
      from ten pieces occurs in it, and the text ends with the last piece. */
  lemma InnerPiecesOccur(p0: string, a: string, p1: string, b: string, p2: string,
                    c: string, p3: string, d: string, p4: string, t: string)
    ensures Contains(p0 + a + p1 + b + p2 + c + p3 + d + p4 + t, a)
    ensures Contains(p0 + a + p1 + b + p2 + c + p3 + d + p4 + t, b)
    ensures Contains(p0 + a + p1 + b + p2 + c + p3 + d + p4 + t, c)
    ensures Contains(p0 + a + p1 + b + p2 + c + p3 + d + p4 + t, d)
    ensures EndsWith(p0 + a + p1 + b + p2 + c + p3 + d + p4 + t, t)
  {
    var s1 := p0 + a;
    var s2 := s1 + p1 + b;
    var s3 := s2 + p2 + c;
    var s4 := s3 + p3 + d;
    var s5 := s4 + p4;
    ContainsSuffix(p0, a);
    ContainsExtend(s1, p1, a); ContainsExtend(s1 + p1, b, a);
    ContainsSuffix(s1 + p1, b);
    ContainsExtend(s2, p2, a); ContainsExtend(s2 + p2, c, a);
    ContainsExtend(s2, p2, b); ContainsExtend(s2 + p2, c, b);
    ContainsSuffix(s2 + p2, c);
    ContainsExtend(s3, p3, a); ContainsExtend(s3 + p3, d, a);
    ContainsExtend(s3, p3, b); ContainsExtend(s3 + p3, d, b);
    ContainsExtend(s3, p3, c); ContainsExtend(s3 + p3, d, c);
    ContainsSuffix(s3 + p3, d);
    ContainsExtend(s4, p4, a); ContainsExtend(s5, t, a);
    ContainsExtend(s4, p4, b); ContainsExtend(s5, t, b);
    ContainsExtend(s4, p4, c); ContainsExtend(s5, t, c);
    ContainsExtend(s4, p4, d); ContainsExtend(s5, t, d);
    EndsWithAppend(s5, t);
  }

  /** `s[:n]`: at most the first `n` characters. */
  function Take(s: string, n: nat): (r: string)
    ensures |r| == if |s| < n then |s| else n
    ensures r == s[..|r|]
  {
    if |s| <= n then s else s[..n]
  }

  // ---------------------------------------------------------------------------
  // str() of an int
  // ---------------------------------------------------------------------------

  predicate IsDigit(c: char) {
    '0' <= c <= '9'
  }

  predicate AllDigits(s: string) {
    forall k :: 0 <= k < |s| ==> IsDigit(s[k])
  }

  function DigitChar(d: nat): (c: char)
    requires d < 10
    ensures IsDigit(c) && c as int - '0' as int == d
  {
    (48 + d) as char
  }

  /** The decimal digits of `n`, most significant first, without leading zeros. */
  function NatToString(n: nat): (r: string)
    ensures |r| >= 1 && AllDigits(r)
    ensures r[0] == '0' ==> n == 0 && r == "0"
    decreases n
  {
    if n < 10 then [DigitChar(n)] else NatToString(n / 10) + [DigitChar(n % 10)]
  }

  /** The value of a string of decimal digits. */
  function ParseDigits(s: string): nat
    requires AllDigits(s)
  {
    if s == [] then 0 else ParseDigits(s[..|s| - 1]) * 10 + (s[|s| - 1] as int - '0' as int)
  }

  lemma {:induction false} NatToStringRoundTrip(n: nat)
    ensures ParseDigits(NatToString(n)) == n
    decreases n
  {
    if n >= 10 {
      NatToStringRoundTrip(n / 10);
      var r := NatToString(n);
      assert r[..|r| - 1] == NatToString(n / 10);
    }
  }

  /** Python's `str(i)` for an int, as every f-string `{count}` renders it. */
  function IntToString(i: int): (r: string)
    ensures r != [] && (r[0] == '-' <==> i < 0)
  {
    if i < 0 then "-" + NatToString(-i) else NatToString(i)
  }

  /** Reads back what `IntToString` writes; `None` for anything else. */
  function ParseInt(s: string): Option<int> {
    if |s| >= 2 && s[0] == '-' && AllDigits(s[1..]) then
      var v: int := 0 - ParseDigits(s[1..]) as int; Some(v)
    else if s != [] && AllDigits(s) then Some(ParseDigits(s))
    else None
  }

  /** Rendering a count loses nothing: distinct counts render differently. */
  lemma IntToStringRoundTrip(i: int)
    ensures ParseInt(IntToString(i)) == Some(i)
  {
    if i < 0 {
      NatToStringRoundTrip(-i);
      assert IntToString(i)[1..] == NatToString(-i);
    } else {
      NatToStringRoundTrip(i);
    }
  }

  // ---------------------------------------------------------------------------
  // Indicator labels: name.replace('_', ' ').title()
  // ---------------------------------------------------------------------------

  /** `s.replace(a, b)` for single characters. */
  function ReplaceChar(s: string, a: char, b: char): (r: string)
    ensures |r| == |s|
    ensures forall k :: 0 <= k < |s| ==> r[k] == if s[k] == a then b else s[k]
  {
    seq(|s|, k requires 0 <= k < |s| => if s[k] == a then b else s[k])
  }

  predicate IsAsciiLetter(c: char) {
    'a' <= c <= 'z' || 'A' <= c <= 'Z'
  }

  function ToUpper(c: char): char {
    if 'a' <= c <= 'z' then (c as int - 32) as char else c
  }

  function ToLower(c: char): char {
    if 'A' <= c <= 'Z' then (c as int + 32) as char else c
  }

  /** `str.title()` from a position whose predecessor is (or is not) cased:
      a letter after a letter is lowered, any other letter is raised. */
  function TitleFrom(s: string, afterCased: bool): (r: string)
    ensures |r| == |s|
  {
    if s == [] then []
    else
      var c := s[0];
      [if !IsAsciiLetter(c) then c else if afterCased then ToLower(c) else ToUpper(c)]
        + TitleFrom(s[1..], IsAsciiLetter(c))
  }

  /** Python's `str.title()`, for ASCII letters. */
  function Title(s: string): (r: string)
    ensures |r| == |s|
  {
    TitleFrom(s, false)
  }
}
