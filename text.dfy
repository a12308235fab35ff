/**
 * String helpers shared by the front end (JavaScript semantics) and the
 * back end (Python semantics).  Strings are sequences of Unicode code points.
 */
module Text {

  // ---------------------------------------------------------------------
  // Character classes
  // ---------------------------------------------------------------------

  /** ECMAScript WhiteSpace and LineTerminator: what `\s` matches and what `trim()` removes. */
  predicate IsJsSpace(c: char)
  {
    c == '\t' || c == '\n' || c == '\U{B}' || c == '\U{C}' || c == '\r' || c == ' '
    || c == '\U{A0}' || c == '\U{1680}' || ('\U{2000}' <= c <= '\U{200A}')
    || c == '\U{2028}' || c == '\U{2029}' || c == '\U{202F}' || c == '\U{205F}'
    || c == '\U{3000}' || c == '\U{FEFF}'
  }

  /** ECMAScript LineTerminator: the characters a regular-expression `.` does not match. */
  predicate IsLineTerminator(c: char)
  {
    c == '\n' || c == '\r' || c == '\U{2028}' || c == '\U{2029}'
  }

  /** Python `str.isspace()`: what `str.strip()` removes. */
  predicate IsPySpace(c: char)
  {
    c == ' ' || c == '\t' || c == '\n' || c == '\U{B}' || c == '\U{C}' || c == '\r'
    || ('\U{1C}' <= c <= '\U{1F}') || c == '\U{85}' || c == '\U{A0}' || c == '\U{1680}'
    || ('\U{2000}' <= c <= '\U{200A}') || c == '\U{2028}' || c == '\U{2029}'
    || c == '\U{202F}' || c == '\U{205F}' || c == '\U{3000}'
  }

  predicate IsAsciiDigit(c: char) { '0' <= c <= '9' }

  /** Python's `\w` restricted to ASCII: letters, digits and underscore. */
  predicate IsWordChar(c: char)
  {
    ('a' <= c <= 'z') || ('A' <= c <= 'Z') || IsAsciiDigit(c) || c == '_'
  }

  predicate AllChars(s: string, p: char -> bool)
  {
    forall i :: 0 <= i < |s| ==> p(s[i])
  }

  /** The end of the line holding position `i`: the next line terminator, or the end. */
  function LineEnd(s: string, i: nat): (e: nat)
    requires i <= |s|
    ensures i <= e <= |s| && (forall k :: i <= k < e ==> !IsLineTerminator(s[k]))
    ensures e < |s| ==> IsLineTerminator(s[e])
    decreases |s| - i
  {
    if i < |s| && !IsLineTerminator(s[i]) then LineEnd(s, i + 1) else i
  }

  // ---------------------------------------------------------------------
  // Trimming
  // ---------------------------------------------------------------------

  /** Drops the longest prefix of characters satisfying `ws`. */
  function TrimLeft(s: string, ws: char -> bool): (r: string)
    ensures |r| <= |s|
    decreases |s|
  {
    if s != [] && ws(s[0]) then TrimLeft(s[1..], ws) else s
  }

  /** What TrimLeft keeps is a suffix, what it drops is spaces, and it stops at a non-space. */
  lemma {:induction false} TrimLeftSpec(s: string, ws: char -> bool)
    ensures var r := TrimLeft(s, ws);
            r == s[|s| - |r|..] && AllChars(s[..|s| - |r|], ws) && (r != [] ==> !ws(r[0]))
    decreases |s|
  {
    if s != [] && ws(s[0]) {
      TrimLeftSpec(s[1..], ws);
      var r := TrimLeft(s[1..], ws);
      assert s[1..][..|s[1..]| - |r|] == s[1..|s| - |r|];
    }
  }

  /** Drops the longest suffix of characters satisfying `ws`. */
  function TrimRight(s: string, ws: char -> bool): (r: string)
    ensures |r| <= |s|
    decreases |s|
  {
    if s != [] && ws(s[|s| - 1]) then TrimRight(s[..|s| - 1], ws) else s
  }

  /** What TrimRight keeps is a prefix, what it drops is spaces, and it stops at a non-space. */
  lemma {:induction false} TrimRightSpec(s: string, ws: char -> bool)
    ensures var r := TrimRight(s, ws);
            r == s[..|r|] && AllChars(s[|r|..], ws) && (r != [] ==> !ws(r[|r| - 1]))
    decreases |s|
  {
    if s != [] && ws(s[|s| - 1]) {
      TrimRightSpec(s[..|s| - 1], ws);
      var r := TrimRight(s[..|s| - 1], ws);
      assert s[..|s| - 1][|r|..] == s[|r|..|s| - 1];
    }
  }

  function Trim(s: string, ws: char -> bool): string
  {
    TrimRight(TrimLeft(s, ws), ws)
  }

  /** JavaScript `String.prototype.trim`. */
  function JsTrim(s: string): string { Trim(s, IsJsSpace) }

  /** Python `str.strip()` with no argument. */
  function PyStrip(s: string): string { Trim(s, IsPySpace) }

  /** What a trim keeps is a contiguous piece of the input. */
  lemma TrimIsInfix(s: string, ws: char -> bool)
    ensures OccursAt(s, Trim(s, ws), |s| - |TrimLeft(s, ws)|)
  {
    var l := TrimLeft(s, ws);
    TrimLeftSpec(s, ws);
    TrimRightSpec(l, ws);
    SliceOfSuffix(s, |s| - |l|, TrimRight(l, ws));
  }

  lemma SliceOfSuffix(s: string, i: nat, r: string)
    requires i <= |s| && r <= s[i..]
    ensures OccursAt(s, r, i)
  {
    assert s[i..i + |r|] == s[i..][..|r|];
  }

  /** Neither end of a trimmed string is a space. */
  lemma TrimEnds(s: string, ws: char -> bool)
    ensures Trim(s, ws) != [] ==> !ws(Trim(s, ws)[0]) && !ws(Trim(s, ws)[|Trim(s, ws)| - 1])
  {
    var l := TrimLeft(s, ws);
    var r := TrimRight(l, ws);
    TrimLeftSpec(s, ws);
    TrimRightSpec(l, ws);
    if r != [] {
      assert r[0] == l[0];
    }
  }

  /** A trim yields the empty string exactly when every character is a space. */
  lemma TrimEmptyIff(s: string, ws: char -> bool)
    ensures Trim(s, ws) == [] <==> AllChars(s, ws)
  {
    var l := TrimLeft(s, ws);
    TrimLeftSpec(s, ws);
    TrimRightSpec(l, ws);
    if Trim(s, ws) == [] {
      assert AllChars(l, ws);
      assert l == [];
      forall i | 0 <= i < |s| ensures ws(s[i]) {
        assert s[..|s| - |l|][i] == s[i];
      }
    }
  }

  /** Leading spaces do not change the result of a trim. */
  lemma TrimLeftSkipsSpaces(a: string, b: string, ws: char -> bool)
    requires AllChars(a, ws)
    ensures TrimLeft(a + b, ws) == TrimLeft(b, ws)
    decreases |a|
  {
    if a != [] {
      assert (a + b)[1..] == a[1..] + b;
      TrimLeftSkipsSpaces(a[1..], b, ws);
    } else {
      assert a + b == b;
    }
  }

  /** A trim never removes a non-space character, so a non-space-ended head survives. */
  lemma TrimRightKeepsHead(a: string, b: string, ws: char -> bool)
    requires a != [] && !ws(a[|a| - 1])
    ensures a <= TrimRight(a + b, ws)
    decreases |b|
  {
    if b != [] && ws(b[|b| - 1]) {
      assert (a + b)[..|a + b| - 1] == a + b[..|b| - 1];
      TrimRightKeepsHead(a, b[..|b| - 1], ws);
    }
  }

  /** Trimming is idempotent. */
  lemma TrimIdempotent(s: string, ws: char -> bool)
    ensures Trim(Trim(s, ws), ws) == Trim(s, ws)
  {
    var r := Trim(s, ws);
    TrimEnds(s, ws);
    if r != [] {
      assert TrimLeft(r, ws) == r;
      assert TrimRight(r, ws) == r;
    }
  }

  // ---------------------------------------------------------------------
  // ASCII case mapping (the model's stand-in for toLowerCase/lower/upper)
  // ---------------------------------------------------------------------

  function LowerChar(c: char): char
  {
    if 'A' <= c <= 'Z' then (c as int + 32) as char else c
  }

  function UpperChar(c: char): char
  {
    if 'a' <= c <= 'z' then (c as int - 32) as char else c
  }

  function Lower(s: string): (r: string)
    ensures |r| == |s| && forall i :: 0 <= i < |s| ==> r[i] == LowerChar(s[i])
  {
    if s == [] then [] else [LowerChar(s[0])] + Lower(s[1..])
  }

  function Upper(s: string): (r: string)
    ensures |r| == |s| && forall i :: 0 <= i < |s| ==> r[i] == UpperChar(s[i])
  {
    if s == [] then [] else [UpperChar(s[0])] + Upper(s[1..])
  }

  /** Lower-casing gives `l` when it does so character by character. */
  lemma LowerIs(s: string, l: string)
    requires |s| == |l| && forall i :: 0 <= i < |s| ==> LowerChar(s[i]) == l[i]
    ensures Lower(s) == l
  {
  }

  /** Upper-casing gives `u` when it does so character by character. */
  lemma UpperIs(s: string, u: string)
    requires |s| == |u| && forall i :: 0 <= i < |s| ==> UpperChar(s[i]) == u[i]
    ensures Upper(s) == u
  {
  }

  // ---------------------------------------------------------------------
  // Searching
  // ---------------------------------------------------------------------

  predicate OccursAt(s: string, sub: string, i: int)
  {
    0 <= i && i + |sub| <= |s| && s[i..i + |sub|] == sub
  }

  /** Python `startswith`, JavaScript `startsWith`. */
  predicate StartsWith(s: string, prefix: string)
  {
    |prefix| <= |s| && s[..|prefix|] == prefix
  }

  /** Python `endswith`. */
  predicate EndsWith(s: string, suffix: string)
  {
    |suffix| <= |s| && s[|s| - |suffix|..] == suffix
  }

  /** The texts of the elements, one after the other. */
  function ConcatMap<T>(xs: seq<T>, f: T -> string): string
  {
    if xs == [] then "" else ConcatMap(xs[..|xs| - 1], f) + f(xs[|xs| - 1])
  }

  /** Adding one element adds its text at the end. */
  lemma ConcatMapSnoc<T>(xs: seq<T>, i: nat, f: T -> string)
    requires i < |xs|
    ensures ConcatMap(xs[..i + 1], f) == ConcatMap(xs[..i], f) + f(xs[i])
  {
    var p := xs[..i + 1];
    assert p[|p| - 1] == xs[i];
    assert p[..|p| - 1] == xs[..i];
  }

  /** The text of a concatenation is the concatenation of the texts. */
  lemma {:induction false} ConcatMapAppend<T>(a: seq<T>, b: seq<T>, f: T -> string)
    ensures ConcatMap(a + b, f) == ConcatMap(a, f) + ConcatMap(b, f)
    decreases |b|
  {
    if b == [] {
      assert a + b == a;
    } else {
      var b0 := b[..|b| - 1];
      var x := b[|b| - 1];
      assert (a + b)[..|a + b| - 1] == a + b0;
      assert (a + b)[|a + b| - 1] == x;
      ConcatMapAppend(a, b0, f);
      assert ConcatMap(a + b, f) == ConcatMap(a + b0, f) + f(x);
      assert ConcatMap(b, f) == ConcatMap(b0, f) + f(x);
    }
  }

  /** A slice ending just past position c is cut at b and before c. */
  lemma SliceThree(s: string, a: nat, b: nat, c: nat)
    requires a <= b <= c < |s|
    ensures s[a..c + 1] == s[a..b] + s[b..c] + [s[c]]
  {
  }

  /** A concatenation starts with its first part and ends with its last. */
  lemma ConcatEnds(h: string, b: string, c: string)
    ensures StartsWith(h + b + c, h) && EndsWith(h + b + c, c)
  {
    var p := h + b + c;
    assert p[..|h|] == h;
    assert p[|p| - |c|..] == c;
  }

  /** JavaScript `includes`, Python `in` on strings. */
  predicate Contains(s: string, sub: string)
  {
    exists i | 0 <= i <= |s| - |sub| :: OccursAt(s, sub, i)
  }

  /** Every slice is a substring. */
  lemma ContainsSlice(s: string, a: nat, b: nat)
    requires a <= b <= |s|
    ensures Contains(s, s[a..b])
  {
    assert OccursAt(s, s[a..b], a);
  }

  /** A substring of a substring is a substring. */
  lemma ContainsTrans(s: string, t: string, u: string)
    requires Contains(s, t) && Contains(t, u)
    ensures Contains(s, u)
  {
    var i :| 0 <= i <= |s| - |t| && OccursAt(s, t, i);
    var j :| 0 <= j <= |t| - |u| && OccursAt(t, u, j);
    forall k | 0 <= k < |u|
      ensures s[i + j + k] == u[k]
    {
      assert u[k] == t[j + k];
      assert t[j + k] == s[i + j + k];
    }
    assert s[i + j..i + j + |u|] == u;
    assert OccursAt(s, u, i + j);
  }

  /** What a strip keeps is a substring. */
  lemma ContainsStrip(s: string)
    ensures Contains(s, PyStrip(s))
  {
    TrimIsInfix(s, IsPySpace);
  }

  /** The first occurrence of `sub` at or after `from`, or -1. */
  function FindFrom(s: string, sub: string, from: nat): (r: int)
    ensures r == -1 || (from <= r && OccursAt(s, sub, r))
    ensures forall i :: from <= i && (r == -1 || i < r) ==> !OccursAt(s, sub, i)
    decreases |s| - from
  {
    if from + |sub| > |s| then -1
    else if s[from..from + |sub|] == sub then from
    else FindFrom(s, sub, from + 1)
  }

  /** Python `str.find`, JavaScript `indexOf`. */
  function Find(s: string, sub: string): (r: int)
    ensures r == -1 <==> !Contains(s, sub)
    ensures r != -1 ==> OccursAt(s, sub, r) && forall i :: 0 <= i < r ==> !OccursAt(s, sub, i)
  {
    FindFrom(s, sub, 0)
  }

  /** The last occurrence of `sub` starting at or before `upto`, or -1. */
  function RFindUpTo(s: string, sub: string, upto: int): (r: int)
    ensures r == -1 || (r <= upto && OccursAt(s, sub, r))
    ensures forall i :: (r < i <= upto) ==> !OccursAt(s, sub, i)
    decreases upto + 1
  {
    if upto < 0 then -1
    else if OccursAt(s, sub, upto) then upto
    else RFindUpTo(s, sub, upto - 1)
  }

  /** Python `str.rfind`. */
  function RFind(s: string, sub: string): (r: int)
    ensures r == -1 <==> !Contains(s, sub)
    ensures r != -1 ==> OccursAt(s, sub, r) && forall i :: r < i ==> !OccursAt(s, sub, i)
  {
    RFindUpTo(s, sub, |s|)
  }

  // ---------------------------------------------------------------------
  // Splitting, joining, replacing
  // ---------------------------------------------------------------------

  /** `s.split(sep)` in both languages: non-overlapping occurrences, left to right. */
  function Split(s: string, sep: string): (parts: seq<string>)
    requires sep != []
    ensures |parts| >= 1
    decreases |s|
  {
    var i := Find(s, sep);
    if i < 0 then [s] else [s[..i]] + Split(s[i + |sep|..], sep)
  }

  /** `parts.join(sep)` in JavaScript, `sep.join(parts)` in Python. */
  function Join(parts: seq<string>, sep: string): string
  {
    if |parts| == 0 then ""
    else if |parts| == 1 then parts[0]
    else parts[0] + sep + Join(parts[1..], sep)
  }

  function Concat(parts: seq<string>): string
  {
    if parts == [] then "" else parts[0] + Concat(parts[1..])
  }

  /** Joining the parts with the separator gives the input back. */
  lemma {:induction false} JoinSplit(s: string, sep: string)
    requires sep != []
    ensures Join(Split(s, sep), sep) == s
    decreases |s|
  {
    var i := Find(s, sep);
    if i >= 0 {
      var rest := s[i + |sep|..];
      var tail := Split(rest, sep);
      JoinSplit(rest, sep);
      assert Split(s, sep) == [s[..i]] + tail;
      assert ([s[..i]] + tail)[1..] == tail;
      assert Join([s[..i]] + tail, sep) == s[..i] + sep + Join(tail, sep);
      assert s == s[..i] + sep + rest;
    }
  }

  /** No part of a split contains the separator. */
  lemma {:induction false} SplitPartsAvoidSeparator(s: string, sep: string)
    requires sep != []
    ensures forall k :: 0 <= k < |Split(s, sep)| ==> !Contains(Split(s, sep)[k], sep)
    decreases |s|
  {
    var i := Find(s, sep);
    if i >= 0 {
      SplitPartsAvoidSeparator(s[i + |sep|..], sep);
      forall j | OccursAt(s[..i], sep, j) ensures false {
        assert OccursAt(s, sep, j);
      }
    }
  }

  /** Joining a suffix of the parts of a split gives a suffix of the input. */
  lemma {:induction false} JoinSplitSuffix(s: string, sep: string, k: nat)
    requires sep != [] && k < |Split(s, sep)|
    ensures exists m :: 0 <= m <= |s| && Join(Split(s, sep)[k..], sep) == s[m..]
    decreases |s|
  {
    var i := Find(s, sep);
    if k == 0 {
      JoinSplit(s, sep);
      assert Split(s, sep)[0..] == Split(s, sep);
      assert s[0..] == s;
    } else {
      var rest := s[i + |sep|..];
      assert Split(s, sep)[k..] == Split(rest, sep)[k - 1..];
      JoinSplitSuffix(rest, sep, k - 1);
      var m :| 0 <= m <= |rest| && Join(Split(rest, sep)[k - 1..], sep) == rest[m..];
      assert rest[m..] == s[i + |sep| + m..];
    }
  }

  /** Python `str.replace(pat, rep)`: every non-overlapping occurrence, left to right. */
  function ReplaceAll(s: string, pat: string, rep: string): string
    requires pat != []
    decreases |s|
  {
    var i := Find(s, pat);
    if i < 0 then s else s[..i] + rep + ReplaceAll(s[i + |pat|..], pat, rep)
  }

  /** Replacing is splitting on the old text and joining with the new one. */
  lemma {:induction false} ReplaceIsSplitJoin(s: string, pat: string, rep: string)
    requires pat != []
    ensures ReplaceAll(s, pat, rep) == Join(Split(s, pat), rep)
    decreases |s|
  {
    var i := Find(s, pat);
    if i >= 0 {
      var rest := s[i + |pat|..];
      var tail := Split(rest, pat);
      ReplaceIsSplitJoin(rest, pat, rep);
      assert Split(s, pat) == [s[..i]] + tail;
      assert ([s[..i]] + tail)[1..] == tail;
      assert Join([s[..i]] + tail, rep) == s[..i] + rep + Join(tail, rep);
    }
  }

  /** A string without the old text is left as it is. */
  lemma ReplaceAbsent(s: string, pat: string, rep: string)
    requires pat != [] && !Contains(s, pat)
    ensures ReplaceAll(s, pat, rep) == s
  {
  }

  // ---------------------------------------------------------------------
  // Decimal numerals
  // ---------------------------------------------------------------------

  function DigitValue(c: char): nat
    requires IsAsciiDigit(c)
  {
    c as int - '0' as int
  }

  function DigitChar(d: nat): (c: char)
    requires d < 10
    ensures IsAsciiDigit(c) && DigitValue(c) == d
  {
    ('0' as int + d) as char
  }

  /** The value of a string of ASCII digits read in base 10. */
  function DecimalValue(s: string): nat
    requires AllChars(s, IsAsciiDigit)
  {
    if s == [] then 0 else DecimalValue(s[..|s| - 1]) * 10 + DigitValue(s[|s| - 1])
  }

  /** The length of the longest prefix of `s` made of ASCII digits. */
  function DigitRun(s: string): (n: nat)
    ensures n <= |s| && AllChars(s[..n], IsAsciiDigit)
    ensures n < |s| ==> !IsAsciiDigit(s[n])
  {
    if s != [] && IsAsciiDigit(s[0]) then
      var n := 1 + DigitRun(s[1..]);
      assert s[..n] == [s[0]] + s[1..][..n - 1];
      n
    else 0
  }

  /** A string of digits is its own digit run. */
  lemma {:induction false} DigitRunOfDigits(s: string)
    requires AllChars(s, IsAsciiDigit)
    ensures DigitRun(s) == |s|
  {
    if s != [] {
      DigitRunOfDigits(s[1..]);
    }
  }

  /** Python `str(n)` and JavaScript `String(n)` for a natural number. */
  function NatToString(n: nat): (r: string)
    ensures |r| >= 1 && AllChars(r, IsAsciiDigit) && DecimalValue(r) == n
    ensures n > 0 ==> r[0] != '0'
  {
    if n < 10 then [DigitChar(n)]
    else
      var r := NatToString(n / 10) + [DigitChar(n % 10)];
      assert r[..|r| - 1] == NatToString(n / 10);
      r
  }
}
