/**
 * String operations of JavaScript that the core relies on, stated over
 * sequences of code points: `indexOf`, `includes`, `split(sep)`, `join`,
 * `trim`, `startsWith`, `replaceAll` and `substring`, with the lemmas that
 * let section extraction be reasoned about piece by piece.
 */
module Strings {
  import opened Wrappers

  // ---------------------------------------------------------------------
  // Occurrences
  // ---------------------------------------------------------------------

  /** `p` occurs in `s` starting at index `k`. */
  predicate OccursAt(s: string, p: string, k: int) {
    0 <= k && k + |p| <= |s| && s[k..k + |p|] == p
  }

  /** JavaScript's `s.includes(p)`. */
  predicate Contains(s: string, p: string) {
    exists k | 0 <= k <= |s| - |p| :: OccursAt(s, p, k)
  }

  /** JavaScript's `s.indexOf(p)`, with `None` for -1. */
  function IndexOf(s: string, p: string): (r: Option<nat>)
    ensures r.Some? ==> OccursAt(s, p, r.value)
    ensures r.Some? ==> forall k :: 0 <= k < r.value ==> !OccursAt(s, p, k)
    ensures r.None? <==> !Contains(s, p)
  {
    IndexFrom(s, p, 0)
  }

  function IndexFrom(s: string, p: string, i: nat): (r: Option<nat>)
    requires forall k :: 0 <= k < i ==> !OccursAt(s, p, k)
    ensures r.Some? ==> OccursAt(s, p, r.value)
    ensures r.Some? ==> forall k :: 0 <= k < r.value ==> !OccursAt(s, p, k)
    ensures r.None? <==> !Contains(s, p)
    decreases |s| - i
  {
    if i + |p| > |s| then None
    else if s[i..i + |p|] == p then assert OccursAt(s, p, i); Some(i)
    else IndexFrom(s, p, i + 1)
  }

  /** The first occurrence found at `i` is the one `IndexOf` reports. */
  lemma IndexOfIs(s: string, p: string, i: nat)
    requires OccursAt(s, p, i)
    requires forall k :: 0 <= k < i ==> !OccursAt(s, p, k)
    ensures IndexOf(s, p) == Some(i)
  {
    assert Contains(s, p);
  }

  lemma IndexOfSelfPrefix(p: string, rest: string)
    ensures IndexOf(p + rest, p) == Some(0)
  {
    assert (p + rest)[0..|p|] == p;
    IndexOfIs(p + rest, p, 0);
  }

  /** A string none of whose characters occurs in a non-empty `p` does not contain `p`. */
  lemma NoCommonChar(s: string, p: string)
    requires |p| > 0
    requires forall i :: 0 <= i < |s| ==> s[i] !in p
    ensures !Contains(s, p)
  {
    forall k | 0 <= k <= |s| - |p| ensures !OccursAt(s, p, k) {
      assert s[k..k + |p|][0] == s[k];
      assert p[0] in p;
    }
  }

  /** A piece of a string that lacks `p` lacks `p` too. */
  lemma NoContainsSlice(s: string, p: string, a: nat, b: nat)
    requires a <= b <= |s|
    requires !Contains(s, p)
    ensures !Contains(s[a..b], p)
  {
    forall k | 0 <= k <= |s[a..b]| - |p| ensures !OccursAt(s[a..b], p, k) {
      assert 0 <= a + k <= |s| - |p|;
      var t, u := s[a..b][k..k + |p|], s[a + k..a + k + |p|];
      assert forall j | 0 <= j < |p| :: t[j] == u[j];
      assert t == u;
      assert !OccursAt(s, p, a + k);
    }
  }

  /**
   * No occurrence of `p` in `x + y` can start in `x` and end in `y`: one of
   * the two characters that meet at the seam is not a character of `p`.
   */
  predicate NoStraddle(x: string, y: string, p: string) {
    x == [] || y == [] || x[|x| - 1] !in p || y[0] !in p
  }

  lemma OccursInConcat(x: string, y: string, p: string, k: int)
    requires |p| > 0 && NoStraddle(x, y, p) && OccursAt(x + y, p, k)
    ensures (k + |p| <= |x| && OccursAt(x, p, k)) || (k >= |x| && OccursAt(y, p, k - |x|))
  {
    var s := x + y;
    if k + |p| <= |x| {
      assert s[k..k + |p|] == x[k..k + |p|];
    } else if k >= |x| {
      assert s[k..k + |p|] == y[k - |x|..k - |x| + |p|];
    } else {
      Straddles(x, y, p, k);
    }
  }

  /** An occurrence across the seam of `x + y` uses the characters on both sides of it. */
  lemma Straddles(x: string, y: string, p: string, k: int)
    requires OccursAt(x + y, p, k) && k < |x| < k + |p|
    ensures x[|x| - 1] in p && y[0] in p
  {
    var s := x + y;
    assert s[k..k + |p|][|x| - 1 - k] == x[|x| - 1];
    assert s[k..k + |p|][|x| - k] == y[0];
  }

  lemma OccursInLeft(x: string, y: string, p: string, k: int)
    requires OccursAt(x, p, k)
    ensures OccursAt(x + y, p, k)
  {
    assert (x + y)[k..k + |p|] == x[k..k + |p|];
  }

  lemma OccursInRight(x: string, y: string, p: string, k: int)
    requires OccursAt(y, p, k)
    ensures OccursAt(x + y, p, k + |x|)
  {
    assert (x + y)[k + |x|..k + |x| + |p|] == y[k..k + |p|];
  }

  lemma ContainsConcat(x: string, y: string, p: string)
    requires |p| > 0 && NoStraddle(x, y, p)
    ensures Contains(x + y, p) <==> Contains(x, p) || Contains(y, p)
  {
    if Contains(x + y, p) {
      var k :| 0 <= k <= |x + y| - |p| && OccursAt(x + y, p, k);
      OccursInConcat(x, y, p, k);
    }
    if Contains(x, p) {
      var k :| 0 <= k <= |x| - |p| && OccursAt(x, p, k);
      OccursInLeft(x, y, p, k);
    }
    if Contains(y, p) {
      var k :| 0 <= k <= |y| - |p| && OccursAt(y, p, k);
      OccursInRight(x, y, p, k);
    }
  }

  /** `IndexOf` of a concatenation: the first occurrence in `x`, else one in `y`, shifted. */
  lemma IndexOfConcat(x: string, y: string, p: string)
    requires |p| > 0 && NoStraddle(x, y, p)
    ensures Contains(x, p) ==> IndexOf(x + y, p) == IndexOf(x, p)
    ensures !Contains(x, p) && Contains(y, p) ==> IndexOf(x + y, p) == Some(IndexOf(y, p).value + |x|)
    ensures !Contains(x, p) && !Contains(y, p) ==> IndexOf(x + y, p) == None
  {
    ContainsConcat(x, y, p);
    if Contains(x, p) {
      IndexOfConcatLeft(x, y, p);
    } else if Contains(y, p) {
      IndexOfConcatRight(x, y, p);
    }
  }

  lemma IndexOfConcatLeft(x: string, y: string, p: string)
    requires |p| > 0 && Contains(x, p)
    ensures IndexOf(x + y, p) == IndexOf(x, p)
  {
    var i := IndexOf(x, p).value;
    OccursInLeft(x, y, p, i);
    forall k | 0 <= k < i ensures !OccursAt(x + y, p, k) {
      if OccursAt(x + y, p, k) {
        assert (x + y)[k..k + |p|] == x[k..k + |p|];
        assert OccursAt(x, p, k);
      }
    }
    IndexOfIs(x + y, p, i);
  }

  lemma IndexOfConcatRight(x: string, y: string, p: string)
    requires |p| > 0 && NoStraddle(x, y, p)
    requires !Contains(x, p) && Contains(y, p)
    ensures IndexOf(x + y, p) == Some(IndexOf(y, p).value + |x|)
  {
    var j := IndexOf(y, p).value;
    OccursInRight(x, y, p, j);
    forall k | 0 <= k < j + |x| ensures !OccursAt(x + y, p, k) {
      if OccursAt(x + y, p, k) {
        OccursInConcat(x, y, p, k);
        if k + |p| <= |x| {
          assert Contains(x, p);
        }
      }
    }
    IndexOfIs(x + y, p, j + |x|);
  }

  // ---------------------------------------------------------------------
  // split, join
  // ---------------------------------------------------------------------

  /** `s.split(p).at(0)`: the text before the first occurrence of `p`, or all of `s`. */
  function Before(s: string, p: string): (r: string)
    ensures |r| <= |s| && r == s[..|r|]
  {
    match IndexOf(s, p)
    case Some(i) => s[..i]
    case None => s
  }

  /** The text after the first occurrence of `p`. */
  function After(s: string, p: string): string
    requires Contains(s, p)
  {
    s[IndexOf(s, p).value + |p|..]
  }

  /** What comes before the first `p` contains no `p`. */
  lemma BeforeLacks(s: string, p: string)
    requires |p| > 0
    ensures !Contains(Before(s, p), p)
  {
    var r := Before(s, p);
    forall k | 0 <= k <= |r| - |p| ensures !OccursAt(r, p, k) {
      var t, u := r[k..k + |p|], s[k..k + |p|];
      assert forall j | 0 <= j < |p| :: t[j] == u[j];
      assert t == u;
      match IndexOf(s, p)
      case Some(i) =>
        assert k < i;
        assert !OccursAt(s, p, k);
      case None =>
        assert !OccursAt(s, p, k);
    }
  }

  lemma BeforeConcat(x: string, y: string, p: string)
    requires |p| > 0 && NoStraddle(x, y, p)
    ensures Contains(x, p) ==> Before(x + y, p) == Before(x, p)
    ensures !Contains(x, p) ==> Before(x + y, p) == x + Before(y, p)
  {
    IndexOfConcat(x, y, p);
    ContainsConcat(x, y, p);
    if Contains(x, p) {
      var i := IndexOf(x, p).value;
      assert (x + y)[..i] == x[..i];
    } else if Contains(y, p) {
      var j := IndexOf(y, p).value;
      assert (x + y)[..j + |x|] == x + y[..j];
    }
  }

  /** JavaScript's `s.split(sep)` for a non-empty separator. */
  function Split(s: string, sep: string): (r: seq<string>)
    requires |sep| > 0
    ensures |r| >= 1 && r[0] == Before(s, sep)
    ensures |r| >= 2 <==> Contains(s, sep)
    ensures Contains(s, sep) ==> r[1] == Before(After(s, sep), sep)
    decreases |s|
  {
    match IndexOf(s, sep)
    case None => [s]
    case Some(i) => [s[..i]] + Split(s[i + |sep|..], sep)
  }

  /** JavaScript's `parts.join(sep)`. */
  function Join(parts: seq<string>, sep: string): string
    decreases |parts|
  {
    if |parts| == 0 then ""
    else if |parts| == 1 then parts[0]
    else parts[0] + sep + Join(parts[1..], sep)
  }

  /** The concatenation of all `parts` (`parts.join("")`). */
  function Concat(parts: seq<string>): string
    decreases |parts|
  {
    if |parts| == 0 then "" else parts[0] + Concat(parts[1..])
  }

  lemma ConcatAppend(parts: seq<string>, last: string)
    ensures Concat(parts + [last]) == Concat(parts) + last
    decreases |parts|
  {
    if |parts| > 0 {
      assert (parts + [last])[1..] == parts[1..] + [last];
      ConcatAppend(parts[1..], last);
    } else {
      assert parts + [last] == [last];
    }
  }

  /** Splitting a join at a one-character separator that no part contains gives the parts back. */
  lemma {:induction false} SplitJoin(parts: seq<string>, c: char)
    requires |parts| >= 1
    requires forall i :: 0 <= i < |parts| ==> c !in parts[i]
    ensures Split(Join(parts, [c]), [c]) == parts
    decreases |parts|
  {
    if |parts| == 1 {
      NoCommonChar(parts[0], [c]);
    } else {
      var rest := Join(parts[1..], [c]);
      NoCommonChar(parts[0], [c]);
      assert Join(parts, [c]) == parts[0] + ([c] + rest);
      assert NoStraddle(parts[0], [c] + rest, [c]);
      IndexOfConcat(parts[0], [c] + rest, [c]);
      IndexOfSelfPrefix([c], rest);
      assert IndexOf(Join(parts, [c]), [c]) == Some(|parts[0]|);
      assert Join(parts, [c])[..|parts[0]|] == parts[0];
      assert Join(parts, [c])[|parts[0]| + 1..] == rest;
      SplitJoin(parts[1..], c);
    }
  }

  // ---------------------------------------------------------------------
  // trim
  // ---------------------------------------------------------------------

  /** The characters JavaScript's `trim` removes: WhiteSpace and LineTerminator. */
  predicate IsSpace(c: char) {
    c == '\t' || c == '\n' || c == '\U{000B}' || c == '\U{000C}' || c == '\r' || c == ' '
    || c == '\U{00A0}' || c == '\U{1680}' || ('\U{2000}' <= c <= '\U{200A}')
    || c == '\U{2028}' || c == '\U{2029}' || c == '\U{202F}' || c == '\U{205F}'
    || c == '\U{3000}' || c == '\U{FEFF}'
  }

  predicate AllSpace(s: string) {
    forall i :: 0 <= i < |s| ==> IsSpace(s[i])
  }

  function TrimStart(s: string): (r: string)
    ensures |r| <= |s| && r == s[|s| - |r|..]
    ensures r == [] || !IsSpace(r[0])
    decreases |s|
  {
    if |s| > 0 && IsSpace(s[0]) then TrimStart(s[1..]) else s
  }

  function TrimEnd(s: string): (r: string)
    ensures |r| <= |s| && r == s[..|r|]
    ensures r == [] || !IsSpace(r[|r| - 1])
    decreases |s|
  {
    if |s| > 0 && IsSpace(s[|s| - 1]) then TrimEnd(s[..|s| - 1]) else s
  }

  /** JavaScript's `s.trim()`. */
  function Trim(s: string): (r: string)
    ensures r == [] || (!IsSpace(r[0]) && !IsSpace(r[|r| - 1]))
  {
    TrimEnd(TrimStart(s))
  }

  /** `Trim(s)` is a slice of `s`. */
  lemma TrimSlice(s: string) returns (a: nat, b: nat)
    ensures a <= b <= |s| && Trim(s) == s[a..b]
  {
    var t := TrimStart(s);
    a := |s| - |t|;
    b := a + |Trim(s)|;
    assert t == s[a..];
    assert Trim(s) == t[..|Trim(s)|];
  }

  lemma TrimLacks(s: string, p: string)
    requires !Contains(s, p)
    ensures !Contains(Trim(s), p)
  {
    var a, b := TrimSlice(s);
    NoContainsSlice(s, p, a, b);
  }

  lemma TrimStartNoSpace(s: string)
    requires s == [] || !IsSpace(s[0])
    ensures TrimStart(s) == s
  {
  }

  lemma TrimEndNoSpace(s: string)
    requires s == [] || !IsSpace(s[|s| - 1])
    ensures TrimEnd(s) == s
  {
  }

  /** Trimming a trimmed string changes nothing. */
  lemma TrimIdempotent(s: string)
    ensures Trim(Trim(s)) == Trim(s)
  {
    var t := Trim(s);
    TrimStartNoSpace(t);
    TrimEndNoSpace(t);
  }

  lemma {:induction false} TrimStartSpacePrefix(a: string, x: string)
    requires AllSpace(a)
    ensures TrimStart(a + x) == TrimStart(x)
    decreases |a|
  {
    if |a| > 0 {
      assert (a + x)[1..] == a[1..] + x;
      TrimStartSpacePrefix(a[1..], x);
    } else {
      assert a + x == x;
    }
  }

  lemma {:induction false} TrimEndSpaceSuffix(x: string, b: string)
    requires AllSpace(b)
    ensures TrimEnd(x + b) == TrimEnd(x)
    decreases |b|
  {
    if |b| > 0 {
      assert (x + b)[..|x + b| - 1] == x + b[..|b| - 1];
      TrimEndSpaceSuffix(x, b[..|b| - 1]);
    } else {
      assert x + b == x;
    }
  }

  lemma {:induction false} TrimStartAppend(x: string, b: string)
    requires AllSpace(b)
    ensures AllSpace(x) ==> TrimStart(x + b) == [] && TrimStart(x) == []
    ensures !AllSpace(x) ==> TrimStart(x + b) == TrimStart(x) + b
    decreases |x|
  {
    if |x| == 0 {
      assert x + b == b;
      TrimStartSpacePrefix(b, []);
      assert b + [] == b;
    } else if IsSpace(x[0]) {
      assert (x + b)[1..] == x[1..] + b;
      TrimStartAppend(x[1..], b);
      if !AllSpace(x) {
        var i :| 0 <= i < |x| && !IsSpace(x[i]);
        assert !IsSpace(x[1..][i - 1]);
      }
    } else {
      assert (x + b)[0] == x[0];
    }
  }

  /** Trimming ignores whitespace put around a text. */
  lemma TrimFramed(a: string, x: string, b: string)
    requires AllSpace(a) && AllSpace(b)
    ensures Trim(a + x + b) == Trim(x)
  {
    assert a + x + b == a + (x + b);
    TrimStartSpacePrefix(a, x + b);
    TrimStartAppend(x, b);
    if !AllSpace(x) {
      TrimEndSpaceSuffix(TrimStart(x), b);
    }
  }

  // ---------------------------------------------------------------------
  // Prefixes, replacement, mapping
  // ---------------------------------------------------------------------

  /** JavaScript's `s.startsWith(p)`. */
  predicate StartsWith(s: string, p: string) {
    |p| <= |s| && s[..|p|] == p
  }

  /** JavaScript's `s.endsWith(p)`. */
  predicate EndsWith(s: string, p: string) {
    |p| <= |s| && s[|s| - |p|..] == p
  }

  /** A prefix stays a prefix when text is appended. */
  lemma StartsWithAppend(s: string, t: string, p: string)
    requires StartsWith(s, p)
    ensures StartsWith(s + t, p)
  {
    assert (s + t)[..|p|] == s[..|p|];
  }

  /** Every text starts with itself and ends with what was appended last. */
  lemma Ends(s: string, t: string)
    ensures StartsWith(s + t, s) && EndsWith(s + t, t)
  {
    assert (s + t)[..|s|] == s;
    assert (s + t)[|s + t| - |t|..] == t;
  }

  /**
   * JavaScript's `s.replaceAll(p, r)` for a non-empty literal pattern:
   * scanning left to right, each occurrence of `p` that does not overlap
   * an earlier replaced one becomes `r`.
   */
  function ReplaceAll(s: string, p: string, r: string): string
    requires |p| > 0
    decreases |s|
  {
    if |s| < |p| then s
    else if s[..|p|] == p then r + ReplaceAll(s[|p|..], p, r)
    else [s[0]] + ReplaceAll(s[1..], p, r)
  }

  /** Text in which no occurrence of `p` starts is copied unchanged up to where the scan reaches `y`. */
  lemma {:induction false} ReplaceAllSkip(x: string, y: string, p: string, r: string)
    requires |p| > 0
    requires forall k :: 0 <= k < |x| ==> !OccursAt(x + y, p, k)
    ensures ReplaceAll(x + y, p, r) == x + ReplaceAll(y, p, r)
    decreases |x|
  {
    if |x| > 0 {
      var s := x + y;
      if |s| >= |p| {
        assert !OccursAt(s, p, 0);
        assert s[..|p|] != p;
        assert s[1..] == x[1..] + y;
        forall k | 0 <= k < |x| - 1 ensures !OccursAt(x[1..] + y, p, k) {
          OccursShift(s, p, k);
        }
        ReplaceAllSkip(x[1..], y, p, r);
        assert ReplaceAll(s, p, r) == [x[0]] + ReplaceAll(x[1..] + y, p, r);
        assert [x[0]] + x[1..] == x;
      } else {
        assert ReplaceAll(y, p, r) == y;
      }
    } else {
      assert x + y == y;
    }
  }

  /** Concatenation regrouped to the right. */
  lemma Assoc(a: string, b: string, c: string)
    ensures a + b + c == a + (b + c)
  {
  }

  /** Equal texts with the same start have equal remainders. */
  lemma CancelLeft(a: string, x: string, y: string)
    requires a + x == a + y
    ensures x == y
  {
    assert x == (a + x)[|a|..];
    assert y == (a + y)[|a|..];
  }

  /** Equal texts with the same start and end have equal middles. */
  lemma Middle(a: string, x: string, b: string, y: string)
    requires a + x + b == a + y + b
    ensures x == y
  {
    assert x == (a + x + b)[|a|..|a| + |x|];
    assert y == (a + y + b)[|a|..|a| + |y|];
  }

  /** An occurrence in the text without its first character is one a place further in the text. */
  lemma OccursShift(s: string, p: string, k: nat)
    requires |s| > 0
    ensures OccursAt(s[1..], p, k) <==> OccursAt(s, p, k + 1)
  {
    if k + |p| <= |s[1..]| {
      assert s[1..][k..k + |p|] == s[k + 1..k + 1 + |p|];
    }
  }

  /** An occurrence of `p` at the front is replaced. */
  lemma ReplaceAllHit(y: string, p: string, r: string)
    requires |p| > 0
    ensures ReplaceAll(p + y, p, r) == r + ReplaceAll(y, p, r)
  {
    assert (p + y)[..|p|] == p;
    assert (p + y)[|p|..] == y;
  }

  /** Replacing a single character is replacing each of its occurrences, character by character. */
  lemma {:induction false} ReplaceAllChar(s: string, c: char, r: string, f: char -> string)
    requires forall x :: f(x) == if x == c then r else [x]
    ensures ReplaceAll(s, [c], r) == FlatMap(s, f)
    decreases |s|
  {
    if |s| > 0 {
      ReplaceAllChar(s[1..], c, r, f);
      assert s[..1] == [c] <==> s[0] == c;
    }
  }

  /** Replace every character `c` of `s` by `f(c)`. */
  function FlatMap(s: string, f: char -> string): string
    decreases |s|
  {
    if |s| == 0 then "" else f(s[0]) + FlatMap(s[1..], f)
  }

  lemma {:induction false} FlatMapConcat(a: string, b: string, f: char -> string)
    ensures FlatMap(a + b, f) == FlatMap(a, f) + FlatMap(b, f)
    decreases |a|
  {
    if |a| > 0 {
      assert (a + b)[1..] == a[1..] + b;
      FlatMapConcat(a[1..], b, f);
    } else {
      assert a + b == b;
    }
  }

  /** Mapping twice is mapping once with the composed replacement. */
  lemma {:induction false} FlatMapTwice(s: string, f: char -> string, g: char -> string, h: char -> string)
    requires forall x :: h(x) == FlatMap(f(x), g)
    ensures FlatMap(FlatMap(s, f), g) == FlatMap(s, h)
    decreases |s|
  {
    if |s| > 0 {
      FlatMapConcat(f(s[0]), FlatMap(s[1..], f), g);
      FlatMapTwice(s[1..], f, g, h);
    }
  }

  /** A replacement that keeps every character of `s` keeps `s`. */
  lemma {:induction false} FlatMapKeeps(s: string, f: char -> string)
    requires forall i :: 0 <= i < |s| ==> f(s[i]) == [s[i]]
    ensures FlatMap(s, f) == s
    decreases |s|
  {
    if |s| > 0 {
      FlatMapKeeps(s[1..], f);
    }
  }

  /** No character of `s` is one of `cs`. */
  predicate Avoids(s: string, cs: string) {
    forall i :: 0 <= i < |s| ==> s[i] !in cs
  }

  lemma AvoidsConcat(x: string, y: string, cs: string)
    ensures Avoids(x + y, cs) <==> Avoids(x, cs) && Avoids(y, cs)
  {
    assert forall i :: 0 <= i < |x| ==> (x + y)[i] == x[i];
    assert forall i :: 0 <= i < |y| ==> (x + y)[|x| + i] == y[i];
  }

  lemma {:induction false} AvoidsJoin(parts: seq<string>, sep: string, cs: string)
    requires Avoids(sep, cs) && forall i :: 0 <= i < |parts| ==> Avoids(parts[i], cs)
    ensures Avoids(Join(parts, sep), cs)
    decreases |parts|
  {
    if |parts| > 1 {
      AvoidsJoin(parts[1..], sep, cs);
      AvoidsConcat(parts[0], sep, cs);
      AvoidsConcat(parts[0] + sep, Join(parts[1..], sep), cs);
    }
  }

  lemma {:induction false} AvoidsFlatMap(s: string, f: char -> string, cs: string)
    requires forall i :: 0 <= i < |s| ==> Avoids(f(s[i]), cs)
    ensures Avoids(FlatMap(s, f), cs)
    decreases |s|
  {
    if |s| > 0 {
      assert forall i :: 0 <= i < |s| - 1 ==> s[1..][i] == s[i + 1];
      AvoidsFlatMap(s[1..], f, cs);
      AvoidsConcat(f(s[0]), FlatMap(s[1..], f), cs);
    }
  }

  /** JavaScript's `toUpperCase` on the ASCII letters. */
  function ToUpperChar(c: char): char {
    if 'a' <= c <= 'z' then (c as int - 32) as char else c
  }

  /** JavaScript's `toLowerCase` on the ASCII letters. */
  function ToLowerChar(c: char): char {
    if 'A' <= c <= 'Z' then (c as int + 32) as char else c
  }

  function ToUpperCase(s: string): (r: string)
    ensures |r| == |s| && forall i :: 0 <= i < |s| ==> r[i] == ToUpperChar(s[i])
  {
    seq(|s|, i requires 0 <= i < |s| => ToUpperChar(s[i]))
  }

  function ToLowerCase(s: string): (r: string)
    ensures |r| == |s| && forall i :: 0 <= i < |s| ==> r[i] == ToLowerChar(s[i])
  {
    seq(|s|, i requires 0 <= i < |s| => ToLowerChar(s[i]))
  }

  /** JavaScript's `s.substring(start)` for a non-negative start (clamped to the length). */
  function SubstringFrom(s: string, start: nat): string {
    if start <= |s| then s[start..] else ""
  }

  /** Decimal rendering of a natural number, as `String(n)` gives it. */
  function NatToString(n: nat): (r: string)
    ensures |r| > 0 && forall i :: 0 <= i < |r| ==> '0' <= r[i] <= '9'
    decreases n
  {
    if n < 10 then [DigitChar(n)] else NatToString(n / 10) + [DigitChar(n % 10)]
  }

  function DigitChar(d: nat): char
    requires d < 10
  {
    ('0' as int + d) as char
  }
}
