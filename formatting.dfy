/**
 * Text transforms for Telegram: headers written in full-width capitals, and
 * the HTML escaping that opens the Markdown-to-HTML conversion.
 */
module Formatting {
  import opened Strings

  // ---------------------------------------------------------------------
  // Headers
  // ---------------------------------------------------------------------

  /** `A`..`Z` become their full-width forms U+FF21..U+FF3A; every other character stays. */
  function Widen(c: char): char {
    if 'A' <= c <= 'Z' then (c as int - 'A' as int + 0xFF21) as char else c
  }

  /** The inverse of `Widen` on the full-width capitals. */
  function Narrow(c: char): char {
    if 0xFF21 <= c as int <= 0xFF3A then (c as int - 0xFF21 + 'A' as int) as char else c
  }

  predicate IsAsciiLetter(c: char) {
    'A' <= c <= 'Z' || 'a' <= c <= 'z'
  }

  /**
   * `makeHeader`: upper-cases the text, then widens its capitals. The text
   * keeps its length, holds no ASCII letter afterwards, each letter becomes
   * the full-width form of its capital and every other character stays.
   */
  function MakeHeader(input: string): (r: string)
    ensures |r| == |input|
    ensures forall i :: 0 <= i < |r| ==> !IsAsciiLetter(r[i])
    ensures forall i :: 0 <= i < |r| && IsAsciiLetter(input[i]) ==>
      r[i] as int == 0xFF21 + ToUpperChar(input[i]) as int - 'A' as int
    ensures forall i :: 0 <= i < |r| && !IsAsciiLetter(input[i]) ==> r[i] == input[i]
  {
    var upper := ToUpperCase(input);
    seq(|upper|, i requires 0 <= i < |upper| => Widen(upper[i]))
  }

  /** A header is its own header. */
  lemma MakeHeaderIdempotent(input: string)
    ensures MakeHeader(MakeHeader(input)) == MakeHeader(input)
  {
  }

  /** No full-width capital in the text. */
  predicate NoWideCapitals(s: string) {
    forall i :: 0 <= i < |s| ==> !(0xFF21 <= s[i] as int <= 0xFF3A)
  }

  /** Narrowing a header gives back the upper-cased text, when the text had no full-width capitals of its own. */
  lemma NarrowHeader(input: string)
    requires NoWideCapitals(input)
    ensures var h := MakeHeader(input);
      seq(|h|, i requires 0 <= i < |h| => Narrow(h[i])) == ToUpperCase(input)
  {
  }

  // ---------------------------------------------------------------------
  // HTML escaping
  // ---------------------------------------------------------------------

  /** The three escapes at the head of `markdownToHtml`, ampersands first. */
  function EscapeHtml(markdown: string): string {
    ReplaceAll(ReplaceAll(ReplaceAll(markdown, "&", "&amp;"), "<", "&lt;"), ">", "&gt;")
  }

  /** The entity each character is escaped to, if any. */
  function Entity(c: char): string {
    if c == '&' then "&amp;" else if c == '<' then "&lt;" else if c == '>' then "&gt;" else [c]
  }

  function AmpStep(c: char): string {
    if c == '&' then "&amp;" else [c]
  }

  function LtStep(c: char): string {
    if c == '<' then "&lt;" else [c]
  }

  function GtStep(c: char): string {
    if c == '>' then "&gt;" else [c]
  }

  /** Ampersands and less-than signs escaped, the rest kept. */
  function AmpLt(c: char): string {
    if c == '>' then [c] else Entity(c)
  }

  /** Escaping a single `&` or `<` entity again by the next step leaves it as it is. */
  lemma AmpLtSteps()
    ensures forall x :: AmpLt(x) == FlatMap(AmpStep(x), LtStep)
  {
    forall x ensures AmpLt(x) == FlatMap(AmpStep(x), LtStep) {
      if x == '&' {
        FlatMapKeeps("&amp;", LtStep);
      }
    }
  }

  lemma EntitySteps()
    ensures forall x :: Entity(x) == FlatMap(AmpLt(x), GtStep)
  {
    forall x ensures Entity(x) == FlatMap(AmpLt(x), GtStep) {
      if x == '&' {
        FlatMapKeeps("&amp;", GtStep);
      } else if x == '<' {
        FlatMapKeeps("&lt;", GtStep);
      }
    }
  }

  /** The first two escapes: ampersands, then less-than signs. */
  lemma EscapeAmpLt(s: string)
    ensures ReplaceAll(ReplaceAll(s, "&", "&amp;"), "<", "&lt;") == FlatMap(s, AmpLt)
  {
    ReplaceAllChar(s, '&', "&amp;", AmpStep);
    ReplaceAllChar(FlatMap(s, AmpStep), '<', "&lt;", LtStep);
    AmpLtSteps();
    FlatMapTwice(s, AmpStep, LtStep, AmpLt);
  }

  /** The three escapes replace every character by its entity: no entity is escaped twice. */
  lemma EscapeByCharacter(s: string)
    ensures EscapeHtml(s) == FlatMap(s, Entity)
  {
    EscapeAmpLt(s);
    ReplaceAllChar(FlatMap(s, AmpLt), '>', "&gt;", GtStep);
    EntitySteps();
    FlatMapTwice(s, AmpLt, GtStep, Entity);
  }

  /** Escaped text holds no angle bracket. */
  lemma EscapedHasNoAngles(s: string)
    ensures '<' !in EscapeHtml(s) && '>' !in EscapeHtml(s)
  {
    EscapeByCharacter(s);
    AvoidsFlatMap(s, Entity, "<>");
    var e := FlatMap(s, Entity);
    assert forall i :: 0 <= i < |e| ==> e[i] != '<' && e[i] != '>';
  }

  /** Turns the entities back into characters: less-than signs, then greater-than signs, then ampersands. */
  function UnescapeHtml(html: string): string {
    ReplaceAll(ReplaceAll(ReplaceAll(html, "&lt;", "<"), "&gt;", ">"), "&amp;", "&")
  }

  /** Unescaping the escaped text gives back the text. */
  lemma UnescapeEscape(s: string)
    ensures UnescapeHtml(EscapeHtml(s)) == s
  {
    EscapeByCharacter(s);
    UnescapeLt(s);
    UnescapeGt(s);
    UnescapeAmp(s);
  }

  /** No occurrence of `p` starts inside `x`, whatever follows it. */
  lemma NoneStartsIn(x: string, y: string, p: string)
    requires |p| >= 2 && |x| > 0
    requires x[0] != p[0] || (|x| > 1 && x[1] != p[1])
    requires forall k :: 0 < k < |x| ==> x[k] != p[0]
    ensures forall k :: 0 <= k < |x| ==> !OccursAt(x + y, p, k)
  {
  }

  /** Escaped text with its less-than entities turned back. */
  lemma {:induction false} UnescapeLt(s: string)
    ensures ReplaceAll(FlatMap(s, Entity), "&lt;", "<") == FlatMap(s, AmpLtBack)
    decreases |s|
  {
    if |s| > 0 {
      var x, y := Entity(s[0]), FlatMap(s[1..], Entity);
      UnescapeLt(s[1..]);
      if s[0] == '<' {
        ReplaceAllHit(y, "&lt;", "<");
      } else {
        NoneStartsIn(x, y, "&lt;");
        ReplaceAllSkip(x, y, "&lt;", "<");
      }
    }
  }

  /** Ampersands and greater-than signs escaped, the rest kept. */
  function AmpLtBack(c: char): string {
    if c == '<' then [c] else Entity(c)
  }

  lemma {:induction false} UnescapeGt(s: string)
    ensures ReplaceAll(FlatMap(s, AmpLtBack), "&gt;", ">") == FlatMap(s, AmpStep)
    decreases |s|
  {
    if |s| > 0 {
      var x, y := AmpLtBack(s[0]), FlatMap(s[1..], AmpLtBack);
      UnescapeGt(s[1..]);
      if s[0] == '>' {
        ReplaceAllHit(y, "&gt;", ">");
      } else {
        NoneStartsIn(x, y, "&gt;");
        ReplaceAllSkip(x, y, "&gt;", ">");
      }
    }
  }

  lemma {:induction false} UnescapeAmp(s: string)
    ensures ReplaceAll(FlatMap(s, AmpStep), "&amp;", "&") == s
    decreases |s|
  {
    if |s| > 0 {
      var x, y := AmpStep(s[0]), FlatMap(s[1..], AmpStep);
      UnescapeAmp(s[1..]);
      if s[0] == '&' {
        ReplaceAllHit(y, "&amp;", "&");
      } else {
        NoneStartsIn(x, y, "&amp;");
        ReplaceAllSkip(x, y, "&amp;", "&");
      }
      assert s == [s[0]] + s[1..];
    }
  }
}
