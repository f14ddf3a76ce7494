/**
 * JSON values as JavaScript sees them after `JSON.parse`, the text
 * `JSON.stringify` produces for them, and `Object.entries`.
 */
module Json {
  import opened Wrappers
  import opened Strings

  /**
   * A parsed JSON value. Numbers are integers. Object members are kept in
   * JavaScript's enumeration order.
   */
  datatype Json =
    | JNull
    | JBool(b: bool)
    | JNumber(n: int)
    | JString(s: string)
    | JArray(items: seq<Json>)
    | JObject(members: seq<(string, Json)>)

  // ---------------------------------------------------------------------
  // JSON.stringify
  // ---------------------------------------------------------------------

  function HexDigit(d: nat): char
    requires d < 16
  {
    if d < 10 then ('0' as int + d) as char else ('a' as int + d - 10) as char
  }

  /** How `JSON.stringify` writes one character inside a string literal. */
  function EscapeChar(c: char): (r: string)
    ensures |r| > 0
  {
    if c == '"' then "\\\""
    else if c == '\\' then "\\\\"
    else if c == '\U{0008}' then "\\b"
    else if c == '\U{000C}' then "\\f"
    else if c == '\n' then "\\n"
    else if c == '\r' then "\\r"
    else if c == '\t' then "\\t"
    else if c < ' ' then "\\u00" + [HexDigit(c as int / 16), HexDigit(c as int % 16)]
    else [c]
  }

  function Quote(s: string): string {
    "\"" + FlatMap(s, EscapeChar) + "\""
  }

  function NumberText(n: int): string {
    if n < 0 then "-" + NatToString(-n) else NatToString(n)
  }

  /** `JSON.stringify(j)` without indentation. */
  function Stringify(j: Json): (r: string)
    ensures |r| > 0 && !IsSpace(r[0]) && !IsSpace(r[|r| - 1])
    decreases j
  {
    match j
    case JNull => "null"
    case JBool(b) => if b then "true" else "false"
    case JNumber(n) => NumberText(n)
    case JString(s) => Quote(s)
    case JArray(items) =>
      "[" + Join(seq(|items|, i requires 0 <= i < |items| => Stringify(items[i])), ",") + "]"
    case JObject(ms) =>
      "{" + Join(seq(|ms|, i requires 0 <= i < |ms| => Quote(ms[i].0) + ":" + Stringify(ms[i].1)), ",") + "}"
  }

  /** No string (key or value) anywhere inside `j` uses a character of `cs`. */
  predicate JsonAvoids(j: Json, cs: string)
    decreases j
  {
    match j
    case JString(s) => Avoids(s, cs)
    case JArray(items) => forall i :: 0 <= i < |items| ==> JsonAvoids(items[i], cs)
    case JObject(ms) => forall i :: 0 <= i < |ms| ==> Avoids(ms[i].0, cs) && JsonAvoids(ms[i].1, cs)
    case _ => true
  }

  /** The characters `cs` are all outside ASCII. */
  predicate NonAscii(cs: string) {
    forall i :: 0 <= i < |cs| ==> cs[i] as int >= 128
  }

  lemma AsciiAvoids(s: string, cs: string)
    requires NonAscii(cs) && forall i :: 0 <= i < |s| ==> s[i] as int < 128
    ensures Avoids(s, cs)
  {
  }

  lemma QuoteAvoids(s: string, cs: string)
    requires NonAscii(cs) && Avoids(s, cs)
    ensures Avoids(Quote(s), cs)
  {
    forall i | 0 <= i < |s| ensures Avoids(EscapeChar(s[i]), cs) {
      var c := s[i];
      if c != '"' && c != '\\' && c >= ' ' {
        assert EscapeChar(c) == [c];
      } else {
        AsciiAvoids(EscapeChar(c), cs);
      }
    }
    AvoidsFlatMap(s, EscapeChar, cs);
    AvoidsConcat("\"", FlatMap(s, EscapeChar), cs);
    AvoidsConcat("\"" + FlatMap(s, EscapeChar), "\"", cs);
  }

  /**
   * `JSON.stringify` only adds ASCII characters: text free of some non-ASCII
   * characters stays free of them once written out.
   */
  lemma {:induction false} StringifyAvoids(j: Json, cs: string)
    requires NonAscii(cs) && JsonAvoids(j, cs)
    ensures Avoids(Stringify(j), cs)
    decreases j
  {
    match j
    case JNull =>
    case JBool(b) =>
    case JNumber(n) =>
      AsciiAvoids(NatToString(if n < 0 then -n else n), cs);
      AvoidsConcat("-", NatToString(if n < 0 then -n else n), cs);
    case JString(s) => QuoteAvoids(s, cs);
    case JArray(items) =>
      var parts := seq(|items|, i requires 0 <= i < |items| => Stringify(items[i]));
      forall i | 0 <= i < |items| ensures Avoids(parts[i], cs) {
        StringifyAvoids(items[i], cs);
      }
      AvoidsJoin(parts, ",", cs);
      AvoidsConcat("[", Join(parts, ","), cs);
      AvoidsConcat("[" + Join(parts, ","), "]", cs);
    case JObject(ms) =>
      var parts := seq(|ms|, i requires 0 <= i < |ms| => Quote(ms[i].0) + ":" + Stringify(ms[i].1));
      forall i | 0 <= i < |ms| ensures Avoids(parts[i], cs) {
        QuoteAvoids(ms[i].0, cs);
        StringifyAvoids(ms[i].1, cs);
        AvoidsConcat(Quote(ms[i].0), ":", cs);
        AvoidsConcat(Quote(ms[i].0) + ":", Stringify(ms[i].1), cs);
      }
      AvoidsJoin(parts, ",", cs);
      AvoidsConcat("{", Join(parts, ","), cs);
      AvoidsConcat("{" + Join(parts, ","), "}", cs);
  }

  // ---------------------------------------------------------------------
  // Object.entries, the `in` operator
  // ---------------------------------------------------------------------

  /**
   * `Object.entries(j)`: `None` where it throws (on `null`); no entries for
   * booleans and numbers; index/element pairs for strings and arrays; the
   * members of an object.
   */
  function Entries(j: Json): (r: Option<seq<(string, Json)>>)
    ensures r.None? <==> j.JNull?
    ensures j.JObject? ==> r == Some(j.members)
    ensures (j.JBool? || j.JNumber?) ==> r == Some([])
    ensures j.JArray? ==> |r.value| == |j.items| && forall i :: 0 <= i < |j.items| ==> r.value[i] == (NatToString(i), j.items[i])
    ensures j.JString? ==> |r.value| == |j.s| && forall i :: 0 <= i < |j.s| ==> r.value[i] == (NatToString(i), JString([j.s[i]]))
  {
    match j
    case JNull => None
    case JBool(_) => Some([])
    case JNumber(_) => Some([])
    case JString(s) => Some(seq(|s|, i requires 0 <= i < |s| => (NatToString(i), JString([s[i]]))))
    case JArray(items) => Some(seq(|items|, i requires 0 <= i < |items| => (NatToString(i), items[i])))
    case JObject(ms) => Some(ms)
  }

  /** `key in object`. */
  predicate HasKey(ms: seq<(string, Json)>, key: string) {
    exists i :: 0 <= i < |ms| && ms[i].0 == key
  }

  /** No key occurs twice among the members. */
  predicate DistinctKeys(ms: seq<(string, Json)>) {
    forall i, k :: 0 <= i < k < |ms| ==> ms[i].0 != ms[k].0
  }

  /**
   * Every object inside `j` has distinct keys, as every object `JSON.parse`
   * builds does: a repeated key in the text overwrites the earlier value.
   */
  predicate Parsed(j: Json)
    decreases j
  {
    match j
    case JArray(items) => forall i :: 0 <= i < |items| ==> Parsed(items[i])
    case JObject(ms) => DistinctKeys(ms) && forall i :: 0 <= i < |ms| ==> Parsed(ms[i].1)
    case _ => true
  }

  /** `JSON.parse`: `None` where it throws, otherwise a value whose objects have distinct keys. */
  type Parser = f: string -> Option<Json> | forall text :: f(text).Some? ==> Parsed(f(text).value)
    witness (text: string) => None

  /** The value stored under `key`. */
  function Lookup(ms: seq<(string, Json)>, key: string): (v: Json)
    requires HasKey(ms, key)
    ensures (key, v) in ms
  {
    if ms[0].0 == key then ms[0].1
    else
      assert HasKey(ms[1..], key) by {
        var i :| 0 <= i < |ms| && ms[i].0 == key;
        assert ms[1..][i - 1] == ms[i];
      }
      Lookup(ms[1..], key)
  }

  /**
   * With distinct keys the value stored under a key is the one member
   * carrying it, so reading the first match is reading the property.
   */
  lemma {:induction false} LookupDistinct(ms: seq<(string, Json)>, i: nat)
    requires DistinctKeys(ms) && i < |ms|
    ensures HasKey(ms, ms[i].0) && Lookup(ms, ms[i].0) == ms[i].1
    decreases i
  {
    assert HasKey(ms, ms[i].0);
    if i > 0 {
      assert ms[0].0 != ms[i].0;
      assert ms[1..][i - 1] == ms[i];
      LookupDistinct(ms[1..], i - 1);
    }
  }
}
