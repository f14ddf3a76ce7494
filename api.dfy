/**
 * The section demultiplexer: `getTag`, the per-tag streaming state of
 * `generate` with its throttled partial updates and final flush, the
 * decoding of the tool section and the canonical `raw` text.
 */
module Api {
  import opened Wrappers
  import opened Strings
  import opened Json
  import opened Prompt

  // ---------------------------------------------------------------------
  // getTag
  // ---------------------------------------------------------------------

  /**
   * `content.split(open).at(1)?.split(close).at(0)?.trim() ?? ""`: the
   * trimmed text after the first `open`, cut at the next `open` and then at
   * the first `close`; "" when `open` does not occur.
   */
  function GetTag(open: string, close: string, content: string): string
    requires |open| > 0 && |close| > 0
  {
    var parts := Split(content, open);
    if |parts| >= 2 then Trim(Split(parts[1], close)[0]) else ""
  }

  /** Without an opening tag the section is empty. */
  lemma GetTagAbsent(open: string, close: string, content: string)
    requires |open| > 0 && |close| > 0
    requires !Contains(content, open)
    ensures GetTag(open, close, content) == ""
  {
  }

  /** The extracted section never holds either of its tags and is already trimmed. */
  lemma GetTagLacksTags(open: string, close: string, content: string)
    requires |open| > 0 && |close| > 0
    ensures var r := GetTag(open, close, content);
      !Contains(r, open) && !Contains(r, close) && Trim(r) == r
  {
    var r := GetTag(open, close, content);
    if Contains(content, open) {
      var a := Before(After(content, open), open);
      BeforeLacks(After(content, open), open);
      var b := Before(a, close);
      BeforeLacks(a, close);
      NoContainsSlice(a, open, 0, |b|);
      TrimLacks(b, open);
      TrimLacks(b, close);
      TrimIdempotent(b);
    } else {
      assert r == "";
    }
  }

  /**
   * The section's text is a slice of `content` that starts right after the
   * first `open`, holds neither tag, and ends at the end of `content` or
   * where an `open` or a `close` starts.
   */
  lemma GetTagSlice(open: string, close: string, content: string)
    requires |open| > 0 && |close| > 0
    requires Contains(content, open)
    ensures var a := IndexOf(content, open).value + |open|;
      exists j :: a <= j <= |content|
        && GetTag(open, close, content) == Trim(content[a..j])
        && !Contains(content[a..j], open) && !Contains(content[a..j], close)
        && (j == |content| || OccursAt(content, open, j) || OccursAt(content, close, j))
  {
    var a := IndexOf(content, open).value + |open|;
    var z := Before(Before(content[a..], open), close);
    SectionText(open, close, content);
    CutLacks(content[a..], open, close);
    CutSlice(content, a, open, close);
    CutEnds(content, a, open, close);
    assert a <= a + |z| <= |content|;
  }

  /** `getTag` of text holding `open`: the text after the first `open`, cut at `open` and at `close`, trimmed. */
  lemma SectionText(open: string, close: string, content: string)
    requires |open| > 0 && |close| > 0
    requires Contains(content, open)
    ensures var a := IndexOf(content, open).value + |open|;
      GetTag(open, close, content) == Trim(Before(Before(content[a..], open), close))
  {
    assert Split(content, open)[1] == Before(After(content, open), open);
  }

  /** Text cut at `open` and then at `close` holds neither. */
  lemma CutLacks(x: string, open: string, close: string)
    requires |open| > 0 && |close| > 0
    ensures !Contains(Before(Before(x, open), close), open)
    ensures !Contains(Before(Before(x, open), close), close)
  {
    var y := Before(x, open);
    BeforeLacks(x, open);
    BeforeLacks(y, close);
    NoContainsSlice(y, open, 0, |Before(y, close)|);
  }

  /** The cut text is the slice of `content` that starts at `a`. */
  lemma CutSlice(content: string, a: nat, open: string, close: string)
    requires a <= |content|
    ensures var z := Before(Before(content[a..], open), close);
      a + |z| <= |content| && content[a..a + |z|] == z
  {
    var x := content[a..];
    var y := Before(x, open);
    var z := Before(y, close);
    assert z <= y && y <= x;
  }

  /** The cut ends at the end of `content` or where an `open` or a `close` starts. */
  lemma CutEnds(content: string, a: nat, open: string, close: string)
    requires a <= |content|
    ensures var z := Before(Before(content[a..], open), close);
      a + |z| == |content| || OccursAt(content, open, a + |z|) || OccursAt(content, close, a + |z|)
  {
    var x := content[a..];
    var y := Before(x, open);
    var z := Before(y, close);
    BeforeEnds(x, open);
    BeforeEnds(y, close);
    if |z| < |y| {
      SliceOccurs(content, a, y, close, |z|);
    } else if |y| < |x| {
      SliceOccurs(content, a, x, open, |y|);
    }
  }

  /** `Before` stops at the end of the text or where the separator starts. */
  lemma BeforeEnds(x: string, p: string)
    ensures |Before(x, p)| == |x| || OccursAt(x, p, |Before(x, p)|)
  {
    match IndexOf(x, p)
    case Some(i) => assert |Before(x, p)| == i;
    case None =>
  }

  /** An occurrence inside a prefix of a suffix is an occurrence in the whole text. */
  lemma SliceOccurs(s: string, a: nat, x: string, p: string, k: nat)
    requires a + |x| <= |s| && x == s[a..][..|x|] && OccursAt(x, p, k)
    ensures OccursAt(s, p, a + k)
  {
    assert x[k..k + |p|] == s[a + k..a + k + |p|];
  }

  /**
   * A section framed by its tags reads back as its trimmed body, provided
   * nothing before the frame holds `open`, the body holds neither tag, and
   * no `open` starts inside the body or the closing tag. What follows the
   * closing tag does not matter.
   */
  lemma GetTagFramed(open: string, close: string, pre: string, body: string, post: string)
    requires |open| > 0 && |close| > 0
    requires !Contains(pre, open) && (pre == [] || pre[|pre| - 1] !in open)
    requires !Contains(body + close, open) && NoStraddle(body + close, post, open)
    requires !Contains(body, close) && (body == [] || body[|body| - 1] !in close)
    ensures Contains(pre + open + body + close + post, open)
    ensures GetTag(open, close, pre + open + body + close + post) == Trim(body)
  {
    var rest := body + close + post;
    assert pre + open + body + close + post == pre + open + rest;
    AfterFirst(pre, open, rest);
    CutAtClose(open, close, body, post);
  }

  /** The first `open` of `pre + open + rest` is the one after `pre`, when `pre` holds none. */
  lemma AfterFirst(pre: string, open: string, rest: string)
    requires |open| > 0
    requires !Contains(pre, open) && (pre == [] || pre[|pre| - 1] !in open)
    ensures Contains(pre + open + rest, open) && After(pre + open + rest, open) == rest
  {
    var s := pre + open + rest;
    assert s == pre + (open + rest);
    IndexOfSelfPrefix(open, rest);
    IndexOfConcat(pre, open + rest, open);
    assert IndexOf(s, open) == Some(|pre|);
  }

  /** Cutting `body + close + post` at the next `open`, then at the first `close`, leaves `body`. */
  lemma CutAtClose(open: string, close: string, body: string, post: string)
    requires |open| > 0 && |close| > 0
    requires !Contains(body + close, open) && NoStraddle(body + close, post, open)
    requires !Contains(body, close) && (body == [] || body[|body| - 1] !in close)
    ensures Before(Before(body + close + post, open), close) == body
  {
    var x := Before(post, open);
    assert Before(body + close + post, open) == body + close + x by {
      BeforeConcat(body + close, post, open);
    }
    Assoc(body, close, x);
    assert Before(body + (close + x), close) == body by {
      IndexOfSelfPrefix(close, x);
      BeforeConcat(body, close + x, close);
    }
  }

  /** Alternating pieces: every piece at an index of parity `p` is a newline. */
  predicate Alternating(pieces: seq<string>, p: nat) {
    forall i :: 0 <= i < |pieces| && i % 2 == p ==> pieces[i] == "\n"
  }

  /**
   * Text assembled from pieces that lack a tag, with a newline between any
   * two of them, lacks the tag too.
   */
  lemma {:induction false} LacksAcrossNewlines(pieces: seq<string>, p: nat, t: string)
    requires p < 2 && |t| > 0 && '\n' !in t
    requires Alternating(pieces, p)
    requires forall i :: 0 <= i < |pieces| ==> !Contains(pieces[i], t)
    ensures !Contains(Concat(pieces), t)
    decreases |pieces|
  {
    if |pieces| > 0 {
      var rest := pieces[1..];
      assert forall i :: 0 <= i < |rest| ==> rest[i] == pieces[i + 1];
      assert Alternating(rest, 1 - p) by {
        forall i | 0 <= i < |rest| && i % 2 == 1 - p ensures rest[i] == "\n" {
          assert (i + 1) % 2 == p;
        }
      }
      LacksAcrossNewlines(rest, 1 - p, t);
      if |rest| > 0 {
        assert Concat(rest) == rest[0] + Concat(rest[1..]);
        if p == 0 {
          assert pieces[0] == "\n";
        } else {
          assert pieces[1] == "\n";
          assert Concat(rest)[0] == '\n';
        }
      }
      assert NoStraddle(pieces[0], Concat(rest), t);
      ContainsConcat(pieces[0], Concat(rest), t);
    }
  }

  lemma ShortLacks(s: string, t: string)
    requires |s| < |t|
    ensures !Contains(s, t)
  {
  }

  // ---------------------------------------------------------------------
  // The streamed reply
  // ---------------------------------------------------------------------

  /**
   * One server-sent event of the completion stream: a content delta (absent
   * content reads as "") or the frame carrying `finish_reason`, with the
   * optional `usage.total_tokens`.
   */
  datatype Frame = Delta(content: Option<string>) | Finish(totalTokens: Option<int>)

  datatype TagKind = MessageTag | ImageTag | ToolTag

  /** A call `onChunk(kind, text)`. */
  datatype Event = Chunk(kind: TagKind, text: string)

  function OpenOf(k: TagKind): (t: string)
    ensures |t| > 0
  {
    match k
    case MessageTag => MessageStart
    case ImageTag => ImageStart
    case ToolTag => ToolStart
  }

  function CloseOf(k: TagKind): (t: string)
    ensures |t| > 0
  {
    match k
    case MessageTag => MessageEnd
    case ImageTag => ImageEnd
    case ToolTag => ToolEnd
  }

  /** The section of kind `k` in the reply so far: `getTag` with that record's tags. */
  function Content(k: TagKind, full: string): string {
    GetTag(OpenOf(k), CloseOf(k), full)
  }

  /**
   * How a record's content is recomputed from the reply. `generate` uses
   * `Content`; the reading functions below take it as a parameter so that
   * what they promise about counting and throttling is stated for any way
   * of cutting out a section.
   */
  type Extractor = (TagKind, string) -> string

  /** A tag record's counters: its current content, `chunks` and `sentAt`. */
  datatype Tally = Tally(content: string, chunks: nat, sentAt: nat)

  const Initial := Tally("", 1, 0)

  /** The content has grown past both the last sent length and the next threshold. */
  predicate Crosses(t: Tally, c: string, chunkSize: int) {
    |c| > t.sentAt && |c| > chunkSize * t.chunks
  }

  /** The record after the content is recomputed as `c`. */
  function Step(t: Tally, c: string, chunkSize: int): (u: Tally)
    ensures u.content == c
    ensures Crosses(t, c, chunkSize) ==> u.chunks == t.chunks + 1 && u.sentAt == |c|
    ensures !Crosses(t, c, chunkSize) ==> u.chunks == t.chunks && u.sentAt == t.sentAt
  {
    if Crosses(t, c, chunkSize) then Tally(c, t.chunks + 1, |c|) else t.(content := c)
  }

  /** The record after seeing the contents `cs` in turn. */
  function Fold(cs: seq<string>, chunkSize: int): Tally
    decreases |cs|
  {
    if |cs| == 0 then Initial else Step(Fold(cs[..|cs| - 1], chunkSize), cs[|cs| - 1], chunkSize)
  }

  /**
   * The lengths at which the record crossed, in order. There is one crossing
   * per increment of `chunks`; the k-th (from 1) needed a length above
   * `k * chunkSize`; lengths strictly grow; `sentAt` is the last of them.
   */
  function Crossings(cs: seq<string>, chunkSize: int): (r: seq<nat>)
    ensures Fold(cs, chunkSize).chunks == |r| + 1
    ensures Fold(cs, chunkSize).sentAt == if |r| == 0 then 0 else r[|r| - 1]
    ensures forall k :: 0 <= k < |r| ==> r[k] > chunkSize * (k + 1)
    ensures forall k :: 0 < k < |r| ==> r[k - 1] < r[k]
    decreases |cs|
  {
    if |cs| == 0 then []
    else
      var prev := Crossings(cs[..|cs| - 1], chunkSize);
      if Crosses(Fold(cs[..|cs| - 1], chunkSize), cs[|cs| - 1], chunkSize) then prev + [|cs[|cs| - 1]|] else prev
  }

  /** A record's counters agree with some history of crossings. */
  predicate TallyOk(t: Tally, chunkSize: int) {
    (t.chunks == 1 && t.sentAt == 0) || (t.chunks >= 2 && t.sentAt > chunkSize * (t.chunks - 1))
  }

  /** Every step keeps the counters consistent. */
  lemma StepKeepsTallyOk(t: Tally, c: string, chunkSize: int)
    requires TallyOk(t, chunkSize)
    ensures TallyOk(Step(t, c, chunkSize), chunkSize)
  {
  }

  /** The partial update a step emits: only for non-tool tags, and never in tool-prompt mode. */
  function Emit(k: TagKind, t: Tally, c: string, chunkSize: int, toolGenerate: bool): seq<Event> {
    if Crosses(t, c, chunkSize) && !toolGenerate && k != ToolTag then [Chunk(k, c)] else []
  }

  /** The final flush of one record. */
  function FlushOne(k: TagKind, t: Tally, toolGenerate: bool): seq<Event> {
    if !toolGenerate && |t.content| > t.sentAt && k != ToolTag then [Chunk(k, t.content)] else []
  }

  /** The state of `generate` while reading: the accumulated reply, the three records and the calls made. */
  datatype Live = Live(full: string, message: Tally, image: Tally, tool: Tally, events: seq<Event>)

  const Start := Live("", Initial, Initial, Initial, [])

  /** The partial updates made once the reply has grown to `full`: message, image, tool, in that order. */
  function Updates(l: Live, full: string, chunkSize: int, toolGenerate: bool, extract: Extractor): seq<Event> {
    Emit(MessageTag, l.message, extract(MessageTag, full), chunkSize, toolGenerate)
      + Emit(ImageTag, l.image, extract(ImageTag, full), chunkSize, toolGenerate)
      + Emit(ToolTag, l.tool, extract(ToolTag, full), chunkSize, toolGenerate)
  }

  /** Append one delta, recompute each tag and make the partial updates due. */
  function Feed(l: Live, text: string, chunkSize: int, toolGenerate: bool, extract: Extractor): Live {
    var full := l.full + text;
    Live(full,
      Step(l.message, extract(MessageTag, full), chunkSize),
      Step(l.image, extract(ImageTag, full), chunkSize),
      Step(l.tool, extract(ToolTag, full), chunkSize),
      l.events + Updates(l, full, chunkSize, toolGenerate, extract))
  }

  /** The first `n` frames are all deltas. */
  predicate DeltasBefore(frames: seq<Frame>, n: nat) {
    n <= |frames| && forall k :: 0 <= k < n ==> frames[k].Delta?
  }

  /** The state after reading the first `n` frames, all of them deltas. */
  function Listen(frames: seq<Frame>, n: nat, chunkSize: int, toolGenerate: bool, extract: Extractor): Live
    requires DeltasBefore(frames, n)
    decreases n
  {
    if n == 0 then Start
    else Feed(Listen(frames, n - 1, chunkSize, toolGenerate, extract), frames[n - 1].content.GetOr(""), chunkSize, toolGenerate, extract)
  }

  /** The number of frames read before the first `Finish`, which stops reading. */
  function FirstFinish(frames: seq<Frame>): (n: nat)
    ensures DeltasBefore(frames, n)
    ensures n < |frames| ==> frames[n].Finish?
    decreases |frames|
  {
    if |frames| == 0 || frames[0].Finish? then 0
    else
      var n := 1 + FirstFinish(frames[1..]);
      assert forall i :: 1 <= i < n ==> frames[i] == frames[1..][i - 1];
      n
  }

  /** `usage.total_tokens` of the finishing frame, or 0. */
  function TokensUsed(frames: seq<Frame>): int {
    var n := FirstFinish(frames);
    if n < |frames| then frames[n].totalTokens.GetOr(0) else 0
  }

  /** The state when reading stops. */
  function Read(frames: seq<Frame>, chunkSize: int, toolGenerate: bool, extract: Extractor): Live {
    Listen(frames, FirstFinish(frames), chunkSize, toolGenerate, extract)
  }

  function Flush(l: Live, toolGenerate: bool): seq<Event> {
    FlushOne(MessageTag, l.message, toolGenerate) + FlushOne(ImageTag, l.image, toolGenerate) + FlushOne(ToolTag, l.tool, toolGenerate)
  }

  /** Every `onChunk` call of one `generate`, in order. */
  function Events(frames: seq<Frame>, chunkSize: int, toolGenerate: bool, extract: Extractor): seq<Event> {
    var l := Read(frames, chunkSize, toolGenerate, extract);
    l.events + Flush(l, toolGenerate)
  }

  // ---------------------------------------------------------------------
  // Results
  // ---------------------------------------------------------------------

  /** A decoded tool call; the name is whatever `tool_name` held. */
  datatype ToolCall = ToolCall(name: Json, parameters: seq<(string, Json)>)

  predicate IsScalar(j: Json) {
    j.JString? || j.JNumber?
  }

  /** The entries whose value is a string or a number, in order. */
  function Scalars(es: seq<(string, Json)>): (r: seq<(string, Json)>)
    ensures |r| <= |es|
    decreases |es|
  {
    if |es| == 0 then []
    else (if IsScalar(es[0].1) then [es[0]] else []) + Scalars(es[1..])
  }

  /** An entry is kept exactly when it is given and its value is a string or a number. */
  lemma {:induction false} ScalarsMembers(es: seq<(string, Json)>)
    ensures forall e :: e in Scalars(es) <==> e in es && IsScalar(e.1)
    decreases |es|
  {
    if |es| > 0 {
      ScalarsMembers(es[1..]);
      assert es == [es[0]] + es[1..];
    }
  }

  /** Each kept entry is kept as often as it occurs, and no other entry is. */
  lemma {:induction false} ScalarsCount(es: seq<(string, Json)>)
    ensures forall e :: multiset(Scalars(es))[e] == if IsScalar(e.1) then multiset(es)[e] else 0
    decreases |es|
  {
    if |es| > 0 {
      ScalarsCount(es[1..]);
      assert es == [es[0]] + es[1..];
    }
  }

  /** Filtering keeps the order: the scalars of a concatenation are the scalars of each part, in turn. */
  lemma {:induction false} ScalarsAppend(a: seq<(string, Json)>, b: seq<(string, Json)>)
    ensures Scalars(a + b) == Scalars(a) + Scalars(b)
    decreases |a|
  {
    if |a| == 0 {
      assert a + b == b;
    } else {
      var head := if IsScalar(a[0].1) then [a[0]] else [];
      var ab := a + b;
      assert ab[0] == a[0] && ab[1..] == a[1..] + b;
      assert Scalars(ab) == head + Scalars(a[1..] + b);
      ScalarsAppend(a[1..], b);
      assert Scalars(a) == head + Scalars(a[1..]);
      assert head + (Scalars(a[1..]) + Scalars(b)) == (head + Scalars(a[1..])) + Scalars(b);
    }
  }

  /** One entry is kept exactly when its value is a string or a number. */
  lemma ScalarsSingle(e: (string, Json))
    ensures Scalars([e]) == if IsScalar(e.1) then [e] else []
  {
    assert [e][1..] == [];
  }

  /**
   * The tool call in a tool section. `parse` is `JSON.parse`, with `None`
   * where it throws. The `in` tests throw on anything but an object or an
   * array, and `Object.entries` throws on `null`; every throw is caught and
   * gives no tool.
   */
  function ParseTool(text: string, parse: Parser): (r: Option<ToolCall>)
    ensures r.Some? ==> Trim(text) != "" && parse(text).Some? && parse(text).value.JObject?
    ensures r.Some? ==> var ms := parse(text).value.members;
      HasKey(ms, "tool_name") && HasKey(ms, "parameters")
      && r.value.name == Lookup(ms, "tool_name")
      && Entries(Lookup(ms, "parameters")).Some?
      && r.value.parameters == Scalars(Entries(Lookup(ms, "parameters")).value)
      && forall e :: e in r.value.parameters <==> e in Entries(Lookup(ms, "parameters")).value && IsScalar(e.1)
    ensures r.None? <==>
      Trim(text) == "" || parse(text).None? || !parse(text).value.JObject?
      || !HasKey(parse(text).value.members, "tool_name") || !HasKey(parse(text).value.members, "parameters")
      || Lookup(parse(text).value.members, "parameters").JNull?
  {
    if Trim(text) == "" then None
    else match parse(text)
      case None => None
      case Some(j) =>
        if j.JObject? && HasKey(j.members, "tool_name") && HasKey(j.members, "parameters") then
          match Entries(Lookup(j.members, "parameters"))
          case None => None
          case Some(es) => ScalarsMembers(es); Some(ToolCall(Lookup(j.members, "tool_name"), Scalars(es)))
        else None
  }

  /** `JSON.stringify(tool)`: the keys are `name` and `parameters`. */
  function ToolJson(t: ToolCall): Json {
    JObject([("name", t.name), ("parameters", JObject(t.parameters))])
  }

  /** The image URL: the trimmed image section, or none when it is blank. */
  function ImageOf(content: string): (r: Option<string>)
    ensures r.None? <==> Trim(content) == ""
    ensures r.Some? ==> r.value == Trim(content) && r.value != ""
  {
    if Trim(content) == "" then None else Some(Trim(content))
  }

  function ToolSection(tool: Option<ToolCall>): string {
    if tool.Some? then "\n" + ToolStart + "\n" + Stringify(ToolJson(tool.value)) + "\n" + ToolEnd else ""
  }

  function AttachmentSection(image: Option<string>): string {
    if image.Some? && image.value != "" then "\n" + ImageStart + "\n" + image.value + "\n" + ImageEnd else ""
  }

  /** The canonical text of a reply: message section, then tool and attachment sections when present. */
  function Raw(message: string, tool: Option<ToolCall>, image: Option<string>): string {
    MessageStart + "\n" + message + "\n" + MessageEnd + ToolSection(tool) + AttachmentSection(image)
  }

  datatype GenerateResponse = GenerateResponse(
    message: string, image: Option<string>, tool: Option<ToolCall>, raw: string, tokensUsed: int, unprocessed: string)

  /** The result assembled from the records once reading stopped. */
  function Outcome(l: Live, tokensUsed: int, parse: Parser): GenerateResponse {
    var image := ImageOf(l.image.content);
    var tool := ParseTool(l.tool.content, parse);
    GenerateResponse(l.message.content, image, tool, Raw(l.message.content, tool, image), tokensUsed, l.full)
  }

  /** What `generate` returns for a stream. */
  function Response(frames: seq<Frame>, chunkSize: int, toolGenerate: bool, extract: Extractor,
                    parse: Parser): GenerateResponse {
    Outcome(Read(frames, chunkSize, toolGenerate, extract), TokensUsed(frames), parse)
  }

  // ---------------------------------------------------------------------
  // The imperative core of generate
  // ---------------------------------------------------------------------

  /** One of the three tag records, updated in place as the reply grows. */
  class TagState {
    const kind: TagKind
    var content: string
    var chunks: nat
    var sentAt: nat

    function Current(): Tally
      reads this
    {
      Tally(content, chunks, sentAt)
    }

    constructor(kind: TagKind)
      ensures this.kind == kind && Current() == Initial
    {
      this.kind := kind;
      content := "";
      chunks := 1;
      sentAt := 0;
    }

    /** Recompute the content from the reply so far; emit and advance the counters on a crossing. */
    method Observe(c: string, chunkSize: int, toolGenerate: bool) returns (emitted: seq<Event>)
      modifies this
      ensures Current() == Step(old(Current()), c, chunkSize)
      ensures emitted == Emit(kind, old(Current()), c, chunkSize, toolGenerate)
    {
      content := c;
      emitted := [];
      if |content| > sentAt && |content| > chunkSize * chunks {
        if !toolGenerate && kind != ToolTag {
          emitted := [Chunk(kind, content)];
        }
        chunks := chunks + 1;
        sentAt := |content|;
      }
    }

    /** The final flush: send what grew since the last update, for non-tool tags only. */
    method FlushRemainder(toolGenerate: bool) returns (emitted: seq<Event>)
      ensures emitted == FlushOne(kind, Current(), toolGenerate)
    {
      emitted := [];
      if !toolGenerate && |content| > sentAt && kind != ToolTag {
        emitted := [Chunk(kind, content)];
      }
    }
  }

  /** The three records together with the reply and the calls so far. */
  function Snapshot(full: string, message: TagState, image: TagState, tool: TagState, events: seq<Event>): Live
    reads message, image, tool
  {
    Live(full, message.Current(), image.Current(), tool.Current(), events)
  }

  /** Handle one delta: extend the reply, then recompute message, image and tool in that order. */
  method Advance(full: string, events: seq<Event>, text: string, message: TagState, image: TagState, tool: TagState,
                 chunkSize: int, toolGenerate: bool) returns (full': string, events': seq<Event>)
    requires message.kind == MessageTag && image.kind == ImageTag && tool.kind == ToolTag
    requires message != image && image != tool && message != tool
    modifies message, image, tool
    ensures Snapshot(full', message, image, tool, events')
      == Feed(old(Snapshot(full, message, image, tool, events)), text, chunkSize, toolGenerate, Content)
  {
    full' := full + text;
    var e1 := message.Observe(Content(MessageTag, full'), chunkSize, toolGenerate);
    var e2 := image.Observe(Content(ImageTag, full'), chunkSize, toolGenerate);
    var e3 := tool.Observe(Content(ToolTag, full'), chunkSize, toolGenerate);
    events' := events + (e1 + e2 + e3);
  }

  /** Read deltas until the first finishing frame, feeding each to `Advance`. */
  method ReadStream(frames: seq<Frame>, message: TagState, image: TagState, tool: TagState,
                    chunkSize: int, toolGenerate: bool) returns (n: nat, full: string, events: seq<Event>)
    requires message.kind == MessageTag && image.kind == ImageTag && tool.kind == ToolTag
    requires message != image && image != tool && message != tool
    requires message.Current() == Initial && image.Current() == Initial && tool.Current() == Initial
    modifies message, image, tool
    ensures n == FirstFinish(frames)
    ensures Snapshot(full, message, image, tool, events) == Read(frames, chunkSize, toolGenerate, Content)
  {
    full := "";
    events := [];
    n := 0;
    while n < |frames| && frames[n].Delta?
      invariant DeltasBefore(frames, n)
      invariant Listen(frames, n, chunkSize, toolGenerate, Content) == Snapshot(full, message, image, tool, events)
    {
      full, events := Advance(full, events, frames[n].content.GetOr(""), message, image, tool, chunkSize, toolGenerate);
      n := n + 1;
    }
    FirstFinishIs(frames, n);
  }

  /** Read the stream, updating the three tag records, then flush and assemble the result. */
  method Generate(frames: seq<Frame>, chunkSize: int, toolGenerate: bool, parse: Parser)
    returns (res: GenerateResponse, events: seq<Event>)
    ensures res == Response(frames, chunkSize, toolGenerate, Content, parse)
    ensures events == Events(frames, chunkSize, toolGenerate, Content)
  {
    var message := new TagState(MessageTag);
    var image := new TagState(ImageTag);
    var tool := new TagState(ToolTag);
    var n, full;
    n, full, events := ReadStream(frames, message, image, tool, chunkSize, toolGenerate);
    var tokensUsed := 0;
    if n < |frames| {
      tokensUsed := frames[n].totalTokens.GetOr(0);
    }
    var f1 := message.FlushRemainder(toolGenerate);
    var f2 := image.FlushRemainder(toolGenerate);
    var f3 := tool.FlushRemainder(toolGenerate);
    events := events + (f1 + f2 + f3);
    res := Outcome(Snapshot(full, message, image, tool, events), tokensUsed, parse);
  }

  lemma FirstFinishIs(frames: seq<Frame>, i: nat)
    requires DeltasBefore(frames, i) && (i < |frames| ==> frames[i].Finish?)
    ensures FirstFinish(frames) == i
    decreases i
  {
    if i > 0 {
      assert frames[0].Delta?;
      assert forall k :: 0 <= k < i - 1 ==> frames[1..][k] == frames[k + 1];
      FirstFinishIs(frames[1..], i - 1);
    }
  }
}
