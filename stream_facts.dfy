/**
 * What the streaming reader of `generate` guarantees: the tag records count
 * the throttled crossings, partial updates never carry the tool section,
 * reading stops at the first finishing frame, and the canonical `raw` text
 * reads back to the sections it was built from.
 */
module StreamFacts {
  import opened Wrappers
  import opened Strings
  import opened Json
  import opened Prompt
  import opened Api

  // ---------------------------------------------------------------------
  // What the records hold
  // ---------------------------------------------------------------------

  /** The reply accumulated from the first `n` frames, all deltas. */
  function Received(frames: seq<Frame>, n: nat): string
    requires DeltasBefore(frames, n)
    decreases n
  {
    if n == 0 then "" else Received(frames, n - 1) + frames[n - 1].content.GetOr("")
  }

  /** The record kept for section `k`. */
  function Record(l: Live, k: TagKind): Tally {
    match k
    case MessageTag => l.message
    case ImageTag => l.image
    case ToolTag => l.tool
  }

  /** The contents of section `k`, recomputed after each of the first `n` deltas. */
  function Seen(k: TagKind, frames: seq<Frame>, n: nat, extract: Extractor): (r: seq<string>)
    requires DeltasBefore(frames, n)
    ensures |r| == n
    decreases n
  {
    if n == 0 then [] else Seen(k, frames, n - 1, extract) + [extract(k, Received(frames, n))]
  }

  lemma FoldAppend(cs: seq<string>, c: string, chunkSize: int)
    ensures Fold(cs + [c], chunkSize) == Step(Fold(cs, chunkSize), c, chunkSize)
  {
    assert (cs + [c])[..|cs|] == cs;
  }

  /** The latest content of a record is the last content it was given, or "" at first. */
  lemma FoldContent(cs: seq<string>, chunkSize: int)
    ensures Fold(cs, chunkSize).content == if |cs| == 0 then "" else cs[|cs| - 1]
  {
  }

  /**
   * After `n` deltas the reply is their concatenation, and each record is
   * the fold of `Step` over the contents its section had after each delta.
   */
  lemma {:induction false} ListenTracks(frames: seq<Frame>, n: nat, chunkSize: int, toolGenerate: bool, extract: Extractor)
    requires DeltasBefore(frames, n)
    ensures Listen(frames, n, chunkSize, toolGenerate, extract).full == Received(frames, n)
    ensures forall k :: Record(Listen(frames, n, chunkSize, toolGenerate, extract), k) == Fold(Seen(k, frames, n, extract), chunkSize)
    decreases n
  {
    if n > 0 {
      ListenTracks(frames, n - 1, chunkSize, toolGenerate, extract);
      var l := Listen(frames, n - 1, chunkSize, toolGenerate, extract);
      var text := frames[n - 1].content.GetOr("");
      assert Listen(frames, n, chunkSize, toolGenerate, extract) == Feed(l, text, chunkSize, toolGenerate, extract);
      assert Received(frames, n) == l.full + text;
      forall k ensures Record(Listen(frames, n, chunkSize, toolGenerate, extract), k) == Fold(Seen(k, frames, n, extract), chunkSize) {
        RecordFeed(l, text, chunkSize, toolGenerate, extract, k);
        FoldAppend(Seen(k, frames, n - 1, extract), extract(k, l.full + text), chunkSize);
      }
    }
  }

  /** One delta steps each record with its section of the grown reply. */
  lemma RecordFeed(l: Live, text: string, chunkSize: int, toolGenerate: bool, extract: Extractor, k: TagKind)
    ensures Record(Feed(l, text, chunkSize, toolGenerate, extract), k) == Step(Record(l, k), extract(k, l.full + text), chunkSize)
  {
  }

  /**
   * When reading stops, each record (the tool's included) has `chunks` one
   * more than its number of crossings; the j-th crossing (from 1) happened
   * at a length above `j * chunkSize`, at strictly growing lengths; `sentAt`
   * is the last of them; and the content is the section of the whole reply.
   */
  lemma ReadRecords(frames: seq<Frame>, chunkSize: int, toolGenerate: bool, extract: Extractor, k: TagKind)
    ensures var n := FirstFinish(frames);
      var t := Record(Read(frames, chunkSize, toolGenerate, extract), k);
      var cs := Crossings(Seen(k, frames, n, extract), chunkSize);
      t.chunks == |cs| + 1
      && t.sentAt == (if |cs| == 0 then 0 else cs[|cs| - 1])
      && (forall j :: 0 <= j < |cs| ==> cs[j] > chunkSize * (j + 1))
      && (forall j :: 0 < j < |cs| ==> cs[j - 1] < cs[j])
      && t.content == (if n == 0 then "" else extract(k, Received(frames, n)))
  {
    var n := FirstFinish(frames);
    ListenTracks(frames, n, chunkSize, toolGenerate, extract);
    FoldContent(Seen(k, frames, n, extract), chunkSize);
  }

  // ---------------------------------------------------------------------
  // Which updates are made
  // ---------------------------------------------------------------------

  /** The number of `onChunk` calls for section `k`. */
  function Count(es: seq<Event>, k: TagKind): nat
    decreases |es|
  {
    if |es| == 0 then 0 else (if es[0].kind == k then 1 else 0) + Count(es[1..], k)
  }

  lemma CountSingle(e: Event, k: TagKind)
    ensures Count([e], k) == if e.kind == k then 1 else 0
  {
    assert [e][1..] == [];
  }

  lemma {:induction false} CountAppend(a: seq<Event>, b: seq<Event>, k: TagKind)
    ensures Count(a + b, k) == Count(a, k) + Count(b, k)
    decreases |a|
  {
    if |a| > 0 {
      assert (a + b)[1..] == a[1..] + b;
      CountAppend(a[1..], b, k);
    } else {
      assert a + b == b;
    }
  }

  /** No call is for the tool section. */
  predicate NoToolEvent(es: seq<Event>) {
    forall i :: 0 <= i < |es| ==> es[i].kind != ToolTag
  }

  /**
   * One delta makes at most one update per section, none for the tool and
   * none in tool-prompt mode; a section is updated exactly when its record
   * advanced.
   */
  lemma UpdatesFacts(l: Live, full: string, chunkSize: int, toolGenerate: bool, extract: Extractor)
    ensures var u := Updates(l, full, chunkSize, toolGenerate, extract);
      NoToolEvent(u) && (toolGenerate ==> u == [])
      && (forall k :: Count(u, k) <= 1)
      && (!toolGenerate ==>
           Count(u, MessageTag) == Step(l.message, extract(MessageTag, full), chunkSize).chunks - l.message.chunks
           && Count(u, ImageTag) == Step(l.image, extract(ImageTag, full), chunkSize).chunks - l.image.chunks)
  {
    var e1 := Emit(MessageTag, l.message, extract(MessageTag, full), chunkSize, toolGenerate);
    var e2 := Emit(ImageTag, l.image, extract(ImageTag, full), chunkSize, toolGenerate);
    var e3 := Emit(ToolTag, l.tool, extract(ToolTag, full), chunkSize, toolGenerate);
    assert e3 == [];
    assert Updates(l, full, chunkSize, toolGenerate, extract) == e1 + e2 + e3;
    forall k ensures Count(e1 + e2 + e3, k) == Count(e1, k) + Count(e2, k) <= 1 {
      CountAppend(e1, e2, k);
      CountAppend(e1 + e2, e3, k);
      if e1 != [] { CountSingle(e1[0], k); }
      if e2 != [] { CountSingle(e2[0], k); }
    }
  }

  /**
   * Before the flush, the calls for the message and for the image number
   * exactly their records' crossings (`chunks - 1`); there are none for the
   * tool, and none at all in tool-prompt mode.
   */
  lemma {:induction false} ListenEvents(frames: seq<Frame>, n: nat, chunkSize: int, toolGenerate: bool, extract: Extractor)
    requires DeltasBefore(frames, n)
    ensures var l := Listen(frames, n, chunkSize, toolGenerate, extract);
      NoToolEvent(l.events) && (toolGenerate ==> l.events == [])
      && (!toolGenerate ==> Count(l.events, MessageTag) == l.message.chunks - 1
                            && Count(l.events, ImageTag) == l.image.chunks - 1)
    decreases n
  {
    if n > 0 {
      var l := Listen(frames, n - 1, chunkSize, toolGenerate, extract);
      var text := frames[n - 1].content.GetOr("");
      ListenEvents(frames, n - 1, chunkSize, toolGenerate, extract);
      assert Listen(frames, n, chunkSize, toolGenerate, extract) == Feed(l, text, chunkSize, toolGenerate, extract);
      FeedEvents(l, text, chunkSize, toolGenerate, extract);
    }
  }

  /** One delta keeps the calls in step with the records' crossings. */
  lemma FeedEvents(l: Live, text: string, chunkSize: int, toolGenerate: bool, extract: Extractor)
    requires NoToolEvent(l.events) && (toolGenerate ==> l.events == [])
    requires !toolGenerate ==> Count(l.events, MessageTag) == l.message.chunks - 1
                               && Count(l.events, ImageTag) == l.image.chunks - 1
    ensures var l' := Feed(l, text, chunkSize, toolGenerate, extract);
      NoToolEvent(l'.events) && (toolGenerate ==> l'.events == [])
      && (!toolGenerate ==> Count(l'.events, MessageTag) == l'.message.chunks - 1
                            && Count(l'.events, ImageTag) == l'.image.chunks - 1)
  {
    var full := l.full + text;
    var u := Updates(l, full, chunkSize, toolGenerate, extract);
    UpdatesFacts(l, full, chunkSize, toolGenerate, extract);
    assert NoToolEvent(l.events + u) by {
      assert forall i :: |l.events| <= i < |l.events + u| ==> (l.events + u)[i] == u[i - |l.events|];
    }
    CountAppend(l.events, u, MessageTag);
    CountAppend(l.events, u, ImageTag);
  }

  /**
   * The final flush calls `onChunk` at most once per section, never for the
   * tool and never in tool-prompt mode; for the message and the image it
   * calls exactly when the content grew past `sentAt`, and with that content.
   */
  lemma FlushFacts(l: Live, toolGenerate: bool)
    ensures var f := Flush(l, toolGenerate);
      NoToolEvent(f) && (toolGenerate ==> f == [])
      && (forall k :: Count(f, k) <= 1)
      && (forall k :: k != ToolTag ==>
            (Count(f, k) == 1 <==> !toolGenerate && |Record(l, k).content| > Record(l, k).sentAt))
      && (forall i :: 0 <= i < |f| ==> f[i].text == Record(l, f[i].kind).content)
  {
    var f1 := FlushOne(MessageTag, l.message, toolGenerate);
    var f2 := FlushOne(ImageTag, l.image, toolGenerate);
    var f3 := FlushOne(ToolTag, l.tool, toolGenerate);
    assert f3 == [];
    assert Flush(l, toolGenerate) == f1 + f2 + f3;
    forall k ensures Count(f1 + f2 + f3, k) == Count(f1, k) + Count(f2, k) <= 1 {
      CountAppend(f1, f2, k);
      CountAppend(f1 + f2, f3, k);
      if f1 != [] { CountSingle(f1[0], k); }
      if f2 != [] { CountSingle(f2[0], k); }
    }
  }

  /**
   * All calls of one `generate`: none for the tool and none in tool-prompt
   * mode; for the message (and likewise the image) one per crossing of its
   * record plus one more when the final content outgrew `sentAt`.
   */
  lemma EventsFacts(frames: seq<Frame>, chunkSize: int, toolGenerate: bool, extract: Extractor)
    ensures var es := Events(frames, chunkSize, toolGenerate, extract);
      var l := Read(frames, chunkSize, toolGenerate, extract);
      NoToolEvent(es) && (toolGenerate ==> es == [])
      && (!toolGenerate ==>
            Count(es, MessageTag) == l.message.chunks - 1 + (if |l.message.content| > l.message.sentAt then 1 else 0)
            && Count(es, ImageTag) == l.image.chunks - 1 + (if |l.image.content| > l.image.sentAt then 1 else 0))
  {
    var l := Read(frames, chunkSize, toolGenerate, extract);
    var f := Flush(l, toolGenerate);
    ListenEvents(frames, FirstFinish(frames), chunkSize, toolGenerate, extract);
    FlushFacts(l, toolGenerate);
    CountAppend(l.events, f, MessageTag);
    CountAppend(l.events, f, ImageTag);
    assert forall i :: |l.events| <= i < |l.events + f| ==> (l.events + f)[i] == f[i - |l.events|];
  }

  // ---------------------------------------------------------------------
  // Where reading stops
  // ---------------------------------------------------------------------

  /** The state after `n` deltas depends on those frames only. */
  lemma {:induction false} ListenPrefix(a: seq<Frame>, b: seq<Frame>, n: nat, chunkSize: int, toolGenerate: bool, extract: Extractor)
    requires DeltasBefore(a, n) && n <= |b| && a[..n] == b[..n]
    ensures DeltasBefore(b, n)
    ensures Listen(a, n, chunkSize, toolGenerate, extract) == Listen(b, n, chunkSize, toolGenerate, extract)
    decreases n
  {
    forall k | 0 <= k < n ensures b[k] == a[k] {
      assert a[..n][k] == b[..n][k];
    }
    if n > 0 {
      assert a[..n - 1] == a[..n][..n - 1];
      assert b[..n - 1] == b[..n][..n - 1];
      ListenPrefix(a, b, n - 1, chunkSize, toolGenerate, extract);
    }
  }

  /**
   * Reading stops at the first finishing frame: whatever follows it is
   * ignored, the result is what the deltas before it give, `tokensUsed` is
   * that frame's total (0 if it has none), and `unprocessed` is the
   * concatenated deltas.
   */
  lemma FinishEndsReading(deltas: seq<Frame>, f: Frame, rest: seq<Frame>,
                          chunkSize: int, toolGenerate: bool, extract: Extractor, parse: Parser)
    requires forall i :: 0 <= i < |deltas| ==> deltas[i].Delta?
    requires f.Finish?
    ensures var frames := deltas + [f] + rest;
      var r := Response(frames, chunkSize, toolGenerate, extract, parse);
      FirstFinish(frames) == |deltas|
      && Read(frames, chunkSize, toolGenerate, extract) == Read(deltas, chunkSize, toolGenerate, extract)
      && Events(frames, chunkSize, toolGenerate, extract) == Events(deltas, chunkSize, toolGenerate, extract)
      && r == Response(deltas, chunkSize, toolGenerate, extract, parse).(tokensUsed := f.totalTokens.GetOr(0))
      && r.tokensUsed == f.totalTokens.GetOr(0)
      && r.unprocessed == Received(deltas, |deltas|)
  {
    var frames := deltas + [f] + rest;
    FinishStops(deltas, f, rest);
    ReadStops(deltas, f, rest, chunkSize, toolGenerate, extract);
    assert Read(deltas, chunkSize, toolGenerate, extract).full == Received(deltas, |deltas|) by {
      ListenTracks(deltas, |deltas|, chunkSize, toolGenerate, extract);
    }
  }

  /** The first finishing frame is the one after the deltas; its total is the one reported. */
  lemma FinishStops(deltas: seq<Frame>, f: Frame, rest: seq<Frame>)
    requires forall i :: 0 <= i < |deltas| ==> deltas[i].Delta?
    requires f.Finish?
    ensures FirstFinish(deltas + [f] + rest) == |deltas| == FirstFinish(deltas)
    ensures TokensUsed(deltas + [f] + rest) == f.totalTokens.GetOr(0)
  {
    var frames := deltas + [f] + rest;
    var n := |deltas|;
    assert frames[n] == f;
    assert forall k :: 0 <= k < n ==> frames[k] == deltas[k];
    FirstFinishIs(frames, n);
    FirstFinishIs(deltas, n);
  }

  /** What follows the deltas does not change the state reading stops in. */
  lemma ReadStops(deltas: seq<Frame>, f: Frame, rest: seq<Frame>, chunkSize: int, toolGenerate: bool, extract: Extractor)
    requires forall i :: 0 <= i < |deltas| ==> deltas[i].Delta?
    requires f.Finish?
    ensures Read(deltas + [f] + rest, chunkSize, toolGenerate, extract) == Read(deltas, chunkSize, toolGenerate, extract)
  {
    var frames := deltas + [f] + rest;
    var n := |deltas|;
    FinishStops(deltas, f, rest);
    assert frames[..n] == deltas[..n];
    ListenPrefix(frames, deltas, n, chunkSize, toolGenerate, extract);
  }

  /** A stream that ends without a finishing frame reports no tokens. */
  lemma NoFinishNoTokens(frames: seq<Frame>, chunkSize: int, toolGenerate: bool, extract: Extractor, parse: Parser)
    requires forall i :: 0 <= i < |frames| ==> frames[i].Delta?
    ensures FirstFinish(frames) == |frames|
    ensures Response(frames, chunkSize, toolGenerate, extract, parse).tokensUsed == 0
  {
    FirstFinishIs(frames, |frames|);
  }
}
