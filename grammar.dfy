/**
 * The decoding grammar handed to the inference server, as the language it
 * admits. A derivation of `root` is a `Reply`; `Render` writes it out as the
 * text the constrained model emits, and `Admits` is membership in the
 * language. The lemmas show that the section demultiplexer reads every
 * admitted text back: each section `getTag` cuts out is the trimmed body
 * the derivation put there, and a missing section reads as "".
 */
module Grammar {
  import opened Wrappers
  import opened Strings
  import opened Json
  import opened Prompt
  import opened Api
  import opened RawFacts

  // ---------------------------------------------------------------------
  // Terminals
  // ---------------------------------------------------------------------

  /** `par-any ::= [^σ̌]+`: one or more characters, neither wrapper code point among them. */
  predicate ParAny(s: string) {
    |s| > 0 && WrapperFree(s)
  }

  /** `par-name ::= [a-z_]+`, the same alphabet as the tag names. */
  predicate ParName(s: string) {
    IsTagName(s)
  }

  /** `par-number ::= [0-9]+` */
  predicate ParNumber(s: string) {
    |s| > 0 && forall i :: 0 <= i < |s| ==> '0' <= s[i] <= '9'
  }

  /** `par-url ::= "http" par-any` */
  predicate ParUrl(s: string) {
    |s| > 4 && s[..4] == "http" && ParAny(s[4..])
  }

  // ---------------------------------------------------------------------
  // Derivations
  // ---------------------------------------------------------------------

  /** One alternative of `(par-string | par-number)`. */
  datatype Value = Str(text: string) | Num(digits: string)

  /** `par-s-param ::= "\"" par-name "\":" (par-string | par-number)*` */
  datatype Param = Param(name: string, values: seq<Value>)

  /** The body of the tool section: `par-tool` or the empty alternative. */
  datatype ToolBody = NoCall | Call(name: string, params: seq<Param>)

  /** The body of the attachment section: `par-url` or the empty alternative. */
  datatype Attachment = NoUrl | Url(url: string)

  /** The five alternatives of `root`. */
  datatype Reply =
    | Message(body: string)
    | Tool(tool: ToolBody)
    | ToolMessage(tool: ToolBody, body: string)
    | MessageAttachment(body: string, attachment: Attachment)
    | ToolMessageAttachment(tool: ToolBody, body: string, attachment: Attachment)
  {
    predicate HasMessage() { !Tool? }
    predicate HasTool() { Tool? || ToolMessage? || ToolMessageAttachment? }
    predicate HasAttachment() { MessageAttachment? || ToolMessageAttachment? }
  }

  predicate ValueOk(v: Value) {
    match v
    case Str(t) => ParAny(t)
    case Num(d) => ParNumber(d)
  }

  predicate ParamOk(p: Param) {
    ParName(p.name) && forall i :: 0 <= i < |p.values| ==> ValueOk(p.values[i])
  }

  predicate ToolBodyOk(t: ToolBody) {
    match t
    case NoCall => true
    case Call(n, ps) => ParName(n) && forall i :: 0 <= i < |ps| ==> ParamOk(ps[i])
  }

  predicate AttachmentOk(a: Attachment) {
    match a
    case NoUrl => true
    case Url(u) => ParUrl(u)
  }

  /** Every terminal of the derivation matches its production. */
  predicate ReplyOk(r: Reply) {
    (r.HasMessage() ==> ParAny(r.body))
    && (r.HasTool() ==> ToolBodyOk(r.tool))
    && (r.HasAttachment() ==> AttachmentOk(r.attachment))
  }

  // ---------------------------------------------------------------------
  // The text a derivation stands for
  // ---------------------------------------------------------------------

  function RenderValue(v: Value): string {
    match v
    case Str(t) => "\"" + t + "\""
    case Num(d) => d
  }

  function RenderValues(vs: seq<Value>): string
    decreases |vs|
  {
    if |vs| == 0 then "" else RenderValue(vs[0]) + RenderValues(vs[1..])
  }

  function RenderParam(p: Param): string {
    "\"" + p.name + "\":" + RenderValues(p.values)
  }

  /** `par-params?`: the parameters separated by commas, or nothing. */
  function RenderParams(ps: seq<Param>): string {
    Join(seq(|ps|, i requires 0 <= i < |ps| => RenderParam(ps[i])), ",")
  }

  function RenderToolBody(t: ToolBody): string {
    match t
    case NoCall => ""
    case Call(n, ps) => "{\"tool_name\":\"" + n + "\",\"parameters\":{" + RenderParams(ps) + "}}"
  }

  function RenderAttachment(a: Attachment): string {
    match a
    case NoUrl => ""
    case Url(u) => u
  }

  /** `sec-message ::= MESSAGE_START "\n" par-any "\n" MESSAGE_END "\n"` */
  function SecMessage(body: string): string {
    MessageStart + "\n" + body + "\n" + MessageEnd + "\n"
  }

  /** `sec-tool ::= TOOL_START "\n" (par-tool | "") "\n" TOOL_END "\n"` */
  function SecTool(t: ToolBody): string {
    ToolStart + "\n" + RenderToolBody(t) + "\n" + ToolEnd + "\n"
  }

  /** `sec-attachment ::= IMAGE_START "\n" (par-url | "") "\n" IMAGE_END` */
  function SecAttachment(a: Attachment): string {
    ImageStart + "\n" + RenderAttachment(a) + "\n" + ImageEnd
  }

  function Render(r: Reply): string {
    match r
    case Message(b) => SecMessage(b)
    case Tool(t) => SecTool(t)
    case ToolMessage(t, b) => SecTool(t) + SecMessage(b)
    case MessageAttachment(b, a) => SecMessage(b) + SecAttachment(a)
    case ToolMessageAttachment(t, b, a) => SecTool(t) + SecMessage(b) + SecAttachment(a)
  }

  /**
   * The language of the grammar. It takes no argument: the grammar is one
   * constant text, whatever tools are offered to the model.
   */
  ghost predicate Admits(s: string) {
    exists r :: ReplyOk(r) && Render(r) == s
  }

  // ---------------------------------------------------------------------
  // Bodies are free of tags
  // ---------------------------------------------------------------------

  /** Text of ASCII characters only. */
  predicate Ascii(s: string) {
    forall i :: 0 <= i < |s| ==> s[i] as int < 128
  }

  lemma AsciiFree(s: string)
    requires Ascii(s)
    ensures WrapperFree(s)
  {
  }

  lemma {:induction false} ValuesFree(vs: seq<Value>)
    requires forall i :: 0 <= i < |vs| ==> ValueOk(vs[i])
    ensures WrapperFree(RenderValues(vs))
    decreases |vs|
  {
    if |vs| > 0 {
      assert forall i :: 0 <= i < |vs| - 1 ==> vs[1..][i] == vs[i + 1];
      ValuesFree(vs[1..]);
      assert WrapperFree(RenderValue(vs[0])) by {
        match vs[0]
        case Str(t) =>
          AsciiFree("\"");
          AvoidsConcat("\"", t, Wrapper);
          AvoidsConcat("\"" + t, "\"", Wrapper);
        case Num(d) =>
      }
      AvoidsConcat(RenderValue(vs[0]), RenderValues(vs[1..]), Wrapper);
    }
  }

  lemma ParamFree(p: Param)
    requires ParamOk(p)
    ensures WrapperFree(RenderParam(p))
  {
    ValuesFree(p.values);
    AsciiFree("\"");
    AsciiFree("\":");
    AvoidsConcat("\"", p.name, Wrapper);
    AvoidsConcat("\"" + p.name, "\":", Wrapper);
    AvoidsConcat("\"" + p.name + "\":", RenderValues(p.values), Wrapper);
  }

  /** A well-formed tool body holds no wrapper character. */
  lemma ToolBodyFree(t: ToolBody)
    requires ToolBodyOk(t)
    ensures WrapperFree(RenderToolBody(t))
  {
    match t
    case NoCall =>
    case Call(n, ps) =>
      var parts := seq(|ps|, i requires 0 <= i < |ps| => RenderParam(ps[i]));
      forall i | 0 <= i < |ps| ensures Avoids(parts[i], Wrapper) {
        ParamFree(ps[i]);
      }
      AsciiFree(",");
      AvoidsJoin(parts, ",", Wrapper);
      var a, b, c := "{\"tool_name\":\"", "\",\"parameters\":{", "}}";
      AsciiFree(a);
      AsciiFree(b);
      AsciiFree(c);
      AvoidsConcat(a, n, Wrapper);
      AvoidsConcat(a + n, b, Wrapper);
      AvoidsConcat(a + n + b, RenderParams(ps), Wrapper);
      AvoidsConcat(a + n + b + RenderParams(ps), c, Wrapper);
  }

  lemma AttachmentFree(a: Attachment)
    requires AttachmentOk(a)
    ensures WrapperFree(RenderAttachment(a))
  {
    match a
    case NoUrl =>
    case Url(u) =>
      assert u == u[..4] + u[4..];
      AsciiFree(u[..4]);
      AvoidsConcat(u[..4], u[4..], Wrapper);
  }

  /** Wrapper-free text holds none of the six section tags. */
  lemma FreeLacksTags(s: string)
    requires WrapperFree(s)
    ensures !Contains(s, MessageStart) && !Contains(s, MessageEnd)
    ensures !Contains(s, ToolStart) && !Contains(s, ToolEnd)
    ensures !Contains(s, ImageStart) && !Contains(s, ImageEnd)
  {
    WrapperFreeLacksTag(s, "message_start");
    WrapperFreeLacksTag(s, "message_end");
    WrapperFreeLacksTag(s, "tool_call_start");
    WrapperFreeLacksTag(s, "tool_call_end");
    WrapperFreeLacksTag(s, "attachment_start");
    WrapperFreeLacksTag(s, "attachment_end");
  }

  // ---------------------------------------------------------------------
  // Reading admitted text back
  // ---------------------------------------------------------------------

  /** A section of three lines and a newline lacks a tag that none of its lines holds. */
  lemma SectionLacks(a: string, b: string, c: string, t: string)
    requires |t| > 0 && '\n' !in t
    requires !Contains(a, t) && !Contains(b, t) && !Contains(c, t)
    ensures !Contains(a + "\n" + b + "\n" + c + "\n", t)
  {
    ShortLacks("", t);
    LinesLack(a + "\n" + b + "\n" + c + "\n" + "", a, b, c, "", t);
    assert a + "\n" + b + "\n" + c + "\n" + "" == a + "\n" + b + "\n" + c + "\n";
  }

  /** The message tag holds no newline and does not occur in the tool tags. */
  lemma MessageTagApart()
    ensures '\n' !in MessageStart && !Contains(ToolStart, MessageStart) && !Contains(ToolEnd, MessageStart)
  {
    NewlineNotInTag("message_start");
    TagNotInTag("tool_call_start", "message_start");
    TagNotInTag("tool_call_end", "message_start");
  }

  /** The tool section holds no message or attachment tag. */
  lemma SecToolLacks(t: ToolBody)
    requires ToolBodyOk(t)
    ensures !Contains(SecTool(t), MessageStart) && !Contains(SecTool(t), ImageStart)
  {
    var j := RenderToolBody(t);
    assert !Contains(j, MessageStart) && !Contains(j, ImageStart) by {
      ToolBodyFree(t);
      FreeLacksTags(j);
    }
    MessageTagApart();
    SectionLacks(ToolStart, j, ToolEnd, MessageStart);
    assert '\n' !in ImageStart && !Contains(ToolStart, ImageStart) && !Contains(ToolEnd, ImageStart) by {
      ReplyTags();
    }
    SectionLacks(ToolStart, j, ToolEnd, ImageStart);
  }

  /** The message section holds no tool or attachment tag. */
  lemma SecMessageLacks(b: string)
    requires ParAny(b)
    ensures !Contains(SecMessage(b), ToolStart) && !Contains(SecMessage(b), ImageStart)
  {
    FreeLacksTags(b);
    ReplyTags();
    SectionLacks(MessageStart, b, MessageEnd, ToolStart);
    SectionLacks(MessageStart, b, MessageEnd, ImageStart);
  }

  /** The attachment section holds no tool or message tag. */
  lemma SecAttachmentLacks(a: Attachment)
    requires AttachmentOk(a)
    ensures !Contains(SecAttachment(a), ToolStart) && !Contains(SecAttachment(a), MessageStart)
  {
    AttachmentFree(a);
    FreeLacksTags(RenderAttachment(a));
    ReplyTags();
    NewlineNotInTag("message_start");
    TagNotInTag("attachment_start", "message_start");
    TagNotInTag("attachment_end", "message_start");
    Lines3Lack(ImageStart, RenderAttachment(a), ImageEnd, ToolStart);
    Lines3Lack(ImageStart, RenderAttachment(a), ImageEnd, MessageStart);
  }

  /** Two adjacent sections: the first ends with a newline, so no tag straddles them. */
  lemma PairLacks(x: string, y: string, t: string)
    requires |t| > 0 && '\n' !in t
    requires x != [] && x[|x| - 1] == '\n'
    requires !Contains(x, t) && !Contains(y, t)
    ensures !Contains(x + y, t)
  {
    ContainsConcat(x, y, t);
  }

  lemma MessageIn(x: string, pre: string, b: string, rest: string)
    requires x == pre + SecMessage(b) + rest
    requires !Contains(pre, MessageStart) && (pre == [] || pre[|pre| - 1] == '\n')
    requires ParAny(b)
    ensures GetTag(MessageStart, MessageEnd, x) == Trim(b)
  {
    MessageTags();
    FreeLacksTags(b);
    assert x == pre + MessageStart + "\n" + b + "\n" + MessageEnd + ("\n" + rest);
    ReadFramedLine(MessageStart, MessageEnd, x, pre, b, "\n" + rest);
  }

  /** A section of a text lacking the opening tag reads as empty. */
  lemma NoSection(x: string, a: string, b: string, open: string, close: string)
    requires x == a + b && |open| > 0 && |close| > 0 && '\n' !in open
    requires a == [] || a[|a| - 1] == '\n'
    requires !Contains(a, open) && !Contains(b, open)
    ensures GetTag(open, close, x) == ""
  {
    if a == [] {
      assert x == b;
    } else {
      PairLacks(a, b, open);
    }
    GetTagAbsent(open, close, x);
  }

  lemma MessageAfterTool(t: ToolBody, b: string, rest: string)
    requires ToolBodyOk(t) && ParAny(b)
    ensures GetTag(MessageStart, MessageEnd, SecTool(t) + SecMessage(b) + rest) == Trim(b)
  {
    SecToolLacks(t);
    MessageIn(SecTool(t) + SecMessage(b) + rest, SecTool(t), b, rest);
  }

  lemma MessageNotInTool(t: ToolBody)
    requires ToolBodyOk(t)
    ensures GetTag(MessageStart, MessageEnd, SecTool(t)) == ""
  {
    SecToolLacks(t);
    NewlineNotInTag("message_start");
    ShortLacks("", MessageStart);
    NoSection(SecTool(t), [], SecTool(t), MessageStart, MessageEnd);
  }

  /**
   * The message `getTag` cuts out of an admitted reply is the trimmed body of
   * its message section; the tool-only reply has none.
   */
  lemma AdmittedMessage(r: Reply)
    requires ReplyOk(r)
    ensures GetTag(MessageStart, MessageEnd, Render(r)) == if r.HasMessage() then Trim(r.body) else ""
  {
    if r.Tool? {
      MessageNotInTool(r.tool);
    } else if r.HasTool() {
      SecondMessageRead(r);
    } else {
      FirstMessageRead(r);
    }
  }

  lemma FirstMessageRead(r: Reply)
    requires ReplyOk(r) && (r.Message? || r.MessageAttachment?)
    ensures GetTag(MessageStart, MessageEnd, Render(r)) == Trim(r.body)
  {
    ShortLacks("", MessageStart);
    if r.Message? {
      MessageIn(Render(r), "", r.body, "");
    } else {
      MessageIn(Render(r), "", r.body, SecAttachment(r.attachment));
    }
  }

  lemma SecondMessageRead(r: Reply)
    requires ReplyOk(r) && (r.ToolMessage? || r.ToolMessageAttachment?)
    ensures GetTag(MessageStart, MessageEnd, Render(r)) == Trim(r.body)
  {
    if r.ToolMessage? {
      MessageAfterTool(r.tool, r.body, "");
      assert Render(r) == SecTool(r.tool) + SecMessage(r.body) + "";
    } else {
      MessageAfterTool(r.tool, r.body, SecAttachment(r.attachment));
    }
  }

  /** A section at the very start of a text reads back as its trimmed body. */
  lemma LeadingSection(open: string, close: string, j: string, rest: string)
    requires |open| > 0 && |close| > 0 && '\n' !in open && '\n' !in close && !Contains(close, open)
    requires !Contains(j, open) && !Contains(j, close)
    ensures GetTag(open, close, open + "\n" + j + "\n" + close + "\n" + rest) == Trim(j)
  {
    ShortLacks("", open);
    var x := open + "\n" + j + "\n" + close + "\n" + rest;
    assert x == [] + open + "\n" + j + "\n" + close + ("\n" + rest);
    ReadFramedLine(open, close, x, [], j, "\n" + rest);
  }

  lemma ToolIn(x: string, t: ToolBody, rest: string)
    requires x == SecTool(t) + rest
    requires ToolBodyOk(t)
    ensures GetTag(ToolStart, ToolEnd, x) == Trim(RenderToolBody(t))
  {
    var j := RenderToolBody(t);
    ToolBodyFree(t);
    FreeLacksTags(j);
    SectionTags(ToolStart, ToolEnd);
    LeadingSection(ToolStart, ToolEnd, j, rest);
  }

  lemma ToolNotInMessage(b: string, rest: string)
    requires ParAny(b)
    requires rest == [] || !Contains(rest, ToolStart)
    ensures GetTag(ToolStart, ToolEnd, SecMessage(b) + rest) == ""
  {
    SecMessageLacks(b);
    NewlineNotInTag("tool_call_start");
    ShortLacks("", ToolStart);
    NoSection(SecMessage(b) + rest, SecMessage(b), rest, ToolStart, ToolEnd);
  }

  /**
   * The tool section `getTag` cuts out of an admitted reply is the trimmed
   * tool body; a reply without a tool section has none.
   */
  lemma AdmittedTool(r: Reply)
    requires ReplyOk(r)
    ensures GetTag(ToolStart, ToolEnd, Render(r)) == if r.HasTool() then Trim(RenderToolBody(r.tool)) else ""
  {
    if r.HasTool() {
      ToolSectionRead(r);
    } else {
      NoToolSectionRead(r);
    }
  }

  lemma ToolSectionRead(r: Reply)
    requires ReplyOk(r) && r.HasTool()
    ensures GetTag(ToolStart, ToolEnd, Render(r)) == Trim(RenderToolBody(r.tool))
  {
    RenderAfterTool(r);
    ToolIn(Render(r), r.tool, AfterTool(r));
  }

  /** What follows the tool section of a reply that has one. */
  function AfterTool(r: Reply): string
    requires r.HasTool()
  {
    match r
    case ToolMessage(_, b) => SecMessage(b)
    case ToolMessageAttachment(_, b, a) => SecMessage(b) + SecAttachment(a)
    case _ => ""
  }

  lemma RenderAfterTool(r: Reply)
    requires r.HasTool()
    ensures Render(r) == SecTool(r.tool) + AfterTool(r)
  {
  }

  lemma NoToolSectionRead(r: Reply)
    requires ReplyOk(r) && !r.HasTool()
    ensures GetTag(ToolStart, ToolEnd, Render(r)) == ""
  {
    if r.Message? {
      ToolNotInMessage(r.body, "");
      assert Render(r) == SecMessage(r.body) + "";
    } else {
      SecAttachmentLacks(r.attachment);
      ToolNotInMessage(r.body, SecAttachment(r.attachment));
    }
  }

  lemma AttachmentIn(x: string, pre: string, a: Attachment)
    requires x == pre + SecAttachment(a)
    requires !Contains(pre, ImageStart) && pre != [] && pre[|pre| - 1] == '\n'
    requires AttachmentOk(a)
    ensures GetTag(ImageStart, ImageEnd, x) == Trim(RenderAttachment(a))
  {
    var u := RenderAttachment(a);
    AttachmentFree(a);
    FreeLacksTags(u);
    SectionTags(ImageStart, ImageEnd);
    assert x == pre + ImageStart + "\n" + u + "\n" + ImageEnd + [];
    ReadFramedLine(ImageStart, ImageEnd, x, pre, u, []);
  }

  /** Neither the tool nor the message section holds the attachment tag. */
  lemma FrontLacksImageTag(t: ToolBody, b: string)
    requires ToolBodyOk(t) && ParAny(b)
    ensures !Contains(SecTool(t), ImageStart) && !Contains(SecMessage(b), ImageStart)
    ensures !Contains(SecTool(t) + SecMessage(b), ImageStart)
  {
    SecToolLacks(t);
    SecMessageLacks(b);
    NewlineNotInTag("attachment_start");
    PairLacks(SecTool(t), SecMessage(b), ImageStart);
  }

  lemma ImageNotInFront(x: string, t: ToolBody, b: string)
    requires ToolBodyOk(t) && ParAny(b)
    requires x == SecTool(t) || x == SecMessage(b) || x == SecTool(t) + SecMessage(b)
    ensures GetTag(ImageStart, ImageEnd, x) == ""
  {
    FrontLacksImageTag(t, b);
    GetTagAbsent(ImageStart, ImageEnd, x);
  }

  /**
   * The attachment `getTag` cuts out of an admitted reply is its URL (or ""
   * for the empty alternative); a reply without the section has none.
   */
  lemma AdmittedAttachment(r: Reply)
    requires ReplyOk(r)
    ensures GetTag(ImageStart, ImageEnd, Render(r)) == if r.HasAttachment() then Trim(RenderAttachment(r.attachment)) else ""
  {
    if r.HasAttachment() {
      AttachmentSectionRead(r);
    } else {
      NoAttachmentSectionRead(r);
    }
  }

  lemma AttachmentSectionRead(r: Reply)
    requires ReplyOk(r) && r.HasAttachment()
    ensures GetTag(ImageStart, ImageEnd, Render(r)) == Trim(RenderAttachment(r.attachment))
  {
    if r.MessageAttachment? {
      FrontLacksImageTag(NoCall, r.body);
      AttachmentIn(Render(r), SecMessage(r.body), r.attachment);
    } else {
      FrontLacksImageTag(r.tool, r.body);
      AttachmentIn(Render(r), SecTool(r.tool) + SecMessage(r.body), r.attachment);
    }
  }

  lemma NoAttachmentSectionRead(r: Reply)
    requires ReplyOk(r) && !r.HasAttachment()
    ensures GetTag(ImageStart, ImageEnd, Render(r)) == ""
  {
    match r
    case Message(b) =>
      ImageNotInFront(Render(r), NoCall, b);
    case Tool(t) =>
      ImageNotInFront(Render(r), t, "-");
    case ToolMessage(t, b) =>
      ImageNotInFront(Render(r), t, b);
  }

  /** The first occurrence of `t` in `a + (t + rest)` is right after `a` when `a` lacks `t` and ends a line. */
  lemma FirstAfter(a: string, t: string, rest: string)
    requires |t| > 0 && '\n' !in t && !Contains(a, t) && a != [] && a[|a| - 1] == '\n'
    ensures IndexOf(a + (t + rest), t) == Some(|a|)
  {
    IndexOfSelfPrefix(t, rest);
    IndexOfConcat(a, t + rest, t);
  }

  lemma SecToolHead(t: ToolBody)
    ensures SecTool(t) == ToolStart + ("\n" + RenderToolBody(t) + "\n" + ToolEnd + "\n")
  {
    var j := RenderToolBody(t);
    Regroup(ToolStart, "\n", j, "\n", ToolEnd, "\n");
  }

  lemma Regroup(a: string, b: string, c: string, d: string, e: string, f: string)
    ensures a + b + c + d + e + f == a + (b + c + d + e + f)
  {
  }

  /** A text that starts with the tool section finds the tool tag at 0. */
  lemma ToolLeads(x: string, t: ToolBody, rest: string)
    requires x == SecTool(t) + rest
    ensures StartsWith(x, ToolStart) && IndexOf(x, ToolStart) == Some(0)
  {
    var m := "\n" + RenderToolBody(t) + "\n" + ToolEnd + "\n";
    SecToolHead(t);
    assert x == ToolStart + (m + rest);
    PrefixLeads(x, ToolStart, m + rest);
  }

  lemma PrefixLeads(x: string, p: string, tail: string)
    requires x == p + tail
    ensures StartsWith(x, p) && IndexOf(x, p) == Some(0)
  {
    assert x[..|p|] == p;
    IndexOfSelfPrefix(p, tail);
  }

  /** After a tool section the first message tag opens the message section. */
  lemma MessageTagAfterTool(x: string, t: ToolBody, b: string, rest: string)
    requires ToolBodyOk(t)
    requires x == SecTool(t) + SecMessage(b) + rest
    ensures IndexOf(x, MessageStart) == Some(|SecTool(t)|)
  {
    var tail := "\n" + b + "\n" + MessageEnd + "\n" + rest;
    assert x == SecTool(t) + (MessageStart + tail);
    SecToolLacks(t);
    NewlineNotInTag("message_start");
    FirstAfter(SecTool(t), MessageStart, tail);
  }

  /** A text that starts with the message section starts with the message tag and not the tool tag. */
  lemma MessageLeads(x: string, b: string, rest: string)
    requires x == SecMessage(b) + rest
    ensures StartsWith(x, MessageStart) && !StartsWith(x, ToolStart)
  {
    assert x == MessageStart + ("\n" + b + "\n" + MessageEnd + "\n" + rest);
    assert x[..|MessageStart|] == MessageStart;
    assert MessageStart[2] == 'm' && ToolStart[2] == 't';
    assert x[2] == MessageStart[2];
  }

  /**
   * The tool section comes first whenever there is one: an admitted reply
   * starts with the tool tag exactly when it has a tool section, and
   * otherwise with the message tag; the message tag follows the tool section.
   */
  lemma ToolFirst(r: Reply)
    requires ReplyOk(r)
    ensures StartsWith(Render(r), ToolStart) <==> r.HasTool()
    ensures !r.HasTool() ==> StartsWith(Render(r), MessageStart)
    ensures r.HasTool() && r.HasMessage() ==>
      IndexOf(Render(r), ToolStart) == Some(0) && IndexOf(Render(r), MessageStart) == Some(|SecTool(r.tool)|)
  {
    if r.HasTool() {
      ToolReplyLeads(r);
    } else {
      MessageReplyLeads(r);
    }
  }

  lemma ToolReplyLeads(r: Reply)
    requires ReplyOk(r) && r.HasTool()
    ensures StartsWith(Render(r), ToolStart) && IndexOf(Render(r), ToolStart) == Some(0)
    ensures r.HasMessage() ==> IndexOf(Render(r), MessageStart) == Some(|SecTool(r.tool)|)
  {
    RenderAfterTool(r);
    ToolLeads(Render(r), r.tool, AfterTool(r));
    if r.ToolMessage? {
      MessageTagAfterTool(Render(r), r.tool, r.body, "");
    } else if r.ToolMessageAttachment? {
      MessageTagAfterTool(Render(r), r.tool, r.body, SecAttachment(r.attachment));
    }
  }

  lemma MessageReplyLeads(r: Reply)
    requires ReplyOk(r) && !r.HasTool()
    ensures StartsWith(Render(r), MessageStart) && !StartsWith(Render(r), ToolStart)
  {
    if r.Message? {
      MessageLeads(Render(r), r.body, "");
    } else {
      MessageLeads(Render(r), r.body, SecAttachment(r.attachment));
    }
  }

  /** An empty tool section never yields a tool call, whatever the JSON parser does. */
  lemma EmptyToolSectionNoCall(r: Reply, parse: Parser)
    requires ReplyOk(r) && r.HasTool() && r.tool.NoCall?
    ensures ParseTool(GetTag(ToolStart, ToolEnd, Render(r)), parse) == None
  {
    AdmittedTool(r);
    assert Trim("") == "";
  }

  /** One parameter renders alone, without a separator. */
  lemma SingleParam(p: Param)
    ensures RenderParams([p]) == RenderParam(p)
  {
    var parts := seq(1, i requires 0 <= i < 1 => RenderParam([p][i]));
    assert parts == [RenderParam(p)];
  }

  /**
   * A parameter may take no value at all, so the grammar admits tool text
   * that is not JSON (`"k":}`), which the parser then rejects.
   */
  lemma AdmitsValuelessParameter()
    ensures ReplyOk(Tool(Call("k", [Param("k", [])])))
    ensures RenderToolBody(Call("k", [Param("k", [])])) == "{\"tool_name\":\"k\",\"parameters\":{\"k\":}}"
  {
    assert ReplyOk(Tool(Call("k", [Param("k", [])]))) by {
      assert ParamOk(Param("k", []));
    }
    ValuelessText();
  }

  lemma ValuelessText()
    ensures RenderToolBody(Call("k", [Param("k", [])])) == "{\"tool_name\":\"k\",\"parameters\":{\"k\":}}"
  {
    var body := RenderParams([Param("k", [])]);
    assert body == "\"k\":" by {
      SingleParam(Param("k", []));
    }
  }
}
