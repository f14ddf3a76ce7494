/**
 * How the canonical `raw` text of a reply reads back: the message section
 * comes first and re-extracting it gives the message; the tool and the
 * attachment sections are there exactly when a tool call and an image were
 * found, and read back as what was written.
 */
module RawFacts {
  import opened Wrappers
  import opened Strings
  import opened Json
  import opened Prompt
  import opened Api
  import opened StreamFacts

  /** Two texts joined by a newline lack a tag that neither of them holds. */
  lemma LineLacks(x: string, y: string, t: string)
    requires |t| > 0 && '\n' !in t
    requires !Contains(x, t) && !Contains(y, t)
    ensures !Contains(x + "\n" + y, t)
  {
    NoCommonChar("\n", t);
    ContainsConcat(x, "\n", t);
    ContainsConcat(x + "\n", y, t);
  }

  lemma OccursBetween(x: string, t: string, y: string)
    ensures Contains(x + t + y, t)
  {
    assert (x + t + y)[|x|..|x| + |t|] == t;
    assert OccursAt(x + t + y, t, |x|);
  }

  /** The message tags hold no newline and the closing one does not hold the opening one. */
  lemma MessageTags()
    ensures '\n' !in MessageStart && '\n' !in MessageEnd && !Contains(MessageEnd, MessageStart)
  {
    NewlineNotInTag("message_start");
    NewlineNotInTag("message_end");
    TagNotInTag("message_end", "message_start");
  }

  /** Three lines none of which holds `t` do not hold `t`. */
  lemma Lines3Lack(a: string, b: string, c: string, t: string)
    requires |t| > 0 && '\n' !in t
    requires !Contains(a, t) && !Contains(b, t) && !Contains(c, t)
    ensures !Contains(a + "\n" + b + "\n" + c, t)
  {
    LineLacks(a, b, t);
    LineLacks(a + "\n" + b, c, t);
  }

  /** The six tags of a reply: none holds a newline or another of them. */
  lemma ReplyTags()
    ensures '\n' !in MessageStart && '\n' !in MessageEnd && '\n' !in ToolStart
    ensures '\n' !in ToolEnd && '\n' !in ImageStart && '\n' !in ImageEnd
    ensures !Contains(MessageEnd, MessageStart)
    ensures !Contains(MessageStart, ToolStart) && !Contains(MessageEnd, ToolStart) && !Contains(ToolEnd, ToolStart)
    ensures !Contains(ImageStart, ToolStart) && !Contains(ImageEnd, ToolStart)
    ensures !Contains(MessageStart, ImageStart) && !Contains(MessageEnd, ImageStart)
    ensures !Contains(ToolStart, ImageStart) && !Contains(ToolEnd, ImageStart) && !Contains(ImageEnd, ImageStart)
  {
    var msn, men, tsn, ten, isn, ien := "message_start", "message_end", "tool_call_start", "tool_call_end", "attachment_start", "attachment_end";
    assert IsTagName(msn) && IsTagName(men) && IsTagName(tsn) && IsTagName(ten) && IsTagName(isn) && IsTagName(ien);
    NewlineNotInTag(msn);
    NewlineNotInTag(men);
    NewlineNotInTag(tsn);
    NewlineNotInTag(ten);
    NewlineNotInTag(isn);
    NewlineNotInTag(ien);
    TagNotInTag(men, msn);
    TagNotInTag(msn, tsn);
    TagNotInTag(men, tsn);
    TagNotInTag(ten, tsn);
    TagNotInTag(isn, tsn);
    TagNotInTag(ien, tsn);
    TagNotInTag(msn, isn);
    TagNotInTag(men, isn);
    TagNotInTag(tsn, isn);
    TagNotInTag(ten, isn);
    TagNotInTag(ien, isn);
  }

  /** A written tool call is non-blank, already trimmed and, when its strings are, free of tags. */
  lemma ToolText(t: ToolCall)
    requires JsonAvoids(ToolJson(t), Wrapper)
    ensures var j := Stringify(ToolJson(t));
      j != "" && Trim(j) == j && WrapperFree(j)
      && !Contains(j, ToolStart) && !Contains(j, ToolEnd) && !Contains(j, ImageStart) && !Contains(j, ImageEnd)
  {
    var j := Stringify(ToolJson(t));
    assert NonAscii(Wrapper);
    StringifyAvoids(ToolJson(t), Wrapper);
    TrimStartNoSpace(j);
    TrimEndNoSpace(j);
    WrapperFreeLacksTag(j, "tool_call_start");
    WrapperFreeLacksTag(j, "tool_call_end");
    WrapperFreeLacksTag(j, "attachment_start");
    WrapperFreeLacksTag(j, "attachment_end");
  }

  /**
   * A section written on its own lines, `open`, newline, `m`, newline,
   * `close`, after text with no `open` in it, reads back as `m` trimmed.
   */
  lemma ReadFramedLine(open: string, close: string, x: string, pre: string, m: string, post: string)
    requires |open| > 0 && |close| > 0 && '\n' !in open && '\n' !in close
    requires x == pre + open + "\n" + m + "\n" + close + post
    requires !Contains(pre, open) && (pre == [] || pre[|pre| - 1] == '\n')
    requires !Contains(m, open) && !Contains(m, close) && !Contains(close, open)
    requires post == [] || post[0] == '\n'
    ensures Contains(x, open)
    ensures GetTag(open, close, x) == Trim(m)
  {
    var body := "\n" + m + "\n";
    ShortLacks("", open);
    ShortLacks("", close);
    LineLacks("", m, open);
    assert "" + "\n" + m == "\n" + m;
    LineLacks("\n" + m, close, open);
    LineLacks("", m, close);
    LineLacks("\n" + m, "", close);
    assert "\n" + m + "\n" + "" == body;
    assert x == pre + open + body + close + post;
    GetTagFramed(open, close, pre, body, post);
    TrimFramed("\n", m, "\n");
  }

  /** Text made of lines none of which holds `t` does not hold `t`. */
  lemma LinesLack(x: string, a: string, b: string, c: string, d: string, t: string)
    requires |t| > 0 && '\n' !in t
    requires x == a + "\n" + b + "\n" + c + "\n" + d
    requires !Contains(a, t) && !Contains(b, t) && !Contains(c, t) && !Contains(d, t)
    ensures !Contains(x, t)
  {
    LineLacks(a, b, t);
    LineLacks(a + "\n" + b, c, t);
    LineLacks(a + "\n" + b + "\n" + c, d, t);
  }

  // ---------------------------------------------------------------------
  // The message section
  // ---------------------------------------------------------------------

  /**
   * Re-extracting the message from `raw` gives the message back trimmed,
   * whatever sections follow it.
   */
  lemma RawMessage(m: string, tool: Option<ToolCall>, image: Option<string>)
    requires !Contains(m, MessageStart) && !Contains(m, MessageEnd)
    ensures GetTag(MessageStart, MessageEnd, Raw(m, tool, image)) == Trim(m)
  {
    var head := MessageStart + "\n" + m + "\n" + MessageEnd;
    var post := ToolSection(tool) + AttachmentSection(image);
    assert post == [] || post[0] == '\n' by {
      SectionsOpenLine(tool, image);
    }
    Assoc(head, ToolSection(tool), AttachmentSection(image));
    MessageTags();
    LeadingFramed(MessageStart, MessageEnd, m, post);
  }

  /** The tool and attachment sections, if any, start on a new line. */
  lemma SectionsOpenLine(tool: Option<ToolCall>, image: Option<string>)
    ensures var post := ToolSection(tool) + AttachmentSection(image);
      post == [] || post[0] == '\n'
  {
    if tool.None? {
      assert ToolSection(tool) + AttachmentSection(image) == AttachmentSection(image);
    }
  }

  /** A section written first, on its own lines, reads back as its body trimmed. */
  lemma LeadingFramed(open: string, close: string, m: string, post: string)
    requires |open| > 0 && |close| > 0 && '\n' !in open && '\n' !in close && !Contains(close, open)
    requires !Contains(m, open) && !Contains(m, close)
    requires post == [] || post[0] == '\n'
    ensures GetTag(open, close, open + "\n" + m + "\n" + close + post) == Trim(m)
  {
    ShortLacks("", open);
    var x := open + "\n" + m + "\n" + close + post;
    assert x == [] + open + "\n" + m + "\n" + close + post;
    ReadFramedLine(open, close, x, [], m, post);
  }

  /** The message of every reply reads back from its `raw` text. */
  lemma ResponseMessage(frames: seq<Frame>, chunkSize: int, toolGenerate: bool, parse: Parser)
    ensures var r := Response(frames, chunkSize, toolGenerate, Content, parse);
      GetTag(MessageStart, MessageEnd, r.raw) == r.message
  {
    var l := Read(frames, chunkSize, toolGenerate, Content);
    var m := l.message.content;
    ReadRecords(frames, chunkSize, toolGenerate, Content, MessageTag);
    if m != "" {
      var n := FirstFinish(frames);
      assert m == GetTag(MessageStart, MessageEnd, Received(frames, n));
      GetTagLacksTags(MessageStart, MessageEnd, Received(frames, n));
    } else {
      ShortLacks(m, MessageStart);
      ShortLacks(m, MessageEnd);
    }
    var image := ImageOf(l.image.content);
    var tool := ParseTool(l.tool.content, parse);
    RawMessage(m, tool, image);
  }

  // ---------------------------------------------------------------------
  // The tool and attachment sections
  // ---------------------------------------------------------------------

  /**
   * With no tool tag in the message or the image, `raw` holds a tool
   * section exactly when there is a tool call, and that section reads back
   * as the call written out.
   */
  lemma RawTool(m: string, tool: Option<ToolCall>, image: Option<string>)
    requires !Contains(m, ToolStart)
    requires image.Some? ==> !Contains(image.value, ToolStart)
    requires tool.Some? ==> JsonAvoids(ToolJson(tool.value), Wrapper)
    ensures Contains(Raw(m, tool, image), ToolStart) <==> tool.Some?
    ensures GetTag(ToolStart, ToolEnd, Raw(m, tool, image)) == if tool.Some? then Stringify(ToolJson(tool.value)) else ""
  {
    if tool.Some? {
      RawToolPresent(m, tool.value, image);
    } else {
      RawToolAbsent(m, image);
    }
  }

  lemma RawToolPresent(m: string, t: ToolCall, image: Option<string>)
    requires !Contains(m, ToolStart)
    requires JsonAvoids(ToolJson(t), Wrapper)
    ensures Contains(Raw(m, Some(t), image), ToolStart)
    ensures GetTag(ToolStart, ToolEnd, Raw(m, Some(t), image)) == Stringify(ToolJson(t))
  {
    var head := MessageStart + "\n" + m + "\n" + MessageEnd;
    var j := Stringify(ToolJson(t));
    var att := AttachmentSection(image);
    HeadLacks(m, ToolStart);
    ToolText(t);
    SectionTags(ToolStart, ToolEnd);
    SectionFramed(ToolStart, ToolEnd, head, j, att);
    assert Raw(m, Some(t), image) == head + ("\n" + ToolStart + "\n" + j + "\n" + ToolEnd) + att;
  }

  lemma RawToolAbsent(m: string, image: Option<string>)
    requires !Contains(m, ToolStart)
    requires image.Some? ==> !Contains(image.value, ToolStart)
    ensures !Contains(Raw(m, None, image), ToolStart)
    ensures GetTag(ToolStart, ToolEnd, Raw(m, None, image)) == ""
  {
    var head := MessageStart + "\n" + m + "\n" + MessageEnd;
    HeadLacks(m, ToolStart);
    AttachmentAddsNoTool(head, image);
    assert Raw(m, None, image) == head + AttachmentSection(image) by {
      assert ToolSection(None) == [];
      assert head + [] == head;
    }
    GetTagAbsent(ToolStart, ToolEnd, Raw(m, None, image));
  }

  /** The attachment section adds no tool tag when the image holds none. */
  lemma AttachmentAddsNoTool(head: string, image: Option<string>)
    requires !Contains(head, ToolStart)
    requires image.Some? ==> !Contains(image.value, ToolStart)
    ensures !Contains(head + AttachmentSection(image), ToolStart)
  {
    if image.Some? && image.value != "" {
      assert '\n' !in ToolStart && !Contains(ImageStart, ToolStart) && !Contains(ImageEnd, ToolStart) by {
        ReplyTags();
      }
      SectionAfterLacks(head, ImageStart, image.value, ImageEnd, ToolStart);
    } else {
      assert head + AttachmentSection(image) == head;
    }
  }

  /** The message section lacks a tag that the message lacks, if the tag is not a message tag. */
  lemma HeadLacks(m: string, t: string)
    requires t == ToolStart || t == ImageStart
    requires !Contains(m, t)
    ensures !Contains(MessageStart + "\n" + m + "\n" + MessageEnd, t)
  {
    ReplyTags();
    Lines3Lack(MessageStart, m, MessageEnd, t);
  }

  /** The tool and the attachment tags hold no newline, and each closing tag lacks its opening one. */
  lemma SectionTags(open: string, close: string)
    requires (open == ToolStart && close == ToolEnd) || (open == ImageStart && close == ImageEnd)
    ensures '\n' !in open && '\n' !in close && !Contains(close, open)
  {
    if open == ToolStart {
      NewlineNotInTag("tool_call_start");
      NewlineNotInTag("tool_call_end");
      TagNotInTag("tool_call_end", "tool_call_start");
    } else {
      NewlineNotInTag("attachment_start");
      NewlineNotInTag("attachment_end");
      TagNotInTag("attachment_end", "attachment_start");
    }
  }

  /**
   * A section appended on its own lines after text that lacks its opening
   * tag reads back as its body, when the body is trimmed and lacks both tags.
   */
  lemma SectionFramed(open: string, close: string, front: string, j: string, post: string)
    requires |open| > 0 && |close| > 0 && '\n' !in open && '\n' !in close && !Contains(close, open)
    requires !Contains(front, open)
    requires !Contains(j, open) && !Contains(j, close) && Trim(j) == j
    requires post == [] || post[0] == '\n'
    ensures Contains(front + ("\n" + open + "\n" + j + "\n" + close) + post, open)
    ensures GetTag(open, close, front + ("\n" + open + "\n" + j + "\n" + close) + post) == j
  {
    ShortLacks("", open);
    LineLacks(front, "", open);
    assert front + "\n" + "" == front + "\n";
    var x := front + ("\n" + open + "\n" + j + "\n" + close) + post;
    assert x == (front + "\n") + open + "\n" + j + "\n" + close + post;
    ReadFramedLine(open, close, x, front + "\n", j, post);
  }

  /**
   * With no attachment tag in the message or the tool call, `raw` holds an
   * attachment section exactly when there is a non-empty image, and that
   * section reads back as the trimmed image.
   */
  lemma RawImage(m: string, tool: Option<ToolCall>, image: Option<string>)
    requires !Contains(m, ImageStart)
    requires tool.Some? ==> JsonAvoids(ToolJson(tool.value), Wrapper)
    requires image.Some? ==> !Contains(image.value, ImageStart) && !Contains(image.value, ImageEnd)
    ensures Contains(Raw(m, tool, image), ImageStart) <==> image.Some? && image.value != ""
    ensures GetTag(ImageStart, ImageEnd, Raw(m, tool, image))
      == if image.Some? && image.value != "" then Trim(image.value) else ""
  {
    var front := MessageStart + "\n" + m + "\n" + MessageEnd + ToolSection(tool);
    FrontLacksImage(m, tool);
    assert Raw(m, tool, image) == front + AttachmentSection(image);
    if image.Some? && image.value != "" {
      ImageFramed(front, image.value);
    } else {
      assert Raw(m, tool, image) == front;
      GetTagAbsent(ImageStart, ImageEnd, Raw(m, tool, image));
    }
  }

  /** The message and tool sections of `raw` hold no attachment tag. */
  lemma FrontLacksImage(m: string, tool: Option<ToolCall>)
    requires !Contains(m, ImageStart)
    requires tool.Some? ==> JsonAvoids(ToolJson(tool.value), Wrapper)
    ensures !Contains(MessageStart + "\n" + m + "\n" + MessageEnd + ToolSection(tool), ImageStart)
  {
    var head := MessageStart + "\n" + m + "\n" + MessageEnd;
    HeadLacks(m, ImageStart);
    if tool.Some? {
      var j := Stringify(ToolJson(tool.value));
      assert !Contains(j, ImageStart) by { ToolText(tool.value); }
      assert '\n' !in ImageStart && !Contains(ToolStart, ImageStart) && !Contains(ToolEnd, ImageStart) by { ReplyTags(); }
      SectionAfterLacks(head, ToolStart, j, ToolEnd, ImageStart);
      assert ToolSection(tool) == "\n" + ToolStart + "\n" + j + "\n" + ToolEnd;
    } else {
      assert head + ToolSection(tool) == head;
    }
  }

  /** A section on its own lines, after text lacking `t`, adds no `t` when none of its parts holds one. */
  lemma SectionAfterLacks(head: string, open: string, j: string, close: string, t: string)
    requires |t| > 0 && '\n' !in t
    requires !Contains(head, t) && !Contains(open, t) && !Contains(j, t) && !Contains(close, t)
    ensures !Contains(head + ("\n" + open + "\n" + j + "\n" + close), t)
  {
    assert head + ("\n" + open + "\n" + j + "\n" + close) == head + "\n" + open + "\n" + j + "\n" + close;
    LinesLack(head + "\n" + open + "\n" + j + "\n" + close, head, open, j, close, t);
  }

  /** The attachment section, written last, reads back as the trimmed image. */
  lemma ImageFramed(front: string, v: string)
    requires !Contains(front, ImageStart)
    requires !Contains(v, ImageStart) && !Contains(v, ImageEnd)
    ensures Contains(front + ("\n" + ImageStart + "\n" + v + "\n" + ImageEnd), ImageStart)
    ensures GetTag(ImageStart, ImageEnd, front + ("\n" + ImageStart + "\n" + v + "\n" + ImageEnd)) == Trim(v)
  {
    SectionTags(ImageStart, ImageEnd);
    ShortLacks("", ImageStart);
    LineLacks(front, "", ImageStart);
    assert front + "\n" + "" == front + "\n";
    var x := front + ("\n" + ImageStart + "\n" + v + "\n" + ImageEnd);
    assert x == (front + "\n") + ImageStart + "\n" + v + "\n" + ImageEnd + [];
    ReadFramedLine(ImageStart, ImageEnd, x, front + "\n", v, []);
  }

  /**
   * The tool section of `raw` is written with the key `name`, so a parser
   * that reads `JSON.stringify` back faithfully does not find a tool call in it.
   */
  lemma RawToolNotReparsed(t: ToolCall, parse: Parser)
    requires parse(Stringify(ToolJson(t))) == Some(ToolJson(t))
    ensures ParseTool(Stringify(ToolJson(t)), parse) == None
  {
    var ms := ToolJson(t).members;
    assert ms[0].0 != "tool_name" && ms[1].0 != "tool_name";
    assert !HasKey(ms, "tool_name");
  }
}
