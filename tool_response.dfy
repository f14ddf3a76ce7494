/**
 * The envelope a tool's result travels in back to the model: the response
 * section holds a prefix and a fenced summary, the guide section tells the
 * model what to do with it.
 */
module ToolResponses {
  import opened Strings
  import opened Prompt
  import opened Api
  import opened RawFacts

  /** `buildToolResponse`. */
  function BuildToolResponse(prefix: string, summary: string, guide: string): string {
    ToolResponseStart + "\n" + prefix + "```\n" + summary + "\n```\n" + ToolResponseEnd + "\n"
      + ToolGuideStart + "\n" + guide + "\n" + ToolGuideEnd
  }

  /** The envelope read line by line: eight lines joined by newlines. */
  lemma EnvelopeLines(a: string, p: string, s: string, b: string, c: string, g: string, d: string)
    ensures a + "\n" + p + "```\n" + s + "\n```\n" + b + "\n" + c + "\n" + g + "\n" + d
         == (a + "\n" + (p + "```") + "\n" + s + "\n" + "```" + "\n" + b) + "\n" + c + "\n" + g + "\n" + d
  {
  }

  /** The part of the envelope before the guide section. */
  function Head(prefix: string, summary: string): string {
    ToolResponseStart + "\n" + (prefix + "```") + "\n" + summary + "\n" + "```" + "\n" + ToolResponseEnd
  }

  lemma EnvelopeIsHeadThenGuide(prefix: string, summary: string, guide: string)
    ensures BuildToolResponse(prefix, summary, guide)
         == Head(prefix, summary) + "\n" + ToolGuideStart + "\n" + guide + "\n" + ToolGuideEnd
  {
    EnvelopeLines(ToolResponseStart, prefix, summary, ToolResponseEnd, ToolGuideStart, guide, ToolGuideEnd);
  }

  /** The envelope opens with the response tag and closes with the guide end tag. */
  lemma EnvelopeFramed(prefix: string, summary: string, guide: string)
    ensures StartsWith(BuildToolResponse(prefix, summary, guide), ToolResponseStart)
    ensures EndsWith(BuildToolResponse(prefix, summary, guide), ToolGuideEnd)
  {
    var h := Head(prefix, summary);
    EnvelopeIsHeadThenGuide(prefix, summary, guide);
    Ends(ToolResponseStart, "\n");
    StartsWithAppend(ToolResponseStart + "\n", prefix + "```", ToolResponseStart);
    StartsWithAppend(ToolResponseStart + "\n" + (prefix + "```"), "\n", ToolResponseStart);
    StartsWithAppend(ToolResponseStart + "\n" + (prefix + "```") + "\n", summary, ToolResponseStart);
    StartsWithAppend(ToolResponseStart + "\n" + (prefix + "```") + "\n" + summary, "\n", ToolResponseStart);
    StartsWithAppend(ToolResponseStart + "\n" + (prefix + "```") + "\n" + summary + "\n", "```", ToolResponseStart);
    StartsWithAppend(ToolResponseStart + "\n" + (prefix + "```") + "\n" + summary + "\n" + "```", "\n", ToolResponseStart);
    StartsWithAppend(ToolResponseStart + "\n" + (prefix + "```") + "\n" + summary + "\n" + "```" + "\n", ToolResponseEnd, ToolResponseStart);
    StartsWithAppend(h, "\n", ToolResponseStart);
    StartsWithAppend(h + "\n", ToolGuideStart, ToolResponseStart);
    StartsWithAppend(h + "\n" + ToolGuideStart, "\n", ToolResponseStart);
    StartsWithAppend(h + "\n" + ToolGuideStart + "\n", guide, ToolResponseStart);
    StartsWithAppend(h + "\n" + ToolGuideStart + "\n" + guide, "\n", ToolResponseStart);
    StartsWithAppend(h + "\n" + ToolGuideStart + "\n" + guide + "\n", ToolGuideEnd, ToolResponseStart);
    Ends(h + "\n" + ToolGuideStart + "\n" + guide + "\n", ToolGuideEnd);
  }

  /** The names of the four tags the envelope itself uses. */
  predicate EnvelopeTagName(n: string) {
    n == "tool_response_start" || n == "tool_response_end" || n == "tool_guide_start" || n == "tool_guide_end"
  }

  /** The head holds no tag other than the response tags when prefix and summary hold no wrapper. */
  lemma HeadLacks(prefix: string, summary: string, n: string)
    requires WrapperFree(prefix) && WrapperFree(summary)
    requires IsTagName(n) && n != "tool_response_start" && n != "tool_response_end"
    ensures !Contains(Head(prefix, summary), Tag(n))
  {
    var t := Tag(n);
    NewlineNotInTag(n);
    AvoidsConcat(prefix, "```", Wrapper);
    WrapperFreeLacksTag(prefix + "```", n);
    WrapperFreeLacksTag(summary, n);
    WrapperFreeLacksTag("```", n);
    TagNotInTag("tool_response_start", n);
    TagNotInTag("tool_response_end", n);
    var l2 := ToolResponseStart + "\n" + (prefix + "```");
    LineLacks(ToolResponseStart, prefix + "```", t);
    LineLacks(l2, summary, t);
    LineLacks(l2 + "\n" + summary, "```", t);
    LineLacks(l2 + "\n" + summary + "\n" + "```", ToolResponseEnd, t);
  }

  /**
   * With prefix, summary and guide free of the wrapper character, the
   * envelope holds no tag but its own four: in particular no message and no
   * tool section can be read out of it.
   */
  lemma EnvelopeLacks(prefix: string, summary: string, guide: string, n: string)
    requires WrapperFree(prefix) && WrapperFree(summary) && WrapperFree(guide)
    requires IsTagName(n) && !EnvelopeTagName(n)
    ensures !Contains(BuildToolResponse(prefix, summary, guide), Tag(n))
  {
    var t := Tag(n);
    var h := Head(prefix, summary);
    EnvelopeIsHeadThenGuide(prefix, summary, guide);
    HeadLacks(prefix, summary, n);
    NewlineNotInTag(n);
    WrapperFreeLacksTag(guide, n);
    TagNotInTag("tool_guide_start", n);
    TagNotInTag("tool_guide_end", n);
    LineLacks(h, ToolGuideStart, t);
    LineLacks(h + "\n" + ToolGuideStart, guide, t);
    LineLacks(h + "\n" + ToolGuideStart + "\n" + guide, ToolGuideEnd, t);
  }

  /** Reading the message or the tool section out of an envelope yields nothing. */
  lemma EnvelopeHasNoSections(prefix: string, summary: string, guide: string)
    requires WrapperFree(prefix) && WrapperFree(summary) && WrapperFree(guide)
    ensures GetTag(MessageStart, MessageEnd, BuildToolResponse(prefix, summary, guide)) == ""
    ensures GetTag(ToolStart, ToolEnd, BuildToolResponse(prefix, summary, guide)) == ""
  {
    var r := BuildToolResponse(prefix, summary, guide);
    EnvelopeLacks(prefix, summary, guide, "message_start");
    EnvelopeLacks(prefix, summary, guide, "tool_call_start");
    GetTagAbsent(MessageStart, MessageEnd, r);
    GetTagAbsent(ToolStart, ToolEnd, r);
  }

  /** The guide section of an envelope reads back as the trimmed guide. */
  lemma EnvelopeGuide(prefix: string, summary: string, guide: string)
    requires WrapperFree(prefix) && WrapperFree(summary) && WrapperFree(guide)
    ensures GetTag(ToolGuideStart, ToolGuideEnd, BuildToolResponse(prefix, summary, guide)) == Trim(guide)
  {
    var h := Head(prefix, summary);
    var x := BuildToolResponse(prefix, summary, guide);
    EnvelopeIsHeadThenGuide(prefix, summary, guide);
    HeadLacks(prefix, summary, "tool_guide_start");
    NewlineNotInTag("tool_guide_start");
    NewlineNotInTag("tool_guide_end");
    TagNotInTag("tool_guide_end", "tool_guide_start");
    WrapperFreeLacksTag(guide, "tool_guide_start");
    WrapperFreeLacksTag(guide, "tool_guide_end");
    ShortLacks("", ToolGuideStart);
    LineLacks(h, "", ToolGuideStart);
    assert h + "\n" + "" == h + "\n";
    assert x == (h + "\n") + ToolGuideStart + "\n" + guide + "\n" + ToolGuideEnd + [];
    ReadFramedLine(ToolGuideStart, ToolGuideEnd, x, h + "\n", guide, []);
  }

  /** In wrapper-free text followed by `t`, the first wrapper character is where `t` starts. */
  lemma FirstSigma(s: string, t: string)
    requires WrapperFree(s) && |t| > 0 && t[0] == Sigma
    ensures forall i :: 0 <= i < |s| ==> (s + t)[i] != Sigma
    ensures (s + t)[|s|] == Sigma
  {
    forall i | 0 <= i < |s| ensures (s + t)[i] != Sigma {
      assert (s + t)[i] == s[i];
    }
  }

  /**
   * Wrapper-free text followed by text that opens with the wrapper's first
   * character splits only one way.
   */
  lemma SplitAtWrapper(s1: string, t1: string, s2: string, t2: string)
    requires WrapperFree(s1) && WrapperFree(s2)
    requires |t1| > 0 && |t2| > 0 && t1[0] == Sigma && t2[0] == Sigma
    requires s1 + t1 == s2 + t2
    ensures s1 == s2 && t1 == t2
  {
    FirstSigma(s1, t1);
    FirstSigma(s2, t2);
    assert s1 == (s1 + t1)[..|s1|];
    assert s2 == (s2 + t2)[..|s2|];
  }

  /** The envelope as the prefix part, the wrapper-free fenced summary and the rest. */
  lemma EnvelopeParts(prefix: string, summary: string, guide: string)
    ensures BuildToolResponse(prefix, summary, guide)
         == (ToolResponseStart + "\n" + prefix) + ("```\n" + summary + "\n```\n")
            + (ToolResponseEnd + "\n" + ToolGuideStart + "\n" + guide + "\n" + ToolGuideEnd)
  {
  }

  lemma TagOpensWithSigma(n: string)
    ensures |Tag(n)| > 0 && Tag(n)[0] == Sigma
  {
  }

  /** The fenced summary of a wrapper-free summary is wrapper-free. */
  lemma FenceFree(s: string)
    requires WrapperFree(s)
    ensures WrapperFree("```\n" + s + "\n```\n")
  {
    assert WrapperFree("```\n") && WrapperFree("\n```\n");
    AvoidsConcat("```\n", s, Wrapper);
    AvoidsConcat("```\n" + s, "\n```\n", Wrapper);
  }

  /** The part after the fence, regrouped around the guide. */
  lemma TailAround(g: string)
    ensures ToolResponseEnd + "\n" + ToolGuideStart + "\n" + g + "\n" + ToolGuideEnd
         == (ToolResponseEnd + "\n" + ToolGuideStart + "\n") + g + ("\n" + ToolGuideEnd)
  {
  }

  /**
   * For a fixed prefix the envelope determines the summary and the guide,
   * provided the summary holds no wrapper character.
   */
  lemma EnvelopeInjective(prefix: string, s1: string, g1: string, s2: string, g2: string)
    requires WrapperFree(s1) && WrapperFree(s2)
    requires BuildToolResponse(prefix, s1, g1) == BuildToolResponse(prefix, s2, g2)
    ensures s1 == s2 && g1 == g2
  {
    var a := ToolResponseStart + "\n" + prefix;
    var f1, f2 := "```\n" + s1 + "\n```\n", "```\n" + s2 + "\n```\n";
    var r1 := ToolResponseEnd + "\n" + ToolGuideStart + "\n" + g1 + "\n" + ToolGuideEnd;
    var r2 := ToolResponseEnd + "\n" + ToolGuideStart + "\n" + g2 + "\n" + ToolGuideEnd;
    EnvelopeParts(prefix, s1, g1);
    EnvelopeParts(prefix, s2, g2);
    Assoc(a, f1, r1);
    Assoc(a, f2, r2);
    CancelLeft(a, f1 + r1, f2 + r2);
    FenceFree(s1);
    FenceFree(s2);
    TagOpensWithSigma("tool_response_end");
    SplitAtWrapper(f1, r1, f2, r2);
    Middle("```\n", s1, "\n```\n", s2);
    TailAround(g1);
    TailAround(g2);
    Middle(ToolResponseEnd + "\n" + ToolGuideStart + "\n", g1, "\n" + ToolGuideEnd, g2);
  }

  /**
   * Over prefix and summary together the envelope is not injective, even for
   * wrapper-free text: a fence may sit at the end of the prefix or at the
   * start of the summary.
   */
  lemma EnvelopeSplitAmbiguous()
    ensures WrapperFree("```\n") && WrapperFree("x") && WrapperFree("```\nx")
    ensures BuildToolResponse("```\n", "x", "g") == BuildToolResponse("", "```\nx", "g")
  {
    EnvelopeParts("```\n", "x", "g");
    EnvelopeParts("", "```\nx", "g");
    assert ToolResponseStart + "\n" + "```\n" + ("```\n" + "x" + "\n```\n")
        == ToolResponseStart + "\n" + "" + ("```\n" + "```\nx" + "\n```\n");
  }
}
