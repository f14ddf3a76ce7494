/**
 * The first-generation responder: every tool call of a reply is answered,
 * the answers go into the history as system messages and the model is asked
 * again until it writes text or calls nothing. The model, the three tools
 * and the prompt constants this responder imports are parameters.
 */
module Responder {
  import opened Wrappers
  import opened Strings
  import opened ModelTypes
  import opened Api
  import Chat

  const UseBrain := "use_brain"

  /** What the responder returns when the model's reply has no content at all: a word joiner. */
  const WordJoiner := "\U{2060}"

  /** The brain tool: its `query` argument, which may be missing, in; its answer out. */
  type BrainTool = Option<string> -> string

  /** The three tools the responder serves. */
  datatype Toolbox = Toolbox(search: Chat.SearchTool, contents: Chat.ContentsTool, brain: BrainTool)

  /** The model, asked with the history; the tool list it is offered never changes. */
  type Llm = seq<Message> -> Chat.Reply

  /**
   * The prompt constants this responder imports from the prompt module,
   * which does not define them: the metadata and message tags, the
   * sequence that frames a metadata field, and the system prompt.
   */
  datatype PromptTags = PromptTags(metadataTag: string, messageTag: string, special: string, systemPrompt: string)

  function BrainQuery(c: Chat.Call): Option<string> {
    if "query" in c.arguments then Some(c.arguments["query"]) else None
  }

  /** The answer to one tool call. */
  function Answer(c: Chat.Call, t: Toolbox): string {
    if c.name == Chat.SearchWeb then t.search(Chat.Query(c))
    else if c.name == Chat.GetContents then t.contents(Chat.Url(c))
    else if c.name == UseBrain then t.brain(BrainQuery(c))
    else Chat.UnavailablePrompt
  }

  /** The answers to the calls, one per call and in their order. */
  function Answers(calls: seq<Chat.Call>, t: Toolbox): (r: seq<string>)
    ensures |r| == |calls|
    ensures forall i :: 0 <= i < |calls| ==> r[i] == Answer(calls[i], t)
    decreases |calls|
  {
    if |calls| == 0 then [] else [Answer(calls[0], t)] + Answers(calls[1..], t)
  }

  /** What a round whose usage count is `usage` queues: the limit directive past the limit, then the answers. */
  function Queue(usage: nat, calls: seq<Chat.Call>, t: Toolbox): seq<string> {
    (if usage > Chat.ToolUseLimit then [Chat.LimitPrompt] else []) + Answers(calls, t)
  }

  /** Answering: a search on the query (or `"<empty>"`), contents of the URL, the brain on the query; any other name gets the unavailable notice. */
  lemma AnswerRules(c: Chat.Call, t: Toolbox)
    ensures c.name == Chat.SearchWeb ==> Answer(c, t) == t.search(Chat.Query(c))
    ensures c.name == Chat.GetContents ==> Answer(c, t) == t.contents(Chat.Url(c))
    ensures c.name == UseBrain ==> Answer(c, t) == t.brain(BrainQuery(c))
    ensures c.name !in {Chat.SearchWeb, Chat.GetContents, UseBrain} ==> Answer(c, t) == Chat.UnavailablePrompt
  {
  }

  /**
   * The queue holds one answer per call, in order, behind the limit
   * directive exactly when the usage count is past the limit.
   */
  lemma QueueShape(usage: nat, calls: seq<Chat.Call>, t: Toolbox)
    ensures var q := Queue(usage, calls, t);
      var lead := if usage > Chat.ToolUseLimit then 1 else 0;
      |q| == lead + |calls|
      && (usage > Chat.ToolUseLimit ==> q[0] == Chat.LimitPrompt)
      && (forall i :: 0 <= i < |calls| ==> q[lead + i] == Answer(calls[i], t))
      && (|q| == 0 <==> usage <= Chat.ToolUseLimit && calls == [])
  {
    var lead := if usage > Chat.ToolUseLimit then 1 else 0;
    var pre: seq<string> := if usage > Chat.ToolUseLimit then [Chat.LimitPrompt] else [];
    var a := Answers(calls, t);
    var q := Queue(usage, calls, t);
    assert q == pre + a && |pre| == lead;
    forall i | 0 <= i < |calls| ensures q[lead + i] == Answer(calls[i], t) {
      assert q[lead + i] == a[i];
    }
  }

  lemma AnswersSnoc(calls: seq<Chat.Call>, i: nat, t: Toolbox)
    requires i < |calls|
    ensures Answers(calls[..i + 1], t) == Answers(calls[..i], t) + [Answer(calls[i], t)]
  {
    var a, b := Answers(calls[..i + 1], t), Answers(calls[..i], t) + [Answer(calls[i], t)];
    assert |a| == |b|;
    forall k | 0 <= k < |a| ensures a[k] == b[k] {
      if k < i {
        assert calls[..i + 1][k] == calls[..i][k];
      }
    }
  }

  /** The loop over the tool calls, with the limit directive pushed first. */
  method QueueResponses(usage: nat, calls: seq<Chat.Call>, t: Toolbox) returns (toolResponses: seq<string>)
    ensures toolResponses == Queue(usage, calls, t)
  {
    toolResponses := [];
    if usage > Chat.ToolUseLimit {
      toolResponses := toolResponses + [Chat.LimitPrompt];
    }
    ghost var lead := toolResponses;
    for i := 0 to |calls|
      invariant toolResponses == lead + Answers(calls[..i], t)
    {
      var c := calls[i];
      var response;
      if c.name == Chat.SearchWeb {
        response := t.search(Chat.Query(c));
      } else if c.name == Chat.GetContents {
        response := t.contents(Chat.Url(c));
      } else if c.name == UseBrain {
        response := t.brain(BrainQuery(c));
      } else {
        response := Chat.UnavailablePrompt;
      }
      assert response == Answer(calls[i], t);
      AnswersSnoc(calls, i, t);
      toolResponses := toolResponses + [response];
    }
    assert calls[..|calls|] == calls;
  }

  /** The end of a run: the text returned (`None` when the fuel ran out first) and the history. */
  datatype Outcome = Outcome(content: Option<string>, history: seq<Message>)

  /** The rounds of `processResponse`, at most `fuel` more after this one. */
  function Process(reply: Chat.Reply, h: seq<Message>, usage0: nat, fuel: nat, llm: Llm, t: Toolbox): Outcome
    decreases fuel, 1
  {
    var queue := Queue(usage0 + 1, reply.toolCalls, t);
    if |queue| == 0 then Outcome(Some(reply.content.GetOr(WordJoiner)), h)
    else Continue(h + Chat.SystemMessages(queue), usage0 + 1, fuel, llm, t)
  }

  /** A round that queued answers: the model is asked again with the history `h2`. */
  function Continue(h2: seq<Message>, usage: nat, fuel: nat, llm: Llm, t: Toolbox): Outcome
    decreases fuel, 0
  {
    var next := llm(h2);
    if Chat.HasText(next) then Outcome(next.content, h2)
    else if fuel == 0 then Outcome(None, h2)
    else Process(next, h2, usage, fuel - 1, llm, t)
  }

  /** A run only appends to the history it was given. */
  lemma {:induction false} ProcessKeepsHistory(reply: Chat.Reply, h: seq<Message>, usage0: nat, fuel: nat, llm: Llm, t: Toolbox)
    ensures h <= Process(reply, h, usage0, fuel, llm, t).history
    decreases fuel, 1
  {
    var queue := Queue(usage0 + 1, reply.toolCalls, t);
    if |queue| > 0 {
      var h2 := h + Chat.SystemMessages(queue);
      ContinueKeepsHistory(h2, usage0 + 1, fuel, llm, t);
      Chat.PrefixTrans(h, h2, Continue(h2, usage0 + 1, fuel, llm, t).history);
    }
  }

  lemma {:induction false} ContinueKeepsHistory(h2: seq<Message>, usage: nat, fuel: nat, llm: Llm, t: Toolbox)
    ensures h2 <= Continue(h2, usage, fuel, llm, t).history
    decreases fuel, 0
  {
    var next := llm(h2);
    if !Chat.HasText(next) && fuel > 0 {
      ProcessKeepsHistory(next, h2, usage, fuel - 1, llm, t);
    }
  }

  /**
   * A round that queues something and gets text back ends the run with
   * that text, the queued answers appended as system messages in order and
   * nothing else in the history changed.
   */
  lemma RoundAppends(reply: Chat.Reply, h: seq<Message>, usage0: nat, fuel: nat, llm: Llm, t: Toolbox)
    requires |Queue(usage0 + 1, reply.toolCalls, t)| > 0
    requires Chat.HasText(llm(h + Chat.SystemMessages(Queue(usage0 + 1, reply.toolCalls, t))))
    ensures var q := Queue(usage0 + 1, reply.toolCalls, t);
      var o := Process(reply, h, usage0, fuel, llm, t);
      o.history == h + Chat.SystemMessages(q)
      && o.history[..|h|] == h
      && (forall i :: 0 <= i < |q| ==> o.history[|h| + i].role == "system" && o.history[|h| + i].content == q[i])
      && o.content.Some? && o.content.value != ""
  {
    var q := Queue(usage0 + 1, reply.toolCalls, t);
    var ms := Chat.SystemMessages(q);
    assert forall i :: 0 <= i < |q| ==> (h + ms)[|h| + i] == ms[i];
  }

  /** A round within the limit and without calls returns the reply's text, the word joiner when it has none, and leaves the history alone. */
  lemma QuietRound(reply: Chat.Reply, h: seq<Message>, usage0: nat, fuel: nat, llm: Llm, t: Toolbox)
    requires usage0 + 1 <= Chat.ToolUseLimit && |reply.toolCalls| == 0
    ensures Process(reply, h, usage0, fuel, llm, t) == Outcome(Some(reply.content.GetOr(WordJoiner)), h)
  {
  }

  /** A run that returns text returns non-empty text. */
  predicate NonEmptyText(o: Outcome) {
    o.content.Some? ==> o.content.value != ""
  }

  /** Past the limit every round queues the directive, so a run ends only with non-empty text (or out of fuel). */
  lemma {:induction false} PastLimitEndsWithText(reply: Chat.Reply, h: seq<Message>, usage0: nat, fuel: nat, llm: Llm, t: Toolbox)
    requires usage0 >= Chat.ToolUseLimit
    ensures NonEmptyText(Process(reply, h, usage0, fuel, llm, t))
    decreases fuel, 1
  {
    var queue := Queue(usage0 + 1, reply.toolCalls, t);
    assert |queue| > 0;
    ContinueEndsWithText(h + Chat.SystemMessages(queue), usage0 + 1, fuel, llm, t);
  }

  lemma {:induction false} ContinueEndsWithText(h2: seq<Message>, usage: nat, fuel: nat, llm: Llm, t: Toolbox)
    requires usage >= Chat.ToolUseLimit
    ensures NonEmptyText(Continue(h2, usage, fuel, llm, t))
    decreases fuel, 0
  {
    var next := llm(h2);
    if !Chat.HasText(next) && fuel > 0 {
      PastLimitEndsWithText(next, h2, usage, fuel - 1, llm, t);
    }
  }

  /** A round that queues something continues with the answers appended. */
  lemma BusyRound(reply: Chat.Reply, h: seq<Message>, usage0: nat, fuel: nat, llm: Llm, t: Toolbox)
    requires |Queue(usage0 + 1, reply.toolCalls, t)| > 0
    ensures Process(reply, h, usage0, fuel, llm, t)
         == Continue(h + Chat.SystemMessages(Queue(usage0 + 1, reply.toolCalls, t)), usage0 + 1, fuel, llm, t)
  {
  }

  /** `processResponse`, with `fuel` bounding the number of further rounds. */
  method ProcessResponse(reply: Chat.Reply, history: Chat.History, usage0: nat, fuel: nat, llm: Llm, t: Toolbox)
    returns (content: Option<string>)
    modifies history
    ensures Outcome(content, history.entries) == Process(reply, old(history.entries), usage0, fuel, llm, t)
    decreases fuel
  {
    ghost var h0 := history.entries;
    var usage := usage0 + 1;
    var toolResponses := QueueResponses(usage, reply.toolCalls, t);
    if |toolResponses| != 0 {
      history.entries := history.entries + Chat.SystemMessages(toolResponses);
      BusyRound(reply, h0, usage0, fuel, llm, t);
      var next := llm(history.entries);
      if Chat.HasText(next) {
        return next.content;
      }
      if fuel == 0 {
        return None;
      }
      content := ProcessResponse(next, history, usage, fuel - 1, llm, t);
      return;
    }
    content := Some(reply.content.GetOr(WordJoiner));
  }

  // ---------------------------------------------------------------------
  // The user message and the reply text
  // ---------------------------------------------------------------------

  /** One metadata field: a new line, then `name="content"` between two special sequences. */
  function Field(special: string, name: string, content: string): string {
    "\n" + special + name + "=\"" + content + "\"" + special
  }

  /** The part of a user message before its text: the metadata tag, the two fields, the message tag. */
  function Header(p: PromptTags, senderName: string, date: string): string {
    p.metadataTag + Field(p.special, "from", senderName) + Field(p.special, "message_date", date) + "\n"
  }

  /** `buildUserMessage`; the date is the caller's `toLocaleString()` of the current time, passed in. */
  function BuildUserMessage(p: PromptTags, message: string, senderName: string, images: seq<string>, date: string): (m: Message)
    ensures m.role == "user" && m.images == Some(images)
    ensures m.content == Header(p, senderName, date) + p.messageTag + "\n" + message
  {
    Message("user", Header(p, senderName, date) + p.messageTag + "\n" + message, Some(images))
  }

  /** The history `respond` opens with: the system prompt, the stored history, the user message. */
  function NewHistory(p: PromptTags, history: seq<Message>, userMessage: Message): (h: seq<Message>)
    ensures |h| == |history| + 2
    ensures h[0] == Message("system", p.systemPrompt, None)
    ensures h[1..|h| - 1] == history
    ensures h[|h| - 1] == userMessage
  {
    [Chat.SystemMessage(p.systemPrompt)] + history + [userMessage]
  }

  /**
   * The reply text from one character past the first message tag, the tag
   * and a newline put in front first when the text has none; the pattern
   * clean-ups that follow in `respond` are not part of this model.
   */
  function Normalise(tag: string, content: string): (r: string)
    ensures |r| <= |content| && r == content[|content| - |r|..]
  {
    if Contains(content, tag) then
      SubstringFrom(content, IndexOf(content, tag).value + |tag| + 1)
    else
      IndexOfSelfPrefix(tag, "\n" + content);
      var c := tag + ("\n" + content);
      SubstringFrom(c, IndexOf(c, tag).value + |tag| + 1)
  }

  /** Text without the tag comes back unchanged. */
  lemma NormaliseUntagged(tag: string, content: string)
    requires !Contains(content, tag)
    ensures Normalise(tag, content) == content
  {
    IndexOfSelfPrefix(tag, "\n" + content);
    assert (tag + ("\n" + content))[|tag| + 1..] == content;
  }

  /** Text with the tag is cut one character after its first occurrence. */
  lemma NormaliseAfterTag(tag: string, pre: string, c: char, rest: string)
    requires |tag| > 0
    requires !Contains(pre, tag) && (pre == [] || pre[|pre| - 1] !in tag)
    ensures Normalise(tag, pre + tag + [c] + rest) == rest
  {
    var x := pre + tag + [c] + rest;
    assert x == pre + tag + ([c] + rest);
    AfterFirst(pre, tag, [c] + rest);
    assert x[IndexOf(x, tag).value + |tag|..] == [c] + rest;
  }

  /**
   * Normalising the text of a user message gives back the message, when
   * the header holds no message tag and the tag holds no newline.
   */
  lemma UserMessageNormalises(p: PromptTags, message: string, senderName: string, images: seq<string>, date: string)
    requires |p.messageTag| > 0 && '\n' !in p.messageTag
    requires !Contains(Header(p, senderName, date), p.messageTag)
    ensures Normalise(p.messageTag, BuildUserMessage(p, message, senderName, images, date).content) == message
  {
    var pre := Header(p, senderName, date);
    assert pre[|pre| - 1] == '\n';
    NormaliseAfterTag(p.messageTag, pre, '\n', message);
    assert pre + p.messageTag + "\n" + message == pre + p.messageTag + ['\n'] + message;
  }

  /**
   * The pattern passes over the normalised text: `scrub` removes hallucinated
   * tags, the `*` to `-` replacement follows, `emphasis` stands for the two
   * emphasis rewrites, and `trim` comes last.
   */
  datatype Cleanup = Cleanup(scrub: string -> string, emphasis: string -> string)

  /** The clean-up chain of `respond`; its result is already trimmed. */
  function Polish(k: Cleanup, text: string): (r: string)
    ensures Trim(r) == r
    ensures r == [] || (!IsSpace(r[0]) && !IsSpace(r[|r| - 1]))
  {
    var s := k.emphasis(ReplaceAll(k.scrub(text), "*", "-"));
    TrimIdempotent(s);
    Trim(s)
  }

  /** `respond`: the user message and the cleaned reply text (`None` when the fuel ran out). */
  method Respond(p: PromptTags, history: seq<Message>, message: string, senderName: string, images: seq<string>, date: string,
                 fuel: nat, llm: Llm, t: Toolbox, k: Cleanup)
    returns (response: Option<string>, userMessage: Message)
    ensures userMessage == BuildUserMessage(p, message, senderName, images, date)
    ensures var h := NewHistory(p, history, userMessage);
      response == match Process(llm(h), h, 0, fuel, llm, t).content
        case None => None
        case Some(c) => Some(Polish(k, Normalise(p.messageTag, c)))
    ensures response.Some? ==> Trim(response.value) == response.value
  {
    userMessage := BuildUserMessage(p, message, senderName, images, date);
    var newHistory := new Chat.History(NewHistory(p, history, userMessage));
    var answer := llm(newHistory.entries);
    var content := ProcessResponse(answer, newHistory, 0, fuel, llm, t);
    response := match content
      case None => None
      case Some(c) => Some(Polish(k, Normalise(p.messageTag, c)));
  }
}
