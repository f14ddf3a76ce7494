/**
 * The older chat dispatcher: the model answers, at most one of its tool
 * calls is served, the tool's answer goes into the history as a system
 * message and the model is asked again, until it writes text or has nothing
 * left to do. The model and the tools are oracles; the search prefix the
 * dispatcher looks for is a parameter (its import names an export that the
 * search module does not have).
 */
module Chat {
  import opened Wrappers
  import opened Strings
  import opened ModelTypes
  import opened Api

  /** Rounds of tool use before the model is told to stop using tools. */
  const ToolUseLimit := 5

  const SearchWeb := "search_web"
  const GetContents := "get_contents"

  /** The tools offered at first and whenever the tool map has no entry. */
  const Tools: seq<string> := [SearchWeb, GetContents]

  /** The directives of the older prompt module (the unavailable one has no final period). */
  const LimitPrompt := "At this point write the final response for the user not using any more tools."
  const UnavailablePrompt := "Requested tool is not available"

  /** A tool call: the tool's name and its string arguments. */
  datatype Call = Call(name: string, arguments: map<string, string>)

  /** A reply of the model: its text, if any, and its tool calls. */
  datatype Reply = Reply(content: Option<string>, toolCalls: seq<Call>)

  /** One `onAction` notification: the tool's name and its argument. */
  datatype Action = Action(name: string, arg: Option<string>)

  /** The model, asked with the system prompt, the history and the tools on offer. */
  type Llm = (string, seq<Message>, seq<string>) -> Reply

  /** The two tools, as far as the dispatcher sees them: argument in, answer text out. */
  type SearchTool = string -> string
  type ContentsTool = Option<string> -> string

  /** `TOOL_MAP`: the tools that may follow a given one. */
  function ToolMap(name: string): Option<seq<string>> {
    if name == SearchWeb then Some([GetContents])
    else if name == GetContents then Some([])
    else None
  }

  /**
   * The tools offered after a round: the tool map's entry for the call's
   * name (the empty name without a call), or all tools. A search can be
   * followed only by reading contents, reading contents by nothing.
   */
  function NextTools(call: Option<Call>): (r: seq<string>)
    ensures forall i :: 0 <= i < |r| ==> r[i] in Tools
    ensures SearchWeb in r <==> !(call.Some? && call.value.name in {SearchWeb, GetContents})
    ensures GetContents in r <==> !(call.Some? && call.value.name == GetContents)
  {
    match ToolMap(if call.Some? then call.value.name else "")
    case Some(tools) => tools
    case None => Tools
  }

  /** Only the first tool call of a reply counts. */
  function FirstCall(r: Reply): Option<Call> {
    if |r.toolCalls| > 0 then Some(r.toolCalls[0]) else None
  }

  /** The search query, `"<empty>"` when the call has none. */
  function Query(c: Call): string {
    if "query" in c.arguments then c.arguments["query"] else "<empty>"
  }

  function Url(c: Call): Option<string> {
    if "url" in c.arguments then Some(c.arguments["url"]) else None
  }

  /** What serving a call queues and which notification it fires. */
  datatype Served = Served(responses: seq<string>, actions: seq<Action>)

  /** Serves the call, if any: one answer for a known tool, the unavailable notice for an unknown one. */
  function Serve(call: Option<Call>, search: SearchTool, contents: ContentsTool): Served {
    match call
    case None => Served([], [])
    case Some(c) =>
      if c.name == SearchWeb then Served([search(Query(c))], [Action(SearchWeb, Some(Query(c)))])
      else if c.name == GetContents then Served([contents(Url(c))], [Action(GetContents, Url(c))])
      else Served([UnavailablePrompt], [])
  }

  /** The answers queued in a round whose usage count is `usage`. */
  function Queue(usage: nat, call: Option<Call>, search: SearchTool, contents: ContentsTool): seq<string> {
    (if usage > ToolUseLimit then [LimitPrompt] else []) + Serve(call, search, contents).responses
  }

  /** The history ends with a search result, which the next round drops. */
  predicate EndsWithSearch(h: seq<Message>, searchPrefix: string) {
    |h| > 0 && StartsWith(h[|h| - 1].content, searchPrefix)
  }

  function Popped(h: seq<Message>, searchPrefix: string): seq<Message> {
    if EndsWithSearch(h, searchPrefix) then h[..|h| - 1] else h
  }

  function SystemMessage(text: string): Message {
    Message("system", text, None)
  }

  function SystemMessages(texts: seq<string>): (ms: seq<Message>)
    ensures |ms| == |texts|
    ensures forall i :: 0 <= i < |ms| ==> ms[i].role == "system" && ms[i].content == texts[i]
  {
    seq(|texts|, i requires 0 <= i < |texts| => SystemMessage(texts[i]))
  }

  /** Non-empty text: what JavaScript treats as a true `content`. */
  predicate HasText(r: Reply) {
    r.content.Some? && r.content.value != ""
  }

  /**
   * The end of a run of `processResponse`: the text returned (`None` when
   * the fuel ran out first), the history and the notifications fired.
   */
  datatype Outcome = Outcome(content: Option<string>, history: seq<Message>, actions: seq<Action>)

  /** The rounds of `processResponse`, at most `fuel` more after this one. */
  function Process(reply: Reply, h: seq<Message>, searchPrefix: string, systemPrompt: string, usage0: nat, fuel: nat,
                   llm: Llm, search: SearchTool, contents: ContentsTool): Outcome
    decreases fuel, 1
  {
    var call := FirstCall(reply);
    var queue := Queue(usage0 + 1, call, search, contents);
    var acts := Serve(call, search, contents).actions;
    if |queue| == 0 then Outcome(Some(reply.content.GetOr("")), Popped(h, searchPrefix), acts)
    else Continue(Pushed(h, searchPrefix, queue), call, acts, searchPrefix, systemPrompt, usage0 + 1, fuel, llm, search, contents)
  }

  /** A round that queued answers: the model is asked again with the history `h2`. */
  function Continue(h2: seq<Message>, call: Option<Call>, acts: seq<Action>, searchPrefix: string, systemPrompt: string,
                    usage: nat, fuel: nat, llm: Llm, search: SearchTool, contents: ContentsTool): Outcome
    decreases fuel, 0
  {
    var next := llm(systemPrompt, h2, NextTools(call));
    if HasText(next) then Outcome(next.content, h2, acts)
    else if fuel == 0 then Outcome(None, h2, acts)
    else
      var rest := Process(next, h2, searchPrefix, systemPrompt, usage, fuel - 1, llm, search, contents);
      Outcome(rest.content, rest.history, acts + rest.actions)
  }

  // ---------------------------------------------------------------------
  // Properties of a round and of a run
  // ---------------------------------------------------------------------

  /**
   * Past the fifth round the limit directive is queued first; up to it the
   * queue is just what serving the call gave. A round queues at most two
   * answers, and none exactly when it is within the limit and has no call.
   */
  lemma QueueShape(usage: nat, call: Option<Call>, search: SearchTool, contents: ContentsTool)
    ensures var q := Queue(usage, call, search, contents);
      |q| <= 2
      && (usage > ToolUseLimit ==> |q| >= 1 && q[0] == LimitPrompt)
      && (usage <= ToolUseLimit ==> q == Serve(call, search, contents).responses)
      && (|q| == 0 <==> usage <= ToolUseLimit && call.None?)
  {
  }

  /**
   * Serving: a search is run on the query (or `"<empty>"`), contents are
   * read from the URL, both announced; any other name queues the
   * unavailable notice unannounced; no call queues and announces nothing.
   */
  lemma ServeRules(call: Option<Call>, search: SearchTool, contents: ContentsTool)
    ensures var s := Serve(call, search, contents);
      |s.responses| == (if call.Some? then 1 else 0)
      && |s.actions| == (if call.Some? && call.value.name in {SearchWeb, GetContents} then 1 else 0)
      && (call.Some? && call.value.name !in {SearchWeb, GetContents} ==> s.responses == [UnavailablePrompt])
      && (call.Some? && call.value.name == SearchWeb ==>
            s.responses == [search(Query(call.value))] && s.actions[0].arg == Some(Query(call.value)))
      && (call.Some? && call.value.name == GetContents ==>
            s.responses == [contents(Url(call.value))] && s.actions[0].arg == Url(call.value))
  {
  }

  /** A call without a query searches for `"<empty>"`. */
  lemma EmptyQuery(c: Call)
    requires "query" !in c.arguments
    ensures Query(c) == "<empty>"
  {
  }

  /** Popping drops at most the last entry. */
  lemma PoppedPrefix(h: seq<Message>, searchPrefix: string)
    ensures Popped(h, searchPrefix) <= h && |h| - 1 <= |Popped(h, searchPrefix)|
  {
  }

  /** Popping after an append never reaches into what was there before. */
  lemma PoppedAppend(a: seq<Message>, b: seq<Message>, searchPrefix: string)
    requires |b| > 0
    ensures a <= Popped(a + b, searchPrefix)
  {
    assert (a + b)[..|a + b| - 1][..|a|] == a;
  }

  lemma PrefixTrans<T>(a: seq<T>, b: seq<T>, c: seq<T>)
    requires a <= b && b <= c
    ensures a <= c
  {
    assert c[..|a|] == b[..|a|];
  }

  /**
   * The history a run leaves behind keeps the history it was given, less
   * the trailing search result if there was one: every round only appends,
   * and only pops an entry it appended itself.
   */
  lemma {:induction false} ProcessKeepsHistory(reply: Reply, h: seq<Message>, searchPrefix: string, systemPrompt: string,
                                               usage0: nat, fuel: nat, llm: Llm, search: SearchTool, contents: ContentsTool)
    ensures Popped(h, searchPrefix) <= Process(reply, h, searchPrefix, systemPrompt, usage0, fuel, llm, search, contents).history
    decreases fuel, 1
  {
    var call := FirstCall(reply);
    var queue := Queue(usage0 + 1, call, search, contents);
    if |queue| > 0 {
      var acts := Serve(call, search, contents).actions;
      var h2 := Pushed(h, searchPrefix, queue);
      ContinueKeepsHistory(h2, call, acts, searchPrefix, systemPrompt, usage0 + 1, fuel, llm, search, contents);
      PoppedAppend(Popped(h, searchPrefix), SystemMessages(queue), searchPrefix);
      PrefixTrans(Popped(h, searchPrefix), Popped(h2, searchPrefix),
                  Continue(h2, call, acts, searchPrefix, systemPrompt, usage0 + 1, fuel, llm, search, contents).history);
    }
  }

  lemma {:induction false} ContinueKeepsHistory(h2: seq<Message>, call: Option<Call>, acts: seq<Action>, searchPrefix: string,
                                                systemPrompt: string, usage: nat, fuel: nat,
                                                llm: Llm, search: SearchTool, contents: ContentsTool)
    ensures Popped(h2, searchPrefix) <= Continue(h2, call, acts, searchPrefix, systemPrompt, usage, fuel, llm, search, contents).history
    decreases fuel, 0
  {
    PoppedPrefix(h2, searchPrefix);
    var next := llm(systemPrompt, h2, NextTools(call));
    if !HasText(next) && fuel > 0 {
      ProcessKeepsHistory(next, h2, searchPrefix, systemPrompt, usage, fuel - 1, llm, search, contents);
    }
  }

  /**
   * A round that queues something ends the run with the model's next text
   * when there is one, with everything queued appended as system messages
   * after the (popped) history and nothing else changed.
   */
  lemma RoundAppends(reply: Reply, h: seq<Message>, searchPrefix: string, systemPrompt: string, usage0: nat, fuel: nat,
                     llm: Llm, search: SearchTool, contents: ContentsTool)
    requires |Queue(usage0 + 1, FirstCall(reply), search, contents)| > 0
    requires var q := Queue(usage0 + 1, FirstCall(reply), search, contents);
      HasText(llm(systemPrompt, Popped(h, searchPrefix) + SystemMessages(q), NextTools(FirstCall(reply))))
    ensures var q := Queue(usage0 + 1, FirstCall(reply), search, contents);
      var o := Process(reply, h, searchPrefix, systemPrompt, usage0, fuel, llm, search, contents);
      o.history == Popped(h, searchPrefix) + SystemMessages(q)
      && |o.history| == |Popped(h, searchPrefix)| + |q|
      && o.content.Some? && o.content.value != ""
  {
  }

  /** A round that queues something continues with the pushed history and the round's notifications. */
  lemma BusyRound(reply: Reply, h: seq<Message>, searchPrefix: string, systemPrompt: string, usage0: nat, fuel: nat,
                  llm: Llm, search: SearchTool, contents: ContentsTool)
    requires |Queue(usage0 + 1, FirstCall(reply), search, contents)| > 0
    ensures var call := FirstCall(reply);
      var q := Queue(usage0 + 1, call, search, contents);
      Process(reply, h, searchPrefix, systemPrompt, usage0, fuel, llm, search, contents)
      == Continue(Pushed(h, searchPrefix, q), call, Serve(call, search, contents).actions, searchPrefix, systemPrompt,
                  usage0 + 1, fuel, llm, search, contents)
  {
  }

  /** A round that queues nothing returns the reply's own text (or "") and only pops. */
  lemma QuietRound(reply: Reply, h: seq<Message>, searchPrefix: string, systemPrompt: string, usage0: nat, fuel: nat,
                   llm: Llm, search: SearchTool, contents: ContentsTool)
    requires usage0 + 1 <= ToolUseLimit && |reply.toolCalls| == 0
    ensures var o := Process(reply, h, searchPrefix, systemPrompt, usage0, fuel, llm, search, contents);
      o == Outcome(Some(reply.content.GetOr("")), Popped(h, searchPrefix), [])
  {
  }

  /** The history after a round that queued `queue`: the popped history with the queue appended. */
  function Pushed(h: seq<Message>, searchPrefix: string, queue: seq<string>): seq<Message> {
    Popped(h, searchPrefix) + SystemMessages(queue)
  }

  /** A run that returns text returns non-empty text. */
  predicate NonEmptyText(o: Outcome) {
    o.content.Some? ==> o.content.value != ""
  }

  /**
   * Once the limit is reached every round queues the directive, so the run
   * can only end with non-empty text from the model (or run out of fuel).
   */
  lemma {:induction false} PastLimitEndsWithText(reply: Reply, h: seq<Message>, searchPrefix: string, systemPrompt: string,
                                                 usage0: nat, fuel: nat, llm: Llm, search: SearchTool, contents: ContentsTool)
    requires usage0 >= ToolUseLimit
    ensures NonEmptyText(Process(reply, h, searchPrefix, systemPrompt, usage0, fuel, llm, search, contents))
    decreases fuel, 1
  {
    var call := FirstCall(reply);
    var queue := Queue(usage0 + 1, call, search, contents);
    assert |queue| > 0;
    ContinueEndsWithText(Pushed(h, searchPrefix, queue), call, Serve(call, search, contents).actions, searchPrefix,
                         systemPrompt, usage0 + 1, fuel, llm, search, contents);
  }

  lemma {:induction false} ContinueEndsWithText(h2: seq<Message>, call: Option<Call>, acts: seq<Action>, searchPrefix: string,
                                                systemPrompt: string, usage: nat, fuel: nat,
                                                llm: Llm, search: SearchTool, contents: ContentsTool)
    requires usage >= ToolUseLimit
    ensures NonEmptyText(Continue(h2, call, acts, searchPrefix, systemPrompt, usage, fuel, llm, search, contents))
    decreases fuel, 0
  {
    var next := llm(systemPrompt, h2, NextTools(call));
    if !HasText(next) && fuel > 0 {
      PastLimitEndsWithText(next, h2, searchPrefix, systemPrompt, usage, fuel - 1, llm, search, contents);
    }
  }

  // ---------------------------------------------------------------------
  // The dispatcher itself
  // ---------------------------------------------------------------------

  /** The conversation history `processResponse` pushes to and pops from. */
  class History {
    var entries: seq<Message>

    constructor(entries: seq<Message>)
      ensures this.entries == entries
    {
      this.entries := entries;
    }
  }

  /** The dispatch on the tool name inside `processResponse`: the answer is queued after `queued`. */
  method ServeCall(toolCall: Option<Call>, queued: seq<string>, search: SearchTool, contents: ContentsTool)
    returns (toolResponses: seq<string>, actions: seq<Action>)
    ensures toolResponses == queued + Serve(toolCall, search, contents).responses
    ensures actions == Serve(toolCall, search, contents).actions
  {
    toolResponses := queued;
    actions := [];
    if toolCall.Some? && toolCall.value.name == SearchWeb {
      var arg := Query(toolCall.value);
      actions := actions + [Action(SearchWeb, Some(arg))];
      toolResponses := toolResponses + [search(arg)];
    } else if toolCall.Some? && toolCall.value.name == GetContents {
      var arg := Url(toolCall.value);
      actions := actions + [Action(GetContents, arg)];
      toolResponses := toolResponses + [contents(arg)];
    } else if toolCall.Some? {
      toolResponses := toolResponses + [UnavailablePrompt];
    }
  }

  /** `processResponse`, with `fuel` bounding the number of further rounds. */
  method ProcessResponse(reply: Reply, history: History, searchPrefix: string, systemPrompt: string, usage0: nat, fuel: nat,
                         llm: Llm, search: SearchTool, contents: ContentsTool)
    returns (content: Option<string>, actions: seq<Action>)
    modifies history
    ensures Outcome(content, history.entries, actions)
         == Process(reply, old(history.entries), searchPrefix, systemPrompt, usage0, fuel, llm, search, contents)
    decreases fuel
  {
    ghost var h0 := history.entries;
    var toolResponses: seq<string> := [];
    var usage := usage0 + 1;
    if usage > ToolUseLimit {
      toolResponses := toolResponses + [LimitPrompt];
    }
    var toolCall := FirstCall(reply);
    if |history.entries| > 0 && StartsWith(history.entries[|history.entries| - 1].content, searchPrefix) {
      history.entries := history.entries[..|history.entries| - 1];
    }
    assert history.entries == Popped(h0, searchPrefix);
    toolResponses, actions := ServeCall(toolCall, toolResponses, search, contents);
    assert toolResponses == Queue(usage, toolCall, search, contents);
    if |toolResponses| != 0 {
      history.entries := history.entries + SystemMessages(toolResponses);
      assert history.entries == Pushed(h0, searchPrefix, toolResponses);
      BusyRound(reply, h0, searchPrefix, systemPrompt, usage0, fuel, llm, search, contents);
      var next := llm(systemPrompt, history.entries, NextTools(toolCall));
      if HasText(next) {
        return next.content, actions;
      }
      if fuel == 0 {
        return None, actions;
      }
      var more;
      content, more := ProcessResponse(next, history, searchPrefix, systemPrompt, usage, fuel - 1, llm, search, contents);
      actions := actions + more;
      return;
    }
    content := Some(reply.content.GetOr(""));
  }

  // ---------------------------------------------------------------------
  // The final answer
  // ---------------------------------------------------------------------

  const MessageOpen := "<message>"
  const MessageClose := "</message>"
  const ThoughtsOpen := "<think>"
  const ThoughtsClose := "</think>"

  /** What `answerChatMessage` returns: the rebuilt raw text, the thoughts and the message. */
  datatype Answer = Answer(raw: string, thoughts: string, message: string)

  /** The text with the message tag put in front when it has none. */
  function Tagged(content: string): string {
    if Contains(content, MessageOpen) then content else MessageOpen + "\n" + content
  }

  /** The raw text the answer is rebuilt into (its continuation lines indented by two tabs). */
  function AnswerRaw(thoughts: string, message: string): string {
    ThoughtsOpen + "\n\t\t" + thoughts + "\n\t\t" + ThoughtsClose + "\n\t\t" + MessageOpen + "\n\t\t" + message + "\n\t\t" + MessageClose
  }

  /** The message and thoughts cut out of the final text. */
  function Extract(content: string): (a: Answer)
    ensures !Contains(a.message, MessageOpen) && !Contains(a.message, MessageClose) && Trim(a.message) == a.message
    ensures !Contains(a.thoughts, ThoughtsOpen) && !Contains(a.thoughts, ThoughtsClose) && Trim(a.thoughts) == a.thoughts
  {
    var c := Tagged(content);
    var message := GetTag(MessageOpen, MessageClose, c);
    var thoughts := GetTag(ThoughtsOpen, ThoughtsClose, c);
    GetTagLacksTags(MessageOpen, MessageClose, c);
    GetTagLacksTags(ThoughtsOpen, ThoughtsClose, c);
    Answer(AnswerRaw(thoughts, message), thoughts, message)
  }

  /** Text the model wrote without any message tags is the whole message, trimmed. */
  lemma UntaggedAnswer(content: string)
    requires !Contains(content, MessageOpen) && !Contains(content, MessageClose)
    ensures Extract(content).message == Trim(content)
  {
    var body := "\n" + content;
    assert Tagged(content) == MessageOpen + body;
    LacksAfterNewline(content, MessageOpen);
    LacksAfterNewline(content, MessageClose);
    GetTagToEnd(MessageOpen, MessageClose, body);
    NewlineTrims(content);
  }

  /** A leading newline does not change what trimming leaves. */
  lemma NewlineTrims(s: string)
    ensures Trim("\n" + s) == Trim(s)
  {
    assert AllSpace("\n");
    TrimStartSpacePrefix("\n", s);
  }

  /** A newline in front of text that lacks a tag starting with `<` does not make one. */
  lemma LacksAfterNewline(s: string, t: string)
    requires |t| > 0 && t[0] == '<' && !Contains(s, t)
    ensures !Contains("\n" + s, t)
  {
    forall k | 0 <= k <= |"\n" + s| - |t| ensures !OccursAt("\n" + s, t, k) {
      if k > 0 {
        assert ("\n" + s)[k..k + |t|] == s[k - 1..k - 1 + |t|];
        assert !OccursAt(s, t, k - 1);
      } else {
        assert ("\n" + s)[0] == '\n';
      }
    }
  }

  /** A text opening with `open` and holding no other tag reads as everything after `open`. */
  lemma GetTagToEnd(open: string, close: string, body: string)
    requires |open| > 0 && |close| > 0
    requires !Contains(body, open) && !Contains(body, close)
    ensures GetTag(open, close, open + body) == Trim(body)
  {
    ShortLacks([], open);
    AfterFirst([], open, body);
    assert [] + open + body == open + body;
    BeforeNone(body, open);
    BeforeNone(body, close);
  }

  lemma BeforeNone(s: string, p: string)
    requires |p| > 0 && !Contains(s, p)
    ensures Before(s, p) == s
  {
  }
}
