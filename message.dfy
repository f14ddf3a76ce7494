/**
 * Builders for the messages sent to the language model: a plain message,
 * the framed user message, a stored (threaded) message and the history
 * that opens with the system prompt.
 */
module Messages {
  import opened Wrappers
  import opened Strings
  import opened ModelTypes
  import opened Prompt
  import opened Api
  import opened RawFacts

  /** `buildMessage`: role and text as given; absent images become the empty list. */
  function BuildMessage(role: string, response: string, images: Option<seq<string>>): (m: Message)
    ensures m.role == role && m.content == response && m.images.Some?
    ensures images.Some? ==> m.images == images
    ensures images.None? ==> m.images == Some([])
  {
    Message(role, response, Some(images.GetOr([])))
  }

  /** The metadata block of a user message: sender name and date, between the metadata tags. */
  function Metadata(senderName: string, date: string): string {
    MetadataStart + "\nName: " + senderName + "\nDate: " + date + "\n" + MetadataEnd
  }

  /** The text of a user message: the metadata block, then the message framed by the message tags. */
  function UserContent(message: string, senderName: string, date: string): string {
    Metadata(senderName, date) + "\n" + MessageStart + "\n" + message + "\n" + MessageEnd
  }

  /**
   * `buildUserMessage`. The date is the caller's `toLocaleString()` of the
   * current time, passed in.
   */
  function BuildUserMessage(message: string, senderName: string, images: seq<string>, date: string): (m: Message)
    ensures m.role == "user" && m.images == Some(images)
    ensures m.content == UserContent(message, senderName, date)
  {
    var c := UserContent(message, senderName, date);
    Message("user", c, Some(images))
  }

  /** The user text opens with the metadata tag and closes with the message end tag. */
  lemma UserContentFramed(message: string, senderName: string, date: string)
    ensures StartsWith(UserContent(message, senderName, date), MetadataStart)
    ensures EndsWith(UserContent(message, senderName, date), MessageEnd)
  {
    var n, d := senderName, date;
    Ends(MetadataStart, "\nName: ");
    StartsWithAppend(MetadataStart + "\nName: ", n, MetadataStart);
    StartsWithAppend(MetadataStart + "\nName: " + n, "\nDate: ", MetadataStart);
    StartsWithAppend(MetadataStart + "\nName: " + n + "\nDate: ", d, MetadataStart);
    StartsWithAppend(MetadataStart + "\nName: " + n + "\nDate: " + d, "\n", MetadataStart);
    StartsWithAppend(MetadataStart + "\nName: " + n + "\nDate: " + d + "\n", MetadataEnd, MetadataStart);
    var h := Metadata(n, d);
    StartsWithAppend(h, "\n", MetadataStart);
    StartsWithAppend(h + "\n", MessageStart, MetadataStart);
    StartsWithAppend(h + "\n" + MessageStart, "\n", MetadataStart);
    StartsWithAppend(h + "\n" + MessageStart + "\n", message, MetadataStart);
    StartsWithAppend(h + "\n" + MessageStart + "\n" + message, "\n", MetadataStart);
    StartsWithAppend(h + "\n" + MessageStart + "\n" + message + "\n", MessageEnd, MetadataStart);
    Ends(h + "\n" + MessageStart + "\n" + message + "\n", MessageEnd);
  }

  /** The metadata block and the newline after it hold no message tag when name and date hold no wrapper. */
  lemma MetadataLacksMessageTag(senderName: string, date: string)
    requires WrapperFree(senderName) && WrapperFree(date)
    ensures !Contains(Metadata(senderName, date) + "\n", MessageStart)
  {
    var a, b := "Name: " + senderName, "Date: " + date;
    assert !Contains(a, MessageStart) && !Contains(b, MessageStart) by {
      assert WrapperFree("Name: ") && WrapperFree("Date: ");
      AvoidsConcat("Name: ", senderName, Wrapper);
      AvoidsConcat("Date: ", date, Wrapper);
      WrapperFreeLacksTag(a, "message_start");
      WrapperFreeLacksTag(b, "message_start");
    }
    assert '\n' !in MessageStart && !Contains(MetadataStart, MessageStart) && !Contains(MetadataEnd, MessageStart)
        && !Contains("", MessageStart) by {
      MetadataTagsApart();
      ShortLacks("", MessageStart);
    }
    var y := MetadataStart + "\n" + a + "\n" + b + "\n" + MetadataEnd;
    MetadataLines(senderName, date);
    LinesLack(y, MetadataStart, a, b, MetadataEnd, MessageStart);
    LineLacks(y, "", MessageStart);
  }

  /** The metadata block is four lines: the tags around the name and the date. */
  lemma MetadataLines(senderName: string, date: string)
    ensures Metadata(senderName, date) + "\n"
         == MetadataStart + "\n" + ("Name: " + senderName) + "\n" + ("Date: " + date) + "\n" + MetadataEnd + "\n" + ""
  {
  }

  /** The message tag holds no newline and does not occur in the metadata tags. */
  lemma MetadataTagsApart()
    ensures '\n' !in MessageStart && !Contains(MetadataStart, MessageStart) && !Contains(MetadataEnd, MessageStart)
  {
    TagNotInTag("metadata_start", "message_start");
    TagNotInTag("metadata_end", "message_start");
    NewlineNotInTag("message_start");
  }

  /**
   * The message section of a user message reads back as the trimmed message
   * when none of the three texts holds a wrapper character.
   */
  lemma UserMessageReadsBack(message: string, senderName: string, images: seq<string>, date: string)
    requires WrapperFree(message) && WrapperFree(senderName) && WrapperFree(date)
    ensures GetTag(MessageStart, MessageEnd, BuildUserMessage(message, senderName, images, date).content) == Trim(message)
  {
    var pre := Metadata(senderName, date) + "\n";
    MetadataLacksMessageTag(senderName, date);
    MessageTags();
    WrapperFreeLacksTag(message, "message_start");
    WrapperFreeLacksTag(message, "message_end");
    var x := UserContent(message, senderName, date);
    assert x == pre + MessageStart + "\n" + message + "\n" + MessageEnd + [];
    ReadFramedLine(MessageStart, MessageEnd, x, pre, message, []);
  }

  /** `threaded`: every field kept, the sender id set, -1 only when it is absent. */
  function Threaded(message: Message, fromId: Option<int>): (t: ThreadMessage)
    ensures t.role == message.role && t.content == message.content && t.images == message.images
    ensures fromId.Some? ==> t.fromId == fromId
    ensures fromId.None? ==> t.fromId == Some(-1)
  {
    ThreadMessage(message.role, message.content, message.images, Some(fromId.GetOr(-1)))
  }

  /**
   * `buildHistory`: the system message, then the messages. The system text
   * is the supplied prompt when there is one, otherwise the prompt built
   * from the tools and the preferences (`{}` when there are none);
   * `render` stands for the prompt's wording of its blocks.
   */
  function BuildHistory(messages: seq<Message>, tools: seq<ToolDefinition>, prefs: Option<Preferences>,
                        systemPrompt: Option<string>, env: string, firstUpperCase: string -> string,
                        render: seq<Block> -> string): (h: seq<Message>)
    ensures |h| == |messages| + 1
    ensures h[0].role == "system" && h[0].images == Some([])
    ensures h[1..] == messages
    ensures systemPrompt.Some? ==> h[0].content == systemPrompt.value
    ensures systemPrompt.None? ==> h[0].content == render(SystemPrompt(tools, prefs.GetOr(NoPreferences), env, firstUpperCase))
  {
    var text := match systemPrompt
      case Some(p) => p
      case None => render(SystemPrompt(tools, prefs.GetOr(NoPreferences), env, firstUpperCase));
    [BuildMessage("system", text, None)] + messages
  }
}
