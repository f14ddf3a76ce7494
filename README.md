# tg-local-llm: the text protocol around the language model

This project models, in Dafny, the part of the tg-local-llm Telegram bot that
speaks to the language model in text. It covers these pieces:

- **Tagged sections.** The tag constants (`σ̌name σ̌`), the decoding grammar,
  and `getTag`, which cuts a section out of the model's text.
- **The streaming loop of `generate`.** A per-tag record of content, chunks
  and sent-at position decides when a partial update goes out. It is followed
  by the final flush, the tool-call filter and the canonical `raw` text.
- **Message builders and the tool-response envelope.** Together with them,
  the structure of the system prompt.
- **The content chunker of the shredder sub-agent.** It also builds the
  header table.
- **The two tool dispatchers, `chat.ts` and `response.ts`.** These cover the
  usage counter, the limit directive, the fallback for unknown tools, and the
  in-place pushes and pops on the history.
- **The formatters.** Search-result listings, full-width headers, and the HTML
  escapes at the head of the Markdown-to-HTML conversion.

The language model, the tools, the search engine and the JSON parser are
oracles: function-typed parameters. Clocks, the environment and
`encodeURIComponent` are parameters too. Every claim below is about the model
for every value of those oracles.

Modules, one per source file:

| module | file |
|---|---|
| `Strings` | `strings.dfy`: JavaScript string operations (`split`, `trim`, `indexOf`, `includes`, `replaceAll`, `toUpperCase`) on `seq<char>` |
| `Prompt` | `prompt.dfy`: `src/services/model/prompt.ts` |
| `Api` | `api.dfy`: `getTag` and `generate` from `src/services/model/api.ts` |
| `StreamFacts`, `RawFacts` | `stream_facts.dfy`, `raw_facts.dfy`: properties of `generate` |
| `Grammar` | `grammar.dfy`: `src/services/model/grammar.ts` |
| `Json` | `json.dfy`: `JSON.stringify` and `Object.entries` on a JSON value |
| `Messages` | `message.dfy`: `src/services/model/message.ts` |
| `ToolResponses` | `tool_response.dfy`: `src/services/tools/utils.ts` |
| `Shredder` | `shredder.dfy`: `src/services/model/sub-agents/shredder.ts` |
| `Chat` | `chat.dfy`: `src/services/chat.ts` |
| `Responder` | `response.dfy`: `src/services/response.ts` |
| `WebSearch` | `web_search.dfy`: `src/services/tools/web-search.ts` |
| `Search` | `search.dfy`: `src/services/tools/search.ts` |
| `Formatting` | `formatting.dfy`: `src/services/formatting.ts` |

The stateful code keeps its imperative form:

- Each tag record of `generate` is a class, `Api.TagState`. Its `Observe` and
  `FlushRemainder` methods are proved against the pure `Step`/`Emit`/`Flush`
  functions.
- `Shredder.SplitContent` and `Shredder.ShredContent` are loops.
- Both dispatchers mutate a `Chat.History` object in place. Their
  `ProcessResponse` methods are proved equal to the recursive `Process`
  functions, and the lemmas state the properties of those functions.

Two properties one might expect fail for the code as written:

- **The tool-response envelope is not injective.** It is injective in the
  summary and guide for a fixed prefix. Across prefixes it is not, because a
  prefix may end in the fence the summary starts with
  (`ToolResponses.EnvelopeSplitAmbiguous`).
- **The tool section of `raw` does not re-parse as a tool call.**
  `JSON.stringify` of the call writes the key `name`, not `tool_name`
  (`RawFacts.RawToolNotReparsed`).

The count of partial updates is characterised exactly: the k-th update needs
more than k·chunkSize characters. This does not reduce to ⌈length/chunkSize⌉,
because one delta crosses at most one threshold.

## Model

| member | source | states |
|---|---|---|
| Prompt.Tag | src/services/model/prompt.ts:5-20 | a tag is the wrapper, the name, the wrapper: four characters longer than its name |
| Prompt.TagChars | src/services/model/prompt.ts:5-20 | the wrapper's σ occurs in a tag exactly at its two ends, and the name sits between them |
| Prompt.TagInTag | src/services/model/prompt.ts:7-20 | one tag occurs inside another only when the two are the same tag, at position 0 |
| Prompt.TagNotInTag | src/services/model/prompt.ts:7-20 | tags with different names never contain each other |
| Prompt.TagsWellFormed | src/services/model/prompt.ts:7-20 | there are fourteen tag constants, each built from a `[a-z_]+` name |
| Prompt.TagsApart | src/services/model/prompt.ts:7-20 | the fourteen tags are pairwise distinct and none is a substring of another |
| Prompt.WrapperFreeLacksTag | src/services/model/prompt.ts:5-20 | text without a wrapper character contains no tag |
| Prompt.NewlineNotInTag | src/services/model/prompt.ts:5-20 | no tag contains a line break |
| Prompt.Names | src/services/model/prompt.ts:23-25 | one name per comma-separated piece of the (defaulted) variable, trimmed and lower-cased, never an empty list |
| Prompt.NamesBlank | src/services/model/prompt.ts:23 | a blank variable gives exactly `["laylo"]` |
| Prompt.NamesSplit | src/services/model/prompt.ts:23-25 | comma-joined names come back one per piece, in order |
| Prompt.AliasList | src/services/model/prompt.ts:34 | the alias list has one capitalised entry per name |
| Prompt.AlsoClauseAlways | src/services/model/prompt.ts:27-34 | the alias list is never empty and starts with the main name, so the "(also …)" clause is always written |
| Prompt.ToolLines | src/services/model/prompt.ts:59 | one catalogue line per tool, in input order |
| Prompt.ToolLineSingle | src/services/model/prompt.ts:59 | a catalogue line of single-line tool text is a single line |
| Prompt.JoinSingleLine | src/services/model/prompt.ts:59 | joining single lines with a single-line separator gives a single line |
| Prompt.CatalogueLines | src/services/model/prompt.ts:59 | splitting the catalogue at line breaks gives back exactly the tool lines |
| Prompt.LayoutNsfw | src/services/model/prompt.ts:50 | the NSFW passage is in the prompt exactly when the nsfw preference is set |
| Prompt.LayoutCalm | src/services/model/prompt.ts:35-43 | with no extreme state, the helpful, tone and social-rule passages are present and no extreme passage is |
| Prompt.LayoutExtreme | src/services/model/prompt.ts:35-43 | with an extreme state, both extreme passages carry it, and the helpful, tone and social-rule passages are absent |
| Prompt.LayoutFrame | src/services/model/prompt.ts:33-59 | the prompt opens with the identity line and holds the tool catalogue |
| Prompt.SystemPromptNsfw | src/services/model/prompt.ts:50 | the NSFW line appears iff the preference is set |
| Prompt.SystemPromptCalm | src/services/model/prompt.ts:35-43 | without an extreme state the helpful, tone and social-rule passages appear and no extreme passage does |
| Prompt.SystemPromptExtreme | src/services/model/prompt.ts:35-43 | with an extreme state its passages appear, carrying the state, and the helpful, tone and social-rule passages do not |
| Prompt.SystemPromptFixed | src/services/model/prompt.ts:33-59 | the prompt opens with the identity line and always holds the tool catalogue |
| Api.GetTagAbsent | src/services/model/api.ts:39-40 | `getTag` is "" when the opening tag does not occur |
| Api.GetTagLacksTags | src/services/model/api.ts:39-40 | the result never contains either tag and is already trimmed |
| Api.GetTagSlice | src/services/model/api.ts:39-40 | the result is the trimmed text after the first opening tag, up to the next opening tag, the closing tag or the end |
| Api.GetTagFramed | src/services/model/api.ts:39-40 | for a body framed by the tags and free of them, `getTag` gives the trimmed body |
| Api.AfterFirst | src/services/model/api.ts:39-40 | the text after the first occurrence of a tag is everything after the tag, when the text before it holds none |
| Api.CutAtClose | src/services/model/api.ts:40 | cutting a framed body at the next opening tag and then at the closing tag leaves exactly the body |
| Api.BeforeEnds | src/services/model/api.ts:40 | the text before a separator stops at the first occurrence of the separator or at the end |
| Api.OpenOf | src/services/model/api.ts:72-97 | every tracked section has a non-empty opening tag |
| Api.CloseOf | src/services/model/api.ts:72-97 | every tracked section has a non-empty closing tag |
| Api.Step | src/services/model/api.ts:113-125 | a record takes the new content; on a crossing its chunk count grows by one and the sent-at position becomes the content length, otherwise both stay |
| Api.Crossings | src/services/model/api.ts:113-125 | the chunk count is one more than the number of crossings; the k-th crossing is longer than k·chunkSize; crossings strictly grow; sent-at is the last one |
| Api.StepKeepsTallyOk | src/services/model/api.ts:113-125 | the record invariant (one chunk and nothing sent, or sent-at beyond the threshold of the last crossing) is preserved by every delta |
| Api.FirstFinish | src/services/model/api.ts:99-108 | reading stops at the first finish frame; every frame before it is a delta |
| Api.FirstFinishIs | src/services/model/api.ts:99-108 | the position of the first finish frame is unique |
| Api.ScalarsMembers | src/services/model/api.ts:148-153 | an entry is among the parameters iff it is an entry of `parameters` whose value is a string or a number |
| Api.ScalarsCount | src/services/model/api.ts:148-153 | each kept entry occurs as often as in the input; no other entry occurs |
| Api.ScalarsAppend | src/services/model/api.ts:148-153 | the filter keeps order: the kept entries of a concatenation are those of the first part followed by those of the second |
| Api.ScalarsSingle | src/services/model/api.ts:151 | a single entry is kept iff its value is a string or a number |
| Api.ParseTool | src/services/model/api.ts:140-159 | a tool call exists iff the section is non-blank and parses to an object with both keys; its name is `tool_name` and its parameters are the scalar entries of `parameters`, filtered in order |
| Api.ImageOf | src/services/model/api.ts:139 | the image is the trimmed section, or none when that is blank |
| Api.TagState.constructor | src/services/model/api.ts:72-97 | a fresh record is empty, with one chunk and sent-at 0 |
| Api.TagState.Observe | src/services/model/api.ts:113-125 | the record advances by one step and the emitted updates are those of the step |
| Api.TagState.FlushRemainder | src/services/model/api.ts:128-136 | the flush emits what the final-flush rule gives for this record |
| Api.Advance | src/services/model/api.ts:109-125 | one delta updates the accumulated text, all three records and the event log as the functional step does |
| Api.ReadStream | src/services/model/api.ts:99-126 | the loop stops at the first finish frame and leaves the state the functional reading gives |
| Api.Generate | src/services/model/api.ts:45-171 | the response and the emitted updates are those of the functional model of `generate` |
| StreamFacts.Seen | src/services/model/api.ts:113-114 | one section content per delta read |
| StreamFacts.FoldAppend | src/services/model/api.ts:113-125 | the records evolve delta by delta |
| StreamFacts.FoldContent | src/services/model/api.ts:114 | a record holds the section content after the last delta |
| StreamFacts.ListenTracks | src/services/model/api.ts:99-126 | after n deltas the accumulated text is their concatenation and each record is the fold of its section contents |
| StreamFacts.ReadRecords | src/services/model/api.ts:113-125 | at the finish frame, each record's chunk count is one more than its crossings, each crossing k longer than k·chunkSize |
| StreamFacts.CountSingle | src/services/model/api.ts:120 | an update counts for its own section only |
| StreamFacts.CountAppend | src/services/model/api.ts:113-136 | update counts add up over the log |
| StreamFacts.UpdatesFacts | src/services/model/api.ts:113-125 | one delta sends no tool update, nothing in tool-prompt mode, at most one per section, one per crossing |
| StreamFacts.ListenEvents | src/services/model/api.ts:113-125 | the streaming updates per section number its chunk count minus one, never for the tool section and none in tool-prompt mode |
| StreamFacts.FlushFacts | src/services/model/api.ts:128-136 | the flush sends at most one update per non-tool section, exactly when its content is longer than sent-at, carrying that content |
| StreamFacts.EventsFacts | src/services/model/api.ts:113-136 | over the whole call: no tool update, none in tool-prompt mode, crossings plus an optional final update per section |
| StreamFacts.ListenPrefix | src/services/model/api.ts:99-108 | frames after the ones read do not change the state reached |
| StreamFacts.FinishEndsReading | src/services/model/api.ts:105-108 | reading stops at the first finish frame and its total tokens are reported |
| StreamFacts.NoFinishNoTokens | src/services/model/api.ts:70-106 | without a finish frame the token count is 0 |
| RawFacts.MessageTags | src/services/model/prompt.ts:11-12 | the message tags hold no line break and the closing one does not contain the opening one |
| RawFacts.ReplyTags | src/services/model/prompt.ts:9-14 | the section tags hold no line break and do not contain each other |
| RawFacts.ToolText | src/services/model/api.ts:163 | the JSON text of a wrapper-free call is trimmed, non-empty and contains no section tag |
| RawFacts.ReadFramedLine | src/services/model/api.ts:39-40 | a tag-framed line in `raw` reads back with `getTag` |
| RawFacts.RawMessage | src/services/model/api.ts:161-168 | `getTag` of the message section of `raw` gives back the trimmed message |
| RawFacts.ResponseMessage | src/services/model/api.ts:138-170 | for every stream, `getTag` of the message section of the returned `raw` equals the returned `message` |
| RawFacts.RawTool | src/services/model/api.ts:162-164 | `raw` holds a tool section iff there is a tool call, and that section reads back as the call's JSON text |
| RawFacts.HeadLacks | src/services/model/api.ts:161 | the message section of `raw` contains no tool or attachment tag |
| RawFacts.SectionTags | src/services/model/prompt.ts:9-14 | the tool and attachment tags hold no line break and their closing tag lacks the opening one |
| RawFacts.SectionFramed | src/services/model/api.ts:162-168 | a section appended after the front of `raw` reads back as its body |
| RawFacts.RawImage | src/services/model/api.ts:165-168 | `raw` holds an attachment section iff there is an image, and it reads back as the trimmed image |
| RawFacts.FrontLacksImage | src/services/model/api.ts:161-164 | the message and tool sections of `raw` contain no attachment tag |
| RawFacts.ImageFramed | src/services/model/api.ts:166 | the attachment section reads back as the trimmed image |
| RawFacts.RawToolNotReparsed | src/services/model/api.ts:145-163 | the tool section of `raw` is written with the key `name` and so never parses back as a tool call |
| Grammar.AsciiFree | src/services/model/grammar.ts:16-17 | ASCII text holds no wrapper character |
| Grammar.ValuesFree | src/services/model/grammar.ts:15-22 | admitted parameter values render without a wrapper character |
| Grammar.ParamFree | src/services/model/grammar.ts:22 | an admitted parameter renders without a wrapper character |
| Grammar.ToolBodyFree | src/services/model/grammar.ts:23-25 | an admitted tool body renders without a wrapper character |
| Grammar.AttachmentFree | src/services/model/grammar.ts:18-27 | an admitted attachment body renders without a wrapper character |
| Grammar.FreeLacksTags | src/services/model/grammar.ts:14 | wrapper-free text contains none of the six section tags |
| Grammar.SecToolLacks | src/services/model/grammar.ts:25 | a tool section contains no message or attachment tag |
| Grammar.SecMessageLacks | src/services/model/grammar.ts:20 | a message section contains no tool or attachment tag |
| Grammar.SecAttachmentLacks | src/services/model/grammar.ts:27 | an attachment section contains no tool or message tag |
| Grammar.MessageIn | src/services/model/grammar.ts:20 | a message section after tag-free text reads back as the trimmed body |
| Grammar.NoSection | src/services/model/api.ts:39-40 | `getTag` is "" for text without the opening tag |
| Grammar.MessageAfterTool | src/services/model/grammar.ts:12-25 | after a tool section, the message section still reads back as its trimmed body |
| Grammar.MessageNotInTool | src/services/model/grammar.ts:25 | a lone tool section has no message |
| Grammar.AdmittedMessage | src/services/model/grammar.ts:12-20 | for every admitted reply, `getTag` of the message gives the trimmed body, or "" when there is none |
| Grammar.LeadingSection | src/services/model/grammar.ts:20-25 | a section at the start reads back as its trimmed body |
| Grammar.ToolIn | src/services/model/grammar.ts:25 | a tool section reads back as its trimmed body |
| Grammar.ToolNotInMessage | src/services/model/grammar.ts:20 | a message section followed by no tool tag has no tool |
| Grammar.AdmittedTool | src/services/model/grammar.ts:12-25 | for every admitted reply, `getTag` of the tool gives the trimmed body, or "" when there is none |
| Grammar.AttachmentIn | src/services/model/grammar.ts:27 | a trailing attachment section reads back as its trimmed body |
| Grammar.FrontLacksImageTag | src/services/model/grammar.ts:20-25 | tool and message sections contain no attachment tag |
| Grammar.ImageNotInFront | src/services/model/grammar.ts:12 | a reply without an attachment section has no attachment |
| Grammar.AdmittedAttachment | src/services/model/grammar.ts:12-27 | for every admitted reply, `getTag` of the attachment gives the trimmed body, or "" when there is none |
| Grammar.ToolLeads | src/services/model/grammar.ts:25 | a text starting with a tool section has the tool tag first, at position 0 |
| Grammar.MessageTagAfterTool | src/services/model/grammar.ts:12 | after a tool section the first message tag comes right after it |
| Grammar.MessageLeads | src/services/model/grammar.ts:20 | a message section starts with the message tag and not the tool tag |
| Grammar.ToolFirst | src/services/model/grammar.ts:12 | an admitted reply starts with the tool tag iff it has a tool section; otherwise it starts with the message; the tool always precedes the message |
| Grammar.EmptyToolSectionNoCall | src/services/model/api.ts:142 | an empty tool section yields no tool call |
| Grammar.SingleParam | src/services/model/grammar.ts:23 | a parameter list of one parameter renders as that parameter |
| Grammar.AdmitsValuelessParameter | src/services/model/grammar.ts:22 | the grammar admits `{"tool_name":"k","parameters":{"k":}}`, which is not JSON |
| Json.EscapeChar | src/services/model/api.ts:163 | every character escapes to a non-empty text |
| Json.Stringify | src/services/model/api.ts:163 | the JSON text is non-empty and starts and ends with a non-space |
| Json.AsciiAvoids | src/services/model/api.ts:163 | ASCII text avoids any set of non-ASCII characters |
| Json.QuoteAvoids | src/services/model/api.ts:163 | quoting keeps a text free of non-ASCII characters it avoided |
| Json.StringifyAvoids | src/services/model/api.ts:163 | the JSON text of a value avoids non-ASCII characters its strings avoid |
| Json.Entries | src/services/model/api.ts:149 | `Object.entries`: object members; index/item pairs for arrays and strings; nothing for scalars; a throw for null |
| Json.Lookup | src/services/model/api.ts:145-147 | the value looked up under a present key is a member under that key |
| Json.LookupDistinct | src/services/model/api.ts:145-147 | in an object with distinct keys, as `JSON.parse` builds it, the value looked up under a key is the one member carrying that key |
| Messages.BuildMessage | src/services/model/message.ts:17-27 | role and content are copied; images default to `[]` |
| Messages.BuildUserMessage | src/services/model/message.ts:29-41 | a user message with the given images and the metadata-then-message content |
| Messages.UserContentFramed | src/services/model/message.ts:34-38 | the content starts with the metadata tag and ends with the message end tag |
| Messages.MetadataLacksMessageTag | src/services/model/message.ts:34 | wrapper-free metadata contains no message tag |
| Messages.UserMessageReadsBack | src/services/model/message.ts:29-41 | for wrapper-free text, `getTag` of the message section gives back the trimmed message |
| Messages.Threaded | src/services/model/message.ts:43-47 | every field is kept and `fromId` is set, defaulting to -1 only when absent |
| Messages.BuildHistory | src/services/model/message.ts:49-60 | one system message first, carrying the given prompt verbatim or the rendered one, then the messages unchanged |
| ToolResponses.EnvelopeIsHeadThenGuide | src/services/tools/utils.ts:13 | the envelope is the response part followed by the guide section |
| ToolResponses.EnvelopeFramed | src/services/tools/utils.ts:13 | the envelope starts with the response tag and ends with the guide end tag |
| ToolResponses.HeadLacks | src/services/tools/utils.ts:13 | the response part of wrapper-free arguments holds no tag but its own two |
| ToolResponses.EnvelopeLacks | src/services/tools/utils.ts:13 | for wrapper-free arguments the envelope contains no tag other than its four |
| ToolResponses.EnvelopeHasNoSections | src/services/tools/utils.ts:13 | for wrapper-free arguments reading a message or tool section gives "" |
| ToolResponses.EnvelopeGuide | src/services/tools/utils.ts:13 | for wrapper-free arguments the guide section reads back as the trimmed guide |
| ToolResponses.EnvelopeParts | src/services/tools/utils.ts:13 | the envelope is the head with the prefix, the fenced summary, then the tail with the guide |
| ToolResponses.EnvelopeInjective | src/services/tools/utils.ts:13 | for a fixed prefix and wrapper-free summaries, equal envelopes have equal summaries and guides |
| ToolResponses.EnvelopeSplitAmbiguous | src/services/tools/utils.ts:13 | two different wrapper-free argument triples give the same envelope |
| Shredder.ChunksConcat | src/services/model/sub-agents/shredder.ts:4-10 | the chunks concatenate back to the data |
| Shredder.ChunksSizes | src/services/model/sub-agents/shredder.ts:6-8 | every chunk is non-empty and at most the width; all but the last have exactly the width |
| Shredder.CeilDivStep | src/services/model/sub-agents/shredder.ts:6 | ⌈len/n⌉ drops by one with each full chunk |
| Shredder.ChunksCount | src/services/model/sub-agents/shredder.ts:6 | there are ⌈length/width⌉ chunks, none for empty data |
| Shredder.ChunksFrom | src/services/model/sub-agents/shredder.ts:6-8 | the chunks from position i are the substring there followed by the chunks after it |
| Shredder.SplitContent | src/services/model/sub-agents/shredder.ts:4-10 | the loop returns exactly the fixed-width chunks (width > 0) |
| Shredder.ShredContent | src/services/model/sub-agents/shredder.ts:12-34 | the loop returns the header table of the 10000-wide chunks, or none when a header fails to parse |
| Shredder.FileValues | src/services/model/sub-agents/shredder.ts:19-31 | every value of the table is a chunk or an earlier entry, and there are at most as many new keys as chunks |
| Shredder.FileLastWins | src/services/model/sub-agents/shredder.ts:30 | a header holds the last chunk given it |
| Shredder.FileKeeps | src/services/model/sub-agents/shredder.ts:30 | an entry no later chunk's header hits is kept |
| Shredder.TableOfChunks | src/services/model/sub-agents/shredder.ts:16-31 | every table value is one of the chunks and the key count is at most the chunk count |
| Chat.NextTools | src/services/chat.ts:87 | after `search_web` only `get_contents` is offered, after `get_contents` nothing, otherwise both tools |
| Chat.SystemMessages | src/services/chat.ts:75-83 | one system message per queued response, in order, carrying it |
| Chat.QueueShape | src/services/chat.ts:49-72 | at most two responses; the limit directive first iff usage is past 5; nothing queued iff within the limit and no call |
| Chat.ServeRules | src/services/chat.ts:60-72 | one response per call; the two known tools get their tool's answer and fire one action; any other name gets the unavailable notice |
| Chat.EmptyQuery | src/services/chat.ts:61 | a search without a query searches for `<empty>` |
| Chat.PoppedPrefix | src/services/chat.ts:56-58 | the pop removes at most the last entry |
| Chat.PoppedAppend | src/services/chat.ts:56-83 | entries before the pushed ones are never popped |
| Chat.ProcessKeepsHistory | src/services/chat.ts:39-103 | the history only grows after the first pop: the popped history is a prefix of the final one |
| Chat.ContinueKeepsHistory | src/services/chat.ts:84-99 | the same, from the recursive step |
| Chat.RoundAppends | src/services/chat.ts:74-91 | a round that gets text back appends exactly the queued responses as system messages and nothing else changes |
| Chat.BusyRound | src/services/chat.ts:74-99 | with something queued, the round pushes the queue and asks the model with the next tools |
| Chat.QuietRound | src/services/chat.ts:102 | with nothing queued, the reply's content (or "") is returned and the history is only popped |
| Chat.PastLimitEndsWithText | src/services/chat.ts:49-102 | past the limit every result is text: the directive keeps the queue non-empty |
| Chat.ContinueEndsWithText | src/services/chat.ts:88-99 | the same, from the recursive step |
| Chat.History.constructor | src/services/chat.ts:42 | the history holds the given entries |
| Chat.ProcessResponse | src/services/chat.ts:39-103 | the in-place pops and pushes leave the history, content and actions that `Process` gives |
| Chat.Extract | src/services/chat.ts:129-136 | message and thoughts are trimmed and contain neither of their tags |
| Chat.UntaggedAnswer | src/services/chat.ts:129-133 | a content without message tags becomes its own trimmed text |
| Chat.GetTagToEnd | src/services/chat.ts:133 | with no closing tag, everything after the opening tag is taken, trimmed |
| Responder.Answers | src/services/response.ts:66-89 | one answer per tool call, in order |
| Responder.AnswerRules | src/services/response.ts:68-88 | `search_web`, `get_contents` and `use_brain` call their tool; any other name gets "Requested tool is not available" |
| Responder.QueueShape | src/services/response.ts:59-89 | the limit directive first iff usage is past 5, then one answer per call in order; nothing iff within the limit and no calls |
| Responder.AnswersSnoc | src/services/response.ts:66-89 | one more call adds its answer at the end |
| Responder.QueueResponses | src/services/response.ts:57-89 | the loop queues exactly the responses the queue function gives |
| Responder.ProcessKeepsHistory | src/services/response.ts:51-115 | the history only grows: the old history is a prefix of the final one |
| Responder.ContinueKeepsHistory | src/services/response.ts:103-111 | the same, from the recursive step |
| Responder.RoundAppends | src/services/response.ts:91-110 | a round that gets text back appends exactly the queued responses as system messages, in order, after the unchanged entries |
| Responder.QuietRound | src/services/response.ts:114 | with nothing queued the reply's content, or the word joiner, is returned and the history is unchanged |
| Responder.PastLimitEndsWithText | src/services/response.ts:59-111 | past the limit every result is text |
| Responder.ContinueEndsWithText | src/services/response.ts:103-111 | the same, from the recursive step |
| Responder.BusyRound | src/services/response.ts:91-111 | with something queued the round pushes the queue and asks the model again |
| Responder.ProcessResponse | src/services/response.ts:51-115 | the in-place pushes leave the history and content that `Process` gives |
| Responder.BuildUserMessage | src/services/response.ts:25-38 | the content is the metadata tag, the two fields, a line break, the message tag, a line break and the message |
| Responder.NewHistory | src/services/response.ts:125-129 | the system prompt, the history unchanged, then the user message |
| Responder.Normalise | src/services/response.ts:139-144 | the response is a suffix of the content |
| Responder.NormaliseUntagged | src/services/response.ts:139-144 | without the message tag the whole content is kept: the prepended tag and line break are cut again |
| Responder.NormaliseAfterTag | src/services/response.ts:142-144 | with the tag, the response starts one character after its first occurrence |
| Responder.UserMessageNormalises | src/services/response.ts:142-144 | normalising a user message gives back its message text |
| Responder.Polish | src/services/response.ts:145-149 | the clean-up chain ends in `trim`: its result has no leading or trailing whitespace and trimming it again changes nothing |
| Responder.Respond | src/services/response.ts:117-152 | the user message is built, the history is assembled and the result is the normalised outcome of `Process` after the clean-up chain, hence trimmed |
| WebSearch.CategoryOf | src/services/tools/web-search.ts:64 | the category defaults to "text" |
| WebSearch.UriParts | src/services/tools/web-search.ts:38-40 | the address is the base, `&categories=images` iff the category is image, then `&q=` and the encoded query |
| WebSearch.ErrorText | src/services/tools/web-search.ts:57 | the error text is the trimmed message, or "Unknown Error" when that is blank |
| WebSearch.ErrorTextTrimmed | src/services/tools/web-search.ts:57 | the error text is trimmed |
| WebSearch.EntryForms | src/services/tools/web-search.ts:73-85 | text entries are ``- url=`U`,title=`T` ``; image entries give source, title with description and image address |
| WebSearch.Entries | src/services/tools/web-search.ts:72-86 | one entry per result, in order |
| WebSearch.Listed | src/services/tools/web-search.ts:70-72 | at most the first five results, in order |
| WebSearch.EntrySingleLine | src/services/tools/web-search.ts:73-85 | single-line results give single-line entries |
| WebSearch.ListedLines | src/services/tools/web-search.ts:70-87 | the list splits into the entries of the first five results, in order |
| WebSearch.PostfixInvitesReading | src/services/tools/web-search.ts:96-104 | the reading instruction opens the postfix iff the category is text |
| WebSearch.FoundStartsWithPrefix | src/services/tools/web-search.ts:89-106 | a successful search answers with the search prefix first |
| WebSearch.FencedStarts | src/services/tools/web-search.ts:106-109 | the fenced answer starts with its prefix |
| WebSearch.FailureReport | src/services/tools/web-search.ts:67-69 | a failed search answers `Search Web failed: ` and the trimmed error, or "Unknown Error" |
| Search.Uri | src/services/tools/search.ts:31 | the address is the endpoint, `&q=` and the encoded query |
| Search.Lines | src/services/tools/search.ts:56-58 | one line per result, in order |
| Search.ResultListAppend | src/services/tools/search.ts:56-58 | every result is listed: a further result adds its line at the end |
| Search.ResultListJoined | src/services/tools/search.ts:56-58 | the list is a line break followed by the lines joined by line breaks |
| Search.ListedLines | src/services/tools/search.ts:56-58 | the list reads back as one line per result, none left out |
| Search.NoResults | src/services/tools/search.ts:63-66 | no results still give the prefix, an empty fence and the postfix |
| Search.FoundStartsWithQuery | src/services/tools/search.ts:60 | a successful search answers with the quoted query first |
| Search.FailureReport | src/services/tools/search.ts:42-55 | a failed search answers `Search Web failed: ` and the trimmed error, or "Unknown Error" |
| Formatting.MakeHeader | src/services/formatting.ts:8-43 | the same length, no ASCII letter left, each letter becomes the full-width form of its capital, every other character stays |
| Formatting.MakeHeaderIdempotent | src/services/formatting.ts:38-42 | a header is its own header |
| Formatting.NarrowHeader | src/services/formatting.ts:9-36 | narrowing a header gives back the upper-cased text |
| Formatting.EscapeAmpLt | src/services/formatting.ts:53-54 | the first two escapes replace each `&` and `<` by its entity and nothing else |
| Formatting.EscapeByCharacter | src/services/formatting.ts:53-55 | the three escapes replace every character by its entity: no entity is escaped twice, because `&` goes first |
| Formatting.EscapedHasNoAngles | src/services/formatting.ts:53-55 | escaped text contains no `<` or `>` |
| Formatting.UnescapeLt | src/services/formatting.ts:53-55 | un-escaping `&lt;` turns back exactly the less-than signs |
| Formatting.UnescapeGt | src/services/formatting.ts:53-55 | un-escaping `&gt;` turns back exactly the greater-than signs |
| Formatting.UnescapeAmp | src/services/formatting.ts:53 | un-escaping `&amp;` restores the text |
| Formatting.UnescapeEscape | src/services/formatting.ts:53-55 | un-escaping `&lt;`, `&gt;`, then `&amp;` gives back the original text |
| Strings.Split | src/services/model/api.ts:40 | `split` gives the text before the first separator, and a second piece exactly when the separator occurs |
| Strings.SplitJoin | src/services/model/prompt.ts:24 | splitting text joined by a separator absent from the pieces gives back the pieces |
| Strings.Trim | src/services/model/api.ts:40 | `trim` leaves no white space at either end |
| Strings.TrimIdempotent | src/services/model/api.ts:40 | trimming twice is trimming once |
| Strings.IndexOf | src/services/response.ts:142 | `indexOf` is the first occurrence, or none exactly when the pattern is absent |
| Strings.ToUpperCase | src/services/formatting.ts:38 | each character is upper-cased in place |
| Strings.ReplaceAllChar | src/services/formatting.ts:53-55 | replacing every occurrence of one character maps each character independently |

## Left out

- Network, streaming and I/O. `fetch`, `getReader`, `TextDecoder`, the `data:` slice and `JSON.parse` of stream frames are replaced by a sequence of `Delta`/`Finish` frames.
- The JSON parser. `JSON.parse` of the tool section is an oracle returning an optional JSON value. A parse failure is `None`, because the source catches the exception and logs it.
- The language model and the tools. `ollama.chat`, `callWebSearchTool`, `callGetContentsTool`, `callBrainTool`, the header generator of the shredder and the search request are function-typed parameters. Nothing is claimed about what they return beyond their types.
- Ambient inputs. `Deno.env` (names, chunk size), `new Date().toLocaleString()`, `encodeURIComponent`, `firstUpperCase` and the system-prompt renderer are parameters.
- Fuel. Both dispatchers recurse while the model returns no text. Past the limit the directive keeps the queue non-empty, so in the source the recursion need not end. `Chat.Process` and `Responder.Process` carry a `fuel` bound and answer with no text when it runs out. What happens after more rounds than the fuel allows is not modelled.
- Missing definitions:
  - `MESSAGE_TAG`, `METADATA_TAG`, `SYSTEM_PROMPT`, `TAG_SPECIAL_SEQUENCE` and `IMAGES_START` are not defined in any file of this model, so they are parameters.
  - `SEARCH_WEB_PREFIX`, which `chat.ts` imports from `search.ts`, is not exported there. The value of `web-search.ts` is a parameter of `Chat.Process`.
- Regular-expression transforms. The three pattern rewrites in `respond` (src/services/response.ts:145-148) are the parameters `scrub` and `emphasis` of `Responder.Cleanup`. The `*` replacement between them and the closing `trim` are modelled. The remaining `markdownToHtml` rules and `escapeInputMessage` are left out.
- `TOOL_MAP` lookups of inherited object keys (`"constructor"` and the like) are not modelled. Only the two own entries are.
- The shredder's header oracle returns `None` where `JSON.parse` of the generated header would throw. `Shredder.ShredContent` then returns no table, because the exception leaves `shredContent`.
- Async interleaving. `onChunk` and `onAction` are an appended event log.
- `Strings.ToUpperCase`: upper-cases ASCII letters only. `toUpperCase` on other scripts and its length-changing cases are not modelled, so `Formatting.MakeHeader` states its results for that mapping.
- `Api.Crossings`: the chunk count is characterised by its crossings, not by ⌈length/chunkSize⌉. One delta raises a record's chunk count by at most one, so the ceiling holds only when each delta crosses at most one threshold.
- `Prompt.Names`: lower-cases with `Strings.ToLowerCase`, which maps the ASCII letters only. `toLowerCase` on other scripts (for example Cyrillic names) and its length-changing cases are not modelled.
- `Strings.ToLowerCase`: ASCII letters only, as for `Prompt.Names` above.
- `Json.Stringify`: numbers are integers (`JNumber(n: int)`). Fractional and large numbers, which `JSON.stringify` writes as `1.5` or `1e+21`, are not modelled. Such parameters still pass the scalar filter in the source.
- `Api.ReadStream`: the chunk size is an integer. `CHUNK_SIZE` is `Number(...)` of an environment variable (src/services/model/api.ts:61), so it can be fractional or `NaN`. With `NaN` no comparison holds and no partial update is sent. Neither case is modelled.
- The parser oracle. `Json.Parser` returns values whose objects have distinct keys, in JavaScript's property order. That is how `JSON.parse` builds them: a repeated key keeps the last value, and integer-like keys enumerate first. How the text maps to that value is not modelled.
- `Shredder.File`: a header named `__proto__` is stored as an ordinary key. In the source, assigning it on a plain object replaces the prototype and adds no entry. Like the inherited keys of `TOOL_MAP`, this is not modelled.
- Lengths are counted in code points. JavaScript counts UTF-16 units; the two agree on text in the Basic Multilingual Plane.
- The decoding grammar is modelled as the datatype of the replies it admits, with a renderer. The grammar text itself is not rebuilt.
- `src/services/model.ts` and `src/services/message.ts` are earlier copies of `api.ts` and `model/message.ts` and are not part of this model.
