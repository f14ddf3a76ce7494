/**
 * The reserved section tags of the wire format, the bot's names and the
 * structure of the system prompt.
 */
module Prompt {
  import opened Wrappers
  import opened Strings
  import opened ModelTypes

  // ---------------------------------------------------------------------
  // Section tags
  // ---------------------------------------------------------------------

  const Sigma: char := '\U{03C3}'
  const Caron: char := '\U{030C}'

  /** The two code points that open and close every tag name. */
  const Wrapper: string := [Sigma, Caron]

  /** A tag name: one or more of `a`..`z` and `_`. */
  predicate IsTagName(n: string) {
    |n| > 0 && forall i :: 0 <= i < |n| ==> ('a' <= n[i] <= 'z' || n[i] == '_')
  }

  function Tag(name: string): (t: string)
    ensures |t| == |name| + 4
  {
    Wrapper + name + Wrapper
  }

  const MetadataStart := Tag("metadata_start")
  const MetadataEnd := Tag("metadata_end")
  const ToolStart := Tag("tool_call_start")
  const ToolEnd := Tag("tool_call_end")
  const MessageStart := Tag("message_start")
  const MessageEnd := Tag("message_end")
  const ImageStart := Tag("attachment_start")
  const ImageEnd := Tag("attachment_end")
  const ThoughtsStart := Tag("think_start")
  const ThoughtsEnd := Tag("think_end")
  const ToolResponseStart := Tag("tool_response_start")
  const ToolResponseEnd := Tag("tool_response_end")
  const ToolGuideStart := Tag("tool_guide_start")
  const ToolGuideEnd := Tag("tool_guide_end")

  const TagNames: seq<string> := [
    "metadata_start", "metadata_end", "tool_call_start", "tool_call_end",
    "message_start", "message_end", "attachment_start", "attachment_end",
    "think_start", "think_end", "tool_response_start", "tool_response_end",
    "tool_guide_start", "tool_guide_end"
  ]

  /** All fourteen tags, in declaration order. */
  const Tags: seq<string> := [
    MetadataStart, MetadataEnd, ToolStart, ToolEnd, MessageStart, MessageEnd,
    ImageStart, ImageEnd, ThoughtsStart, ThoughtsEnd, ToolResponseStart,
    ToolResponseEnd, ToolGuideStart, ToolGuideEnd
  ]

  /** The characters of a tag: the wrapper at both ends and the name between. */
  lemma TagChars(a: string)
    requires IsTagName(a)
    ensures Tag(a)[0] == Sigma && Tag(a)[1] == Caron
    ensures Tag(a)[|a| + 2] == Sigma && Tag(a)[|a| + 3] == Caron
    ensures Tag(a)[2..|a| + 2] == a
    ensures forall i :: 0 <= i < |Tag(a)| ==> (Tag(a)[i] == Sigma <==> i == 0 || i == |a| + 2)
  {
    var t := Tag(a);
    assert forall i :: 0 <= i < |a| ==> t[i + 2] == a[i];
  }

  /** One tag occurs inside another only when the two are the same tag. */
  lemma TagInTag(a: string, b: string, k: int)
    requires IsTagName(a) && IsTagName(b)
    requires OccursAt(Tag(a), Tag(b), k)
    ensures a == b && k == 0
  {
    var ta, tb := Tag(a), Tag(b);
    TagChars(a);
    TagChars(b);
    assert ta[k..k + |tb|][0] == ta[k];
    assert k == 0;
    assert ta[|b| + 2] == ta[k..k + |tb|][|b| + 2] == Sigma;
    assert |b| == |a|;
    assert ta == tb;
  }

  lemma TagNotInTag(a: string, b: string)
    requires IsTagName(a) && IsTagName(b) && a != b
    ensures !Contains(Tag(a), Tag(b))
  {
    forall k | 0 <= k <= |Tag(a)| - |Tag(b)| ensures !OccursAt(Tag(a), Tag(b), k) {
      if OccursAt(Tag(a), Tag(b), k) {
        TagInTag(a, b, k);
        assert false;
      }
    }
  }

  /** Every tag is the wrapper, a tag name and the wrapper again. */
  lemma TagsWellFormed()
    ensures |TagNames| == |Tags| == 14
    ensures forall i :: 0 <= i < |Tags| ==> IsTagName(TagNames[i]) && Tags[i] == Tag(TagNames[i])
  {
  }

  /** The fourteen tags are pairwise distinct and none occurs inside another. */
  lemma TagsApart()
    ensures forall i, j :: 0 <= i < |Tags| && 0 <= j < |Tags| && i != j ==>
      Tags[i] != Tags[j] && !Contains(Tags[i], Tags[j])
  {
    TagsWellFormed();
    forall i, j | 0 <= i < |Tags| && 0 <= j < |Tags| && i != j
      ensures Tags[i] != Tags[j] && !Contains(Tags[i], Tags[j])
    {
      assert TagNames[i] != TagNames[j];
      TagNotInTag(TagNames[i], TagNames[j]);
      TagChars(TagNames[i]);
      TagChars(TagNames[j]);
    }
  }

  /** A text with no wrapper character contains no tag. */
  predicate WrapperFree(s: string) {
    Avoids(s, Wrapper)
  }

  lemma WrapperFreeLacksTag(s: string, n: string)
    requires WrapperFree(s)
    ensures !Contains(s, Tag(n))
  {
    assert Tag(n)[0] == Sigma && Sigma in Wrapper;
    forall k | 0 <= k <= |s| - |Tag(n)| ensures !OccursAt(s, Tag(n), k) {
      assert s[k..k + |Tag(n)|][0] == s[k];
    }
  }

  /** A newline is not a character of any tag, so it never joins two halves of one. */
  lemma NewlineNotInTag(n: string)
    requires IsTagName(n)
    ensures '\n' !in Tag(n)
  {
    TagChars(n);
    assert forall i :: 0 <= i < |n| ==> Tag(n)[i + 2] == n[i];
  }

  // ---------------------------------------------------------------------
  // Names
  // ---------------------------------------------------------------------

  const DefaultName := "laylo"

  /** The comma-separated `NAMES` setting, trimmed and lower-cased; blank means `laylo`. */
  function Names(env: string): (r: seq<string>)
    ensures |r| == |Split(NameSource(env), ",")| >= 1
    ensures forall i :: 0 <= i < |r| ==> r[i] == ToLowerCase(Trim(Split(NameSource(env), ",")[i]))
  {
    var parts := Split(NameSource(env), ",");
    seq(|parts|, i requires 0 <= i < |parts| => ToLowerCase(Trim(parts[i])))
  }

  function NameSource(env: string): string {
    if Trim(env) == "" then DefaultName else Trim(env)
  }

  /** A blank setting yields exactly the default name. */
  lemma NamesBlank(env: string)
    requires Trim(env) == ""
    ensures Names(env) == [DefaultName]
  {
    NoCommonChar(DefaultName, ",");
    TrimStartNoSpace(DefaultName);
    TrimEndNoSpace(DefaultName);
    assert NameSource(env) == DefaultName;
    assert Split(DefaultName, ",") == [DefaultName];
    assert ToLowerCase(DefaultName) == DefaultName;
  }

  /** The names are the comma-separated entries of the setting, one per entry. */
  lemma NamesSplit(parts: seq<string>)
    requires |parts| >= 1
    requires forall i :: 0 <= i < |parts| ==> ',' !in parts[i]
    requires Trim(Join(parts, ",")) == Join(parts, ",") != ""
    ensures |Names(Join(parts, ","))| == |parts|
    ensures forall i :: 0 <= i < |parts| ==> Names(Join(parts, ","))[i] == ToLowerCase(Trim(parts[i]))
  {
    var src := Join(parts, ",");
    assert NameSource(src) == src;
    SplitJoin(parts, ',');
    assert Split(src, ",") == parts;
  }

  /** The main name: the first name with its first letter upper-cased. */
  function MainName(env: string, firstUpperCase: string -> string): string {
    firstUpperCase(Names(env)[0])
  }

  // ---------------------------------------------------------------------
  // System prompt
  // ---------------------------------------------------------------------

  /**
   * The fixed passages of the system prompt. Their wording is prose and is
   * not modelled; the passages that interpolate the extreme state carry it.
   */
  datatype Passage =
    | Persona
    | Helpful
    | Conduct
    | ExtremeTone(state: string)
    | ToneRule
    | Temper
    | ChatSetting
    | Nsfw
    | ToolRules
    | WireFormat
    | SocialIntro
    | ExtremeSocial(state: string)
    | SocialRules

  datatype Block =
    | Prose(passage: Passage)
    /** `- Your name is M (also A, B, …)` */
    | Identity(mainName: string, aliases: seq<string>)
    /** The tool catalogue, one line per tool. */
    | Catalogue(lines: seq<string>)

  /** The extreme state counts as set when it is present and non-empty. */
  predicate ExtremeSet(p: Preferences) {
    p.extremeState.Some? && p.extremeState.value != ""
  }

  function ParameterText(p: ParameterDefinition): string {
    "\"" + p.name + "\" (" + p.paramType + ", " + p.description + ")"
  }

  /** `- Tool "name": description. Parameters: "p" (type, desc), …` */
  function ToolLine(t: ToolDefinition): string {
    "- Tool \"" + t.name + "\": " + t.description + ". Parameters: "
      + Join(seq(|t.parameters|, i requires 0 <= i < |t.parameters| => ParameterText(t.parameters[i])), ", ")
  }

  function ToolLines(tools: seq<ToolDefinition>): (r: seq<string>)
    ensures |r| == |tools| && forall i :: 0 <= i < |tools| ==> r[i] == ToolLine(tools[i])
  {
    seq(|tools|, i requires 0 <= i < |tools| => ToolLine(tools[i]))
  }

  function IdentityText(mainName: string, aliases: seq<string>): string {
    "- Your name is " + mainName + " (also " + Join(aliases, ", ") + ")"
  }

  /** The blocks of the system prompt, in order. */
  function SystemPrompt(tools: seq<ToolDefinition>, prefs: Preferences, env: string, firstUpperCase: string -> string): seq<Block> {
    Layout(Identity(MainName(env, firstUpperCase), AliasList(env, firstUpperCase)), Catalogue(ToolLines(tools)), ExtremeValue(prefs), prefs.nsfw)
  }

  /** The blocks of the prompt for a given extreme state (`None` when unset) and NSFW flag. */
  function Layout(id: Block, cat: Block, extreme: Option<string>, nsfw: bool): seq<Block> {
    match extreme
    case Some(v) =>
      [id, Prose(Persona), Prose(Conduct), Prose(ExtremeTone(v)), Prose(Temper), Prose(ChatSetting)]
      + (if nsfw then [Prose(Nsfw)] else [])
      + [Prose(ToolRules), cat, Prose(WireFormat), Prose(SocialIntro), Prose(ExtremeSocial(v))]
    case None =>
      [id, Prose(Persona), Prose(Helpful), Prose(Conduct), Prose(ToneRule), Prose(Temper), Prose(ChatSetting)]
      + (if nsfw then [Prose(Nsfw)] else [])
      + [Prose(ToolRules), cat, Prose(WireFormat), Prose(SocialIntro), Prose(SocialRules)]
  }

  function ExtremeValue(prefs: Preferences): Option<string> {
    if ExtremeSet(prefs) then prefs.extremeState else None
  }

  /** The NSFW passage is in the prompt exactly when the flag is set. */
  lemma LayoutNsfw(id: Block, cat: Block, extreme: Option<string>, nsfw: bool)
    requires !id.Prose? && !cat.Prose?
    ensures Prose(Nsfw) in Layout(id, cat, extreme, nsfw) <==> nsfw
  {
  }

  /** Without an extreme state: the helpful, tone and social passages, and no extreme one. */
  lemma LayoutCalm(id: Block, cat: Block, nsfw: bool)
    requires !id.Prose? && !cat.Prose?
    ensures Prose(Helpful) in Layout(id, cat, None, nsfw)
    ensures Prose(ToneRule) in Layout(id, cat, None, nsfw)
    ensures Prose(SocialRules) in Layout(id, cat, None, nsfw)
    ensures forall b :: b in Layout(id, cat, None, nsfw) ==> !(b.Prose? && (b.passage.ExtremeTone? || b.passage.ExtremeSocial?))
  {
  }

  /** With an extreme state: its two passages, and none of the helpful, tone and social ones. */
  lemma LayoutExtreme(id: Block, cat: Block, v: string, nsfw: bool)
    requires !id.Prose? && !cat.Prose?
    ensures Prose(ExtremeTone(v)) in Layout(id, cat, Some(v), nsfw)
    ensures Prose(ExtremeSocial(v)) in Layout(id, cat, Some(v), nsfw)
    ensures Prose(Helpful) !in Layout(id, cat, Some(v), nsfw)
    ensures Prose(ToneRule) !in Layout(id, cat, Some(v), nsfw)
    ensures Prose(SocialRules) !in Layout(id, cat, Some(v), nsfw)
  {
  }

  /** The identity line opens the prompt and the catalogue is always in it. */
  lemma LayoutFrame(id: Block, cat: Block, extreme: Option<string>, nsfw: bool)
    ensures Layout(id, cat, extreme, nsfw)[0] == id && cat in Layout(id, cat, extreme, nsfw)
  {
  }

  /** The NSFW line is present exactly when `nsfw` holds. */
  lemma SystemPromptNsfw(tools: seq<ToolDefinition>, prefs: Preferences, env: string, firstUpperCase: string -> string)
    ensures Prose(Nsfw) in SystemPrompt(tools, prefs, env, firstUpperCase) <==> prefs.nsfw
  {
    LayoutNsfw(Identity(MainName(env, firstUpperCase), AliasList(env, firstUpperCase)), Catalogue(ToolLines(tools)), ExtremeValue(prefs), prefs.nsfw);
  }

  /**
   * Without an extreme state the prompt has the "helpful and smart" line, the
   * tone rule and the social rules, and no passage about an extreme state.
   */
  lemma SystemPromptCalm(tools: seq<ToolDefinition>, prefs: Preferences, env: string, firstUpperCase: string -> string)
    requires !ExtremeSet(prefs)
    ensures var r := SystemPrompt(tools, prefs, env, firstUpperCase);
      Prose(Helpful) in r && Prose(ToneRule) in r && Prose(SocialRules) in r
      && forall b :: b in r ==> !(b.Prose? && (b.passage.ExtremeTone? || b.passage.ExtremeSocial?))
  {
    LayoutCalm(Identity(MainName(env, firstUpperCase), AliasList(env, firstUpperCase)), Catalogue(ToolLines(tools)), prefs.nsfw);
  }

  /**
   * With an extreme state its value is interpolated twice, and the helpful
   * line, the tone rule and the social rules are left out.
   */
  lemma SystemPromptExtreme(tools: seq<ToolDefinition>, prefs: Preferences, env: string, firstUpperCase: string -> string)
    requires ExtremeSet(prefs)
    ensures var r := SystemPrompt(tools, prefs, env, firstUpperCase);
      Prose(ExtremeTone(prefs.extremeState.value)) in r && Prose(ExtremeSocial(prefs.extremeState.value)) in r
      && Prose(Helpful) !in r && Prose(ToneRule) !in r && Prose(SocialRules) !in r
  {
    LayoutExtreme(Identity(MainName(env, firstUpperCase), AliasList(env, firstUpperCase)), Catalogue(ToolLines(tools)), prefs.extremeState.value, prefs.nsfw);
  }

  /** The identity line comes first and the tool catalogue is always present. */
  lemma SystemPromptFixed(tools: seq<ToolDefinition>, prefs: Preferences, env: string, firstUpperCase: string -> string)
    ensures var r := SystemPrompt(tools, prefs, env, firstUpperCase);
      r[0] == Identity(MainName(env, firstUpperCase), AliasList(env, firstUpperCase))
      && Catalogue(ToolLines(tools)) in r
  {
    LayoutFrame(Identity(MainName(env, firstUpperCase), AliasList(env, firstUpperCase)), Catalogue(ToolLines(tools)), ExtremeValue(prefs), prefs.nsfw);
  }

  /** All names, each with its first letter upper-cased: the "(also …)" list. */
  function AliasList(env: string, firstUpperCase: string -> string): (r: seq<string>)
    ensures |r| == |Names(env)| >= 1
    ensures forall i :: 0 <= i < |r| ==> r[i] == firstUpperCase(Names(env)[i])
  {
    var names := Names(env);
    seq(|names|, i requires 0 <= i < |names| => firstUpperCase(names[i]))
  }

  /** The "(also …)" clause is always present and lists the main name first. */
  lemma AlsoClauseAlways(env: string, firstUpperCase: string -> string)
    ensures AliasList(env, firstUpperCase) != []
    ensures AliasList(env, firstUpperCase)[0] == MainName(env, firstUpperCase)
  {
  }

  /** The catalogue text: the tool lines joined by newlines. */
  function CatalogueText(tools: seq<ToolDefinition>): string {
    Join(ToolLines(tools), "\n")
  }

  predicate SingleLine(s: string) {
    '\n' !in s
  }

  predicate ToolSingleLine(t: ToolDefinition) {
    SingleLine(t.name) && SingleLine(t.description)
    && forall p :: p in t.parameters ==> SingleLine(p.name) && SingleLine(p.paramType) && SingleLine(p.description)
  }

  lemma {:induction false} JoinSingleLine(parts: seq<string>, sep: string)
    requires SingleLine(sep) && forall i :: 0 <= i < |parts| ==> SingleLine(parts[i])
    ensures SingleLine(Join(parts, sep))
    decreases |parts|
  {
    if |parts| > 1 {
      JoinSingleLine(parts[1..], sep);
    }
  }

  lemma ToolLineSingle(t: ToolDefinition)
    requires ToolSingleLine(t)
    ensures SingleLine(ToolLine(t))
  {
    var ps := seq(|t.parameters|, i requires 0 <= i < |t.parameters| => ParameterText(t.parameters[i]));
    forall i | 0 <= i < |ps| ensures SingleLine(ps[i]) {
      assert t.parameters[i] in t.parameters;
    }
    JoinSingleLine(ps, ", ");
  }

  /** Splitting the catalogue at newlines gives one line per tool, in input order. */
  lemma CatalogueLines(tools: seq<ToolDefinition>)
    requires |tools| >= 1
    requires forall i :: 0 <= i < |tools| ==> ToolSingleLine(tools[i])
    ensures Split(CatalogueText(tools), "\n") == ToolLines(tools)
  {
    forall i | 0 <= i < |tools| ensures '\n' !in ToolLines(tools)[i] {
      ToolLineSingle(tools[i]);
    }
    SplitJoin(ToolLines(tools), '\n');
  }

  // ---------------------------------------------------------------------
  // Directives appended to the history by the dispatchers
  // ---------------------------------------------------------------------

  const ToolLimitPrompt := "At this point write the final response for the user not using any more tools."
  const ToolUnavailablePrompt := "Requested tool is not available."
  const UrlInvalidPrompt := "Requested URL is invalid."
}
