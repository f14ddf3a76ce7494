/**
 * The web-search tool: the address it asks the search engine, the error it
 * reports when the request fails, and the fenced list of at most five
 * results it hands to the model. The request itself is an oracle from the
 * address to the engine's results or the text of the error it raised.
 */
module WebSearch {
  import opened Wrappers
  import opened Strings

  /** The text every successful search answer opens with. */
  const SearchWebPrefix := "[Your Web Browser: URL Results]"

  /** At most this many results are listed. */
  const ListedResults := 5

  /** One result of the search engine: address, title, and the optional description and image address. */
  datatype SearchResult = SearchResult(url: string, title: string, content: Option<string>, image: Option<string>)

  /** What a search gives back: the results, or the (never blank) error text. */
  datatype SearchResponse = Found(results: seq<SearchResult>) | Failed(error: string)

  /** The request to the engine: the results, or the text of the error raised. */
  type Fetch = string -> Result<seq<SearchResult>, string>

  /** The category the tool searches in when the caller names none. */
  function CategoryOf(arg: Option<string>): (c: string)
    ensures arg.None? ==> c == "text"
    ensures arg.Some? ==> c == arg.value
  {
    arg.GetOr("text")
  }

  /**
   * The address searched: the configured base (empty when unset), the
   * image category when images are asked for, then the encoded query;
   * `encode` stands for `encodeURIComponent`.
   */
  function Uri(base: Option<string>, query: string, category: string, encode: string -> string): string {
    base.GetOr("") + (if category == "image" then "&categories=images" else "") + "&q=" + encode(query)
  }

  /** The address is the base, then the category part exactly for images, then the query part. */
  lemma UriParts(base: Option<string>, query: string, category: string, encode: string -> string)
    ensures var u := Uri(base, query, category, encode);
      var q := "&q=" + encode(query);
      StartsWith(u, base.GetOr("")) && EndsWith(u, q)
      && |base.GetOr("")| + |q| <= |u|
      && u[|base.GetOr("")|..|u| - |q|] == (if category == "image" then "&categories=images" else "")
  {
    var b, m, q := base.GetOr(""), (if category == "image" then "&categories=images" else ""), "&q=" + encode(query);
    var u := Uri(base, query, category, encode);
    assert u == b + m + q;
    assert u[..|b|] == b;
    assert u[|u| - |q|..] == q;
    assert u[|b|..|u| - |q|] == m;
  }

  /** The error reported for a failed request: its text trimmed, `"Unknown Error"` when that is blank. */
  function ErrorText(raw: string): (e: string)
    ensures e != []
    ensures Trim(raw) != [] ==> e == Trim(raw)
  {
    if Trim(raw) == [] then "Unknown Error" else Trim(raw)
  }

  /** The error text is never blank and has no surrounding white space. */
  lemma ErrorTextTrimmed(raw: string)
    ensures Trim(ErrorText(raw)) == ErrorText(raw)
  {
    if Trim(raw) == [] {
      var u := "Unknown Error";
      assert !IsSpace(u[0]) && !IsSpace(u[|u| - 1]);
      TrimStartNoSpace(u);
      TrimEndNoSpace(u);
    } else {
      TrimIdempotent(raw);
    }
  }

  /** `searchWeb`: asks the engine at the address for the query, turning a failure into its error text. */
  function Search(base: Option<string>, query: string, category: string, encode: string -> string, fetch: Fetch): SearchResponse {
    match fetch(Uri(base, query, category, encode))
    case Success(results) => Found(results)
    case Failure(raw) => Failed(ErrorText(raw))
  }

  /** One listed result; image results show the description (or a placeholder) and the image address. */
  function Entry(category: string, r: SearchResult): string {
    var source := (if category == "text" then "url" else "source") + "=`" + r.url + "`";
    var rawTitle := if category == "text" then r.title else r.title + " (" + r.content.GetOr("no description") + ")";
    var title := ",title=`" + rawTitle + "`";
    var image := if category == "image" then ",image_url=`" + r.image.GetOr("unknown") + "`" else "";
    "- " + source + title + image
  }

  /** The two forms a listed result takes. */
  lemma EntryForms(category: string, r: SearchResult)
    ensures category == "text" ==>
      Entry(category, r) == "- " + "url" + "=`" + r.url + "`" + ",title=`" + r.title + "`"
    ensures category == "image" ==>
      Entry(category, r) == "- " + "source" + "=`" + r.url + "`" + ",title=`" + r.title + " ("
                            + r.content.GetOr("no description") + ")" + "`" + ",image_url=`" + r.image.GetOr("unknown") + "`"
  {
    if category == "text" {
      Flatten("- ", "url", "=`", r.url, "`", ",title=`", r.title, "`", "", "", "");
    } else if category == "image" {
      Flatten("- ", "source", "=`", r.url, "`", ",title=`", r.title + " (" + r.content.GetOr("no description") + ")", "`",
              ",image_url=`", r.image.GetOr("unknown"), "`");
    }
  }

  lemma Flatten(a: string, b: string, c: string, d: string, e: string, f: string, g: string, h: string,
                i: string, j: string, k: string)
    ensures a + (b + c + d + e) + (f + g + h) + (i + j + k) == a + b + c + d + e + f + g + h + i + j + k
  {
  }

  /** The listed results, in order. */
  function Entries(category: string, rs: seq<SearchResult>): (es: seq<string>)
    ensures |es| == |rs|
    ensures forall i :: 0 <= i < |rs| ==> es[i] == Entry(category, rs[i])
    decreases |rs|
  {
    if |rs| == 0 then [] else [Entry(category, rs[0])] + Entries(category, rs[1..])
  }

  /** The results that are listed: the first five. */
  function Listed(rs: seq<SearchResult>): (ls: seq<SearchResult>)
    ensures |ls| == if |rs| < ListedResults then |rs| else ListedResults
    ensures ls <= rs
  {
    if |rs| <= ListedResults then rs else rs[..ListedResults]
  }

  /** The result list: the first five entries, one per line. */
  function ResultList(category: string, rs: seq<SearchResult>): string {
    Join(Entries(category, Listed(rs)), "\n")
  }

  /** No field of the result holds a line break. */
  predicate SingleLine(r: SearchResult) {
    '\n' !in r.url && '\n' !in r.title && '\n' !in r.content.GetOr("") && '\n' !in r.image.GetOr("")
  }

  lemma EntrySingleLine(category: string, r: SearchResult)
    requires SingleLine(r)
    ensures '\n' !in Entry(category, r)
  {
  }

  /**
   * Read line by line, the list gives back the entries of the first five
   * results in their order, and nothing of the results after them.
   */
  lemma ListedLines(category: string, rs: seq<SearchResult>)
    requires |rs| > 0 && forall i :: 0 <= i < |rs| ==> SingleLine(rs[i])
    ensures var lines := Split(ResultList(category, rs), "\n");
      |lines| == (if |rs| < ListedResults then |rs| else ListedResults)
      && forall i :: 0 <= i < |lines| ==> lines[i] == Entry(category, rs[i])
  {
    var es := Entries(category, Listed(rs));
    forall i | 0 <= i < |es| ensures '\n' !in es[i] {
      EntrySingleLine(category, Listed(rs)[i]);
    }
    SplitJoin(es, '\n');
  }

  /** The fenced list every answer wraps its results in (continuation lines open with a tab). */
  function Fenced(prefix: string, list: string, postfix: string): string {
    prefix + ": ```\n\t" + list + "\n\t```.\n\t" + postfix
  }

  // The wording of the answer, piece by piece.
  const AskToPick := " Based on user request, select the most relevant "
  const FromList := " from this list based on descriptions"
  const UrlOnly := ". Select only URL which describes information you need to respond to the last user message"
  const ReadMostRelevant := " to read the most relevant URL"
  const PickImage := ". Pick one image_url which has the most relevant title for the user request. Write a response and attach this image in a "
  const SectionWord := " section"
  const NoteThis := ". Note that this "
  const SuppliedBy := " list is supplied by your internal Web Browser, not user, so don't ask user which "
  const PickYourself := " to use, pick one yourself based on title relevancy."

  /** The contents tool a text search invites the model to use. */
  const ReadTool := "get_text_contents"
  const ReadInvitation := "Use " + ReadTool
  const ReadForbidden := "You are not allowed to use " + ReadTool + " now"

  /** The opening line: the browser prefix, then which kind of result to pick. */
  function Prefix(category: string): string {
    SearchWebPrefix
    + (AskToPick + (if category == "image" then "image" else "URL") + FromList + (if category == "image" then "" else UrlOnly))
  }

  /** The closing instructions; `imagesStart` is the images tag the prompt module is expected to supply. */
  function Postfix(category: string, imagesStart: string): string {
    Instruction(category, imagesStart) + Reminder(category)
  }

  /** What to do with the list: read a result for text, attach an image otherwise. */
  function Instruction(category: string, imagesStart: string): string {
    if category == "text" then ReadInvitation + ReadMostRelevant
    else ReadForbidden + PickImage + imagesStart + SectionWord
  }

  /** The list came from the browser, not the user: the model picks the result itself. */
  function Reminder(category: string): string {
    var what := if category == "image" then "source" else "URL";
    NoteThis + what + SuppliedBy + what + PickYourself
  }

  /** Only a text search tells the model to read a result with the contents tool. */
  lemma PostfixInvitesReading(category: string, imagesStart: string)
    ensures StartsWith(Postfix(category, imagesStart), ReadInvitation) <==> category == "text"
  {
    var i, r := Instruction(category, imagesStart), Reminder(category);
    if category == "text" {
      Ends(ReadInvitation, ReadMostRelevant);
      StartsWithAppend(i, r, ReadInvitation);
    } else {
      var tail := PickImage + imagesStart + SectionWord;
      assert i == ReadForbidden + tail;
      FirstOf("You are not allowed to use ", ReadTool + " now");
      FirstOf(ReadForbidden, tail);
      FirstOf("Use ", ReadTool);
      NotStartingWith(i, r, ReadInvitation);
    }
  }

  /** A text whose first character differs from that of `p` does not start with `p`. */
  lemma NotStartingWith(x: string, y: string, p: string)
    requires |x| > 0 && |p| > 0 && x[0] != p[0]
    ensures !StartsWith(x + y, p)
  {
    FirstOf(x, y);
  }

  lemma FirstOf(x: string, y: string)
    requires |x| > 0
    ensures (x + y)[0] == x[0]
  {
  }

  /** `callWebSearchTool` once the search has answered. */
  function Answer(category: string, response: SearchResponse, imagesStart: string): string {
    match response
    case Failed(error) => "Search Web failed: " + error
    case Found(results) => Fenced(Prefix(category), ResultList(category, results), Postfix(category, imagesStart))
  }

  /** `callWebSearchTool`: the search and its answer, in the text category unless another is named. */
  function CallWebSearchTool(query: string, categoryArg: Option<string>, base: Option<string>, encode: string -> string,
                             fetch: Fetch, imagesStart: string): string {
    var category := CategoryOf(categoryArg);
    Answer(category, Search(base, query, category, encode, fetch), imagesStart)
  }

  /** A successful search answers with the browser prefix first. */
  lemma FoundStartsWithPrefix(category: string, results: seq<SearchResult>, imagesStart: string)
    ensures StartsWith(Answer(category, Found(results), imagesStart), SearchWebPrefix)
  {
    var p := Prefix(category);
    Ends(SearchWebPrefix, p[|SearchWebPrefix|..]);
    assert p == SearchWebPrefix + p[|SearchWebPrefix|..];
    FencedStarts(p, ResultList(category, results), Postfix(category, imagesStart), SearchWebPrefix);
  }

  lemma FencedStarts(prefix: string, list: string, postfix: string, p: string)
    requires StartsWith(prefix, p)
    ensures StartsWith(Fenced(prefix, list, postfix), p)
  {
    var tail := ": ```\n\t" + list + "\n\t```.\n\t" + postfix;
    assert Fenced(prefix, list, postfix) == prefix + tail;
    StartsWithAppend(prefix, tail, p);
  }

  /** A failed request answers with the failure notice and the trimmed error, or `"Unknown Error"`. */
  lemma FailureReport(query: string, categoryArg: Option<string>, base: Option<string>, encode: string -> string,
                      fetch: Fetch, imagesStart: string)
    requires fetch(Uri(base, query, CategoryOf(categoryArg), encode)).Failure?
    ensures var raw := fetch(Uri(base, query, CategoryOf(categoryArg), encode)).error;
      CallWebSearchTool(query, categoryArg, base, encode, fetch, imagesStart)
      == "Search Web failed: " + (if Trim(raw) == [] then "Unknown Error" else Trim(raw))
  {
  }
}
