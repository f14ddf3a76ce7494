/**
 * The older search tool: it asks the local search engine and lists every
 * result with its page text, inside the same fenced answer as the
 * web-search tool. The request itself is an oracle.
 */
module Search {
  import opened Wrappers
  import opened Strings
  import WebSearch

  /** The local search engine, asked for JSON. */
  const SearchEndpoint := "http://127.0.0.1:8080/search?format=json"

  const Postfix := "Use these search results to gain knowledge, don't list it all unless requested"

  /** One result: the page address and its text. */
  datatype Hit = Hit(url: string, content: string)

  /** What a search gives back: the results, or the (never blank) error text. */
  datatype SearchResponse = Found(results: seq<Hit>) | Failed(error: string)

  /** The request to the engine: the results, or the text of the error raised. */
  type Fetch = string -> Result<seq<Hit>, string>

  /** The address searched; `encode` stands for `encodeURIComponent`. */
  function Uri(query: string, encode: string -> string): (u: string)
    ensures StartsWith(u, SearchEndpoint)
    ensures u[|SearchEndpoint|..] == "&q=" + encode(query)
  {
    Ends(SearchEndpoint, "&q=" + encode(query));
    SearchEndpoint + ("&q=" + encode(query))
  }

  /** `searchWeb`: asks the engine for the query, turning a failure into its error text. */
  function SearchFor(query: string, encode: string -> string, fetch: Fetch): SearchResponse {
    match fetch(Uri(query, encode))
    case Success(results) => Found(results)
    case Failure(raw) => Failed(WebSearch.ErrorText(raw))
  }

  /** One listed result, on a line of its own: the quoted address, then the text in backquotes. */
  function Line(h: Hit): string {
    "- \"" + h.url + "\": `" + h.content + "`"
  }

  /** The result list: every result, each on a new line. */
  function ResultList(hits: seq<Hit>): string
    decreases |hits|
  {
    if |hits| == 0 then "" else "\n" + Line(hits[0]) + ResultList(hits[1..])
  }

  /** The lines of the results, in order. */
  function Lines(hits: seq<Hit>): (ls: seq<string>)
    ensures |ls| == |hits|
    ensures forall i :: 0 <= i < |hits| ==> ls[i] == Line(hits[i])
    decreases |hits|
  {
    if |hits| == 0 then [] else [Line(hits[0])] + Lines(hits[1..])
  }

  /** A further result only adds its own line at the end: none is dropped and the order is kept. */
  lemma {:induction false} ResultListAppend(hits: seq<Hit>, h: Hit)
    ensures ResultList(hits + [h]) == ResultList(hits) + "\n" + Line(h)
    decreases |hits|
  {
    if |hits| == 0 {
      assert hits + [h] == [h];
    } else {
      assert (hits + [h])[1..] == hits[1..] + [h];
      ResultListAppend(hits[1..], h);
    }
  }

  /** The list is the lines joined by line breaks, after a leading one. */
  lemma {:induction false} ResultListJoined(hits: seq<Hit>)
    requires |hits| > 0
    ensures ResultList(hits) == "\n" + Join(Lines(hits), "\n")
    decreases |hits|
  {
    if |hits| > 1 {
      ResultListJoined(hits[1..]);
      assert Lines(hits)[1..] == Lines(hits[1..]);
    }
  }

  predicate SingleLine(h: Hit) {
    '\n' !in h.url && '\n' !in h.content
  }

  /**
   * Read line by line after the leading break, the list gives back one line
   * per result, in order, with no result left out.
   */
  lemma ListedLines(hits: seq<Hit>)
    requires |hits| > 0 && forall i :: 0 <= i < |hits| ==> SingleLine(hits[i])
    ensures |ResultList(hits)| > 0 && ResultList(hits)[0] == '\n'
    ensures var lines := Split(ResultList(hits)[1..], "\n");
      |lines| == |hits| && forall i :: 0 <= i < |hits| ==> lines[i] == Line(hits[i])
  {
    ResultListJoined(hits);
    var ls := Lines(hits);
    assert ("\n" + Join(ls, "\n"))[1..] == Join(ls, "\n");
    SplitJoin(ls, '\n');
  }

  /** The opening line, with the query in double quotes. */
  function Prefix(query: string): string {
    "Web search results for \"" + query + "\""
  }

  /** `callWebSearchTool` once the search has answered. */
  function Answer(query: string, response: SearchResponse): string {
    match response
    case Failed(error) => "Search Web failed: " + error
    case Found(hits) => WebSearch.Fenced(Prefix(query), ResultList(hits), Postfix)
  }

  /** `callWebSearchTool`: the search and its answer. */
  function CallWebSearchTool(query: string, encode: string -> string, fetch: Fetch): string {
    Answer(query, SearchFor(query, encode, fetch))
  }

  /** No results still give the opening line, an empty fence and the closing line. */
  lemma NoResults(query: string)
    ensures Answer(query, Found([])) == Prefix(query) + ": ```\n\t" + "\n\t```.\n\t" + Postfix
  {
  }

  /** A successful search answers with the quoted query first. */
  lemma FoundStartsWithQuery(query: string, hits: seq<Hit>)
    ensures StartsWith(Answer(query, Found(hits)), "Web search results for \"" + query + "\"")
  {
    WebSearch.FencedStarts(Prefix(query), ResultList(hits), Postfix, Prefix(query));
  }

  /** A failed request answers with the failure notice and the trimmed error, or `"Unknown Error"`. */
  lemma FailureReport(query: string, encode: string -> string, fetch: Fetch)
    requires fetch(Uri(query, encode)).Failure?
    ensures var raw := fetch(Uri(query, encode)).error;
      CallWebSearchTool(query, encode, fetch)
      == "Search Web failed: " + (if Trim(raw) == [] then "Unknown Error" else Trim(raw))
  {
  }
}
