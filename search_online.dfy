/** The `search_online` tool (cli/src/tools/search-online.ts): two guards,
    then one Firecrawl search whose answer is formatted as numbered results.
    The HTTP exchange is an oracle: `fetch(query, apiKey)` is what the request
    comes back with. */
module SearchOnline {
  import opened Common
  import opened Json
  import opened ChatTypes

  /** One search result as the response body lists it. */
  datatype SearchHit = SearchHit(url: string, title: Option<string>, description: Option<string>, markdown: Option<string>)

  /** What the request comes back with: something threw (the network, or
      reading the body), a response that is not ok, or a decoded body. */
  datatype FetchOutcome =
    | Threw(message: string)
    | HttpError(status: nat, text: string)
    | Body(success: bool, data: Option<seq<SearchHit>>)

  /** The room one result's page content gets before it is cut. */
  const MAX_CONTENT: nat := 2000

  const TRUNCATED := "\n...[truncated]"

  /** `searchParams.safeParse(params)`: a string `query`. */
  function ParseParams(params: map<string, Json>): (r: Option<string>)
    ensures r.Some? <==> "query" in params && params["query"].JStr?
    ensures r.Some? ==> params["query"] == JStr(r.value)
  {
    if "query" in params && params["query"].JStr? then Some(params["query"].s) else None
  }

  /** A page's markdown, cut to its first 2000 code units with a marker when
      it is longer. */
  function Truncate(md: string): (r: string)
    ensures Take(md, MAX_CONTENT) <= r
    ensures |md| <= MAX_CONTENT ==> r == md
    ensures |md| > MAX_CONTENT ==> |r| == MAX_CONTENT + |TRUNCATED| && r[MAX_CONTENT..] == TRUNCATED
  {
    if |md| > MAX_CONTENT then md[..MAX_CONTENT] + TRUNCATED else md
  }

  function Title(hit: SearchHit): (r: string)
    ensures r != ""
  {
    if Given(hit.title) then hit.title.value else "Untitled"
  }

  /** The block of text for the n-th result (numbered from 1). */
  function Entry(n: nat, hit: SearchHit): string
  {
    "--- Result " + NatToString(n) + ": " + Title(hit) + " ---\n"
    + "URL: " + hit.url + "\n"
    + (if Given(hit.description) then "Description: " + hit.description.value + "\n" else "")
    + (if Given(hit.markdown) then "\nContent:\n" + Truncate(hit.markdown.value) + "\n" else "")
    + "\n"
  }

  /** The blocks of the first n results, in order. */
  function Entries(hits: seq<SearchHit>, n: nat): string
    requires n <= |hits|
  {
    if n == 0 then "" else Entries(hits, n - 1) + Entry(n, hits[n - 1])
  }

  function Header(query: string): string
  {
    "Search results for \"" + query + "\":\n\n"
  }

  /** The text for fewer results is a prefix of the text for more. */
  lemma {:induction false} EntriesPrefix(hits: seq<SearchHit>, k: nat, n: nat)
    requires k <= n <= |hits|
    ensures Entries(hits, k) <= Entries(hits, n)
    decreases n - k
  {
    if k < n {
      EntriesPrefix(hits, k, n - 1);
      var front, e := Entries(hits, n - 1), Entry(n, hits[n - 1]);
      assert Entries(hits, n) == front + e;
      assert Entries(hits, k) == front[..|Entries(hits, k)|];
      assert front == (front + e)[..|front|];
    }
  }

  /** Result k (from 0) appears, numbered k + 1, right after the blocks of
      the results before it. */
  lemma EntryAt(hits: seq<SearchHit>, k: nat)
    requires k < |hits|
    ensures OccursAt(Entries(hits, |hits|), Entry(k + 1, hits[k]), |Entries(hits, k)|)
  {
    EntriesPrefix(hits, k + 1, |hits|);
    PrefixOccurs(Entries(hits, |hits|), Entries(hits, k), Entry(k + 1, hits[k]));
  }

  lemma PrefixOccurs(all: string, before: string, e: string)
    requires before + e <= all
    ensures OccursAt(all, e, |before|)
  {
    assert all[|before|..|before| + |e|] == (before + e)[|before|..];
  }

  /** Appending a result's block piece by piece appends the whole block. */
  lemma EntrySplit(before: string, n: nat, hit: SearchHit)
    ensures before + Entry(n, hit) ==
      before + ("--- Result " + NatToString(n) + ": " + Title(hit) + " ---\n") + ("URL: " + hit.url + "\n")
      + (if Given(hit.description) then "Description: " + hit.description.value + "\n" else "")
      + (if Given(hit.markdown) then "\nContent:\n" + Truncate(hit.markdown.value) + "\n" else "")
      + "\n"
  {
  }

  lemma EntriesSnoc(query: string, hits: seq<SearchHit>, n: nat)
    requires n < |hits|
    ensures Header(query) + Entries(hits, n + 1) == Header(query) + Entries(hits, n) + Entry(n + 1, hits[n])
  {
  }

  /** The formatting loop: the header, then one block per result. */
  method FormatResults(query: string, hits: seq<SearchHit>) returns (fullResult: string)
    ensures fullResult == Header(query) + Entries(hits, |hits|)
  {
    fullResult := Header(query);
    var i := 0;
    while i < |hits|
      invariant 0 <= i <= |hits|
      invariant fullResult == Header(query) + Entries(hits, i)
    {
      fullResult := AppendEntry(fullResult, i + 1, hits[i]);
      EntriesSnoc(query, hits, i);
      i := i + 1;
    }
  }

  /** One pass of the formatting loop: the n-th result's lines, appended one
      after another. */
  method AppendEntry(before: string, n: nat, r: SearchHit) returns (fullResult: string)
    ensures fullResult == before + Entry(n, r)
  {
    fullResult := before + ("--- Result " + NatToString(n) + ": " + Title(r) + " ---\n");
    fullResult := fullResult + ("URL: " + r.url + "\n");
    ghost var head := fullResult;
    if Given(r.description) {
      fullResult := fullResult + ("Description: " + r.description.value + "\n");
    }
    ghost var described := fullResult;
    assert described == head + (if Given(r.description) then "Description: " + r.description.value + "\n" else "");
    if Given(r.markdown) {
      var content := if |r.markdown.value| > MAX_CONTENT then r.markdown.value[..MAX_CONTENT] + TRUNCATED else r.markdown.value;
      assert content == Truncate(r.markdown.value);
      fullResult := fullResult + ("\nContent:\n" + content + "\n");
    }
    assert fullResult == described + (if Given(r.markdown) then "\nContent:\n" + Truncate(r.markdown.value) + "\n" else "");
    fullResult := fullResult + "\n";
    EntrySplit(before, n, r);
  }

  function Failed(message: string): (r: ToolResult)
    ensures !r.success && r.summary == "Search failed"
    ensures r.fullResult == "Error: " + message && StartsWith(r.fullResult, "Error: ")
  {
    assert ("Error: " + message)[..7] == "Error: ";
    ToolResult(false, "Search failed", "Error: " + message)
  }

  /** `searchWithFirecrawl`: what each kind of answer turns into. */
  function SearchOutcome(query: string, outcome: FetchOutcome): (r: ToolResult)
    ensures r.success <==> outcome.Body?
    ensures !outcome.Body? ==> r.summary == "Search failed" && StartsWith(r.fullResult, "Error: ")
    ensures outcome.Threw? ==> r.fullResult == "Error: " + outcome.message
    ensures outcome.HttpError? ==>
      r.fullResult == "Error: " + ("Firecrawl API error: " + NatToString(outcome.status) + " - " + outcome.text)
    ensures outcome.Body? && !(outcome.success && outcome.data.Some? && outcome.data.value != []) ==>
      r.summary == "No results found" && r.fullResult == "No search results found for \"" + query + "\""
    ensures outcome.Body? && outcome.success && outcome.data.Some? && outcome.data.value != [] ==>
      r.summary == "Found " + NatToString(|outcome.data.value|) + " results"
      && StartsWith(r.fullResult, Header(query))
  {
    match outcome
    case Threw(message) => Failed(message)
    case HttpError(status, text) => Failed("Firecrawl API error: " + NatToString(status) + " - " + text)
    case Body(success, data) =>
      if !success || data.None? || data.value == [] then
        ToolResult(true, "No results found", "No search results found for \"" + query + "\"")
      else
        ToolResult(true, "Found " + NatToString(|data.value|) + " results", Header(query) + Entries(data.value, |data.value|))
  }

  method SearchWithFirecrawl(query: string, outcome: FetchOutcome) returns (r: ToolResult)
    ensures r == SearchOutcome(query, outcome)
  {
    match outcome
    case Threw(message) =>
      r := Failed(message);
    case HttpError(status, text) =>
      r := Failed("Firecrawl API error: " + NatToString(status) + " - " + text);
    case Body(success, data) =>
      if !success || data.None? || |data.value| == 0 {
        return ToolResult(true, "No results found", "No search results found for \"" + query + "\"");
      }
      var fullResult := FormatResults(query, data.value);
      r := ToolResult(true, "Found " + NatToString(|data.value|) + " results", fullResult);
  }

  /** `searchOnline.execute`: the query guard, then the key guard, then the
      search. `apiKey` is `FIRECRAWL_API_KEY`. */
  function ExecuteSpec(query: string, apiKey: Option<string>, fetch: (string, string) -> FetchOutcome): (r: ToolResult)
    ensures query == "" ==> r == ToolResult(false, "No search query provided", "Error: Missing required parameter \"query\"")
    ensures query != "" && !Given(apiKey) ==>
      r == ToolResult(false, "No API key", "FIRECRAWL_API_KEY not set. Get one at https://firecrawl.dev")
    ensures r.success <==> query != "" && Given(apiKey) && fetch(query, apiKey.value).Body?
  {
    if query == "" then ToolResult(false, "No search query provided", "Error: Missing required parameter \"query\"")
    else if !Given(apiKey) then ToolResult(false, "No API key", "FIRECRAWL_API_KEY not set. Get one at https://firecrawl.dev")
    else SearchOutcome(query, fetch(query, apiKey.value))
  }

  method Execute(query: string, apiKey: Option<string>, fetch: (string, string) -> FetchOutcome) returns (r: ToolResult)
    ensures r == ExecuteSpec(query, apiKey, fetch)
  {
    if query == "" {
      return ToolResult(false, "No search query provided", "Error: Missing required parameter \"query\"");
    }
    if !Given(apiKey) {
      return ToolResult(false, "No API key", "FIRECRAWL_API_KEY not set. Get one at https://firecrawl.dev");
    }
    r := SearchWithFirecrawl(query, fetch(query, apiKey.value));
  }
}
