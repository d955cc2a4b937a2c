/** The agent's own web tools: `google_search_simple`, `summary_url` and `ask_url`.
    Fetching a page, summarising text, answering a question over an index
    built from text and running a web search are services outside the model;
    each is a function parameter. */
module WebTools {

  /** The sentinel both URL tools return when the fetched page text is empty. */
  const Unavailable := "URL unavailable."

  /** The line `summary_url` puts in front of a summary. */
  const SummaryHeader := "webpage content summary:\n"

  /** Appended to every question put to the question-answering chain. */
  const ReplyLanguage := " Reply in Русский"

  /** The query `google_search_simple` sends, whatever it is asked. */
  const FixedQuery := "notes from a dead house"

  /** What reaches a URL tool as its `url` argument: a plain string when the
      agent calls the tool, a one-entry dictionary `{'url': …}` when the
      command router does. */
  datatype UrlArg = UrlString(url: string) | UrlDict(url: string)

  /** `google_search_simple(query)`: the search runs on a fixed string. */
  function GoogleSearchSimple<Q>(query: Q, search: string -> string): string {
    search(FixedQuery)
  }

  /** The search result never depends on the query it was asked for. */
  lemma SearchIgnoresQuery<Q>(q1: Q, q2: Q, search: string -> string)
    ensures GoogleSearchSimple(q1, search) == GoogleSearchSimple(q2, search)
  {
  }

  /** A summary reply can never be mistaken for the sentinel. */
  lemma HeaderIsNotUnavailable(summary: string)
    ensures SummaryHeader + summary != Unavailable
  {
    assert (SummaryHeader + summary)[0] == 'w';
    assert Unavailable[0] == 'U';
  }

  /** `summary_url(url)`: the sentinel exactly when the fetched text is empty;
      otherwise the header followed by the summary of the fetched text. */
  function SummaryUrl(url: UrlArg, fetch: UrlArg -> string, summarize: string -> string): (r: string)
    ensures r == Unavailable <==> fetch(url) == ""
    ensures fetch(url) != "" ==>
      |SummaryHeader| <= |r| && r[..|SummaryHeader|] == SummaryHeader &&
      r[|SummaryHeader|..] == summarize(fetch(url))
  {
    var text := fetch(url);
    if text == "" then Unavailable
    else
      HeaderIsNotUnavailable(summarize(text));
      SummaryHeader + summarize(text)
  }

  /** `ask_url(url, question)`: the sentinel on empty page text; otherwise the
      answer over the page text to the question with the reply-language
      instruction appended. */
  function AskUrl(url: string, question: string, fetch: UrlArg -> string,
                  answer: (string, string) -> string): (r: string)
    ensures fetch(UrlString(url)) == "" ==> r == Unavailable
    ensures fetch(UrlString(url)) != "" ==>
      r == answer(fetch(UrlString(url)), question + ReplyLanguage)
  {
    var text := fetch(UrlString(url));
    if text == "" then Unavailable else answer(text, question + ReplyLanguage)
  }

  /** On empty page text `summary_url` does no summarising: its reply is the
      same whatever the summariser. */
  lemma SummaryUrlSkipsWorkOnEmpty(url: UrlArg, fetch: UrlArg -> string, s1: string -> string, s2: string -> string)
    requires fetch(url) == ""
    ensures SummaryUrl(url, fetch, s1) == SummaryUrl(url, fetch, s2) == Unavailable
  {
  }

  /** On empty page text `ask_url` builds no index and asks nothing: its reply
      is the same whatever the question and the answering chain. */
  lemma AskUrlSkipsWorkOnEmpty(url: string, q1: string, q2: string, fetch: UrlArg -> string,
                               a1: (string, string) -> string, a2: (string, string) -> string)
    requires fetch(UrlString(url)) == ""
    ensures AskUrl(url, q1, fetch, a1) == AskUrl(url, q2, fetch, a2) == Unavailable
  {
  }
}
