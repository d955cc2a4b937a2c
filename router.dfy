/** `handle_message`: the command router. A message is split into words; the
    first word, lower-cased, selects one of three commands and the remaining
    words become its arguments; any other first word is reported back. */
module Router {
  import opened Text
  import WebTools

  const SearchCommand := "!search"
  const SummarizeCommand := "!summarize"
  const AskCommand := "!ask"

  /** The prefix of the reply to an unrecognised first word. */
  const UnknownPrefix := "Unknown command: "

  predicate IsCommand(token: string) {
    Lower(token) == SearchCommand || Lower(token) == SummarizeCommand || Lower(token) == AskCommand
  }

  /** What the router decided to do with a message. */
  datatype Command =
    | Search(keywords: string)
    | Summarize(url: string)
    | Ask(url: string, question: string)
    | Unknown(token: string)

  /** What `handle_message` hands back: a string, or the `TypeError` Python
      raises when a tool is called without one of its parameters. */
  datatype Response = Reply(text: string) | TypeError(missing: string)

  /** The services the commands reach, left abstract: the web search, the page
      fetch (given whatever reaches it as `url`) and the summarisation chain. */
  datatype Services = Services(search: string -> string, fetch: WebTools.UrlArg -> string, summarize: string -> string)

  /** The messages `handle_message` handles without an `IndexError`: at least
      one word, and a second word after `!summarize` or `!ask`. */
  predicate InDomain(message: string)
    ensures InDomain(message) ==> exists i :: 0 <= i < |message| && !IsSpace(message[i])
  {
    SplitEmpty(message);
    var words := Split(message);
    |words| >= 1 &&
    (Lower(words[0]) == SummarizeCommand || Lower(words[0]) == AskCommand ==> |words| >= 2)
  }

  /** The routing decision of `handle_message`. */
  function Route(message: string): (c: Command)
    requires InDomain(message)
    ensures var words := Split(message);
      && (Lower(words[0]) == SearchCommand ==> c.Search? && Split(c.keywords) == words[1..])
      && (Lower(words[0]) == SummarizeCommand ==> c == Summarize(words[1]) && IsWord(c.url))
      && (Lower(words[0]) == AskCommand ==> c.Ask? && c.url == words[1] && Split(c.question) == words[2..])
      && (c.Unknown? <==> !IsCommand(words[0]))
      && (c.Unknown? ==> c.token == words[0])
  {
    var words := Split(message);
    var first := Lower(words[0]);
    if first == SearchCommand then
      SplitJoin(words[1..]);
      Search(Join(" ", words[1..]))
    else if first == SummarizeCommand then
      Summarize(words[1])
    else if first == AskCommand then
      SplitJoin(words[2..]);
      Ask(words[1], Join(" ", words[2..]))
    else
      Unknown(words[0])
  }

  /** What `handle_message` returns for each decision. `!search` calls the
      search tool, which ignores its keywords; `!summarize` passes the
      dictionary `{'url': url}` where the tool expects the URL itself; `!ask`
      passes one dictionary to a tool that takes `url` and `question`, so the
      call fails for want of `question`. */
  function Respond(c: Command, svc: Services): (r: Response)
    ensures c.Search? ==> r == Reply(svc.search(WebTools.FixedQuery))
    ensures c.Summarize? ==> r.Reply? && (r.text == WebTools.Unavailable <==> svc.fetch(WebTools.UrlDict(c.url)) == "")
    ensures r.TypeError? <==> c.Ask?
    ensures c.Unknown? ==> r == Reply(UnknownPrefix + c.token)
  {
    match c
    case Search(keywords) => Reply(WebTools.GoogleSearchSimple(map["keywords" := keywords], svc.search))
    case Summarize(url) => Reply(WebTools.SummaryUrl(WebTools.UrlDict(url), svc.fetch, svc.summarize))
    case Ask(url, question) => TypeError("question")
    case Unknown(token) => Reply(UnknownPrefix + token)
  }

  /** `handle_message(message)`. */
  function HandleMessage(message: string, svc: Services): (r: Response)
    requires InDomain(message)
    ensures var first := Split(message)[0];
      && (Lower(first) == SearchCommand ==> r == Reply(svc.search(WebTools.FixedQuery)))
      && (Lower(first) == SummarizeCommand ==>
            r == Reply(WebTools.SummaryUrl(WebTools.UrlDict(Split(message)[1]), svc.fetch, svc.summarize)) &&
            (r.text == WebTools.Unavailable <==> svc.fetch(WebTools.UrlDict(Split(message)[1])) == ""))
      && (r.TypeError? <==> Lower(first) == AskCommand)
      && (!IsCommand(first) ==> r == Reply(UnknownPrefix + first))
  {
    Respond(Route(message), svc)
  }

  /** A message with no word at all is outside the domain (`words[0]` raises). */
  lemma NoWordOutsideDomain(message: string)
    requires forall i :: 0 <= i < |message| ==> IsSpace(message[i])
    ensures !InDomain(message)
  {
    SplitEmpty(message);
  }

  /** `!summarize` or `!ask` (in any case) with nothing after it is outside the domain (`words[1]` raises). */
  lemma MissingUrlOutsideDomain(token: string)
    requires IsWord(token)
    requires Lower(token) == SummarizeCommand || Lower(token) == AskCommand
    ensures !InDomain(token)
  {
    SplitJoin([token]);
  }

  /** A message whose words are `t k1 k2 …`, with `t` any casing of `!search`
      and any whitespace between and around the words: the keywords are the
      remaining words joined by single spaces. */
  lemma SearchDispatch(m: string, t: string, rest: seq<string>)
    requires Lower(t) == SearchCommand
    requires Split(m) == [t] + rest
    ensures InDomain(m) && Route(m) == Search(Join(" ", rest))
  {
    assert ([t] + rest)[1..] == rest;
  }

  /** Words `t url w…` with `t` any casing of `!summarize`: the URL is the second word, later words are ignored. */
  lemma SummarizeDispatch(m: string, t: string, url: string, rest: seq<string>)
    requires Lower(t) == SummarizeCommand
    requires Split(m) == [t, url] + rest
    ensures InDomain(m) && Route(m) == Summarize(url)
  {
  }

  /** Words `t url q…` with `t` any casing of `!ask`: the URL is the second
      word, the question the words after it joined by single spaces. */
  lemma AskDispatch(m: string, t: string, url: string, rest: seq<string>)
    requires Lower(t) == AskCommand
    requires Split(m) == [t, url] + rest
    ensures InDomain(m) && Route(m) == Ask(url, Join(" ", rest))
  {
    assert ([t, url] + rest)[2..] == rest;
  }

  /** Any other first word is named back with its case intact. */
  lemma UnknownDispatch(m: string, t: string, rest: seq<string>, svc: Services)
    requires !IsCommand(t)
    requires Split(m) == [t] + rest
    ensures InDomain(m) && Route(m) == Unknown(t)
    ensures HandleMessage(m, svc) == Reply(UnknownPrefix + t)
  {
  }

  /** A command followed by any further characters is no longer a command. */
  lemma SuffixedIsNotCommand(t: string, x: string)
    requires IsCommand(t) && x != []
    ensures !IsCommand(t + x)
  {
    LowerAppend(t, x);
    var l := Lower(t + x);
    assert l[..|Lower(t)|] == Lower(t);
    if Lower(t) == SearchCommand {
      assert l[..3] == "!se" && SummarizeCommand[..3] == "!su";
    } else if Lower(t) == SummarizeCommand {
      assert l[..3] == "!su" && SearchCommand[..3] == "!se";
    } else {
      assert l[..2] == "!a" && SearchCommand[..2] == "!s" && SummarizeCommand[..2] == "!s";
    }
  }

  /** Matching is on the whole word: a command followed by any further
      characters is an unknown word. */
  lemma SuffixedCommandIsUnknown(m: string, t: string, x: string, rest: seq<string>)
    requires IsCommand(t) && x != []
    requires Split(m) == [t + x] + rest
    ensures InDomain(m) && Route(m) == Unknown(t + x)
  {
    SuffixedIsNotCommand(t, x);
  }

  /** `!SEARCH` lowers to the search command, so `SearchDispatch` applies to it. */
  lemma UpperCaseSearch()
    ensures Lower("!SEARCH") == SearchCommand
  {
  }

  /** `!Summarize` lowers to the summarise command, so `SummarizeDispatch` applies to it. */
  lemma MixedCaseSummarize()
    ensures Lower("!Summarize") == SummarizeCommand
  {
  }

  /** `!ASK` lowers to the ask command, so `AskDispatch` applies to it. */
  lemma UpperCaseAsk()
    ensures Lower("!ASK") == AskCommand
  {
  }
}
