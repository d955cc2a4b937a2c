# ChuanhuAgent client: a Dafny model

This project models the logic of `ChuanhuAgent_Client` (`modules/models/ChuanhuAgent.py`), the tool-using agent of the chat application. The rest of that class is wiring to LangChain, g4f, DuckDuckGo, `requests`/BeautifulSoup, FAISS, threads and Gradio. The model covers four parts:

- **Command router** (`handle_message`), module `Router` in `router.dfy`. A message is split into words the way Python's `str.split()` does. The first word, lower-cased, selects `!search`, `!summarize` or `!ask`. The other words become the command's arguments. Any other first word is echoed back as `Unknown command: <word>`. The split, join, lower-casing, substring test and integer formatting it relies on are in module `Text` (`text.dfy`).
- **Web tools** (`google_search_simple`, `summary_url`, `ask_url`), module `WebTools` in `web_tools.dfy`. An empty page text gives the sentinel `URL unavailable.` and no further work is done. Otherwise `summary_url` returns `webpage content summary:\n` followed by the summary.
- **Streaming consumer** (the `partial_text` loop of `get_answer_stream_iter`), module `Streaming` in `streaming.dfy`. The generator's output is the finite sequence of values it yields. The method `Consume` runs the loop and is proved equal to the prefix-concatenation function `Cumulative`.
- **Agent state** (`__init__`, the worker's tool append, `handle_file_upload`, `query_index`), module `Agent` in `agent.dfy`. The class `Client` holds `tools`, `index` and `indexSummary`. The chat history the UI passes to the upload is a `Chatbot` object that the upload appends to in place.

Services the code calls but does not implement are function parameters:
- the tool loader;
- the index builder;
- the summarisation and retrieval-answer chains;
- the agent runtime, as a function from tool list and prompt to the fragments it forwards and its outcome;
- the web search;
- the page fetch.

Three argument-passing quirks of `handle_message` are modelled as written:
- `!search` calls `google_search_simple`, which searches the fixed string `notes from a dead house` and ignores its argument (line 104). The reply therefore does not depend on the keywords.
- `!summarize` hands `summary_url` the dictionary `{'url': url}` instead of the URL (line 150). The model passes `UrlDict(url)` to the opaque fetch.
- `!ask` calls `ask_url` with one dictionary, but the method takes `url` and `question` (line 154). Python raises `TypeError` for the missing `question`. `HandleMessage` returns `TypeError("question")` for every `!ask` message.

Edge behaviour of the code, as the model keeps it:
- An empty or all-whitespace message raises `IndexError` at `words[0]`; it is not answered as an unknown command. So is `!summarize` or `!ask` with no second word. These inputs are excluded by the precondition `Router.InDomain`; `Router.NoWordOutsideDomain` and `Router.MissingUrlOutsideDomain` show them outside it.
- A failed index build is an `assert` (line 118), modelled as `AssertionError` with its message.
- `query_index` without an index returns `None`, not an error text: line 164 is a bare string expression.
- The knowledge-base tool is appended to the shared `self.tools` list (line 216 aliases it). It accumulates, one copy per streaming run while an index exists.

## Model

| member | source | states |
|---|---|---|
| Text.Split | modules/models/ChuanhuAgent.py:142 | every item of `message.split()` is a non-empty word without whitespace |
| Text.SplitJoin | modules/models/ChuanhuAgent.py:142-145 | splitting words joined by single spaces gives the same words back |
| Text.SplitJoinSplit | modules/models/ChuanhuAgent.py:145 | re-splitting the `' '.join` of a split gives the same words |
| Text.SplitKeepsText | modules/models/ChuanhuAgent.py:142 | the words of a split, glued together, are the message minus its whitespace: nothing lost, nothing invented |
| Text.SplitEmpty | modules/models/ChuanhuAgent.py:142-144 | the split is empty exactly when the message is all whitespace |
| Text.Lower | modules/models/ChuanhuAgent.py:144 | lower-casing keeps the length and maps each character on its own (ASCII letters to lower case) |
| Text.LowerAppend | modules/models/ChuanhuAgent.py:144 | lower-casing distributes over concatenation |
| Text.ContainsAt | modules/models/ChuanhuAgent.py:70 | the substring test `"Pro" in model_name` holds exactly when the pattern occurs at some position |
| Text.Join | modules/models/ChuanhuAgent.py:145 | `' '.join` of no words is empty; otherwise the result starts with the first word |
| Text.NatToStringValue | modules/models/ChuanhuAgent.py:135 | the decimal text of `len(files)` reads back as that number and has no leading zero unless it is `0`, so it is `str(n)` |
| Router.InDomain | modules/models/ChuanhuAgent.py:142-153 | a message `handle_message` handles without `IndexError` has at least one non-whitespace character |
| Router.Route | modules/models/ChuanhuAgent.py:141-156 | the lower-cased first word selects the command; search keywords and ask question re-split to exactly the remaining words; the URL is the second word; any other first word gives `Unknown` with that word unchanged |
| Router.Respond | modules/models/ChuanhuAgent.py:144-156 | a search replies with the fixed-query search whatever the keywords; a summary replies with the sentinel exactly when the fetch of the dictionary `{'url': url}` is empty; the reply is a `TypeError` exactly for `Ask`; an unknown word is answered `Unknown command: ` and that word |
| Router.HandleMessage | modules/models/ChuanhuAgent.py:141-156 | `!search` replies with the fixed-query search whatever the keywords; `!summarize` replies with `summary_url` of the dictionary holding the second word, so the sentinel exactly when that fetch is empty and otherwise the header followed by the summary; the reply is a `TypeError` exactly for `!ask`; any other first word replies `Unknown command: ` and that word |
| Router.NoWordOutsideDomain | modules/models/ChuanhuAgent.py:142-144 | an all-whitespace message is outside the domain (`words[0]` raises) |
| Router.MissingUrlOutsideDomain | modules/models/ChuanhuAgent.py:148-153 | `!summarize` or `!ask` alone is outside the domain (`words[1]` raises) |
| Router.SearchDispatch | modules/models/ChuanhuAgent.py:142-146 | for any message whose split is any casing of `!search` followed by words, whatever whitespace separates them, the keywords are those words joined by single spaces, the empty string when there are none |
| Router.SummarizeDispatch | modules/models/ChuanhuAgent.py:142-150 | for any message whose split starts with any casing of `!summarize`: the URL is the second word and later words are ignored |
| Router.AskDispatch | modules/models/ChuanhuAgent.py:142-154 | for any message whose split starts with any casing of `!ask`, whatever whitespace separates the words: the URL is the second word and the question is words three onward joined by single spaces |
| Router.UnknownDispatch | modules/models/ChuanhuAgent.py:142-156 | for any message whose first word is no command, it is answered `Unknown command: ` followed by that word in its original case |
| Router.SuffixedIsNotCommand | modules/models/ChuanhuAgent.py:144-152 | a command with any characters appended (`!searchx`) matches none of the three commands |
| Router.SuffixedCommandIsUnknown | modules/models/ChuanhuAgent.py:142-156 | a message whose first word is a command with characters appended is routed as an unknown word: the match is on equality |
| Router.UpperCaseSearch | modules/models/ChuanhuAgent.py:144 | `!SEARCH` lowers to `!search`, so it dispatches as a search |
| Router.MixedCaseSummarize | modules/models/ChuanhuAgent.py:148 | `!Summarize` lowers to `!summarize`, so it dispatches as a summary |
| Router.UpperCaseAsk | modules/models/ChuanhuAgent.py:152 | `!ASK` lowers to `!ask`, so it dispatches as a question |
| WebTools.SearchIgnoresQuery | modules/models/ChuanhuAgent.py:101-111 | `google_search_simple` gives the same result for any two queries |
| WebTools.HeaderIsNotUnavailable | modules/models/ChuanhuAgent.py:183-185 | a summary reply never equals the sentinel |
| WebTools.SummaryUrl | modules/models/ChuanhuAgent.py:180-187 | the reply is the sentinel exactly when the page text is empty; otherwise it starts with `webpage content summary:\n` and the rest is the summary of the page text |
| WebTools.AskUrl | modules/models/ChuanhuAgent.py:189-202 | empty page text gives the sentinel; otherwise the answer over the page text to the question with ` Reply in Русский` appended |
| WebTools.SummaryUrlSkipsWorkOnEmpty | modules/models/ChuanhuAgent.py:181-183 | on empty page text the reply does not depend on the summariser |
| WebTools.AskUrlSkipsWorkOnEmpty | modules/models/ChuanhuAgent.py:190-192 | on empty page text the reply does not depend on the question or the answering chain |
| Streaming.Produced | modules/models/ChuanhuAgent.py:227-234 | once the run starts, the worker sends the forwarded fragments unchanged and in order, then exactly one final fragment, the reply or `str(e)` |
| Streaming.Concat | modules/models/ChuanhuAgent.py:237-239 | the accumulated `partial_text` has exactly as many characters as all fragments together |
| Streaming.Cumulative | modules/models/ChuanhuAgent.py:237-240 | one yielded value per fragment |
| Streaming.CumulativeAt | modules/models/ChuanhuAgent.py:237-240 | yield k is fragments 0 to k concatenated |
| Streaming.Consume | modules/models/ChuanhuAgent.py:237-240 | the `partial_text` loop yields exactly the prefix concatenations |
| Streaming.ConcatAppend | modules/models/ChuanhuAgent.py:239 | concatenating two runs of fragments is concatenating their texts |
| Streaming.CumulativeStep | modules/models/ChuanhuAgent.py:239-240 | each yield is the previous one plus the next fragment |
| Streaming.CumulativeMonotone | modules/models/ChuanhuAgent.py:237-240 | an earlier yield is a prefix of every later one, so lengths never decrease |
| Streaming.CumulativeLast | modules/models/ChuanhuAgent.py:237-240 | the last yield is all fragments concatenated |
| Streaming.FinalYieldCarriesOutcome | modules/models/ChuanhuAgent.py:227-240 | the consumer yields at least once, and the last yield ends with the reply or the error text |
| Agent.RequestedTools | modules/models/ChuanhuAgent.py:70-73 | a `Pro` model name asks for six tools including `serpapi`, any other for four including `ddg-search`; both include `llm-math`, `arxiv` and `wikipedia` |
| Agent.OwnTools | modules/models/ChuanhuAgent.py:70-99 | the agent's own tools are two for a `Pro` model name and three otherwise; they end with "Summary Webpage" then "Ask Webpage", and include "Google Search JSON" exactly when the model name has no `Pro` |
| Agent.KnowledgeBaseTool | modules/models/ChuanhuAgent.py:218-224 | the tool is named "Query Knowledge Base" with the browsing schema; with no summary its description ends in `None`, as the f-string prints it |
| Agent.UploadTurn | modules/models/ChuanhuAgent.py:135 | the chat entry is `Uploaded <n> files` with `<n>` the decimal digits of the file count, with no leading zero for a positive count, paired with the summary |
| Agent.ToolsAfterRun | modules/models/ChuanhuAgent.py:216-225 | without an index the list is unchanged; with one it is the old list followed by exactly one knowledge-base tool carrying the current summary |
| Agent.RunsWithIndexAccumulate | modules/models/ChuanhuAgent.py:216-225 | with an index, n runs leave the old list followed by n knowledge-base tools |
| Agent.RunsWithoutIndexKeepTools | modules/models/ChuanhuAgent.py:217 | without an index, runs leave the tool list unchanged |
| Agent.RunsKeepExisting | modules/models/ChuanhuAgent.py:216-225 | runs never remove or reorder existing tools |
| Agent.RunsDuplicateKnowledgeBase | modules/models/ChuanhuAgent.py:216-225 | with an index, n runs add exactly n tools named "Query Knowledge Base" |
| Agent.Client.constructor | modules/models/ChuanhuAgent.py:60-99 | the tools are the loaded ones for the model name followed by the agent's own; no index and no summary |
| Agent.Client.AnswerStream | modules/models/ChuanhuAgent.py:211-240 | one knowledge-base tool is appended when an index exists, the agent runs over the whole list, and the values yielded are the prefix concatenations of what the worker sends |
| Agent.Client.HandleFileUpload | modules/models/ChuanhuAgent.py:113-137 | no files: nothing changes; no index built: `AssertionError`, old index and summary kept; success: new index and summary, exactly one `Uploaded <n> files` entry appended to the chat |
| Agent.Client.QueryIndex | modules/models/ChuanhuAgent.py:158-164 | `None` exactly when there is no index; otherwise the retrieval answer over the index |
| Agent.TwoRunsWithIndex | modules/models/ChuanhuAgent.py:216-226 | two streaming runs with an index change only the tool list, leaving two knowledge-base tools carrying the summary from before the runs after the earlier ones |

## Left out

- Text.Lower: only ASCII `A`–`Z` are lowered. Python's `str.lower()` also lowers other letters, e.g. the Kelvin sign lowers to `k`, so a non-ASCII spelling of a command that Python would dispatch is `Unknown` in the model.
- The whitespace set of `Text.IsSpace` is Python's `str.isspace` set, written out by code point. Unicode character properties are not modelled beyond it.
- WebTools.SummaryUrl, WebTools.AskUrl, Router.Respond, Router.HandleMessage: the page fetch is a total function, so an exception from `requests.get` is not modelled. None of `fetch_url_content`, `summary_url`, `ask_url` or `handle_message` catches one, so in the source it propagates to the caller. The dictionary `{'url': url}` that `!summarize` passes may well make `requests.get` raise before the empty-text guard; the model's `Reply` for `!summarize` holds only for a fetch that returns.
- Network and HTML handling: `fetch_url_content` (`requests.get`, BeautifulSoup paragraph extraction) and the DuckDuckGo search with its result formatting (`str(results)`, first ten hits). The fetched text and the search result are opaque function results. What `requests` makes of the dictionary that `!summarize` passes is inside that opaque fetch.
- LangChain and g4f machinery: `load_tools`, `initialize_agent`/`agent.run`, the summarisation chains, `TokenTextSplitter` chunking, `OpenAIEmbeddings`, `FAISS`, `RetrievalQA`. Each is a function parameter. The tools `load_tools` returns are unknown, so constructor properties speak only of the appended tools.
- `summary`: the split-then-map-reduce summary of a page is the opaque `summarize` parameter.
- The worker `Thread`, `CallbackToIterator`, the callback manager and `traceback.print_exc`. This is concurrency, and it is implemented in `base_model.py`, which is not part of this model. Only the consumer-side fold over the sequence the worker sends is modelled.
- Agent.Client.AnswerStream, Streaming.Produced, Streaming.FinalYieldCarriesOutcome: the `try` at line 227 covers only `agent.run`. If the tool append (lines 217-225) or `initialize_agent` (line 226) raises, the worker ends without `it.callback` or `it.finish()` and the consumer loop at line 238 waits forever. The model covers only runs in which the agent is built, so the final fragment is always sent.
- Agent.Client.AnswerStream: `get_answer_stream_iter` is a generator, so its body, with the worker start and the tool append, runs only when the caller starts iterating. The model runs it at the call, and yields all values at once as a sequence.
- `get_answer_at_once`: one opaque agent run and the constant `-1` usage sentinel; nothing to state beyond the runtime call.
- The question read from `self.history[-1]["content"]` is a parameter of `AnswerStream`. The history lives in `base_model.py`.
- Agent.Client.HandleFileUpload: an exception raised by the summarisation chain after `self.index` is assigned is not modelled, and the chain is taken to return a string. The `os.environ` assignment, logging, `get_openai_callback` and the Gradio update objects are left out. `gr.Files.update()` is not returned; `gr.Markdown.update()` is `KeepStatus`.
- `files` that is `None` behaves like the empty list in the source (both are falsy); the model takes a sequence.
- The assertion at line 118 disappears under `python -O`; the model keeps it.
