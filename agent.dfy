/** The state of `ChuanhuAgent_Client`: its tool list, its document index and
    the index's summary, and the operations that change them — construction,
    a streaming answer run, a file upload — plus `query_index`, which reads them.
    Tool loading, index construction, summarisation, retrieval answering and the
    agent runtime are services outside the model, passed in as functions. */
module Agent {
  import opened Text
  import Streaming
  import WebTools

  datatype Option<T> = None | Some(value: T)

  /** The argument schema a tool declares; `Loaded` is whatever a tool from
      the tool loader declares. */
  datatype Schema = Loaded | GoogleSearchInput | WebBrowsingInput | WebAskingInput

  /** `Tool.from_function` gives a plain tool, `StructuredTool.from_function` a structured one. */
  datatype ToolKind = Plain | Structured

  datatype Tool = Tool(name: string, description: string, schema: Schema, kind: ToolKind)

  /** An opaque handle on a document index. */
  datatype DocIndex = DocIndex(handle: nat)

  /** An uploaded file, as the UI hands it over. */
  datatype FileRef = FileRef(path: string)

  /** The status the upload hands back: `gr.Markdown.update()` with no
      argument (leave the widget as it is) or a message. */
  datatype Status = KeepStatus | StatusText(text: string)

  /** How `handle_file_upload` ends: it returns the chat history and a status,
      or its assertion on the index fails. */
  datatype UploadResult = Returned(history: Chatbot, status: Status) | AssertionError(message: string)

  /** What one agent run produces: the fragments its callback forwards and how it ends. */
  datatype AgentRun = AgentRun(forwarded: seq<string>, outcome: Streaming.RunOutcome)

  const GoogleSearchTool := Tool("Google Search JSON", "useful when you need to search the web.", GoogleSearchInput, Plain)
  const SummaryWebpageTool := Tool("Summary Webpage", "useful when you need to know the overall content of a webpage.", WebBrowsingInput, Plain)
  const AskWebpageTool := Tool("Ask Webpage", "useful when you need to ask detailed questions about a webpage.", WebAskingInput, Structured)

  const KnowledgeBaseName := "Query Knowledge Base"
  const IndexFailure := "Сбой получения индексации"
  const IndexReady := "Создание индексации завершено"

  /** Python's `str()` of an optional string: `None` prints as `None`. */
  function OptionText(o: Option<string>): string {
    match o
    case None => "None"
    case Some(s) => s
  }

  /** The tool a streaming run adds while an index exists; its description names the index summary. */
  function KnowledgeBaseTool(summary: Option<string>): (t: Tool)
    ensures t.name == KnowledgeBaseName && t.schema == WebBrowsingInput && t.kind == Plain
    ensures summary.None? ==> t.description == "useful when you need to know about: None"
  {
    Tool(KnowledgeBaseName, "useful when you need to know about: " + OptionText(summary), WebBrowsingInput, Plain)
  }

  /** A model name containing `Pro` selects the larger set of loaded tools. */
  predicate IsPro(modelName: string) {
    Contains(modelName, "Pro")
  }

  /** The names the constructor asks the tool loader for. */
  function RequestedTools(modelName: string): (names: seq<string>)
    ensures |names| == if IsPro(modelName) then 6 else 4
    ensures "serpapi" in names <==> IsPro(modelName)
    ensures "ddg-search" in names <==> !IsPro(modelName)
    ensures "llm-math" in names && "arxiv" in names && "wikipedia" in names
  {
    if IsPro(modelName) then ["serpapi", "google-search-results-json", "llm-math", "arxiv", "wikipedia", "wolfram-alpha"]
    else ["ddg-search", "llm-math", "arxiv", "wikipedia"]
  }

  /** The tools the constructor appends after the loaded ones. */
  function OwnTools(modelName: string): (r: seq<Tool>)
    ensures |r| >= 2 && r[|r| - 2..] == [SummaryWebpageTool, AskWebpageTool]
    ensures GoogleSearchTool in r <==> !IsPro(modelName)
    ensures |r| == if IsPro(modelName) then 2 else 3
  {
    (if IsPro(modelName) then [] else [GoogleSearchTool]) + [SummaryWebpageTool, AskWebpageTool]
  }

  /** The prompt the upload's summarisation chain uses. */
  function SummaryPrompt(language: string): string {
    "Write a concise summary of the following:\n\n{text}\n\nCONCISE SUMMARY IN " + language + ":"
  }

  /** The chat entry a successful upload appends. */
  function UploadTurn(fileCount: nat, summary: string): (turn: (string, string))
    ensures turn.1 == summary
    ensures var text := turn.0;
      |text| > 15 && text[..9] == "Uploaded " && text[|text| - 6..] == " files" &&
      var digits := text[9..|text| - 6];
      (forall i :: 0 <= i < |digits| ==> IsDigit(digits[i])) &&
      DecimalValue(digits) == fileCount && (fileCount == 0 || digits[0] != '0')
  {
    var digits := NatToString(fileCount);
    var text := "Uploaded " + digits + " files";
    assert text[9..|text| - 6] == digits;
    NatToStringValue(fileCount);
    (text, summary)
  }

  /** The tool list after one streaming run. */
  function ToolsAfterRun(tools: seq<Tool>, index: Option<DocIndex>, summary: Option<string>): (after: seq<Tool>)
    ensures index.None? ==> after == tools
    ensures index.Some? ==> |after| == |tools| + 1 && after[..|tools|] == tools && after[|tools|] == KnowledgeBaseTool(summary)
  {
    if index.Some? then tools + [KnowledgeBaseTool(summary)] else tools
  }

  /** The tool list after `n` streaming runs with no upload between them. */
  function ToolsAfterRuns(tools: seq<Tool>, index: Option<DocIndex>, summary: Option<string>, n: nat): seq<Tool> {
    if n == 0 then tools else ToolsAfterRun(ToolsAfterRuns(tools, index, summary, n - 1), index, summary)
  }

  function Repeat<T>(x: T, n: nat): seq<T> {
    if n == 0 then [] else Repeat(x, n - 1) + [x]
  }

  /** How many tools in the list carry the given name. */
  function CountNamed(tools: seq<Tool>, name: string): nat {
    if tools == [] then 0
    else CountNamed(tools[..|tools| - 1], name) + (if tools[|tools| - 1].name == name then 1 else 0)
  }

  /** While an index exists, every run appends one more knowledge-base tool:
      after `n` runs the list is the old one followed by `n` copies. */
  lemma {:induction false} RunsWithIndexAccumulate(tools: seq<Tool>, index: DocIndex, summary: Option<string>, n: nat)
    ensures ToolsAfterRuns(tools, Some(index), summary, n) == tools + Repeat(KnowledgeBaseTool(summary), n)
  {
    if n > 0 {
      RunsWithIndexAccumulate(tools, index, summary, n - 1);
    }
  }

  /** Without an index, runs leave the tool list as it is. */
  lemma {:induction false} RunsWithoutIndexKeepTools(tools: seq<Tool>, summary: Option<string>, n: nat)
    ensures ToolsAfterRuns(tools, None, summary, n) == tools
  {
    if n > 0 {
      RunsWithoutIndexKeepTools(tools, summary, n - 1);
    }
  }

  /** Runs never remove or reorder a tool: the old list is a prefix of the new. */
  lemma RunsKeepExisting(tools: seq<Tool>, index: Option<DocIndex>, summary: Option<string>, n: nat)
    ensures var after := ToolsAfterRuns(tools, index, summary, n);
      |tools| <= |after| && after[..|tools|] == tools
  {
    if index.Some? {
      RunsWithIndexAccumulate(tools, index.value, summary, n);
    } else {
      RunsWithoutIndexKeepTools(tools, summary, n);
    }
  }

  lemma {:induction false} CountNamedAppend(a: seq<Tool>, b: seq<Tool>, name: string)
    ensures CountNamed(a + b, name) == CountNamed(a, name) + CountNamed(b, name)
    decreases |b|
  {
    if b == [] {
      assert a + b == a;
    } else {
      assert (a + b)[..|a + b| - 1] == a + b[..|b| - 1];
      CountNamedAppend(a, b[..|b| - 1], name);
    }
  }

  /** One knowledge-base tool more is one more tool with that name. */
  lemma CountNamedAddKnowledgeBase(tools: seq<Tool>, summary: Option<string>)
    ensures CountNamed(tools + [KnowledgeBaseTool(summary)], KnowledgeBaseName) == CountNamed(tools, KnowledgeBaseName) + 1
  {
    var kb := KnowledgeBaseTool(summary);
    CountNamedAppend(tools, [kb], KnowledgeBaseName);
    assert [kb][..0] == [];
  }

  /** With an index, `n` runs add exactly `n` tools named "Query Knowledge Base". */
  lemma {:induction false} RunsDuplicateKnowledgeBase(tools: seq<Tool>, index: DocIndex, summary: Option<string>, n: nat)
    ensures CountNamed(ToolsAfterRuns(tools, Some(index), summary, n), KnowledgeBaseName) ==
            CountNamed(tools, KnowledgeBaseName) + n
  {
    if n > 0 {
      var before := ToolsAfterRuns(tools, Some(index), summary, n - 1);
      RunsDuplicateKnowledgeBase(tools, index, summary, n - 1);
      CountNamedAddKnowledgeBase(before, summary);
    }
  }

  /** The chat history list the UI passes in and gets back; the upload appends to it in place. */
  class Chatbot {
    var turns: seq<(string, string)>

    constructor (turns: seq<(string, string)>)
      ensures this.turns == turns
    {
      this.turns := turns;
    }
  }

  class Client {
    const modelName: string
    var tools: seq<Tool>
    var index: Option<DocIndex>
    var indexSummary: Option<string>

    /** `__init__`: the loaded tools, then the agent's own, and no index yet. */
    constructor (modelName: string, loadTools: seq<string> -> seq<Tool>)
      ensures this.modelName == modelName
      ensures tools == loadTools(RequestedTools(modelName)) + OwnTools(modelName)
      ensures index == None && indexSummary == None
    {
      this.modelName := modelName;
      indexSummary := None;
      index := None;
      tools := loadTools(RequestedTools(modelName));
      if !IsPro(modelName) {
        tools := tools + [GoogleSearchTool];
      }
      tools := tools + [SummaryWebpageTool];
      tools := tools + [AskWebpageTool];
    }

    /** `get_answer_stream_iter`: the worker appends the knowledge-base tool to
        the shared list when an index exists and runs the agent over the whole
        list with the question and the reply-language instruction; the caller
        yields the growing text of what the worker sends. */
    method AnswerStream(question: string, agent: (seq<Tool>, string) -> AgentRun) returns (values: seq<string>)
      modifies this`tools
      ensures tools == ToolsAfterRun(old(tools), index, indexSummary)
      ensures var run := agent(tools, question + WebTools.ReplyLanguage);
        values == Streaming.Cumulative(Streaming.Produced(run.forwarded, run.outcome))
    {
      if index.Some? {
        tools := tools + [KnowledgeBaseTool(indexSummary)];
      }
      var run := agent(tools, question + WebTools.ReplyLanguage);
      var fragments := Streaming.Produced(run.forwarded, run.outcome);
      values := Streaming.Consume(fragments);
    }

    /** `handle_file_upload`: no files changes nothing; an index that cannot be
        built fails the assertion before anything is assigned; otherwise the
        index and its summary are replaced and one entry is appended to the chat. */
    method HandleFileUpload(files: seq<FileRef>, chatbot: Chatbot, language: string,
                            constructIndex: seq<FileRef> -> Option<DocIndex>,
                            summarize: (DocIndex, string) -> string) returns (result: UploadResult)
      modifies this`index, this`indexSummary, chatbot
      ensures files == [] ==>
        result == Returned(chatbot, KeepStatus) &&
        index == old(index) && indexSummary == old(indexSummary) && chatbot.turns == old(chatbot.turns)
      ensures files != [] && constructIndex(files).None? ==>
        result == AssertionError(IndexFailure) &&
        index == old(index) && indexSummary == old(indexSummary) && chatbot.turns == old(chatbot.turns)
      ensures files != [] && constructIndex(files).Some? ==>
        var summary := summarize(constructIndex(files).value, SummaryPrompt(language));
        result == Returned(chatbot, StatusText(IndexReady)) &&
        index == constructIndex(files) && indexSummary == Some(summary) &&
        chatbot.turns == old(chatbot.turns) + [UploadTurn(|files|, summary)]
    {
      var status := KeepStatus;
      if files != [] {
        var built := constructIndex(files);
        if built.None? {
          return AssertionError(IndexFailure);
        }
        index := built;
        status := StatusText(IndexReady);
        var summary := summarize(built.value, SummaryPrompt(language));
        indexSummary := Some(summary);
        chatbot.turns := chatbot.turns + [UploadTurn(|files|, summary)];
      }
      result := Returned(chatbot, status);
    }

    /** `query_index`: the retrieval answer when an index exists, `None` otherwise. */
    function QueryIndex(query: string, answer: (DocIndex, string) -> string): (r: Option<string>)
      reads this
      ensures r.None? <==> index.None?
      ensures index.Some? ==> r == Some(answer(index.value, query))
    {
      if index.Some? then Some(answer(index.value, query)) else None
    }
  }

  /** Two streaming runs with an index in place leave two knowledge-base tools
      behind the tools that were there before. */
  method TwoRunsWithIndex(client: Client, question: string, agent: (seq<Tool>, string) -> AgentRun)
    requires client.index.Some?
    modifies client`tools
    ensures client.tools == old(client.tools) + Repeat(KnowledgeBaseTool(old(client.indexSummary)), 2)
  {
    var first := client.AnswerStream(question, agent);
    var second := client.AnswerStream(question, agent);
    RunsWithIndexAccumulate(old(client.tools), client.index.value, client.indexSummary, 2);
  }
}
