/** The four built-in tools and the tool interface: names, descriptions,
    function-calling schemas, argument binding, and what each tool's
    `execute` does with the E2B provider. */
module Tools {

  import opened Wrappers
  import opened Cloud
  import opened Retry
  import opened E2B
  import OM = OrderedMaps

  /** Tool-call arguments (string values only). */
  type Args = map<string, string>

  datatype Param = Param(name: string, typ: string, choices: Option<seq<string>>, description: string)
  datatype FunctionSchema = FunctionSchema(name: string, description: string, properties: seq<Param>, required: seq<string>)
  /** `{"type": kind, "function": {...}}`. */
  datatype ToolSchema = ToolSchema(kind: string, fn: FunctionSchema)

  datatype SearchHit = SearchHit(title: string, snippet: string, url: string)

  /** The dict a tool's `execute` returns (or the executor's error dict). */
  datatype ToolResult =
    | Failure(error: string)
    | CodeRun(run: ExecResult)
    | FileContent(content: string, path: string)
    | FileWritten(path: string, message: string)
    | FileListing(files: seq<string>, directory: string)
    | SearchResults(results: seq<SearchHit>, query: string)
    | Analysis(success: bool, analysisType: string, output: string, failure: Option<string>, artifacts: seq<Artifact>)
    | Other(success: bool, fields: map<string, string>)

  /** `result.get("success", False)`. */
  function Succeeded(r: ToolResult): bool {
    match r
    case Failure(_) => false
    case CodeRun(run) => run.success
    case Analysis(success, _, _, _, _) => success
    case Other(success, _) => success
    case _ => true
  }

  datatype Builtin = CodeExecution | FileOperations | WebSearch | DataAnalysis

  /** A registered tool: a built-in, or any other `BaseTool` whose argument
      check and body are oracles (the body receives the session id). */
  datatype Tool =
    | Builtin(kind: Builtin)
    | Custom(name: string, description: string, schema: ToolSchema,
             validate: Args -> Outcome<bool>, body: (string, Args) -> Outcome<ToolResult>)

  function NameOf(t: Tool): string {
    match t
    case Custom(name, _, _, _, _) => name
    case Builtin(CodeExecution) => "execute_code"
    case Builtin(FileOperations) => "file_operations"
    case Builtin(WebSearch) => "web_search"
    case Builtin(DataAnalysis) => "analyze_data"
  }

  function DescriptionOf(t: Tool): string {
    match t
    case Custom(_, description, _, _, _) => description
    case Builtin(CodeExecution) => "Execute Python code in secure sandbox. Returns stdout, stderr, and any generated artifacts."
    case Builtin(FileOperations) => "Read, write, or list files in the sandbox filesystem"
    case Builtin(WebSearch) => "Search the web for information"
    case Builtin(DataAnalysis) => "Analyze CSV/Excel data with pandas - get summary statistics, correlations, visualizations"
  }

  /** `get_schema()`. */
  function SchemaOf(t: Tool): (s: ToolSchema)
    ensures t.Builtin? ==> s.kind == "function" && s.fn.name == NameOf(t) && s.fn.description == DescriptionOf(t)
    ensures t.Builtin? ==> s.fn.properties == Properties(t.kind) && s.fn.required == RequiredArgs(t.kind)
  {
    match t
    case Custom(_, _, schema, _, _) => schema
    case Builtin(kind) => ToolSchema("function", FunctionSchema(NameOf(t), DescriptionOf(t), Properties(kind), RequiredArgs(kind)))
  }

  /** The "properties" of each built-in's parameters schema. */
  function Properties(kind: Builtin): seq<Param> {
    match kind
    case CodeExecution => [Param("code", "string", None, "Python code to execute")]
    case FileOperations => [Param("operation", "string", Some(["read", "write", "list"]), "File operation to perform"),
                            Param("path", "string", None, "File or directory path"),
                            Param("content", "string", None, "Content to write (for write operation)")]
    case WebSearch => [Param("query", "string", None, "Search query")]
    case DataAnalysis => [Param("file_path", "string", None, "Path to CSV/Excel file"),
                          AnalysisTypeParam]
  }

  const AnalysisTypeParam := Param("analysis_type", "string", Some(["summary", "visualize", "correlate"]), "Type of analysis to perform")

  /** The parameters of `execute` without a default (besides `session_id`). */
  function RequiredArgs(kind: Builtin): seq<string> {
    match kind
    case CodeExecution => ["code"]
    case FileOperations => ["operation", "path"]
    case WebSearch => ["query"]
    case DataAnalysis => ["file_path"]
  }

  function ClassName(kind: Builtin): string {
    match kind
    case CodeExecution => "CodeExecutionTool"
    case FileOperations => "FileOperationsTool"
    case WebSearch => "WebSearchTool"
    case DataAnalysis => "DataAnalysisTool"
  }

  function Missing(required: seq<string>, args: Args): (m: seq<string>)
    ensures forall p :: p in m <==> p in required && p !in args
    ensures |m| <= |required|
  {
    if required == [] then []
    else (if required[0] in args then [] else [required[0]]) + Missing(required[1..], args)
  }

  /** The TypeError for a `self` key, which the bound method has already
      filled. */
  function SelfCollision(kind: Builtin): Exception {
    Exception(TypeError, ClassName(kind) + ".execute() got multiple values for argument 'self'")
  }

  /** `tool.execute(session_id=..., **arguments)` on the bound method, with
      the TypeErrors of CPython 3.10+ in the order it raises them: merging
      the keywords rejects a second `session_id` (the message names the
      function with its module); binding then rejects a `self` key, since
      `self` is already filled, and finally a missing required parameter. */
  function Bind(kind: Builtin, args: Args): (r: Outcome<()>)
    ensures r.Ok? <==> "session_id" !in args && "self" !in args && forall p :: p in RequiredArgs(kind) ==> p in args
    ensures r.Raised? ==> r.exc.kind == TypeError
    ensures "session_id" !in args && "self" in args ==> r == Raised(SelfCollision(kind))
  {
    var qual := ClassName(kind) + ".execute()";
    var missing := Missing(RequiredArgs(kind), args);
    if "session_id" in args then
      Raised(Exception(TypeError, "orchestrator.tools.implementations." + qual + " got multiple values for keyword argument 'session_id'"))
    else if "self" in args then
      Raised(SelfCollision(kind))
    else if |missing| == 1 then
      assert missing[0] in missing;
      Raised(Exception(TypeError, qual + " missing 1 required positional argument: '" + missing[0] + "'"))
    else if |missing| == 2 then
      Raised(Exception(TypeError, qual + " missing 2 required positional arguments: '" + missing[0] + "' and '" + missing[1] + "'"))
    else
      assert missing == [];
      Ok(())
  }

  /** The create-if-missing guard of `execute_code` and `analyze_data`. */
  function EnsureStep(sbs: Sandboxes, sessionId: string, v: Vendor, jitter: nat -> int): (r: Step<Outcome<()>>)
    requires OM.Valid(sbs) && JitterInRange(jitter)
    ensures OM.Valid(r.sandboxes)
  {
    if sessionId in sbs.items then Step(Ok(()), sbs, [])
    else
      var c := CreateStep(sbs, sessionId, None, v, jitter);
      Step(if c.result.Ok? then Ok(()) else Raised(c.result.exc), c.sandboxes, c.calls)
  }

  /** Create the sandbox if missing, then run `code` once (with its retry). */
  function RunInSandbox(sbs: Sandboxes, sessionId: string, code: string, v: Vendor, jitter: nat -> int): (r: Step<Outcome<ExecResult>>)
    requires OM.Valid(sbs) && JitterInRange(jitter)
    ensures OM.Valid(r.sandboxes)
  {
    var c := EnsureStep(sbs, sessionId, v, jitter);
    if c.result.Raised? then Step(Raised(c.result.exc), c.sandboxes, c.calls)
    else
      var x := ExecuteStep(c.sandboxes, sessionId, code, v, jitter);
      Step(x.result, c.sandboxes, c.calls + x.calls)
  }

  function CodeExecutionStep(sbs: Sandboxes, sessionId: string, code: string, v: Vendor, jitter: nat -> int): (r: Step<Outcome<ToolResult>>)
    requires OM.Valid(sbs) && JitterInRange(jitter)
    ensures OM.Valid(r.sandboxes)
  {
    var x := RunInSandbox(sbs, sessionId, code, v, jitter);
    Step(if x.result.Ok? then Ok(CodeRun(x.result.value)) else Raised(x.result.exc), x.sandboxes, x.calls)
  }

  function FileOperationsStep(sbs: Sandboxes, sessionId: string, operation: string, path: string,
                              content: Option<string>, v: Vendor): (r: Step<Outcome<ToolResult>>)
    ensures r.sandboxes == sbs
  {
    if operation == "read" then
      var x := ReadStep(sbs, sessionId, path, v);
      Step(if x.result.Ok? then Ok(FileContent(x.result.value, path)) else Raised(x.result.exc), sbs, x.calls)
    else if operation == "write" then
      if content.None? || content.value == "" then Step(Ok(Failure("Content required for write")), sbs, [])
      else
        var x := WriteStep(sbs, sessionId, path, content.value, v);
        Step(if x.result.Ok? then Ok(FileWritten(path, "File written to " + path)) else Raised(x.result.exc), sbs, x.calls)
    else if operation == "list" then
      var x := ListStep(sbs, sessionId, path, v);
      Step(if x.result.Ok? then Ok(FileListing(x.result.value, path)) else Raised(x.result.exc), sbs, x.calls)
    else Step(Ok(Failure("Unknown operation: " + operation)), sbs, [])
  }

  /** The placeholder search. */
  function WebSearchResult(query: string): ToolResult {
    SearchResults([SearchHit("Search result for: " + query,
                             "This is a placeholder. Integrate with real search API.",
                             "https://example.com")], query)
  }

  /** The pandas program `analyze_data` runs, if the analysis type is known. */
  function AnalysisCode(filePath: string, analysisType: string): (code: Option<string>)
    ensures code.Some? <==> analysisType == "summary" || analysisType == "visualize"
  {
    if analysisType == "summary" then Some(SummaryProgram(filePath))
    else if analysisType == "visualize" then Some(VisualizeProgram(filePath))
    else None
  }

  function SummaryProgram(filePath: string): string {
    "\nimport pandas as pd\ndf = pd.read_csv('" + filePath + "')\nprint(\"Shape:\", df.shape)\n"
    + "print(\"\\nColumn Types:\")\nprint(df.dtypes)\nprint(\"\\nSummary Statistics:\")\n"
    + "print(df.describe())\nprint(\"\\nMissing Values:\")\nprint(df.isnull().sum())\n"
  }

  function VisualizeProgram(filePath: string): string {
    "\nimport pandas as pd\nimport matplotlib.pyplot as plt\ndf = pd.read_csv('" + filePath + "')\n"
    + "df.hist(figsize=(12, 8), bins=20)\nplt.tight_layout()\nplt.savefig('/tmp/visualization.png')\n"
    + "print(\"Visualization saved to /tmp/visualization.png\")\n"
  }

  function DataAnalysisStep(sbs: Sandboxes, sessionId: string, filePath: string, analysisType: string,
                            v: Vendor, jitter: nat -> int): (r: Step<Outcome<ToolResult>>)
    requires OM.Valid(sbs) && JitterInRange(jitter)
    ensures OM.Valid(r.sandboxes)
  {
    AnalysisWith(sbs, sessionId, analysisType, AnalysisCode(filePath, analysisType), v, jitter)
  }

  /** `analyze_data` once its program (if any) is chosen. */
  function AnalysisWith(sbs: Sandboxes, sessionId: string, analysisType: string, code: Option<string>,
                        v: Vendor, jitter: nat -> int): (r: Step<Outcome<ToolResult>>)
    requires OM.Valid(sbs) && JitterInRange(jitter)
    ensures OM.Valid(r.sandboxes)
  {
    if code.None? then Step(Ok(Failure("Unknown analysis type: " + analysisType)), sbs, [])
    else
      var x := RunInSandbox(sbs, sessionId, code.value, v, jitter);
      Step(if x.result.Ok? then Ok(Analysis(x.result.value.success, analysisType, x.result.value.stdout,
                                            x.result.value.error, x.result.value.artifacts))
           else Raised(x.result.exc), x.sandboxes, x.calls)
  }

  function ArgOr(args: Args, key: string, default: string): string {
    if key in args then args[key] else default
  }

  function ArgOption(args: Args, key: string): Option<string> {
    if key in args then Some(args[key]) else None
  }

  /** `await tool.execute(session_id=..., **arguments)`. */
  function InvokeStep(t: Tool, sbs: Sandboxes, sessionId: string, args: Args, v: Vendor, jitter: nat -> int): (r: Step<Outcome<ToolResult>>)
    requires OM.Valid(sbs) && JitterInRange(jitter)
    ensures OM.Valid(r.sandboxes)
  {
    match t
    case Custom(_, _, _, _, body) => Step(body(sessionId, args), sbs, [])
    case Builtin(kind) =>
      var bound := Bind(kind, args);
      if bound.Raised? then Step(Raised(bound.exc), sbs, [])
      else match kind
        case CodeExecution => CodeExecutionStep(sbs, sessionId, args["code"], v, jitter)
        case FileOperations => FileOperationsStep(sbs, sessionId, args["operation"], args["path"], ArgOption(args, "content"), v)
        case WebSearch => Step(Ok(WebSearchResult(args["query"])), sbs, [])
        case DataAnalysis => DataAnalysisStep(sbs, sessionId, args["file_path"], ArgOr(args, "analysis_type", "summary"), v, jitter)
  }

  /** The tool bodies, run against the live provider. */
  method EnsureSandbox(provider: E2BProvider, sessionId: string, v: Vendor, jitter: nat -> int)
    returns (r: Outcome<()>, calls: seq<Call>)
    requires provider.Valid() && JitterInRange(jitter)
    modifies provider
    ensures provider.Valid()
    ensures Step(r, provider.sandboxes, calls) == EnsureStep(old(provider.sandboxes), sessionId, v, jitter)
  {
    var existing := provider.GetSandbox(sessionId);
    if existing.Some? {
      return Ok(()), [];
    }
    var created;
    created, calls := provider.CreateSandbox(sessionId, None, v, jitter);
    r := if created.Ok? then Ok(()) else Raised(created.exc);
  }

  method RunCode(provider: E2BProvider, sessionId: string, code: string, v: Vendor, jitter: nat -> int)
    returns (r: Outcome<ExecResult>, calls: seq<Call>)
    requires provider.Valid() && JitterInRange(jitter)
    modifies provider
    ensures provider.Valid()
    ensures Step(r, provider.sandboxes, calls) == RunInSandbox(old(provider.sandboxes), sessionId, code, v, jitter)
  {
    var ready;
    ready, calls := EnsureSandbox(provider, sessionId, v, jitter);
    if ready.Raised? {
      return Raised(ready.exc), calls;
    }
    var more;
    r, more := provider.ExecuteCode(sessionId, code, v, jitter);
    calls := calls + more;
  }

  method Invoke(provider: E2BProvider, t: Tool, sessionId: string, args: Args, v: Vendor, jitter: nat -> int)
    returns (r: Outcome<ToolResult>, calls: seq<Call>)
    requires provider.Valid() && JitterInRange(jitter)
    modifies provider
    ensures provider.Valid()
    ensures Step(r, provider.sandboxes, calls) == InvokeStep(t, old(provider.sandboxes), sessionId, args, v, jitter)
  {
    if t.Custom? {
      return t.body(sessionId, args), [];
    }
    var bound := Bind(t.kind, args);
    if bound.Raised? {
      return Raised(bound.exc), [];
    }
    match t.kind {
      case CodeExecution =>
        var result;
        result, calls := RunCode(provider, sessionId, args["code"], v, jitter);
        r := if result.Ok? then Ok(CodeRun(result.value)) else Raised(result.exc);
      case FileOperations =>
        var operation, path := args["operation"], args["path"];
        if operation == "read" {
          var data;
          data, calls := provider.ReadFile(sessionId, path, v);
          r := if data.Ok? then Ok(FileContent(data.value, path)) else Raised(data.exc);
        } else if operation == "write" {
          var content := ArgOption(args, "content");
          if content.None? || content.value == "" {
            return Ok(Failure("Content required for write")), [];
          }
          var written;
          written, calls := provider.WriteFile(sessionId, path, content.value, v);
          r := if written.Ok? then Ok(FileWritten(path, "File written to " + path)) else Raised(written.exc);
        } else if operation == "list" {
          var files;
          files, calls := provider.ListFiles(sessionId, path, v);
          r := if files.Ok? then Ok(FileListing(files.value, path)) else Raised(files.exc);
        } else {
          r, calls := Ok(Failure("Unknown operation: " + operation)), [];
        }
      case WebSearch =>
        r, calls := Ok(WebSearchResult(args["query"])), [];
      case DataAnalysis =>
        var analysisType := ArgOr(args, "analysis_type", "summary");
        var code := AnalysisCode(args["file_path"], analysisType);
        if code.None? {
          return Ok(Failure("Unknown analysis type: " + analysisType)), [];
        }
        var result;
        result, calls := RunCode(provider, sessionId, code.value, v, jitter);
        r := if result.Ok? then Ok(Analysis(result.value.success, analysisType, result.value.stdout,
                                             result.value.error, result.value.artifacts))
             else Raised(result.exc);
    }
  }

  /** `file_operations` "write" with no or empty content reports an error and
      writes nothing; with content it writes exactly once (to the session's
      sandbox, if it has one) and reports the path. */
  lemma WriteRequiresContent(sbs: Sandboxes, sessionId: string, path: string, content: Option<string>, v: Vendor)
    ensures var s := FileOperationsStep(sbs, sessionId, "write", path, content, v);
      && ((content.None? || content.value == "") ==> s.result == Ok(Failure("Content required for write")) && s.calls == [])
      && ((content.Some? && content.value != "" && sessionId in sbs.items && v.write(sbs.items[sessionId], path, content.value).Ok?) ==>
           s.result == Ok(FileWritten(path, "File written to " + path))
           && s.calls == [FileWrite(sbs.items[sessionId], path, content.value)])
      && ((content.Some? && content.value != "" && sessionId !in sbs.items) ==>
           s.result == Ok(FileWritten(path, "File written to " + path)) && s.calls == [])
  {
  }

  /** "read" returns the content with the path, "list" the provider's
      listing with the directory, anything else "Unknown operation". */
  lemma FileOperationsDispatch(sbs: Sandboxes, sessionId: string, operation: string, path: string, content: Option<string>, v: Vendor)
    ensures var s := FileOperationsStep(sbs, sessionId, operation, path, content, v);
      && (operation == "read" && ReadStep(sbs, sessionId, path, v).result.Ok? ==>
           s.result == Ok(FileContent(ReadStep(sbs, sessionId, path, v).result.value, path)))
      && (operation == "list" && ListStep(sbs, sessionId, path, v).result.Ok? ==>
           s.result == Ok(FileListing(ListStep(sbs, sessionId, path, v).result.value, path)))
      && (operation !in {"read", "write", "list"} ==> s == Step(Ok(Failure("Unknown operation: " + operation)), sbs, []))
  {
  }

  /** `execute_code` creates a sandbox only when the session has none, then
      executes once; the result copies the provider's dict. */
  lemma CodeExecutionCreatesOnlyIfMissing(sbs: Sandboxes, sessionId: string, code: string, v: Vendor, jitter: nat -> int)
    requires OM.Valid(sbs) && JitterInRange(jitter)
    ensures var s := CodeExecutionStep(sbs, sessionId, code, v, jitter);
      && (sessionId in sbs.items ==>
           var x := ExecuteStep(sbs, sessionId, code, v, jitter);
           s.sandboxes == sbs && s.calls == x.calls
           && (x.result.Ok? ==> s.result == Ok(CodeRun(x.result.value))))
      && (sessionId !in sbs.items ==>
           var c := CreateStep(sbs, sessionId, None, v, jitter);
           && |s.calls| >= 1 && s.calls[0] == NewSandbox(Some(DefaultTemplate))
           && (c.result.Raised? ==> s.result == Raised(c.result.exc) && s.sandboxes == sbs))
  {
    if sessionId !in sbs.items {
      CreateRecords(sbs, sessionId, None, v, jitter);
    }
  }

  /** `analyze_data` accepts only "summary" and "visualize"; anything else
      is refused without touching any sandbox. */
  lemma AnalysisRefusesUnknownType(sbs: Sandboxes, sessionId: string, filePath: string, analysisType: string, v: Vendor, jitter: nat -> int)
    requires OM.Valid(sbs) && JitterInRange(jitter)
    requires analysisType != "summary" && analysisType != "visualize"
    ensures DataAnalysisStep(sbs, sessionId, filePath, analysisType, v, jitter)
         == Step(Ok(Failure("Unknown analysis type: " + analysisType)), sbs, [])
  {
  }

  /** A known analysis type runs its program in the session's sandbox
      (created if missing), reports the run's stdout as `output` and echoes
      the type. */
  lemma AnalysisReportsOutput(sbs: Sandboxes, sessionId: string, filePath: string, analysisType: string, code: string,
                              v: Vendor, jitter: nat -> int)
    requires OM.Valid(sbs) && JitterInRange(jitter)
    requires AnalysisCode(filePath, analysisType) == Some(code)
    ensures analysisType == "summary" || analysisType == "visualize"
    ensures DataAnalysisStep(sbs, sessionId, filePath, analysisType, v, jitter).sandboxes == RunInSandbox(sbs, sessionId, code, v, jitter).sandboxes
    ensures DataAnalysisStep(sbs, sessionId, filePath, analysisType, v, jitter).calls == RunInSandbox(sbs, sessionId, code, v, jitter).calls
    ensures RunInSandbox(sbs, sessionId, code, v, jitter).result.Ok? ==>
      var run := RunInSandbox(sbs, sessionId, code, v, jitter).result.value;
      DataAnalysisStep(sbs, sessionId, filePath, analysisType, v, jitter).result
        == Ok(Analysis(run.success, analysisType, run.stdout, run.error, run.artifacts))
  {
    assert DataAnalysisStep(sbs, sessionId, filePath, analysisType, v, jitter)
        == AnalysisWith(sbs, sessionId, analysisType, Some(code), v, jitter);
  }

  /** The schema advertises "correlate", which the tool refuses. */
  lemma CorrelateAdvertisedButRefused(sbs: Sandboxes, sessionId: string, filePath: string, v: Vendor, jitter: nat -> int)
    requires OM.Valid(sbs) && JitterInRange(jitter)
    ensures AnalysisTypeParam in SchemaOf(Builtin(DataAnalysis)).fn.properties
    ensures "correlate" in AnalysisTypeParam.choices.value
    ensures DataAnalysisStep(sbs, sessionId, filePath, "correlate", v, jitter).result == Ok(Failure("Unknown analysis type: " + "correlate"))
  {
    assert AnalysisTypeParam.choices.value[2] == "correlate";
    assert Properties(DataAnalysis)[1] == AnalysisTypeParam;
    AnalysisRefusesUnknownType(sbs, sessionId, filePath, "correlate", v, jitter);
  }

  /** `web_search` always succeeds with one hit whose title contains the query. */
  lemma WebSearchOneHit(query: string)
    ensures var r := WebSearchResult(query);
      r.SearchResults? && Succeeded(r) && |r.results| == 1 && r.query == query
      && r.results[0].title[|r.results[0].title| - |query|..] == query
  {
  }
}
