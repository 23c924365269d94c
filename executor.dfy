/** `ToolExecutor`: looks a tool up, checks its arguments and runs it,
    turning every exception into an error result, so that `execute` itself
    never raises. */
module Executor {

  import opened Wrappers
  import opened Cloud
  import opened Retry
  import opened E2B
  import opened Tools
  import opened Registry
  import OM = OrderedMaps

  /** `validate_args`: always true for the built-ins (`BaseTool`'s default). */
  function Validate(t: Tool, args: Args): (r: Outcome<bool>)
    ensures t.Builtin? ==> r == Ok(true)
  {
    if t.Custom? then t.validate(args) else Ok(true)
  }

  /** `execute(session_id, tool_name, arguments)`. */
  function ExecuteToolStep(tools: ToolTable, sbs: Sandboxes, sessionId: string, name: string, args: Args,
                       v: Vendor, jitter: nat -> int): (r: Step<ToolResult>)
    requires OM.Valid(sbs) && JitterInRange(jitter)
    ensures OM.Valid(r.sandboxes)
  {
    if name !in tools.items then Step(Failure("Tool not found: " + name), sbs, [])
    else
      var t := tools.items[name];
      var ok := Validate(t, args);
      if ok.Raised? then Step(Failure(ok.exc.message), sbs, [])
      else if !ok.value then Step(Failure("Invalid arguments for " + name), sbs, [])
      else
        var s := InvokeStep(t, sbs, sessionId, args, v, jitter);
        Step(if s.result.Ok? then s.result.value else Failure(s.result.exc.message), s.sandboxes, s.calls)
  }

  /** The registry after `_register_builtin_tools` on an empty one. */
  function BuiltinTools(): (tools: ToolTable)
    ensures OM.Valid(tools)
  {
    var empty: ToolTable := OM.Empty();
    Registered(Registered(Registered(Registered(empty, Builtin(CodeExecution)), Builtin(FileOperations)),
               Builtin(WebSearch)), Builtin(DataAnalysis))
  }

  class ToolExecutor {
    const provider: E2BProvider
    const registry: ToolRegistry

    constructor (provider: E2BProvider, definitions: map<string, Definition>)
      ensures this.provider == provider && fresh(registry)
      ensures registry.Valid() && registry.tools == BuiltinTools() && registry.definitions == definitions
    {
      this.provider := provider;
      registry := new ToolRegistry(definitions);
      new;
      RegisterBuiltinTools();
    }

    method RegisterBuiltinTools()
      requires registry.Valid()
      modifies registry
      ensures registry.Valid() && registry.definitions == old(registry.definitions)
      ensures registry.tools == Registered(Registered(Registered(Registered(old(registry.tools),
                Builtin(CodeExecution)), Builtin(FileOperations)), Builtin(WebSearch)), Builtin(DataAnalysis))
    {
      registry.Register(Builtin(CodeExecution));
      registry.Register(Builtin(FileOperations));
      registry.Register(Builtin(WebSearch));
      registry.Register(Builtin(DataAnalysis));
    }

    method Execute(sessionId: string, name: string, args: Args, v: Vendor, jitter: nat -> int)
      returns (r: ToolResult, calls: seq<Call>)
      requires provider.Valid() && registry.Valid() && JitterInRange(jitter)
      modifies provider
      ensures provider.Valid()
      ensures Step(r, provider.sandboxes, calls) == ExecuteToolStep(registry.tools, old(provider.sandboxes), sessionId, name, args, v, jitter)
    {
      var found := registry.Get(name);
      if found.None? {
        return Failure("Tool not found: " + name), [];
      }
      var t := found.value;
      var ok := Validate(t, args);
      if ok.Raised? {
        return Failure(ok.exc.message), [];
      }
      if !ok.value {
        return Failure("Invalid arguments for " + name), [];
      }
      var result;
      result, calls := Invoke(provider, t, sessionId, args, v, jitter);
      r := if result.Ok? then result.value else Failure(result.exc.message);
    }

    method GetToolSchemas() returns (schemas: seq<ToolSchema>)
      requires registry.Valid()
      ensures schemas == Schemas(registry.tools)
    {
      schemas := registry.GetSchemas();
    }
  }

  /** The four built-in names differ (already in their first letter). */
  lemma BuiltinNamesDistinct(a: Builtin, b: Builtin)
    requires a != b
    ensures NameOf(Builtin(a)) != NameOf(Builtin(b))
  {
    assert NameOf(Builtin(a))[0] != NameOf(Builtin(b))[0];
  }

  /** After construction the registry lists exactly the four built-ins, in
      registration order. */
  lemma BuiltinOrder()
    ensures BuiltinTools().keys == ["execute_code", "file_operations", "web_search", "analyze_data"]
  {
    var empty: ToolTable := OM.Empty();
    var t2 := Registered(Registered(empty, Builtin(CodeExecution)), Builtin(FileOperations));
    FirstTwoBuiltins();
    var t3 := Registered(t2, Builtin(WebSearch));
    BuiltinNamesDistinct(CodeExecution, WebSearch);
    BuiltinNamesDistinct(FileOperations, WebSearch);
    RegisteredFresh(t2, Builtin(WebSearch));
    BuiltinNamesDistinct(CodeExecution, DataAnalysis);
    BuiltinNamesDistinct(FileOperations, DataAnalysis);
    BuiltinNamesDistinct(WebSearch, DataAnalysis);
    RegisteredFresh(t3, Builtin(DataAnalysis));
  }

  lemma FirstTwoBuiltins()
    ensures Registered(Registered(OM.Empty(), Builtin(CodeExecution)), Builtin(FileOperations)).keys
      == [NameOf(Builtin(CodeExecution)), NameOf(Builtin(FileOperations))]
    ensures Registered(Registered(OM.Empty(), Builtin(CodeExecution)), Builtin(FileOperations)).items.Keys
      == {NameOf(Builtin(CodeExecution)), NameOf(Builtin(FileOperations))}
  {
    var empty: ToolTable := OM.Empty();
    var t1 := Registered(empty, Builtin(CodeExecution));
    RegisteredFresh(empty, Builtin(CodeExecution));
    BuiltinNamesDistinct(CodeExecution, FileOperations);
    RegisteredFresh(t1, Builtin(FileOperations));
  }

  /** Each built-in's name resolves to that built-in. */
  lemma BuiltinLookup(kind: Builtin)
    ensures OM.Get(BuiltinTools(), NameOf(Builtin(kind))) == Some(Builtin(kind))
  {
    var empty: ToolTable := OM.Empty();
    var t1 := Registered(empty, Builtin(CodeExecution));
    var t2 := Registered(t1, Builtin(FileOperations));
    var t3 := Registered(t2, Builtin(WebSearch));
    RegisteredFresh(empty, Builtin(CodeExecution));
    RegisteredFresh(t1, Builtin(FileOperations));
    RegisteredFresh(t2, Builtin(WebSearch));
    RegisteredFresh(t3, Builtin(DataAnalysis));
    if kind != DataAnalysis {
      BuiltinNamesDistinct(kind, DataAnalysis);
      if kind != WebSearch {
        BuiltinNamesDistinct(kind, WebSearch);
        if kind != FileOperations {
          BuiltinNamesDistinct(kind, FileOperations);
        }
      }
    }
  }

  /** Registering a tool under a new name appends the name to the order. */
  lemma RegisteredFresh(tools: ToolTable, t: Tool)
    requires OM.Valid(tools) && NameOf(t) !in tools.items
    ensures Registered(tools, t) == OM.OrderedMap(tools.keys + [NameOf(t)], tools.items[NameOf(t) := t])
  {
  }

  /** An unknown name yields "Tool not found" and runs nothing. */
  lemma UnknownTool(tools: ToolTable, sbs: Sandboxes, sessionId: string, name: string, args: Args, v: Vendor, jitter: nat -> int)
    requires OM.Valid(sbs) && JitterInRange(jitter) && name !in tools.items
    ensures ExecuteToolStep(tools, sbs, sessionId, name, args, v, jitter) == Step(Failure("Tool not found: " + name), sbs, [])
  {
  }

  /** Rejected arguments yield "Invalid arguments" and the body never runs;
      the built-ins never reject. */
  lemma RejectedArguments(tools: ToolTable, sbs: Sandboxes, sessionId: string, name: string, args: Args, v: Vendor, jitter: nat -> int)
    requires OM.Valid(sbs) && JitterInRange(jitter) && name in tools.items
    requires Validate(tools.items[name], args) == Ok(false)
    ensures tools.items[name].Custom?
    ensures ExecuteToolStep(tools, sbs, sessionId, name, args, v, jitter) == Step(Failure("Invalid arguments for " + name), sbs, [])
  {
  }

  /** A tool body that returns passes its result through unchanged; one that
      raises becomes `{"success": False, "error": str(e)}`. */
  lemma ResultsPassThrough(tools: ToolTable, sbs: Sandboxes, sessionId: string, name: string, args: Args, v: Vendor, jitter: nat -> int)
    requires OM.Valid(sbs) && JitterInRange(jitter) && name in tools.items
    requires Validate(tools.items[name], args) == Ok(true)
    ensures var s := InvokeStep(tools.items[name], sbs, sessionId, args, v, jitter);
      var e := ExecuteToolStep(tools, sbs, sessionId, name, args, v, jitter);
      && (s.result.Ok? ==> e == Step(s.result.value, s.sandboxes, s.calls))
      && (s.result.Raised? ==> e == Step(Failure(s.result.exc.message), s.sandboxes, s.calls) && !Succeeded(e.result))
  {
  }

  /** A built-in called with `session_id` among its arguments, or without a
      required argument, fails with Python's TypeError text and makes no
      vendor call. */
  lemma BadArgumentsReported(tools: ToolTable, sbs: Sandboxes, sessionId: string, name: string, args: Args, v: Vendor, jitter: nat -> int)
    requires OM.Valid(sbs) && JitterInRange(jitter) && name in tools.items && tools.items[name].Builtin?
    requires "session_id" in args || "self" in args || exists p :: p in RequiredArgs(tools.items[name].kind) && p !in args
    ensures var e := ExecuteToolStep(tools, sbs, sessionId, name, args, v, jitter);
      && e.result == Failure(Bind(tools.items[name].kind, args).exc.message)
      && e.sandboxes == sbs && e.calls == []
  {
  }
}
