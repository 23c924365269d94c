/** `Agent.run`: load the session's history, open the prompt (system prompt
    on a fresh session, then the user's message), call the model until it
    asks for no tool or the iteration budget is spent, answering every tool
    call with one "tool" message, and finally persist the user message and
    the last answer. The model is an oracle; tools run through the
    `ToolExecutor`. */
module Agent {

  import opened Wrappers
  import opened Messages
  import opened Memory
  import opened Conversation
  import opened Cloud
  import opened Retry
  import opened E2B
  import opened Tools
  import opened Registry
  import opened Executor
  import OM = OrderedMaps

  /** `AgentConfig` without its floating-point and timeout fields. */
  datatype AgentConfig = AgentConfig(name: string, model: string, systemPrompt: Option<string>,
                                     toolsEnabled: bool, streaming: bool, maxIterations: int)

  /** The dict `chat_completion` returns: content, tool calls and usage. */
  datatype Completion = Completion(content: string, toolCalls: seq<ToolCall>, usage: Option<map<string, int>>)

  /** One call of the model: the messages it was shown and the schemas offered. */
  datatype ModelCall = ModelCall(messages: History, tools: Option<seq<ToolSchema>>)

  /** The language model: a completion, or the exception `chat_completion` raised. */
  type Model = (History, Option<seq<ToolSchema>>) -> Outcome<Completion>

  /** `AgentResponse`; `metadata["iterations"]` is `iterations`. */
  datatype AgentResponse = AgentResponse(content: string, toolCalls: seq<ToolCall>, iterations: nat,
                                         usage: Option<map<string, int>>)

  /** Python truthiness of an optional string. */
  predicate Truthy(s: Option<string>) {
    s.Some? && s.value != ""
  }

  function SystemMessage(prompt: string): Message {
    Message("system", prompt, Plain)
  }

  function UserMessage(content: string): Message {
    Message("user", content, Plain)
  }

  function AssistantMessage(c: Completion): Message {
    Message("assistant", c.content, Requests(c.toolCalls))
  }

  /** The messages before the first model call: the system prompt only on an
      empty history, then the history, then the user's message. */
  function Opening(h: History, systemPrompt: Option<string>, message: string): History {
    (if Truthy(systemPrompt) && h == [] then [SystemMessage(systemPrompt.value)] else []) + h + [UserMessage(message)]
  }

  /** The schemas passed to the model: only with tools enabled and an executor. */
  function Offered(config: AgentConfig, tools: Option<ToolTable>): (r: Option<seq<ToolSchema>>)
    requires tools.Some? ==> OM.Valid(tools.value)
    ensures r.Some? <==> config.toolsEnabled && tools.Some?
    ensures r.Some? ==> |r.value| == |tools.value.keys|
  {
    if config.toolsEnabled && tools.Some? then Some(Schemas(tools.value)) else None
  }

  /** The tool messages of one response, the sandboxes afterwards and the
      vendor calls made. */
  datatype Round = Round(messages: seq<Message>, sandboxes: Sandboxes, calls: seq<Call>)

  /** The inner `for tool_call in ...` loop: each call runs through the
      executor on the sandboxes the previous ones left, and its result is
      serialised with `dumps`. */
  function ToolRound(tools: ToolTable, sbs: Sandboxes, sessionId: string, tcs: seq<ToolCall>,
                     v: Vendor, jitter: nat -> int, dumps: ToolResult -> string): (r: Round)
    requires OM.Valid(sbs) && JitterInRange(jitter)
    ensures OM.Valid(r.sandboxes)
    ensures |r.messages| == |tcs|
    decreases |tcs|
  {
    if tcs == [] then Round([], sbs, [])
    else
      var prev := ToolRound(tools, sbs, sessionId, tcs[..|tcs| - 1], v, jitter, dumps);
      var tc := tcs[|tcs| - 1];
      var s := ExecuteToolStep(tools, prev.sandboxes, sessionId, tc.name, tc.arguments, v, jitter);
      Round(prev.messages + [Message("tool", dumps(s.result), Reply(tc.id))], s.sandboxes, prev.calls + s.calls)
  }

  /** What one run works with besides its loop state. */
  datatype Env = Env(config: AgentConfig, tools: Option<ToolTable>, offered: Option<seq<ToolSchema>>,
                     sessionId: string, llm: Model, v: Vendor, jitter: nat -> int, dumps: ToolResult -> string)

  /** The variables of the `while` loop, and the exception that ended it, if any. */
  datatype LoopState = LoopState(iteration: nat, messages: History, response: Option<Completion>,
                                 sandboxes: Sandboxes, modelCalls: seq<ModelCall>, calls: seq<Call>,
                                 failure: Option<Exception>)

  /** `while iteration < max_iterations`: call the model; stop on an
      exception, on a response without tool calls, or (with tool calls but no
      executor) on the AttributeError of `None.execute`. */
  function Loop(env: Env, st: LoopState): (r: LoopState)
    requires JitterInRange(env.jitter) && OM.Valid(st.sandboxes)
    ensures OM.Valid(r.sandboxes)
    decreases env.config.maxIterations - st.iteration
  {
    if st.iteration >= env.config.maxIterations then st
    else
      var asked := st.modelCalls + [ModelCall(st.messages, env.offered)];
      var reply := env.llm(st.messages, env.offered);
      if reply.Raised? then st.(iteration := st.iteration + 1, modelCalls := asked, failure := Some(reply.exc))
      else
        var c := reply.value;
        var shown := st.messages + [AssistantMessage(c)];
        if c.toolCalls == [] then
          st.(iteration := st.iteration + 1, modelCalls := asked, response := Some(c), messages := shown)
        else if env.tools.None? then
          st.(iteration := st.iteration + 1, modelCalls := asked, response := Some(c), messages := shown,
              failure := Some(Exception(AttributeError, "'NoneType' object has no attribute 'execute'")))
        else Loop(env, Next(env, st))
  }

  /** A run's response, the model calls made, the store and sandboxes after
      it and the vendor calls made. */
  datatype RunResult = RunResult(response: Outcome<AgentResponse>, modelCalls: seq<ModelCall>,
                                 store: Store<History>, sandboxes: Sandboxes, calls: seq<Call>)

  const UnboundResponse := Exception(UnboundLocalError,
    "cannot access local variable 'response' where it is not associated with a value")

  /** `run`: one attempt. */
  function RunSpec(config: AgentConfig, maxHistory: int, tools: Option<ToolTable>, s: Store<History>, sbs: Sandboxes,
                   message: string, sessionId: string, llm: Model, v: Vendor, jitter: nat -> int,
                   dumps: ToolResult -> string, now: int): (r: RunResult)
    requires StoreValid(s) && OM.Valid(sbs) && JitterInRange(jitter)
    requires tools.Some? ==> OM.Valid(tools.value)
    ensures StoreValid(r.store) && OM.Valid(r.sandboxes)
  {
    var (loaded, s1) := MessagesOf(s, sessionId, maxHistory, now);
    if loaded.Raised? then RunResult(Raised(loaded.exc), [], s1, sbs, [])
    else Answer(config, maxHistory, tools, s1, sbs, loaded.value, message, sessionId, llm, v, jitter, dumps, now)
  }

  /** The loop's starting state in `run`. */
  function Start(h: History, config: AgentConfig, message: string, sbs: Sandboxes): LoopState {
    LoopState(0, Opening(h, config.systemPrompt, message), None, sbs, [], [], None)
  }

  /** `run` once the session's history `h` has loaded: the loop from the
      opening messages, then (unless it raised) the two `add_message` calls. */
  function Answer(config: AgentConfig, maxHistory: int, tools: Option<ToolTable>, s1: Store<History>, sbs: Sandboxes,
                  h: History, message: string, sessionId: string, llm: Model, v: Vendor, jitter: nat -> int,
                  dumps: ToolResult -> string, now: int): (r: RunResult)
    requires StoreValid(s1) && OM.Valid(sbs) && JitterInRange(jitter)
    requires tools.Some? ==> OM.Valid(tools.value)
    ensures StoreValid(r.store) && OM.Valid(r.sandboxes)
  {
    var env := Env(config, tools, Offered(config, tools), sessionId, llm, v, jitter, dumps);
    var end := Loop(env, Start(h, config, message, sbs));
    if end.failure.Some? then RunResult(Raised(end.failure.value), end.modelCalls, s1, end.sandboxes, end.calls)
    else
      var (response, s3) := Persist(s1, maxHistory, message, sessionId, end.iteration, end.response, now);
      RunResult(response, end.modelCalls, s3, end.sandboxes, end.calls)
  }

  /** The two `add_message` calls after the loop, and the response built from
      the last completion; `response` is unbound when the loop never ran. */
  function Persist(s1: Store<History>, maxHistory: int, message: string, sessionId: string,
                   iterations: nat, last: Option<Completion>, now: int): (r: (Outcome<AgentResponse>, Store<History>))
    requires StoreValid(s1)
    ensures StoreValid(r.1)
    ensures r.0.Ok? ==> last.Some? && r.0.value == AgentResponse(last.value.content, last.value.toolCalls, iterations, last.value.usage)
    ensures last.None? ==> r.0.Raised?
    ensures Load(s1, sessionId, now).0.Some? ==>
      var h2 := Trimmed(Load(s1, sessionId, now).0.value + [NewMessage("user", message, None, now)], maxHistory);
      && HistoryKey(sessionId) in r.1.cache.items
      && (last.None? ==> r.0 == Raised(UnboundResponse) && r.1.cache.items[HistoryKey(sessionId)] == Some(h2))
      && (last.Some? ==>
            && r.0.Ok?
            && r.1.cache.items[HistoryKey(sessionId)]
               == Some(Trimmed(h2 + [NewMessage("assistant", last.value.content, None, now)], maxHistory)))
      && (HistoryKey(sessionId) !in s1.ttl ==> HistoryKey(sessionId) !in r.1.ttl)
  {
    var (added, s2) := AfterAdd(s1, sessionId, NewMessage("user", message, None, now), maxHistory, now);
    if added.Raised? then (Raised(added.exc), s2)
    else if last.None? then (Raised(UnboundResponse), s2)
    else
      var c := last.value;
      var (added2, s3) := AfterAdd(s2, sessionId, NewMessage("assistant", c.content, None, now), maxHistory, now);
      if added2.Raised? then (Raised(added2.exc), s3)
      else (Ok(AgentResponse(c.content, c.toolCalls, iterations, c.usage)), s3)
  }

  class Agent {
    const config: AgentConfig
    const tools: Option<ToolExecutor>
    const memory: MemoryStore<History>
    const conversation: ConversationManager

    ghost function ProviderFrame(): set<object> {
      if tools.Some? then {tools.value.provider} else {}
    }

    ghost function RegistryFrame(): set<object> {
      if tools.Some? then {tools.value.registry} else {}
    }

    ghost predicate Valid()
      reads memory, ProviderFrame(), RegistryFrame()
    {
      && conversation.memory == memory
      && memory.Valid()
      && (tools.Some? ==> tools.value.provider.Valid() && tools.value.registry.Valid())
    }

    /** The provider's sandbox map (empty without an executor). */
    function Sandboxes(): (sbs: Sandboxes)
      reads if tools.Some? then {tools.value.provider} else {}
      requires tools.Some? ==> tools.value.provider.Valid()
      ensures OM.Valid(sbs)
    {
      if tools.Some? then tools.value.provider.sandboxes else OM.Empty()
    }

    /** The registered tools (none without an executor). */
    function Registered(): (t: Option<ToolTable>)
      reads if tools.Some? then {tools.value.registry} else {}
      requires tools.Some? ==> tools.value.registry.Valid()
      ensures t.Some? <==> tools.Some?
      ensures t.Some? ==> OM.Valid(t.value)
    {
      if tools.Some? then Some(tools.value.registry.tools) else None
    }

    /** The conversation manager is built on the agent's store with the
        default `max_history` of 50. */
    constructor (config: AgentConfig, tools: Option<ToolExecutor>, memory: MemoryStore<History>)
      requires memory.Valid()
      requires tools.Some? ==> tools.value.provider.Valid() && tools.value.registry.Valid()
      ensures Valid()
      ensures this.config == config && this.tools == tools && this.memory == memory
      ensures conversation.maxHistory == 50
    {
      this.config := config;
      this.tools := tools;
      this.memory := memory;
      conversation := new ConversationManager(memory, 50);
    }

    /** `run` (one attempt; see `RunSpec`). */
    method Run(message: string, sessionId: string, llm: Model, v: Vendor, jitter: nat -> int,
               dumps: ToolResult -> string, now: int)
      returns (r: Outcome<AgentResponse>, modelCalls: seq<ModelCall>, calls: seq<Call>)
      requires Valid() && JitterInRange(jitter)
      modifies memory, ProviderFrame()
      ensures Valid()
      ensures RunResult(r, modelCalls, memory.State(), Sandboxes(), calls)
        == RunSpec(config, conversation.maxHistory, old(Registered()), old(memory.State()), old(Sandboxes()),
                   message, sessionId, llm, v, jitter, dumps, now)
    {
      var loaded := conversation.GetMessages(sessionId, now);
      if loaded.Raised? {
        return Raised(loaded.exc), [], [];
      }
      r, modelCalls, calls := Respond(loaded.value, message, sessionId, llm, v, jitter, dumps, now);
    }

    /** `run` after the history `h` has loaded. */
    method Respond(h: History, message: string, sessionId: string, llm: Model, v: Vendor, jitter: nat -> int,
                   dumps: ToolResult -> string, now: int)
      returns (r: Outcome<AgentResponse>, modelCalls: seq<ModelCall>, calls: seq<Call>)
      requires Valid() && JitterInRange(jitter)
      modifies memory, ProviderFrame()
      ensures Valid()
      ensures RunResult(r, modelCalls, memory.State(), Sandboxes(), calls)
        == Answer(config, conversation.maxHistory, old(Registered()), old(memory.State()), old(Sandboxes()),
                  h, message, sessionId, llm, v, jitter, dumps, now)
    {
      ghost var env := Env(config, Registered(), Offered(config, Registered()), sessionId, llm, v, jitter, dumps);
      ghost var end := Loop(env, Start(h, config, message, Sandboxes()));
      var messages, offered := Prompt(h, message);
      var iteration, response, failure;
      iteration, messages, response, modelCalls, calls, failure := Converse(messages, offered, sessionId, llm, v, jitter, dumps);
      assert LoopState(iteration, messages, response, Sandboxes(), modelCalls, calls, failure) == end;
      assert memory.State() == old(memory.State());
      if failure.Some? {
        return Raised(failure.value), modelCalls, calls;
      }
      r := Save(message, sessionId, iteration, response, now);
    }

    /** The messages and schemas of the first model call. */
    method Prompt(h: History, message: string) returns (messages: History, offered: Option<seq<ToolSchema>>)
      requires Valid()
      ensures messages == Opening(h, config.systemPrompt, message)
      ensures offered == Offered(config, Registered())
    {
      messages := h;
      if Truthy(config.systemPrompt) && messages == [] {
        messages := [SystemMessage(config.systemPrompt.value)] + messages;
      }
      messages := messages + [UserMessage(message)];
      offered := None;
      if config.toolsEnabled && tools.Some? {
        var schemas := tools.value.GetToolSchemas();
        offered := Some(schemas);
      }
    }

    /** The end of `run`: persist the user message, then the last answer. */
    method Save(message: string, sessionId: string, iterations: nat, last: Option<Completion>, now: int)
      returns (r: Outcome<AgentResponse>)
      requires Valid()
      modifies memory
      ensures Valid()
      ensures (r, memory.State()) == Persist(old(memory.State()), conversation.maxHistory, message, sessionId, iterations, last, now)
    {
      var added := conversation.AddMessage(sessionId, "user", message, None, now);
      if added.Raised? {
        return Raised(added.exc);
      }
      if last.None? {
        return Raised(UnboundResponse);
      }
      added := conversation.AddMessage(sessionId, "assistant", last.value.content, None, now);
      if added.Raised? {
        return Raised(added.exc);
      }
      r := Ok(AgentResponse(last.value.content, last.value.toolCalls, iterations, last.value.usage));
    }

    /** The `while` loop of `run`, from the opening messages. */
    method Converse(opening: History, offered: Option<seq<ToolSchema>>, sessionId: string, llm: Model, v: Vendor,
                    jitter: nat -> int, dumps: ToolResult -> string)
      returns (iteration: nat, messages: History, response: Option<Completion>, modelCalls: seq<ModelCall>,
               calls: seq<Call>, failure: Option<Exception>)
      requires Valid() && JitterInRange(jitter)
      modifies ProviderFrame()
      ensures Valid()
      ensures LoopState(iteration, messages, response, Sandboxes(), modelCalls, calls, failure)
        == Loop(Env(config, Registered(), offered, sessionId, llm, v, jitter, dumps),
                LoopState(0, opening, None, old(Sandboxes()), [], [], None))
    {
      ghost var env := Env(config, Registered(), offered, sessionId, llm, v, jitter, dumps);
      ghost var whole := Loop(env, LoopState(0, opening, None, Sandboxes(), [], [], None));
      iteration, messages, response, modelCalls, calls, failure := 0, opening, None, [], [], None;
      while iteration < config.maxIterations
        invariant Valid()
        invariant Loop(env, LoopState(iteration, messages, response, Sandboxes(), modelCalls, calls, None)) == whole
        decreases config.maxIterations - iteration
      {
        ghost var before := LoopState(iteration, messages, response, Sandboxes(), modelCalls, calls, None);
        iteration := iteration + 1;
        modelCalls := modelCalls + [ModelCall(messages, offered)];
        var reply := llm(messages, offered);
        if reply.Raised? {
          LoopRaised(env, before);
          failure := Some(reply.exc);
          return;
        }
        var c := reply.value;
        response := Some(c);
        messages := messages + [AssistantMessage(c)];
        if c.toolCalls == [] {
          LoopAnswered(env, before);
          return;
        }
        if tools.None? {
          LoopWithoutExecutor(env, before);
          failure := Some(Exception(AttributeError, "'NoneType' object has no attribute 'execute'"));
          return;
        }
        LoopContinues(env, before);
        var answers, more := ExecuteToolCalls(tools.value, sessionId, c.toolCalls, v, jitter, dumps);
        messages := messages + answers;
        calls := calls + more;
      }
      LoopDone(env, LoopState(iteration, messages, response, Sandboxes(), modelCalls, calls, None));
    }

    /** `reset_session`. */
    method ResetSession(sessionId: string)
      requires Valid()
      modifies memory
      ensures Valid()
      ensures memory.State() == Cleared(old(memory.State()), sessionId)
    {
      conversation.ClearSession(sessionId);
    }
  }
  /** The inner loop of `run`: every tool call of one response, in order,
      through the executor. */
  method ExecuteToolCalls(executor: ToolExecutor, sessionId: string, tcs: seq<ToolCall>, v: Vendor,
                          jitter: nat -> int, dumps: ToolResult -> string)
    returns (answers: seq<Message>, calls: seq<Call>)
    requires executor.provider.Valid() && executor.registry.Valid() && JitterInRange(jitter)
    modifies executor.provider
    ensures executor.provider.Valid()
    ensures Round(answers, executor.provider.sandboxes, calls)
      == ToolRound(executor.registry.tools, old(executor.provider.sandboxes), sessionId, tcs, v, jitter, dumps)
  {
    ghost var sbs0 := executor.provider.sandboxes;
    answers, calls := [], [];
    for j := 0 to |tcs|
      invariant executor.provider.Valid()
      invariant Round(answers, executor.provider.sandboxes, calls)
        == ToolRound(executor.registry.tools, sbs0, sessionId, tcs[..j], v, jitter, dumps)
    {
      assert tcs[..j + 1][..j] == tcs[..j];
      var result, more := executor.Execute(sessionId, tcs[j].name, tcs[j].arguments, v, jitter);
      answers := answers + [Message("tool", dumps(result), Reply(tcs[j].id))];
      calls := calls + more;
    }
    assert tcs[..|tcs|] == tcs;
  }

  /** The loop state after a turn whose tool calls all ran. */
  function Next(env: Env, st: LoopState): (next: LoopState)
    requires JitterInRange(env.jitter) && OM.Valid(st.sandboxes)
    requires env.llm(st.messages, env.offered).Ok? && env.tools.Some?
    ensures OM.Valid(next.sandboxes) && next.iteration == st.iteration + 1
    ensures next.modelCalls == st.modelCalls + [ModelCall(st.messages, env.offered)]
    ensures next.failure == st.failure && next.response == Some(env.llm(st.messages, env.offered).value)
  {
    var c := env.llm(st.messages, env.offered).value;
    var round := ToolRound(env.tools.value, st.sandboxes, env.sessionId, c.toolCalls, env.v, env.jitter, env.dumps);
    LoopState(st.iteration + 1, st.messages + [AssistantMessage(c)] + round.messages, Some(c),
              round.sandboxes, st.modelCalls + [ModelCall(st.messages, env.offered)], st.calls + round.calls, st.failure)
  }

  /** The ways one turn of the loop can go. */
  lemma LoopDone(env: Env, st: LoopState)
    requires JitterInRange(env.jitter) && OM.Valid(st.sandboxes) && st.iteration >= env.config.maxIterations
    ensures Loop(env, st) == st
  {
  }

  lemma LoopRaised(env: Env, st: LoopState)
    requires JitterInRange(env.jitter) && OM.Valid(st.sandboxes) && st.iteration < env.config.maxIterations
    requires env.llm(st.messages, env.offered).Raised?
    ensures Loop(env, st) == st.(iteration := st.iteration + 1, modelCalls := st.modelCalls + [ModelCall(st.messages, env.offered)],
                                 failure := Some(env.llm(st.messages, env.offered).exc))
  {
  }

  lemma LoopAnswered(env: Env, st: LoopState)
    requires JitterInRange(env.jitter) && OM.Valid(st.sandboxes) && st.iteration < env.config.maxIterations
    requires env.llm(st.messages, env.offered).Ok? && env.llm(st.messages, env.offered).value.toolCalls == []
    ensures var c := env.llm(st.messages, env.offered).value;
      Loop(env, st) == st.(iteration := st.iteration + 1, modelCalls := st.modelCalls + [ModelCall(st.messages, env.offered)],
                           response := Some(c), messages := st.messages + [AssistantMessage(c)])
  {
  }

  lemma LoopWithoutExecutor(env: Env, st: LoopState)
    requires JitterInRange(env.jitter) && OM.Valid(st.sandboxes) && st.iteration < env.config.maxIterations
    requires env.llm(st.messages, env.offered).Ok? && env.llm(st.messages, env.offered).value.toolCalls != []
    requires env.tools.None?
    ensures var c := env.llm(st.messages, env.offered).value;
      Loop(env, st) == st.(iteration := st.iteration + 1, modelCalls := st.modelCalls + [ModelCall(st.messages, env.offered)],
                           response := Some(c), messages := st.messages + [AssistantMessage(c)],
                           failure := Some(Exception(AttributeError, "'NoneType' object has no attribute 'execute'")))
  {
  }

  lemma LoopContinues(env: Env, st: LoopState)
    requires JitterInRange(env.jitter) && OM.Valid(st.sandboxes) && st.iteration < env.config.maxIterations
    requires env.llm(st.messages, env.offered).Ok? && env.llm(st.messages, env.offered).value.toolCalls != []
    requires env.tools.Some?
    ensures Loop(env, st) == Loop(env, Next(env, st))
  {
  }

  /** Each turn of the loop makes exactly one model call, and the loop
      never runs past `max_iterations`. */
  lemma {:induction false} LoopCounts(env: Env, st: LoopState)
    requires JitterInRange(env.jitter) && OM.Valid(st.sandboxes)
    ensures var r := Loop(env, st);
      && r.iteration - st.iteration == |r.modelCalls| - |st.modelCalls|
      && st.iteration <= r.iteration
      && r.iteration <= (if st.iteration < env.config.maxIterations then env.config.maxIterations else st.iteration)
    decreases env.config.maxIterations - st.iteration
  {
    if st.iteration < env.config.maxIterations {
      var reply := env.llm(st.messages, env.offered);
      if reply.Ok? && reply.value.toolCalls != [] && env.tools.Some? {
        LoopContinues(env, st);
        LoopCounts(env, Next(env, st));
      }
    }
  }

  /** The calls made before are kept, and every new call is offered the
      same schemas. */
  lemma {:induction false} LoopCallsKept(env: Env, st: LoopState)
    requires JitterInRange(env.jitter) && OM.Valid(st.sandboxes)
    ensures var r := Loop(env, st);
      && |st.modelCalls| <= |r.modelCalls|
      && r.modelCalls[..|st.modelCalls|] == st.modelCalls
      && (forall j :: |st.modelCalls| <= j < |r.modelCalls| ==> r.modelCalls[j].tools == env.offered)
    decreases env.config.maxIterations - st.iteration
  {
    if st.iteration >= env.config.maxIterations {
      LoopDone(env, st);
    } else {
      var reply := env.llm(st.messages, env.offered);
      if reply.Raised? {
        LoopRaised(env, st);
      } else if reply.value.toolCalls == [] {
        LoopAnswered(env, st);
      } else if env.tools.None? {
        LoopWithoutExecutor(env, st);
      } else {
        var next := Next(env, st);
        LoopContinues(env, st);
        LoopCallsKept(env, next);
        var r := Loop(env, next);
        assert r.modelCalls[..|st.modelCalls|] == r.modelCalls[..|next.modelCalls|][..|st.modelCalls|];
        assert r.modelCalls[|st.modelCalls|] == next.modelCalls[|st.modelCalls|];
      }
    }
  }

  /** Within the budget the loop calls the model at least once, first with
      the messages it started from. */
  lemma LoopFirstCall(env: Env, st: LoopState)
    requires JitterInRange(env.jitter) && OM.Valid(st.sandboxes)
    requires st.iteration < env.config.maxIterations
    ensures var r := Loop(env, st);
      |r.modelCalls| > |st.modelCalls| && r.modelCalls[|st.modelCalls|] == ModelCall(st.messages, env.offered)
  {
    var reply := env.llm(st.messages, env.offered);
    if reply.Ok? && reply.value.toolCalls != [] && env.tools.Some? {
      var next := Next(env, st);
      LoopContinues(env, st);
      LoopCallsKept(env, next);
      var r := Loop(env, next);
      assert r.modelCalls[|st.modelCalls|] == r.modelCalls[..|next.modelCalls|][|st.modelCalls|];
    }
  }

  /** How the loop ends: unless it raised, stopping before the budget means
      the model answered without tool calls; and when it called the model,
      the last reply is the response, or the exception that ended it. */
  lemma {:induction false} LoopOutcome(env: Env, st: LoopState)
    requires JitterInRange(env.jitter) && OM.Valid(st.sandboxes) && st.failure.None?
    ensures var r := Loop(env, st);
      && (r.failure.None? && r.iteration < env.config.maxIterations ==> r.response.Some? && r.response.value.toolCalls == [])
      && (|r.modelCalls| > |st.modelCalls| ==>
            var last := r.modelCalls[|r.modelCalls| - 1];
            var reply := env.llm(last.messages, last.tools);
            && (reply.Raised? ==> r.failure == Some(reply.exc))
            && (reply.Ok? ==> r.response == Some(reply.value)))
    decreases env.config.maxIterations - st.iteration
  {
    if st.iteration < env.config.maxIterations {
      var reply := env.llm(st.messages, env.offered);
      if reply.Ok? && reply.value.toolCalls != [] && env.tools.Some? {
        var next := Next(env, st);
        LoopContinues(env, st);
        if next.iteration < env.config.maxIterations {
          LoopOutcome(env, next);
          LoopFirstCall(env, next);
        } else {
          LoopDone(env, next);
        }
      }
    }
  }

  /** A loop that ends with a response and no exception called the model,
      and the response is the last call's reply. */
  lemma LoopLastReply(env: Env, st: LoopState)
    requires JitterInRange(env.jitter) && OM.Valid(st.sandboxes) && st.failure.None? && st.response.None?
    ensures var r := Loop(env, st);
      r.failure.None? && r.response.Some? ==>
        && |r.modelCalls| > |st.modelCalls|
        && var last := r.modelCalls[|r.modelCalls| - 1];
           var reply := env.llm(last.messages, last.tools);
           reply.Ok? && r.response == Some(reply.value)
  {
    if st.iteration < env.config.maxIterations {
      LoopFirstCall(env, st);
      LoopOutcome(env, st);
    } else {
      LoopDone(env, st);
    }
  }

  /** Every tool call is answered, in order, by one "tool" message that
      carries the call's id and the serialised result of running it on the
      sandboxes the calls before it left. */
  lemma {:induction false} ToolRoundAnswers(tools: ToolTable, sbs: Sandboxes, sessionId: string, tcs: seq<ToolCall>,
                                            v: Vendor, jitter: nat -> int, dumps: ToolResult -> string, j: nat)
    requires OM.Valid(sbs) && JitterInRange(jitter) && j < |tcs|
    ensures var before := ToolRound(tools, sbs, sessionId, tcs[..j], v, jitter, dumps).sandboxes;
      var s := ExecuteToolStep(tools, before, sessionId, tcs[j].name, tcs[j].arguments, v, jitter);
      ToolRound(tools, sbs, sessionId, tcs, v, jitter, dumps).messages[j] == Message("tool", dumps(s.result), Reply(tcs[j].id))
    decreases |tcs|
  {
    var n := |tcs| - 1;
    if j < n {
      ToolRoundAnswers(tools, sbs, sessionId, tcs[..n], v, jitter, dumps, j);
      assert tcs[..n][..j] == tcs[..j];
    } else {
      assert tcs[..n] == tcs[..j];
    }
  }

  /** A successful `run` answers with the loop's last completion and its
      iteration count. */
  lemma AnswerOk(config: AgentConfig, maxHistory: int, tools: Option<ToolTable>, s1: Store<History>, sbs: Sandboxes, h: History,
                 message: string, sessionId: string, llm: Model, v: Vendor, jitter: nat -> int,
                 dumps: ToolResult -> string, now: int)
    requires StoreValid(s1) && OM.Valid(sbs) && JitterInRange(jitter)
    requires tools.Some? ==> OM.Valid(tools.value)
    ensures var r := Answer(config, maxHistory, tools, s1, sbs, h, message, sessionId, llm, v, jitter, dumps, now);
      var end := Loop(Env(config, tools, Offered(config, tools), sessionId, llm, v, jitter, dumps), Start(h, config, message, sbs));
      r.modelCalls == end.modelCalls &&
      (r.response.Ok? ==>
        && end.failure.None? && end.response.Some?
        && r.response.value == AgentResponse(end.response.value.content, end.response.value.toolCalls, end.iteration,
                                             end.response.value.usage))
  {
  }

  /** Unless the loop raised, the store after `run` is the one the two
      `add_message` calls leave. */
  lemma AnswerStore(config: AgentConfig, maxHistory: int, tools: Option<ToolTable>, s1: Store<History>, sbs: Sandboxes, h: History,
                    message: string, sessionId: string, llm: Model, v: Vendor, jitter: nat -> int,
                    dumps: ToolResult -> string, now: int)
    requires StoreValid(s1) && OM.Valid(sbs) && JitterInRange(jitter)
    requires tools.Some? ==> OM.Valid(tools.value)
    ensures var r := Answer(config, maxHistory, tools, s1, sbs, h, message, sessionId, llm, v, jitter, dumps, now);
      var end := Loop(Env(config, tools, Offered(config, tools), sessionId, llm, v, jitter, dumps), Start(h, config, message, sbs));
      && (end.failure.Some? ==> r.store == s1 && r.response == Raised(end.failure.value))
      && (end.failure.None? ==> (r.response, r.store) == Persist(s1, maxHistory, message, sessionId, end.iteration, end.response, now))
  {
  }

  /** A successful run reports as its iteration count the number of model
      calls, at least one and at most `max_iterations`. */
  lemma RunCountsIterations(config: AgentConfig, maxHistory: int, tools: Option<ToolTable>, s1: Store<History>, sbs: Sandboxes, h: History,
                            message: string, sessionId: string, llm: Model, v: Vendor, jitter: nat -> int,
                            dumps: ToolResult -> string, now: int)
    requires StoreValid(s1) && OM.Valid(sbs) && JitterInRange(jitter)
    requires tools.Some? ==> OM.Valid(tools.value)
    ensures var r := Answer(config, maxHistory, tools, s1, sbs, h, message, sessionId, llm, v, jitter, dumps, now);
      r.response.Ok? ==> r.response.value.iterations == |r.modelCalls| && 1 <= |r.modelCalls| <= config.maxIterations
  {
    var env := Env(config, tools, Offered(config, tools), sessionId, llm, v, jitter, dumps);
    var st := Start(h, config, message, sbs);
    AnswerOk(config, maxHistory, tools, s1, sbs, h, message, sessionId, llm, v, jitter, dumps, now);
    if config.maxIterations <= 0 {
      LoopDone(env, st);
    } else {
      LoopCounts(env, st);
      LoopFirstCall(env, st);
    }
  }

  /** When the budget allows a call, the first model call is shown the
      opening messages, and every call is offered the same schemas. */
  lemma RunFirstCall(config: AgentConfig, maxHistory: int, tools: Option<ToolTable>, s1: Store<History>, sbs: Sandboxes, h: History,
                     message: string, sessionId: string, llm: Model, v: Vendor, jitter: nat -> int,
                     dumps: ToolResult -> string, now: int)
    requires StoreValid(s1) && OM.Valid(sbs) && JitterInRange(jitter)
    requires tools.Some? ==> OM.Valid(tools.value)
    requires config.maxIterations >= 1
    ensures var r := Answer(config, maxHistory, tools, s1, sbs, h, message, sessionId, llm, v, jitter, dumps, now);
      && |r.modelCalls| >= 1
      && r.modelCalls[0].messages == Opening(h, config.systemPrompt, message)
      && forall j :: 0 <= j < |r.modelCalls| ==> r.modelCalls[j].tools == Offered(config, tools)
  {
    var env := Env(config, tools, Offered(config, tools), sessionId, llm, v, jitter, dumps);
    LoopCallsKept(env, Start(h, config, message, sbs));
    LoopFirstCall(env, Start(h, config, message, sbs));
  }

  /** A successful run answers with the model's last reply, which asked for
      no tool unless the budget ran out. */
  lemma RunAnswersLastReply(config: AgentConfig, maxHistory: int, tools: Option<ToolTable>, s1: Store<History>, sbs: Sandboxes, h: History,
                            message: string, sessionId: string, llm: Model, v: Vendor, jitter: nat -> int,
                            dumps: ToolResult -> string, now: int)
    requires StoreValid(s1) && OM.Valid(sbs) && JitterInRange(jitter)
    requires tools.Some? ==> OM.Valid(tools.value)
    ensures var r := Answer(config, maxHistory, tools, s1, sbs, h, message, sessionId, llm, v, jitter, dumps, now);
      r.response.Ok? ==>
        && |r.modelCalls| >= 1
        && var last := r.modelCalls[|r.modelCalls| - 1];
           var reply := llm(last.messages, last.tools);
           && reply.Ok?
           && r.response.value.content == reply.value.content && r.response.value.toolCalls == reply.value.toolCalls
           && r.response.value.usage == reply.value.usage
  {
    var env := Env(config, tools, Offered(config, tools), sessionId, llm, v, jitter, dumps);
    var r := Answer(config, maxHistory, tools, s1, sbs, h, message, sessionId, llm, v, jitter, dumps, now);
    var end := Loop(env, Start(h, config, message, sbs));
    AnswerOk(config, maxHistory, tools, s1, sbs, h, message, sessionId, llm, v, jitter, dumps, now);
    LoopLastReply(env, Start(h, config, message, sbs));
    if r.response.Ok? {
      assert end.failure.None? && end.response.Some?;
      var last := end.modelCalls[|end.modelCalls| - 1];
      assert end.response == Some(llm(last.messages, last.tools).value);
      assert r.modelCalls == end.modelCalls;
    }
  }

  /** A successful run that stopped before its budget was spent answers
      with a completion that requests no tools. */
  lemma RunStopsOnPlainAnswer(config: AgentConfig, maxHistory: int, tools: Option<ToolTable>, s1: Store<History>, sbs: Sandboxes, h: History,
                              message: string, sessionId: string, llm: Model, v: Vendor, jitter: nat -> int,
                              dumps: ToolResult -> string, now: int)
    requires StoreValid(s1) && OM.Valid(sbs) && JitterInRange(jitter)
    requires tools.Some? ==> OM.Valid(tools.value)
    ensures var r := Answer(config, maxHistory, tools, s1, sbs, h, message, sessionId, llm, v, jitter, dumps, now);
      r.response.Ok? && |r.modelCalls| < config.maxIterations ==> r.response.value.toolCalls == []
  {
    var env := Env(config, tools, Offered(config, tools), sessionId, llm, v, jitter, dumps);
    var st := Start(h, config, message, sbs);
    AnswerOk(config, maxHistory, tools, s1, sbs, h, message, sessionId, llm, v, jitter, dumps, now);
    LoopCounts(env, st);
    LoopOutcome(env, st);
    var end := Loop(env, st);
    assert end.iteration == |end.modelCalls|;
  }

  /** A successful run leaves the stored history extended by the user's
      message and then the answer, each append followed by the trim. */
  lemma RunSavesExchange(config: AgentConfig, maxHistory: int, tools: Option<ToolTable>, s1: Store<History>, sbs: Sandboxes, h: History,
                         message: string, sessionId: string, llm: Model, v: Vendor, jitter: nat -> int,
                         dumps: ToolResult -> string, now: int)
    requires StoreValid(s1) && OM.Valid(sbs) && JitterInRange(jitter)
    requires tools.Some? ==> OM.Valid(tools.value)
    requires Load(s1, sessionId, now).0.Some?
    ensures var r := Answer(config, maxHistory, tools, s1, sbs, h, message, sessionId, llm, v, jitter, dumps, now);
      var h1 := Load(s1, sessionId, now).0.value;
      r.response.Ok? ==>
        && HistoryKey(sessionId) in r.store.cache.items
        && r.store.cache.items[HistoryKey(sessionId)]
           == Some(Trimmed(Trimmed(h1 + [NewMessage("user", message, None, now)], maxHistory)
                           + [NewMessage("assistant", r.response.value.content, None, now)], maxHistory))
        && (HistoryKey(sessionId) !in s1.ttl ==> HistoryKey(sessionId) !in r.store.ttl)
  {
    var env := Env(config, tools, Offered(config, tools), sessionId, llm, v, jitter, dumps);
    var end := Loop(env, Start(h, config, message, sbs));
    AnswerOk(config, maxHistory, tools, s1, sbs, h, message, sessionId, llm, v, jitter, dumps, now);
    AnswerStore(config, maxHistory, tools, s1, sbs, h, message, sessionId, llm, v, jitter, dumps, now);
  }

  /** With a budget of no iterations the model is never called: the user's
      message is stored, and reading the unbound `response` raises. */
  lemma RunWithoutBudget(config: AgentConfig, maxHistory: int, tools: Option<ToolTable>, s1: Store<History>, sbs: Sandboxes, h: History,
                         message: string, sessionId: string, llm: Model, v: Vendor, jitter: nat -> int,
                         dumps: ToolResult -> string, now: int)
    requires StoreValid(s1) && OM.Valid(sbs) && JitterInRange(jitter)
    requires tools.Some? ==> OM.Valid(tools.value)
    requires Load(s1, sessionId, now).0.Some? && config.maxIterations <= 0
    ensures var r := Answer(config, maxHistory, tools, s1, sbs, h, message, sessionId, llm, v, jitter, dumps, now);
      && r.response == Raised(UnboundResponse) && r.modelCalls == [] && r.sandboxes == sbs && r.calls == []
      && HistoryKey(sessionId) in r.store.cache.items
      && r.store.cache.items[HistoryKey(sessionId)]
         == Some(Trimmed(Load(s1, sessionId, now).0.value + [NewMessage("user", message, None, now)], maxHistory))
  {
    var env := Env(config, tools, Offered(config, tools), sessionId, llm, v, jitter, dumps);
    var st := Start(h, config, message, sbs);
    LoopDone(env, st);
  }

  /** When the model raises, the exception propagates and nothing is
      stored: the store is as the history read left it. */
  lemma RunModelRaises(config: AgentConfig, maxHistory: int, tools: Option<ToolTable>, s1: Store<History>, sbs: Sandboxes, h: History,
                       message: string, sessionId: string, llm: Model, v: Vendor, jitter: nat -> int,
                       dumps: ToolResult -> string, now: int)
    requires StoreValid(s1) && OM.Valid(sbs) && JitterInRange(jitter)
    requires tools.Some? ==> OM.Valid(tools.value)
    requires config.maxIterations >= 1
    requires llm(Opening(h, config.systemPrompt, message), Offered(config, tools)).Raised?
    ensures var r := Answer(config, maxHistory, tools, s1, sbs, h, message, sessionId, llm, v, jitter, dumps, now);
      r == RunResult(Raised(llm(Opening(h, config.systemPrompt, message), Offered(config, tools)).exc),
                     [ModelCall(Opening(h, config.systemPrompt, message), Offered(config, tools))], s1, sbs, [])
  {
    var env := Env(config, tools, Offered(config, tools), sessionId, llm, v, jitter, dumps);
    LoopRaised(env, Start(h, config, message, sbs));
  }

  /** The system prompt opens only a session's first exchange: after a
      successful run (with `max_history` at least 1 and no deadline on the
      history), the session's next run finds a non-empty history and so
      opens with the user's message alone. */
  lemma SystemPromptOnlyOnce(config: AgentConfig, maxHistory: int, tools: Option<ToolTable>, s1: Store<History>, sbs: Sandboxes, h: History,
                             message: string, sessionId: string, llm: Model, v: Vendor, jitter: nat -> int,
                             dumps: ToolResult -> string, now: int, later: int, message2: string)
    requires StoreValid(s1) && OM.Valid(sbs) && JitterInRange(jitter)
    requires tools.Some? ==> OM.Valid(tools.value)
    requires maxHistory >= 1 && HistoryKey(sessionId) !in s1.ttl && Load(s1, sessionId, now).0.Some?
    requires Answer(config, maxHistory, tools, s1, sbs, h, message, sessionId, llm, v, jitter, dumps, now).response.Ok?
    ensures var r := Answer(config, maxHistory, tools, s1, sbs, h, message, sessionId, llm, v, jitter, dumps, now);
      var next := MessagesOf(r.store, sessionId, maxHistory, later).0;
      && next.Ok? && next.value != []
      && Opening(next.value, config.systemPrompt, message2) == next.value + [UserMessage(message2)]
  {
    var r := Answer(config, maxHistory, tools, s1, sbs, h, message, sessionId, llm, v, jitter, dumps, now);
    RunSavesExchange(config, maxHistory, tools, s1, sbs, h, message, sessionId, llm, v, jitter, dumps, now);
    SessionResumes(r.store, sessionId, maxHistory, later, config.systemPrompt, message2);
  }

  /** A session whose stored history is non-empty and has no deadline reads
      back non-empty, so its next run opens without the system prompt. */
  lemma SessionResumes(s: Store<History>, sessionId: string, maxHistory: int, later: int, systemPrompt: Option<string>, message: string)
    requires StoreValid(s) && maxHistory >= 1 && HistoryKey(sessionId) !in s.ttl
    requires HistoryKey(sessionId) in s.cache.items
    requires var v := s.cache.items[HistoryKey(sessionId)]; v.Some? && v.value != []
    ensures var next := MessagesOf(s, sessionId, maxHistory, later).0;
      && next.Ok? && next.value != []
      && Opening(next.value, systemPrompt, message) == next.value + [UserMessage(message)]
  {
    var stored := s.cache.items[HistoryKey(sessionId)].value;
    StoredHistoryReadsBack(s, sessionId, maxHistory, later, stored);
    var next := Recent(stored, maxHistory);
    assert Opening(next, systemPrompt, message) == next + [UserMessage(message)] by {
      assert [] + next == next;
    }
  }

}
