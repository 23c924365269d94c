# Agent runtime bookkeeping, in Dafny

This project models the bookkeeping core of an AI-agent orchestration
runtime written in Python. The core covers:

- the key/value memory with per-key deadlines and its keyword search;
- the bounded conversation history and the bounded stream buffer;
- the retry decorator;
- the tool registry, the tool executor and the four built-in tools;
- the agent's model/tool loop;
- the four sandbox managers (E2B provider, E2B manager, unified manager,
  lifecycle);
- the Gemini message and tool converters;
- the `.env` loader of the custom-template script;
- the classification and counting done by the dependency-map script.

Vendor services (the E2B SDK, Docker, the language model) become oracle
values. Their calls are recorded as `Call`/`Request` values, so the order
and number of calls can be stated. Clocks become a `now` parameter. Random
jitter becomes an oracle `jitter(k)` in [0, 1000] milliseconds.

Python's own semantics are written out where the source relies on them:
- `xs[-n:]` with n = 0 returns the whole list (`PyText.SliceFrom`);
- truthiness of `None`, `""` and `[]`;
- dict insertion order (`OrderedMaps`);
- `str.strip`, `str.split`, `str.capitalize`, `str.lower` and
  `str.replace`.

Stateful classes are Dafny classes. Each method's `ensures` equates its
outcome and its new state with a pure function of the old state (`Lookup`,
`AfterAdd`, `CreateStep`, `Loop`, ...). The properties the source promises
are lemmas about those functions.

Files and modules:
- `wrappers.dfy`: `Option`, `Outcome` and Python exceptions.
- `pytext.dfy`: Python string and slice semantics.
- `ordered_map.dfy`: insertion-ordered dictionaries.
- `memory.dfy`: the memory store.
- `messages.dfy`: chat messages.
- `conversation.dfy`: the conversation manager.
- `streaming.dfy`: the stream buffer.
- `retry.dfy`: the retry decorator.
- `cloud.dfy`: the vendor oracle.
- `e2b_provider.dfy` (module `E2B`): the E2B provider.
- `tools.dfy`: the built-in tools.
- `registry.dfy`: the tool registry.
- `executor.dfy`: the tool executor.
- `agent.dfy`: the agent loop.
- `e2b_manager.dfy`: the E2B manager.
- `backends.dfy`: the Docker, session and state managers.
- `unified_manager.dfy` (module `Unified`): the unified manager.
- `lifecycle.dfy` (module `Orchestration`): the lifecycle.
- `gemini.dfy`: the Gemini converters.
- `env_file.dfy`: the `.env` loader.
- `import_map.dfy`: the dependency map.

## Model

| member | source | states |
|---|---|---|
| Memory.Deleted | orchestrator/core/memory.py:63-66 | deleting drops the key from both the cache and the deadlines and from nothing else |
| Memory.Lookup | orchestrator/core/memory.py:25-40 | a key whose deadline is strictly before now yields the default and is removed from both dictionaries; otherwise the stored value (a stored None included) or the default, with the store unchanged |
| Memory.Assigned | orchestrator/core/memory.py:42-58 | set stores the value; the cache afterwards is the old one updated at the key |
| Memory.KeysContaining | orchestrator/core/memory.py:87-92 | exactly the keys containing the pattern as a substring, no more of them than there are keys |
| Memory.KeysContainingAppend | orchestrator/core/memory.py:87-92 | the filter keeps the cache's key order: a key added at the end is added at the end of the result exactly when it contains the pattern |
| Memory.SafeKey | orchestrator/core/memory.py:103-105 | the file-name form has the key's length, maps ':', '/' and ' ' to '_' and contains none of them |
| Memory.RestoredKey | orchestrator/core/memory.py:117 | the restored key turns every '_' of the stem into ':' and contains no '_' |
| Memory.RestoredSafeKey | orchestrator/core/memory.py:103-117 | restoring the file-name form gives back the key if and only if the key has no '_', '/' or ' ' |
| Memory.LoadedCache | orchestrator/core/memory.py:107-120 | loading snapshot files keeps the cache well formed and never drops a key that was already cached |
| Memory.LoadedCacheKeys | orchestrator/core/memory.py:112-120 | a key is in the loaded cache exactly when it was cached before or some readable file's stem, with "_" turned into ":", gives it |
| Memory.LoadedCacheUntouched | orchestrator/core/memory.py:112-120 | a key no readable file gives keeps its presence and its value: unreadable files add nothing |
| Memory.LoadedCacheLastWins | orchestrator/core/memory.py:112-120 | a key holds the contents of the last readable file that gives it |
| Memory.MemoryStore.constructor | orchestrator/core/memory.py:11-23 | a store opened on a snapshot holds exactly LoadedCache of the empty cache and those files, and no deadlines |
| Memory.MemoryStore.LoadFromDisk | orchestrator/core/memory.py:107-120 | the loop over the snapshot files leaves exactly LoadedCache and restores no deadline |
| Memory.MemoryStore.Get | orchestrator/core/memory.py:25-40 | get returns what Lookup returns and leaves the store Lookup leaves (lazy expiry) |
| Memory.MemoryStore.Set | orchestrator/core/memory.py:42-61 | set leaves the store Assigned gives; without a TTL or with a zero TTL every deadline, the key's old one included, is unchanged |
| Memory.MemoryStore.Delete | orchestrator/core/memory.py:63-71 | delete removes the key and its deadline, changes no other key, and is a no-op on an absent key |
| Memory.MemoryStore.Exists | orchestrator/core/memory.py:73-76 | exists is true if and only if the key is unexpired, cached and not None |
| Memory.MemoryStore.Keys | orchestrator/core/memory.py:78-92 | with no or an empty pattern every cached key, in insertion order; otherwise exactly the cached keys containing the pattern; no expiry check |
| Memory.MemoryStore.Clear | orchestrator/core/memory.py:94-101 | both dictionaries are emptied |
| Memory.GetAfterSet | orchestrator/core/memory.py:36-58 | after set, get returns the value written unless the key's deadline (the new one, or the kept old one) has passed |
| Memory.Matching | orchestrator/core/memory.py:158-161 | the keyword filter returns no more documents than it is given |
| Memory.MatchingMembers | orchestrator/core/memory.py:158-161 | the search keeps exactly the documents containing some query word, ignoring case |
| Memory.MatchingAppend | orchestrator/core/memory.py:159-161 | matches keep insertion order: earlier documents' matches come first |
| Memory.SearchCap | orchestrator/core/memory.py:162-163 | the search stops at `limit` results for limit >= 1, and after one result otherwise (the check follows the append) |
| Memory.VectorMemory.constructor | orchestrator/core/memory.py:140-142 | a new vector memory has no documents |
| Memory.VectorMemory.Add | orchestrator/core/memory.py:144-150 | add appends exactly one document with its text, its metadata (or {}) and the time |
| Memory.VectorMemory.Search | orchestrator/core/memory.py:152-165 | the loop with its early break returns the first SearchCap(limit) matching documents in insertion order |
| Memory.SearchResults | orchestrator/core/memory.py:152-165 | each result is a stored document containing some query word; there are at most `limit` results when limit >= 1, and none for a query without words |
| Memory.NoWordsNoMatches | orchestrator/core/memory.py:160 | a query without words matches no document |
| Conversation.HistoryKey | orchestrator/core/conversation.py:29 | the store key is "conversation:" followed by the session id |
| Conversation.Recent | orchestrator/core/conversation.py:32 | `history[-max_history:]` is the last max_history messages (all of them if fewer), the whole history for 0, and always a suffix |
| Conversation.Trimmed | orchestrator/core/conversation.py:60-61 | trimming changes nothing within the cap, and otherwise keeps the Recent suffix |
| Conversation.Load | orchestrator/core/conversation.py:29 | reading a history keeps the store well formed |
| Conversation.MessagesOf | orchestrator/core/conversation.py:20-32 | get_messages keeps the store well formed |
| Conversation.AfterAdd | orchestrator/core/conversation.py:34-63 | on a readable history add_message succeeds and stores Trimmed(old + [message]) unexpired, without adding a deadline; on a stored None it raises |
| Conversation.Cleared | orchestrator/core/conversation.py:86-88 | clear_session removes the session's key |
| Conversation.ContextLines | orchestrator/core/conversation.py:78-82 | one line per message, in order |
| Conversation.ContextOf | orchestrator/core/conversation.py:65-84 | get_context keeps the store well formed |
| Conversation.CountRole | orchestrator/core/conversation.py:104-105 | a role count is at most the number of messages |
| Conversation.SummaryOf | orchestrator/core/conversation.py:101-123 | the summary is {"message_count": 0} exactly for no messages; otherwise message_count is the number of messages and user + assistant counts do not exceed it |
| Conversation.RolesDisjoint | orchestrator/core/conversation.py:104-105 | two different roles together count at most every message once |
| Conversation.ConversationManager.constructor | orchestrator/core/conversation.py:10-18 | the manager keeps its store and its max_history |
| Conversation.ConversationManager.GetMessages | orchestrator/core/conversation.py:20-32 | get_messages returns and leaves exactly what MessagesOf gives |
| Conversation.ConversationManager.AddMessage | orchestrator/core/conversation.py:34-63 | add_message returns and leaves exactly what AfterAdd gives |
| Conversation.ConversationManager.GetContext | orchestrator/core/conversation.py:65-84 | get_context returns and leaves exactly what ContextOf gives |
| Conversation.ConversationManager.FormatLines | orchestrator/core/conversation.py:78-82 | the loop builds exactly ContextLines: one "Role: content[:200]" line per message, in order |
| Conversation.ConversationManager.ClearSession | orchestrator/core/conversation.py:86-88 | clear_session leaves the Cleared store |
| Conversation.ConversationManager.GetSummary | orchestrator/core/conversation.py:90-123 | get_summary is SummaryOf the get_messages result, or that call's exception |
| Conversation.TrimmedAppend | orchestrator/core/conversation.py:57-61 | after an append the stored history is the last min(len + 1, max_history) of old + [message] (all of them for 0), and the new message is last |
| Conversation.AddMessageAppends | orchestrator/core/conversation.py:49-63 | add_message succeeds and stores the trimmed history ending with one message of the given role and content |
| Conversation.GetMessagesRecent | orchestrator/core/conversation.py:29-32 | get_messages returns the last max_history stored messages in order, all of them for 0, and [] for an absent history |
| Conversation.ClearThenGet | orchestrator/core/conversation.py:86-88 | clear_session followed by get_messages gives [] |
| Conversation.SystemMessageEvicted | orchestrator/core/conversation.py:59-61 | eviction is by age only: a system message is dropped like any other |
| Conversation.AppendAllKeepsMostRecent | orchestrator/core/conversation.py:56-63 | starting within a cap n >= 1, repeated add_message keeps exactly the n most recent messages, in order |
| Conversation.RecentOfSuffix | orchestrator/core/conversation.py:61 | dropping a prefix that leaves n messages does not change the last n |
| Conversation.OtherSessionsUntouched | orchestrator/core/conversation.py:56-88 | add_message, get_messages and clear_session read and write only "conversation:<id>" |
| Conversation.ContextOfLastMessages | orchestrator/core/conversation.py:75-84 | get_context renders the last `window` messages (all of them if fewer), oldest first |
| Conversation.LoadTwice | orchestrator/core/conversation.py:29 | a second read at the same instant reads the same and changes nothing |
| Conversation.AddThenLoad | orchestrator/core/conversation.py:56-63 | what add_message stored is what the next read returns, at the same instant or at any time for a key without a deadline |
| Conversation.StoredHistoryReadsBack | orchestrator/core/conversation.py:29-32 | a non-empty history without a deadline reads back non-empty |
| Streaming.StreamBuffer.constructor | orchestrator/utils/streaming.py:23-30 | a new buffer is empty and keeps max_size |
| Streaming.StreamBuffer.Add | orchestrator/utils/streaming.py:32-37 | add appends the chunk, trims to Added, and keeps max_size |
| Streaming.StreamBuffer.GetAll | orchestrator/utils/streaming.py:39-41 | the text is as long as all chunks together |
| Streaming.StreamBuffer.Clear | orchestrator/utils/streaming.py:43-45 | clear empties the buffer and leaves max_size |
| Streaming.JoinLength | orchestrator/utils/streaming.py:41 | joining without a separator gives the total chunk length |
| Streaming.JoinAppend | orchestrator/utils/streaming.py:41 | the joined text of buffer + [chunk] is the old text followed by the chunk |
| Streaming.AddKeepsNewest | orchestrator/utils/streaming.py:32-37 | with max_size >= 1 the buffer is the last min(len + 1, max_size) of old + [chunk], the chunk last |
| Streaming.UnboundedKeepsAll | orchestrator/utils/streaming.py:36-41 | with max_size 0 nothing is evicted and get_all is the old text plus the chunk |
| Streaming.AddBelowCapacity | orchestrator/utils/streaming.py:32-41 | below capacity get_all grows by exactly the chunk |
| Retry.Pow2 | orchestrator/utils/retry.py:63 | 2 ** attempt is at least 1 |
| Retry.Delay | orchestrator/utils/retry.py:61-67 | with backoff the delay never exceeds max_delay and, unless capped at max_delay, is at least base_delay * 2^k; without backoff it is exactly base_delay |
| Retry.RunFrom | orchestrator/utils/retry.py:54-72 | from attempt k below max_attempts the function runs between 1 and max_attempts - k times, with one sleep fewer than calls |
| Retry.WithRetry | orchestrator/utils/retry.py:51-72 | the attempt loop's result, call count and sleeps are exactly Attempts |
| Retry.RunFromStops | orchestrator/utils/retry.py:56-57 | a success, or an exception the handler does not catch, ends the run with that outcome |
| Retry.RunFromEnd | orchestrator/utils/retry.py:72 | after the last attempt the last caught exception is raised (raising None is a TypeError) |
| Retry.RunFromCaught | orchestrator/utils/retry.py:57-70 | a caught failure continues with the next attempt after one sleep, unless it was the last attempt |
| Retry.CallsBounded | orchestrator/utils/retry.py:54-72 | at most max_attempts calls, exactly one sleep between consecutive calls and none after the last; with no attempts a TypeError |
| Retry.FirstSuccessReturned | orchestrator/utils/retry.py:56 | the first successful call's value is returned and no further call is made |
| Retry.UncaughtPropagates | orchestrator/utils/retry.py:57 | an exception outside `exceptions` propagates from the attempt that raised it, without retry |
| Retry.LastExceptionReraised | orchestrator/utils/retry.py:57-72 | when every attempt raises a caught exception, the last one is re-raised after max_attempts calls |
| Retry.SleepsFollowPolicy | orchestrator/utils/retry.py:60-70 | the i-th sleep follows failed attempt i and lasts Delay of that attempt |
| Retry.SleepsBounded | orchestrator/utils/retry.py:61-67 | with backoff every sleep is at most max_delay; without it every sleep is exactly base_delay |
| Retry.FailTwiceThenSucceed | orchestrator/utils/retry.py:54-72 | with the defaults, two failures then a success return the success after three calls and two sleeps of 1-2 s and 2-3 s |
| Registry.Registered | orchestrator/tools/registry.py:49 | registering keeps the ordered table well formed |
| Registry.RegisteredNamedByKey | orchestrator/tools/registry.py:49 | every tool stays filed under its own name |
| Registry.Schemas | orchestrator/tools/registry.py:66-71 | one schema per registered tool |
| Registry.ToolRegistry.constructor | orchestrator/tools/registry.py:13-24 | a new registry has no tools and the given definitions |
| Registry.ToolRegistry.Register | orchestrator/tools/registry.py:43-50 | register files the tool under its name and never changes the definitions |
| Registry.ToolRegistry.Get | orchestrator/tools/registry.py:52-54 | get returns the tool of a known name and None otherwise |
| Registry.ToolRegistry.ListTools | orchestrator/tools/registry.py:56-58 | list_tools is the names in first-registration order |
| Registry.ToolRegistry.GetSchemas | orchestrator/tools/registry.py:60-71 | the loop returns the schema of each tool in list_tools order |
| Registry.ToolRegistry.GetDefinition | orchestrator/tools/registry.py:73-75 | get_definition returns the stored definition, or None |
| Registry.RegisterReplaces | orchestrator/tools/registry.py:49 | a later tool of the same name replaces the earlier one and keeps its place; a new name goes last; other names are unchanged |
| Registry.SchemasFollowListOrder | orchestrator/tools/registry.py:66-71 | the i-th schema is that of the i-th listed tool, and names it |
| Executor.Validate | orchestrator/tools/base.py:47-49 | the built-ins accept every argument set |
| Executor.ExecuteToolStep | orchestrator/tools/executor.py:42-91 | execute keeps the sandbox map well formed |
| Executor.BuiltinTools | orchestrator/tools/executor.py:35-40 | the four registrations give a well-formed table |
| Executor.ToolExecutor.constructor | orchestrator/tools/executor.py:17-33 | the new executor's registry holds exactly the four built-ins |
| Executor.ToolExecutor.RegisterBuiltinTools | orchestrator/tools/executor.py:35-40 | the four built-ins are registered in order and the definitions are untouched |
| Executor.ToolExecutor.Execute | orchestrator/tools/executor.py:42-91 | execute returns, leaves and calls exactly what ExecuteToolStep gives, and never raises |
| Executor.ToolExecutor.GetToolSchemas | orchestrator/tools/executor.py:93-95 | get_tool_schemas is the registry's schemas |
| Executor.BuiltinNamesDistinct | orchestrator/tools/implementations.py:13-180 | the four built-in names are different |
| Executor.BuiltinOrder | orchestrator/tools/executor.py:37-40 | after construction list_tools is exactly execute_code, file_operations, web_search, analyze_data |
| Executor.FirstTwoBuiltins | orchestrator/tools/executor.py:37-38 | the first two registrations list execute_code then file_operations |
| Executor.BuiltinLookup | orchestrator/tools/executor.py:37-40 | each built-in's name resolves to that built-in |
| Executor.RegisteredFresh | orchestrator/tools/registry.py:49 | registering a new name appends it to the order |
| Executor.UnknownTool | orchestrator/tools/executor.py:60-66 | an unknown name gives "Tool not found: <name>" and runs nothing |
| Executor.RejectedArguments | orchestrator/tools/executor.py:70-74 | rejected arguments give "Invalid arguments for <name>" and the body does not run; only a non-built-in can reject |
| Executor.ResultsPassThrough | orchestrator/tools/executor.py:77-91 | a returned result passes through unchanged; a raised exception becomes a failure with its message |
| Executor.BadArgumentsReported | orchestrator/tools/executor.py:77-91 | a built-in called with `session_id` or `self` among its arguments, or without a required one, fails with the TypeError text and makes no vendor call |
| Tools.SchemaOf | orchestrator/tools/implementations.py:34-51 | a built-in's schema has type "function" and the tool's name, description, properties and required list |
| Tools.Missing | orchestrator/tools/implementations.py:18 | exactly the required parameters that are absent |
| Tools.Bind | orchestrator/tools/implementations.py:18 | binding succeeds if and only if the arguments hold neither `session_id` nor `self` and every required parameter is given; otherwise a TypeError, which for a `self` key (without `session_id`) is "<Class>.execute() got multiple values for argument 'self'" |
| Tools.EnsureStep | orchestrator/tools/implementations.py:20-22 | the create-if-missing guard keeps the map well formed |
| Tools.RunInSandbox | orchestrator/tools/implementations.py:20-24 | the guard then one execution keep the map well formed |
| Tools.CodeExecutionStep | orchestrator/tools/implementations.py:18-32 | execute_code keeps the map well formed |
| Tools.FileOperationsStep | orchestrator/tools/implementations.py:64-100 | file operations never change the sandbox map |
| Tools.AnalysisCode | orchestrator/tools/implementations.py:193-217 | a program exists if and only if the type is "summary" or "visualize" |
| Tools.DataAnalysisStep | orchestrator/tools/implementations.py:185-231 | analyze_data keeps the map well formed |
| Tools.AnalysisWith | orchestrator/tools/implementations.py:216-231 | analyze_data with its chosen program keeps the map well formed |
| Tools.InvokeStep | orchestrator/tools/executor.py:77-80 | running a tool keeps the map well formed |
| Tools.EnsureSandbox | orchestrator/tools/implementations.py:20-22 | the guard does exactly what EnsureStep says |
| Tools.RunCode | orchestrator/tools/implementations.py:20-24 | the guard and the run do exactly what RunInSandbox says |
| Tools.Invoke | orchestrator/tools/implementations.py:18-231 | the dispatch of the four tool bodies does exactly what InvokeStep says |
| Tools.WriteRequiresContent | orchestrator/tools/implementations.py:81-90 | "write" without content or with empty content fails with "Content required for write" and writes nothing; with content it writes once and reports the path |
| Tools.FileOperationsDispatch | orchestrator/tools/implementations.py:73-100 | "read" returns the content and path, "list" the listing and directory, any other operation "Unknown operation: <op>" |
| Tools.CodeExecutionCreatesOnlyIfMissing | orchestrator/tools/implementations.py:18-32 | a sandbox is created (with the default template) only when the session has none, then the code runs once; the result copies the provider's dict |
| Tools.AnalysisRefusesUnknownType | orchestrator/tools/implementations.py:194-217 | any type but "summary" and "visualize" gives "Unknown analysis type" without creating or using a sandbox |
| Tools.AnalysisReportsOutput | orchestrator/tools/implementations.py:219-231 | a known type runs its program and reports the run's stdout as output, echoing the type |
| Tools.CorrelateAdvertisedButRefused | orchestrator/tools/implementations.py:194-248 | the schema offers "correlate", which the tool refuses |
| Tools.WebSearchOneHit | orchestrator/tools/implementations.py:140-153 | web_search succeeds with exactly one hit whose title ends with the query, and echoes the query |
| E2B.TemplateFor | orchestrator/providers/e2b.py:41-50 | "default" asks for no template, None or "" for the custom template, anything else is passed through |
| E2B.PngArtifacts | orchestrator/providers/e2b.py:96-102 | at most one artifact per result |
| E2B.CreateStep | orchestrator/providers/e2b.py:26-55 | create_sandbox keeps the map well formed |
| E2B.CloseStep | orchestrator/providers/e2b.py:141-149 | close_sandbox keeps the map well formed |
| E2B.KillAll | orchestrator/providers/e2b.py:151-154 | cleanup_all makes one kill call per sandbox |
| E2B.E2BProvider.constructor | orchestrator/providers/e2b.py:13-21 | a new provider has no sandboxes |
| E2B.E2BProvider.CreateSandbox | orchestrator/providers/e2b.py:26-55 | create_sandbox under its two-attempt retry does exactly what CreateStep says |
| E2B.E2BProvider.GetSandbox | orchestrator/providers/e2b.py:57-59 | get_sandbox returns the session's sandbox, or None |
| E2B.E2BProvider.ExecuteCode | orchestrator/providers/e2b.py:61-104 | execute_code under its retry does exactly what ExecuteStep says |
| E2B.E2BProvider.WriteFile | orchestrator/providers/e2b.py:106-116 | write_file does exactly what WriteStep says |
| E2B.E2BProvider.ReadFile | orchestrator/providers/e2b.py:118-127 | read_file does exactly what ReadStep says |
| E2B.E2BProvider.ListFiles | orchestrator/providers/e2b.py:129-139 | list_files does exactly what ListStep says |
| E2B.E2BProvider.CloseSandbox | orchestrator/providers/e2b.py:141-149 | close_sandbox does exactly what CloseStep says |
| E2B.E2BProvider.CleanupAll | orchestrator/providers/e2b.py:151-154 | after cleanup_all the map is empty and every sandbox was killed once, in order |
| E2B.CleanupStep | orchestrator/providers/e2b.py:153-154 | each turn of the cleanup loop closes the next remaining sandbox |
| E2B.ShapeResult | orchestrator/providers/e2b.py:87-102 | the loop builds exactly the Shaped result dict |
| E2B.PngArtifactsAppend | orchestrator/providers/e2b.py:96-102 | one more result adds its png artifact, if it has one, at the end |
| E2B.PngArtifactsExact | orchestrator/providers/e2b.py:96-102 | every artifact is "image/png"; one per result, holding its png, when all results have one; none when none does |
| E2B.ShapedFields | orchestrator/providers/e2b.py:87-93 | success if and only if there is no execution error; empty stdout and stderr without logs |
| E2B.CreateRecords | orchestrator/providers/e2b.py:26-55 | one or two vendor calls with the chosen template; on success the session maps to the new sandbox (replacing any earlier one) and no other session changes; on failure nothing changes |
| E2B.ExecuteWithoutSandbox | orchestrator/providers/e2b.py:78-81 | without a sandbox execute_code raises ValueError and never reaches the vendor |
| E2B.ExecuteRunsOnce | orchestrator/providers/e2b.py:61-104 | a first run that succeeds runs the code exactly once |
| E2B.MissingSandboxFileOps | orchestrator/providers/e2b.py:106-139 | without a sandbox, write is a silent no-op, read raises ValueError, list returns [] |
| E2B.CloseIdempotent | orchestrator/providers/e2b.py:141-149 | close removes the session whatever kill does, touches no other session, and a second close is a no-op |
| E2BManager.E2BSandboxManager.constructor | orchestrator/e2b_manager.py:13-20 | a new manager has no active sandboxes |
| E2BManager.E2BSandboxManager.StartSandbox | orchestrator/e2b_manager.py:22-39 | start_sandbox does exactly what StartStep says |
| E2BManager.E2BSandboxManager.ExecuteCode | orchestrator/e2b_manager.py:41-66 | execute_code does exactly what ExecuteStep says |
| E2BManager.E2BSandboxManager.ReadFile | orchestrator/e2b_manager.py:68-82 | read_file does exactly what ReadStep says |
| E2BManager.E2BSandboxManager.WriteFile | orchestrator/e2b_manager.py:84-96 | write_file does exactly what WriteStep says |
| E2BManager.E2BSandboxManager.ListFiles | orchestrator/e2b_manager.py:98-112 | list_files does exactly what ListStep says |
| E2BManager.E2BSandboxManager.StopSandbox | orchestrator/e2b_manager.py:114-133 | stop_sandbox does exactly what StopStep says |
| E2BManager.E2BSandboxManager.GetSandboxUrl | orchestrator/e2b_manager.py:135-148 | get_sandbox_url does exactly what UrlStep says |
| E2BManager.StartThenExecute | orchestrator/e2b_manager.py:32-58 | a started sandbox is recorded under the session, other sessions are kept, and the session's code then runs on it |
| E2BManager.StartFailureKeepsMap | orchestrator/e2b_manager.py:32-38 | a sandbox that fails to start leaves the map as it was |
| E2BManager.MissingSessionRaises | orchestrator/e2b_manager.py:52-145 | without an active sandbox, execute, read, write and list raise the same ValueError and the url is None, with no vendor call |
| E2BManager.StopReports | orchestrator/e2b_manager.py:123-133 | stop is True if and only if the session had a sandbox and close succeeded; only then is the entry removed, so a second stop is False; a failed close keeps the entry |
| E2BManager.ExecuteReports | orchestrator/e2b_manager.py:58-66 | the result copies the execution's streams, error and artifact names |
| Backends.SessionManager.constructor | orchestrator/session_manager.py:9-10 | the manager keeps its storage path |
| Backends.SessionManager.CreateSession | orchestrator/session_manager.py:12-17 | create_session returns the fresh id after asking for its session directory |
| Backends.SessionManager.DestroySession | orchestrator/session_manager.py:19-22 | destroy_session always returns True |
| Backends.SandboxManager.constructor | orchestrator/sandbox_manager.py:12-13 | the manager reports to the given trace |
| Backends.SandboxManager.StartSandbox | orchestrator/sandbox_manager.py:15-25 | start_sandbox runs a container named sandbox_<id> from the environment and returns its id or the exception |
| Backends.SandboxManager.StopSandbox | orchestrator/sandbox_manager.py:27-36 | stop_sandbox asks to stop the container and reports True if and only if the stop and remove succeeded |
| Backends.StateManager.constructor | orchestrator/state_manager.py:13-14 | the state manager keeps only its runtime path |
| Unified.Binding | orchestrator/unified_manager.py:75 | session_providers.get gives the binding if there is one, None otherwise |
| Unified.UnifiedSandboxManager.constructor | orchestrator/unified_manager.py:17-25 | a new manager has no bindings and fresh Docker and E2B managers |
| Unified.UnifiedSandboxManager.StartSandbox | orchestrator/unified_manager.py:27-63 | "docker" and "e2b" bind the session only after the backend started (overwriting an earlier binding); e2b adds the url; any other provider raises ValueError and changes nothing |
| Unified.UnifiedSandboxManager.StopSandbox | orchestrator/unified_manager.py:65-83 | docker stops by sandbox id, e2b by session id, an unbound session is False; the binding is never removed |
| Unified.UnifiedSandboxManager.ExecuteCode | orchestrator/unified_manager.py:85-101 | only an "e2b" binding reaches a backend; every other session, unbound included, raises NotImplementedError |
| Unified.UnifiedSandboxManager.GetProvider | orchestrator/unified_manager.py:103-112 | get_provider is the recorded binding, or None |
| Orchestration.Lifecycle.constructor | orchestrator/lifecycle.py:13-16 | the three managers are fresh, sharing one trace |
| Orchestration.Lifecycle.Start | orchestrator/lifecycle.py:18-27 | start makes the session directory, then runs the container; it returns the session id, container id and "running", and a failed container start is not rolled back |
| Orchestration.Lifecycle.Stop | orchestrator/lifecycle.py:29-33 | stop asks for the container stop before destroying the session and returns True whatever either reports |
| Gemini.Converted | orchestrator/providers/gemini.py:153-177 | a converted message comes from an assistant, user or tool message and has exactly one non-empty text part |
| Gemini.ConvertedAll | orchestrator/providers/gemini.py:151-179 | the conversion is no longer than its input |
| Gemini.ConvertMessages | orchestrator/providers/gemini.py:151-179 | the loop returns exactly ConvertedAll |
| Gemini.ConvertedRoles | orchestrator/providers/gemini.py:158-173 | assistant maps to model, user to user, tool to user behind "Tool result: "; empty user and assistant messages are dropped, tool messages never; system and unknown roles vanish |
| Gemini.ConvertedConcat | orchestrator/providers/gemini.py:153-177 | conversion works message by message, so input order is preserved |
| Gemini.ConvertedShape | orchestrator/providers/gemini.py:173-177 | every entry has one non-empty text part and role "model" or "user" |
| Gemini.Declarations | orchestrator/providers/gemini.py:190-205 | no more declarations than tools |
| Gemini.ConvertTools | orchestrator/providers/gemini.py:181-207 | the loop returns the declarations of the "function" tools, or None when there are none |
| Gemini.DeclarationsExact | orchestrator/providers/gemini.py:192-207 | the result is None if and only if no tool has type "function"; with only function tools, one declaration per tool in order |
| Gemini.CountTokens | orchestrator/providers/gemini.py:220 | the estimate n satisfies 4n <= len(text) < 4n + 4 |
| Agent.Offered | orchestrator/core/agent.py:101-103 | schemas are offered if and only if tools are enabled and there is an executor, one per registered tool |
| Agent.ToolRound | orchestrator/core/agent.py:130-143 | one tool message per tool call |
| Agent.Loop | orchestrator/core/agent.py:106-146 | the loop keeps the sandbox map well formed |
| Agent.RunSpec | orchestrator/core/agent.py:69-165 | one attempt of run keeps the store and the sandbox map well formed |
| Agent.Answer | orchestrator/core/agent.py:90-165 | run after the history has loaded keeps the store and the sandbox map well formed |
| Agent.Persist | orchestrator/core/agent.py:148-165 | the user message, then the last answer, are stored through add_message; the response echoes the last completion and the iteration count; with no completion `response` is unbound and only the user message is stored |
| Agent.Agent.Sandboxes | orchestrator/core/agent.py:62 | the provider's sandbox map is well formed |
| Agent.Agent.Registered | orchestrator/core/agent.py:62 | the registered tools exist exactly when there is an executor |
| Agent.Agent.constructor | orchestrator/core/agent.py:43-64 | the agent keeps its config, executor and store, with a conversation manager of max_history 50 on that store |
| Agent.Agent.Run | orchestrator/core/agent.py:69-165 | run (one attempt) returns and leaves exactly what RunSpec gives |
| Agent.Agent.Respond | orchestrator/core/agent.py:90-165 | run after the history has loaded returns and leaves exactly what Answer gives |
| Agent.Agent.Prompt | orchestrator/core/agent.py:90-103 | the first prompt is Opening and the offered schemas are Offered |
| Agent.Agent.Save | orchestrator/core/agent.py:148-165 | the two add_message calls leave exactly what Persist gives |
| Agent.Agent.Converse | orchestrator/core/agent.py:106-146 | the while loop ends in exactly the state Loop gives |
| Agent.Agent.ResetSession | orchestrator/core/agent.py:197-199 | reset_session clears the session's history |
| Agent.ExecuteToolCalls | orchestrator/core/agent.py:130-143 | the inner loop returns, leaves and calls exactly what ToolRound gives |
| Agent.Next | orchestrator/core/agent.py:107-143 | a turn with tool calls counts one iteration, records one model call and keeps the reply as the response |
| Agent.LoopDone | orchestrator/core/agent.py:107 | with the budget spent the loop stops |
| Agent.LoopRaised | orchestrator/core/agent.py:111-117 | an exception from the model ends the loop after counting the call |
| Agent.LoopAnswered | orchestrator/core/agent.py:119-146 | a reply without tool calls is appended and ends the loop |
| Agent.LoopWithoutExecutor | orchestrator/core/agent.py:127-132 | tool calls without an executor end the loop with AttributeError |
| Agent.LoopContinues | orchestrator/core/agent.py:127-143 | tool calls with an executor run, then the loop continues |
| Agent.LoopCounts | orchestrator/core/agent.py:106-117 | each iteration makes exactly one model call and the loop never passes max_iterations |
| Agent.LoopCallsKept | orchestrator/core/agent.py:111-117 | earlier model calls are kept and every call is offered the same schemas |
| Agent.LoopFirstCall | orchestrator/core/agent.py:107-117 | within the budget the model is called, first with the starting messages |
| Agent.LoopOutcome | orchestrator/core/agent.py:107-146 | stopping early without an exception means a reply without tool calls; the response is the last reply |
| Agent.LoopLastReply | orchestrator/core/agent.py:111-124 | a loop ending with a response called the model, and the response is the last reply |
| Agent.ToolRoundAnswers | orchestrator/core/agent.py:130-143 | the j-th tool call is answered, in order, by one "tool" message with its id and the serialised result of running it on the sandboxes the earlier calls left |
| Agent.AnswerOk | orchestrator/core/agent.py:160-165 | a successful run answers with the loop's last completion and its iteration count |
| Agent.AnswerStore | orchestrator/core/agent.py:148-158 | unless the loop raised, the store after run is what the two add_message calls leave |
| Agent.RunCountsIterations | orchestrator/core/agent.py:106-117 | metadata["iterations"] equals the number of model calls, between 1 and max_iterations |
| Agent.RunFirstCall | orchestrator/core/agent.py:90-117 | the first model call sees the opening messages (system prompt only on an empty history, user message last) and every call gets the same schemas |
| Agent.RunAnswersLastReply | orchestrator/core/agent.py:160-165 | content, tool_calls and usage are those of the last model reply |
| Agent.RunStopsOnPlainAnswer | orchestrator/core/agent.py:127-146 | a run that stopped before its budget answers with a reply that requests no tools |
| Agent.RunSavesExchange | orchestrator/core/agent.py:148-158 | exactly the user message, then the answer, are appended to the stored history, each followed by the trim; tool messages are not stored |
| Agent.RunWithoutBudget | orchestrator/core/agent.py:106-165 | with max_iterations 0 the model is never called, the user message is stored and reading `response` raises |
| Agent.RunModelRaises | orchestrator/core/agent.py:111-117 | an exception from the model propagates and nothing is stored |
| Agent.SystemPromptOnlyOnce | orchestrator/core/agent.py:91-98 | after a successful run the session's next run opens without the system prompt |
| Agent.SessionResumes | orchestrator/core/agent.py:88-98 | a stored non-empty history without a deadline reads back non-empty, so the next prompt is that history plus the user message |
| ImportMap.LocalImports | scripts/map_connections.py:34-36 | exactly the imports starting with "orchestrator", a subset of the input |
| ImportMap.Kept | scripts/map_connections.py:43-47 | exactly the files not named "__*" whose path contains none of ".venv", "verify", "map_connections" |
| ImportMap.ModuleNameAsWritten | scripts/map_connections.py:54 | the script's module name is never longer than the relative path |
| ImportMap.ModuleName | scripts/map_connections.py:54 | the corrected module name is three characters shorter than the path exactly when the path ends in ".py" |
| ImportMap.ModuleNameDeletesInnerPy | scripts/map_connections.py:54 | the name as written turns "a/pyx.py" into "ax"; the corrected one gives "a.pyx" |
| ImportMap.DottedInnerPy | scripts/map_connections.py:54 | "/" becomes "." |
| ImportMap.DeletedInnerPy | scripts/map_connections.py:54 | the replace removes every ".py", including the one inside a name |
| ImportMap.ModuleNameOfSource | scripts/map_connections.py:54 | the corrected name of p + ".py" is p with "/" replaced by "." |
| ImportMap.AsWrittenAgrees | scripts/map_connections.py:54 | when the stem holds no ".py" the name as written equals the corrected one |
| ImportMap.AsWrittenIsModuleName | scripts/map_connections.py:54 | when the dotted stem of a ".py" path holds no ".py", the script's name is the corrected one |
| ImportMap.Connected | scripts/map_connections.py:50-60 | the connection map, under either naming, is well formed and every listed dependency starts with "orchestrator" |
| ImportMap.BuildConnections | scripts/map_connections.py:52-60 | the loop, with the script's own module names, builds exactly Connected under that naming |
| ImportMap.ConnectedLastWins | scripts/map_connections.py:59-60 | under either naming, a module is listed with the local imports of the last file of that name |
| ImportMap.ConnectedPair | scripts/map_connections.py:52-60 | two files with the same name give one entry holding the second file's imports; different names give two entries in file order |
| ImportMap.PlainModuleName | scripts/map_connections.py:54 | "ax.py" is module "ax" under either naming |
| ImportMap.AsWrittenFoldsModules | scripts/map_connections.py:52-60 | with the script's names, "a/pyx.py" and "ax.py" become one entry "ax" holding the later file's imports; the corrected names keep two entries |
| ImportMap.Items | scripts/map_connections.py:69 | `connections.items()` in insertion order |
| ImportMap.Insert | scripts/map_connections.py:69 | inserting adds exactly one element |
| ImportMap.InsertAscending | scripts/map_connections.py:69 | inserting keeps the order by dependency count |
| ImportMap.SortedByDeps | scripts/map_connections.py:69 | the sort is a permutation ordered by number of local imports |
| ImportMap.InsertWithKey | scripts/map_connections.py:69 | insertion keeps the relative order of elements with equal count |
| ImportMap.SortStable | scripts/map_connections.py:69 | the sort is stable: equal counts keep insertion order |
| ImportMap.Band | scripts/map_connections.py:78-106 | level 0 for 0 imports, 1 for 1-2, 2 for 3-4, 3 for 5 or more, in both directions |
| ImportMap.Level | scripts/map_connections.py:78-106 | a level holds only entries of its band, taken from the sorted list |
| ImportMap.LevelEmpty | scripts/map_connections.py:78-106 | a level with no entry of its band is empty |
| ImportMap.LevelsBelowHead | scripts/map_connections.py:78-106 | in an ascending list, levels below the first entry's band are empty |
| ImportMap.LevelsCons0 | scripts/map_connections.py:78 | a first entry in level 0 goes first |
| ImportMap.LevelsCons1 | scripts/map_connections.py:86 | a first entry in level 1 goes first when level 0 of the rest is empty |
| ImportMap.LevelsCons2 | scripts/map_connections.py:96 | a first entry in level 2 goes first when the lower levels of the rest are empty |
| ImportMap.LevelsCons3 | scripts/map_connections.py:106 | a first entry in level 3 goes first when the lower levels of the rest are empty |
| ImportMap.LevelsCover | scripts/map_connections.py:75-106 | on a list ascending by dependency count the four levels, concatenated, are the list itself |
| ImportMap.LevelsPartition | scripts/map_connections.py:69-106 | the four printed levels, one after the other, are the sorted connections, a permutation of the map's items: each connection is printed exactly once |
| ImportMap.Edges | scripts/map_connections.py:127-130 | the import edges number the sum of the dependency-set sizes |
| ImportMap.EdgesCount | scripts/map_connections.py:127-130 | the edges to d are the modules whose local imports contain d |
| ImportMap.CountDeps | scripts/map_connections.py:129-130 | the inner loop adds one to each dependency's count |
| ImportMap.ImportCounts | scripts/map_connections.py:127-130 | import_counts[d] is the number of modules importing d, and d is counted exactly when some module imports it |
| EnvFile.ParseLine | scripts/custom_template.py:18-20 | an assignment splits the stripped line at an '=' that the key does not contain |
| EnvFile.Refusal | scripts/custom_template.py:21 | on POSIX, os.environ accepts the assignment if and only if the key is non-empty and neither key nor value holds a NUL; a NUL raises ValueError and an empty name OSError |
| EnvFile.Apply | scripts/custom_template.py:19-21 | a skipped line or a failed load changes nothing; an accepted assignment sets the key; a refused one fails the load and keeps earlier assignments |
| EnvFile.Parsed | scripts/custom_template.py:17-18 | one parse per line, in order |
| EnvFile.LoadedStep | scripts/custom_template.py:17-21 | one more line applies its parse to the loaded environment |
| EnvFile.LoadedRaised | scripts/custom_template.py:17-21 | after a refusal the rest of the file is not applied |
| EnvFile.ParseLineSkips | scripts/custom_template.py:18-19 | a line is skipped if and only if, stripped, it is empty, starts with '#', or has no '=' |
| EnvFile.ParseLineSplits | scripts/custom_template.py:20 | the split is at the first '=' |
| EnvFile.KeyValueLine | scripts/custom_template.py:18-20 | "k = v" survives the strip and has its first '=' after "k " |
| EnvFile.ParseLineKeepsSpaces | scripts/custom_template.py:20 | "k = v" sets "k " to " v": spaces are kept and later '=' stay in the value |
| EnvFile.RaisedStays | scripts/custom_template.py:17-21 | once the load has failed no later line is applied |
| EnvFile.AppliedOk | scripts/custom_template.py:17-21 | the load succeeds if and only if every line is accepted |
| EnvFile.LastLineWins | scripts/custom_template.py:21 | the last line for a key gives its value |
| EnvFile.UnsetKeyKept | scripts/custom_template.py:21 | a key no line sets keeps its earlier value or stays unset |
| EnvFile.Environ.constructor | scripts/custom_template.py:21 | the environment starts as given |
| EnvFile.Environ.LoadEnv | scripts/custom_template.py:12-21 | a missing file changes nothing; otherwise the environment and outcome are exactly Loaded of the file's lines |

## Left out

- Vendor SDKs and services are oracles whose behaviour is not modelled. This covers the E2B `Sandbox(...)` constructor, `run_code`, `files.*`, `kill`, `close`, `get_hostname`, the Docker client and the Gemini client. Their answers are parameters (`Cloud.Vendor`, `Backends.Docker`, `Agent.Model`).
- Tools.FileOperationsStep: file contents are text. The UTF-8 decode on read (and the UnicodeDecodeError a file that is not valid UTF-8 raises, which the executor reports as a failure) and the encode on write are not modelled.
- File-system I/O is not modelled. This covers `MemoryStore._persist_to_disk`, `unlink`, `glob`, JSON (de)serialisation, the YAML definitions of `ToolRegistry._load_definitions` (given as a parameter), `mkdir` in `create_session` (assumed to succeed), `StateManager.read_state`/`write_state`, and reading the `.env` file (given as its lines).
- Time is the integer parameter `now`. `datetime.utcnow()`, ISO timestamps and `get_summary`'s `duration_seconds` are left out.
- The retry delays are integer milliseconds and `random.uniform(0, 1)` is the oracle `jitter(k)`. Floating-point delays and the actual sleeping are left out.
- async/await is treated as sequential calls. `stream_to_async`, `Agent.stream`, `GeminiProvider.chat_completion` and `stream_completion` are left out: their tool-call id uses Python's per-process `hash`.
- Agent.Agent.Run: models one attempt of `run`. The `@with_retry(max_attempts=3)` wrapper around it is modelled separately by `Retry.WithRetry` and is not composed with it.
- Agent.Agent.Run: `json.dumps` of a tool result is the oracle `dumps`. Tool-call arguments arrive already decoded, so a `json.loads` failure is not modelled.
- Agent.AgentConfig: drops `temperature`, `max_tokens` and `timeout`, which only reach the model client.
- Conversation: a stored history is a list of messages or `None`. Other non-list values a caller could store under the key are not modelled.
- PyText.Strip, PyText.Lower, PyText.Words and PyText.Capitalize: cover ASCII whitespace and ASCII letters only, not Unicode.
- E2B.E2BProvider.constructor: drops the API key and its `E2B_API_KEY` environment fallback, which only reach the vendor.
- E2B.E2BProvider.ExecuteCode: drops the `language` argument, which the source ignores. The same holds for the E2B manager and the unified manager.
- Tools.Args: tool arguments are string-valued. A `None` content or other JSON types are not modelled.
- Gemini.Converted: a message's content is always a string. Python's missing content (the `""` default) and a `None` content are not distinguished.
- Gemini.ConvertTools: the vendor's `Tool`/`FunctionDeclaration` objects are plain datatypes. A tool without a "type" key (a KeyError) is not modelled.
- ImportMap: `get_imports` (the `ast` parse) is a given set per file. `rglob` is a given file list. All printing is left out, including the top-ten list of the most imported modules.
- ImportMap.Excluded: the "verify" and "map_connections" tests apply to the path as given. When that path is absolute, a project root whose path contains "verify" excludes every file, as in the source.
- EnvFile.Refusal: the two ways `os.environ[key] = value` raises are modelled from CPython's behaviour, since that code is not part of this model. The POSIX behaviour is modelled: a NUL byte raises ValueError "embedded null byte", and an empty name reaches `setenv`, which fails with OSError "[Errno 22] Invalid argument". The Windows messages are not modelled.
- The HTTP API (`api/`), `main.py`, the logging helpers and the scripts other than `map_connections.py` and `custom_template.py` are not part of this model. The same goes for the demo body of `custom_template.main`.
- Backends.StateManager: holds only its path. Its read and write ignore the session id and share one file; this is not modelled.

## Findings

| source | as written | input that shows it | evidently intended | confidence | as-written member | corrected member |
|---|---|---|---|---|---|---|
| scripts/map_connections.py:54 | `.replace(".py", "")` deletes every ".py" in the dotted path, also inside names | relative path "a/pyx.py" gives module "ax", and a file "ax.py" then overwrites its entry in the connection map | strip only the file's ".py" suffix, giving "a.pyx" | not executed | ImportMap.AsWrittenFoldsModules | ImportMap.ModuleNameOfSource |
