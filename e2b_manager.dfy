/** `E2BSandboxManager`: the `active_sandboxes` map from session id to vendor
    sandbox. Unlike `E2BProvider` it retries nothing, raises ValueError for
    every file or code operation on a session without a sandbox, and keeps
    the entry when closing the sandbox fails. The vendor answers are those
    the provider sees: an execution's error is its text rather than the
    vendor's error object that `execute_code` returns, and a listing holds
    entry names rather than the entry objects `list_files` returns. */
module E2BManager {

  import opened Wrappers
  import opened Cloud

  type Active = map<string, Handle>

  /** What one operation returns, the map afterwards, and the vendor calls
      it made. */
  datatype Step<T> = Step(result: T, active: Active, calls: seq<Call>)

  /** The dict `execute_code` returns (artifacts by name). */
  datatype Report = Report(stdout: string, stderr: string, error: Option<string>,
                           results: seq<ResultItem>, artifacts: seq<string>)

  /** The guard shared by `execute_code`, `read_file`, `write_file` and
      `list_files`. */
  function NoActiveSandbox(sessionId: string): Exception {
    Exception(ValueError, "No active sandbox for session " + sessionId)
  }

  /** `start_sandbox`: the environment is the vendor template; a sandbox
      that fails to start leaves the map as it was. */
  function StartStep(active: Active, sessionId: string, environment: string, v: Vendor): Step<Outcome<string>> {
    var created := v.create(Some(environment), 0);
    if created.Ok? then Step(Ok(created.value.sandboxId), active[sessionId := created.value], [NewSandbox(Some(environment))])
    else Step(Raised(created.exc), active, [NewSandbox(Some(environment))])
  }

  /** `execute_code`: the logs are read without a check, so an execution
      without logs raises AttributeError. */
  function ExecuteStep(active: Active, sessionId: string, code: string, v: Vendor): Step<Outcome<Report>> {
    if sessionId !in active then Step(Raised(NoActiveSandbox(sessionId)), active, [])
    else
      var h := active[sessionId];
      var e := v.run(h, code, 0);
      var result :=
        if e.Raised? then Raised(e.exc)
        else if e.value.logs.None? then Raised(Exception(AttributeError, "'NoneType' object has no attribute 'stdout'"))
        else Ok(Report(e.value.logs.value.stdout, e.value.logs.value.stderr, e.value.error, e.value.results, e.value.artifacts));
      Step(result, active, [RunCode(h, code)])
  }

  function ReadStep(active: Active, sessionId: string, path: string, v: Vendor): Step<Outcome<string>> {
    if sessionId !in active then Step(Raised(NoActiveSandbox(sessionId)), active, [])
    else Step(v.read(active[sessionId], path), active, [FileRead(active[sessionId], path)])
  }

  function WriteStep(active: Active, sessionId: string, path: string, content: string, v: Vendor): Step<Outcome<()>> {
    if sessionId !in active then Step(Raised(NoActiveSandbox(sessionId)), active, [])
    else Step(v.write(active[sessionId], path, content), active, [FileWrite(active[sessionId], path, content)])
  }

  function ListStep(active: Active, sessionId: string, directory: string, v: Vendor): Step<Outcome<seq<string>>> {
    if sessionId !in active then Step(Raised(NoActiveSandbox(sessionId)), active, [])
    else Step(v.list(active[sessionId], directory), active, [DirList(active[sessionId], directory)])
  }

  /** `stop_sandbox`: the entry is deleted only after `close` returns; a
      failing `close` is caught, logged and reported as False. */
  function StopStep(active: Active, sessionId: string, v: Vendor): Step<bool> {
    if sessionId !in active then Step(false, active, [])
    else
      var h := active[sessionId];
      if v.close(h).Ok? then Step(true, active - {sessionId}, [Close(h)])
      else Step(false, active, [Close(h)])
  }

  /** `get_sandbox_url`: None without a sandbox, otherwise the host name. */
  function UrlStep(active: Active, sessionId: string, v: Vendor): Step<Outcome<Option<string>>> {
    if sessionId !in active then Step(Ok(None), active, [])
    else
      var h := active[sessionId];
      var u := v.hostname(h);
      Step(if u.Ok? then Ok(Some(u.value)) else Raised(u.exc), active, [Hostname(h)])
  }

  class E2BSandboxManager {
    const apiKey: Option<string>
    var activeSandboxes: Active

    constructor (apiKey: Option<string>)
      ensures this.apiKey == apiKey && activeSandboxes == map[]
    {
      this.apiKey := apiKey;
      activeSandboxes := map[];
    }

    method StartSandbox(sessionId: string, environment: string, v: Vendor) returns (r: Outcome<string>, calls: seq<Call>)
      modifies this
      ensures Step(r, activeSandboxes, calls) == StartStep(old(activeSandboxes), sessionId, environment, v)
    {
      var sandbox := v.create(Some(environment), 0);
      calls := [NewSandbox(Some(environment))];
      if sandbox.Raised? {
        return Raised(sandbox.exc), calls;
      }
      activeSandboxes := activeSandboxes[sessionId := sandbox.value];
      r := Ok(sandbox.value.sandboxId);
    }

    method ExecuteCode(sessionId: string, code: string, v: Vendor) returns (r: Outcome<Report>, calls: seq<Call>)
      ensures Step(r, activeSandboxes, calls) == ExecuteStep(activeSandboxes, sessionId, code, v)
    {
      if sessionId !in activeSandboxes {
        return Raised(NoActiveSandbox(sessionId)), [];
      }
      var sandbox := activeSandboxes[sessionId];
      var execution := v.run(sandbox, code, 0);
      calls := [RunCode(sandbox, code)];
      if execution.Raised? {
        return Raised(execution.exc), calls;
      }
      var e := execution.value;
      if e.logs.None? {
        return Raised(Exception(AttributeError, "'NoneType' object has no attribute 'stdout'")), calls;
      }
      r := Ok(Report(e.logs.value.stdout, e.logs.value.stderr, e.error, e.results, e.artifacts));
    }

    method ReadFile(sessionId: string, path: string, v: Vendor) returns (r: Outcome<string>, calls: seq<Call>)
      ensures Step(r, activeSandboxes, calls) == ReadStep(activeSandboxes, sessionId, path, v)
    {
      if sessionId !in activeSandboxes {
        return Raised(NoActiveSandbox(sessionId)), [];
      }
      var sandbox := activeSandboxes[sessionId];
      r, calls := v.read(sandbox, path), [FileRead(sandbox, path)];
    }

    method WriteFile(sessionId: string, path: string, content: string, v: Vendor) returns (r: Outcome<()>, calls: seq<Call>)
      ensures Step(r, activeSandboxes, calls) == WriteStep(activeSandboxes, sessionId, path, content, v)
    {
      if sessionId !in activeSandboxes {
        return Raised(NoActiveSandbox(sessionId)), [];
      }
      var sandbox := activeSandboxes[sessionId];
      r, calls := v.write(sandbox, path, content), [FileWrite(sandbox, path, content)];
    }

    method ListFiles(sessionId: string, directory: string, v: Vendor) returns (r: Outcome<seq<string>>, calls: seq<Call>)
      ensures Step(r, activeSandboxes, calls) == ListStep(activeSandboxes, sessionId, directory, v)
    {
      if sessionId !in activeSandboxes {
        return Raised(NoActiveSandbox(sessionId)), [];
      }
      var sandbox := activeSandboxes[sessionId];
      r, calls := v.list(sandbox, directory), [DirList(sandbox, directory)];
    }

    method StopSandbox(sessionId: string, v: Vendor) returns (stopped: bool, calls: seq<Call>)
      modifies this
      ensures Step(stopped, activeSandboxes, calls) == StopStep(old(activeSandboxes), sessionId, v)
    {
      if sessionId !in activeSandboxes {
        return false, [];
      }
      var sandbox := activeSandboxes[sessionId];
      calls := [Close(sandbox)];
      var closed := v.close(sandbox);
      if closed.Raised? {
        return false, calls;  // the error is only printed
      }
      activeSandboxes := activeSandboxes - {sessionId};
      stopped := true;
    }

    method GetSandboxUrl(sessionId: string, v: Vendor) returns (r: Outcome<Option<string>>, calls: seq<Call>)
      ensures Step(r, activeSandboxes, calls) == UrlStep(activeSandboxes, sessionId, v)
    {
      if sessionId !in activeSandboxes {
        return Ok(None), [];
      }
      var sandbox := activeSandboxes[sessionId];
      var host := v.hostname(sandbox);
      r, calls := if host.Ok? then Ok(Some(host.value)) else Raised(host.exc), [Hostname(sandbox)];
    }
  }

  /** A started sandbox is recorded under the session (replacing any
      earlier one, leaving every other session as it was), and the session's
      code then runs on exactly that sandbox. */
  lemma StartThenExecute(active: Active, sessionId: string, environment: string, code: string, v: Vendor)
    requires v.create(Some(environment), 0).Ok?
    ensures var s := StartStep(active, sessionId, environment, v);
      var h := v.create(Some(environment), 0).value;
      && s.result == Ok(h.sandboxId) && s.calls == [NewSandbox(Some(environment))]
      && sessionId in s.active && s.active[sessionId] == h
      && (forall k :: k != sessionId ==> (k in s.active <==> k in active) && (k in active ==> s.active[k] == active[k]))
      && ExecuteStep(s.active, sessionId, code, v).calls == [RunCode(h, code)]
  {
  }

  /** A sandbox that fails to start leaves the map as it was. */
  lemma StartFailureKeepsMap(active: Active, sessionId: string, environment: string, v: Vendor)
    requires v.create(Some(environment), 0).Raised?
    ensures StartStep(active, sessionId, environment, v)
      == Step(Raised(v.create(Some(environment), 0).exc), active, [NewSandbox(Some(environment))])
  {
  }

  /** Without an active sandbox the four sandbox operations raise the same
      ValueError and reach no vendor call. */
  lemma MissingSessionRaises(active: Active, sessionId: string, code: string, path: string, content: string, v: Vendor)
    requires sessionId !in active
    ensures ExecuteStep(active, sessionId, code, v) == Step(Raised(NoActiveSandbox(sessionId)), active, [])
    ensures ReadStep(active, sessionId, path, v) == Step(Raised(NoActiveSandbox(sessionId)), active, [])
    ensures WriteStep(active, sessionId, path, content, v) == Step(Raised(NoActiveSandbox(sessionId)), active, [])
    ensures ListStep(active, sessionId, path, v) == Step(Raised(NoActiveSandbox(sessionId)), active, [])
    ensures UrlStep(active, sessionId, v) == Step(Ok(None), active, [])
  {
  }

  /** `stop_sandbox` reports True exactly when the session had a sandbox
      and closing it succeeded; only then is the entry removed, so a second
      stop reports False. A failed close keeps the entry for a later try. */
  lemma StopReports(active: Active, sessionId: string, v: Vendor)
    ensures var s := StopStep(active, sessionId, v);
      && (s.result <==> sessionId in active && v.close(active[sessionId]).Ok?)
      && (s.result ==> s.active == active - {sessionId} && StopStep(s.active, sessionId, v) == Step(false, s.active, []))
      && (!s.result ==> s.active == active)
      && |s.calls| == (if sessionId in active then 1 else 0)
  {
  }

  /** The result dict copies the
      execution's streams, error, results and artifact names unchanged. */
  lemma ExecuteReports(active: Active, sessionId: string, code: string, v: Vendor)
    requires sessionId in active && v.run(active[sessionId], code, 0).Ok?
    requires v.run(active[sessionId], code, 0).value.logs.Some?
    ensures var e := v.run(active[sessionId], code, 0).value;
      var s := ExecuteStep(active, sessionId, code, v);
      && s.result.Ok?
      && s.result.value.stdout == e.logs.value.stdout && s.result.value.stderr == e.logs.value.stderr
      && s.result.value.error == e.error && s.result.value.artifacts == e.artifacts
      && s.active == active && s.calls == [RunCode(active[sessionId], code)]
  {
  }
}
