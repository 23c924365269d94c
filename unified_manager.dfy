/** `UnifiedSandboxManager`: records which backend ("docker" or "e2b")
    started each session and routes later calls by that binding. */
module Unified {

  import opened Wrappers
  import opened Cloud
  import opened Backends
  import EM = E2BManager

  /** The dict `start_sandbox` returns; only the E2B one has a "url" key. */
  datatype Started =
    | DockerStarted(sandboxId: string, sessionId: string)
    | E2BStarted(sandboxId: string, sessionId: string, url: Option<string>)
  {
    function Provider(): string {
      if DockerStarted? then "docker" else "e2b"
    }
  }

  function UnknownProvider(provider: string): Exception {
    Exception(ValueError, "Unknown provider: " + provider)
  }

  const E2BOnly := Exception(NotImplementedError, "Code execution only supported for E2B provider")

  /** Python's `session_providers.get(session_id)`. */
  function Binding(providers: map<string, string>, sessionId: string): (p: Option<string>)
    ensures p.Some? <==> sessionId in providers
    ensures p.Some? ==> p.value == providers[sessionId]
  {
    if sessionId in providers then Some(providers[sessionId]) else None
  }

  class UnifiedSandboxManager {
    const dockerManager: SandboxManager
    const e2bManager: EM.E2BSandboxManager
    var sessionProviders: map<string, string>

    constructor (e2bApiKey: Option<string>, trace: Trace)
      ensures dockerManager.trace == trace && fresh(dockerManager) && fresh(e2bManager)
      ensures e2bManager.apiKey == e2bApiKey && e2bManager.activeSandboxes == map[]
      ensures sessionProviders == map[]
    {
      dockerManager := new SandboxManager(trace);
      e2bManager := new EM.E2BSandboxManager(e2bApiKey);
      sessionProviders := map[];
    }

    /** `start_sandbox`: the binding is written only once the backend has
        started the sandbox (so a failed start leaves any earlier binding),
        and it overwrites an earlier binding to another backend. For E2B the
        url is asked for after the binding is written. */
    method StartSandbox(sessionId: string, environment: string, provider: string, d: Docker, v: Vendor)
      returns (r: Outcome<Started>, calls: seq<Call>)
      modifies this, e2bManager, dockerManager.trace
      ensures provider == "docker" ==>
        var run := d.run(environment, ContainerName(sessionId));
        && dockerManager.trace.requests == old(dockerManager.trace.requests) + [RunContainer(environment, ContainerName(sessionId))]
        && e2bManager.activeSandboxes == old(e2bManager.activeSandboxes) && calls == []
        && r == (if run.Ok? then Ok(DockerStarted(run.value, sessionId)) else Raised(run.exc))
        && sessionProviders == if run.Ok? then old(sessionProviders)[sessionId := "docker"] else old(sessionProviders)
      ensures provider == "e2b" ==>
        var s := EM.StartStep(old(e2bManager.activeSandboxes), sessionId, environment, v);
        var u := EM.UrlStep(s.active, sessionId, v);
        && dockerManager.trace.requests == old(dockerManager.trace.requests)
        && e2bManager.activeSandboxes == s.active
        && (s.result.Raised? ==> r == Raised(s.result.exc) && calls == s.calls && sessionProviders == old(sessionProviders))
        && (s.result.Ok? ==>
              && sessionProviders == old(sessionProviders)[sessionId := "e2b"]
              && calls == s.calls + u.calls
              && r == if u.result.Ok? then Ok(E2BStarted(s.result.value, sessionId, u.result.value)) else Raised(u.result.exc))
      ensures provider != "docker" && provider != "e2b" ==>
        && r == Raised(UnknownProvider(provider)) && calls == []
        && sessionProviders == old(sessionProviders)
        && e2bManager.activeSandboxes == old(e2bManager.activeSandboxes)
        && dockerManager.trace.requests == old(dockerManager.trace.requests)
    {
      if provider == "docker" {
        var containerId := dockerManager.StartSandbox(sessionId, environment, d);
        if containerId.Raised? {
          return Raised(containerId.exc), [];
        }
        sessionProviders := sessionProviders[sessionId := "docker"];
        r, calls := Ok(DockerStarted(containerId.value, sessionId)), [];
      } else if provider == "e2b" {
        var sandboxId, started := e2bManager.StartSandbox(sessionId, environment, v);
        if sandboxId.Raised? {
          return Raised(sandboxId.exc), started;
        }
        sessionProviders := sessionProviders[sessionId := "e2b"];
        var url, asked := e2bManager.GetSandboxUrl(sessionId, v);
        calls := started + asked;
        r := if url.Ok? then Ok(E2BStarted(sandboxId.value, sessionId, url.value)) else Raised(url.exc);
      } else {
        r, calls := Raised(UnknownProvider(provider)), [];
      }
    }

    /** `stop_sandbox`: Docker stops by container id, E2B by session; an
        unbound session is False. The binding itself is never removed. */
    method StopSandbox(sessionId: string, sandboxId: string, d: Docker, v: Vendor)
      returns (stopped: bool, calls: seq<Call>)
      modifies e2bManager, dockerManager.trace
      ensures sessionProviders == old(sessionProviders)
      ensures var p := Binding(sessionProviders, sessionId);
        && (p == Some("docker") ==>
              && stopped == d.stop(sandboxId) && calls == []
              && dockerManager.trace.requests == old(dockerManager.trace.requests) + [StopContainer(sandboxId)]
              && e2bManager.activeSandboxes == old(e2bManager.activeSandboxes))
        && (p == Some("e2b") ==>
              && EM.Step(stopped, e2bManager.activeSandboxes, calls) == EM.StopStep(old(e2bManager.activeSandboxes), sessionId, v)
              && dockerManager.trace.requests == old(dockerManager.trace.requests))
        && (p != Some("docker") && p != Some("e2b") ==>
              && !stopped && calls == []
              && e2bManager.activeSandboxes == old(e2bManager.activeSandboxes)
              && dockerManager.trace.requests == old(dockerManager.trace.requests))
    {
      var provider := Binding(sessionProviders, sessionId);
      if provider == Some("docker") {
        stopped := dockerManager.StopSandbox(sandboxId, d);
        calls := [];
      } else if provider == Some("e2b") {
        stopped, calls := e2bManager.StopSandbox(sessionId, v);
      } else {
        stopped, calls := false, [];
      }
    }

    /** `execute_code`: only an "e2b" binding reaches a backend; every other
        session, bound to Docker or unbound, raises NotImplementedError. */
    method ExecuteCode(sessionId: string, code: string, v: Vendor)
      returns (r: Outcome<EM.Report>, calls: seq<Call>)
      ensures Binding(sessionProviders, sessionId) == Some("e2b") ==>
        EM.Step(r, e2bManager.activeSandboxes, calls) == EM.ExecuteStep(e2bManager.activeSandboxes, sessionId, code, v)
      ensures Binding(sessionProviders, sessionId) != Some("e2b") ==> r == Raised(E2BOnly) && calls == []
    {
      var provider := Binding(sessionProviders, sessionId);
      if provider == Some("e2b") {
        r, calls := e2bManager.ExecuteCode(sessionId, code, v);
        return;
      }
      r, calls := Raised(E2BOnly), [];
    }

    function GetProvider(sessionId: string): (p: Option<string>)
      reads this
      ensures p.Some? <==> sessionId in sessionProviders
      ensures p.Some? ==> p.value == sessionProviders[sessionId]
    {
      Binding(sessionProviders, sessionId)
    }
  }
}
