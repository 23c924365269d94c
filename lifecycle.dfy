/** `Lifecycle`: a fixed sequence of calls to the session and sandbox
    managers, with no state of its own. */
module Orchestration {

  import opened Wrappers
  import opened Backends

  /** The dict `start` returns. */
  datatype Started = Started(sessionId: string, containerId: string, status: string)

  class Lifecycle {
    const sessionMgr: SessionManager
    const sandboxMgr: SandboxManager
    const stateMgr: StateManager

    /** Both managers report to the same trace. */
    ghost predicate Valid()
    {
      sessionMgr.trace == sandboxMgr.trace
    }

    constructor (storagePath: string, runtimePath: string, trace: Trace)
      ensures Valid() && sessionMgr.trace == trace
      ensures sessionMgr.storagePath == storagePath && stateMgr.runtimePath == runtimePath
      ensures fresh(sessionMgr) && fresh(sandboxMgr) && fresh(stateMgr)
    {
      sessionMgr := new SessionManager(storagePath, trace);
      sandboxMgr := new SandboxManager(trace);
      stateMgr := new StateManager(runtimePath);
    }

    /** `start`: the session directory is made before the container is
        run and is not removed if the container fails to start. */
    method Start(agentConfig: map<string, string>, environment: string, freshId: string, d: Docker)
      returns (r: Outcome<Started>)
      requires Valid()
      modifies sessionMgr.trace
      ensures sessionMgr.trace.requests == old(sessionMgr.trace.requests)
        + [MakeSessionDir(SessionDir(sessionMgr.storagePath, freshId)), RunContainer(environment, ContainerName(freshId))]
      ensures var run := d.run(environment, ContainerName(freshId));
        r == if run.Ok? then Ok(Started(freshId, run.value, "running")) else Raised(run.exc)
    {
      var sessionId := sessionMgr.CreateSession(agentConfig, freshId);
      var containerId := sandboxMgr.StartSandbox(sessionId, environment, d);
      if containerId.Raised? {
        return Raised(containerId.exc);
      }
      r := Ok(Started(sessionId, containerId.value, "running"));
    }

    /** `stop`: the container is stopped before the session is destroyed,
        and the answer is True whatever either reports. */
    method Stop(sessionId: string, containerId: string, d: Docker) returns (ok: bool)
      requires Valid()
      modifies sessionMgr.trace
      ensures ok
      ensures sessionMgr.trace.requests == old(sessionMgr.trace.requests) + [StopContainer(containerId), ForgetSession(sessionId)]
    {
      var _ := sandboxMgr.StopSandbox(containerId, d);
      var _ := sessionMgr.DestroySession(sessionId);
      ok := true;
    }
  }
}
