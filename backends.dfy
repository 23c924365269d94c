/** The local collaborators of `Lifecycle` and `UnifiedSandboxManager`:
    the Docker `SandboxManager`, the directory-making `SessionManager` and
    the `StateManager`. The Docker daemon and the file system are outside
    the model; what the managers ask of them is written to a shared `Trace`,
    so that the order of those requests can be stated. */
module Backends {

  import opened Wrappers

  /** The Docker daemon's answers: `containers.run(image, name=...)` gives
      a container id or raises; stopping (get, stop, remove) succeeds or
      raises, which `stop_sandbox` turns into a bool. */
  datatype Docker = Docker(run: (string, string) -> Outcome<string>, stop: string -> bool)

  /** A request made to the outside world, in the order made. */
  datatype Request =
    | MakeSessionDir(path: string)
    | ForgetSession(sessionId: string)     // `destroy_session`, whose cleanup is still a stub
    | RunContainer(image: string, name: string)
    | StopContainer(containerId: string)

  class Trace {
    var requests: seq<Request>

    constructor ()
      ensures requests == []
    {
      requests := [];
    }
  }

  function ContainerName(sessionId: string): string {
    "sandbox_" + sessionId
  }

  function SessionDir(storagePath: string, sessionId: string): string {
    storagePath + "/sessions/session_" + sessionId
  }

  class SessionManager {
    const storagePath: string
    const trace: Trace

    constructor (storagePath: string, trace: Trace)
      ensures this.storagePath == storagePath && this.trace == trace
    {
      this.storagePath := storagePath;
      this.trace := trace;
    }

    /** `create_session`: a fresh uuid (passed in) and its directory. */
    method CreateSession(agentConfig: map<string, string>, freshId: string) returns (sessionId: string)
      modifies trace
      ensures sessionId == freshId
      ensures trace.requests == old(trace.requests) + [MakeSessionDir(SessionDir(storagePath, freshId))]
    {
      sessionId := freshId;
      trace.requests := trace.requests + [MakeSessionDir(SessionDir(storagePath, sessionId))];
    }

    /** `destroy_session`: removes nothing and always succeeds. */
    method DestroySession(sessionId: string) returns (ok: bool)
      modifies trace
      ensures ok
      ensures trace.requests == old(trace.requests) + [ForgetSession(sessionId)]
    {
      trace.requests := trace.requests + [ForgetSession(sessionId)];
      ok := true;
    }
  }

  class SandboxManager {
    const trace: Trace

    constructor (trace: Trace)
      ensures this.trace == trace
    {
      this.trace := trace;
    }

    /** `start_sandbox`: a detached container named after the session. */
    method StartSandbox(sessionId: string, environment: string, d: Docker) returns (r: Outcome<string>)
      modifies trace
      ensures r == d.run(environment, ContainerName(sessionId))
      ensures trace.requests == old(trace.requests) + [RunContainer(environment, ContainerName(sessionId))]
    {
      trace.requests := trace.requests + [RunContainer(environment, ContainerName(sessionId))];
      r := d.run(environment, ContainerName(sessionId));
    }

    /** `stop_sandbox`: any failure is caught and reported as False. */
    method StopSandbox(containerId: string, d: Docker) returns (stopped: bool)
      modifies trace
      ensures stopped == d.stop(containerId)
      ensures trace.requests == old(trace.requests) + [StopContainer(containerId)]
    {
      trace.requests := trace.requests + [StopContainer(containerId)];
      stopped := d.stop(containerId);
    }
  }

  /** Holds only the runtime path; its file reads and writes are outside
      the model. */
  class StateManager {
    const runtimePath: string

    constructor (runtimePath: string)
      ensures this.runtimePath == runtimePath
    {
      this.runtimePath := runtimePath;
    }
  }
}
