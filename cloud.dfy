/** The sandbox vendor as the code sees it: opaque sandbox handles, the
    shape of an execution, and every SDK call as an oracle that may raise.
    Each operation of the model also reports the vendor calls it made, in
    order, so that "executes once", "writes nothing" and "never touches a
    sandbox" can be stated. */
module Cloud {

  import opened Wrappers

  /** A live vendor sandbox object, known by its id. */
  datatype Handle = Handle(sandboxId: string)

  datatype Logs = Logs(stdout: string, stderr: string)

  /** One rich result of a run; `hasPng` says whether the object has a
      `png` attribute (which may hold `None`). */
  datatype ResultItem = ResultItem(hasPng: bool, png: Option<string>)

  /** What `run_code` returns: logs (possibly absent), the error if the code
      raised (as `str(error)`), rich results and named artifacts. */
  datatype Execution = Execution(logs: Option<Logs>, error: Option<string>, results: seq<ResultItem>, artifacts: seq<string>)

  /** A call made into the vendor SDK. */
  datatype Call =
    | NewSandbox(template: Option<string>)        // `Sandbox(...)`; `None` is the vendor's basic template
    | RunCode(sandbox: Handle, code: string)
    | FileRead(sandbox: Handle, path: string)
    | FileWrite(sandbox: Handle, path: string, content: string)
    | DirList(sandbox: Handle, directory: string)
    | Kill(sandbox: Handle)
    | Close(sandbox: Handle)
    | Hostname(sandbox: Handle)

  /** The vendor's answers. `create` and `run` also receive the attempt
      number under a retry wrapper (0 for the first). */
  datatype Vendor = Vendor(
    create: (Option<string>, nat) -> Outcome<Handle>,
    run: (Handle, string, nat) -> Outcome<Execution>,
    read: (Handle, string) -> Outcome<string>,
    write: (Handle, string, string) -> Outcome<()>,
    list: (Handle, string) -> Outcome<seq<string>>,
    kill: Handle -> Outcome<()>,
    close: Handle -> Outcome<()>,
    hostname: Handle -> Outcome<string>)

  function Repeat<T>(x: T, n: nat): (r: seq<T>)
    ensures |r| == n && forall i :: 0 <= i < n ==> r[i] == x
  {
    seq(n, _ => x)
  }
}
