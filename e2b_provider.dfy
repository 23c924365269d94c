/** `E2BProvider`: the session-id -> sandbox map behind the agent's tools.
    `create_sandbox` and `execute_code` run under `with_retry(max_attempts=2)`. */
module E2B {

  import opened Wrappers
  import opened Cloud
  import opened Retry
  import OM = OrderedMaps

  type Sandboxes = OM.OrderedMap<string, Handle>

  /** The custom template with the data-science packages pre-installed. */
  const DefaultTemplate := "en7sb4k1n268scs49jnj"

  /** `@with_retry(max_attempts=2)` with the decorator's other defaults. */
  const ProviderRetry := Policy(2, true, 1000, 60000, AnyException)

  /** The template `create_sandbox` asks for (`None`: the vendor's basic one). */
  function TemplateFor(template: Option<string>): (t: Option<string>)
    ensures template == Some("default") ==> t == None
    ensures template == None || template == Some("") ==> t == Some(DefaultTemplate)
    ensures template.Some? && template.value != "default" && template.value != "" ==> t == template
  {
    if template == Some("default") then None
    else if template.None? || template.value == "" then Some(DefaultTemplate)
    else template
  }

  /** What one provider operation returns, the map afterwards, and the
      vendor calls it made. */
  datatype Step<T> = Step(result: T, sandboxes: Sandboxes, calls: seq<Call>)

  datatype Artifact = Artifact(kind: string, data: Option<string>)

  /** The dict `execute_code` returns. */
  datatype ExecResult = ExecResult(success: bool, stdout: string, stderr: string, error: Option<string>, artifacts: seq<Artifact>)

  /** One "image/png" artifact per result carrying a `png` attribute, in order. */
  function PngArtifacts(results: seq<ResultItem>): (r: seq<Artifact>)
    ensures |r| <= |results|
  {
    if results == [] then []
    else if results[0].hasPng then [Artifact("image/png", results[0].png)] + PngArtifacts(results[1..])
    else PngArtifacts(results[1..])
  }

  function Shaped(e: Execution): ExecResult {
    ExecResult(e.error.None?,
               if e.logs.Some? then e.logs.value.stdout else "",
               if e.logs.Some? then e.logs.value.stderr else "",
               e.error,
               PngArtifacts(e.results))
  }

  function CreateAttempts(template: Option<string>, v: Vendor): nat -> Outcome<Handle> {
    (k: nat) => v.create(TemplateFor(template), k)
  }

  /** `create_sandbox`: on success the new sandbox replaces any earlier one
      for the session; a failure leaves the map as it was. */
  function CreateStep(sbs: Sandboxes, sessionId: string, template: Option<string>, v: Vendor, jitter: nat -> int): (r: Step<Outcome<string>>)
    requires OM.Valid(sbs) && JitterInRange(jitter)
    ensures OM.Valid(r.sandboxes)
  {
    var run := Attempts(ProviderRetry, CreateAttempts(template, v), jitter);
    var calls := Repeat(NewSandbox(TemplateFor(template)), run.calls);
    if run.result.Ok? then Step(Ok(run.result.value.sandboxId), OM.Put(sbs, sessionId, run.result.value), calls)
    else Step(Raised(run.result.exc), sbs, calls)
  }

  function RunAttempts(sbs: Sandboxes, sessionId: string, code: string, v: Vendor): nat -> Outcome<Execution> {
    (k: nat) => if sessionId in sbs.items then v.run(sbs.items[sessionId], code, k)
         else Raised(Exception(ValueError, "No sandbox found for session " + sessionId))
  }

  /** `execute_code`: the missing-sandbox ValueError is itself retried. */
  function ExecuteStep(sbs: Sandboxes, sessionId: string, code: string, v: Vendor, jitter: nat -> int): Step<Outcome<ExecResult>>
    requires JitterInRange(jitter)
  {
    var run := Attempts(ProviderRetry, RunAttempts(sbs, sessionId, code, v), jitter);
    var calls := if sessionId in sbs.items then Repeat(RunCode(sbs.items[sessionId], code), run.calls) else [];
    Step(if run.result.Ok? then Ok(Shaped(run.result.value)) else Raised(run.result.exc), sbs, calls)
  }

  /** `write_file`: silently does nothing without a sandbox. */
  function WriteStep(sbs: Sandboxes, sessionId: string, path: string, content: string, v: Vendor): Step<Outcome<()>> {
    if sessionId in sbs.items then
      var h := sbs.items[sessionId];
      Step(v.write(h, path, content), sbs, [FileWrite(h, path, content)])
    else Step(Ok(()), sbs, [])
  }

  /** `read_file`: raises ValueError without a sandbox. */
  function ReadStep(sbs: Sandboxes, sessionId: string, path: string, v: Vendor): Step<Outcome<string>> {
    if sessionId in sbs.items then
      var h := sbs.items[sessionId];
      Step(v.read(h, path), sbs, [FileRead(h, path)])
    else Step(Raised(Exception(ValueError, "No sandbox for session " + sessionId)), sbs, [])
  }

  /** `list_files`: the entries' names, or [] without a sandbox. */
  function ListStep(sbs: Sandboxes, sessionId: string, directory: string, v: Vendor): Step<Outcome<seq<string>>> {
    if sessionId in sbs.items then
      var h := sbs.items[sessionId];
      Step(v.list(h, directory), sbs, [DirList(h, directory)])
    else Step(Ok([]), sbs, [])
  }

  /** `close_sandbox`: the entry is popped first, so a failing `kill` (which
      is caught and logged) still removes it. */
  function CloseStep(sbs: Sandboxes, sessionId: string): (r: Step<()>)
    requires OM.Valid(sbs)
    ensures OM.Valid(r.sandboxes)
  {
    if sessionId in sbs.items then Step((), OM.Remove(sbs, sessionId), [Kill(sbs.items[sessionId])])
    else Step((), sbs, [])
  }

  /** `kill` on every sandbox, in the map's order. */
  function KillAll(sbs: Sandboxes): (calls: seq<Call>)
    requires OM.Valid(sbs)
    ensures |calls| == |sbs.keys|
  {
    seq(|sbs.keys|, i requires 0 <= i < |sbs.keys| => Kill(sbs.items[sbs.keys[i]]))
  }

  class E2BProvider {
    var sandboxes: Sandboxes

    ghost predicate Valid()
      reads this
    {
      OM.Valid(sandboxes)
    }

    constructor ()
      ensures Valid() && sandboxes == OM.Empty()
    {
      sandboxes := OM.Empty();
    }

    method CreateSandbox(sessionId: string, template: Option<string>, v: Vendor, jitter: nat -> int)
      returns (r: Outcome<string>, calls: seq<Call>)
      requires Valid() && JitterInRange(jitter)
      modifies this
      ensures Valid()
      ensures Step(r, sandboxes, calls) == CreateStep(old(sandboxes), sessionId, template, v, jitter)
    {
      var outcome, n, _ := WithRetry(ProviderRetry, CreateAttempts(template, v), jitter);
      calls := Repeat(NewSandbox(TemplateFor(template)), n);
      if outcome.Raised? {
        return Raised(outcome.exc), calls;
      }
      sandboxes := OM.Put(sandboxes, sessionId, outcome.value);
      r := Ok(outcome.value.sandboxId);
    }

    function GetSandbox(sessionId: string): (h: Option<Handle>)
      reads this
      ensures h.Some? <==> sessionId in sandboxes.items
      ensures h.Some? ==> h.value == sandboxes.items[sessionId]
    {
      OM.Get(sandboxes, sessionId)
    }

    method ExecuteCode(sessionId: string, code: string, v: Vendor, jitter: nat -> int)
      returns (r: Outcome<ExecResult>, calls: seq<Call>)
      requires JitterInRange(jitter)
      ensures Step(r, sandboxes, calls) == ExecuteStep(sandboxes, sessionId, code, v, jitter)
    {
      var outcome, n, _ := WithRetry(ProviderRetry, RunAttempts(sandboxes, sessionId, code, v), jitter);
      var sandbox := GetSandbox(sessionId);
      calls := if sandbox.Some? then Repeat(RunCode(sandbox.value, code), n) else [];
      if outcome.Raised? {
        return Raised(outcome.exc), calls;
      }
      // shaping cannot raise, so doing it after the retry loop gives the same outcome
      var result := ShapeResult(outcome.value);
      r := Ok(result);
    }

    method WriteFile(sessionId: string, path: string, content: string, v: Vendor)
      returns (r: Outcome<()>, calls: seq<Call>)
      ensures Step(r, sandboxes, calls) == WriteStep(sandboxes, sessionId, path, content, v)
    {
      var sandbox := GetSandbox(sessionId);
      if sandbox.Some? {
        r := v.write(sandbox.value, path, content);
        calls := [FileWrite(sandbox.value, path, content)];
      } else {
        r, calls := Ok(()), [];
      }
    }

    method ReadFile(sessionId: string, path: string, v: Vendor)
      returns (r: Outcome<string>, calls: seq<Call>)
      ensures Step(r, sandboxes, calls) == ReadStep(sandboxes, sessionId, path, v)
    {
      var sandbox := GetSandbox(sessionId);
      if sandbox.Some? {
        return v.read(sandbox.value, path), [FileRead(sandbox.value, path)];
      }
      r, calls := Raised(Exception(ValueError, "No sandbox for session " + sessionId)), [];
    }

    method ListFiles(sessionId: string, directory: string, v: Vendor)
      returns (r: Outcome<seq<string>>, calls: seq<Call>)
      ensures Step(r, sandboxes, calls) == ListStep(sandboxes, sessionId, directory, v)
    {
      var sandbox := GetSandbox(sessionId);
      if sandbox.Some? {
        return v.list(sandbox.value, directory), [DirList(sandbox.value, directory)];
      }
      r, calls := Ok([]), [];
    }

    method CloseSandbox(sessionId: string, v: Vendor) returns (calls: seq<Call>)
      requires Valid()
      modifies this
      ensures Valid()
      ensures Step((), sandboxes, calls) == CloseStep(old(sandboxes), sessionId)
    {
      var sandbox := GetSandbox(sessionId);
      sandboxes := if sandbox.Some? then OM.Remove(sandboxes, sessionId) else sandboxes;
      if sandbox.Some? {
        var _ := v.kill(sandbox.value);  // a failure is only logged
        calls := [Kill(sandbox.value)];
      } else {
        calls := [];
      }
    }

    method CleanupAll(v: Vendor) returns (calls: seq<Call>)
      requires Valid()
      modifies this
      ensures Valid() && sandboxes == OM.Empty()
      ensures calls == KillAll(old(sandboxes))
    {
      var ids := sandboxes.keys;
      ghost var start := sandboxes;
      calls := [];
      for i := 0 to |ids|
        invariant Valid()
        invariant sandboxes.keys == ids[i..]
        invariant forall k :: k in sandboxes.items ==> k in start.items && sandboxes.items[k] == start.items[k]
        invariant calls == KillAll(start)[..i]
      {
        CleanupStep(start, sandboxes, i);
        var more := CloseSandbox(ids[i], v);
        calls := calls + more;
      }
      assert sandboxes.items.Keys == {};
    }
  }

  /** One turn of `cleanup_all`: the next id in the order is the first key
      left, and closing it kills that sandbox and leaves the rest. */
  lemma CleanupStep(start: Sandboxes, before: Sandboxes, i: nat)
    requires OM.Valid(start) && OM.Valid(before) && i < |start.keys| && before.keys == start.keys[i..]
    requires forall k :: k in before.items ==> k in start.items && before.items[k] == start.items[k]
    ensures CloseStep(before, start.keys[i]).sandboxes == OM.OrderedMap(start.keys[i + 1..], before.items - {start.keys[i]})
    ensures CloseStep(before, start.keys[i]).calls == [Kill(start.items[start.keys[i]])]
    ensures KillAll(start)[..i + 1] == KillAll(start)[..i] + [Kill(start.items[start.keys[i]])]
  {
    OM.RemoveFirst(before);
    assert before.keys[1..] == start.keys[i + 1..];
    assert KillAll(start)[..i + 1] == KillAll(start)[..i] + [KillAll(start)[i]];
  }

  /** Builds the artifact list with a loop, as the source does. */
  method ShapeResult(e: Execution) returns (r: ExecResult)
    ensures r == Shaped(e)
  {
    var artifacts: seq<Artifact> := [];
    for i := 0 to |e.results|
      invariant artifacts == PngArtifacts(e.results[..i])
    {
      PngArtifactsAppend(e.results[..i], e.results[i]);
      assert e.results[..i + 1] == e.results[..i] + [e.results[i]];
      if e.results[i].hasPng {
        artifacts := artifacts + [Artifact("image/png", e.results[i].png)];
      }
    }
    assert e.results[..|e.results|] == e.results;
    r := ExecResult(e.error.None?,
                    if e.logs.Some? then e.logs.value.stdout else "",
                    if e.logs.Some? then e.logs.value.stderr else "",
                    e.error, artifacts);
  }

  lemma {:induction false} PngArtifactsAppend(rs: seq<ResultItem>, x: ResultItem)
    ensures PngArtifacts(rs + [x]) == PngArtifacts(rs) + (if x.hasPng then [Artifact("image/png", x.png)] else [])
  {
    if rs == [] {
      assert rs + [x] == [x];
    } else {
      assert (rs + [x])[1..] == rs[1..] + [x];
      PngArtifactsAppend(rs[1..], x);
    }
  }

  /** Every artifact is typed "image/png"; when every result carries a
      `png` attribute there is one artifact per result, holding that
      attribute's value, and when none does there are none. */
  lemma {:induction false} PngArtifactsExact(rs: seq<ResultItem>)
    ensures forall i :: 0 <= i < |PngArtifacts(rs)| ==> PngArtifacts(rs)[i].kind == "image/png"
    ensures (forall i :: 0 <= i < |rs| ==> rs[i].hasPng) ==>
      |PngArtifacts(rs)| == |rs| && forall i :: 0 <= i < |rs| ==> PngArtifacts(rs)[i].data == rs[i].png
    ensures (forall i :: 0 <= i < |rs| ==> !rs[i].hasPng) ==> PngArtifacts(rs) == []
  {
    if rs != [] {
      var tail := rs[1..];
      PngArtifactsExact(tail);
      assert forall i :: 0 <= i < |tail| ==> tail[i] == rs[i + 1];
      var a := PngArtifacts(rs);
      if rs[0].hasPng {
        assert a == [Artifact("image/png", rs[0].png)] + PngArtifacts(tail);
        forall i | 0 <= i < |a| ensures a[i].kind == "image/png" {
          if i > 0 { assert a[i] == PngArtifacts(tail)[i - 1]; }
        }
        if forall i :: 0 <= i < |rs| ==> rs[i].hasPng {
          forall i | 0 <= i < |rs| ensures a[i].data == rs[i].png {
            if i > 0 { assert a[i] == PngArtifacts(tail)[i - 1]; }
          }
        }
      } else {
        assert a == PngArtifacts(tail);
      }
    }
  }

  /** The result dict: `success` exactly when there was no execution error,
      empty output streams when there are no logs. */
  lemma ShapedFields(e: Execution)
    ensures Shaped(e).success <==> e.error.None?
    ensures Shaped(e).error == e.error
    ensures e.logs.None? ==> Shaped(e).stdout == "" && Shaped(e).stderr == ""
    ensures e.logs.Some? ==> Shaped(e).stdout == e.logs.value.stdout && Shaped(e).stderr == e.logs.value.stderr
  {
  }

  /** `create_sandbox` makes one or two vendor calls with the chosen
      template; on success the session maps to the new sandbox, whose id is
      returned, and no other session changes; on failure nothing changes. */
  lemma CreateRecords(sbs: Sandboxes, sessionId: string, template: Option<string>, v: Vendor, jitter: nat -> int)
    requires OM.Valid(sbs) && JitterInRange(jitter)
    ensures var s := CreateStep(sbs, sessionId, template, v, jitter);
      && 1 <= |s.calls| <= 2
      && (forall i :: 0 <= i < |s.calls| ==> s.calls[i] == NewSandbox(TemplateFor(template)))
      && (s.result.Ok? ==> sessionId in s.sandboxes.items && s.sandboxes.items[sessionId].sandboxId == s.result.value
                            && forall k :: k != sessionId ==> OM.Get(s.sandboxes, k) == OM.Get(sbs, k))
      && (s.result.Raised? ==> s.sandboxes == sbs)
  {
    CallsBounded(ProviderRetry, CreateAttempts(template, v), jitter);
  }

  /** Without a sandbox, `execute_code` raises ValueError after two attempts
      and never reaches the vendor. */
  lemma ExecuteWithoutSandbox(sbs: Sandboxes, sessionId: string, code: string, v: Vendor, jitter: nat -> int)
    requires JitterInRange(jitter) && sessionId !in sbs.items
    ensures var s := ExecuteStep(sbs, sessionId, code, v, jitter);
      s.result == Raised(Exception(ValueError, "No sandbox found for session " + sessionId)) && s.calls == []
  {
    LastExceptionReraised(ProviderRetry, RunAttempts(sbs, sessionId, code, v), jitter, 0, None);
  }

  /** With a sandbox whose first run succeeds, the code runs exactly once. */
  lemma ExecuteRunsOnce(sbs: Sandboxes, sessionId: string, code: string, v: Vendor, jitter: nat -> int)
    requires JitterInRange(jitter) && sessionId in sbs.items
    requires v.run(sbs.items[sessionId], code, 0).Ok?
    ensures var s := ExecuteStep(sbs, sessionId, code, v, jitter);
      && s.result == Ok(Shaped(v.run(sbs.items[sessionId], code, 0).value))
      && s.calls == [RunCode(sbs.items[sessionId], code)]
  {
    FirstSuccessReturned(ProviderRetry, RunAttempts(sbs, sessionId, code, v), jitter, 0, 0, None);
  }

  /** The missing-sandbox behaviours: a silent no-op write, a ValueError on
      read, an empty listing; none of them calls the vendor. */
  lemma MissingSandboxFileOps(sbs: Sandboxes, sessionId: string, path: string, content: string, v: Vendor)
    requires sessionId !in sbs.items
    ensures WriteStep(sbs, sessionId, path, content, v) == Step(Ok(()), sbs, [])
    ensures ReadStep(sbs, sessionId, path, v).result.Raised?
    ensures ReadStep(sbs, sessionId, path, v).result.exc.kind == ValueError
    ensures ReadStep(sbs, sessionId, path, v).calls == []
    ensures ListStep(sbs, sessionId, path, v) == Step(Ok([]), sbs, [])
  {
  }

  /** `close_sandbox` removes the session whatever `kill` does, touches no
      other session, and a second close is a no-op. */
  lemma CloseIdempotent(sbs: Sandboxes, sessionId: string)
    requires OM.Valid(sbs)
    ensures var s := CloseStep(sbs, sessionId);
      && sessionId !in s.sandboxes.items
      && (forall k :: k != sessionId ==> OM.Get(s.sandboxes, k) == OM.Get(sbs, k))
      && CloseStep(s.sandboxes, sessionId) == Step((), s.sandboxes, [])
  {
  }
}
