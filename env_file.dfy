/** `load_env` of the custom-template example: the `.env` lines folded into
    the process environment. Reading the file is outside the model: the
    file is given as its lines, or `None` when it does not exist. */
module EnvFile {

  import opened Wrappers
  import opened PyText

  /** What one line of the file asks for. */
  datatype Parse = Skip | Assign(key: string, value: string)

  /** The line, stripped, is skipped when empty, a comment, or without "=";
      otherwise it is split at its first "=". Spaces next to the "=" stay. */
  function ParseLine(line: string): (p: Parse)
    ensures p.Assign? ==> Strip(line) == p.key + "=" + p.value && '=' !in p.key
  {
    var s := Strip(line);
    if s != "" && !StartsWith(s, "#") && '=' in s then
      var j := IndexOf(s, '=').value;
      SplitAround(s, j);
      Assign(s[..j], s[j + 1..])
    else Skip
  }

  lemma SplitAround(s: string, j: nat)
    requires j < |s| && s[j] == '='
    ensures s == s[..j] + "=" + s[j + 1..]
  {
    assert s == s[..j] + [s[j]] + s[j + 1..];
  }

  /** `os.environ[key] = value` on a POSIX system: converting the name or
      the value rejects a NUL character, and `setenv` then rejects an empty
      name with EINVAL. A name holding '=' cannot arise here, since the key
      ends before the line's first '='. */
  function Refusal(key: string, value: string): (e: Option<Exception>)
    ensures e.None? <==> key != "" && '\0' !in key && '\0' !in value
    ensures ('\0' in key || '\0' in value) ==> e.Some? && e.value.kind == ValueError
    ensures key == "" && '\0' !in value ==> e.Some? && e.value.kind == OSError
  {
    if '\0' in key || '\0' in value then Some(Exception(ValueError, "embedded null byte"))
    else if key == "" then Some(Exception(OSError, "[Errno 22] Invalid argument"))
    else None
  }

  /** The outcome of the loop and the environment it leaves. */
  datatype Load = Load(result: Outcome<()>, vars: map<string, string>)

  /** One line's effect: nothing once the load has failed or for a skipped
      line; a refused assignment fails the load, keeping what earlier lines
      set. */
  function Apply(before: Load, p: Parse): (after: Load)
    ensures before.result.Raised? || p.Skip? ==> after == before
    ensures before.result.Ok? && p.Assign? ==>
      if Refusal(p.key, p.value).None? then after == Load(Ok(()), before.vars[p.key := p.value])
      else after == Load(Raised(Refusal(p.key, p.value).value), before.vars)
  {
    if before.result.Raised? then before
    else match p
      case Skip => before
      case Assign(k, v) =>
        match Refusal(k, v)
        case Some(e) => Load(Raised(e), before.vars)
        case None => Load(Ok(()), before.vars[k := v])
  }

  /** The parsed lines applied in order to `env`. */
  function Applied(env: map<string, string>, ps: seq<Parse>): Load {
    if ps == [] then Load(Ok(()), env) else Apply(Applied(env, ps[..|ps| - 1]), ps[|ps| - 1])
  }

  function Parsed(lines: seq<string>): (ps: seq<Parse>)
    ensures |ps| == |lines|
    ensures forall i :: 0 <= i < |lines| ==> ps[i] == ParseLine(lines[i])
  {
    seq(|lines|, i requires 0 <= i < |lines| => ParseLine(lines[i]))
  }

  /** What the loop over the file's lines leaves. */
  function Loaded(env: map<string, string>, lines: seq<string>): Load {
    Applied(env, Parsed(lines))
  }

  lemma LoadedStep(env: map<string, string>, lines: seq<string>, i: nat)
    requires i < |lines|
    ensures Loaded(env, lines[..i + 1]) == Apply(Loaded(env, lines[..i]), ParseLine(lines[i]))
  {
    var ps := Parsed(lines[..i + 1]);
    assert ps[..i] == Parsed(lines[..i]);
  }

  /** A failed load ends the loop: the rest of the file is not applied. */
  lemma LoadedRaised(env: map<string, string>, lines: seq<string>, i: nat)
    requires i <= |lines| && Loaded(env, lines[..i]).result.Raised?
    ensures Loaded(env, lines) == Loaded(env, lines[..i])
  {
    assert Parsed(lines)[..i] == Parsed(lines[..i]);
    RaisedStays(env, Parsed(lines), i);
  }

  /** Which lines `load_env` acts on, in both directions. */
  lemma ParseLineSkips(line: string)
    ensures ParseLine(line) == Skip <==>
      Strip(line) == "" || StartsWith(Strip(line), "#") || '=' !in Strip(line)
  {
    var s := Strip(line);
    if s != "" && !StartsWith(s, "#") && '=' in s {
      assert ParseLine(line).Assign?;
    }
  }

  lemma StripKeeps(s: string)
    requires s != "" && !IsSpace(s[0]) && !IsSpace(s[|s| - 1])
    ensures Strip(s) == s
  {
    assert StripStart(s) == s;
  }

  lemma ParseLineSplits(line: string, j: nat)
    requires Strip(line) != "" && !StartsWith(Strip(line), "#") && IndexOf(Strip(line), '=') == Some(j)
    ensures ParseLine(line) == Assign(Strip(line)[..j], Strip(line)[j + 1..])
  {
  }

  /** The facts about "k = v" that the parse looks at. */
  lemma KeyValueLine(k: string, v: string)
    requires k != "" && !IsSpace(k[0]) && k[0] != '#' && '=' !in k
    requires v != "" && !IsSpace(v[|v| - 1])
    ensures var line := k + " = " + v;
      && Strip(line) == line && !StartsWith(line, "#")
      && IndexOf(line, '=') == Some(|k| + 1)
      && line[..|k| + 1] == k + " " && line[|k| + 2..] == " " + v
  {
    var line := k + " = " + v;
    assert line[0] == k[0] && line[|line| - 1] == v[|v| - 1];
    StripKeeps(line);
    assert line[..1][0] == k[0];
    assert line[..|k| + 1] == k + " " && line[|k| + 1] == '=';
  }

  /** The split is at the first "=" only, and the spaces around it are kept:
      "k = v" sets "k " to " v", whatever "=" signs `v` holds. */
  lemma ParseLineKeepsSpaces(k: string, v: string)
    requires k != "" && !IsSpace(k[0]) && k[0] != '#' && '=' !in k
    requires v != "" && !IsSpace(v[|v| - 1])
    ensures ParseLine(k + " = " + v) == Assign(k + " ", " " + v)
  {
    KeyValueLine(k, v);
    ParseLineSplits(k + " = " + v, |k| + 1);
  }

  /** After a refusal nothing later in the file is applied. */
  lemma {:induction false} RaisedStays(env: map<string, string>, ps: seq<Parse>, i: nat)
    requires i <= |ps| && Applied(env, ps[..i]).result.Raised?
    ensures Applied(env, ps) == Applied(env, ps[..i])
    decreases |ps| - i
  {
    if i < |ps| {
      assert ps[..i + 1][..i] == ps[..i];
      RaisedStays(env, ps, i + 1);
    } else {
      assert ps[..i] == ps;
    }
  }

  /** A line that `os.environ` accepts: skipped, or a permitted assignment. */
  predicate Accepted(p: Parse) {
    p.Skip? || Refusal(p.key, p.value).None?
  }

  /** The loop succeeds exactly when every line is accepted. */
  lemma {:induction false} AppliedOk(env: map<string, string>, ps: seq<Parse>)
    ensures Applied(env, ps).result.Ok? <==> forall i :: 0 <= i < |ps| ==> Accepted(ps[i])
  {
    if ps != [] {
      var init := ps[..|ps| - 1];
      AppliedOk(env, init);
      assert forall i :: 0 <= i < |init| ==> init[i] == ps[i];
    }
  }

  /** The last line for a key wins, when the loop gets through the file. */
  lemma {:induction false} LastLineWins(env: map<string, string>, ps: seq<Parse>, i: nat)
    requires i < |ps| && ps[i].Assign?
    requires forall j :: i < j < |ps| ==> !(ps[j].Assign? && ps[j].key == ps[i].key)
    requires Applied(env, ps).result.Ok?
    ensures ps[i].key in Applied(env, ps).vars && Applied(env, ps).vars[ps[i].key] == ps[i].value
  {
    var init := ps[..|ps| - 1];
    assert Applied(env, init).result.Ok?;
    if i < |ps| - 1 {
      assert init[i] == ps[i];
      LastLineWins(env, init, i);
    }
  }

  /** A key that no line sets keeps its earlier value, or stays unset. */
  lemma {:induction false} UnsetKeyKept(env: map<string, string>, ps: seq<Parse>, k: string)
    requires forall j :: 0 <= j < |ps| ==> !(ps[j].Assign? && ps[j].key == k)
    ensures k in Applied(env, ps).vars <==> k in env
    ensures k in env ==> Applied(env, ps).vars[k] == env[k]
  {
    if ps != [] {
      var init := ps[..|ps| - 1];
      assert forall j :: 0 <= j < |init| ==> init[j] == ps[j];
      UnsetKeyKept(env, init, k);
    }
  }

  /** The process environment, `os.environ`. */
  class Environ {
    var vars: map<string, string>

    constructor (vars: map<string, string>)
      ensures this.vars == vars
    {
      this.vars := vars;
    }

    /** `load_env`: a missing file changes nothing; otherwise each line is
        applied in turn, and a refused assignment ends the load with the
        exception. */
    method LoadEnv(file: Option<seq<string>>) returns (r: Outcome<()>)
      modifies this
      ensures file.None? ==> r == Ok(()) && vars == old(vars)
      ensures file.Some? ==> Load(r, vars) == Loaded(old(vars), file.value)
    {
      if file.None? {
        return Ok(());
      }
      var lines := file.value;
      for i := 0 to |lines|
        invariant Loaded(old(vars), lines[..i]) == Load(Ok(()), vars)
      {
        LoadedStep(old(vars), lines, i);
        var line := Strip(lines[i]);
        if line != "" && !StartsWith(line, "#") && '=' in line {
          var j := IndexOf(line, '=').value;
          var key, value := line[..j], line[j + 1..];
          assert ParseLine(lines[i]) == Assign(key, value);
          var refused := Refusal(key, value);
          if refused.Some? {
            r := Raised(refused.value);
            assert Loaded(old(vars), lines[..i + 1]) == Load(r, vars);
            LoadedRaised(old(vars), lines, i + 1);
            return;
          }
          vars := vars[key := value];
        } else {
          assert ParseLine(lines[i]) == Skip;
        }
      }
      assert lines[..|lines|] == lines;
      r := Ok(());
    }
  }
}
