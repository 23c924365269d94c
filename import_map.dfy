/** The dependency-map script: which files it reads, the module name it
    gives each, the local imports it keeps, the four dependency levels it
    prints, and how often each local module is imported. Parsing the files
    and printing are outside the model: each file comes with the set of
    module names its import statements mention. */
module ImportMap {

  import opened PyText
  import OM = OrderedMaps

  /** A `*.py` file under the project root: `str(f)`, the path relative to
      the root, `f.name`, and the modules its imports name. */
  datatype PyFile = PyFile(path: string, relative: string, name: string, imports: set<string>)

  /** One item of `connections`: a module and its local imports. */
  datatype Entry = Entry(name: string, deps: set<string>)

  /** `filter_local_imports`. */
  function LocalImports(imports: set<string>): (r: set<string>)
    ensures r <= imports
    ensures forall i :: i in imports ==> (i in r <==> StartsWith(i, "orchestrator"))
  {
    set i | i in imports && StartsWith(i, "orchestrator")
  }

  /** The four file filters: dunder files, the virtualenv, the verification
      script and this script itself. */
  predicate Excluded(f: PyFile) {
    StartsWith(f.name, "__") || Contains(f.path, ".venv") || Contains(f.path, "verify") || Contains(f.path, "map_connections")
  }

  /** The files the script reads, in discovery order. */
  function Kept(files: seq<PyFile>): (r: seq<PyFile>)
    ensures |r| <= |files|
    ensures forall f :: f in r <==> f in files && !Excluded(f)
  {
    if files == [] then []
    else (if Excluded(files[0]) then [] else [files[0]]) + Kept(files[1..])
  }

  /** The module name as the script derives it: every "/" becomes "." and
      then every ".py" anywhere in the result is deleted. */
  function ModuleNameAsWritten(relative: string): (m: string)
    ensures |m| <= |relative|
  {
    ReplaceAll(ReplaceChar(relative, '/', '.'), ".py", "")
  }

  /** The module name with only the file's ".py" suffix removed. */
  function ModuleName(relative: string): (m: string)
    ensures |m| == if EndsWithPy(relative) then |relative| - 3 else |relative|
  {
    ReplaceChar(if EndsWithPy(relative) then relative[..|relative| - 3] else relative, '/', '.')
  }

  predicate EndsWithPy(s: string) {
    |s| >= 3 && s[|s| - 3..] == ".py"
  }

  /** The deletion reaches inside names: "a/pyx.py" becomes "ax" rather
      than "a.pyx". */
  lemma ModuleNameDeletesInnerPy()
    ensures ModuleNameAsWritten("a/pyx.py") == "ax"
    ensures ModuleName("a/pyx.py") == "a.pyx"
  {
    DottedInnerPy();
    DeletedInnerPy();
    assert "a/pyx.py"[5..] == ".py";
    assert "a/pyx.py"[..5] == "a/pyx";
    assert ReplaceChar("a/pyx", '/', '.') == "a.pyx";
  }

  lemma DottedInnerPy()
    ensures ReplaceChar("a/pyx.py", '/', '.') == "a.pyx.py"
  {
  }

  lemma DeletedInnerPy()
    ensures ReplaceAll("a.pyx.py", ".py", "") == "ax"
  {
    assert ReplaceAll(".py", ".py", "") == "" by {
      assert ".py"[3..] == "";
    }
    assert ReplaceAll("x.py", ".py", "") == "x" by {
      assert "x.py"[..3] != ".py" by { assert "x.py"[0] == 'x'; }
      assert "x.py"[1..] == ".py";
    }
    assert ReplaceAll(".pyx.py", ".py", "") == "x" by {
      assert ".pyx.py"[..3] == ".py";
      assert ".pyx.py"[3..] == "x.py";
    }
    assert "a.pyx.py"[..3] != ".py" by { assert "a.pyx.py"[0] == 'a'; }
    assert "a.pyx.py"[1..] == ".pyx.py";
  }

  /** The corrected name of `p.py` is `p` with "/" turned into ".". */
  lemma ModuleNameOfSource(p: string)
    ensures ModuleName(p + ".py") == ReplaceChar(p, '/', '.')
  {
    assert (p + ".py")[|p|..] == ".py";
    assert (p + ".py")[..|p|] == p;
  }

  /** The two derivations agree whenever ".py" occurs in the dotted path
      only as its suffix. */
  lemma {:induction false} AsWrittenAgrees(q: string)
    requires !Contains(q, ".py")
    ensures ReplaceAll(q + ".py", ".py", "") == q
    decreases |q|
  {
    if q == "" {
      assert q + ".py" == ".py";
    } else {
      var s := q + ".py";
      assert s[..3] != ".py" by {
        if |q| >= 3 {
          assert s[..3] == q[..3];
          assert !OccursAt(q, ".py", 0);
        } else if |q| == 2 {
          assert s[2] == '.';
        } else {
          assert s[1] == '.';
        }
      }
      assert s[1..] == q[1..] + ".py";
      assert !Contains(q[1..], ".py") by {
        forall i | 0 <= i <= |q[1..]| - 3
          ensures !OccursAt(q[1..], ".py", i)
        {
          assert !OccursAt(q, ".py", i + 1);
          assert q[1..][i..i + 3] == q[i + 1..i + 4];
        }
      }
      AsWrittenAgrees(q[1..]);
    }
  }

  /** Where the dotted stem holds no ".py", the script's name is the
      intended one. */
  lemma AsWrittenIsModuleName(relative: string)
    requires EndsWithPy(relative) && !Contains(ReplaceChar(relative[..|relative| - 3], '/', '.'), ".py")
    ensures ModuleNameAsWritten(relative) == ModuleName(relative)
  {
    var q := ReplaceChar(relative[..|relative| - 3], '/', '.');
    assert ReplaceChar(relative, '/', '.') == q + ".py";
    AsWrittenAgrees(q);
  }

  /** How a path becomes a module name: as the script writes it, or with
      only the ".py" suffix removed. */
  datatype Naming = AsWritten | SuffixOnly

  function NameUnder(naming: Naming, relative: string): string {
    match naming
    case AsWritten => ModuleNameAsWritten(relative)
    case SuffixOnly => ModuleName(relative)
  }

  /** `connections` after the loop over the kept files: each module gets
      the local imports of the last file with that name; an empty name
      without local imports is skipped. */
  function Connected(files: seq<PyFile>, naming: Naming): (m: OM.OrderedMap<string, set<string>>)
    ensures OM.Valid(m)
    ensures forall k :: k in m.items ==> forall d :: d in m.items[k] ==> StartsWith(d, "orchestrator")
  {
    if files == [] then OM.Empty()
    else
      var before := Connected(files[..|files| - 1], naming);
      var f := files[|files| - 1];
      var name := NameUnder(naming, f.relative);
      var local := LocalImports(f.imports);
      if name != "" || local != {} then OM.Put(before, name, local) else before
  }

  /** The connection loop, as the script runs it, with the script's own
      module names. */
  method BuildConnections(files: seq<PyFile>) returns (connections: OM.OrderedMap<string, set<string>>)
    ensures connections == Connected(files, AsWritten)
  {
    connections := OM.Empty();
    for i := 0 to |files|
      invariant connections == Connected(files[..i], AsWritten)
    {
      assert files[..i + 1][..i] == files[..i];
      var moduleName := ModuleNameAsWritten(files[i].relative);
      var localImports := LocalImports(files[i].imports);
      if moduleName != "" || localImports != {} {
        connections := OM.Put(connections, moduleName, localImports);
      }
    }
    assert files[..|files|] == files;
  }

  /** A file's module is listed with that file's local imports unless a
      later file has the same module name. */
  lemma {:induction false} ConnectedLastWins(files: seq<PyFile>, naming: Naming, i: nat)
    requires i < |files| && NameUnder(naming, files[i].relative) != ""
    requires forall j :: i < j < |files| ==> NameUnder(naming, files[j].relative) != NameUnder(naming, files[i].relative)
    ensures var m := Connected(files, naming);
      && NameUnder(naming, files[i].relative) in m.items
      && m.items[NameUnder(naming, files[i].relative)] == LocalImports(files[i].imports)
    decreases |files|
  {
    if i < |files| - 1 {
      var init := files[..|files| - 1];
      assert init[i] == files[i];
      ConnectedLastWins(init, naming, i);
    }
  }

  /** Two files with non-empty names: one entry when the names agree, the
      second file's imports under the second name either way. */
  lemma ConnectedPair(f1: PyFile, f2: PyFile, naming: Naming)
    requires NameUnder(naming, f1.relative) != "" && NameUnder(naming, f2.relative) != ""
    ensures var n1, n2 := NameUnder(naming, f1.relative), NameUnder(naming, f2.relative);
      var m := Connected([f1, f2], naming);
      && m.keys == (if n1 == n2 then [n1] else [n1, n2])
      && n2 in m.items && m.items[n2] == LocalImports(f2.imports)
  {
    assert [f1, f2][..1] == [f1] && [f1][..0] == [];
    var e: OM.OrderedMap<string, set<string>> := OM.Empty();
    assert Connected([f1][..0], naming) == e;
    assert Connected([f1], naming) == OM.Put(e, NameUnder(naming, f1.relative), LocalImports(f1.imports));
  }

  /** "ax.py" is "ax" under either naming. */
  lemma PlainModuleName()
    ensures NameUnder(AsWritten, "ax.py") == "ax" && NameUnder(SuffixOnly, "ax.py") == "ax"
  {
    assert "ax.py"[..2] == "ax" && ReplaceChar("ax", '/', '.') == "ax";
    assert !Contains("ax", ".py");
    AsWrittenIsModuleName("ax.py");
    ModuleNameOfSource("ax");
    assert "ax" + ".py" == "ax.py";
  }

  /** The script's names fold "a/pyx.py" and "ax.py" into the one module
      "ax", so the map keeps a single entry, holding the later file's
      imports; the suffix-only names keep two. */
  lemma AsWrittenFoldsModules(f1: PyFile, f2: PyFile)
    requires f1.relative == "a/pyx.py" && f2.relative == "ax.py"
    ensures Connected([f1, f2], AsWritten).keys == ["ax"]
    ensures Connected([f1, f2], AsWritten).items["ax"] == LocalImports(f2.imports)
    ensures Connected([f1, f2], SuffixOnly).keys == ["a.pyx", "ax"]
  {
    ModuleNameDeletesInnerPy();
    PlainModuleName();
    ConnectedPair(f1, f2, AsWritten);
    ConnectedPair(f1, f2, SuffixOnly);
  }


  /** `connections.items()`, in insertion order. */
  function Items(m: OM.OrderedMap<string, set<string>>): (es: seq<Entry>)
    requires OM.Valid(m)
    ensures |es| == |m.keys|
    ensures forall i :: 0 <= i < |es| ==> es[i] == Entry(m.keys[i], m.items[m.keys[i]])
  {
    seq(|m.keys|, i requires 0 <= i < |m.keys| => Entry(m.keys[i], m.items[m.keys[i]]))
  }

  /** The sort key: the number of local imports. */
  function Key(e: Entry): nat {
    |e.deps|
  }

  ghost predicate Ascending(s: seq<Entry>) {
    forall i, j :: 0 <= i < j < |s| ==> Key(s[i]) <= Key(s[j])
  }

  /** Insertion into an ascending list, before the first entry whose key is
      not smaller: an entry ends up before any later equal-key entry. */
  function Insert(e: Entry, t: seq<Entry>): (r: seq<Entry>)
    ensures multiset(r) == multiset(t) + multiset{e}
  {
    if t == [] || Key(e) <= Key(t[0]) then [e] + t
    else
      assert t == [t[0]] + t[1..];
      [t[0]] + Insert(e, t[1..])
  }

  lemma InsertMembers(e: Entry, t: seq<Entry>)
    ensures forall x :: x in Insert(e, t) ==> x == e || x in t
  {
    forall x | x in Insert(e, t) ensures x == e || x in t {
      assert x in multiset(Insert(e, t));
    }
  }

  lemma ConsAscending(h: Entry, rest: seq<Entry>)
    requires Ascending(rest) && forall x :: x in rest ==> Key(h) <= Key(x)
    ensures Ascending([h] + rest)
  {
    var r := [h] + rest;
    forall i, j | 0 <= i < j < |r| ensures Key(r[i]) <= Key(r[j]) {
      assert r[j] == rest[j - 1];
      if i > 0 {
        assert r[i] == rest[i - 1];
      }
    }
  }

  lemma {:induction false} InsertAscending(e: Entry, t: seq<Entry>)
    requires Ascending(t)
    ensures Ascending(Insert(e, t))
  {
    if t == [] || Key(e) <= Key(t[0]) {
      if t != [] {
        AscendingTail(t);
        assert forall x :: x in t ==> x == t[0] || x in t[1..];
      }
      ConsAscending(e, t);
    } else {
      AscendingTail(t);
      InsertAscending(e, t[1..]);
      InsertMembers(e, t[1..]);
      ConsAscending(t[0], Insert(e, t[1..]));
    }
  }

  /** `sorted(connections.items(), key=lambda x: len(x[1]))`: Python's sort
      is stable, so equal keys keep their order. */
  function SortedByDeps(s: seq<Entry>): (r: seq<Entry>)
    ensures multiset(r) == multiset(s)
    ensures Ascending(r)
  {
    if s == [] then []
    else
      assert s == [s[0]] + s[1..];
      InsertAscending(s[0], SortedByDeps(s[1..]));
      Insert(s[0], SortedByDeps(s[1..]))
  }

  /** The entries with key `c`, in order. */
  function WithKey(s: seq<Entry>, c: nat): seq<Entry> {
    if s == [] then [] else (if Key(s[0]) == c then [s[0]] else []) + WithKey(s[1..], c)
  }

  lemma {:induction false} InsertWithKey(e: Entry, t: seq<Entry>, c: nat)
    ensures WithKey(Insert(e, t), c) == (if Key(e) == c then [e] else []) + WithKey(t, c)
  {
    if t == [] || Key(e) <= Key(t[0]) {
      assert ([e] + t)[1..] == t;
    } else {
      var rest := Insert(e, t[1..]);
      assert ([t[0]] + rest)[1..] == rest;
      InsertWithKey(e, t[1..], c);
    }
  }

  /** Stability: the sort keeps the discovery order among entries with the
      same number of imports. Together with `SortedByDeps`'s own contract
      (a permutation, ascending) this pins the result down completely. */
  lemma {:induction false} SortStable(s: seq<Entry>, c: nat)
    ensures WithKey(SortedByDeps(s), c) == WithKey(s, c)
  {
    if s != [] {
      InsertWithKey(s[0], SortedByDeps(s[1..]), c);
      SortStable(s[1..], c);
    }
  }

  /** The printed level of an entry: 0 without local imports, 1 for one or
      two, 2 for three or four, 3 for five or more. */
  function Band(n: nat): (b: nat)
    ensures b <= 3
    ensures b == 0 <==> n == 0
    ensures b == 1 <==> 1 <= n <= 2
    ensures b == 2 <==> 3 <= n <= 4
    ensures b == 3 <==> n >= 5
  {
    if n == 0 then 0 else if n <= 2 then 1 else if n <= 4 then 2 else 3
  }

  /** `level0` .. `level3`: the sorted entries of one band, in order. */
  function Level(s: seq<Entry>, b: nat): (r: seq<Entry>)
    ensures |r| <= |s|
    ensures forall x :: x in r ==> x in s && Band(Key(x)) == b
  {
    if s == [] then [] else (if Band(Key(s[0])) == b then [s[0]] else []) + Level(s[1..], b)
  }

  lemma {:induction false} LevelEmpty(s: seq<Entry>, b: nat)
    requires forall x :: x in s ==> Band(Key(x)) != b
    ensures Level(s, b) == []
  {
    if s != [] {
      LevelEmpty(s[1..], b);
    }
  }

  lemma AscendingTail(s: seq<Entry>)
    requires Ascending(s) && s != []
    ensures Ascending(s[1..])
    ensures forall x :: x in s[1..] ==> Key(s[0]) <= Key(x)
  {
    var rest := s[1..];
    forall i, j | 0 <= i < j < |rest| ensures Key(rest[i]) <= Key(rest[j]) {
      assert rest[i] == s[i + 1] && rest[j] == s[j + 1];
    }
    forall x | x in rest ensures Key(s[0]) <= Key(x) {
      var j :| 0 <= j < |rest| && rest[j] == x;
      assert s[j + 1] == x;
    }
  }

  /** Below the band of an ascending list's head, the rest has no entry. */
  lemma LevelsBelowHead(s: seq<Entry>, b: nat)
    requires Ascending(s) && s != [] && b < Band(Key(s[0]))
    ensures Level(s, b) == [] && Level(s[1..], b) == []
  {
    AscendingTail(s);
    forall x | x in s[1..] ensures Band(Key(x)) != b {
      assert Key(s[0]) <= Key(x);
    }
    LevelEmpty(s[1..], b);
  }

  /** The four levels printed one after the other. */
  function Levels(s: seq<Entry>): seq<Entry> {
    Level(s, 0) + Level(s, 1) + Level(s, 2) + Level(s, 3)
  }

  lemma LevelHead(x: Entry, rest: seq<Entry>, b: nat)
    ensures Band(Key(x)) == b ==> Level([x] + rest, b) == [x] + Level(rest, b)
    ensures Band(Key(x)) != b ==> Level([x] + rest, b) == Level(rest, b)
  {
    assert ([x] + rest)[0] == x && ([x] + rest)[1..] == rest;
  }

  lemma LevelHeadAll(x: Entry, rest: seq<Entry>)
    ensures Levels([x] + rest) == Level([x] + rest, 0) + Level([x] + rest, 1) + Level([x] + rest, 2) + Level([x] + rest, 3)
    ensures var k := Band(Key(x));
      && Level([x] + rest, k) == [x] + Level(rest, k)
      && forall b: nat :: b != k ==> Level([x] + rest, b) == Level(rest, b)
  {
    forall b: nat ensures Band(Key(x)) != b ==> Level([x] + rest, b) == Level(rest, b) {
      LevelHead(x, rest, b);
    }
    LevelHead(x, rest, Band(Key(x)));
  }

  lemma ConsAppend(x: Entry, a: seq<Entry>, b: seq<Entry>)
    ensures ([x] + a) + b == [x] + (a + b)
  {
  }

  lemma LevelsCons0(x: Entry, rest: seq<Entry>)
    requires Band(Key(x)) == 0
    ensures Levels([x] + rest) == [x] + Levels(rest)
  {
    var l0, l1, l2, l3 := Level(rest, 0), Level(rest, 1), Level(rest, 2), Level(rest, 3);
    LevelHeadAll(x, rest);
    assert Levels([x] + rest) == ([x] + l0) + l1 + l2 + l3;
    ConsAppend(x, l0, l1);
    ConsAppend(x, l0 + l1, l2);
    ConsAppend(x, l0 + l1 + l2, l3);
  }

  lemma LevelsCons1(x: Entry, rest: seq<Entry>)
    requires Band(Key(x)) == 1 && Level(rest, 0) == []
    ensures Levels([x] + rest) == [x] + Levels(rest)
  {
    var l1, l2, l3 := Level(rest, 1), Level(rest, 2), Level(rest, 3);
    LevelHeadAll(x, rest);
    assert [] + ([x] + l1) == [x] + l1 && [] + l1 == l1;
    assert Levels([x] + rest) == ([x] + l1) + l2 + l3;
    assert Levels(rest) == l1 + l2 + l3;
    ConsAppend(x, l1, l2);
    ConsAppend(x, l1 + l2, l3);
  }

  lemma LevelsCons2(x: Entry, rest: seq<Entry>)
    requires Band(Key(x)) == 2 && Level(rest, 0) == [] && Level(rest, 1) == []
    ensures Levels([x] + rest) == [x] + Levels(rest)
  {
    var l2, l3 := Level(rest, 2), Level(rest, 3);
    LevelHeadAll(x, rest);
    assert [] + [] + ([x] + l2) == [x] + l2 && [] + [] + l2 == l2;
    assert Levels([x] + rest) == ([x] + l2) + l3;
    assert Levels(rest) == l2 + l3;
    ConsAppend(x, l2, l3);
  }

  lemma LevelsCons3(x: Entry, rest: seq<Entry>)
    requires Band(Key(x)) == 3 && Level(rest, 0) == [] && Level(rest, 1) == [] && Level(rest, 2) == []
    ensures Levels([x] + rest) == [x] + Levels(rest)
  {
    LevelHeadAll(x, rest);
    assert Levels([x] + rest) == [x] + Level(rest, 3);
    assert Levels(rest) == Level(rest, 3);
  }

  /** On an ascending list the four levels are consecutive blocks: printed
      one after the other they give back the whole sorted list, so every
      module is in exactly one level and each level is ascending. */
  lemma {:induction false} LevelsCover(s: seq<Entry>)
    requires Ascending(s)
    ensures Levels(s) == s
  {
    if s != [] {
      AscendingTail(s);
      LevelsCover(s[1..]);
      var k := Band(Key(s[0]));
      if k > 0 { LevelsBelowHead(s, 0); }
      if k > 1 { LevelsBelowHead(s, 1); }
      if k > 2 { LevelsBelowHead(s, 2); }
      if k == 0 {
        LevelsCons0(s[0], s[1..]);
      } else if k == 1 {
        LevelsCons1(s[0], s[1..]);
      } else if k == 2 {
        LevelsCons2(s[0], s[1..]);
      } else {
        LevelsCons3(s[0], s[1..]);
      }
      assert s == [s[0]] + s[1..];
    }
  }

  /** The levels of the printed map, partitioning the sorted connections. */
  lemma LevelsPartition(m: OM.OrderedMap<string, set<string>>)
    requires OM.Valid(m)
    ensures var sorted := SortedByDeps(Items(m));
      && Levels(sorted) == sorted
      && multiset(sorted) == multiset(Items(m))
  {
    LevelsCover(SortedByDeps(Items(m)));
  }

  /** Every import edge, one occurrence per importing module. */
  function Edges(es: seq<Entry>): (e: multiset<string>)
    ensures |e| == Size(es)
  {
    if es == [] then multiset{}
    else
      SetCard(es[|es| - 1].deps);
      Edges(es[..|es| - 1]) + multiset(es[|es| - 1].deps)
  }

  /** The number of local imports over all modules. */
  function Size(es: seq<Entry>): nat {
    if es == [] then 0 else Size(es[..|es| - 1]) + |es[|es| - 1].deps|
  }

  /** The number of modules importing `d`. */
  function Importers(es: seq<Entry>, d: string): nat {
    if es == [] then 0 else Importers(es[..|es| - 1], d) + (if d in es[|es| - 1].deps then 1 else 0)
  }

  lemma {:induction false} SetCard(s: set<string>)
    ensures |multiset(s)| == |s|
    decreases |s|
  {
    if s != {} {
      var x :| x in s;
      SetCard(s - {x});
      assert multiset(s) == multiset(s - {x}) + multiset{x};
    }
  }

  /** `import_counts[d]` is the number of modules importing `d`. */
  lemma {:induction false} EdgesCount(es: seq<Entry>, d: string)
    ensures Edges(es)[d] == Importers(es, d)
  {
    if es != [] {
      EdgesCount(es[..|es| - 1], d);
    }
  }

  /** `import_counts.get(d, 0)`. */
  function CountOf(counts: map<string, nat>, d: string): nat {
    if d in counts then counts[d] else 0
  }

  /** The inner loop of the count: one more for each dependency of one
      module, visited in whatever order the set gives. */
  method CountDeps(counts0: map<string, nat>, deps: set<string>) returns (counts: map<string, nat>)
    requires forall d :: d in counts0 ==> counts0[d] >= 1
    ensures forall d :: CountOf(counts, d) == CountOf(counts0, d) + multiset(deps)[d]
    ensures forall d :: d in counts ==> counts[d] >= 1
  {
    counts := counts0;
    var rest := deps;
    ghost var done: set<string> := {};
    while rest != {}
      invariant rest + done == deps && rest !! done
      invariant forall d :: CountOf(counts, d) == CountOf(counts0, d) + multiset(done)[d]
      invariant forall d :: d in counts ==> counts[d] >= 1
      decreases |rest|
    {
      var dep :| dep in rest;
      assert multiset(done + {dep}) == multiset(done) + multiset{dep};
      counts := counts[dep := CountOf(counts, dep) + 1];
      rest := rest - {dep};
      done := done + {dep};
    }
  }

  /** The counting loop: for every module, for every dependency (in any
      order), one more for that dependency. The counts are exactly the
      edge multiset, so they add up to the number of import edges. */
  method ImportCounts(es: seq<Entry>) returns (counts: map<string, nat>)
    ensures forall d :: CountOf(counts, d) == Edges(es)[d]
    ensures forall d :: d in counts <==> d in Edges(es)
  {
    counts := map[];
    for i := 0 to |es|
      invariant forall d :: CountOf(counts, d) == Edges(es[..i])[d]
      invariant forall d :: d in counts ==> counts[d] >= 1
    {
      assert es[..i + 1][..i] == es[..i];
      counts := CountDeps(counts, es[i].deps);
    }
    assert es[..|es|] == es;
  }
}
