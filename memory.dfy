/** `MemoryStore` (a key/value cache with per-key deadlines, lazily expired on
    read) and `VectorMemory` (a keyword search over added documents).
    Time is a parameter `now`, in whole seconds; the disk snapshot is modelled
    only through the file-name translation of keys and the restore rule. */
module Memory {

  import opened Wrappers
  import opened PyText
  import OM = OrderedMaps

  /** The store's two dictionaries. A cached value is an `Option` because
      Python may store `None`, which `exists` then reports as absent. */
  datatype Store<V> = Store(cache: OM.OrderedMap<string, Option<V>>, ttl: map<string, int>)

  /** Every deadline belongs to a cached key. */
  ghost predicate StoreValid<V>(s: Store<V>) {
    OM.Valid(s.cache) && s.ttl.Keys <= s.cache.items.Keys
  }

  /** A key whose deadline is strictly before `now`. */
  predicate Expired<V>(s: Store<V>, key: string, now: int) {
    key in s.ttl && now > s.ttl[key]
  }

  /** `delete(key)`: drop the key from both dictionaries. */
  function Deleted<V>(s: Store<V>, key: string): (r: Store<V>)
    requires StoreValid(s)
    ensures StoreValid(r)
    ensures r.cache.items == s.cache.items - {key} && r.ttl == s.ttl - {key}
  {
    Store(OM.Remove(s.cache, key), s.ttl - {key})
  }

  /** `get(key, default)`: the value and the store afterwards. An expired key
      is deleted and the default returned. */
  function Lookup<V>(s: Store<V>, key: string, default: Option<V>, now: int): (r: (Option<V>, Store<V>))
    requires StoreValid(s)
    ensures StoreValid(r.1)
    ensures Expired(s, key, now) ==> r.0 == default && key !in r.1.cache.items && key !in r.1.ttl
    ensures !Expired(s, key, now) ==> r.1 == s
    ensures !Expired(s, key, now) && key in s.cache.items ==> r.0 == s.cache.items[key]
    ensures key !in s.cache.items ==> r.0 == default
  {
    if Expired(s, key, now) then (default, Deleted(s, key))
    else if key in s.cache.items then (s.cache.items[key], s)
    else (default, s)
  }

  /** `set(key, value, ttl_seconds)`: a zero or missing TTL leaves any
      earlier deadline of the key in place. */
  function Assigned<V>(s: Store<V>, key: string, value: Option<V>, ttlSeconds: Option<int>, now: int): (r: Store<V>)
    requires StoreValid(s)
    ensures StoreValid(r)
    ensures r.cache.items == s.cache.items[key := value]
  {
    var ttl := if ttlSeconds.Some? && ttlSeconds.value != 0 then s.ttl[key := now + ttlSeconds.value] else s.ttl;
    Store(OM.Put(s.cache, key, value), ttl)
  }

  /** The keys of `ks` that contain `pattern`, in order. */
  function KeysContaining(ks: seq<string>, pattern: string): (r: seq<string>)
    ensures forall k :: k in r <==> k in ks && Contains(k, pattern)
    ensures |r| <= |ks|
  {
    if ks == [] then []
    else if Contains(ks[0], pattern) then [ks[0]] + KeysContaining(ks[1..], pattern)
    else KeysContaining(ks[1..], pattern)
  }

  /** The filter keeps the order of `ks`: a key appended to the list is
      appended to the result exactly when it contains the pattern. */
  lemma {:induction false} KeysContainingAppend(ks: seq<string>, k: string, pattern: string)
    ensures KeysContaining(ks + [k], pattern) == KeysContaining(ks, pattern) + (if Contains(k, pattern) then [k] else [])
    decreases |ks|
  {
    if ks == [] {
      assert ks + [k] == [k] && [k][1..] == [];
    } else {
      assert (ks + [k])[0] == ks[0];
      assert (ks + [k])[1..] == ks[1..] + [k];
      KeysContainingAppend(ks[1..], k, pattern);
    }
  }

  /** `_safe_key`: the file-name form of a key. */
  function SafeKey(key: string): (r: string)
    ensures |r| == |key|
    ensures ':' !in r && '/' !in r && ' ' !in r
    ensures forall i :: 0 <= i < |key| ==> r[i] == if key[i] in ":/ " then '_' else key[i]
  {
    ReplaceChar(ReplaceChar(ReplaceChar(key, ':', '_'), '/', '_'), ' ', '_')
  }

  /** The key `_load_from_disk` rebuilds from a file stem. */
  function RestoredKey(stem: string): (r: string)
    ensures |r| == |stem| && '_' !in r
    ensures forall i :: 0 <= i < |stem| ==> r[i] == if stem[i] == '_' then ':' else stem[i]
  {
    ReplaceChar(stem, '_', ':')
  }

  /** The translation round-trips exactly for keys without '_', '/' and ' '. */
  lemma RestoredSafeKey(key: string)
    ensures RestoredKey(SafeKey(key)) == key <==> ('_' !in key && '/' !in key && ' ' !in key)
  {
    var r := RestoredKey(SafeKey(key));
    if '_' in key || '/' in key || ' ' in key {
      var i :| 0 <= i < |key| && key[i] in "_/ ";
      assert r[i] == ':' != key[i];
    } else {
      assert forall i :: 0 <= i < |key| ==> r[i] == key[i];
    }
  }

  /** One `*.json` file of the snapshot: its stem and its parsed content,
      or the failure to read or parse it. */
  datatype SnapshotFile<V> = SnapshotFile(stem: string, content: Outcome<Option<V>>)

  /** The cache after loading `files` in order; unreadable files are skipped. */
  function LoadedCache<V>(cache: OM.OrderedMap<string, Option<V>>, files: seq<SnapshotFile<V>>): (r: OM.OrderedMap<string, Option<V>>)
    requires OM.Valid(cache)
    ensures OM.Valid(r)
    ensures cache.items.Keys <= r.items.Keys
    decreases |files|
  {
    if files == [] then cache
    else
      var f := files[0];
      var next := if f.content.Ok? then OM.Put(cache, RestoredKey(f.stem), f.content.value) else cache;
      LoadedCache(next, files[1..])
  }

  /** `f` is a readable snapshot file whose stem restores to `key`. */
  predicate Restores<V>(f: SnapshotFile<V>, key: string) {
    f.content.Ok? && RestoredKey(f.stem) == key
  }

  /** After loading, a key is cached exactly when it was cached before or
      some readable file restores it: unreadable files add nothing. */
  lemma {:induction false} LoadedCacheKeys<V>(cache: OM.OrderedMap<string, Option<V>>, files: seq<SnapshotFile<V>>, key: string)
    requires OM.Valid(cache)
    ensures key in LoadedCache(cache, files).items
      <==> key in cache.items || exists i :: 0 <= i < |files| && Restores(files[i], key)
    decreases |files|
  {
    if files != [] {
      var f := files[0];
      var next := if f.content.Ok? then OM.Put(cache, RestoredKey(f.stem), f.content.value) else cache;
      LoadedCacheKeys(next, files[1..], key);
      if exists i :: 0 <= i < |files[1..]| && Restores(files[1..][i], key) {
        var i :| 0 <= i < |files[1..]| && Restores(files[1..][i], key);
        assert Restores(files[i + 1], key);
      }
      if exists i :: 0 <= i < |files| && Restores(files[i], key) {
        var i :| 0 <= i < |files| && Restores(files[i], key);
        if i > 0 {
          assert Restores(files[1..][i - 1], key);
        }
      }
    }
  }

  /** A key no readable file restores keeps the value it had. */
  lemma {:induction false} LoadedCacheUntouched<V>(cache: OM.OrderedMap<string, Option<V>>, files: seq<SnapshotFile<V>>, key: string)
    requires OM.Valid(cache)
    requires forall j :: 0 <= j < |files| ==> !Restores(files[j], key)
    ensures var r := LoadedCache(cache, files);
      && (key in r.items <==> key in cache.items)
      && (key in cache.items ==> r.items[key] == cache.items[key])
    decreases |files|
  {
    if files != [] {
      var f := files[0];
      var next := if f.content.Ok? then OM.Put(cache, RestoredKey(f.stem), f.content.value) else cache;
      assert !Restores(f, key);
      assert forall j :: 0 <= j < |files[1..]| ==> !Restores(files[1..][j], key) by {
        forall j | 0 <= j < |files[1..]| ensures !Restores(files[1..][j], key) {
          assert files[1..][j] == files[j + 1];
        }
      }
      LoadedCacheUntouched(next, files[1..], key);
    }
  }

  /** The last readable file restoring a key gives its cached value: later
      files overwrite earlier ones. */
  lemma {:induction false} LoadedCacheLastWins<V>(cache: OM.OrderedMap<string, Option<V>>, files: seq<SnapshotFile<V>>, i: nat)
    requires OM.Valid(cache) && i < |files| && files[i].content.Ok?
    requires forall j :: i < j < |files| ==> !Restores(files[j], RestoredKey(files[i].stem))
    ensures var key := RestoredKey(files[i].stem);
      key in LoadedCache(cache, files).items && LoadedCache(cache, files).items[key] == files[i].content.value
    decreases |files|
  {
    var f := files[0];
    var key := RestoredKey(files[i].stem);
    var next := if f.content.Ok? then OM.Put(cache, RestoredKey(f.stem), f.content.value) else cache;
    assert forall j :: i <= j < |files[1..]| ==> !Restores(files[1..][j], key) by {
      forall j | i <= j < |files[1..]| ensures !Restores(files[1..][j], key) {
        assert files[1..][j] == files[j + 1];
      }
    }
    if i == 0 {
      LoadedCacheUntouched(next, files[1..], key);
    } else {
      assert files[1..][i - 1] == files[i];
      LoadedCacheLastWins(next, files[1..], i - 1);
    }
  }

  class MemoryStore<V> {
    var cache: OM.OrderedMap<string, Option<V>>
    var ttl: map<string, int>

    function State(): Store<V>
      reads this
    {
      Store(cache, ttl)
    }

    ghost predicate Valid()
      reads this
    {
      StoreValid(State())
    }

    /** A store opened on a storage directory holding `snapshot`. */
    constructor (snapshot: seq<SnapshotFile<V>>)
      ensures Valid()
      ensures cache == LoadedCache(OM.Empty(), snapshot) && ttl == map[]
    {
      cache := OM.Empty();
      ttl := map[];
      new;
      LoadFromDisk(snapshot);
    }

    /** `_load_from_disk`: each readable file is cached under its restored key;
        no deadline is restored. */
    method LoadFromDisk(files: seq<SnapshotFile<V>>)
      requires Valid()
      modifies this
      ensures Valid()
      ensures cache == LoadedCache(old(cache), files) && ttl == old(ttl)
    {
      var i := 0;
      while i < |files|
        invariant 0 <= i <= |files|
        invariant Valid() && ttl == old(ttl)
        invariant LoadedCache(cache, files[i..]) == LoadedCache(old(cache), files)
      {
        assert files[i..][1..] == files[i + 1..];
        if files[i].content.Ok? {
          cache := OM.Put(cache, RestoredKey(files[i].stem), files[i].content.value);
        }
        i := i + 1;
      }
    }

    /** `get`: an expired key is removed from both dictionaries. */
    method Get(key: string, default: Option<V>, now: int) returns (r: Option<V>)
      requires Valid()
      modifies this
      ensures Valid()
      ensures (r, State()) == Lookup(old(State()), key, default, now)
    {
      if key in ttl && now > ttl[key] {
        Delete(key);
        return default;
      }
      r := if key in cache.items then cache.items[key] else default;
    }

    /** `set`: the value replaces any earlier one; a non-zero TTL sets a new
        deadline, otherwise the earlier deadline (if any) still applies. */
    method Set(key: string, value: Option<V>, ttlSeconds: Option<int>, now: int)
      requires Valid()
      modifies this
      ensures Valid()
      ensures State() == Assigned(old(State()), key, value, ttlSeconds, now)
      ensures ttlSeconds.None? || ttlSeconds == Some(0) ==> ttl == old(ttl)
    {
      cache := OM.Put(cache, key, value);
      if ttlSeconds.Some? && ttlSeconds.value != 0 {
        ttl := ttl[key := now + ttlSeconds.value];
      }
    }

    /** `delete`: removes the key and its deadline, nothing else. */
    method Delete(key: string)
      requires Valid()
      modifies this
      ensures Valid()
      ensures State() == Deleted(old(State()), key)
      ensures forall k :: k != key ==> (k in cache.items <==> k in old(cache.items))
      ensures forall k :: k != key && k in cache.items ==> cache.items[k] == old(cache.items[k])
      ensures key !in old(cache.items) ==> cache.items == old(cache.items) && ttl == old(ttl)
    {
      cache := OM.Remove(cache, key);
      ttl := ttl - {key};
    }

    /** `exists`: true exactly when `get` finds a value that is not `None`. */
    method Exists(key: string, now: int) returns (b: bool)
      requires Valid()
      modifies this
      ensures Valid()
      ensures var (v, s) := Lookup(old(State()), key, None, now); b == v.Some? && State() == s
      ensures b <==> !Expired(old(State()), key, now) && key in old(cache.items) && old(cache.items[key]).Some?
    {
      var v := Get(key, None, now);
      b := v.Some?;
    }

    /** `keys(pattern)`: the cached keys containing the pattern, in insertion
        order, expired ones included; no pattern (or "") gives every key. */
    function Keys(pattern: Option<string>): (r: seq<string>)
      requires Valid()
      reads this
      ensures pattern.None? || pattern == Some("") ==> r == cache.keys
      ensures pattern.Some? && pattern.value != "" ==>
        forall k :: k in r <==> k in cache.items && Contains(k, pattern.value)
    {
      if pattern.None? || pattern.value == "" then cache.keys
      else KeysContaining(cache.keys, pattern.value)
    }

    /** `clear`: both dictionaries are emptied. */
    method Clear()
      requires Valid()
      modifies this
      ensures Valid()
      ensures cache.items == map[] && cache.keys == [] && ttl == map[]
    {
      cache := OM.Empty();
      ttl := map[];
    }
  }

  /** Reading after writing: the value written is returned unless the key's
      deadline (the new one, or the kept old one) has passed. */
  lemma GetAfterSet<V>(s: Store<V>, key: string, value: Option<V>, ttlSeconds: Option<int>, setAt: int, default: Option<V>, now: int)
    requires StoreValid(s)
    ensures var s' := Assigned(s, key, value, ttlSeconds, setAt);
      && (Expired(s', key, now) <==>
            if ttlSeconds.Some? && ttlSeconds.value != 0 then now > setAt + ttlSeconds.value
            else Expired(s, key, now))
      && Lookup(s', key, default, now).0 == if Expired(s', key, now) then default else value
  {
  }

  /** A document of `VectorMemory`. */
  datatype Document = Document(text: string, metadata: map<string, string>, timestamp: int)

  /** The document contains one of the query words, ignoring ASCII case. */
  predicate Matches(d: Document, words: seq<string>) {
    exists w | w in words :: Contains(Lower(d.text), Lower(w))
  }

  /** The documents that match, in their original order. */
  function Matching(docs: seq<Document>, words: seq<string>): (r: seq<Document>)
    ensures |r| <= |docs|
  {
    if docs == [] then []
    else if Matches(docs[0], words) then [docs[0]] + Matching(docs[1..], words)
    else Matching(docs[1..], words)
  }

  /** Exactly the matching documents are kept. */
  lemma {:induction false} MatchingMembers(docs: seq<Document>, words: seq<string>)
    ensures forall d :: d in Matching(docs, words) <==> d in docs && Matches(d, words)
  {
    if docs != [] {
      MatchingMembers(docs[1..], words);
      assert forall d :: d in docs <==> d == docs[0] || d in docs[1..];
    }
  }

  /** Matches of earlier documents come before matches of later ones. */
  lemma {:induction false} MatchingAppend(a: seq<Document>, b: seq<Document>, words: seq<string>)
    ensures Matching(a + b, words) == Matching(a, words) + Matching(b, words)
  {
    if a == [] {
      assert a + b == b;
    } else {
      assert (a + b)[0] == a[0] && (a + b)[1..] == a[1..] + b;
      MatchingAppend(a[1..], b, words);
    }
  }

  /** `search` stops once it holds `limit` results, checked after each
      append, so a limit below 1 still lets one result through. */
  function SearchCap(limit: int): (n: nat)
    ensures n >= 1 && (limit >= 1 ==> n == limit)
  {
    if limit >= 1 then limit else 1
  }

  class VectorMemory {
    var documents: seq<Document>

    constructor ()
      ensures documents == []
    {
      documents := [];
    }

    /** `add`: appends one document; missing metadata becomes `{}`. */
    method Add(text: string, metadata: Option<map<string, string>>, now: int)
      modifies this
      ensures documents == old(documents) + [Document(text, if metadata.Some? then metadata.value else map[], now)]
    {
      documents := documents + [Document(text, if metadata.Some? then metadata.value else map[], now)];
    }

    /** `search`: the first matches, in insertion order, at most `SearchCap(limit)` of them. */
    method Search(query: string, limit: int) returns (results: seq<Document>)
      ensures results == Prefix(Matching(documents, Words(query)), SearchCap(limit))
    {
      var words := Words(query);
      var cap := SearchCap(limit);
      results := [];
      var i := 0;
      while i < |documents|
        invariant 0 <= i <= |documents|
        invariant results == Matching(documents[..i], words)
        invariant |results| < cap
      {
        MatchingAppend(documents[..i], [documents[i]], words);
        assert documents[..i + 1] == documents[..i] + [documents[i]];
        if Matches(documents[i], words) {
          results := results + [documents[i]];
          if |results| >= cap {
            ghost var rest := documents[i + 1..];
            MatchingAppend(documents[..i + 1], rest, words);
            assert documents[..i + 1] + rest == documents;
            assert Matching(documents, words) == results + Matching(rest, words);
            assert Prefix(Matching(documents, words), cap) == results;
            return;
          }
        }
        i := i + 1;
      }
      assert documents[..i] == documents;
    }
  }

  /** What `search` promises: every result matches some query word, there are
      at most `limit` of them when `limit >= 1`, and none for an empty query. */
  lemma SearchResults(docs: seq<Document>, query: string, limit: int)
    ensures var r := Prefix(Matching(docs, Words(query)), SearchCap(limit));
      && (forall d :: d in r ==> d in docs && exists w | w in Words(query) :: Contains(Lower(d.text), Lower(w)))
      && (limit >= 1 ==> |r| <= limit)
      && (Words(query) == [] ==> r == [])
  {
    var m := Matching(docs, Words(query));
    var r := Prefix(m, SearchCap(limit));
    MatchingMembers(docs, Words(query));
    forall d | d in r ensures d in m {
      var i :| 0 <= i < |r| && r[i] == d;
      assert m[i] == d;
    }
    if Words(query) == [] {
      NoWordsNoMatches(docs, Words(query));
    }
  }

  lemma {:induction false} NoWordsNoMatches(docs: seq<Document>, words: seq<string>)
    requires words == []
    ensures Matching(docs, words) == []
  {
    if docs != [] {
      NoWordsNoMatches(docs[1..], words);
    }
  }
}
