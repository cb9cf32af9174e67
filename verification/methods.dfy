/**
  The namespaced mock store of src/methods.js: a cache of namespaces, each a
  map from key to a canonical mock descriptor, with the ordered resolver that
  tries the step name, the query, the prepared SQL and the procedure name,
  and removes a fire-once mock when it is hit.

  The specification functions below work on the cache as a value; the class
  `MockStore` holds the cache and the configuration as fields and its methods
  are proved to move the state exactly as those functions say.
 */
module Methods {
  import opened Values

  /** The default namespace. */
  const Root := "root"
  /** The namespace of mocks keyed by resolved SQL file paths. */
  const FileNamespace := "file"
  /** The marker of a file reference. */
  const FilePrefix := "file://"
  /** The host's internal step name for a whole operation's result; it can
      never be looked up as a mock. */
  const ResultKey := "__result__"

  /** The canonical stored mock. */
  datatype Descriptor = Descriptor(mockResults: Producer, isError: Value, once: Value, waitTime: Value)

  type Namespace = map<string, Descriptor>
  type Cache = map<string, Namespace>

  /** The outcome of a lookup that may remove what it finds: the mock found,
      and the cache afterwards. */
  datatype Found = Found(mock: Option<Descriptor>, cache: Cache)

  // ---------------------------------------------------------------------------
  // Keys and namespaces

  /** `getCacheKey(options)`: `cacheKey` is `options.cacheKey`, `None` when
      `options` or its `cacheKey` is missing. */
  function CacheKey(cacheKey: Option<string>): (ns: string)
    ensures ns != ""
    ensures Present(cacheKey) ==> ns == cacheKey.value
    ensures !Present(cacheKey) ==> ns == Root
  {
    if Present(cacheKey) then cacheKey.value else Root
  }

  /** `isFileMock(str)`: `str.slice(0, 7) === "file://"`. */
  function IsFileMock(s: string): (b: bool)
    ensures b <==> FilePrefix <= s
  {
    (if |s| < 7 then s else s[..7]) == FilePrefix
  }

  /** `getFileMockKey(str)`: `str.slice(7)`. */
  function FileMockKey(s: string): (key: string)
    ensures IsFileMock(s) ==> FilePrefix + key == s
    ensures |key| == if |s| < 7 then 0 else |s| - 7
  {
    if |s| < 7 then "" else s[7..]
  }

  /** Adding the marker and stripping it again gives back the path. */
  lemma FileKeyRoundTrip(path: string)
    ensures IsFileMock(FilePrefix + path)
    ensures FileMockKey(FilePrefix + path) == path
  {
  }

  // ---------------------------------------------------------------------------
  // Normalisation

  /** The descriptor `addMock` stores for the raw `mock`: a function, a plain
      object (a descriptor, possibly partial), or any other literal. */
  function Normalize(mock: Value): (d: Descriptor)
    // the stored producer returns what the caller's mockResults would:
    // the function's result for a function, the value itself otherwise
    ensures forall stepName, options, callbacks
              {:trigger Invoke(d.mockResults, stepName, options, callbacks)} ::
              Invoke(d.mockResults, stepName, options, callbacks) ==
                if mock.Record? then Produced(Prop(mock.fields, "mockResults"), stepName, options, callbacks)
                else Produced(mock, stepName, options, callbacks)
    // the defaults stand unless a plain object sets the field
    ensures !mock.Record? ==> d.isError == Bool(false) && d.once == Bool(false) && d.waitTime == Num(0)
    ensures mock.Record? && "isError" in mock.fields && !mock.fields["isError"].Undefined? ==>
              d.isError == mock.fields["isError"]
    ensures mock.Record? && "once" in mock.fields && !mock.fields["once"].Undefined? ==>
              d.once == mock.fields["once"]
    ensures mock.Record? && "waitTime" in mock.fields && !mock.fields["waitTime"].Undefined? ==>
              d.waitTime == mock.fields["waitTime"]
    ensures mock.Record? && Prop(mock.fields, "isError").Undefined? ==> d.isError == Bool(false)
    ensures mock.Record? && Prop(mock.fields, "once").Undefined? ==> d.once == Bool(false)
    ensures mock.Record? && Prop(mock.fields, "waitTime").Undefined? ==> d.waitTime == Num(0)
  {
    match mock
    case Fn(id) =>
      Descriptor(Callback(id), Bool(false), Bool(false), Num(0))
    case Record(fields) =>
      Descriptor(AsProducer(Prop(fields, "mockResults")),
                 Merged(Bool(false), fields, "isError"),
                 Merged(Bool(false), fields, "once"),
                 Merged(Num(0), fields, "waitTime"))
    case _ =>
      Descriptor(Const(mock), Bool(false), Bool(false), Num(0))
  }

  // ---------------------------------------------------------------------------
  // The cache as a value

  /** The namespace `ns`, or the empty object `addMock` would create. */
  function NamespaceOf(cache: Cache, ns: string): Namespace {
    if ns in cache then cache[ns] else map[]
  }

  /** `getMock(key, {cacheKey: ns})`. */
  function Lookup(cache: Cache, ns: string, key: string): (r: Option<Descriptor>)
    ensures r.Some? <==> ns in cache && key in cache[ns] && key != ResultKey
    ensures r.Some? ==> r.value == cache[ns][key]
  {
    if ns !in cache then None
    else if key == ResultKey then None
    else if key in cache[ns] then Some(cache[ns][key])
    else None
  }

  /** `getFileMock(key)`: only a file reference is looked up, with its marker
      stripped, in the file namespace. */
  function LookupFile(cache: Cache, key: string): (r: Option<Descriptor>)
    ensures !(FilePrefix <= key) ==> r.None?
    ensures FilePrefix <= key ==> r == Lookup(cache, FileNamespace, key[|FilePrefix|..])
  {
    if !IsFileMock(key) then None
    else Lookup(cache, FileNamespace, FileMockKey(key))
  }

  /** The cache after storing `d` under `(ns, key)`, creating `ns` if needed. */
  function Added(cache: Cache, ns: string, key: string, d: Descriptor): (r: Cache)
    ensures r.Keys == cache.Keys + {ns}
    ensures r[ns].Keys == NamespaceOf(cache, ns).Keys + {key} && r[ns][key] == d
    ensures forall k :: k in NamespaceOf(cache, ns) && k != key ==> r[ns][k] == cache[ns][k]
    ensures forall n :: n in cache && n != ns ==> r[n] == cache[n]
  {
    cache[ns := NamespaceOf(cache, ns)[key := d]]
  }

  /** The cache after `delete cache[ns][key]`; a missing key is a no-op. */
  function Without(cache: Cache, ns: string, key: string): (r: Cache)
    requires ns in cache
    ensures r.Keys == cache.Keys
    ensures r[ns].Keys == cache[ns].Keys - {key}
    ensures forall k :: k in r[ns] ==> r[ns][k] == cache[ns][k]
    ensures forall n :: n in cache && n != ns ==> r[n] == cache[n]
    ensures key !in cache[ns] ==> r == cache
  {
    if key in cache[ns] then cache[ns := cache[ns] - {key}] else cache
  }

  /** `r` is `cache` with at most some entries removed. */
  ghost predicate Shrunk(r: Cache, cache: Cache) {
    && r.Keys == cache.Keys
    && forall n :: n in r ==>
         && n in cache
         && r[n].Keys <= cache[n].Keys
         && forall k :: k in r[n] ==> r[n][k] == cache[n][k]
  }

  // ---------------------------------------------------------------------------
  // Resolution

  /** `findMockForKey(key)`: the root namespace first, the file namespace only
      on a root miss; a hit whose `once` is truthy is cleared. On a file hit
      the clearing is given the still-prefixed key, so it removes nothing that
      the lookup used. */
  function Find(cache: Cache, key: string): (r: Found)
    ensures Lookup(cache, Root, key).Some? ==> r.mock == Lookup(cache, Root, key)
    ensures Lookup(cache, Root, key).None? ==> r.mock == LookupFile(cache, key)
    ensures r.mock.None? || !Truthy(r.mock.value.once) ==> r.cache == cache
    ensures Shrunk(r.cache, cache)
    // a fire-once root mock is gone afterwards
    ensures Lookup(cache, Root, key).Some? && Truthy(r.mock.value.once) ==>
              Lookup(r.cache, Root, key).None? && r.cache == Without(cache, Root, key)
    // a file mock is still there afterwards, fire-once or not
    ensures Lookup(cache, Root, key).None? && r.mock.Some? ==> LookupFile(r.cache, key) == r.mock
    // the clearing after a fire-once file hit removes the prefixed key, and nothing else
    ensures Lookup(cache, Root, key).None? && r.mock.Some? && Truthy(r.mock.value.once) ==>
              FileNamespace in cache && r.cache == Without(cache, FileNamespace, key)
  {
    var mock := Lookup(cache, Root, key);
    if mock.Some? then
      Found(mock, if Truthy(mock.value.once) then Without(cache, Root, key) else cache)
    else
      var file := LookupFile(cache, key);
      Found(file, if file.Some? && Truthy(file.value.once) then Without(cache, FileNamespace, key) else cache)
  }

  /** The keys `resolveMock` tries, in order: the step name, then the query,
      the prepared SQL and the procedure name when each is truthy. */
  function Candidates(stepName: string, options: Options): (keys: seq<string>)
    // the step name first, then one slot per truthy option, in the order
    // query, prepared SQL, procedure name
    ensures |keys| == 1 + (if Present(options.query) then 1 else 0)
                        + (if Present(options.preparedSql) then 1 else 0)
                        + (if Present(options.procedure) then 1 else 0)
    ensures keys[0] == stepName
    ensures Present(options.query) ==> keys[1] == options.query.value
    ensures Present(options.preparedSql) ==>
              keys[|keys| - 1 - (if Present(options.procedure) then 1 else 0)] == options.preparedSql.value
    ensures Present(options.procedure) ==> keys[|keys| - 1] == options.procedure.value
    ensures forall i :: 1 <= i < |keys| ==> keys[i] != ""
  {
    [stepName] + OptionKey(options.query) + OptionKey(options.preparedSql) + OptionKey(options.procedure)
  }

  /** The one-element key list of a truthy option, empty otherwise. */
  function OptionKey(o: Option<string>): seq<string> {
    if Present(o) then [o.value] else []
  }

  /** Try `keys` in order with `Find`, stopping at the first hit. */
  function FirstHit(cache: Cache, keys: seq<string>): Found
    decreases |keys|
  {
    if keys == [] then Found(None, cache)
    else
      var f := Find(cache, keys[0]);
      if f.mock.Some? then f else FirstHit(f.cache, keys[1..])
  }

  /** One step of the ordered search. */
  lemma FirstHitCons(cache: Cache, key: string, rest: seq<string>)
    ensures FirstHit(cache, [key] + rest) ==
              if Find(cache, key).mock.Some? then Find(cache, key) else FirstHit(cache, rest)
  {
  }

  /** `resolveMock(stepName, options)`. */
  function Resolve(cache: Cache, stepName: string, options: Options): Found {
    FirstHit(cache, Candidates(stepName, options))
  }

  /** The first `n` keys of `keys` all miss in `cache`. */
  ghost predicate MissBefore(cache: Cache, keys: seq<string>, n: nat)
    requires n <= |keys|
  {
    forall j :: 0 <= j < n ==> Find(cache, keys[j]).mock.None?
  }

  /** The ordered search returns the first key that hits, as that key's own
      lookup would, and leaves the cache alone when every key misses. */
  lemma {:induction false} FirstHitIsFirstMatch(cache: Cache, keys: seq<string>)
    ensures FirstHit(cache, keys).mock.None? <==> MissBefore(cache, keys, |keys|)
    ensures MissBefore(cache, keys, |keys|) ==> FirstHit(cache, keys).cache == cache
    ensures forall i :: 0 <= i < |keys| && MissBefore(cache, keys, i) && Find(cache, keys[i]).mock.Some? ==>
              FirstHit(cache, keys) == Find(cache, keys[i])
  {
    if keys != [] {
      var f := Find(cache, keys[0]);
      var rest := keys[1..];
      if f.mock.None? {
        FirstHitIsFirstMatch(cache, rest);
        forall i | 0 < i <= |keys| && MissBefore(cache, keys, i)
          ensures MissBefore(cache, rest, i - 1)
        {
          forall j | 0 <= j < i - 1 ensures Find(cache, rest[j]).mock.None? {
            assert rest[j] == keys[j + 1];
          }
        }
        forall i | 0 < i <= |keys| && MissBefore(cache, rest, i - 1)
          ensures MissBefore(cache, keys, i)
        {
          forall j | 0 <= j < i ensures Find(cache, keys[j]).mock.None? {
            if j > 0 { assert keys[j] == rest[j - 1]; }
          }
        }
        forall i | 0 < i < |keys| ensures keys[i] == rest[i - 1] { }
      } else {
        assert forall i :: 0 < i <= |keys| ==> !MissBefore(cache, keys, i);
      }
    }
  }

  /** A mock registered under the step name wins over every option. */
  lemma StepNameWins(cache: Cache, stepName: string, options: Options)
    requires Find(cache, stepName).mock.Some?
    ensures Resolve(cache, stepName, options) == Find(cache, stepName)
  {
  }

  /** With no step-name mock, a truthy query that hits is used. */
  lemma QueryFallback(cache: Cache, stepName: string, options: Options)
    requires Find(cache, stepName).mock.None?
    requires Present(options.query) && Find(cache, options.query.value).mock.Some?
    ensures Resolve(cache, stepName, options) == Find(cache, options.query.value)
  {
    var keys := Candidates(stepName, options);
    assert keys[1] == options.query.value;
    FirstHitIsFirstMatch(cache, keys);
    assert MissBefore(cache, keys, 1);
  }

  /** With no step-name mock and no hit for a truthy query, a truthy prepared
      SQL text that hits is used. */
  lemma PreparedSqlFallback(cache: Cache, stepName: string, options: Options)
    requires Find(cache, stepName).mock.None?
    requires Present(options.query) ==> Find(cache, options.query.value).mock.None?
    requires Present(options.preparedSql) && Find(cache, options.preparedSql.value).mock.Some?
    ensures Resolve(cache, stepName, options) == Find(cache, options.preparedSql.value)
  {
    var keys := Candidates(stepName, options);
    var i := if Present(options.query) then 2 else 1;
    assert keys[i] == options.preparedSql.value;
    FirstHitIsFirstMatch(cache, keys);
    assert MissBefore(cache, keys, i);
  }

  /** With no hit for the step name, a truthy query or a truthy prepared SQL
      text, a truthy procedure name that hits is used. */
  lemma ProcedureFallback(cache: Cache, stepName: string, options: Options)
    requires Find(cache, stepName).mock.None?
    requires Present(options.query) ==> Find(cache, options.query.value).mock.None?
    requires Present(options.preparedSql) ==> Find(cache, options.preparedSql.value).mock.None?
    requires Present(options.procedure) && Find(cache, options.procedure.value).mock.Some?
    ensures Resolve(cache, stepName, options) == Find(cache, options.procedure.value)
  {
    var keys := Candidates(stepName, options);
    var i := |keys| - 1;
    FirstHitIsFirstMatch(cache, keys);
    assert MissBefore(cache, keys, i);
  }

  /** Resolution finds nothing exactly when every truthy candidate misses,
      and then the cache is unchanged. */
  lemma ResolveMisses(cache: Cache, stepName: string, options: Options)
    ensures Resolve(cache, stepName, options).mock.None? <==>
              && Find(cache, stepName).mock.None?
              && (Present(options.query) ==> Find(cache, options.query.value).mock.None?)
              && (Present(options.preparedSql) ==> Find(cache, options.preparedSql.value).mock.None?)
              && (Present(options.procedure) ==> Find(cache, options.procedure.value).mock.None?)
    ensures Resolve(cache, stepName, options).mock.None? ==> Resolve(cache, stepName, options).cache == cache
  {
    var keys := Candidates(stepName, options);
    FirstHitIsFirstMatch(cache, keys);
    var q := if Present(options.query) then [options.query.value] else [];
    var p := if Present(options.preparedSql) then [options.preparedSql.value] else [];
    var c := if Present(options.procedure) then [options.procedure.value] else [];
    assert keys == [stepName] + q + p + c;
    if MissBefore(cache, keys, |keys|) {
      assert keys[0] == stepName;
      if Present(options.query) { assert keys[1] == options.query.value; }
      if Present(options.preparedSql) { assert keys[1 + |q|] == options.preparedSql.value; }
      if Present(options.procedure) { assert keys[1 + |q| + |p|] == options.procedure.value; }
    }
  }

  /** A fire-once root mock is served by one resolution and then gone from
      the root namespace. */
  lemma OnceRootMockServedOnce(cache: Cache, stepName: string, options: Options, d: Descriptor)
    requires Lookup(cache, Root, stepName) == Some(d) && Truthy(d.once)
    ensures Resolve(cache, stepName, options).mock == Some(d)
    ensures Lookup(Resolve(cache, stepName, options).cache, Root, stepName).None?
  {
  }

  /** A file mock stored under an absolute path is found through the file
      reference to that path when the root namespace does not shadow it. */
  lemma FileMockFoundByReference(cache: Cache, absPath: string, mock: Value)
    requires absPath != ResultKey
    requires Lookup(cache, Root, FilePrefix + absPath).None?
    ensures Find(Added(cache, FileNamespace, absPath, Normalize(mock)), FilePrefix + absPath).mock ==
              Some(Normalize(mock))
  {
    FileKeyRoundTrip(absPath);
  }

  /** As written, a fire-once file mock is served again: the second lookup
      through the same file reference returns it once more. */
  lemma FileOnceMockServedAgain(cache: Cache, path: string, d: Descriptor)
    requires Lookup(cache, Root, FilePrefix + path).None?
    requires Lookup(cache, FileNamespace, path) == Some(d) && Truthy(d.once)
    ensures Find(cache, FilePrefix + path).mock == Some(d)
    ensures Find(Find(cache, FilePrefix + path).cache, FilePrefix + path).mock == Some(d)
  {
    FileKeyRoundTrip(path);
  }

  /** `findMockForKey` as evidently intended: a fire-once file mock is removed
      under the path it was stored at. */
  function FindIntended(cache: Cache, key: string): (r: Found)
    ensures r.mock == Find(cache, key).mock
    ensures Shrunk(r.cache, cache)
    ensures r.mock.None? || !Truthy(r.mock.value.once) ==> r.cache == cache
    ensures Lookup(cache, Root, key).Some? && Truthy(r.mock.value.once) ==>
              Lookup(r.cache, Root, key).None? && r.cache == Without(cache, Root, key)
    ensures Lookup(cache, Root, key).None? && r.mock.Some? && Truthy(r.mock.value.once) ==>
              LookupFile(r.cache, key).None? &&
              FileNamespace in cache && r.cache == Without(cache, FileNamespace, FileMockKey(key))
  {
    var mock := Lookup(cache, Root, key);
    if mock.Some? then
      Found(mock, if Truthy(mock.value.once) then Without(cache, Root, key) else cache)
    else
      var file := LookupFile(cache, key);
      Found(file, if file.Some? && Truthy(file.value.once) then Without(cache, FileNamespace, FileMockKey(key)) else cache)
  }

  // ---------------------------------------------------------------------------
  // Registration followed by lookup

  /** What `addMock(key, mock, options)` stores is what `getMock(key, options)`
      returns, except under the reserved key, and invoking it reproduces the
      value given (or calls the function given). */
  lemma AddThenGet(cache: Cache, key: string, mock: Value, cacheKey: Option<string>,
                   stepName: string, options: Options, callbacks: (nat, string, Options) -> Value)
    requires key != ResultKey
    ensures Lookup(Added(cache, CacheKey(cacheKey), key, Normalize(mock)), CacheKey(cacheKey), key) ==
              Some(Normalize(mock))
    ensures !mock.Record? ==>
              Invoke(Normalize(mock).mockResults, stepName, options, callbacks) ==
                Produced(mock, stepName, options, callbacks)
  {
  }

  /** Registering under the reserved key never makes it retrievable. */
  lemma ResultKeyHidden(cache: Cache, ns: string, mock: Value)
    ensures Lookup(Added(cache, ns, ResultKey, Normalize(mock)), ns, ResultKey).None?
  {
  }

  // ---------------------------------------------------------------------------
  // The store object

  /** The `sql` object's mock state: `mockCache` and `mockConfig`. */
  class MockStore {
    var mockCache: Cache
    var mockConfig: map<string, Value>

    /** A store with no mocks and the given configuration. */
    constructor (config: map<string, Value>)
      ensures mockCache == map[] && mockConfig == config
    {
      mockCache := map[];
      mockConfig := config;
    }

    /** `addMock(key, mock, options)`. */
    method AddMock(key: string, mock: Value, cacheKey: Option<string>)
      modifies this
      ensures mockCache == Added(old(mockCache), CacheKey(cacheKey), key, Normalize(mock))
      ensures mockConfig == old(mockConfig)
    {
      var ns := CacheKey(cacheKey);
      if ns !in mockCache {
        mockCache := mockCache[ns := map[]];
      }
      var realMock := Normalize(mock);
      mockCache := mockCache[ns := mockCache[ns][key := realMock]];
    }

    /** `addFileMock(filePath, mock)`; `resolve` stands for `path.resolve`. */
    method AddFileMock(filePath: string, mock: Value, resolve: (Value, string) -> string)
      modifies this
      ensures mockCache ==
                Added(old(mockCache), FileNamespace,
                      resolve(Prop(old(mockConfig), "sqlFileBasePath"), filePath), Normalize(mock))
      ensures mockConfig == old(mockConfig)
    {
      var base := GetMockConfig("sqlFileBasePath");
      var absPath := resolve(base, filePath);
      AddMock(absPath, mock, Some(FileNamespace));
    }

    /** `getMock(key, options)`. */
    method GetMock(key: string, cacheKey: Option<string>) returns (mock: Option<Descriptor>)
      ensures mock == Lookup(mockCache, CacheKey(cacheKey), key)
    {
      var ns := CacheKey(cacheKey);
      if ns !in mockCache {
        return None;
      }
      if key == ResultKey || key !in mockCache[ns] {
        mock := None;
      } else {
        mock := Some(mockCache[ns][key]);
      }
    }

    /** `getFileMock(key)`. */
    method GetFileMock(key: string) returns (mock: Option<Descriptor>)
      ensures mock == LookupFile(mockCache, key)
    {
      if !IsFileMock(key) {
        return None;
      }
      mock := GetMock(FileMockKey(key), Some(FileNamespace));
    }

    /** `clearFileMock(key)`. */
    method ClearFileMock(key: string) returns (c: Completion)
      modifies this
      ensures FileNamespace !in old(mockCache) ==> c == ThrewTypeError && mockCache == old(mockCache)
      ensures FileNamespace in old(mockCache) ==>
                c == Returned && mockCache == Without(old(mockCache), FileNamespace, key)
      ensures mockConfig == old(mockConfig)
    {
      c := ClearMock(Some(key), Some(FileNamespace));
    }

    /** `clearMock(key, options)`; `key` is `None` when called with no
        arguments. Removing a key from a namespace that does not exist throws,
        as the property access on `undefined` does. */
    method ClearMock(key: Option<string>, cacheKey: Option<string>) returns (c: Completion)
      modifies this
      ensures key.None? ==> c == Returned && mockCache == map[]
      ensures key.Some? && CacheKey(cacheKey) !in old(mockCache) ==>
                c == ThrewTypeError && mockCache == old(mockCache)
      ensures key.Some? && CacheKey(cacheKey) in old(mockCache) ==>
                c == Returned && mockCache == Without(old(mockCache), CacheKey(cacheKey), key.value)
      ensures mockConfig == old(mockConfig)
    {
      var ns := CacheKey(cacheKey);
      if key.None? {
        mockCache := map[];
        return Returned;
      }
      if ns !in mockCache {
        return ThrewTypeError;
      }
      if key.value in mockCache[ns] {
        mockCache := mockCache[ns := mockCache[ns] - {key.value}];
      }
      c := Returned;
    }

    /** `findMockForKey(key)`. */
    method FindMockForKey(key: string) returns (mock: Option<Descriptor>)
      modifies this
      ensures Found(mock, mockCache) == Find(old(mockCache), key)
      ensures mockConfig == old(mockConfig)
    {
      mock := GetMock(key, None);
      if mock.Some? {
        if Truthy(mock.value.once) {
          var _ := ClearMock(Some(key), None);
        }
        return;
      } else {
        mock := GetFileMock(key);
        if mock.Some? && Truthy(mock.value.once) {
          var _ := ClearFileMock(key);
        }
      }
    }

    /** `resolveMock(stepName, options)`. */
    method ResolveMock(stepName: string, options: Options) returns (mock: Option<Descriptor>)
      modifies this
      ensures Found(mock, mockCache) == Resolve(old(mockCache), stepName, options)
      ensures mockConfig == old(mockConfig)
    {
      ghost var cache := mockCache;
      ghost var q, p, c := OptionKey(options.query), OptionKey(options.preparedSql), OptionKey(options.procedure);
      assert Candidates(stepName, options) == [stepName] + (q + p + c);
      FirstHitCons(cache, stepName, q + p + c);
      mock := FindMockForKey(stepName);
      if mock.Some? {
        return;
      }
      assert mockCache == cache;
      if Present(options.query) {
        assert q + p + c == [options.query.value] + (p + c);
        FirstHitCons(cache, options.query.value, p + c);
        mock := FindMockForKey(options.query.value);
        if mock.Some? {
          return;
        }
      }
      assert mockCache == cache && Resolve(cache, stepName, options) == FirstHit(cache, p + c);
      if Present(options.preparedSql) {
        assert p + c == [options.preparedSql.value] + c;
        FirstHitCons(cache, options.preparedSql.value, c);
        mock := FindMockForKey(options.preparedSql.value);
        if mock.Some? {
          return;
        }
      }
      assert mockCache == cache && Resolve(cache, stepName, options) == FirstHit(cache, c);
      if Present(options.procedure) {
        FirstHitCons(cache, options.procedure.value, []);
        mock := FindMockForKey(options.procedure.value);
        if mock.Some? {
          return;
        }
      }
    }

    /** `setMockConfig(config)`: the keys of `config` are overwritten, the
        others kept. */
    method SetMockConfig(config: map<string, Value>)
      modifies this
      ensures forall k :: k in config ==> k in mockConfig && mockConfig[k] == config[k]
      ensures forall k :: k in old(mockConfig) && k !in config ==> k in mockConfig && mockConfig[k] == old(mockConfig)[k]
      ensures mockConfig.Keys == old(mockConfig).Keys + config.Keys
      ensures mockCache == old(mockCache)
    {
      mockConfig := mockConfig + config;
    }

    /** `getMockConfig(key)`. */
    method GetMockConfig(key: string) returns (value: Value)
      ensures key in mockConfig ==> value == mockConfig[key]
      ensures key !in mockConfig ==> value.Undefined?
    {
      value := Prop(mockConfig, key);
    }
  }
}
