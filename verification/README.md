# seriate.mock: the mock store and resolver, in Dafny

seriate.mock is a test double for the seriate SQL runtime. Tests register
"mocks" under a step name, a query text, a prepared-SQL text, a procedure
name or a SQL file path. When seriate would execute a step, the patched
execution context looks a mock up and settles the step with the mock's
result (or its error) instead of reaching a database.

This project models the store and the resolver in both revisions of the
library:

- `methods.dfy` (module `Methods`) models `src/methods.js`. The store is
  namespaced: `mockCache` maps a namespace (`"root"` by default, `"file"`
  for file mocks) to a map from key to descriptor. Descriptors carry a
  fire-once flag (`once`). The reserved key is `"__result__"`. `resolveMock`
  tries the step name, the query, the prepared SQL and the procedure name.
  Each of those lookups falls back to the file namespace for a `file://`
  reference. A fire-once root hit is cleared; a fire-once file hit is not
  (see Findings).
- `mock.dfy` (module `Mock`) models `src/mock.js`. The cache is flat and has
  no fire-once flag. The reserved key is `"result"`. `resolveMock` tries the
  step name, then the query. This file also holds two decisions of the patched
  context: how `executeSql` settles or forwards a step, and what the
  connecting state does with a connection error.
- `values.dfy` (module `Values`) holds what both revisions share:
  - JavaScript values. A raw mock is a `Value`: `Fn` is a function, `Record`
    is a plain object, and anything else is a literal. These are the two tests
    `_.isFunction` and `_.isPlainObject` make.
  - Truthiness.
  - The stored producer, `Callback(id) | Const(value)`.
  - Reading a field.
  - The one-field step of `_.merge`.

The two stores are classes whose methods update the map fields in place.
Their `ensures` tie each new state to a specification function on the old
one (`Added`, `Without`, `Find`, `Resolve`). The properties the library
promises are stated on those functions and in lemmas about them.

Two behaviours of the code are easy to miss:

- `clearMock(key, options)` on a namespace that does not exist throws a
  TypeError, because `src/methods.js:93` reads a property of `undefined`.
  `MockStore.ClearMock` returns `ThrewTypeError` in that case and changes
  nothing.
- `findMockForKey` tries each candidate key against the file namespace as
  soon as that key misses in `"root"` (`src/methods.js:98-116`), so a file
  hit for the query wins over a root hit for the prepared SQL.

Descriptor field names follow `src/methods.js` and `src/mock.js`
(`mockResults`, `isError`, `waitTime`, `once`).

## Model

| member | source | states |
|---|---|---|
| `Methods.CacheKey` | src/methods.js:4-7 | the namespace is `options.cacheKey` when truthy, otherwise `"root"`; never empty |
| `Methods.IsFileMock` | src/methods.js:9-11 | a key is a file reference exactly when `"file://"` is a prefix of it |
| `Methods.FileMockKey` | src/methods.js:13-15 | for a file reference, the marker followed by the result gives back the key; the result is 7 characters shorter |
| `Methods.FileKeyRoundTrip` | src/methods.js:9-15 | prefixing a path with `"file://"` makes a file reference that strips back to the path |
| `Methods.Normalize` | src/methods.js:18-54 | the stored producer returns the function's result for a function, and the value itself for a literal or a non-function `mockResults`; `isError`/`once`/`waitTime` default to false/false/0, and a plain object's own defined fields override them |
| `Methods.Lookup` | src/methods.js:64-77 | `getMock` finds a descriptor exactly when the namespace exists, holds the key, and the key is not `"__result__"`; it returns the stored descriptor |
| `Methods.LookupFile` | src/methods.js:78-84 | `getFileMock` finds nothing for a key without `"file://"`, otherwise looks the stripped key up in `"file"` |
| `Methods.Added` | src/methods.js:27-56 | `addMock`'s write creates the namespace if absent and sets the key to the descriptor, overwriting; every other namespace and key is unchanged |
| `Methods.Without` | src/methods.js:93-95 | deleting a key removes only that key from that namespace; a missing key leaves the cache as it was |
| `Methods.Find` | src/methods.js:98-116 | `findMockForKey` returns a `"root"` hit, trying the file lookup only on a root miss; a miss or a non-once hit leaves the cache unchanged; a fire-once root hit removes exactly that root entry; a fire-once file hit removes only the prefixed key from `"file"`, so the file hit is still there afterwards |
| `Methods.Candidates` | src/methods.js:117-153 | the keys tried are the step name, then one per truthy option in the order query, prepared SQL, procedure name, and nothing else; none after the first is empty |
| `Methods.FirstHitIsFirstMatch` | src/methods.js:117-156 | the ordered search finds nothing exactly when every candidate misses, then leaves the cache unchanged, and otherwise returns the first candidate that hits, as that key's own lookup would |
| `Methods.StepNameWins` | src/methods.js:126-130 | a mock under the step name wins over any query, prepared SQL or procedure mock |
| `Methods.QueryFallback` | src/methods.js:132-137 | with no step-name mock, a hit for a truthy query is returned, whatever the prepared SQL and procedure name would find |
| `Methods.PreparedSqlFallback` | src/methods.js:139-145 | with no hit for the step name or a truthy query, a hit for a truthy prepared SQL text is returned, whatever the procedure name would find |
| `Methods.ProcedureFallback` | src/methods.js:147-153 | with no hit for the step name, a truthy query or a truthy prepared SQL text, a hit for a truthy procedure name is returned |
| `Methods.ResolveMisses` | src/methods.js:117-156 | `resolveMock` returns nothing exactly when the step name and each truthy query, prepared SQL and procedure all miss, and then nothing is removed |
| `Methods.OnceRootMockServedOnce` | src/methods.js:98-106 | a fire-once mock under the step name is returned once and is then absent from `"root"` |
| `Methods.FileMockFoundByReference` | src/methods.js:59-62 | a mock added to `"file"` under an absolute path is found through `"file://"` plus that path unless `"root"` shadows it |
| `Methods.FileOnceMockServedAgain` | src/methods.js:107-113 | as written, a fire-once file mock is returned again by a second lookup through the same reference |
| `Methods.FindIntended` | src/methods.js:107-113 | corrected lookup: same result as `findMockForKey`; a fire-once root hit removes exactly that root entry, and a fire-once file hit removes exactly the file entry under the stripped path, so it is not found again; nothing else changes |
| `Methods.AddThenGet` | src/methods.js:18-77 | after `addMock(k, v, opts)`, `getMock(k, opts)` returns the normalised descriptor, and for a function or literal `v` its producer reproduces `v`'s result or `v` |
| `Methods.ResultKeyHidden` | src/methods.js:66-74 | a mock registered under `"__result__"` is never returned by `getMock` |
| `Methods.MockStore.AddMock` | src/methods.js:18-57 | the cache becomes `Added(old cache, namespace, key, Normalize(mock))`; the configuration is unchanged |
| `Methods.MockStore.AddFileMock` | src/methods.js:59-62 | stores the normalised mock in `"file"` under `resolve(config.sqlFileBasePath, filePath)` |
| `Methods.MockStore.GetMock` | src/methods.js:64-77 | returns `Lookup` of the current cache in the namespace of the options |
| `Methods.MockStore.GetFileMock` | src/methods.js:78-84 | returns `LookupFile` of the current cache |
| `Methods.MockStore.ClearFileMock` | src/methods.js:85-87 | clears the given, unstripped key from `"file"`; throws when `"file"` does not exist |
| `Methods.MockStore.ClearMock` | src/methods.js:88-97 | with no arguments the cache becomes empty; with a key it removes that key from the namespace; it throws a TypeError, changing nothing, when the namespace does not exist |
| `Methods.MockStore.FindMockForKey` | src/methods.js:98-116 | result and new cache are those of `Find` on the old cache |
| `Methods.MockStore.ResolveMock` | src/methods.js:117-156 | result and new cache are those of `Resolve` (the ordered search over `Candidates`) on the old cache; what `Resolve` returns is stated by `FirstHitIsFirstMatch`, `StepNameWins`, `QueryFallback`, `PreparedSqlFallback`, `ProcedureFallback` and `ResolveMisses` |
| `Methods.MockStore.SetMockConfig` | src/methods.js:158-160 | the keys of the argument are overwritten, all other keys kept; the cache is unchanged |
| `Methods.MockStore.GetMockConfig` | src/methods.js:162-164 | returns the current value for the key, undefined when absent |
| `Mock.Normalize` | src/mock.js:17-47 | as in the namespaced revision, without `once`: the producer reproduces the function's result or the value; `isError`/`waitTime` default to false/0 and a plain object's defined fields override them |
| `Mock.Lookup` | src/mock.js:51-60 | `getMock` finds a descriptor exactly when the key is stored and is not `"result"` |
| `Mock.Resolve` | src/mock.js:70-89 | a step-name hit wins; otherwise the result is the lookup of a truthy query; nothing is found exactly when both miss |
| `Mock.ResolveIgnoresPreparedSqlAndProcedure` | src/mock.js:70-89 | the prepared SQL and the procedure name never affect resolution |
| `Mock.Delay` | src/mock.js:110 | the delay is `waitTime` when truthy, otherwise 0 |
| `Mock.ExecuteSql` | src/mock.js:103-128 | with a mock whose producer returns, the step settles with the producer's value, rejected exactly when `isError` is truthy, after `waitTime || 0`; with a mock whose function throws, the step is rejected at once with the thrown value, whatever `isError` and `waitTime`; either way the real path is not taken; without one, `nonPreparedSql` is used exactly when the query or procedure is truthy, otherwise `preparedSql` |
| `Mock.ConnectingError` | src/mock.js:131-137 | a connection error goes to the success handler exactly when failed connections are allowed, otherwise the state becomes "error" carrying `err` |
| `Mock.LiteralQueryMockSettles` | src/mock.js:103-121 | rows registered under a query text resolve a step carrying that query, as a success with the same rows and no delay |
| `Mock.ThrowingMockRejects` | src/mock.js:106-109 | a caller's function that throws rejects the step with the thrown value and no delay, even under `isError: false` |
| `Mock.ErrorMockRejects` | src/mock.js:104-121 | a descriptor with `isError: true` rejects the step with its value unchanged, after its wait time |
| `Mock.Sql.Setup` | src/mock.js:94-97 | the cache starts empty and failed connections are allowed |
| `Mock.Sql.AddMock` | src/mock.js:17-50 | the key maps to the normalised mock, overwriting, with all other keys unchanged |
| `Mock.Sql.GetMock` | src/mock.js:51-60 | returns `Lookup` of the current cache |
| `Mock.Sql.ClearMock` | src/mock.js:61-69 | with no arguments the cache becomes empty; with a key only that key is removed, a missing key being a no-op |
| `Mock.Sql.ResolveMock` | src/mock.js:70-89 | returns `Resolve` of the current cache |
| `Mock.Sql.ConnectingFailed` | src/mock.js:97-137 | the connecting error handler reads the store's own `allowFailedConnections` flag: success exactly when it is set, otherwise `ConnectingError`'s move to "error" |

## Left out

- `src/index.js` is not part of this model. It holds the attach routine, which creates `mockConfig` and merges its defaults, and the `fromFile` interception and the transaction bypass. `MockStore`'s constructor takes the configuration as given.
- Timers and promises: `setTimeout` and `when.promise` are reduced to which outcome occurs and the delay value. Elapsed time and the order between concurrent timers are not modelled.
- Prototype patching of the host state machine is not modelled: `origContext.extend`, `this.transition`, and the bodies of `nonPreparedSql`/`preparedSql`. The two decisions come back as tags (`Action`, `ConnectingAction`).
- `path.resolve` is the `resolve` parameter of `MockStore.AddFileMock`. Node's rejection of a non-string base path is not modelled.
- User-supplied functions are opaque. Their results come from a `callbacks` parameter and what they throw from a `throws` parameter, and the `this` they are called with is not modelled.
- `_.merge` is modelled only for `mockResults`, `isError`, `once` and `waitTime`. Extra fields of a plain-object mock are not kept in the descriptor.
- `Normalize`/`Mock.Normalize`/`ErrorMockRejects`: `_.clone` of a non-plain object (an `Instance`, such as an Error) is taken as the identity. Depending on the lodash version, `_.clone` of an Error may instead give `{}` or a plain-object copy, and a rejection would then carry that copy rather than the value registered.
- `_.clone` copies: values are immutable here, so a test mutating a registered array afterwards is not modelled.
- Property names inherited from `Object.prototype` (such as `"constructor"`) are treated as absent. In JavaScript they are found on the cache objects.
- Keys and option values are strings. A truthy non-string `query` (coerced to a property name, or failing at `slice`) is not modelled.
- Numbers are integers: NaN and fractional wait times are not modelled.
- `clearMock(undefined)`, a call with one undefined argument, is not distinguished from a call with a missing key.

## Findings

| source | as written | input that shows it | evidently intended | confidence | as-written member | corrected member |
|---|---|---|---|---|---|---|
| src/methods.js:110-112 | on a file-namespace hit with `once`, `clearFileMock(key)` gets the key still carrying `"file://"`, so the entry stored under the stripped path stays | a mock with `once: true` in `"file"` under `/sql/a`, no `"root"` entry for `file:///sql/a`, then two lookups of `file:///sql/a`: both return the mock | `clearFileMock(getFileMockKey(key))`, so a fire-once file mock is served once | high, not executed | `Methods.FileOnceMockServedAgain` | `Methods.FindIntended` |

`MockStore.FindMockForKey` and `MockStore.ResolveMock` keep the behaviour as written, so that they match `src/methods.js`. `FindIntended` returns the same mock as `Find` on every input, and it proves that the serving entry is gone after a fire-once hit in either namespace.
