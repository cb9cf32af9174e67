/**
  The single-namespace mock store of src/mock.js: a flat `mockCache` from key
  to descriptor (no fire-once flag), a resolver that tries the step name and
  then the query, and the two decisions the patched execution context makes:
  how `executeSql` settles or forwards a step, and what the connecting state
  does with a connection error.
 */
module Mock {
  import opened Values

  /** The host's internal step name for a whole operation's result. */
  const ResultKey := "result"

  /** The canonical stored mock of this revision. */
  datatype Descriptor = Descriptor(mockResults: Producer, isError: Value, waitTime: Value)

  type Cache = map<string, Descriptor>

  /** The descriptor `addMock` stores for the raw `mock`: a function, a plain
      object (a descriptor, possibly partial), or any other literal. */
  function Normalize(mock: Value): (d: Descriptor)
    // the stored producer returns what the caller's mockResults would:
    // the function's result for a function, the value itself otherwise
    ensures forall stepName, options, callbacks
              {:trigger Invoke(d.mockResults, stepName, options, callbacks)} ::
              Invoke(d.mockResults, stepName, options, callbacks) ==
                if mock.Record? then Produced(Prop(mock.fields, "mockResults"), stepName, options, callbacks)
                else Produced(mock, stepName, options, callbacks)
    // the defaults stand unless a plain object sets the field
    ensures !mock.Record? ==> d.isError == Bool(false) && d.waitTime == Num(0)
    ensures mock.Record? && "isError" in mock.fields && !mock.fields["isError"].Undefined? ==>
              d.isError == mock.fields["isError"]
    ensures mock.Record? && "waitTime" in mock.fields && !mock.fields["waitTime"].Undefined? ==>
              d.waitTime == mock.fields["waitTime"]
    ensures mock.Record? && Prop(mock.fields, "isError").Undefined? ==> d.isError == Bool(false)
    ensures mock.Record? && Prop(mock.fields, "waitTime").Undefined? ==> d.waitTime == Num(0)
  {
    match mock
    case Fn(id) =>
      Descriptor(Callback(id), Bool(false), Num(0))
    case Record(fields) =>
      Descriptor(AsProducer(Prop(fields, "mockResults")),
                 Merged(Bool(false), fields, "isError"),
                 Merged(Num(0), fields, "waitTime"))
    case _ =>
      Descriptor(Const(mock), Bool(false), Num(0))
  }

  /** `getMock(key)`. */
  function Lookup(cache: Cache, key: string): (r: Option<Descriptor>)
    ensures r.Some? <==> key in cache && key != ResultKey
    ensures r.Some? ==> r.value == cache[key]
  {
    if key == ResultKey then None
    else if key in cache then Some(cache[key])
    else None
  }

  /** `resolveMock(stepName, options)`: the step name, then the query when it
      is truthy; nothing else is consulted. */
  function Resolve(cache: Cache, stepName: string, options: Options): (r: Option<Descriptor>)
    ensures Lookup(cache, stepName).Some? ==> r == Lookup(cache, stepName)
    ensures r.Some? ==>
              r == Lookup(cache, stepName) || (Present(options.query) && r == Lookup(cache, options.query.value))
    ensures r.None? <==>
              Lookup(cache, stepName).None? &&
              (Present(options.query) ==> Lookup(cache, options.query.value).None?)
  {
    var mock := Lookup(cache, stepName);
    if mock.Some? then mock
    else if Present(options.query) then Lookup(cache, options.query.value)
    else mock
  }

  /** The prepared SQL and the procedure name play no part in this revision's
      resolution. */
  lemma ResolveIgnoresPreparedSqlAndProcedure(cache: Cache, stepName: string, options: Options,
                                              preparedSql: Option<string>, procedure: Option<string>)
    ensures Resolve(cache, stepName, options.(preparedSql := preparedSql, procedure := procedure)) ==
              Resolve(cache, stepName, options)
  {
  }

  /** `mock.waitTime || 0`. */
  function Delay(waitTime: Value): (t: Value)
    ensures Truthy(waitTime) ==> t == waitTime
    ensures !Truthy(waitTime) ==> t == Num(0)
  {
    if Truthy(waitTime) then waitTime else Num(0)
  }

  /** What `executeSql` does with one step. */
  datatype Action =
    /** Settle the step's promise after `delay`: reject with `value` when
        `rejected`, resolve with it otherwise. */
    | Settle(rejected: bool, value: Value, delay: Value)
    /** Forward to the host's `nonPreparedSql`. */
    | NonPreparedSql
    /** Forward to the host's `preparedSql`. */
    | PreparedSql

  /** The patched `executeSql(options)` of a context whose current state is
      `stepName`, against the store's `cache`. A caller's function returns
      `callbacks(...)` unless `throws(...)` names what it throws instead. */
  function ExecuteSql(cache: Cache, stepName: string, options: Options,
                      callbacks: (nat, string, Options) -> Value,
                      throws: (nat, string, Options) -> Option<Value>): (a: Action)
    // a mock settles the step with its producer's value and never reaches the real path
    ensures Resolve(cache, stepName, options).Some? &&
            Thrown(Resolve(cache, stepName, options).value.mockResults, stepName, options, throws).None? ==>
              var d := Resolve(cache, stepName, options).value;
              a == Settle(Truthy(d.isError), Invoke(d.mockResults, stepName, options, callbacks), Delay(d.waitTime))
    // a producer that throws rejects the step at once with what it threw,
    // whatever `isError` and `waitTime` say
    ensures Resolve(cache, stepName, options).Some? &&
            Thrown(Resolve(cache, stepName, options).value.mockResults, stepName, options, throws).Some? ==>
              a == Settle(true, Thrown(Resolve(cache, stepName, options).value.mockResults, stepName, options, throws).value,
                          Num(0))
    // without a mock the step goes to the real path, chosen by the options
    ensures Resolve(cache, stepName, options).None? ==>
              !a.Settle? && (a.NonPreparedSql? <==> Present(options.query) || Present(options.procedure))
  {
    var mock := Resolve(cache, stepName, options);
    if mock.Some? then
      var thrown := Thrown(mock.value.mockResults, stepName, options, throws);
      if thrown.Some? then Settle(true, thrown.value, Num(0)) else
      var results := Invoke(mock.value.mockResults, stepName, options, callbacks);
      var timeout := Delay(mock.value.waitTime);
      if Truthy(mock.value.isError) then Settle(true, results, timeout) else Settle(false, results, timeout)
    else if Present(options.query) || Present(options.procedure) then NonPreparedSql
    else PreparedSql
  }

  /** What the patched connecting state does on a connection error. */
  datatype ConnectingAction =
    /** Run the connecting state's success handler. */
    | ToSuccess
    /** Record `err` on the context and transition to "error". */
    | ToError(err: Value)

  /** `states.connecting.error(err)`. */
  function ConnectingError(allowFailedConnections: bool, err: Value): (a: ConnectingAction)
    ensures a.ToSuccess? <==> allowFailedConnections
    ensures a.ToError? ==> a.err == err
  {
    if allowFailedConnections then ToSuccess else ToError(err)
  }

  /** A literal registered under a query is what a step carrying that query
      resolves with, immediately and as a success. */
  lemma LiteralQueryMockSettles(cache: Cache, stepName: string, sqlText: string, rows: Value,
                                options: Options, callbacks: (nat, string, Options) -> Value,
                                throws: (nat, string, Options) -> Option<Value>)
    requires !rows.Fn? && !rows.Record?
    requires sqlText != ResultKey && options.query == Some(sqlText) && sqlText != ""
    requires Lookup(cache, stepName).None?
    ensures ExecuteSql(cache[sqlText := Normalize(rows)], stepName, options, callbacks, throws) ==
              Settle(false, rows, Num(0))
  {
  }

  /** A descriptor with `isError` set rejects the step with its value
      unchanged, after its wait time. */
  lemma ErrorMockRejects(cache: Cache, stepName: string, payload: Value, waitTime: Value,
                         options: Options, callbacks: (nat, string, Options) -> Value,
                         throws: (nat, string, Options) -> Option<Value>)
    requires stepName != ResultKey && !payload.Fn?
    ensures ExecuteSql(cache[stepName := Normalize(Record(map["mockResults" := payload, "isError" := Bool(true),
                                                              "waitTime" := waitTime]))],
                       stepName, options, callbacks, throws) == Settle(true, payload, Delay(waitTime))
  {
  }

  /** A caller's function that throws rejects the step at once with what it
      threw, even when the descriptor says neither error nor delay. */
  lemma ThrowingMockRejects(cache: Cache, stepName: string, id: nat, waitTime: Value, e: Value,
                            options: Options, callbacks: (nat, string, Options) -> Value,
                            throws: (nat, string, Options) -> Option<Value>)
    requires stepName != ResultKey && throws(id, stepName, options) == Some(e)
    ensures ExecuteSql(cache[stepName := Normalize(Record(map["mockResults" := Fn(id), "isError" := Bool(false),
                                                              "waitTime" := waitTime]))],
                       stepName, options, callbacks, throws) == Settle(true, e, Num(0))
  {
  }

  /** The `sql` object after `setup(sql)`: its mock cache and the flag that
      lets failed connections pass. */
  class Sql {
    var mockCache: Cache
    var allowFailedConnections: bool

    /** `setup(sql)`. */
    constructor Setup()
      ensures mockCache == map[] && allowFailedConnections
    {
      mockCache := map[];
      allowFailedConnections := true;
    }

    /** `addMock(key, mock)`. */
    method AddMock(key: string, mock: Value)
      modifies this
      ensures mockCache == old(mockCache)[key := Normalize(mock)]
      ensures allowFailedConnections == old(allowFailedConnections)
    {
      var realMock := Normalize(mock);
      mockCache := mockCache[key := realMock];
    }

    /** `getMock(key)`. */
    method GetMock(key: string) returns (mock: Option<Descriptor>)
      ensures mock == Lookup(mockCache, key)
    {
      if key == ResultKey || key !in mockCache {
        mock := None;
      } else {
        mock := Some(mockCache[key]);
      }
    }

    /** `clearMock(key)`; `key` is `None` when called with no arguments. */
    method ClearMock(key: Option<string>)
      modifies this
      ensures key.None? ==> mockCache == map[]
      ensures key.Some? ==> mockCache == old(mockCache) - {key.value}
      ensures allowFailedConnections == old(allowFailedConnections)
    {
      if key.None? {
        mockCache := map[];
      } else if key.value in mockCache {
        mockCache := mockCache - {key.value};
      }
    }

    /** The patched `states.connecting.error(err)` of a context created from
        this `sql` object: it reads the store's own flag. */
    method ConnectingFailed(err: Value) returns (a: ConnectingAction)
      ensures a == ConnectingError(allowFailedConnections, err)
      ensures a.ToSuccess? <==> allowFailedConnections
    {
      if allowFailedConnections {
        a := ToSuccess;
      } else {
        a := ToError(err);
      }
    }

    /** `resolveMock(stepName, options)`. */
    method ResolveMock(stepName: string, options: Options) returns (mock: Option<Descriptor>)
      ensures mock == Resolve(mockCache, stepName, options)
    {
      mock := GetMock(stepName);
      if mock.Some? {
        return;
      }
      if Present(options.query) {
        mock := GetMock(options.query.value);
      }
    }
  }
}
