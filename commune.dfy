/** The Commune experimentation client: identity state, query construction for the
    three endpoints, the fail-soft handling of HTTP outcomes, and the reshaping of
    the server's `variables` array into a name-to-value map.

    Every network call is replaced by its outcome, given as a parameter; every
    operation returns the request it would send beside its result. */
module Commune {
  import opened JsValue

  // ---------------------------------------------------------------------------
  // Remote API: host, endpoints, requests
  // ---------------------------------------------------------------------------

  const Host := "https://app.commune.cx"

  datatype Endpoint = ActivateEndpoint | TrackEndpoint | VariantEndpoint

  const ExperimentApi := "/api/client/experiment/"

  /** The path of each endpoint: one route under the experiment API per endpoint. */
  function Path(e: Endpoint): (p: string)
    ensures |ExperimentApi| < |p| && p[..|ExperimentApi|] == ExperimentApi
  {
    match e
    case ActivateEndpoint => "/api/client/experiment/activate"
    case TrackEndpoint => "/api/client/experiment/track"
    case VariantEndpoint => "/api/client/experiment/variant"
  }

  /** The three endpoints are three different routes. */
  lemma PathsDistinct(e1: Endpoint, e2: Endpoint)
    requires e1 != e2
    ensures Path(e1) != Path(e2)
  {
  }

  /** A URL before percent-encoding: origin, path and the query's ordered pairs. */
  datatype Url = Url(origin: string, path: string, query: seq<(string, string)>)

  datatype Verb = HttpGet | HttpPost

  /** One outgoing HTTP request; `body` is the value handed to `JSON.stringify`. */
  datatype Request = Request(verb: Verb, url: Url, body: Option<Value>)

  /** An optional string argument is truthy when it is given and non-empty; the
      experiment key is appended, and a configured id used, only then. */
  predicate Given(value: Option<string>) {
    value.Some? && value.value != ""
  }

  /** The query pairs in insertion order: project key, device id, distinct id,
      then the experiment key when there is one. */
  function QueryParams(projectKey: string, deviceId: string, distinctId: string,
                       experimentKey: Option<string>): (q: seq<(string, string)>)
    ensures |q| == if Given(experimentKey) then 4 else 3
    ensures forall i, j :: 0 <= i < j < |q| ==> q[i].0 != q[j].0
  {
    [("projectKey", projectKey), ("commune_device_id", deviceId), ("commune_distinct_id", distinctId)]
    + (if Given(experimentKey) then [("experimentKey", experimentKey.value)] else [])
  }

  /** The names of the query pairs, in order. */
  function ParamNames(query: seq<(string, string)>): (names: seq<string>)
    ensures |names| == |query|
    ensures forall i :: 0 <= i < |query| ==> names[i] == query[i].0
  {
    if query == [] then [] else [query[0].0] + ParamNames(query[1..])
  }

  /** What a server reads for `name` (`URLSearchParams.get`): the first value
      appended under that name, if any. */
  function ParamGet(query: seq<(string, string)>, name: string): (r: Option<string>)
    ensures r.None? <==> forall i :: 0 <= i < |query| ==> query[i].0 != name
    ensures r.Some? ==> exists i :: 0 <= i < |query| && query[i] == (name, r.value)
                                   && forall j :: 0 <= j < i ==> query[j].0 != name
  {
    if query == [] then None
    else if query[0].0 == name then Some(query[0].1)
    else ParamGet(query[1..], name)
  }

  /** The query always carries the three identity parameters in this order, and the
      experiment key as a fourth only when it is truthy. */
  lemma {:induction false} QueryParamsOrder(projectKey: string, deviceId: string, distinctId: string,
                                            experimentKey: Option<string>)
    ensures ParamNames(QueryParams(projectKey, deviceId, distinctId, experimentKey))
         == ["projectKey", "commune_device_id", "commune_distinct_id"]
            + (if Given(experimentKey) then ["experimentKey"] else [])
  {
  }

  /** Reading the query back yields exactly the identity the client sent, and an
      experiment key exactly when one was appended. */
  lemma {:induction false} QueryParamsReadBack(projectKey: string, deviceId: string, distinctId: string,
                                               experimentKey: Option<string>)
    ensures var q := QueryParams(projectKey, deviceId, distinctId, experimentKey);
            && ParamGet(q, "projectKey") == Some(projectKey)
            && ParamGet(q, "commune_device_id") == Some(deviceId)
            && ParamGet(q, "commune_distinct_id") == Some(distinctId)
            && ParamGet(q, "experimentKey")
               == (if Given(experimentKey) then Some(experimentKey.value) else None)
  {
    var q := QueryParams(projectKey, deviceId, distinctId, experimentKey);
    assert q[0].0 == "projectKey";
    assert q[1..][0].0 == "commune_device_id";
    assert q[2..][0].0 == "commune_distinct_id";
    assert q[1..][1..] == q[2..];
    assert q[2..][1..] == q[3..];
    if Given(experimentKey) {
      assert q[3..][0].0 == "experimentKey";
    } else {
      assert q[3..] == [];
    }
  }

  // ---------------------------------------------------------------------------
  // Fail-soft request outcome
  // ---------------------------------------------------------------------------

  /** What the transport delivered for one request: no response at all, or a
      response with its status and its body parsed as JSON (None when the body
      is not valid JSON). */
  datatype Outcome = TransportFailure | Response(status: int, json: Option<Value>)

  /** `Response.ok`: a status in the range 200-299. */
  predicate Ok(status: int)
    ensures Ok(status) <==> status / 100 == 2
  {
    200 <= status <= 299
  }

  /** The value a request helper resolves to. A failed transport rejects (nothing
      catches it); a non-ok status becomes `null`; an ok status with an unparseable
      body becomes `null`; otherwise the parsed body. */
  function Fetched(o: Outcome): (r: Completion<Value>)
    ensures r.Throw? <==> o.TransportFailure?
    ensures o.Response? && !Ok(o.status) ==> r == Normal(Null)
    ensures o.Response? && Ok(o.status) && o.json.None? ==> r == Normal(Null)
    ensures o.Response? && Ok(o.status) && o.json.Some? ==> r == Normal(o.json.value)
  {
    match o
    case TransportFailure => Throw
    case Response(status, json) =>
      if !Ok(status) then Normal(Null)
      else if json.None? then Normal(Null)
      else Normal(json.value)
  }

  // ---------------------------------------------------------------------------
  // Reshaping `variables`: a left fold into a map, the last write winning
  // ---------------------------------------------------------------------------

  type Variables = map<string, Value>

  /** One fold step's reads of a `{name, variant: {value}}` record: the key
      `[variable.name]` and the value `variable.variant.value`. A record that is
      `null`/`undefined`, or whose `variant` is missing or `null`, throws. */
  function EntryOf(item: Value): (r: Completion<(string, Value)>)
    ensures r.Normal? <==> item.Obj? && "variant" in item.fields && !Nullish(item.fields["variant"])
    ensures r.Normal? ==> (r.value.0 == ToKey(GetOptional(item, "name"))
                           && r.value.1 == GetOptional(item.fields["variant"], "value"))
  {
    match Get(item, "name")
    case Throw => Throw
    case Normal(name) =>
      match Get(item, "variant")
      case Throw => Throw
      case Normal(variant) =>
        match Get(variant, "value")
        case Throw => Throw
        case Normal(value) => Normal((ToKey(name), value))
  }

  /** `items.reduce((acc, v) => ({...acc, [v.name]: v.variant.value}), acc)`. */
  function Reduce(acc: Variables, items: seq<Value>): (r: Completion<Variables>)
    ensures r.Throw? <==> exists i :: 0 <= i < |items| && EntryOf(items[i]).Throw?
    ensures r.Normal? ==> acc.Keys <= r.value.Keys
    decreases |items|
  {
    if items == [] then Normal(acc)
    else match EntryOf(items[0])
      case Throw => Throw
      case Normal(e) => Reduce(acc[e.0 := e.1], items[1..])
  }

  /** `_parseVariables`: a falsy argument gives `null`; an array is folded
      starting from the empty object; any other value has no `reduce` and throws. */
  function ParseVariables(variables: Value): (r: Completion<Option<Variables>>)
    ensures !Truthy(variables) ==> r == Normal(None)
    ensures Truthy(variables) && !variables.Arr? ==> r.Throw?
    ensures r.Normal? && r.value.Some? ==> variables.Arr?
  {
    if !Truthy(variables) then Normal(None)
    else match variables
      case Arr(items) =>
        (match Reduce(map[], items)
         case Throw => Throw
         case Normal(m) => Normal(Some(m)))
      case _ => Throw
  }

  /** The records of an array, each read as its (key, value) entry; throws as
      soon as one record cannot be read. */
  function Decode(items: seq<Value>): (r: Completion<seq<(string, Value)>>)
    ensures r.Throw? <==> exists i :: 0 <= i < |items| && EntryOf(items[i]).Throw?
    ensures r.Normal? ==> (|r.value| == |items|
                           && forall i :: 0 <= i < |items| ==> EntryOf(items[i]) == Normal(r.value[i]))
    decreases |items|
  {
    if items == [] then Normal([])
    else match EntryOf(items[0])
      case Throw => Throw
      case Normal(e) =>
        match Decode(items[1..])
        case Throw =>
          assert exists i :: 0 <= i < |items[1..]| && EntryOf(items[1..][i]).Throw?;
          Throw
        case Normal(es) =>
          assert forall i :: 1 <= i < |items| ==> items[i] == items[1..][i - 1];
          Normal([e] + es)
  }

  /** The fold over entries that are already read: apply each in order. */
  function Assign(acc: Variables, entries: seq<(string, Value)>): Variables
    decreases |entries|
  {
    if entries == [] then acc else Assign(acc[entries[0].0 := entries[0].1], entries[1..])
  }

  function Names(entries: seq<(string, Value)>): set<string> {
    set e | e in entries :: e.0
  }

  /** Entry `i` is the last one carrying its name. */
  predicate LastWithName(entries: seq<(string, Value)>, i: int)
    requires 0 <= i < |entries|
  {
    forall j :: i < j < |entries| ==> entries[j].0 != entries[i].0
  }

  /** Reading every record first and then folding gives the same outcome as the
      source's interleaved fold, including the throwing cases. */
  lemma {:induction false} ReduceIsAssign(acc: Variables, items: seq<Value>)
    ensures Reduce(acc, items) == match Decode(items)
                                  case Throw => Throw
                                  case Normal(es) => Normal(Assign(acc, es))
    decreases |items|
  {
    if items != [] {
      match EntryOf(items[0])
      case Throw =>
      case Normal(e) =>
        ReduceIsAssign(acc[e.0 := e.1], items[1..]);
    }
  }

  /** The keys of the folded map are the starting keys plus every name. */
  lemma {:induction false} AssignKeys(acc: Variables, entries: seq<(string, Value)>)
    ensures Assign(acc, entries).Keys == acc.Keys + Names(entries)
    decreases |entries|
  {
    if entries != [] {
      AssignKeys(acc[entries[0].0 := entries[0].1], entries[1..]);
      assert entries == [entries[0]] + entries[1..];
      assert Names(entries) == {entries[0].0} + Names(entries[1..]);
    }
  }

  /** A key that no entry names keeps its starting value. */
  lemma {:induction false} AssignKeeps(acc: Variables, entries: seq<(string, Value)>, k: string)
    requires k in acc
    requires forall j :: 0 <= j < |entries| ==> entries[j].0 != k
    ensures k in Assign(acc, entries) && Assign(acc, entries)[k] == acc[k]
    decreases |entries|
  {
    if entries != [] {
      AssignKeeps(acc[entries[0].0 := entries[0].1], entries[1..], k);
    }
  }

  /** Last write wins: a name maps to the value of its last entry. */
  lemma {:induction false} AssignLastWins(acc: Variables, entries: seq<(string, Value)>, i: int)
    requires 0 <= i < |entries|
    requires LastWithName(entries, i)
    ensures entries[i].0 in Assign(acc, entries)
    ensures Assign(acc, entries)[entries[i].0] == entries[i].1
    decreases |entries|
  {
    var acc' := acc[entries[0].0 := entries[0].1];
    if i == 0 {
      AssignKeeps(acc', entries[1..], entries[0].0);
    } else {
      AssignLastWins(acc', entries[1..], i - 1);
    }
  }

  /** `_parseVariables` on an array whose records can all be read gives a map (not
      `null`) whose key set is exactly the set of names. */
  lemma ParseVariablesKeys(items: seq<Value>, entries: seq<(string, Value)>)
    requires Decode(items) == Normal(entries)
    ensures ParseVariables(Arr(items)) == Normal(Some(Assign(map[], entries)))
    ensures Assign(map[], entries).Keys == Names(entries)
  {
    ReduceIsAssign(map[], items);
    AssignKeys(map[], entries);
  }

  /** In that map each name carries the value of its last record. */
  lemma ParseVariablesLastWins(items: seq<Value>, entries: seq<(string, Value)>, i: int)
    requires Decode(items) == Normal(entries)
    requires 0 <= i < |entries| && LastWithName(entries, i)
    ensures ParseVariables(Arr(items)).Normal? && ParseVariables(Arr(items)).value.Some?
    ensures entries[i].0 in ParseVariables(Arr(items)).value.value
    ensures ParseVariables(Arr(items)).value.value[entries[i].0] == entries[i].1
  {
    ReduceIsAssign(map[], items);
    AssignLastWins(map[], entries, i);
  }

  /** `_parseVariables` on an array throws exactly when one of its records cannot
      be read; an empty array gives the empty map, not `null`. */
  lemma ParseVariablesThrows(items: seq<Value>)
    ensures ParseVariables(Arr(items)).Throw? <==> exists i :: 0 <= i < |items| && EntryOf(items[i]).Throw?
    ensures items == [] ==> ParseVariables(Arr(items)) == Normal(Some(map[]))
  {
  }

  // ---------------------------------------------------------------------------
  // Looking one variable up
  // ---------------------------------------------------------------------------

  /** Properties every plain object inherits from `Object.prototype`. */
  const ObjectPrototypeMembers: set<string> :=
    {"constructor", "hasOwnProperty", "isPrototypeOf", "propertyIsEnumerable",
     "toLocaleString", "toString", "valueOf", "__proto__",
     "__defineGetter__", "__defineSetter__", "__lookupGetter__", "__lookupSetter__"}

  /** What `variables?.[name]` yields: an own property's value, a member inherited
      from `Object.prototype` (a function or object), or `undefined`. */
  datatype Lookup = Found(value: Value) | Inherited(member: string) | NotFound

  /** `variables?.[name]` on the map built by `_parseVariables` (a plain object). */
  function LookupVariable(variables: Option<Variables>, name: string): (r: Lookup)
    ensures r.Found? <==> variables.Some? && name in variables.value
    ensures r.Found? ==> r.value == variables.value[name]
    ensures r.Inherited? ==> r.member == name && name in ObjectPrototypeMembers
    ensures r.NotFound? <==> variables.None? || (name !in variables.value && name !in ObjectPrototypeMembers)
  {
    match variables
    case None => NotFound
    case Some(m) =>
      if name in m then Found(m[name])
      else if name in ObjectPrototypeMembers then Inherited(name)
      else NotFound
  }

  // ---------------------------------------------------------------------------
  // Operation results over an abstract outcome
  // ---------------------------------------------------------------------------

  /** `activate` / `getMultivariant`: `_parseVariables(result?.variables)`. */
  function VariablesOf(o: Outcome): (r: Completion<Option<Variables>>)
    ensures r.Throw? <==> (o.TransportFailure?
                           || (o.Response? && Ok(o.status) && o.json.Some?
                               && ParseVariables(GetOptional(o.json.value, "variables")).Throw?))
    ensures o.Response? && (!Ok(o.status) || o.json.None?) ==> r == Normal(None)
    ensures o.Response? && Ok(o.status) && o.json.Some? ==>
              r == ParseVariables(GetOptional(o.json.value, "variables"))
  {
    match Fetched(o)
    case Throw => Throw
    case Normal(result) => ParseVariables(GetOptional(result, "variables"))
  }

  /** `getVariant`: the lookup never throws on its own, a `null` map included. */
  function VariantOf(o: Outcome, variableName: string): (r: Completion<Lookup>)
    ensures r.Throw? <==> VariablesOf(o).Throw?
    ensures r.Normal? ==> r.value == LookupVariable(VariablesOf(o).value, variableName)
    ensures o.Response? && (!Ok(o.status) || o.json.None?) ==> r == Normal(NotFound)
  {
    match VariablesOf(o)
    case Throw => Throw
    case Normal(variables) => Normal(LookupVariable(variables, variableName))
  }

  // ---------------------------------------------------------------------------
  // Worked responses
  // ---------------------------------------------------------------------------

  /** A server record `{name, variant: {value}}`. */
  function Record(name: string, value: Value): Value {
    Obj(map["name" := Str(name), "variant" := Obj(map["value" := value])])
  }

  /** An ok response whose body is `{variables: records}`. */
  function VariablesResponse(records: seq<Value>): Outcome {
    Response(200, Some(Obj(map["variables" := Arr(records)])))
  }

  /** A well-formed record reads as its (name, value) entry. */
  lemma RecordEntry(name: string, value: Value)
    ensures EntryOf(Record(name, value)) == Normal((name, value))
  {
  }

  /** Folding two readable records applies them in order. */
  lemma ReduceTwo(n1: string, v1: Value, n2: string, v2: Value)
    ensures Reduce(map[], [Record(n1, v1), Record(n2, v2)]) == Normal(map[n1 := v1][n2 := v2])
  {
    var items := [Record(n1, v1), Record(n2, v2)];
    RecordEntry(n1, v1);
    RecordEntry(n2, v2);
    var acc := map[n1 := v1];
    assert Reduce(acc[n2 := v2], []) == Normal(acc[n2 := v2]);
    assert Reduce(acc, [Record(n2, v2)]) == Reduce(acc[n2 := v2], []);
    assert items[1..] == [Record(n2, v2)];
    assert Reduce(map[], items) == Reduce(acc, items[1..]);
  }

  /** Two distinct names: each maps to its own value. */
  lemma TwoVariables()
    ensures VariablesOf(VariablesResponse([Record("a", Num(1)), Record("b", Str("x"))]))
         == Normal(Some(map["a" := Num(1), "b" := Str("x")]))
  {
  }

  /** On the same response `getVariant` finds one name, misses an unknown one, and
      reaches an inherited member by its name. */
  lemma TwoVariablesLookup()
    ensures VariantOf(VariablesResponse([Record("a", Num(1)), Record("b", Str("x"))]), "b")
         == Normal(Found(Str("x")))
    ensures VariantOf(VariablesResponse([Record("a", Num(1)), Record("b", Str("x"))]), "missing")
         == Normal(NotFound)
    ensures VariantOf(VariablesResponse([Record("a", Num(1)), Record("b", Str("x"))]), "toString")
         == Normal(Inherited("toString"))
  {
    var vars := map["a" := Num(1), "b" := Str("x")];
    TwoVariables();
    assert "missing" !in vars && "missing" !in ObjectPrototypeMembers;
    assert "toString" !in vars && "toString" in ObjectPrototypeMembers;
  }

  /** A repeated name: the later record wins. */
  lemma DuplicateName()
    ensures VariablesOf(VariablesResponse([Record("a", Num(1)), Record("a", Num(2))]))
         == Normal(Some(map["a" := Num(2)]))
  {
    ReduceTwo("a", Num(1), "a", Num(2));
    assert map[]["a" := Num(1)]["a" := Num(2)] == map["a" := Num(2)];
  }

  /** A record without `variant` makes the whole operation throw. */
  lemma RecordWithoutVariant()
    ensures VariablesOf(VariablesResponse([Record("a", Num(1)), Obj(map["name" := Str("b")])])).Throw?
  {
  }

  // ---------------------------------------------------------------------------
  // Request bodies
  // ---------------------------------------------------------------------------

  /** The body `activate` posts: `{projectKey, experimentKey}`. */
  function ActivateBody(projectKey: string, experimentKey: string): (b: Value)
    ensures b.Obj? && b.fields.Keys == {"projectKey", "experimentKey"}
    ensures Get(b, "projectKey") == Normal(Str(projectKey))
    ensures Get(b, "experimentKey") == Normal(Str(experimentKey))
  {
    Obj(map["projectKey" := Str(projectKey), "experimentKey" := Str(experimentKey)])
  }

  /** The body `track` posts: a custom event naming the project, whose data is
      the caller's data when truthy and an empty object otherwise. */
  function TrackBody(projectKey: string, eventName: string, data: Value): (b: Value)
    ensures b.Obj? && b.fields.Keys == {"event"}
    ensures var event := b.fields["event"];
            && event.Obj? && event.fields.Keys == {"type", "name", "data", "project_id"}
            && event.fields["type"] == Str("custom")
            && event.fields["name"] == Str(eventName)
            && event.fields["project_id"] == Str(projectKey)
            && Truthy(event.fields["data"])
            && (Truthy(data) ==> event.fields["data"] == data)
            && (!Truthy(data) ==> event.fields["data"] == Obj(map[]))
  {
    var event := map["type" := Str("custom"),
                     "name" := Str(eventName),
                     "data" := if Truthy(data) then data else Obj(map[]),
                     "project_id" := Str(projectKey)];
    Obj(map["event" := Obj(event)])
  }

  // ---------------------------------------------------------------------------
  // The client object
  // ---------------------------------------------------------------------------

  /** The recognised configuration options; None stands for an option not given. */
  datatype Config = Config(projectKey: string, deviceId: Option<string>, distinctId: Option<string>)

  /** `value || fallback` for an optional string. */
  function OrElse(value: Option<string>, fallback: string): (r: string)
    ensures Given(value) ==> r == value.value
    ensures !Given(value) ==> r == fallback
  {
    if Given(value) then value.value else fallback
  }

  class CommuneClient {
    const projectKey: string
    const deviceId: string
    var distinctId: string

    /** `generatedId` is the fresh UUID the source would draw when no device id is
        configured. */
    constructor (config: Config, generatedId: string)
      ensures projectKey == config.projectKey
      ensures deviceId == (if Given(config.deviceId) then config.deviceId.value else generatedId)
      ensures distinctId == (if Given(config.distinctId) then config.distinctId.value else deviceId)
    {
      projectKey := config.projectKey;
      deviceId := OrElse(config.deviceId, generatedId);
      new;
      distinctId := OrElse(config.distinctId, deviceId);
    }

    /** `_constructURL`: stores the distinct id, then appends the query pairs one
        by one. */
    method ConstructUrl(endpoint: Endpoint, experimentKey: Option<string>, distinctId: string)
      returns (url: Url)
      modifies this
      ensures this.distinctId == distinctId
      ensures url == Url(Host, Path(endpoint), QueryParams(projectKey, deviceId, distinctId, experimentKey))
    {
      this.distinctId := distinctId;
      var query: seq<(string, string)> := [];
      query := query + [("projectKey", projectKey)];
      query := query + [("commune_device_id", deviceId)];
      query := query + [("commune_distinct_id", this.distinctId)];
      if Given(experimentKey) {
        query := query + [("experimentKey", experimentKey.value)];
      }
      url := Url(Host, Path(endpoint), query);
    }

    /** `activate`: posts the activation and returns the reshaped variables. An
        omitted `distinctId` defaults to the stored one. */
    method Activate(experimentKey: string, distinctId: Option<string>, response: Outcome)
      returns (request: Request, result: Completion<Option<Variables>>)
      modifies this
      ensures this.distinctId == distinctId.GetOr(old(this.distinctId))
      ensures request == Request(HttpPost,
                                 Url(Host, Path(ActivateEndpoint),
                                     QueryParams(projectKey, deviceId, this.distinctId, Some(experimentKey))),
                                 Some(ActivateBody(projectKey, experimentKey)))
      ensures result == VariablesOf(response)
    {
      var url := ConstructUrl(ActivateEndpoint, Some(experimentKey), distinctId.GetOr(this.distinctId));
      request := Request(HttpPost, url, Some(ActivateBody(projectKey, experimentKey)));
      result := VariablesOf(response);
    }

    /** `getMultivariant`: the same query against the variant endpoint, by GET. */
    method GetMultivariant(experimentKey: string, distinctId: Option<string>, response: Outcome)
      returns (request: Request, result: Completion<Option<Variables>>)
      modifies this
      ensures this.distinctId == distinctId.GetOr(old(this.distinctId))
      ensures request == Request(HttpGet,
                                 Url(Host, Path(VariantEndpoint),
                                     QueryParams(projectKey, deviceId, this.distinctId, Some(experimentKey))),
                                 None)
      ensures result == VariablesOf(response)
    {
      var url := ConstructUrl(VariantEndpoint, Some(experimentKey), distinctId.GetOr(this.distinctId));
      request := Request(HttpGet, url, None);
      result := VariablesOf(response);
    }

    /** `getVariant`: `getMultivariant`'s request, then one lookup in the map. */
    method GetVariant(experimentKey: string, variableName: string, distinctId: Option<string>,
                      response: Outcome)
      returns (request: Request, result: Completion<Lookup>)
      modifies this
      ensures this.distinctId == distinctId.GetOr(old(this.distinctId))
      ensures request == Request(HttpGet,
                                 Url(Host, Path(VariantEndpoint),
                                     QueryParams(projectKey, deviceId, this.distinctId, Some(experimentKey))),
                                 None)
      ensures result == VariantOf(response, variableName)
    {
      var url := ConstructUrl(VariantEndpoint, Some(experimentKey), distinctId.GetOr(this.distinctId));
      request := Request(HttpGet, url, None);
      result := VariantOf(response, variableName);
    }

    /** `track`: posts a custom event, with no experiment key in the query, and
        passes the response body through untouched. */
    method Track(eventName: string, data: Value, distinctId: Option<string>, response: Outcome)
      returns (request: Request, result: Completion<Value>)
      modifies this
      ensures this.distinctId == distinctId.GetOr(old(this.distinctId))
      ensures request == Request(HttpPost,
                                 Url(Host, Path(TrackEndpoint),
                                     QueryParams(projectKey, deviceId, this.distinctId, None)),
                                 Some(TrackBody(projectKey, eventName, data)))
      ensures result == Fetched(response)
    {
      var url := ConstructUrl(TrackEndpoint, None, distinctId.GetOr(this.distinctId));
      request := Request(HttpPost, url, Some(TrackBody(projectKey, eventName, data)));
      result := Fetched(response);
    }
  }

  /** A distinct id passed to one call is what later calls without an override
      send, while the device id stays put; `track` never sends an experiment key. */
  method DistinctIdPersists(config: Config, generatedId: string, user: string, experimentKey: string,
                            first: Outcome, second: Outcome)
    returns (activation: Request, tracking: Request)
    ensures ParamGet(activation.url.query, "commune_distinct_id") == Some(user)
    ensures ParamGet(tracking.url.query, "commune_distinct_id") == Some(user)
    ensures ParamGet(tracking.url.query, "commune_device_id")
         == ParamGet(activation.url.query, "commune_device_id")
    ensures ParamGet(tracking.url.query, "experimentKey") == None
    ensures |tracking.url.query| == 3
  {
    var client := new CommuneClient(config, generatedId);
    var activated, tracked;
    activation, activated := client.Activate(experimentKey, Some(user), first);
    tracking, tracked := client.Track("signup", Undefined, None, second);
    QueryParamsReadBack(client.projectKey, client.deviceId, user, Some(experimentKey));
    QueryParamsReadBack(client.projectKey, client.deviceId, user, None);
  }
}
