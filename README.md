# Commune client model

A Dafny model of `CommuneClient`, the JavaScript client of the Commune A/B-testing
service (`index.js`). The client keeps an identity (project key, device id,
distinct id). It offers four operations: `activate`, `getMultivariant`,
`getVariant` and `track`. Each one builds a query URL, performs one HTTP request,
and reshapes the JSON answer.

The model has two modules:

- `JsValue` (`js_value.dfy`) holds the few JavaScript rules the client relies on:
  - JSON values plus `undefined`;
  - truthiness;
  - property reads that throw on `null`/`undefined`, and optional chaining;
  - the conversion of a computed key `[v]` to a string.
- `Commune` (`commune.dfy`) holds the client:
  - the constant host and endpoint paths;
  - the query as an ordered list of name/value pairs;
  - the fail-soft request rule, over an abstract transport outcome;
  - the `_parseVariables` left fold and the `getVariant` lookup;
  - the two request bodies;
  - the class `CommuneClient`.

`CommuneClient` has `projectKey` and `deviceId` as `const` fields, because nothing
in the source reassigns them. `distinctId` is a mutable field. `_constructURL`
overwrites it on every operation, so all four operation methods `modify this`.
Each operation takes the transport's outcome as a parameter. It returns the
request it sends together with its result.

Some points where index.js does not behave as a caller might expect, all
modelled as the code does them:

- A rejected `fetch` is not caught (index.js:73, 86). It propagates out of every
  operation as a rejected promise (`Throw`), so the operations are fail-soft only
  for responses that arrive.
- `_parseVariables` throws in three cases (index.js:111-116): on a truthy
  `variables` that is not an array, on a `null` record, and on a record without a
  non-null `variant`.
- `getVariant` reads `variables?.[name]` from a plain object (index.js:46). For a
  name such as `toString` or `constructor` that is not an own key, it yields the
  member inherited from `Object.prototype` (`Inherited`), not `undefined`.
- A distinct-id override that is given but empty (`""`) still replaces the stored
  distinct id (index.js:18, 63), because a JavaScript default parameter applies
  only to `undefined`.

## Model

| member | source | states |
|---|---|---|
| `Commune.CommuneClient.constructor` | index.js:12-16 | projectKey is copied as given; deviceId is the configured id when non-empty, else the generated one; distinctId is the configured one when non-empty, else deviceId |
| `Commune.OrElse` | index.js:14-15 | JavaScript `or` on an optional string: the value when given and non-empty, the fallback otherwise |
| `Commune.PathsDistinct` | index.js:4-9 | the three endpoints (requests go to the constant host `https://app.commune.cx`) have pairwise different paths |
| `Commune.Path` | index.js:5-9 | every endpoint path lies under `/api/client/experiment/` |
| `Commune.QueryParams` | index.js:65-68 | the query has four pairs when the experiment key is truthy and three otherwise, and no name occurs twice |
| `Commune.CommuneClient.ConstructUrl` | index.js:62-70 | the stored distinctId becomes the argument; the URL is the host, the endpoint path and exactly the query pairs of `QueryParams` for the unchanged projectKey and deviceId |
| `Commune.QueryParamsOrder` | index.js:65-68 | the query names are exactly projectKey, commune_device_id, commune_distinct_id in that order, followed by experimentKey only when the key is truthy |
| `Commune.QueryParamsReadBack` | index.js:65-68 | reading the query back gives the project key, device id and post-override distinct id, and the experiment key exactly when it was truthy (none otherwise) |
| `Commune.ParamGet` | index.js:65-68 | a name is absent exactly when no pair carries it; a value found is that of the first pair with that name |
| `Commune.Ok` | index.js:74 | `res.ok` holds exactly for a 2xx status |
| `Commune.Fetched` | index.js:72-100 | a failed transport throws; a non-ok status gives null; ok with an unparseable body gives null; ok with a parsed body gives that body |
| `JsValue.Get` | index.js:115 | a property read throws exactly on null/undefined; an object's own field is returned; anything else gives undefined |
| `JsValue.GetOptional` | index.js:27 | optional chaining gives undefined on null/undefined and is the plain read otherwise |
| `JsValue.ToKey` | index.js:115 | a string name is its own key |
| `Commune.EntryOf` | index.js:113-116 | a record can be read exactly when it is an object with a non-null `variant`; its entry is (String(name), variant.value) |
| `Commune.ParseVariables` | index.js:110-119 | a falsy argument gives null; a truthy non-array throws; a map result comes only from an array |
| `Commune.Reduce` | index.js:112-118 | the reduce as written throws exactly when some record cannot be read, and never loses a key of the accumulator |
| `Commune.Decode` | index.js:112-118 | reading all records throws exactly when one record cannot be read; otherwise entry i is record i's entry |
| `Commune.ReduceIsAssign` | index.js:112-118 | the interleaved reduce equals reading all records first and then folding the entries, including the throwing cases |
| `Commune.AssignKeys` | index.js:112-118 | the folded map's key set is the start keys plus the set of all names |
| `Commune.AssignKeeps` | index.js:113-116 | a key no entry names keeps its starting value |
| `Commune.AssignLastWins` | index.js:113-116 | each name maps to the value of the last entry carrying it |
| `Commune.ParseVariablesKeys` | index.js:110-119 | on readable records the result is a map (not null), the fold of the entries from the empty object, whose key set equals the set of names |
| `Commune.ParseVariablesLastWins` | index.js:110-119 | in that map each name is present and carries the value of the last record with that name |
| `Commune.ParseVariablesThrows` | index.js:110-119 | on an array the fold throws exactly when some record cannot be read; an empty array gives the empty map |
| `Commune.LookupVariable` | index.js:46 | found exactly when the map is non-null and has the key, with that key's value; an inherited member only for Object.prototype names; undefined when the map is null or has neither |
| `Commune.VariablesOf` | index.js:27 | activate/getMultivariant result: throws exactly on transport failure or a throwing parse; null on a non-ok or unparseable response; otherwise `_parseVariables(body?.variables)` |
| `Commune.VariantOf` | index.js:44-46 | getVariant result: throws exactly when the variables do; otherwise the lookup; a non-ok or unparseable response gives undefined, never an error |
| `Commune.RecordEntry` | index.js:113-116 | a well-formed record reads as its (name, value) entry |
| `Commune.ReduceTwo` | index.js:112-118 | folding two records applies them in order |
| `Commune.TwoVariables` | index.js:110-119 | records named "a" and "b" come back as the map `{a:1, b:"x"}` |
| `Commune.TwoVariablesLookup` | index.js:39-47 | on that response getVariant finds "b", gives undefined for "missing", and reaches the inherited "toString" |
| `Commune.DuplicateName` | index.js:110-119 | two records named "a" give `{a:2}`: the later one wins |
| `Commune.RecordWithoutVariant` | index.js:115 | a record without `variant` makes the operation throw |
| `Commune.ActivateBody` | index.js:23-26 | activate's body has exactly the keys projectKey and experimentKey, carrying the given strings |
| `Commune.TrackBody` | index.js:51-58 | track's body is `{event}` with exactly type "custom", the event name, the project id and data; data is the caller's when truthy, else `{}`, so it is always truthy |
| `Commune.CommuneClient.Activate` | index.js:18-28 | distinctId becomes the override, or stays when none is given; POSTs the activate URL with the experiment key and the `{projectKey, experimentKey}` body; result is `VariablesOf` |
| `Commune.CommuneClient.GetMultivariant` | index.js:30-37 | distinctId updated as for Activate; GETs the variant URL with the experiment key and no body; result is `VariablesOf` |
| `Commune.CommuneClient.GetVariant` | index.js:39-47 | distinctId updated as for Activate; same request as GetMultivariant; result is `VariantOf` |
| `Commune.CommuneClient.Track` | index.js:49-60 | distinctId updated as for Activate; POSTs the track URL without an experiment key and the event body; result is the fetched body unmodified |
| `Commune.DistinctIdPersists` | index.js:18-63 | after an override, a later call without one sends the same distinct id and the same device id; track's query has three pairs and no experiment key |

## Left out

- The HTTP exchange itself (`fetch` from cross-fetch, and the request headers).
  The method, URL and body of each request are modelled. Each request is
  returned as a value, and its outcome is a parameter: a transport failure, or a
  status with a body that parsed as JSON or did not.
- Which error is thrown. The model's `Throw` does not tell a network error from a
  TypeError.
- `JSON.stringify` and `res.json()`. Bodies are `Value` trees, and parsing is the
  outcome's `Option<Value>`.
- Percent-encoding and serialisation of the URL by `URL`/`searchParams`. The URL
  is its origin, its path and its ordered query pairs.
- `uuidv4` randomness. The generated id is a constructor parameter, and the
  model says nothing about uniqueness or UUID syntax.
- `_handleError` and its `console.error` log line. The call is not awaited and
  does not change any return value.
- async interleaving, and the race on `distinctId` between concurrent calls.
  Each method runs to completion.
- Non-string arguments. Identity values, experiment keys, event names and
  variable names are strings, and an omitted optional argument is `None`. A
  number or object passed where the source expects a string is not modelled,
  and neither is its `String()` conversion in the query.
- Numbers are integers, so fractions, exponents, `-0` and the rounding of
  integers above 2^53 to doubles are not modelled.
- `JsValue.ToKey`: the model does not cover a name that is an object with its own
  `toString` or `valueOf` key, for which the JavaScript conversion would differ
  or throw, and integers above 2^53, which `String()` writes with only their
  shortest round-trip digits (`String(2**60)` is `"1152921504606847000"`), and
  from 10^21 on in exponent form (`"1e+21"`), where the model writes all digits.
- Members of `Object.prototype` that `getVariant` can return are named, not
  modelled as values.
