# Plausible Stats API client — a Dafny model

This project models the core of a small TypeScript client for the Plausible Stats API
(version 2). The client holds an API key and a base URL and has a single operation,
`query`. That operation does four things:

- it turns the query parameters into an ordered JSON object, with some keys included
  only under conditions;
- it POSTs that object to `<baseUrl>/api/v2/query` with a bearer credential;
- on a 2xx status it returns the parsed reply unchanged;
- on any other status it throws a `PlausibleApiError` that carries the message, the
  status and the raw payload.

The modules follow the source:

- `Wrappers` holds `Option`.
- `Json` holds an abstract JSON value. Objects are ordered member lists. `Set` and
  `Get` give them JavaScript's property assignment and lookup.
- `Types` holds the query vocabulary of src/types.ts: metrics, dimensions, operators,
  directions, date ranges, the ordering pair and the structured error.
- `Filters` holds the recursive filter language and its tag-directed encoding.
- `Client` holds the constructor, the request body, the URL, the headers and the
  response classification.
- `Scenarios` states, as facts about the model, the behaviours tests/client.test.ts
  exercises, together with the edge cases of the inclusion rules. On one point it
  differs from the test: an API error's message is the server's text verbatim, not
  the prefixed message the test expects.

The network is a parameter. `Query` takes the exchange as a function from the request
to either a transport failure or a reply (a status and a parsed body). Everything else
is pure.

Each value encoder has a decoder as its partner. These are the metric list, the
dimension list, the filter language, the date range and the ordering pair. For each,
both directions are proved:

- decoding an encoding gives back the value;
- whatever decodes is the encoding of its result.

For the body only the first direction is proved. Its partner is `DecodeBody`, and
reading back the body built from `p` gives `Normalize(p)`. That is `p` with empty
dimension and filter lists made absent. `DecodeBody` ignores member order and unknown
keys, so it is not an exact inverse. Instead, `BodyShape` fixes the exact member list:
which keys, in which order, and the value under each. Two parameter sets give the same
body exactly when their normal forms agree.

The error payload also has one direction only. `ErrorMessageRoundTrip` shows that a
payload carrying a message under `error` yields that message.

The body is defined once, as a concatenation of guarded members (`BuildBody`). It is
also defined literally, as the object literal followed by the six guarded assignments
(`AssignedBody`). The two are proved equal.

Where the code and its tests or documentation differ, the model follows the code:

- The error message is the payload's `error` string, verbatim (src/client.ts:68-72).
  tests/client.test.ts:310 and tests/client.test.ts:335 expect it to include the
  prefix "Plausible API error: ". The code adds no prefix, and
  `Scenarios.ApiErrorMessageIsVerbatim` states what the code does.
- `metrics` may be empty. The value list of a simple filter may be empty. `limit` and
  `offset` may be any integer, negatives included. The code checks none of these.
- The guard on `order_by` is its truthiness (src/client.ts:41). A pair is always truthy, so
  it is sent exactly when it is present.

## Model

| member | source | states |
|---|---|---|
| Json.Get | src/client.ts:69 | a property read finds a value exactly when the object has the key |
| Json.Set | src/client.ts:33-55 | a property assignment stores the value under the key; an existing key keeps the key list as it was, a new key appends exactly the member `k: v` after all others |
| Json.ReplaceFrame | src/client.ts:33-55 | overwriting an existing property leaves the value under every other key unchanged |
| Json.SetFrame | src/client.ts:33-55 | a property assignment leaves the value under every other key unchanged |
| Json.GetFindsMember | src/client.ts:69 | a property read yields a member stored in the object, namely the first member carrying the key |
| Types.ParseMetric | src/types.ts:36-53 | a token is accepted as a metric exactly when it is one of the fourteen metric names |
| Types.MetricName | src/types.ts:36-53 | every metric is sent as one of the fourteen names, and that name reads back as the same metric |
| Types.MetricVocabulary | src/types.ts:36-53 | the fourteen names are exactly the names of metrics, and no two metrics share a name |
| Types.MetricCount | src/types.ts:36-53 | the metric vocabulary has exactly fourteen names |
| Types.DimensionCount | src/types.ts:58-84 | the fixed dimension vocabulary has exactly twenty-one names |
| Types.MetricTagExact | src/types.ts:36-53 | a token that reads as a metric is that metric's own name, so the metric decoder accepts nothing the encoder does not produce |
| Types.ParseDimension | src/types.ts:58-84 | a string is a dimension exactly when it is one of the 21 fixed names or starts with `event:props:`; a custom-property dimension carries the text after that prefix, which may be empty |
| Types.ParseFixedDimension | src/types.ts:58-84 | a string reads as a fixed dimension exactly when it is one of the 21 fixed names, and it is then that dimension's own name |
| Types.FixedNamesLackPropsPrefix | src/types.ts:58-84 | no fixed dimension name starts with `event:props:`, so the two forms of dimension never overlap |
| Types.FixedDimensionName | src/types.ts:58-84 | every fixed dimension is named by one of the 21 fixed names |
| Types.DimensionName | src/types.ts:58-84 | every dimension is sent as a valid dimension string, which starts with `event:props:` exactly for custom properties |
| Types.DimensionRoundTrip | src/types.ts:58-84 | a dimension's name reads back as that dimension, and a string that reads as a dimension is that dimension's name |
| Types.ParseFilterOperator | src/types.ts:89-95 | a tag is a simple-filter operator exactly when it is one of the six operator names |
| Types.FilterOperatorName | src/types.ts:89-95 | each simple-filter operator's tag reads back as that operator |
| Types.ParseLogicalOperator | src/types.ts:100 | a tag is a logical operator exactly when it is `and`, `or` or `not`, and such a tag is never a simple-filter operator |
| Types.LogicalOperatorName | src/types.ts:100 | each logical operator's tag reads back as that operator |
| Types.OperatorTagsExact | src/types.ts:89-100 | a tag that reads as an operator of either kind is that operator's own name |
| Types.TagVocabulariesDisjoint | src/types.ts:89-100 | the simple and the logical tag sets have no tag in common |
| Types.ParseDirection | src/types.ts:178 | a direction is accepted exactly when it is `asc` or `desc` |
| Types.DirectionName | src/types.ts:178 | each direction's name reads back as that direction |
| Types.NewApiError | src/types.ts:275-282 | the error keeps the given message, status code and response exactly, and its name is `PlausibleApiError` |
| Filters.EncodeStrings | src/types.ts:117 | a value list is sent as an array of the same length holding the same strings at the same positions |
| Filters.EncodeFilter | src/types.ts:117-173 | a filter is sent as an array headed by a string tag; the tag is a simple-filter operator exactly for simple filters and a logical operator exactly for logical ones |
| Filters.EncodeFilters | src/types.ts:149-173 | a filter list is sent as the arrays of its filters, one per filter, in the given order |
| Filters.StringsRoundTrip | src/types.ts:117 | a value list of any length, empty included, reads back unchanged |
| Filters.FilterRoundTrip | src/types.ts:89-173 | decoding an encoded filter by its tag gives back the filter: operator, field, values, nesting depth and subfilter order |
| Filters.FiltersRoundTrip | src/types.ts:149-173 | a list of filters reads back unchanged, element order included |
| Filters.StringsCanonical | src/types.ts:117 | any array that reads as a value list is the encoding of that list |
| Filters.FilterCanonical | src/types.ts:117-173 | any JSON value that reads as a filter is exactly the encoding of that filter |
| Filters.FiltersCanonical | src/types.ts:149-173 | any array that reads as a filter list is exactly the encoding of that list |
| Client.NewClient | src/client.ts:12-15 | the client keeps the key; a missing base URL becomes `https://plausible.io`, and a given one, even the empty string, is kept as is |
| Client.EncodeDateRange | src/types.ts:31 | a relative range is sent as its token string and only then as a string; a custom range is sent as the pair `[start, end]` |
| Client.DecodeDateRange | src/types.ts:31 | only a string or an array of exactly two strings reads as a date range, and what reads back re-encodes to the same JSON |
| Client.DateRangeRoundTrip | src/types.ts:31 | a relative token and a custom pair both read back unchanged |
| Client.EncodeOrderBy | src/types.ts:195 | the ordering is sent as a pair whose first element is the field and whose second reads back as the direction |
| Client.DecodeOrderBy | src/types.ts:195 | only a pair of a string and `asc`/`desc` reads as an ordering, and what reads back re-encodes to the same JSON |
| Client.OrderByRoundTrip | src/types.ts:195 | an ordering pair of any field and either direction reads back unchanged |
| Client.EncodeMetrics | src/client.ts:27-31 | the metric list is sent as a list of the same length holding each metric's name at its position |
| Client.EncodeDimensions | src/client.ts:33-35 | the dimension list is sent as a list of the same length holding each dimension's name at its position |
| Client.MetricsRoundTrip | src/client.ts:27-31 | the metric list in the body reads back as the caller's list: same metrics, same order, duplicates and emptiness kept |
| Client.MetricsCanonical | src/client.ts:27-31 | any array that reads as a metric list is the encoding of that list |
| Client.DimensionsRoundTrip | src/client.ts:33-35 | the dimension list in the body reads back as the caller's list, custom properties included |
| Client.DimensionsCanonical | src/client.ts:33-35 | any array that reads as a dimension list is the encoding of that list |
| Client.Sent | src/client.ts:27-55 | only the nine body keys are ever sent |
| Client.SentKeys | src/client.ts:27-55 | the chosen keys are exactly the sent ones: the three required ones; `dimensions` and `filters` when present and non-empty; `order_by`, `limit`, `offset` and `include_imported` whenever present, even as 0 or false |
| Client.SentKeysInBodyOrder | src/client.ts:27-55 | the chosen keys follow the fixed order site_id, date_range, metrics, dimensions, filters, order_by, limit, offset, include_imported |
| Client.SentKeysDistinct | src/client.ts:27-55 | no key is chosen twice |
| Client.RequiredMembers | src/client.ts:27-31 | the object literal has exactly the keys site_id, date_range and metrics, in that order |
| Client.ListsPrefix | src/client.ts:27-43 | up to `order_by`, the body's keys are the three required ones followed by `dimensions`, `filters` and `order_by`, each only when its guard holds |
| Client.BodyKeyList | src/client.ts:27-55 | the body's keys, in order, are exactly the chosen keys |
| Client.SentValue | src/client.ts:27-55 | a key has a value on the wire exactly when it is sent |
| Client.RequiredLookup | src/client.ts:27-31 | the three required members hold the site, the encoded date range and the encoded metric list |
| Client.DimensionsLookup | src/client.ts:27-35 | up to `dimensions`, each key the body has holds the caller's value |
| Client.ListsLookup | src/client.ts:27-39 | up to `filters`, each key the body has holds the caller's value |
| Client.ListsPrefixLookup | src/client.ts:27-43 | up to `order_by`, each key the body has holds the caller's value |
| Client.BodyLookup | src/client.ts:27-55 | reading any key of the body gives the caller's value for it when the key is sent, and nothing otherwise |
| Client.BodyShape | src/client.ts:27-55 | the body has a key exactly when it is sent, no key twice, the keys in the fixed order, and each key holding the caller's value |
| Client.Normalize | src/client.ts:33-39 | the normal form keeps every parameter and every non-empty list as given; an empty dimension or filter list becomes absent, so no empty list is left |
| Client.RequiredRoundTrip | src/client.ts:27-31 | reading the required members of the body gives the caller's site, date range and metrics |
| Client.ListsRoundTrip | src/client.ts:33-39 | reading the list members of the body gives the caller's lists, with an empty list read as absent |
| Client.ScalarsRoundTrip | src/client.ts:41-55 | reading `order_by`, `limit`, `offset` and `include_imported` gives the caller's values, and absent ones stay absent |
| Client.BodyRoundTrip | src/client.ts:27-55 | decoding the body gives the caller's parameters up to empty lists: nothing is lost or altered on the way to the wire |
| Client.ListAssignments | src/client.ts:27-43 | the object literal and the first three guarded assignments, read as statements, produce the body up to `order_by` |
| Client.AssignedBody | src/client.ts:27-55 | the statements as written build exactly the body `BuildBody` describes |
| Client.AssignFresh | src/client.ts:33-55 | assigning a key the object does not yet have appends one member and one key |
| Client.BodyDeterminedByNormalForm | src/client.ts:33-39 | two parameter sets give the same body exactly when they agree up to empty lists |
| Client.MinimalBody | src/client.ts:27-55 | with only the required parameters, the body has exactly the three required keys |
| Client.TargetUrl | src/client.ts:25 | the endpoint starts with the base URL and ends with `/api/v2/query`, with nothing removed or inserted between them |
| Client.DefaultEndpoint | src/client.ts:14-25 | without a configured base URL, every query goes to `https://plausible.io/api/v2/query` |
| Client.CustomEndpoint | src/client.ts:14-25 | a configured base URL is used verbatim, a trailing slash included |
| Client.BearerToken | src/client.ts:60 | a credential is read only from a value that is `Bearer ` followed by that credential |
| Client.Headers | src/client.ts:59-62 | there are exactly two headers: an Authorization value whose bearer credential is the API key, and `Content-Type: application/json` |
| Client.BuildRequest | src/client.ts:24-64 | the request is a POST to the endpoint, with exactly the two headers of `Headers` (the JSON content type and the client's key as credential), and with the built body |
| Client.RequestCarriesParams | src/client.ts:27-63 | the body of the request reads back as the caller's parameters, up to empty lists |
| Client.IsOk | src/client.ts:66 | a response counts as successful exactly when its status is in the 2xx range |
| Client.ErrorMessage | src/client.ts:67-69 | the message is the payload's `error` text when that member is a string; a payload with no `error` member, or one that is not an object, gives the empty message |
| Client.ErrorMessageRoundTrip | src/client.ts:67-72 | a payload whose `error` member is a given text yields that text verbatim, wherever the member stands and whatever other members the payload has |
| Client.ClassifyResponse | src/client.ts:66-75 | a 2xx reply is returned unchanged; any other status with a non-null payload becomes a `PlausibleApiError` that carries that status, the payload and its `error` text; a body that is not JSON, or a null error payload, escapes as an uncaught fault that is not a transport failure |
| Client.Query | src/client.ts:24-76 | a transport failure escapes as itself and is never an API error; any reply is classified by `ClassifyResponse`; the body is returned exactly when the reply is 2xx JSON, and unchanged; a non-2xx reply with a non-null JSON payload always becomes an API error with that reply's status, payload and `error` text, and an API error comes from no other reply |
| Scenarios.FilterListOnTheWire | tests/client.test.ts:90-121 | the filter list `[["is", "event:page", ["/home"]]]` is sent as exactly that nested array |
| Scenarios.LogicalFilterOnTheWire | tests/client.test.ts:123-161 | a logical filter is sent with its tag first and its subfilters as an array |
| Scenarios.PaginationOnTheWire | tests/client.test.ts:163-195 | `limit = 10` and `offset = 20` are sent as given |
| Scenarios.OrderByOnTheWire | tests/client.test.ts:197-227 | the ordering is sent as `["visitors", "desc"]` |
| Scenarios.FalsyScalarsAreSent | src/client.ts:45-55 | `limit = 0`, `offset = 0` and `include_imported = false` are still sent |
| Scenarios.EmptyListsAreNotSent | src/client.ts:33-39 | an empty dimension or filter list is not sent, and gives the same body as leaving it out |
| Scenarios.BasicBody | src/client.ts:27-31 | a query with only the required fields sends exactly its three members |
| Scenarios.AuthorizationHeader | tests/client.test.ts:229-257 | the key `my-secret-key` is sent as `Bearer my-secret-key` |
| Scenarios.CustomBaseUrl | tests/client.test.ts:259-290 | the base URL `https://custom.plausible.io` gives the endpoint `https://custom.plausible.io/api/v2/query` |
| Scenarios.ApiErrorMessageIsVerbatim | src/client.ts:66-72 | a 400 reply `{"error": "Invalid API key"}` gives an API error with message `Invalid API key` and status 400, and that message is not the prefixed one the test expects |
| Scenarios.NetworkErrorPropagates | tests/client.test.ts:342-365 | a transport failure in fetch reaches the caller unchanged |
| Scenarios.SuccessBodyReturnedUnchanged | src/client.ts:66-75 | a 2xx reply's body is what `query` returns |

## Left out

- `fetch`, `async` and promises: the exchange is a parameter of `Query`. The parsed body of a reply is `Option<Json>`, where `None` stands for a body that `response.json()` cannot parse.
- `JSON.stringify` and the text form of JSON: the body is an ordered abstract JSON object. Escaping and whitespace are not modelled.
- JSON numbers are integers in the model. Fractional or non-finite `limit`/`offset` values and floating-point result values are not modelled. Result rows are opaque and pass through unchanged.
- The `QueryResponse`, `QueryResult` and `QueryResponseMeta` shapes (src/types.ts:204-240): the code casts the reply without checking it, so the model returns the JSON value as received.
- ErrorMessage: when the payload's `error` member is present but not a string, JavaScript converts it with `String(...)`. The model gives the empty message instead.
- The `rateLimit = 600` field (src/client.ts:10) is never read, so no throttling is modelled.
- The regular-expression meaning of `matches`/`matches_not` values: values are plain strings.
- Header names are compared exactly. HTTP's case-insensitive header names and the `Headers` object are not modelled.
- A transport failure is an opaque cause string. The kinds of error `fetch` throws are not distinguished.
- The `Error` machinery behind `PlausibleApiError` (stack traces, `instanceof`) is not modelled. Only its name, message, status code and response are.
- src/mod.ts only re-exports, and tests/mocks.ts is test plumbing: neither is part of this model.
- JavaScript lists integer-like object keys before all others. The model keeps plain insertion order, which agrees for every key a query body uses.
- Payload objects are taken to have distinct keys. `Get` returns the first member with a key, while `JSON.parse` keeps the last of duplicate keys, so a payload with a repeated `error` key may give a different message.
