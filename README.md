# ra-data-json-hal translation layer, in Dafny

This project models the request/response translation of `lib/index.js`, a
react-admin data provider for a HAL+JSON API. react-admin asks for an
operation (`GET_LIST`, `GET_ONE`, `CREATE`, `UPDATE`, `DELETE`,
`GET_MANY_REFERENCE`, `GET_MANY`, `UPDATE_MANY`, `DELETE_MANY`) on a named
resource. The provider turns the operation into HTTP requests and turns the
HAL+JSON answers back into `{data, total?}`.

Apart from the calls to the injected HTTP client and the promises around them
(lib/index.js:162-164, 184, 279), the layer is a pure function of its inputs
and of the client's answers. The model is therefore made of datatypes,
functions and lemmas, with the client as a function parameter:

- `wrappers.dfy`: `Option` and `Result`.
- `js_value.dfy` (module `JsValue`): the JavaScript values the layer handles,
  plus the parts of JavaScript semantics it relies on. These are truthiness,
  property reads (a read of `null`/`undefined` throws a TypeError), string
  concatenation, `Object.keys(...).length` and `len`. The Babel helpers are
  kept as maps: `_extends` is right-biased map union and
  `_objectWithoutProperties` is key removal.
- `protocol.dfy` (module `Protocol`): operation kinds, fetch options,
  requests, client calls, responses and results. It also defines `Outcome`,
  which separates an exception thrown synchronously (`Throws`) from a
  rejected promise (`Rejects`) and a resolved one (`Resolves`). `Config`
  holds the base URL and the collaborators that are not part of this model.
- `query_params.dfy` (module `QueryParams`): `getQueryParamsFromReactAdminParams`.
- `outbound.dfy` (module `Outbound`): `convertHttpDataProviderRequestToHttpRequest`.
- `inbound.dfy` (module `Inbound`): `converHttpResponseToDataProvider`.
- `batch.dfy` (module `Batch`): `requestMany`, `getMany`, `updateMany` and
  `deleteMany`. `Array.prototype.map` is `MapSeq`. `Promise.all` is `All`,
  an ordered join.
- `data_provider.dfy` (module `DataProvider`): the function returned by the
  default export, which routes each kind.

The HTTP client is a function parameter (`Client`). Its rejections become
`Rejects`.

Behaviour of `lib/index.js` worth knowing:

- A `GET_MANY` whose `ids` is not an array rejects with the string
  `'Unable to process request.'`. No dedicated error kind exists.
- `UPDATE_MANY` and `DELETE_MANY` with non-array ids throw a TypeError
  synchronously. Missing or null ids fail when `.map` is read from
  `undefined` or `null`. Any other non-array has no callable `map`.
- Every batch kind throws a TypeError synchronously when `params` itself is
  null or undefined.
- `GET_MANY` with an empty `ids` array never runs the query builder. It
  resolves even when the other params would make the builder throw. With a
  non-empty array, the builder runs inside the `ids.map` callback, so its
  TypeError escapes synchronously.

## Model

| member | source | states |
|---|---|---|
| `JsValue.Assign` | lib/index.js:7 | `_extends`: the result has the keys of both maps; a source entry wins over a target entry with the same key; other target entries are kept |
| `JsValue.Len` | lib/index.js:21-23 | `len` is the array length for an array and 0 for anything else, so it is never negative (a `nat`) |
| `JsValue.WithoutKeys` | lib/index.js:17 | `_objectWithoutProperties`: exactly the own entries whose keys are not listed, with their values unchanged |
| `QueryParams.RequestParameters` | lib/index.js:35-52 | building the parameter map throws (always a TypeError) exactly when params, `params.pagination` or `params.sort` is null, or params is undefined |
| `QueryParams.QueryString` | lib/index.js:29-54 | missing, falsy or key-less params give `""`; otherwise the result is `?` followed by the encoding of the parameter map, and it fails exactly when the map cannot be built; the result is empty iff there were no params |
| `QueryParams.ApiPage` | lib/index.js:49 | a non-zero numeric page p becomes p - 1; a falsy page (absent or 0) becomes undefined; a truthy page never does |
| `QueryParams.DirKeyIsFresh` | lib/index.js:45-52 | the `<field>.dir` key can never be `page`, `size` or `sort`, so it never overwrites them |
| `QueryParams.PageParameter` | lib/index.js:49 | with no filter override, `page` is `p - 1` for a non-zero numeric page p and undefined when the page is absent or 0 |
| `QueryParams.SizeSortAndDirection` | lib/index.js:45-52 | with no filter override, `size` equals `perPage`, `sort` equals `sort.field`, and `<field>.dir` carries `sort.order` |
| `QueryParams.FilterMergedLast` | lib/index.js:45-52 | the keys are exactly page, size, sort, the direction key and the filter's keys; every filter entry appears unchanged, even over a computed key |
| `QueryParams.UndefinedDirQuirk` | lib/index.js:41-52 | with no sort field, a parameter literally named `undefined.dir` is still sent |
| `QueryParams.PaginationOnly` | lib/index.js:35-52 | `{pagination: {page: p, perPage: s}}` with p >= 1 gives exactly `{page: p-1, size: s, sort: undefined, "undefined.dir": undefined}` |
| `Outbound.ToHttpRequest` | lib/index.js:85-125 | throws `Not Implemented` iff the kind is not one of the six handled ones; any other failure is a TypeError; every URL starts with `apiUrl/` |
| `Outbound.ItemRequests` | lib/index.js:93-117 | GET_ONE, UPDATE and DELETE use exactly `apiUrl/resource/id`, with empty options, PUT with the serialised data, and DELETE without a body |
| `Outbound.CreateRequest` | lib/index.js:95-102 | CREATE is a POST to `apiUrl/resource` whose body is the serialised `params.data` |
| `Outbound.ListRequest` | lib/index.js:88-92 | GET_LIST asks `apiUrl/resource` plus the query string with empty options, and fails exactly when the query builder does |
| `Outbound.ManyReferenceRequest` | lib/index.js:118-121 | GET_MANY_REFERENCE asks `apiUrl/target/id/resource` plus the query string and passes no options |
| `Outbound.MethodsByKind` | lib/index.js:86-121 | the effective method is GET exactly for GET_LIST, GET_ONE and GET_MANY_REFERENCE, POST only for CREATE, PUT only for UPDATE, DELETE only for DELETE; only CREATE and UPDATE carry a body |
| `Outbound.NullishParams` | lib/index.js:85-121 | with null or undefined params, GET_LIST asks the bare collection URL and the other five handled kinds throw a TypeError |
| `Inbound.EmbeddedList` | lib/index.js:134 | `json[EMBEDDED_KEY][resource]` throws a TypeError exactly when the body or its embedded section is null or undefined; otherwise it is that entry |
| `Inbound.ToDataResult` | lib/index.js:127-156 | throws `Not Implemented` iff the kind is not one of the same six; a total is present only for GET_LIST and GET_MANY_REFERENCE; for GET_MANY_REFERENCE the total is `len(data)`; UPDATE and DELETE results carry an `id` |
| `Inbound.ListResult` | lib/index.js:132-136 | GET_LIST gives `json[EMBEDDED][resource]` and `json[PAGINATION].totalElements`; it fails exactly when the body, the embedded section or the pagination section is null or undefined |
| `Inbound.ManyReferenceResult` | lib/index.js:137-142 | GET_MANY_REFERENCE returns `json[EMBEDDED_KEY][resource]` with total `len` of it, and throws exactly when the body or its embedded section is null or undefined |
| `Inbound.ManyReferenceIgnoresPagination` | lib/index.js:137-142 | the GET_MANY_REFERENCE result does not change when the pagination section changes; its total is the array length of the data, or 0 when the data is not an array (`len`, lines 21-23) |
| `Inbound.UpdateEchoesParams` | lib/index.js:145-146 | UPDATE returns `{id: params.id}` overlaid by `params.data`, whatever the response: `data.id` wins, and every data entry is kept |
| `Inbound.DeleteEchoesId` | lib/index.js:151-152 | DELETE returns exactly `{id: params.id}`, whatever the response |
| `Inbound.BodyReturnedUnchanged` | lib/index.js:143-150 | GET_ONE and CREATE return the parsed body unchanged, without a total |
| `Inbound.ListExample` | lib/index.js:132-136 | a body with two embedded `widgets` and `totalElements` 42 gives `{data: [a, b], total: 42}` |
| `Batch.MapSeq` | lib/index.js:162-164 | `ids.map(f)` keeps the length, and the i-th result is `f` of the i-th element |
| `Batch.All` | lib/index.js:162-164 | `Promise.all` succeeds iff every element does, with the values in order; otherwise it fails with the error of an element before which none failed |
| `Batch.SendAll` | lib/index.js:162-164 | joining the client's answers succeeds iff every call does; the i-th response is the answer to the i-th call, and a failure is one of the calls' errors |
| `Batch.RequestMany` | lib/index.js:158-165 | exactly one call per id, in order; the i-th goes to `apiUrl/resource/ids[i]` with the shared options |
| `Batch.SelfLinkRecord` | lib/index.js:186-192 | a `getMany` record is the body's entries plus `id` from the self link, which overrides a body `id`; it throws exactly when the body, `_links` or `_links.self` is null or undefined |
| `Batch.GetManyCalls` | lib/index.js:182-185 | no ids means no calls and no query building; otherwise it fails (TypeError) exactly when the query of the params without `ids` cannot be built, and the i-th call is the i-th id URL followed by that query, without options |
| `Batch.GetMany` | lib/index.js:177-197 | null or undefined params throw a TypeError; ids that are not an array reject with `'Unable to process request.'`; it throws exactly for nullish params or for array ids whose calls cannot be built; a resolved result has one record per id and no total |
| `Batch.UpdatedRecord` | lib/index.js:213-218 | an `updateMany` record has the Location-header id, overlaid by the shared data, whose entries are all kept |
| `Batch.DeletedRecord` | lib/index.js:237-241 | a `deleteMany` record has exactly one key, `id`, taken from the response's Location header |
| `Batch.ManyCalls` | lib/index.js:208-211 | the calls of UPDATE_MANY and DELETE_MANY fail (TypeError) exactly when params is null or undefined or `ids` is not an array; otherwise there is one call per id |
| `Batch.UpdateMany` | lib/index.js:208-221 | `updateMany` throws exactly for null or undefined params or non-array ids; a resolved result has one record per id and no total |
| `Batch.DeleteMany` | lib/index.js:232-244 | `deleteMany` throws exactly for null or undefined params or non-array ids; a resolved result has one record per id and no total |
| `Batch.ManyCallsMatchSingleRequests` | lib/index.js:162-163 | the i-th batch call goes to `apiUrl/resource/ids[i]`, the same URL and method as the single UPDATE or DELETE for that id; UPDATE_MANY sends the raw data as its body |
| `Batch.UpdateManyResult` | lib/index.js:208-220 | UPDATE_MANY resolves iff every call succeeds, and otherwise rejects with one failing call's own reason; the i-th record comes from the i-th response |
| `Batch.DeleteManyResult` | lib/index.js:232-243 | DELETE_MANY resolves iff every call succeeds, and otherwise rejects with one failing call's own reason; the i-th record is exactly `{id}` from the i-th response's Location header |
| `Batch.GetManyRequests` | lib/index.js:182-185 | GET_MANY calls each id URL followed by the query of the params without `ids`; when `ids` is the only param, the URLs are called unchanged |
| `Batch.GetManyResult` | lib/index.js:183-194 | GET_MANY resolves iff every call succeeds and every body has a self link, and otherwise rejects, either with a TypeError from a body without a self link or with one failing call's own reason; the i-th record is shaped from the i-th body |
| `Protocol.KindOf` | lib/index.js:264-273 | each of the nine request-type names selects its own kind, and every other string is `Other` with that name |
| `DataProvider.SingleCall` | lib/index.js:279 | the single-request call passes the mapped URL and options, plus the resource and the type; `SingleRequestPath` states what the dispatcher does with its answer |
| `DataProvider.Dispatch` | lib/index.js:264-282 | the provider throws `Not Implemented` exactly for kinds that are neither handled nor batch; with a client that never throws, any other synchronous throw is a TypeError |
| `DataProvider.SingleRequestPath` | lib/index.js:275-281 | a non-batch kind makes exactly the one mapped call; a mapping error throws, a client failure rejects, and otherwise the outcome is the response mapper's result for the answer |
| `DataProvider.BatchKindsBypassMappers` | lib/index.js:265-273 | GET_MANY, UPDATE_MANY and DELETE_MANY are answered by the batch paths alone and never throw `Not Implemented` |
| `DataProvider.MappersAgreeOnKinds` | lib/index.js:122-154 | the request mapper's default (lines 122-123) and the response mapper's default (lines 153-154) throw `Not Implemented` for the same kinds, those outside the six |
| `DataProvider.UnknownKindThrowsFirst` | lib/index.js:275-277 | a type string that is none of the nine names throws `Not Implemented` whatever the client would answer, so no call is made |
| `DataProvider.ResponseMapperDefaultUnreachable` | lib/index.js:275-281 | behind the provider, a rejection with `Not Implemented` can only be the client's own |
| `DataProvider.CreateRoundTrip` | lib/index.js:279-281 | CREATE posts the serialised data to `apiUrl/resource` and resolves to the body the server answers with |

## Left out

- `_fetch.queryParameters`, `_fetch.extractIDFromResourceSelfLink` and
  `JSON.stringify` are uninterpreted function fields of `Config`.
  `./fetch` is not part of this model.
- `EMBEDDED_KEY`, `PAGINATION_KEY`, `LINKS_KEY` and `LOCATION_HEADER` are
  opaque string fields of `Config`. `./constants` is not part of this model.
- The injected `httpClient` and its default `_fetch.fetchJson` are modelled
  as a function from a call to a response or an error. The case-insensitive
  `headers.get` is a lookup function in `Response`.
- DataProvider.Dispatch: a client that throws synchronously is not modelled.
  The source calls `httpClient` synchronously (lib/index.js:163, 184, 279),
  so such a throw would escape the provider at once. In the model every
  client failure is a `Rejects`, so only TypeError and `Not Implemented`
  are ever thrown.
- Key order: the encoder receives an ordered JavaScript object. Its keys
  come in this order: page, size, sort, the direction key, then the filter
  keys that are new. A `map<string, Value>` keeps the entries but not their
  order.
- Promises and timing: a rejection is a value, not an event.
  `Promise.all` reports the first failure in id order, whereas the real one
  reports the first failure in time. The model does not capture that all
  calls are issued before any answer arrives.
- Numbers are integers. Fractional numbers and floating-point rounding are
  not modelled. `page - 1` on a truthy non-number gives `NaN`, except that
  `true` gives 0; JavaScript would also parse numeric strings and arrays.
- Property reads on arrays, strings, numbers and booleans yield `undefined`.
  There are no indices, no `length` and no prototype members. Arrays and
  strings used as `_extends` sources or as `_objectWithoutProperties`
  inputs contribute no entries, whereas JavaScript copies their indices.
- `'' + v` for an object is always `[object Object]`. A custom `toString`
  is not modelled.
- `resource` is a string. The source concatenates whatever value it is given.
- `Batch.GetMany` takes no `resource`, because `getMany` never uses its
  `resource` argument.
- `_defineProperty` keeps only its map semantics, a key insertion. Property
  descriptors are not modelled.
- `generateHttpClient` is an empty stub and is not modelled.
