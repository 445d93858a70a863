# Fetchly in Dafny

A model of the core of Fetchly, a small TypeScript HTTP client built on the host's `fetch`. It covers two parts and proves their properties:

- **The query-string stringifier**, `stringifyParams` and its twin `stringifySearchParams`. It drops parameters whose value is `null`, `undefined`, `''` or `NaN`, writes the rest as `key=value` with no percent-encoding, joins them with `&` and puts `?` in front.
- **The `Fetchly` client class.** `configure` installs instance defaults. `_fetch` does one request, and the wrappers `get`, `post`, `put` and `delete` call it. One request goes through these steps:
  - merge call-site options over instance options with `??`;
  - build the URL and the request options;
  - call the host `fetch`;
  - pick a body decoder from the response's `Content-Type`;
  - classify the outcome into a `FetchlyResult`;
  - fire the lifecycle hooks `onRequest`, `onSuccess`/`onError` and `onInternalError`.

## Modules

| file | module | contents |
|---|---|---|
| `nullish.dfy` | `Nullish` | `Option` for an optional field, and `Coalesce` for `??` |
| `values.dfy` | `Values` | parameter values, `String(v)` inside a template literal, truthiness |
| `records.dfy` | `Records` | a plain object as a key-ordered list of entries, and the spread merge `{...a, ...b}` |
| `query_text.dfy` | `QueryText` | `join`, `split`, and cutting at the first separator |
| `stringify_params.dfy` | `ParamsQuery` | `stringifyParams`, a reader for its output, and the properties of both |
| `stringify_search_params.dfy` | `SearchParamsQuery` | `stringifySearchParams` |
| `enums.dfy` | `Enums` | `Method`, `ErrorType`, `ResponseFormat`, `Status` |
| `types.dfy` | `Types` | `Options`, `RequestConfig`, `FetchlyResult`, the host outcome, hook events |
| `pipeline.dfy` | `Pipeline` | the pure parts of `configure` and `_fetch`: defaults, merging, the URL, decoder selection |
| `lifecycle.dfy` | `Lifecycle` | classifying results, firing hooks, and the whole outcome of one request (`Run`) |
| `fetchly.dfy` | `Client` | class `Fetchly`, whose imperative methods are proved equal to the functions above |

### Modelling choices

- **Objects.** A JavaScript object is a sequence of `(key, value)` entries in `Object.keys` order.
  - `{...a, ...b}` is `Merge(a, b)`. A key of `b` already in the result keeps its position and takes `b`'s value. A new key is appended.
- **Parameter values.**
  - Numbers are integers. `NaN` is a separate case.
  - `String(v)` writes an integer in decimal.
- **Optional fields.** Every optional field is an `Option`. A call without options is a call with `EmptyOptions`.
- **The host.** The host `fetch` is an input, `HostOutcome`. Either it completes with a status, a status text, an optional `Content-Type` and the result of each body decoder, or it throws.
- **Thrown values.** A thrown value is a `TypeError` (`TypeErrorKind`), a `Response` (`ResponseLike`), `null` or `undefined` (`ThrownNull`), or anything else (`Other`).
- **Decoded bodies.** A decoded body is the JSON value `null` (`JsonNull`) or any other value. A `null` body or thrown value leaves its field of the result empty, so a result carries at most one of `data`, `error` and `internalError`, and exactly one unless that value was `null`.
- **`JSON.stringify(body)`** is an input string, `json`.
- **Hooks.** A hook is known only by what calling it does: it returns, or it throws.
- **The hook trace.** Firing hooks appends `Event(kind, tier)` to a trace. The tier is `Instance` or `CallSite`.
- **Outcome of `_fetch`.** The result of `_fetch` is `Resolved(result)` or `Rejected(thrown)`.
  - The `onInternalError` pair runs inside the `catch` block, outside the `try`. A throw from it therefore rejects the promise.
  - In the model that is the only way `_fetch` rejects. The abort signal and `JSON.stringify(body)` are set up before the `try`, so a throw from either would also reject; both are left out below.
- **The query-string reader.** `ParamsQuery.ParseQuery` is a reader for the query string: drop the `?`, split at `&`, and cut each piece at its first `=`. It is the partner against which the stringifier's round trip is proved.
  - The round trip only holds under `QuerySafe`: no `&` or `=` in keys, and no `&` in values. Without that, the unencoded format is ambiguous.

## Model

| member | source | states |
|---|---|---|
| `ParamsQuery.StringifyParams` | src/helpers/stringifyParams.ts:30 | the output always starts with `?` |
| `ParamsQuery.RenderAll` | src/helpers/stringifyParams.ts:27 | one `key=value` piece per kept property, in order |
| `ParamsQuery.FilteredMembers` | src/helpers/stringifyParams.ts:19-26 | the filter keeps exactly the properties whose value is not `null`, `undefined`, `''` or `NaN` |
| `ParamsQuery.FilteredAppend` | src/helpers/stringifyParams.ts:19-26 | the filter keeps input order: filtering distributes over concatenation |
| `ParamsQuery.FilteredEmpty` | src/helpers/stringifyParams.ts:19-26 | the filter leaves nothing exactly when every value is one it drops |
| `ParamsQuery.FilteredAllEmitted` | src/helpers/stringifyParams.ts:19-26 | input whose values all pass the filter survives it whole |
| `ParamsQuery.FilteredSkipsDropped` | src/helpers/stringifyParams.ts:19-26 | a run of dropped values contributes nothing wherever it stands |
| `ParamsQuery.KeptKinds` | src/helpers/stringifyParams.ts:20-26 | booleans, numbers (`false` and `0` included) and non-empty strings are never dropped |
| `ParamsQuery.ParseStringify` | src/helpers/stringifyParams.ts:18-31 | reading the query back gives every kept property, in input order, as `(key, String(value))` (round trip on safe input) |
| `ParamsQuery.KeyOccursIff` | src/helpers/stringifyParams.ts:20-28 | a key occurs in the query if and only if the input gives it a value that is not `null`, `undefined`, `''` or `NaN` |
| `ParamsQuery.BareQuestionMarkIff` | src/helpers/stringifyParams.ts:28-30 | the output is exactly `"?"` if and only if nothing passes the filter (empty input included) |
| `ParamsQuery.AmpersandCount` | src/helpers/stringifyParams.ts:27-28 | on safe input the query holds one `&` fewer than the kept pairs, or none when nothing is kept |
| `ParamsQuery.StringifyFourEmitted` | src/helpers/stringifyParams.ts:19-30 | four kept properties become `?` and four `key=value` pieces joined by single `&` |
| `ParamsQuery.StringifyAroundDropped` | src/helpers/stringifyParams.ts:19-30 | dropped properties between kept ones leave no trace and no extra `&` |
| `ParamsQuery.DocumentedExample` | src/helpers/stringifyParams.ts:9-16 | `{q:'apple', category:'fruits', price:10, inStock:true}` gives `?q=apple&category=fruits&price=10&inStock=true` |
| `ParamsQuery.PaginationExample` | src/tests/package.test.ts:43-50 | `{page:1, per_page:10, sort_by:'title', order_by:'asc'}` gives `?page=1&per_page=10&sort_by=title&order_by=asc` |
| `ParamsQuery.FilterExample` | src/helpers/stringifyParams.ts:20-28 | `null`, `undefined`, `''` and `NaN` are dropped, while `1`, `false` and `0` are kept, giving `?a=1&f=false&g=0` |
| `SearchParamsQuery.StringifySearchParams` | src/helpers/stringifySearchParams.ts:30 | the output always starts with `?` |
| `SearchParamsQuery.SameAsStringifyParams` | src/helpers/stringifySearchParams.ts:18-31 | returns the same string as `stringifyParams` on every input |
| `SearchParamsQuery.ParseStringifySearch` | src/helpers/stringifySearchParams.ts:18-31 | the round trip with the query reader on safe input |
| `SearchParamsQuery.SearchKeyOccursIff` | src/helpers/stringifySearchParams.ts:20-28 | a key occurs if and only if its value passes the filter |
| `SearchParamsQuery.SearchAmpersandCount` | src/helpers/stringifySearchParams.ts:19-28 | the number of `&` is the kept count minus one, or zero |
| `SearchParamsQuery.SearchBareQuestionMarkIff` | src/helpers/stringifySearchParams.ts:28-30 | the output is exactly `"?"` if and only if nothing passes the filter |
| `SearchParamsQuery.SearchPaginationExample` | src/tests/package.test.ts:43-50 | `{page:1, per_page:10, sort_by:'title', order_by:'asc'}` gives `?page=1&per_page=10&sort_by=title&order_by=asc` |
| `SearchParamsQuery.SearchDocumentedExample` | src/helpers/stringifySearchParams.ts:9-16 | the documented example gives `?q=apple&category=fruits&price=10&inStock=true` |
| `QueryText.SplitJoin` | src/helpers/stringifyParams.ts:28 | splitting a `&`-join of pieces without `&` gives the pieces back |
| `QueryText.CountJoin` | src/helpers/stringifyParams.ts:28 | a join of n pieces without the separator holds n - 1 separators |
| `QueryText.CutJoin` | src/helpers/stringifyParams.ts:27 | cutting `key=value` at its first `=` gives the key and the value when the key has no `=` |
| `Values.NatToString` | src/helpers/stringifyParams.ts:27 | a number is written as non-empty decimal digits that denote the number, with no leading zero unless the number is 0 |
| `Values.IntToString` | src/helpers/stringifyParams.ts:27 | a negative number is written as `-` and the digits of its magnitude, any other as its digits alone; the digits denote the number and have no leading zero unless the magnitude is 0 |
| `Records.MergeSpec` | src/index.ts:131 | for objects with distinct keys, `{...a, ...b}` looks up each key in `b` first and then in `a`, and holds exactly the keys of both; `a`'s keys keep their order, and the keys only `b` has follow in `b`'s order |
| `Enums.NamesAreDistinct` | src/enums/ResponseFormat.ts:1-7 | the string values of distinct enum members are distinct |
| `Pipeline.ConfiguredFields` | src/index.ts:85-101 | `configure` stores the given value or the default for timeout (30000), mode, cache, credentials, redirect, referrer, referrerPolicy and showLogs (false); all other fields are stored verbatim |
| `Pipeline.ConfiguredEmpty` | src/index.ts:64-101 | `configure({})` stores exactly the defaults, so earlier values are forgotten |
| `Pipeline.ConfiguredIdempotent` | src/index.ts:85-101 | configuring again with what `configure` stored changes nothing |
| `Pipeline.ConfigLayering` | src/index.ts:140-150 | every pass-through field is the call-site value if present, else the instance value. The timeout is `call ?? instance ?? 3000`, 3000 when both are absent, and on a configured instance the 3000 is never used |
| `Pipeline.HeadersMerged` | src/index.ts:142 | headers are the key-wise union, with the call-site value winning on a shared key |
| `Pipeline.BodyAndNext` | src/index.ts:135-161 | a body is sent if and only if `body` is truthy: `FormData` as it is, anything else as its JSON text. `next` is attached if and only if the method is GET, each field call-site first |
| `Pipeline.UrlShape` | src/index.ts:130-133 | the URL is `(call.baseURL ?? instance.baseURL ?? '') + url + query`. The query is empty if and only if neither side has `params`, and starts with `?` otherwise |
| `Pipeline.QueryMergesParams` | src/index.ts:130-131 | the query reads back as the kept merged parameters, with a call-site parameter winning over the instance's |
| `Pipeline.ContainsIff` | src/index.ts:173-183 | `includes` is substring search |
| `Pipeline.FirstMatchSpec` | src/index.ts:171-185 | the first-match search picks row i exactly when row i matches and no earlier row does |
| `Pipeline.SniffIsFirstMatch` | src/index.ts:171-185 | the if-chain over the content type is first-match search over `application/json`, `text`, `blob`, `form-data`, `array-buffer` |
| `Pipeline.SniffOrder` | src/index.ts:171-185 | sniffing picks a format if and only if its fragment matches and no earlier fragment does; no header or no match picks none |
| `Pipeline.DecoderChoice` | src/index.ts:168-206 | an explicit format (call-site over instance) is used without sniffing; otherwise the sniffed one; otherwise the JSON decoder |
| `Pipeline.SniffJsonWithCharset` | src/index.ts:173-174 | `application/json; charset=utf-8` selects JSON |
| `Pipeline.SniffTextAndMissing` | src/index.ts:175-205 | `text/plain` selects text, and a missing header falls to JSON |
| `Lifecycle.CompletedResult` | src/index.ts:232-241 | for a completed response, Success if and only if ok (200–299), if and only if no error, if and only if no error type, otherwise API. Data holds the body only when ok and error only when not ok, and neither when the body is JSON `null`. internalError is null, and the status code and text are copied. Exactly one of data, error and internalError is set unless the body is `null` |
| `Lifecycle.ThrownResult` | src/index.ts:243-283 | a thrown `TypeError` gives Network/0/`Network Error`, a `Response` gives API with its status and text, anything else Internal/500/`Internal Error`. Status is always Error with data and error null, and internalError the thrown value; a thrown `null` or `undefined` is Internal and leaves internalError empty |
| `Lifecycle.ThrownOkResponseIsError` | src/index.ts:248-283 | a thrown `Response` with status 200 still gives status Error |
| `Lifecycle.FirePairSpec` | src/index.ts:164-165 | within a pair the instance hook fires before the call-site hook, and a throw from the instance hook stops the call-site hook |
| `Lifecycle.RunOrdered` | src/index.ts:163-258 | hooks fire in phase order (`onRequest`, then at most one of `onSuccess`/`onError`, then `onInternalError`), instance before call site, and only defined hooks fire |
| `Lifecycle.RunCompletedQuietly` | src/index.ts:164-241 | when the response decodes and none of the hooks that run throws (`onRequest`, and the pair `ok` selects; `onInternalError` and the other pair may throw, being never called), the call resolves with the completed result, and exactly one of the `onSuccess` and `onError` pairs fires after `onRequest`, chosen by ok |
| `Lifecycle.RunThrewQuietly` | src/index.ts:167-283 | after a throw from `fetch` or from the decoder, with no `onRequest` hook throwing, the defined `onRequest` hooks fire and then the `onInternalError` pair, never `onSuccess`/`onError`. Unless an `onInternalError` hook throws, the call resolves with the classification of the throw |
| `Lifecycle.RunRequestHookThrows` | src/index.ts:163-283 | a throwing `onRequest`, instance or call-site, means the host is never consulted. The defined `onRequest` hooks up to the throwing one fire, then the `onInternalError` pair, and unless that pair throws the call resolves with the classification of the first throw |
| `Lifecycle.RunResponseHookThrows` | src/index.ts:225-283 | a throwing `onSuccess` or `onError` sends the call into the `catch` block: `onRequest`, the selected pair up to the throwing hook, then `onInternalError` fire, and unless that pair throws the call resolves with the classification of that throw, not the response |
| `Lifecycle.RunOutcome` | src/index.ts:163-283 | every resolved result is well formed. The call rejects if and only if something in the `try` throws and then an `onInternalError` hook throws; it rejects with the instance hook's value, or the call-site hook's when the instance hook does not throw. With no throw in the `try` it resolves with the completed result |
| `Lifecycle.RunExamples` | src/tests/package.test.ts:178-191 | a 404 response resolves as an API error with status text `Not Found`, `hasError` set, no internal error and the decoded body as its error, and a network `TypeError` as Network with status code 0 |
| `Client.Fetchly.constructor` | src/index.ts:42-44 | a new instance holds what `configure(options)` stores |
| `Client.Fetchly.Configure` | src/index.ts:64-102 | the fields become `Configured(options)`, and every defaulted field holds a value |
| `Client.Fetchly.CallHooks` | src/index.ts:164-165 | fires a hook pair in order, appending to the trace what `FirePair` describes |
| `Client.Fetchly.RequestFor` | src/index.ts:130-161 | builds the URL and the request options that `FullUrl` and `ConfigFor` describe, setting `body` and `next` in place |
| `Client.Fetchly.DecoderOf` | src/index.ts:168-206 | the `responseFormat` if-chain and the `switch` select the decoder `DecoderFor(SelectFormat(...))` |
| `Client.Fetchly.HandleResponse` | src/index.ts:225-241 | after decoding, the `onError` or `onSuccess` pair by `response.ok` and the returned record, or the `catch` block when one of those hooks throws, yield what `Respond` describes |
| `Client.Fetchly.HandleThrown` | src/index.ts:242-283 | the `catch` block, reassigning its locals, yields what `Catch` describes |
| `Client.Fetchly.Fetch` | src/index.ts:122-285 | `_fetch` produces the URL, the request, the outcome and the hook trace that `FullUrl`, `ConfigFor` and `Run` describe |
| `Client.Fetchly.Get` | src/index.ts:299-301 | GET with no body and with `next` attached |
| `Client.Fetchly.Post` | src/index.ts:313-319 | POST with the body sent when truthy and no `next` |
| `Client.Fetchly.Put` | src/index.ts:331-337 | PUT with the body sent when truthy and no `next` |
| `Client.Fetchly.Delete` | src/index.ts:352-354 | DELETE with no body and no `next` |

## Behaviour a reader might not expect

The model follows the code in each of these cases:

- Content-type matching uses `includes`, so it is case-sensitive. `Application/JSON` matches nothing and falls to the JSON default.
- `next` is attached to every GET request, even when both of its fields are undefined.
- A thrown `Response` is classified as API with its own status, and the status is always Error, even for a 2xx status (`Lifecycle.ThrownOkResponseIsError`).
- A timeout rejects with the abort signal's error, which is not a `TypeError` in the hosts the library targets. It is therefore classified as Internal (500), not Network.
- `FetchlyResult` has no `config` field (src/types/FetchlyResult.ts:10-19).
- There is no PATCH, no proxy and no default header set (src/enums/Method.ts:4-9).

## Left out

- `createTimeoutSignal` and `AbortSignal.timeout`: timers and abort wiring are host facilities. Only the effective timeout number is modelled. This also leaves out the `TypeError` that a negative timeout would raise.
- `Client.Fetchly.Configure`: the class is split into five helpers that each assign a group of fields. The model therefore does not show the seventeen assignments running as one straight-line sequence. The resulting state is the same.
- The `fetch` call and the body decoders (`json`, `text`, `blob`, `formData`, `arrayBuffer`) are foreign async calls. They are the `HostOutcome` input, which gives each decoder's result.
- `JSON.stringify`: an input string, so a `BigInt` or a cyclic body, which make it throw, is not modelled.
- Logging and timing (`showLogs`, `performance.now`, `console.debug`): they have no effect on the result or on the state. `showLogs` is stored but never read by the model.
- `async`/`await` and promises: a call is one step from the options to the settled outcome. Interleaving between concurrent calls is not modelled.
- The module-level default instance (src/index.ts:357-358) is just another object of the class.
- Instance headers given as a `Headers` object or an array of pairs: only the plain object form is modelled, which is what a spread copies key by key.
- Object key order: keys are taken in the given order. The JavaScript rule that puts integer-like keys first is not modelled.
- Floating-point parameter values: numbers are integers, with `NaN` as its own case, so fractional and exponent forms of `String(n)` are not modelled.
- `Options.signal` and `Options.additionalOptions` are never read by `_fetch`.
- `convertSearchParamsToString`, called at src/tests/package.test.ts:50, does not exist on the class. Its expected output is checked against `stringifySearchParams` instead (`SearchParamsQuery.SearchPaginationExample`), and against `stringifyParams` (`ParamsQuery.PaginationExample`).
- src/tests/benchmark.bench.ts and the network-dependent assertions of the test suite: they serve only as evidence for expected values.
