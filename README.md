# binance-rest-api, modelled in Dafny

`binance-rest-api` is a TypeScript client for the Binance spot REST API. A
`BinanceAPIClient` is built from an API key, a secret key and a testing flag.
The flag picks the testnet or the production base address. Each public method
of the client does three things:

- it checks its arguments (createOrder and testOrder check the fields required
  by the order type; four methods check that exactly one identifier is given);
- it builds a parameter object, defaulting `timestamp` to the clock;
- it hands that object to `Request.call`.

`Request.call` builds the URL: base address, endpoint path, `?`, the query
string and, for signed endpoints, `&signature=` with an HMAC-SHA256 of the
query. It sends the request and returns the response data or a
`ResponseError`. The query string comes from `getObjectAsQueryParameters`.
It drops undefined values, keeps key order and joins unencoded `key=value`
pairs with `&`.

The model has six modules:

- `JsValues` (jsvalues.dfy): JavaScript values and `String()`. The host's
  conversions (number to string, `JSON.stringify`, HMAC-SHA256) are
  uninterpreted function fields of a `Runtime` record.
- `ClientConfig` (client_config.dfy): the client record and its constructor.
- `Utils` (utils.dfy): parameter objects as ordered association lists. It has
  the query-string serialiser, a `Split` that inverts it, object spread
  `{...a, ...b}` and the three signature functions.
- `Requests` (requests.dfy): `Request.call` as a method. The parameter object
  is a `JsObject` instance, because `parameters !== {}` compares identity with
  a fresh object. The method is proved equal to the URL function `RequestUrl`.
- `OrderTypes` (order_types.dfy): the order enumerations.
- `BinanceApiClient` (binance_api_client.dfy): one `Endpoint` constructor per
  public method, plus:
  - the argument checks (`ValidateOrder`, `CheckOrderIdentifier`,
    `CheckOrderListIdentifier`) and a table-style reference for them
    (`Complete`, `Admissible`);
  - the parameter records (`ParametersOf`);
  - the response-type selection (`CreateOrderResponseType`, `OcoResponseType`,
    `ShapeOf`);
  - the whole method run against a transport (`Invoke`).

Two consequences of the source code are stated as lemmas:

- Every URL contains `?`, even when the query is empty, because
  `parameters !== {}` is always true.
- Signed URLs always use `&signature=`, never `?signature=`, because
  `parameters === {}` is always false. With no parameters at all, a signed URL
  reads `...?&signature=...`.

## Model

| member | source | states |
|---|---|---|
| ClientConfig.NewClient | src/Classes/BinanceAPIClient.ts:47-49 | the keys are stored as given; testing mode is on unless `false` is passed explicitly (the default is true); the base address is the testnet exactly when testing mode is on and production otherwise |
| JsValues.ToText | src/Utils/Utils.ts:10 | `String(v)` for the non-array values: `undefined`, `null`, `true`/`false`, the host's number text, the string itself, `[object Object]` |
| JsValues.OrDefault | src/Classes/BinanceAPIClient.ts:47 | a default argument: the supplied value, or the default when the argument is omitted or undefined |
| Utils.Render | src/Utils/Utils.ts:10 | one value after `=`: arrays through `JSON.stringify`, everything else through `String()` |
| Utils.Pair | src/Utils/Utils.ts:10 | one entry as `key=value`, with no percent-encoding |
| Utils.Pairs | src/Utils/Utils.ts:10 | the `map` step: one `key=value` string per entry, in order |
| Utils.Join | src/Utils/Utils.ts:10 | `join('&')`: the parts with one separator between neighbours, and the empty string for no parts |
| Utils.QueryString | src/Utils/Utils.ts:9-11 | getObjectAsQueryParameters: the defined entries rendered as `key=value` and joined with `&` |
| Utils.Keys | src/Utils/Utils.ts:10 | `Object.keys`: one key per entry, in entry order |
| Utils.Defined | src/Utils/Utils.ts:10 | the filter step keeps exactly the entries whose value is not undefined, and never adds any |
| Utils.DefinedOfTotal | src/Utils/Utils.ts:10 | an object with no undefined value passes the filter unchanged, order included |
| Utils.DefinedAppend | src/Utils/Utils.ts:10 | filtering commutes with concatenation, so the defined entries keep their relative order |
| Utils.PairsAppend | src/Utils/Utils.ts:10 | the map step renders entry by entry, in order |
| Utils.JoinAppend | src/Utils/Utils.ts:10 | joining two non-empty lists puts exactly one separator between them |
| Utils.QueryConcat | src/Utils/Utils.ts:10 | the query of a concatenation is the two queries joined by `&`, with no stray `&` when either side has no defined entry |
| Utils.QueryEmpty | src/Utils/Utils.ts:10 | the query string is empty if and only if no value is defined |
| Utils.QuerySingle | src/Utils/Utils.ts:10 | one defined entry serialises as `key=value`, arrays through JSON stringification and other values through `String()`, with no percent-encoding |
| Utils.Split | src/Utils/Utils.ts:10 | splitting on `&`, the inverse of joining, always yields at least one segment |
| Utils.SplitSeparatorFree | src/Utils/Utils.ts:10 | a separator-free prefix becomes part of the first segment of the split |
| Utils.SplitJoin | src/Utils/Utils.ts:10 | splitting a join of separator-free parts gives the parts back |
| Utils.QuerySegments | src/Utils/Utils.ts:10 | when no pair contains `&`, the query splits back into exactly the `key=value` pairs of the defined entries, in order, one segment per defined key |
| Utils.UnencodedValuesCollide | src/Utils/Utils.ts:10 | with no percent-encoding, `{a: "1&b=2"}` and `{a: "1", b: "2"}` serialise identically |
| Utils.LookupAbsent | src/Utils/Utils.ts:42 | looking up a key an object does not have finds nothing |
| Utils.LookupAt | src/Utils/Utils.ts:42 | in an object with distinct keys, a key finds the value stored with it |
| Utils.AssignLookup | src/Utils/Utils.ts:42 | assigning a key sets that key's value and leaves every other key's value unchanged |
| Utils.AssignKeys | src/Utils/Utils.ts:42 | assigning an existing key keeps the key order; a new key is appended |
| Utils.AssignAllLookup | src/Utils/Utils.ts:42 | copying an object over another gives every copied key the copied value and keeps all other values |
| Utils.NewKeysIgnoresAbsent | src/Utils/Utils.ts:42 | counting a key as already present changes nothing when that key is not among those being added |
| Utils.AssignAllKeys | src/Utils/Utils.ts:42 | copying an object over another keeps the old keys in place and appends the new keys in their own order |
| Utils.AssignFresh | src/Utils/Utils.ts:42 | assigning a new key appends the entry |
| Utils.AssignAllFresh | src/Utils/Utils.ts:42 | copying only new keys appends the copied object |
| Utils.Assign | src/Utils/Utils.ts:42 | one property copy of a spread: an existing key keeps its place and takes the new value, a new key is appended |
| Utils.AssignAll | src/Utils/Utils.ts:42 | one `...b` of a spread: every own entry of `b`, undefined values included, copied in `b`'s order |
| Utils.Spread | src/Utils/Utils.ts:42 | `{...parameters, ...body}` |
| Utils.SpreadWithoutBody | src/Utils/Utils.ts:19-21 | `{...p, ...{}}` is `p` |
| Utils.SpreadWithoutParameters | src/Utils/Utils.ts:29-31 | `{...{}, ...b}` is `b` |
| Utils.SpreadLookup | src/Utils/Utils.ts:42 | in `{...p, ...b}` the body's value wins on a shared key, even when it is undefined, and other keys keep the parameter's value |
| Utils.SpreadKeys | src/Utils/Utils.ts:42 | the keys of `{...p, ...b}` are the keys of `p` in order, then the body's new keys in order |
| Utils.AssignDistinct | src/Utils/Utils.ts:42 | assigning a key keeps an object's keys distinct |
| Utils.AssignAllDistinct | src/Utils/Utils.ts:42 | copying one object onto another keeps the keys distinct |
| Utils.UndefinedKeyNotDefined | src/Utils/Utils.ts:10 | a key whose value is undefined leaves no entry after the filter |
| Utils.UndefinedBodyValueHidesParameter | src/Utils/Utils.ts:40-43 | for any parameters and body, a body key whose value is undefined overrides the parameter of the same key, so no entry with that key reaches the signed string |
| Utils.SignatureFromParametersAndBody | src/Utils/Utils.ts:40-44 | HMAC-SHA256, keyed by the client's secret, of the query string of the merged object |
| Utils.SignatureFromParameters | src/Utils/Utils.ts:19-21 | getSignatureFromParameters: the merged signature with an empty body |
| Utils.SignatureFromBody | src/Utils/Utils.ts:29-31 | getSignatureFromBody: the merged signature with empty parameters |
| Utils.SignatureOfParameters | src/Utils/Utils.ts:19-21 | signing parameters alone is HMAC-SHA256, keyed by the secret, of exactly their query string |
| Utils.SignatureOfBody | src/Utils/Utils.ts:29-31 | signing a body alone is HMAC-SHA256, keyed by the secret, of exactly its query string |
| Utils.SignatureBodyAgreesWithParameters | src/Utils/Utils.ts:19-31 | the same object gives the same signature as parameters and as body |
| Utils.SignatureDeterminedByQuery | src/Utils/Utils.ts:40-43 | the signature depends only on the secret key and the serialised merged object |
| Requests.BaseUrl | src/Classes/Request.ts:25 | the base address followed by the endpoint path |
| Requests.UnsignedUrl | src/Classes/Request.ts:28-30 | the base URL, `?` and the query string, with the `?` always present |
| Requests.RequestUrl | src/Classes/Request.ts:25-43 | the unsigned URL, followed by `&signature=` and the signature when the request is signed |
| Requests.JsObject.constructor | src/Classes/Request.ts:22 | a fresh object holding the given entries; its identity differs from every other object's |
| Requests.Call | src/Classes/Request.ts:25-63 | the URL the method builds step by step equals `RequestUrl`; the payload of a successful transport is returned unchanged; a failure with a response becomes an error carrying the remote body; a failure without one throws |
| Requests.UrlStartsWithBase | src/Classes/Request.ts:25-29 | every URL starts with the base address, followed at once by the endpoint path and then `?` |
| Requests.UnsignedUrlIsBaseAndQuery | src/Classes/Request.ts:28-33 | an unsigned URL is exactly base + path + `?` + query, even for an empty query, and has no signature segment |
| Requests.SignedUrlSignsItsOwnQuery | src/Classes/Request.ts:28-43 | a signed URL is the unsigned URL followed by `&signature=` and the HMAC of the very query string the URL carries |
| Requests.SplitJoinThenSegment | src/Classes/Request.ts:42 | separator-free parts joined with `&` and followed by one more `&` segment split back into the parts plus that segment |
| Requests.PartsSeparatorFree | src/Utils/Utils.ts:10 | if no defined entry's pair contains `&`, no segment of the query does |
| Requests.UrlSegments | src/Classes/Request.ts:29-43 | after the `?`, the URL splits on `&` into the defined `key=value` pairs in order, followed by one `signature=` segment exactly when the request is signed |
| Requests.EmptyParametersKeepQuestionMark | src/Classes/Request.ts:28-30 | an unsigned request with no parameters still ends in a bare `?` |
| Requests.EmptyParametersSignedUrl | src/Classes/Request.ts:33-43 | a signed request with no parameters goes to `...?&signature=` plus the HMAC of the empty string, never `?signature=` |
| BinanceApiClient.RequestOf | src/Classes/BinanceAPIClient.ts:61-1066 | the `new Request(method, endpoint, signed)` of each public method |
| BinanceApiClient.Stamp | src/Classes/BinanceAPIClient.ts:457 | `timestamp !== undefined ? timestamp : Date.now()`, with the clock reading passed in |
| BinanceApiClient.OrderParameters | src/Classes/BinanceAPIClient.ts:444-458 | the object literal createOrder and testOrder send, key for key in source order |
| BinanceApiClient.OcoParameters | src/Classes/BinanceAPIClient.ts:807-823 | the object literal newOCOOrder sends, key for key in source order |
| BinanceApiClient.ParametersOf | src/Classes/BinanceAPIClient.ts:61-1066 | the object literal each public method passes to `call`, with its default arguments applied |
| BinanceApiClient.RequiredFields | src/Classes/BinanceAPIClient.ts:373-440 | the reference table of the arguments each order type requires |
| BinanceApiClient.Complete | src/Classes/BinanceAPIClient.ts:373-440 | the reference acceptance rule: all required arguments given, and exactly one of quantity and quoteOrderQty for MARKET |
| BinanceApiClient.PreCheck | src/Classes/BinanceAPIClient.ts:373-895 | the check each method runs before its request: the order-type switch, an identifier check, or none |
| BinanceApiClient.ShapeOf | src/Classes/BinanceAPIClient.ts:58-1074 | the response interface each method casts a successful payload to |
| BinanceApiClient.ExactlyOneGiven | src/Classes/BinanceAPIClient.ts:394 | the either-or test holds if and only if exactly one of the two arguments is defined |
| BinanceApiClient.ValidateOrder | src/Classes/BinanceAPIClient.ts:373-440 | the order-type switch passes if and only if the order meets the required-argument table; on failure it reports that order type's message |
| BinanceApiClient.OrderRequirements | src/Classes/BinanceAPIClient.ts:374-440 | LIMIT needs timeInForce, quantity and price; MARKET exactly one of quantity and quoteOrderQty; STOP_LOSS and TAKE_PROFIT quantity and stopPrice; STOP_LOSS_LIMIT and TAKE_PROFIT_LIMIT timeInForce, quantity, price and stopPrice; LIMIT_MAKER quantity and price |
| BinanceApiClient.CheckOrderIdentifier | src/Classes/BinanceAPIClient.ts:628-631 | passes if and only if exactly one of orderId and origClientOrderId is given, otherwise reports the orderId message |
| BinanceApiClient.CheckOrderListIdentifier | src/Classes/BinanceAPIClient.ts:857-860 | passes if and only if exactly one of orderListId and listClientOrderId is given, otherwise reports the orderListId message |
| BinanceApiClient.Prepare | src/Classes/BinanceAPIClient.ts:58-1074 | a method stops before any request exactly when its arguments are not admissible; otherwise it sends its own endpoint's request with its own parameter record |
| BinanceApiClient.CreateOrderResponseType | src/Classes/BinanceAPIClient.ts:470-493 | an explicitly requested response type is honoured; without one it is FULL for MARKET and LIMIT orders and ACK for all others |
| BinanceApiClient.OcoResponseType | src/Classes/BinanceAPIClient.ts:832-841 | ACK gives ACK, RESULT gives RESULT, anything else, omission included, gives FULL |
| BinanceApiClient.ResponseTypeSelectionsAgree | src/Classes/BinanceAPIClient.ts:470-493 | the two selections agree whenever a type is requested; without one they differ exactly for order types other than MARKET and LIMIT |
| BinanceApiClient.Invoke | src/Classes/BinanceAPIClient.ts:58-1074 | a rejected call sends nothing and resolves to the check's error message; an admissible call sends exactly `RequestUrl` of its parameters with the API key, and resolves to the payload with the method's response shape, the remote error body, or a rejection |
| BinanceApiClient.TestOrderMirrorsCreateOrder | src/Classes/BinanceAPIClient.ts:374-600 | testOrder rejects with the same message, or sends the same parameters, as createOrder; only the path differs |
| BinanceApiClient.IdentifierChecks | src/Classes/BinanceAPIClient.ts:626-911 | getOrder and cancelOrder, and cancelOCOOrder and queryOCOOrder, fail with their message when both or neither identifier is given, and send their request otherwise |
| BinanceApiClient.ParametersDistinct | src/Classes/BinanceAPIClient.ts:58-1074 | every parameter record has distinct keys |
| BinanceApiClient.UnsignedParametersDistinct | src/Classes/BinanceAPIClient.ts:58-348 | the records of the unsigned methods have distinct keys |
| BinanceApiClient.SignedParametersDistinct | src/Classes/BinanceAPIClient.ts:626-1006 | the records of the signed methods other than the order placements have distinct keys |
| BinanceApiClient.OrderParametersDistinct | src/Classes/BinanceAPIClient.ts:444-458 | the createOrder and testOrder record has distinct keys |
| BinanceApiClient.OcoParametersDistinct | src/Classes/BinanceAPIClient.ts:807-823 | the newOCOOrder record has distinct keys |
| BinanceApiClient.TimestampDefaulting | src/Classes/BinanceAPIClient.ts:457 | every signed method sends `timestamp`: the supplied value unchanged, or the clock reading when it is omitted; unsigned methods send no timestamp |
| BinanceApiClient.GetAllOrdersDropsOrderId | src/Classes/BinanceAPIClient.ts:752-762 | getAllOrders never sends its orderId argument |
| BinanceApiClient.TickerShapesFollowSymbol | src/Classes/BinanceAPIClient.ts:271-348 | each of the three ticker methods answers with the list shape exactly when its query string is empty, i.e. no symbol is sent, and with the single shape otherwise |
| BinanceApiClient.SignedMethodsSignTheirQuery | src/Classes/Request.ts:29-42 | every signed method that sends a request signs exactly the query string its URL carries, with the client's secret key |

## Left out

- The HTTP call itself (axios), `async`/`await` and the `X-MBX-APIKEY` header are network I/O. They become a `Transport` function from method, URL and API key to an outcome.
- HMAC-SHA256, JavaScript's number-to-string conversion and `JSON.stringify` are host functions. They are uninterpreted, deterministic fields of `Runtime`.
- `Date.now()` is a clock read. It is the parameter `now`.
- The `response as I...` casts do nothing at run time. A successful result carries the raw payload and a `Shape` tag naming the interface it is cast to.
- The response interfaces (the DTO type files), the exchange-side filter rules and the `ResponseError`/`ResponseSuccess` holder classes have no logic. They are the `ClientResult` datatype.
- The sets of values of `TimeInForce` and `KLineInterval` are not in the source files modelled here, so each is a wrapper around the string it is sent as.
- JavaScript numbers are IEEE doubles. The model uses reals, so NaN, infinities and rounding are not represented.
- `Object.keys` lists integer-like keys first. No key the client builds is integer-like, so parameter objects keep plain insertion order.
- A `newOrderRespType` outside ACK, RESULT and FULL cannot be written with the typed argument, so the final fallback of createOrder's selection (line 493) only appears as the `else` branch of `CreateOrderResponseType`.
- The `Request` constructor's default `signed = false` is not modelled, because every call site passes `signed` explicitly. The `method` field is named `httpMethod`, since `method` is a Dafny keyword.
