# Shopify PHP client: request engine

This project models the part of the Shopify PHP SDK that carries a request to
the store and back. It has three classes.

- `CurlRequest` sends one GET, POST, PUT or DELETE over a curl handle. It
  re-executes the request every half second for as long as the server
  answers 429 ("Too Many Requests"). It records the last status, and with a
  logger present it cuts the response header block off the output. It throws
  a `CurlException` on a curl error and otherwise closes the handle and
  returns the output.
- `HttpRequestJson` encodes the payload as JSON. For a non-empty payload it
  sets `Content-type: application/json` and a `Content-Length` equal to the
  encoded body's length. It sends the request and decodes the JSON answer.
- `HttpRequestGraphQL` accepts only a string query and requires the
  `X-Shopify-Access-Token` header. It wraps query and variables in a JSON
  envelope when variables are given, and otherwise sends the raw query as
  `application/graphql`. It POSTs at most three times. After each answer it
  computes the wait the response's cost block asks for, `(requestedQueryCost
  - currentlyAvailable) / restoreRate` seconds, and only when some error
  entry has code `THROTTLED`. It stops at the first zero wait or exception
  and otherwise sleeps that wait and tries again. After the third POST it
  returns the last decoded response even if it is still throttled.

The classes keep their state in static fields. Each class is a Dafny class
whose fields are those statics (`CurlRequest.lastHttpCode`, the JSON headers
and body, the GraphQL body), and a curl handle is a class whose fields are
the options set on it. PHP values decoded from JSON are the datatype
`Php.Value`. A header array is a `Headers.HeaderMap`, an insertion-ordered
list of entries with distinct keys. Exceptions are the `Err` side of
`Php.Result`.

The network and the codec are parameters:
- the n-th `curl_exec` on a handle answers `transport(n)`;
- the i-th POST of one GraphQL `post` answers `answers(i)`;
- `json_encode` and `json_decode` are the functions `encode` and `decode`.

Sleeping is recorded, not performed:
- `CurlRequest.sleeps` counts the half-second pauses;
- the GraphQL loop returns the microseconds passed to each `usleep`.

The model follows PHP 8:
- `isset` means present and not null;
- `empty` is PHP's emptiness test;
- `isset($a['x']['y'])` never throws and is false on a missing or
  non-array value;
- outside `isset`, `$a['x']` yields null when `$a` is missing, null, a
  boolean or a number, and throws `TypeError` when `$a` is a string;
- `foreach` over a decoded object visits one value per distinct key, the
  last one given for it, because `json_decode` overwrites a repeated key;
- `==` between a decoded value and a non-numeric string is PHP's loose
  comparison;
- arithmetic on null counts it as 0, and on an array or string throws
  `TypeError`;
- division by zero throws `DivisionByZeroError`;
- a non-array passed to the `array` parameter of `waitForThrottle` throws
  `TypeError`;
- a float passed to `usleep` is truncated toward zero, and a negative
  argument throws `ValueError`.

`Php.Read`, `Php.ReadIn` and `Php.ToNumber` are the definitions of the read
and arithmetic rules above. What they mean for the client is stated in the
contracts of the throttle check that uses them (`IsThrottledError`,
`CostWait`, `CostWaitQuotient`, `WaitForThrottleCases`).

The model follows the code, including where a reader might expect
otherwise:
- the GraphQL wait is neither rounded up to whole seconds nor clamped at
  zero;
- the 429 loop in `processRequest` has no bound;
- a curl error throws before `curl_close`, so the handle stays open on that
  path;
- header keys are compared exactly (PHP array keys are case-sensitive);
- the GraphQL loop retries only on a throttle wait, not on server errors.

## Model

| member | source | states |
|---|---|---|
| Php.EntryOfLast | lib/HttpRequestJson.php:154 | a decoded object yields a value for a key exactly when some entry has that key, and the value is that of the last such entry (`json_decode` keeps the later of duplicate keys) |
| Php.ObjectValuesAreLookups | lib/HttpRequestGraphQL.php:108 | `foreach` over a decoded object visits exactly the values some key looks up, so a value a repeated key overwrote is never visited |
| Php.IsEmpty | lib/HttpRequestJson.php:55 | `empty` holds exactly for null, false, 0, `""`, `"0"` and the empty array |
| Php.LooseEqualsText | lib/HttpRequestGraphQL.php:109 | against a non-numeric string, `==` holds exactly for that same string or `true` |
| Php.TruncateToInt | lib/HttpRequestGraphQL.php:90 | the integer a float argument becomes is the float cut toward zero: never farther from zero, and less than one away |
| Text.NatToString | lib/HttpRequestJson.php:57 | the decimal text of an integer is non-empty, all digits, and has no leading zero unless the number is 0 |
| Text.ParseNatToString | lib/HttpRequestJson.php:57 | the `Content-Length` text read back as a number is exactly the length it was made from |
| Text.SplitAt | lib/CurlRequest.php:196-198 | the header part and the body part concatenate to the output; the header part is `header_size` long, or the whole output when that is shorter |
| Text.SplitCrlf | lib/CurlRequest.php:199 | `explode("\r\n", ...)` always yields at least one piece, the first being a prefix of the input |
| Text.JoinSplitCrlf | lib/CurlRequest.php:199 | the header lines joined again with CRLF give back the header block: splitting loses nothing |
| Text.SplitCrlfPiecesClean | lib/CurlRequest.php:199 | no header line contains a CRLF: every separator has been cut |
| Headers.Lookup | lib/HttpRequestGraphQL.php:46 | a key is found exactly when the header array has it, and what is found is that entry's value |
| Headers.Set | lib/HttpRequestJson.php:56-57 | assigning `$h[key]` overwrites an existing key in place or appends a new one at the end; afterwards the key maps to the value, every other key maps to what it did, and every other entry keeps its position |
| Curl.ResponseLogOf | lib/CurlRequest.php:195-200 | the log carries the verb, URL and status; the logged header lines, joined with CRLF, followed by the logged (and returned) body, are exactly the raw output; the body starts `header_size` bytes in |
| Curl.CurlHandle.constructor | lib/CurlRequest.php:43 | `curl_init()`: a handle with no options set, not executed, not closed |
| Curl.CurlHandle.Exec | lib/CurlRequest.php:184-185 | `curl_exec` returns the next answer of the handle's transport and advances it by one |
| Curl.CurlHandle.Close | lib/CurlRequest.php:208 | `curl_close` marks the handle closed |
| Curl.CurlRequest.constructor | lib/CurlRequest.php:29 | no request has run yet: no last status, no pause taken |
| Curl.CurlRequest.HeaderLines | lib/CurlRequest.php:51-54 | one `"key: value"` line per header entry, in the array's order |
| Curl.CurlRequest.Init | lib/CurlRequest.php:40-60 | a fresh handle with the URL, return-transfer and the header lines set, no method, body or header capture, not yet executed |
| Curl.CurlRequest.ProcessRequest | lib/CurlRequest.php:180-211 | executes until the first non-429 answer, pausing once after each 429; records that answer's status; with a logger, logs the split header block and returns only the body; on a curl error throws `"errno : error"` and leaves the handle open, otherwise closes it and returns the output; no handle option changes |
| Curl.CurlRequest.Get | lib/CurlRequest.php:70-85 | a handle configured for the URL and headers, with no custom method and no body, header capture exactly when a logger is present, then processed as above |
| Curl.CurlRequest.Post | lib/CurlRequest.php:96-113 | as `Get`, with custom method POST and the data as the body |
| Curl.CurlRequest.Put | lib/CurlRequest.php:124-141 | as `Get`, with custom method PUT and the data as the body |
| Curl.CurlRequest.Delete | lib/CurlRequest.php:151-167 | as `Get`, with custom method DELETE and no body |
| JsonRequest.PreparedHeaders | lib/HttpRequestJson.php:53-58 | an empty payload leaves the caller's headers untouched; otherwise the content type is JSON and `Content-Length` holds digits whose value is the body's length; no other key changes and every other entry keeps its position |
| JsonRequest.HttpRequestJson.constructor | lib/HttpRequestJson.php:30-37 | the statics, null in PHP until first written, start as an empty header array and an empty body; every path writes them before reading them, so the starting value is never observed |
| JsonRequest.HttpRequestJson.PrepareRequest | lib/HttpRequestJson.php:48-59 | the stored body is the encoded payload, and the stored headers are the prepared headers for it |
| JsonRequest.HttpRequestJson.Get | lib/HttpRequestJson.php:73-80 | sends GET with the caller's headers unchanged and no body; returns the decoded answer or the transport's exception |
| JsonRequest.HttpRequestJson.Post | lib/HttpRequestJson.php:94-101 | sends POST with the encoded payload as body and the prepared headers; returns the decoded answer or the transport's exception |
| JsonRequest.HttpRequestJson.Put | lib/HttpRequestJson.php:115-122 | as `Post`, with method PUT |
| JsonRequest.HttpRequestJson.Delete | lib/HttpRequestJson.php:136-143 | as `Get`, with method DELETE |
| GraphQLRequest.ErrorEntries | lib/HttpRequestGraphQL.php:108 | over a decoded `errors` object, `foreach` visits exactly the values some key looks up, so an entry a repeated key overwrote is never visited |
| GraphQLRequest.IsThrottledError | lib/HttpRequestGraphQL.php:109 | an entry counts as throttled exactly when its `extensions.code` is the string `THROTTLED` or `true`; it throws `TypeError` exactly when the entry or its `extensions` is a string |
| GraphQLRequest.ScanThrottled | lib/HttpRequestGraphQL.php:107-112 | the scan can only throw `TypeError`, and once the flag is set it stays set |
| GraphQLRequest.ScanThrottledFindsAny | lib/HttpRequestGraphQL.php:107-112 | the scan throws exactly when some entry cannot be read; otherwise it ends with the flag set exactly when it started set or some entry is throttled (both directions) |
| GraphQLRequest.ScanThrottledIgnoresOrder | lib/HttpRequestGraphQL.php:107-112 | reordering the error entries changes neither whether the scan throws nor whether the response counts as throttled |
| GraphQLRequest.CostWait | lib/HttpRequestGraphQL.php:123 | a string cost block throws `TypeError`; the only exceptions are `TypeError` and `DivisionByZeroError` |
| GraphQLRequest.CostWaitQuotient | lib/HttpRequestGraphQL.php:123 | the division throws exactly when the operands are numbers and the restore rate is zero; otherwise the wait times the rate is the requested cost minus the available one |
| GraphQLRequest.WaitForThrottle | lib/HttpRequestGraphQL.php:100-124 | a non-array response throws `TypeError`; the only exceptions it can throw are `TypeError` and `DivisionByZeroError` |
| GraphQLRequest.WaitForThrottleCases | lib/HttpRequestGraphQL.php:100-124 | no wait without an `errors` field; `TypeError` when an error entry or its `extensions` is a string; otherwise no wait without a throttled entry or without a cost block, and with both the wait is the cost block's quotient, with PHP's exceptions |
| GraphQLRequest.ThrottledWaitIsQuotient | lib/HttpRequestGraphQL.php:118-123 | with readable errors, numeric cost fields and a non-zero restore rate the wait is `(requested - available) / rate`, and times the rate gives back the missing cost; with a positive rate it is negative exactly when more is available than requested and zero exactly when the two are equal |
| GraphQLRequest.OverwrittenErrorIsNotSeen | lib/HttpRequestGraphQL.php:107-116 | a throttled entry in `errors` overwritten by a later `null` under the same key is not seen, so there is no wait |
| GraphQLRequest.StringErrorThrows | lib/HttpRequestGraphQL.php:108-109 | a string error entry makes the check throw `TypeError` |
| GraphQLRequest.TestResponseWaits | tests/GraphQLTest.php:14-43 | the test's throttled response (507 requested, 493 available, 50 per second) waits 0.28 seconds |
| GraphQLRequest.PreparedBodyCarriesQuery | lib/HttpRequestGraphQL.php:52-53 | with variables, the stored body decodes (when `json_decode` gives back the envelope `json_encode` made of it) to an object whose `query` is the query and whose `variables` are the variables; without them the body is the raw query |
| GraphQLRequest.PreparedGraphQLHeaders | lib/HttpRequestGraphQL.php:50-57 | the content type is JSON when variables are an array and GraphQL otherwise; no other key changes and every other entry keeps its position |
| GraphQLRequest.Retry | lib/HttpRequestGraphQL.php:78-93 | between one and three POSTs, all of the same request; every POST but the last was answered with a non-zero wait that was slept, in microseconds; the loop stops at an exception (passed through), a zero wait (response returned), a wait `usleep` rejects (`ValueError`), or after the third POST (last response returned) |
| GraphQLRequest.HttpRequestGraphQL.constructor | lib/HttpRequestGraphQL.php:22 | the GraphQL body, null in PHP until first written, starts empty; `prepareRequest` writes it before anything reads it, so the starting value is never observed |
| GraphQLRequest.HttpRequestGraphQL.PrepareRequest | lib/HttpRequestGraphQL.php:37-58 | a non-string query throws first, with nothing stored; a missing access token throws next, after the query is stored and before the headers change; otherwise the body is the envelope or the raw query and the headers carry the matching content type |
| GraphQLRequest.HttpRequestGraphQL.Post | lib/HttpRequestGraphQL.php:74-94 | the JSON body is never touched; a non-string query throws before anything is sent with nothing stored; a missing token throws before anything is sent, with the query stored and the headers unchanged; otherwise the stored body and headers are the prepared ones and that request goes through the retry loop with exactly the guarantees of `Retry` |

## Left out

- The network, curl itself and `usleep` are not performed. A scripted transport answers each `curl_exec`, and pauses are counted (half seconds in `CurlRequest`) or listed (microseconds in the GraphQL loop).
- `processResponse` is `json_decode` itself, so the model states only that the transport's answer goes through `decode` and that an exception passes through unchanged.
- `json_encode` and `json_decode` are parameters. The model does not fix what they produce, does not model encoding failures, and takes `decode` to return a PHP value for every text.
- The logger is modelled only as present or absent. `logRequest` is not modelled, and what `logResponse` receives is returned as a `ResponseLog` instead of being written anywhere.
- The layers are not composed: `HttpRequestJson` and `HttpRequestGraphQL` take the transport's answer (the output string or the `CurlException` it threw) as input. This snapshot calls `CurlRequest::get($logger, $url, ...)` and `CurlRequest::post($logger, $url, $data, ...)` (lib/HttpRequestJson.php:77, lib/HttpRequestGraphQL.php:80), but lib/CurlRequest.php:70 and lib/CurlRequest.php:96 take no logger parameter. The arguments would land in the wrong parameters, so the composed behaviour is not something the model can state.
- The `GraphQL` resource façade (lib/GraphQL.php) and the rest of the SDK (resources, URL building, `InjectVariables`, `ShopifySDK`) are not part of this model.
- tests/GraphQLTest.php:41 calls `checkForThrottle`, which lib/HttpRequestGraphQL.php does not define. `GraphQLRequest.TestResponseWaits` states the test's expected value for `waitForThrottle`.
- Numbers are exact reals, not IEEE doubles. Integers and floats from JSON are both `Num`, and the `0.28` of the test is exact.
- Numeric strings in the cost block are not modelled: a string operand throws `TypeError`, as a non-numeric string does in PHP 8.
- `Php.TruncateToInt`: a float outside the integer range (a `TypeError` in PHP 8) and the deprecation notice for a fractional float are not modelled.
- Loose `==` against `'THROTTLED'` follows PHP 8. PHP 7's comparison of a number with a non-numeric string differs and is not modelled.
- Strings are sequences of characters, so `strlen` and `substr` count characters where PHP counts bytes.
- Header values are strings. `isset($httpHeaders['X-Shopify-Access-Token'])` is false in PHP for a null value, but the model has no null header values, so it tests presence only.
- Array keys are the client's own constant, non-numeric strings. Reading a numeric key from a string (which PHP 8 answers with a character) does not arise and is not modelled.
- Header arrays with integer keys (PHP's conversion of numeric-string keys) are not modelled.
- Curl.CurlRequest.ProcessRequest: requires that the server eventually answers something other than 429. Under an endless stream of 429s the source never returns, and the model does not cover that run.
- Curl.CurlRequest.ProcessRequest: `curl_getinfo`, `curl_errno` and `curl_error` report on the answer that stopped the loop; curl's own failure modes beyond an error number and message are not modelled.
- Concurrency: the statics are shared between all callers in PHP. Here each class instance stands for them, and interleaved requests are not modelled.
