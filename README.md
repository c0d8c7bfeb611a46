# WidePay API client, modelled in Dafny

This project models the API layer of the WidePay payment gateway for Blesta.
That layer has two parts:

- `WidepayApi` configures one curl request per call. The target is the base
  URL, a `/` and the route. For GET and DELETE the body goes into the query
  string; for any other method it is posted. Every request carries the
  `WP-API: SDK-PHP` header and the basic-auth string `walletId:walletToken`.
  The client then splits the transfer on `"\n"` into header lines and a body.
  After a transport error it builds a synthetic JSON body instead.
- `WidepayResponse` takes that body and those header lines. It keeps the
  raw body, the decoded value and the headers. It reads the HTTP status as
  the second space-separated token of the first header line, defaulting to
  `"400"`. It reads the error messages from an `errors` collection (each
  entry's `msg`), else from a singular `error` field, else there are none.

Files:

- `values.dfy` (`Values`): the values `json_decode` produces, plus PHP's
  `isset` on a property and what `foreach` visits.
- `strings.dfy` (`Strings`): `explode`, `implode` and `strtoupper`, with
  the round trip between `explode` and `implode` proved both ways.
- `widepay_response.dfy` (`Response`): the class `WidepayResponse`. Its
  constructor assigns the fields step by step and fills `errors` in a loop.
  `Valid()` says the status and errors are those given by `StatusOf` and
  `ErrorsOf`. The five accessors read fields only and change nothing.
- `widepay_api.dfy` (`Api`): the class `WidepayApi` and its request methods.
  Also the specification functions `ComposeRequest`, `Frame` and
  `ResponseInput`, and the lemmas about them.

Three things are parameters rather than code:

- `http_build_query`, `json_encode` and `json_decode` form the `Library`
  datatype of uninterpreted functions.
- The network is a function `send` from the configured `CurlRequest` to a
  `TransportOutcome`: `TransportError` or `Received(result)`.
- A failed `json_decode` yields `Null`, as in PHP, where it cannot be told
  apart from a decoded JSON `null`.

Where the documented design differs from the code, the model follows the
code:

- After a transport error, the response has no headers. Its status is
  therefore `"400"`, not 500. Its only error is the `error` field of the
  synthetic body, `"Curl Error"`, and not the longer message. See
  `Api.TransportErrorResponse`.
- `errors()` is empty in more cases than "neither field is set". It is also
  empty when `errors` is set but is an empty list, an empty object or a
  scalar, because `foreach` then visits nothing. A singular `error` is
  ignored in those cases as well. See `Response.ErrorsEmptyIff`.
- Header lines keep their trailing `"\r"`, because the split is on `"\n"`
  only. A status line without a reason phrase, such as `HTTP/2 200\r`,
  therefore gives the status `"200\r"`. `Response.StatusIsSecondToken`
  states exactly which token is taken.

## Model

| member | source | states |
|---|---|---|
| `Values.Isset` | api/widepay_response.php:30-34 | isset holds only of something present, and never of a missing value or null |
| `Values.Lookup` | api/widepay_response.php:30-34 | a property is found iff some member has that name, and the value found belongs to a member of that name |
| `Values.Property` | api/widepay_response.php:30-34 | only an object has properties; on null, a list or a scalar the access reads nothing |
| `Values.Elements` | api/widepay_response.php:31 | foreach visits a list's items and an object's property values in order, and nothing for a scalar |
| `Strings.Explode` | api/widepay_api.php:96 | explode gives one piece more than there are separators, and no piece holds the separator |
| `Strings.JoinExplode` | api/widepay_api.php:96 | implode with the same separator restores the exploded string |
| `Strings.ExplodeJoin` | api/widepay_api.php:96 | explode recovers any separator-free pieces that were imploded |
| `Strings.ExplodeWithoutSep` | api/widepay_response.php:23-24 | a string without the separator explodes to itself alone |
| `Strings.SecondPiece` | api/widepay_response.php:23-25 | in `first sep second rest` the second piece is exactly `second` |
| `Strings.ToUpper` | api/widepay_api.php:57 | strtoupper keeps the length and upper-cases each ASCII letter in place |
| `Response.StatusOf` | api/widepay_response.php:21-27 | the status never holds a space; it is "400" when there is no first header line or that line has no space |
| `Response.MsgOf` | api/widepay_response.php:31-33 | an entry's msg is its `msg` property when it has one; a non-object entry or one without msg gives null; a non-null msg is the entry's `msg` property |
| `Response.ErrorsOf` | api/widepay_response.php:29-36 | more than one error comes only from a set `errors` collection; a body that is not an object, null included, has no errors |
| `Response.WidepayResponse.constructor` | api/widepay_response.php:15-37 | raw is the content verbatim, headers are as passed, response is json_decode of the content; status and errors are StatusOf and ErrorsOf of them; the errors loop appends each entry's msg in order |
| `Response.WidepayResponse.Status` | api/widepay_response.php:44-47 | returns the stored status, which is StatusOf(headers); reads only |
| `Response.WidepayResponse.Raw` | api/widepay_response.php:54-57 | returns the stored content string; reads only |
| `Response.WidepayResponse.Response` | api/widepay_response.php:64-67 | returns the stored decoded value; reads only |
| `Response.WidepayResponse.Errors` | api/widepay_response.php:74-77 | returns the stored errors, which are ErrorsOf(response); reads only |
| `Response.WidepayResponse.Headers` | api/widepay_response.php:84-87 | returns the headers as passed, absent included; reads only |
| `Response.StatusWithoutHeaders` | api/widepay_response.php:19-22 | absent or empty headers give status "400" |
| `Response.StatusWithoutSpace` | api/widepay_response.php:23-26 | a first header line without a space gives status "400" |
| `Response.StatusIsSecondToken` | api/widepay_response.php:23-26 | a first line `first second rest` gives status `second` exactly; with StatusWithoutSpace this covers every first line |
| `Response.ErrorsFromCollection` | api/widepay_response.php:30-33 | a set `errors` collection gives as many errors as it has entries, each entry's msg, in source order |
| `Response.ErrorsIgnoreSingular` | api/widepay_response.php:30-36 | when `errors` is set, two bodies with the same `errors` give the same errors, whatever their `error` |
| `Response.ErrorsFromSingular` | api/widepay_response.php:34-35 | without `errors`, a set `error` gives exactly `[error]` |
| `Response.ErrorsEmptyIff` | api/widepay_response.php:18-36 | no errors iff neither field is set, or `errors` is set but visits no entry; an undecodable body has none |
| `Response.ErrorsExamples` | api/widepay_response.php:29-36 | a msg list, a singular error and a body with neither give `["bad cpf"]`, `["invalid token"]` and `[]` |
| `Api.IsQueryMethod` | api/widepay_api.php:57-59 | only 3- or 6-character methods take the query branch; GET and DELETE in upper, lower and capitalised case do; POST and PUT do not |
| `Api.ComposeRequest` | api/widepay_api.php:52-81 | the URL starts with apiUrl + "/" + route and is extended iff the method is GET/DELETE and the body is non-empty; post fields are set iff the method is not GET/DELETE; the custom request method is strtoupper(method) for every method; credentials and the single SDK header are fixed |
| `Api.Frame` | api/widepay_api.php:96-99 | the body has no newline, no header line has one, and there are as many header lines as newlines |
| `Api.ResponseInput` | api/widepay_api.php:85-99 | the response receives no headers exactly when the transport failed |
| `Api.IfSet` | api/widepay_api.php:139-145 | returns the value when it is set (present and not null), otherwise the alternative |
| `Api.WidepayApi.constructor` | api/widepay_api.php:18-42 | stores the fixed base URL and the wallet id and token |
| `Api.WidepayApi.BuildRequest` | api/widepay_api.php:54-81 | the curl options set by the switch's branches and the assignments after them are those of ComposeRequest |
| `Api.WidepayApi.ApiRequest` | api/widepay_api.php:52-100 | the new response is built from the synthetic error body without headers, or from the framed transfer; after a transport error whose body json_decode reads back, status is "400" and errors are ["Curl Error"] |
| `Api.WidepayApi.CreateCharge` | api/widepay_api.php:107-110 | the response answers a POST of the parameters to `recebimentos/cobrancas/adicionar` |
| `Api.WidepayApi.GetNotificationCharge` | api/widepay_api.php:117-120 | the response answers a POST of `{id: notification id}` to `recebimentos/cobrancas/notificacao` |
| `Api.QueryMethodRequest` | api/widepay_api.php:57-69 | GET/DELETE in any case: an empty body leaves the URL unchanged, a non-empty one appends "?" + query; nothing is posted; the custom request method is the upper-cased method |
| `Api.BodyMethodRequest` | api/widepay_api.php:62-69 | every other method: URL not extended, the encoded body posted, CURLOPT_POST for POST only, custom request is the upper-cased method |
| `Api.MethodCaseInsensitive` | api/widepay_api.php:57-69 | two methods that upper-case alike give the same request |
| `Api.LowerCaseMethods` | api/widepay_api.php:57 | "get" and "Delete" take the query branch; "post" does not, and upper-cases to "POST" |
| `Api.RequestConstants` | api/widepay_api.php:70-77 | every request returns the transfer with its header block, connects within 30, and does not verify the peer or host |
| `Api.ChargeRequest` | api/widepay_api.php:107-110 | createCharge's request goes to apiUrl + "/recebimentos/cobrancas/adicionar" as a POST of the encoded parameters |
| `Api.NotificationRequest` | api/widepay_api.php:117-120 | getNotificationCharge's request goes to the notification route as a POST of the encoded `{id}` |
| `Api.FrameRejoins` | api/widepay_api.php:96-99 | joining the header lines and the body with "\n" gives back the transfer |
| `Api.FrameOfJoin` | api/widepay_api.php:96-99 | framing recovers any newline-free header lines and body joined with "\n" |
| `Api.FrameWithoutNewline` | api/widepay_api.php:96-99 | a transfer without a newline gives no header lines and is all body |
| `Api.TransportErrorResponse` | api/widepay_api.php:85-92 | after a transport error the headers are absent, the status is "400", and the errors are ["Curl Error"] if json_decode reads back the encoded body |
| `Api.ReceivedStatus` | api/widepay_api.php:96-99 | a received transfer whose first line is `first code rest` yields its last line as body and `code` as status |
| `Api.IfSetNull` | api/widepay_api.php:139-145 | ifSet yields null iff the value is unset and the alternative is null |

## Left out

- widepay.php, the host-framework gateway class, is not part of this model.
  It is glue for the billing platform: settings forms, the framework's
  loaders and validators, and stubs that read undefined variables.
- The transaction-status reconciliation table and the charge-payload
  builder appear in no modelled source file, so they are not modelled.
- The network: `curl_init`, `curl_exec`, `curl_errno` and `curl_close` are
  replaced by the `send` parameter. The model cannot express that each call
  sends at most once. The TLS and timeout options are recorded as values in
  `CurlRequest`; they have no effect in the model.
- `http_build_query`, `json_encode` and `json_decode` are uninterpreted.
  The transport-error result is proved only under the hypothesis that
  `json_decode` reads back what `json_encode` wrote for the synthetic body.
  A `json_encode` failure (PHP's `false`) is not modelled.
- `setCurrency` and the `currency` field are left out: the value is stored
  and never read.
- The `lastRequest` record (api/widepay_api.php:83) is left out. It is
  logging data only.
- Floating-point JSON numbers are left out: `Value` has integers only.
- PHP notices and warnings are left out. A missing `msg`, a property read on
  a non-object and a `foreach` over a scalar are modelled by the value PHP
  then yields (`Null`, no entries).
- `Strings.ToUpper`: upper-cases ASCII letters only, as PHP 8.2 and later
  do; earlier versions follow LC_CTYPE, which is not modelled.
- A Dafny `string` stands for a PHP byte string, one char per byte. Nothing
  is lost: `explode` on `' '` or `"\n"` and ASCII-only `strtoupper` behave
  the same on bytes and on chars.
- `Body` holds `Value`s, so it cannot express the float `valor` that the
  charge caller in widepay.php puts in its parameters. This is harmless:
  `buildQuery` is uninterpreted and the client only tests whether the body
  is empty.
- `Api.IfSet`: does not model the by-reference parameter. Passing a missing
  array key by reference makes PHP create that key as null; the model only
  returns the value.
- `Values.Lookup`: returns the first member of a given name. `json_decode`
  keeps one property per name, so the two agree on every decoded object
  without repeated names; objects with repeated names are not modelled.
- The whole `$apiResponse` array must hold a `content` entry; both callers
  provide one, so a missing `content` is not modelled.
