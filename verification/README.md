# uzum-payments: request building and response classification

This project models the decision logic of the `uzum_payments` Python client for the Uzum
payment APIs. The client has two halves:

- the checkout client `ApiClient`, in `client.py`;
- the receipt-producer client `ReceiptApiClient`, which builds on `Connection` in
  `connection.py`.

The model covers:

- the header maps built at construction;
- the trailing-slash normalisation of the receipt `base_url`;
- the URL and payload of every endpoint;
- the choice between the blocking (`requests`) and suspending (`aiohttp`) call;
- the except clauses that turn transport failures into `NotResponding` and `NetworkError`;
- the two response classifiers: the receipt client's status-then-code `raise_error` and
  the checkout client's code-only `_raise_for_status`;
- how each raised exception derives its `message` and `code`.

Modules, leaves first:

- `Wrappers`: `Option`.
- `Json`: decoded JSON values, Python truthiness, `dict.get`, Python `or`, and ordering
  against an int.
- `Exceptions`: the two exception families.
- `Bands`: the error-code bands both classifiers share.
- `Transport`: the abstract HTTP layer, with its request, reply, fault and outcome types.
- `Connection`: `connection.py`.
- `CheckoutClient`: `client.py`.
- `ReceiptClient`: `receipt_producer/client.py`.

The network is a parameter: a pure function `net` from the envelope handed to the session to
the reply (an HTTP status with the response text, or a transport fault). A call's outcome is
one of three things: the returned body, a raised library exception, or a crash. A crash is a
Python error the library lets escape untranslated.

Points where the code behaves differently from what a reader might expect; the model follows the code as written:

- In `raise_error`, an absent (or otherwise non-numeric) `errorCode` with a status outside
  200/400/401/403/422/500 reaches `error_code >= 5000`. That raises `TypeError`; it does not
  fall back to `UnexpectedError`. It is modelled as `Crashed(Unorderable(code))`.
- In suspending mode only `aiohttp.ServerDisconnectedError` becomes `NetworkError`. A refused
  connection (`aiohttp.ClientConnectorError`) escapes; in blocking mode
  `requests.ConnectionError` covers both cases.
- `_request_model` drops `method` in blocking mode, so the receipt client's `health` goes out
  as POST there.
- Only the receipt client normalises `base_url`. The checkout client stores it verbatim and
  concatenates paths onto it with no separator.
- The checkout classifier ignores the HTTP status entirely.
- An empty receipt `base_url` raises `IndexError`; there is no configuration error. The model
  states this as a precondition.

## Model

| member | source | states |
|---|---|---|
| Json.Truthy | src/uzum_payments/connection.py:38 | the falsy values are exactly None, False, 0, the empty string, the empty list and the empty object, as `not error_code` judges them |
| Json.Get | src/uzum_payments/connection.py:32 | `data.get(key)` is the stored value when the key is present and None when it is missing |
| Json.Or | src/uzum_payments/exceptions.py:8 | `a or b` is `a` when `a` is truthy and `b` otherwise, so it is truthy iff either operand is |
| Json.AsNumber | src/uzum_payments/connection.py:80-87 | the int a code is compared as: ints as themselves, `True` as 1 and `False` as 0, and no value (a TypeError) for None, strings, lists and objects |
| Exceptions.NewCheckoutError | src/uzum_payments/exceptions.py:6-9 | the exception keeps its kind and the code verbatim (None included); the message is the body's `message` field when truthy, otherwise the whole body; `code` defaults to None |
| Exceptions.MessageFalsyIffEmptyBody | src/uzum_payments/exceptions.py:8 | the derived message is falsy exactly when the response body was `{}` |
| Exceptions.NotRespondingError | src/uzum_payments/exceptions.py:11-16 | NotResponding is an ApiError with code 504 and the timeout text |
| Exceptions.NetworkDownError | src/uzum_payments/exceptions.py:19-26 | NetworkError is an ApiError with code 503 and the "Network down." text |
| Exceptions.FamiliesPartition | src/uzum_payments/exceptions.py:1-58 | an exception is an instance of UzumCheckoutException iff it is a classified error, and of ApiError iff it is a transport error; never both |
| Exceptions.IsInstance | src/uzum_payments/exceptions.py:1-58 | every library exception is an instance of its own class and of the built-in bases `Exception`, `BaseException` and `object`; besides those and its family base it is an instance of no class |
| Bands.CodeBand | src/uzum_payments/connection.py:80-89 | the half-open bands: [5000,∞) InternalError, [3000,5000) PaymentErrors, [2000,3000) ValidationError, [1000,2000) AuthenticationError, below 1000 UnexpectedError, each as an iff |
| Bands.BandsMonotone | src/uzum_payments/client.py:298-307 | a larger code never lands in a lower band |
| Transport.Clauses | src/uzum_payments/connection.py:47-59 | each mode has two except clauses, in source order: the timeout clause raising NotResponding, then the connection clause raising NetworkError (the same clauses as client.py:314-326) |
| Transport.Dispatch | src/uzum_payments/connection.py:43-59 | Python's choice among several except clauses: some clause applies iff one names a class of the exception, and the applying clause is the earliest that does; with none the exception propagates |
| Transport.CatchIsFirstMatchingClause | src/uzum_payments/connection.py:43-59 | `Catch` equals running the mode's two except clauses, in source order, against the classes of the exception each fault raises |
| Transport.Catch | src/uzum_payments/connection.py:43-59 | a timeout becomes NotResponding and a dropped connection NetworkError in both modes; a refused connection becomes NetworkError only in blocking mode; any other fault escapes |
| Transport.DecodeBody | src/uzum_payments/connection.py:26-32 | invalid JSON is a decode crash, a non-object JSON value a crash at `.get`, and a JSON object is passed on unchanged |
| Connection.StatusKind | src/uzum_payments/connection.py:69-78 | exactly the statuses 400, 401, 403, 422 and 500 select a kind: BadRequest, SignatureError, FingerprintError, ValidationError and InternalServerError respectively |
| Connection.RaiseError | src/uzum_payments/connection.py:68-89 | never returns; an explicit status decides the kind, otherwise a numeric code's band; it crashes iff the status is not explicit and the code is not numeric; every raised error carries the body-derived message and the raw code |
| Connection.Succeeds | src/uzum_payments/connection.py:38 | success needs status 200; with an absent or zero code it is exactly status 200; a nonzero integer code never succeeds |
| Connection.ValidationErrorTwoRoutes | src/uzum_payments/connection.py:75-85 | status 422 with any code, and a non-explicit failing status with a code in [2000, 3000), raise the same ValidationError for the same body |
| Connection.RaiseForStatus | src/uzum_payments/connection.py:24-41 | returns iff the text is a JSON object whose `errorCode` is falsy and the status is exactly 200, and then returns that object unchanged; decode failures crash; otherwise the outcome is exactly `raise_error` on the decoded body, its `errorCode` and the status, so everything it raises is a classified error |
| Connection.Settle | src/uzum_payments/connection.py:43-59 | a transport fault is handled by the except clauses, and a response by `_raise_for_status` |
| Connection.MethodSent | src/uzum_payments/connection.py:61-65 | blocking mode always sends POST; suspending mode sends the requested method |
| Connection.RequestModel | src/uzum_payments/connection.py:43-65 | the envelope carries the url, body and headers unchanged and the mode-selected method; the outcome depends only on the reply to that envelope; `method` defaults to POST |
| Connection.SuccessIff | src/uzum_payments/connection.py:32-39 | a call succeeds iff the reply is a 200 whose JSON object has a falsy `errorCode`, and then yields that object |
| Connection.StatusPrecedence | src/uzum_payments/connection.py:69-78 | with an explicit status, the kind is that status's kind whatever `errorCode` holds |
| Connection.SignatureBeatsPaymentBand | src/uzum_payments/connection.py:71-83 | status 401 with code 4000 is a SignatureError, although 4000 alone is in the PaymentErrors band |
| Connection.BandFallback | src/uzum_payments/connection.py:38-41 | any other non-success reply with integer code n, status 200 with nonzero n included, raises CodeBand(n) with the body and the code |
| Connection.CrashIff | src/uzum_payments/connection.py:80 | with an integer or absent code, classification crashes iff the code is absent and the status is none of 200, 400, 401, 403, 422, 500 |
| Connection.ModesAgreeOnResponses | src/uzum_payments/connection.py:46-55 | blocking and suspending mode classify an identical response identically |
| Connection.TransportFaults | src/uzum_payments/connection.py:47-59 | a timeout yields code 504 and a dropped connection code 503 in either mode; a refused connection crashes in suspending mode |
| CheckoutClient.FixedHeaders | src/uzum_payments/client.py:47-55 | the header literal has exactly the seven fixed names |
| CheckoutClient.NewApiClient | src/uzum_payments/client.py:44-71 | the seven fixed headers hold the signature, language and terminal id verbatim plus the four constants; each credential header is present iff its argument is truthy, with that value; no other header; base URL and mode kept as given; the parameters default as in Python (None credentials, 'ru-RU', `ApiClient.URL`, blocking mode) |
| CheckoutClient.Present | src/uzum_payments/client.py:57-67 | an optional credential passes `if arg:` iff it is neither None nor the empty string |
| CheckoutClient.AddIfPresent | src/uzum_payments/client.py:57-67 | the guarded `headers.update` adds the name exactly when the argument is truthy, with the argument as its value, and leaves every other header as it was |
| CheckoutClient.NoCredentials | src/uzum_payments/client.py:47-67 | with no credentials the header map is exactly the seven-entry literal |
| CheckoutClient.DefaultConstruction | src/uzum_payments/client.py:15-69 | with `ApiClient.URL`, 'ru-RU' and no credentials the client has exactly the seven fixed headers, Content-Language 'ru-RU', and keeps `https://www.inplat-tech.ru/api/v1/` as its base, which ends with `/` so the relative paths follow a separator |
| CheckoutClient.AddIfPresentSize | src/uzum_payments/client.py:57-67 | a guarded `headers.update` adds one entry exactly when the argument is truthy |
| CheckoutClient.HeaderCount | src/uzum_payments/client.py:47-67 | the header map has 7 entries plus one per truthy optional credential |
| Transport.Join | src/uzum_payments/client.py:154 | a URL is the base followed by the path, with nothing inserted or removed: the base is its prefix and the path its suffix |
| CheckoutClient.Path | src/uzum_payments/client.py:154-279 | each endpoint path is relative (no leading `/`); the four payment endpoints live under `payment/` and the four acquiring ones under `acquiring/` |
| CheckoutClient.Url | src/uzum_payments/client.py:154-279 | an endpoint URL is the base verbatim followed by the endpoint's path, with no separator inserted |
| CheckoutClient.UrlInjective | src/uzum_payments/client.py:154-279 | under one base, two endpoints never share a URL |
| CheckoutClient.RegisterFields | src/uzum_payments/client.py:156-175 | the named register fields are exactly the eleven keys; `paymentParams` is the one-step default when None and the argument otherwise |
| CheckoutClient.RegisterRequest | src/uzum_payments/client.py:124-177 | POST to base + `payment/register`; kwargs never use a Python parameter name; the keys are the eleven named fields plus the kwargs; `amount` and `currency` always hold their arguments; kwargs win on a clash with another camelCase key; every field not overridden keeps its argument, `paymentParams` the one-step default when None; the optional parameters default as in Python |
| CheckoutClient.EmptyPaymentParamsKept | src/uzum_payments/client.py:156-157 | an explicit `{}` payment_params is sent as is, since only None is replaced |
| CheckoutClient.RegisterDefaults | src/uzum_payments/client.py:124-175 | called with only the four required arguments, `register` sends exactly the eleven named fields with the one-step payment parameters, view REDIRECT, timeout 600 and None for the other optional fields |
| CheckoutClient.MerchantPayRequest | src/uzum_payments/client.py:179-193 | POST to base + `payment/merchantPay` with exactly `processData` and `orderId`, taken verbatim |
| CheckoutClient.GetOrderStatusRequest | src/uzum_payments/client.py:195-207 | POST to base + `payment/getOrderStatus` with exactly `orderId` |
| CheckoutClient.GetOperationStateRequest | src/uzum_payments/client.py:209-221 | POST to base + `payment/getOperationState` with exactly `operationId` |
| CheckoutClient.OrderAmount | src/uzum_payments/client.py:232-235 | the shared payload has exactly `orderId` and `amount`, taken verbatim |
| CheckoutClient.CompleteRequest | src/uzum_payments/client.py:223-237 | POST to base + `acquiring/complete` with exactly `orderId` and `amount` |
| CheckoutClient.RefundRequest | src/uzum_payments/client.py:239-253 | POST to base + `acquiring/refund` with exactly `orderId` and `amount` |
| CheckoutClient.ReverseRequest | src/uzum_payments/client.py:255-270 | POST to base + `acquiring/reverse` with exactly `orderId` and `amount` |
| CheckoutClient.CaptureRefundReverseDifferOnlyInUrl | src/uzum_payments/client.py:223-270 | complete, refund and reverse send the same body to three distinct URLs |
| CheckoutClient.GetBindingsRequest | src/uzum_payments/client.py:272-284 | POST to base + `acquiring/getBindings` with exactly `clientId` |
| CheckoutClient.RaiseForStatus | src/uzum_payments/client.py:286-307 | returns the object unchanged iff its `errorCode` is falsy; a truthy numeric code n (never 0) raises CodeBand(n) carrying the body-derived message and the raw code; a truthy non-numeric code crashes |
| CheckoutClient.CodeOnlyBands | src/uzum_payments/client.py:292-307 | for integer code n: success iff n is 0; otherwise CodeBand(n); UnexpectedError iff n is nonzero and below 1000 |
| CheckoutClient.Settle | src/uzum_payments/client.py:310-326 | a fault goes through the except clauses; a response goes through the code-only classifier |
| CheckoutClient.PostModel | src/uzum_payments/client.py:310-332 | both modes POST the request's body to its URL with the client headers; the outcome depends only on the reply |
| CheckoutClient.StatusIgnored | src/uzum_payments/client.py:310-332 | the HTTP status never changes the outcome, and both modes agree on every response |
| CheckoutClient.ClassifiersCompared | src/uzum_payments/client.py:292-296 | at status 200 both classifiers agree on every text; at 401 with code 0 the receipt one raises while the checkout one returns |
| ReceiptClient.NormaliseBaseUrl | src/uzum_payments/receipt_producer/client.py:35-37 | the result ends with `/`, extends the base by at most one character, and equals the base iff the base already ended with `/` |
| ReceiptClient.NormaliseIdempotent | src/uzum_payments/receipt_producer/client.py:35-37 | normalising twice equals normalising once |
| ReceiptClient.NormaliseShortest | src/uzum_payments/receipt_producer/client.py:36-37 | no extension of the base that ends with `/` is shorter than the normalised URL |
| ReceiptClient.ReceiptHeaders | src/uzum_payments/receipt_producer/client.py:27-33 | exactly the five names, with the fingerprint verbatim and the four constants |
| ReceiptClient.ReceiptHeaderCount | src/uzum_payments/receipt_producer/client.py:27-33 | the receipt header map has exactly five entries |
| ReceiptClient.NewReceiptApiClient | src/uzum_payments/receipt_producer/client.py:14-43 | needs a non-empty base; the stored base ends with `/`, extends the given one, and equals it iff it already ended with `/`; the connection gets the five headers and the mode |
| ReceiptClient.Path | src/uzum_payments/receipt_producer/client.py:66-148 | each receipt path is a single non-empty segment without `/` |
| ReceiptClient.Url | src/uzum_payments/receipt_producer/client.py:66-148 | a receipt URL is the base verbatim followed by the path, and contains no `/` after the base |
| ReceiptClient.UrlAfterConstruction | src/uzum_payments/receipt_producer/client.py:35-37 | after construction a URL is the given base, then one slash only if the base lacked one, then the path |
| ReceiptClient.HealthRequest | src/uzum_payments/receipt_producer/client.py:61-67 | asks for GET on base + `health` with the keyword arguments as the body |
| ReceiptClient.WithPaymentId | src/uzum_payments/receipt_producer/client.py:99-100 | `payment_id` is added exactly when truthy, with its value, and every other entry is kept |
| ReceiptClient.GenerationRequest | src/uzum_payments/receipt_producer/client.py:69-102 | POST to base + `fiscal_receipt_generation`; the seven named keys with their arguments verbatim; `payment_id` present iff truthy, with its value; `payment_id` defaults to None and `receipt_type` to 0 |
| ReceiptClient.RefundRequest | src/uzum_payments/receipt_producer/client.py:104-134 | POST to base + `fiscal_receipt_refund`; the six named keys with their arguments verbatim; `payment_id` present iff truthy, with its value; `payment_id` defaults to None and `receipt_type` to 0 |
| ReceiptClient.RefundIsGenerationWithoutPhone | src/uzum_payments/receipt_producer/client.py:125-132 | the refund body is the generation body for the same arguments minus `phone_number` |
| ReceiptClient.WithPaymentIdWithout | src/uzum_payments/receipt_producer/client.py:99-100 | removing any key other than `payment_id` before or after the guarded `payment_id` assignment gives the same dict |
| ReceiptClient.GenerationKeysSize | src/uzum_payments/receipt_producer/client.py:92-98 | the generation literal has seven distinct keys, none of them `payment_id` |
| ReceiptClient.GenerationBodySize | src/uzum_payments/receipt_producer/client.py:92-100 | the generation body has 7 entries, or 8 when `payment_id` is truthy |
| ReceiptClient.ReceiptDefaults | src/uzum_payments/receipt_producer/client.py:69-134 | called without `payment_id` and `receipt_type`, both receipt payloads have exactly their named keys, `receipt_type` 0 and no `payment_id` |
| ReceiptClient.SaveQrCodeUrlRequest | src/uzum_payments/receipt_producer/client.py:136-153 | POST to base + `save_qr_code_url` with exactly `operation_id`, `qr_code_url` and `amount` |
| ReceiptClient.Send | src/uzum_payments/receipt_producer/client.py:102 | the request reaches the session with the connection headers; the method is POST in blocking mode and the requested one otherwise; the reply is settled by the connection |
| ReceiptClient.PostEndpointsUseDefaultMethod | src/uzum_payments/receipt_producer/client.py:102 | a POST endpoint's call is `_request_model` with the `method` argument left to its default, and goes out as POST in both modes |
| ReceiptClient.HealthVerb | src/uzum_payments/receipt_producer/client.py:66-67 | `health` is sent as POST in blocking mode and as GET in suspending mode |

## Left out

- Sessions, `close()`, context managers, `async`/`await` and the `Async` factories are left
  out. They are I/O and event-loop plumbing; a suspending call is modelled by the outcome it
  settles to.
- JSON parsing itself is left out. The response text is either a decoded JSON value or
  `Malformed`. JSON numbers are integers only, so a float `errorCode` or `amount` is not
  modelled.
- Logging (`REQUEST_LOG`, `logger.debug`) is left out, and so is the `method` argument of
  `_raise_for_status`, which only feeds the log line. Both are side effects only.
- The `session` argument and its default are left out, with the sessions. The other defaults
  of the constructors and endpoint methods are Dafny parameter defaults, except the receipt
  `base_url` default (next line). So are `code=None` of the exception constructor and
  `method='POST'` of `_request_model`. `OneStep` is not a default: it is what the body of
  `register` puts in place of a None `payment_params`.
- The `data=None` default of `_request`, `_async_request`, `_request_model`, `_post`,
  `_async_post` and `_post_model` is left out. A request body is always a JSON object here,
  and every endpoint passes one.
- `BASE_RECEIPT_URL` is left out, because the `const` module is not part of this model. The
  receipt base URL is always passed in.
- A `None` base URL is left out: base URLs are strings. In the source, None gives `"None…"`
  URLs in the checkout client and a `TypeError` in the receipt client.
- The attributes the constructors store besides headers, base URL and mode are left out:
  `self.signature`, `self.merchant_access_token` and the rest are never read by the modelled
  code. The `args` tuple of exceptions is left out too.
- `__repr__` is left out; it only formats a string.
- Which network condition makes a real session raise which exception is left out. The model
  takes the four fault classes, and the library classes each one's exception belongs to
  (`ExceptionClasses`), as given.
- The integration tests and `setup.py` are left out: they are live-network tests and
  packaging.
