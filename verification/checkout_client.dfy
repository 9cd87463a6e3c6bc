/** The checkout client (src/uzum_payments/client.py, class `ApiClient`): the
    header map built at construction, the endpoint payload and URL builders,
    the code-only classifier `_raise_for_status`, and the `_post_model`
    dispatch between the blocking and the suspending POST. */
module CheckoutClient {
  import opened Wrappers
  import opened Json
  import opened Exceptions
  import opened Bands
  import opened Transport
  import Connection

  /** `ApiClient.URL`, the default `base_url`. */
  const DefaultUrl := "https://www.inplat-tech.ru/api/v1/"

  /** The default `content_language`. */
  const DefaultContentLanguage := "ru-RU"

  /** The client after construction: frozen headers, the base URL exactly as
      given, and the execution mode. */
  datatype ApiClient = ApiClient(headers: Headers, baseUrl: string, mode: Mode)

  /** The seven headers every checkout request carries. */
  const FixedHeaderNames: set<string> :=
    {"X-Signature", "Content-Language", "X-Terminal-Id", "Accept",
     "Accept-Encoding", "Cache-Control", "Content-Type"}

  /** A Python `Optional[str]` argument that passes an `if arg:` test:
      neither None nor the empty string. */
  predicate Present(a: Option<string>)
    ensures Present(a) <==> a != None && a != Some("")
  {
    a.Some? && a.value != ""
  }

  /** `headers.update({name: arg})` guarded by `if arg:`. */
  function AddIfPresent(h: Headers, name: string, a: Option<string>): (r: Headers)
    ensures r.Keys == h.Keys + (if Present(a) then {name} else {})
    ensures Present(a) ==> r[name] == a.value
    ensures r - {name} == h - {name}
    ensures !Present(a) ==> r == h
  {
    if Present(a) then h[name := a.value] else h
  }

  /** The header dict literal of `ApiClient.__init__`. */
  function FixedHeaders(signature: string, contentLanguage: string, terminalId: string): (h: Headers)
    ensures h.Keys == FixedHeaderNames
    ensures h["X-Signature"] == signature && h["Content-Language"] == contentLanguage
    ensures h["X-Terminal-Id"] == terminalId
    ensures h["Accept"] == "application/json" && h["Accept-Encoding"] == "gzip,deflate,sdch"
    ensures h["Cache-Control"] == "no-cache" && h["Content-Type"] == "application/json"
  {
    map[
      "X-Signature" := signature,
      "Content-Language" := contentLanguage,
      "X-Terminal-Id" := terminalId,
      "Accept" := "application/json",
      "Accept-Encoding" := "gzip,deflate,sdch",
      "Cache-Control" := "no-cache",
      "Content-Type" := "application/json"
    ]
  }

  /** `ApiClient.__init__`, minus the session (which is opaque here). */
  function NewApiClient(signature: string, terminalId: string, merchantAccessToken: Option<string> := None,
                        contentLanguage: string := DefaultContentLanguage, fingerprint: Option<string> := None,
                        apiKey: Option<string> := None, baseUrl: string := DefaultUrl,
                        mode: Mode := Sync): (c: ApiClient)
    ensures FixedHeaderNames <= c.headers.Keys
    ensures c.headers["X-Signature"] == signature
    ensures c.headers["Content-Language"] == contentLanguage
    ensures c.headers["X-Terminal-Id"] == terminalId
    ensures c.headers["Accept"] == "application/json"
    ensures c.headers["Accept-Encoding"] == "gzip,deflate,sdch"
    ensures c.headers["Cache-Control"] == "no-cache"
    ensures c.headers["Content-Type"] == "application/json"
    ensures "X-Merchant-Access-Token" in c.headers <==> Present(merchantAccessToken)
    ensures "X-Fingerprint" in c.headers <==> Present(fingerprint)
    ensures "X-API-Key" in c.headers <==> Present(apiKey)
    ensures Present(merchantAccessToken) ==> c.headers["X-Merchant-Access-Token"] == merchantAccessToken.value
    ensures Present(fingerprint) ==> c.headers["X-Fingerprint"] == fingerprint.value
    ensures Present(apiKey) ==> c.headers["X-API-Key"] == apiKey.value
    ensures forall k :: k in c.headers ==>
              k in FixedHeaderNames || k == "X-Merchant-Access-Token" || k == "X-Fingerprint" || k == "X-API-Key"
    ensures c.baseUrl == baseUrl && c.mode == mode
  {
    CredentialNamesFresh();
    var fixed := FixedHeaders(signature, contentLanguage, terminalId);
    var h1 := AddIfPresent(fixed, "X-Merchant-Access-Token", merchantAccessToken);
    var h2 := AddIfPresent(h1, "X-Fingerprint", fingerprint);
    var h3 := AddIfPresent(h2, "X-API-Key", apiKey);
    ApiClient(h3, baseUrl, mode)
  }

  function Count(b: bool): nat {
    if b then 1 else 0
  }

  /** Adding a credential header under a new name grows the map by one
      exactly when the credential is truthy. */
  lemma AddIfPresentSize(h: Headers, name: string, a: Option<string>)
    requires name !in h
    ensures |AddIfPresent(h, name, a)| == |h| + Count(Present(a))
    ensures AddIfPresent(h, name, a).Keys == h.Keys + (if Present(a) then {name} else {})
  {
  }

  /** The seven fixed header names are distinct. */
  lemma FixedHeaderNamesSize()
    ensures |FixedHeaderNames| == 7
  {
    // The cardinality of a set display of distinct string literals is not
    // computed in one step; each line adds one literal and records the count.
    var s := {"X-Signature"};
    assert |s + {"Content-Language"}| == 2;
    assert |s + {"Content-Language", "X-Terminal-Id"}| == 3;
    assert |s + {"Content-Language", "X-Terminal-Id", "Accept"}| == 4;
    assert |s + {"Content-Language", "X-Terminal-Id", "Accept", "Accept-Encoding"}| == 5;
    assert |s + {"Content-Language", "X-Terminal-Id", "Accept", "Accept-Encoding", "Cache-Control"}| == 6;
  }

  /** The three credential header names are new to the fixed map and to each other. */
  lemma CredentialNamesFresh()
    ensures "X-Merchant-Access-Token" !in FixedHeaderNames
    ensures "X-Fingerprint" !in FixedHeaderNames
    ensures "X-API-Key" !in FixedHeaderNames
    ensures "X-Fingerprint" != "X-Merchant-Access-Token"
    ensures "X-API-Key" != "X-Merchant-Access-Token" && "X-API-Key" != "X-Fingerprint"
  {
  }

  /** Without credentials the header map is the fixed literal alone. */
  lemma NoCredentials(signature: string, terminalId: string, contentLanguage: string, baseUrl: string, mode: Mode)
    ensures NewApiClient(signature, terminalId, None, contentLanguage, None, None, baseUrl, mode).headers ==
            FixedHeaders(signature, contentLanguage, terminalId)
  {
  }

  /** Built with every default (`ApiClient.URL`, 'ru-RU', no credentials):
      the seven fixed headers only, and a base URL that ends with '/', so that
      the relative endpoint paths are appended after a separator. */
  lemma DefaultConstruction(signature: string, terminalId: string, mode: Mode)
    ensures var c := NewApiClient(signature, terminalId, mode := mode);
            c.headers.Keys == FixedHeaderNames && |c.headers| == 7 &&
            c.headers["Content-Language"] == "ru-RU" &&
            c.baseUrl == DefaultUrl && c.baseUrl[|c.baseUrl| - 1] == '/'
  {
    var c := NewApiClient(signature, terminalId, mode := mode);
    NoCredentials(signature, terminalId, DefaultContentLanguage, DefaultUrl, mode);
    FixedHeaderNamesSize();
    assert |c.headers| == |c.headers.Keys|;
  }

  /** The header map has the seven fixed entries plus one per truthy optional
      credential, and nothing else. */
  lemma HeaderCount(signature: string, terminalId: string, merchantAccessToken: Option<string>,
                    contentLanguage: string, fingerprint: Option<string>, apiKey: Option<string>,
                    baseUrl: string, mode: Mode)
    ensures var c := NewApiClient(signature, terminalId, merchantAccessToken, contentLanguage,
                                  fingerprint, apiKey, baseUrl, mode);
            |c.headers| == 7 + Count(Present(merchantAccessToken)) + Count(Present(fingerprint))
                             + Count(Present(apiKey))
  {
    var fixed := FixedHeaders(signature, contentLanguage, terminalId);
    CredentialNamesFresh();
    FixedHeaderNamesSize();
    assert |fixed| == |fixed.Keys| == 7;
    var h1 := AddIfPresent(fixed, "X-Merchant-Access-Token", merchantAccessToken);
    AddIfPresentSize(fixed, "X-Merchant-Access-Token", merchantAccessToken);
    var h2 := AddIfPresent(h1, "X-Fingerprint", fingerprint);
    AddIfPresentSize(h1, "X-Fingerprint", fingerprint);
    AddIfPresentSize(h2, "X-API-Key", apiKey);
  }

  /** The checkout endpoints. */
  datatype Endpoint =
    | Register
    | MerchantPay
    | GetOrderStatus
    | GetOperationState
    | Complete
    | Refund
    | Reverse
    | GetBindings

  /** The fixed path each endpoint appends to `base_url`. */
  function Path(e: Endpoint): (p: string)
    ensures |p| > 0 && p[0] != '/'
    ensures "payment/" <= p <==> e in {Register, MerchantPay, GetOrderStatus, GetOperationState}
    ensures "acquiring/" <= p <==> e in {Complete, Refund, Reverse, GetBindings}
  {
    match e
    case Register => "payment/register"
    case MerchantPay => "payment/merchantPay"
    case GetOrderStatus => "payment/getOrderStatus"
    case GetOperationState => "payment/getOperationState"
    case Complete => "acquiring/complete"
    case Refund => "acquiring/refund"
    case Reverse => "acquiring/reverse"
    case GetBindings => "acquiring/getBindings"
  }

  /** The URL of a checkout endpoint under `base`. */
  function Url(base: string, e: Endpoint): (u: string)
    ensures base <= u && u[|base|..] == Path(e)
    ensures |u| > |base| && u[|base|] != '/'
  {
    Join(base, Path(e))
  }

  /** Two endpoints never share a URL under the same base. */
  lemma UrlInjective(base: string, e1: Endpoint, e2: Endpoint)
    requires Url(base, e1) == Url(base, e2)
    ensures e1 == e2
  {
    assert Path(e1) == Url(base, e1)[|base|..];
  }

  /** `{'payType': 'ONE_STEP'}`, the default `paymentParams`. */
  const OneStep: Json := JObj(map["payType" := JStr("ONE_STEP")])

  /** The Python parameter names of `register`. A keyword argument with one
      of these names binds the parameter (or is a TypeError for a duplicate),
      so it never reaches `**kwargs`. */
  const RegisterParameterNames: set<string> :=
    {"self", "amount", "client_id", "currency", "order_number", "payment_details", "success_url",
     "failure_url", "view_type", "payment_params", "merchant_params", "session_timeout_secs"}

  /** The named fields of the `register` payload. */
  const RegisterFieldNames: set<string> :=
    {"amount", "clientId", "currency", "paymentDetails", "orderNumber", "successUrl",
     "failureUrl", "viewType", "merchantParams", "sessionTimeoutSecs", "paymentParams"}

  /** The `data` dict of `register` before `**kwargs` is merged in. */
  function RegisterFields(amount: Json, clientId: Json, currency: Json, orderNumber: Json,
                          paymentDetails: Json, successUrl: Json, failureUrl: Json, viewType: Json,
                          paymentParams: Json, merchantParams: Json, sessionTimeoutSecs: Json): (d: Object)
    ensures d.Keys == RegisterFieldNames
    ensures d["amount"] == amount && d["clientId"] == clientId && d["currency"] == currency
    ensures d["paymentDetails"] == paymentDetails && d["orderNumber"] == orderNumber
    ensures d["successUrl"] == successUrl && d["failureUrl"] == failureUrl && d["viewType"] == viewType
    ensures d["merchantParams"] == merchantParams && d["sessionTimeoutSecs"] == sessionTimeoutSecs
    ensures d["paymentParams"] == (if paymentParams == JNull then OneStep else paymentParams)
  {
    var params := if paymentParams == JNull then OneStep else paymentParams;
    var data := map[
      "amount" := amount,
      "clientId" := clientId,
      "currency" := currency,
      "paymentDetails" := paymentDetails,
      "orderNumber" := orderNumber,
      "successUrl" := successUrl,
      "failureUrl" := failureUrl,
      "viewType" := viewType,
      "merchantParams" := merchantParams,
      "sessionTimeoutSecs" := sessionTimeoutSecs
    ];
    if params == JNull then data["paymentParams" := OneStep] else data["paymentParams" := params]
  }

  /** `register(...)`: the named fields, with `paymentParams` defaulted when
      None, then `{**data, **kwargs}` so that keyword arguments win. The
      parameter defaults are those of the Python signature. */
  function RegisterRequest(c: ApiClient, amount: Json, clientId: Json, currency: Json, orderNumber: Json,
                           paymentDetails: Json := JNull, successUrl: Json := JNull,
                           failureUrl: Json := JNull, viewType: Json := JStr("REDIRECT"),
                           paymentParams: Json := JNull, merchantParams: Json := JNull,
                           sessionTimeoutSecs: Json := JInt(600), kwargs: Object := map[]): (r: Request)
    requires kwargs.Keys !! RegisterParameterNames
    ensures r.url == Url(c.baseUrl, Register) && r.verb == POST
    ensures r.body.Keys == RegisterFieldNames + kwargs.Keys
    ensures forall k :: k in kwargs ==> r.body[k] == kwargs[k]
    ensures r.body["amount"] == amount
    ensures "clientId" !in kwargs ==> r.body["clientId"] == clientId
    ensures r.body["currency"] == currency
    ensures "paymentDetails" !in kwargs ==> r.body["paymentDetails"] == paymentDetails
    ensures "orderNumber" !in kwargs ==> r.body["orderNumber"] == orderNumber
    ensures "successUrl" !in kwargs ==> r.body["successUrl"] == successUrl
    ensures "failureUrl" !in kwargs ==> r.body["failureUrl"] == failureUrl
    ensures "viewType" !in kwargs ==> r.body["viewType"] == viewType
    ensures "merchantParams" !in kwargs ==> r.body["merchantParams"] == merchantParams
    ensures "sessionTimeoutSecs" !in kwargs ==> r.body["sessionTimeoutSecs"] == sessionTimeoutSecs
    ensures "paymentParams" !in kwargs ==>
              r.body["paymentParams"] == (if paymentParams == JNull then OneStep else paymentParams)
  {
    var data := RegisterFields(amount, clientId, currency, orderNumber, paymentDetails, successUrl,
                               failureUrl, viewType, paymentParams, merchantParams, sessionTimeoutSecs);
    assert "amount" !in kwargs && "currency" !in kwargs by {
      assert "amount" in RegisterParameterNames && "currency" in RegisterParameterNames;
    }
    Request(Url(c.baseUrl, Register), data + kwargs, POST)
  }

  /** An explicitly passed `payment_params`, even the falsy `{}`, is sent
      verbatim; only None is replaced by the one-step default. */
  lemma EmptyPaymentParamsKept(c: ApiClient, amount: Json, clientId: Json, currency: Json, orderNumber: Json)
    ensures var r := RegisterRequest(c, amount, clientId, currency, orderNumber, paymentParams := JObj(map[]));
            r.body["paymentParams"] == JObj(map[]) && r.body["sessionTimeoutSecs"] == JInt(600)
  {
  }

  /** With only the four required arguments, `register` sends exactly the
      eleven named fields: the one-step payment parameters, the REDIRECT view,
      a 600-second session and None for the other optional fields. */
  lemma RegisterDefaults(c: ApiClient, amount: Json, clientId: Json, currency: Json, orderNumber: Json)
    ensures var b := RegisterRequest(c, amount, clientId, currency, orderNumber).body;
            b.Keys == RegisterFieldNames && b["paymentParams"] == OneStep &&
            b["viewType"] == JStr("REDIRECT") && b["sessionTimeoutSecs"] == JInt(600) &&
            b["paymentDetails"] == JNull && b["successUrl"] == JNull && b["failureUrl"] == JNull &&
            b["merchantParams"] == JNull
  {
  }

  function MerchantPayRequest(c: ApiClient, processData: Json, orderId: Json): (r: Request)
    ensures r.url == Url(c.baseUrl, MerchantPay) && r.verb == POST
    ensures r.body.Keys == {"processData", "orderId"}
    ensures r.body["processData"] == processData && r.body["orderId"] == orderId
  {
    Request(Url(c.baseUrl, MerchantPay), map["processData" := processData, "orderId" := orderId], POST)
  }

  function GetOrderStatusRequest(c: ApiClient, orderId: Json): (r: Request)
    ensures r.url == Url(c.baseUrl, GetOrderStatus) && r.verb == POST
    ensures r.body.Keys == {"orderId"} && r.body["orderId"] == orderId
  {
    Request(Url(c.baseUrl, GetOrderStatus), map["orderId" := orderId], POST)
  }

  function GetOperationStateRequest(c: ApiClient, operationId: Json): (r: Request)
    ensures r.url == Url(c.baseUrl, GetOperationState) && r.verb == POST
    ensures r.body.Keys == {"operationId"} && r.body["operationId"] == operationId
  {
    Request(Url(c.baseUrl, GetOperationState), map["operationId" := operationId], POST)
  }

  /** The `{orderId, amount}` payload shared by `complete`, `refund` and `reverse`. */
  function OrderAmount(orderId: Json, amount: Json): (d: Object)
    ensures d.Keys == {"orderId", "amount"}
    ensures d["orderId"] == orderId && d["amount"] == amount
  {
    map["orderId" := orderId, "amount" := amount]
  }

  function CompleteRequest(c: ApiClient, orderId: Json, amount: Json): (r: Request)
    ensures r.url == Url(c.baseUrl, Complete) && r.verb == POST
    ensures r.body.Keys == {"orderId", "amount"}
    ensures r.body["orderId"] == orderId && r.body["amount"] == amount
  {
    Request(Url(c.baseUrl, Complete), OrderAmount(orderId, amount), POST)
  }

  function RefundRequest(c: ApiClient, orderId: Json, amount: Json): (r: Request)
    ensures r.url == Url(c.baseUrl, Refund) && r.verb == POST
    ensures r.body.Keys == {"orderId", "amount"}
    ensures r.body["orderId"] == orderId && r.body["amount"] == amount
  {
    Request(Url(c.baseUrl, Refund), OrderAmount(orderId, amount), POST)
  }

  function ReverseRequest(c: ApiClient, orderId: Json, amount: Json): (r: Request)
    ensures r.url == Url(c.baseUrl, Reverse) && r.verb == POST
    ensures r.body.Keys == {"orderId", "amount"}
    ensures r.body["orderId"] == orderId && r.body["amount"] == amount
  {
    Request(Url(c.baseUrl, Reverse), OrderAmount(orderId, amount), POST)
  }

  /** `complete`, `refund` and `reverse` send the same body and differ only
      in the URL, which is distinct for each. */
  lemma CaptureRefundReverseDifferOnlyInUrl(c: ApiClient, orderId: Json, amount: Json)
    ensures CompleteRequest(c, orderId, amount).body == RefundRequest(c, orderId, amount).body
    ensures RefundRequest(c, orderId, amount).body == ReverseRequest(c, orderId, amount).body
    ensures CompleteRequest(c, orderId, amount).url != RefundRequest(c, orderId, amount).url
    ensures RefundRequest(c, orderId, amount).url != ReverseRequest(c, orderId, amount).url
    ensures CompleteRequest(c, orderId, amount).url != ReverseRequest(c, orderId, amount).url
  {
    if Url(c.baseUrl, Complete) == Url(c.baseUrl, Refund) { UrlInjective(c.baseUrl, Complete, Refund); }
    if Url(c.baseUrl, Refund) == Url(c.baseUrl, Reverse) { UrlInjective(c.baseUrl, Refund, Reverse); }
    if Url(c.baseUrl, Complete) == Url(c.baseUrl, Reverse) { UrlInjective(c.baseUrl, Complete, Reverse); }
  }

  function GetBindingsRequest(c: ApiClient, clientId: Json): (r: Request)
    ensures r.url == Url(c.baseUrl, GetBindings) && r.verb == POST
    ensures r.body.Keys == {"clientId"} && r.body["clientId"] == clientId
  {
    Request(Url(c.baseUrl, GetBindings), map["clientId" := clientId], POST)
  }

  /** `ApiClient._raise_for_status`: only `errorCode` matters. A falsy code
      returns the body; a numeric code raises by band; any other truthy code
      cannot be ordered against 5000. */
  function RaiseForStatus(text: Text): (r: Outcome)
    ensures r.Returned? <==> text.Parsed? && text.value.JObj? && !Truthy(Get(text.value.fields, "errorCode"))
    ensures r.Returned? ==> r.body == text.value.fields
    ensures DecodeBody(text).Stop? ==> r == Crashed(DecodeBody(text).crash)
    ensures r.Raised? ==>
              var data := text.value.fields;
              var code := Get(data, "errorCode");
              AsNumber(code).Some? && AsNumber(code).value != 0
              && r.error == NewCheckoutError(CodeBand(AsNumber(code).value), data, code)
    ensures r.Crashed? && text.Parsed? && text.value.JObj? ==>
              r.crash == Unorderable(Get(text.value.fields, "errorCode"))
              && AsNumber(Get(text.value.fields, "errorCode")).None?
  {
    match DecodeBody(text)
    case Stop(crash) => Crashed(crash)
    case Body(data) =>
      var code := Get(data, "errorCode");
      if !Truthy(code) then Returned(data)
      else
        match AsNumber(code)
        case Some(n) => Raised(NewCheckoutError(CodeBand(n), data, code))
        case None => Crashed(Unorderable(code))
  }

  /** The kind `_raise_for_status` raises for an integer code: the bands, with
      UnexpectedError for every nonzero code below 1000, negatives included. */
  lemma CodeOnlyBands(data: Object, n: int)
    requires Get(data, "errorCode") == JInt(n)
    ensures var r := RaiseForStatus(Parsed(JObj(data)));
            (n == 0 <==> r.Returned?)
            && (n != 0 ==> r.Raised? && r.error.kind == CodeBand(n) && r.error.code == JInt(n))
            && (r.Raised? && r.error.kind == UnexpectedError <==> n < 1000 && n != 0)
  {
  }

  /** `_post` / `_async_post` with the reply handling. */
  function Settle(mode: Mode, reply: Reply): (r: Outcome)
    ensures reply.Failed? ==> r == Catch(mode, reply.fault)
    ensures reply.Response? ==> r == RaiseForStatus(reply.text)
  {
    match reply
    case Failed(fault) => Catch(mode, fault)
    case Response(_, text) => RaiseForStatus(text)
  }

  /** `_post_model(url, data)`: both modes POST the body with the client's
      headers; the reply goes through the same `_raise_for_status`. */
  function PostModel(c: ApiClient, req: Request, net: Envelope -> Reply): (r: Call)
    ensures r.sent == Envelope(req.url, POST, c.headers, req.body)
    ensures r.outcome == Settle(c.mode, net(r.sent))
  {
    var sent := Envelope(req.url, POST, c.headers, req.body);
    Call(sent, Settle(c.mode, net(sent)))
  }

  /** The HTTP status never influences the checkout outcome, and both modes
      classify the same response the same way. */
  lemma StatusIgnored(mode: Mode, s1: int, s2: int, text: Text)
    ensures Settle(mode, Response(s1, text)) == Settle(mode, Response(s2, text))
    ensures Settle(Sync, Response(s1, text)) == Settle(Async, Response(s1, text))
  {
  }

  /** At status 200 the two clients' classifiers agree on every body; at an
      explicit error status they differ, e.g. 401 with a zero code is a
      SignatureError for the receipt client and a success here. */
  lemma ClassifiersCompared(text: Text, data: Object)
    requires Get(data, "errorCode") == JInt(0)
    ensures Connection.RaiseForStatus(200, text) == RaiseForStatus(text)
    ensures Connection.RaiseForStatus(401, Parsed(JObj(data))).Raised?
    ensures RaiseForStatus(Parsed(JObj(data))).Returned?
  {
  }
}
