/** The receipt-producer client (src/uzum_payments/receipt_producer/client.py,
    class `ReceiptApiClient`): the five-entry header map, the trailing-slash
    normalisation of `base_url`, and the four endpoint builders, which hand
    their request to `Connection._request_model`. */
module ReceiptClient {
  import opened Json
  import opened Transport
  import Connection

  /** The client after construction. */
  datatype ReceiptApiClient = ReceiptApiClient(baseUrl: string, conn: Connection.Connection)

  predicate EndsWithSlash(s: string) {
    |s| > 0 && s[|s| - 1] == '/'
  }

  /** `if not base_url[-1] == '/': base_url += '/'`. An empty `base_url`
      raises IndexError at `[-1]`, so it is excluded. */
  function NormaliseBaseUrl(base: string): (r: string)
    requires |base| > 0
    ensures EndsWithSlash(r)
    ensures base <= r && |r| <= |base| + 1
    ensures r == base <==> EndsWithSlash(base)
  {
    if base[|base| - 1] != '/' then base + "/" else base
  }

  /** Normalising twice is normalising once. */
  lemma NormaliseIdempotent(base: string)
    requires |base| > 0
    ensures NormaliseBaseUrl(NormaliseBaseUrl(base)) == NormaliseBaseUrl(base)
  {
  }

  /** The result is the shortest extension of `base` that ends with a slash. */
  lemma NormaliseShortest(base: string, s: string)
    requires |base| > 0 && base <= s && EndsWithSlash(s)
    ensures |NormaliseBaseUrl(base)| <= |s|
  {
    if !EndsWithSlash(base) {
      assert s != base;
    }
  }

  const ReceiptHeaderNames: set<string> :=
    {"ssl-client-fingerprint", "Accept", "Accept-Encoding", "Cache-Control", "Content-Type"}

  /** The header dict of `ReceiptApiClient.__init__`. */
  function ReceiptHeaders(sslClientFingerprint: string): (h: Headers)
    ensures h.Keys == ReceiptHeaderNames
    ensures h["ssl-client-fingerprint"] == sslClientFingerprint
    ensures h["Accept"] == "application/json" && h["Content-Type"] == "application/json"
    ensures h["Accept-Encoding"] == "gzip,deflate,sdch" && h["Cache-Control"] == "no-cache"
  {
    map[
      "ssl-client-fingerprint" := sslClientFingerprint,
      "Accept" := "application/json",
      "Accept-Encoding" := "gzip,deflate,sdch",
      "Cache-Control" := "no-cache",
      "Content-Type" := "application/json"
    ]
  }

  /** Exactly five headers, whatever the fingerprint. */
  lemma ReceiptHeaderCount(sslClientFingerprint: string)
    ensures |ReceiptHeaders(sslClientFingerprint)| == 5
  {
    // The cardinality of a set display of distinct string literals is not
    // computed in one step; each line adds one literal and records the count.
    var s := {"ssl-client-fingerprint"};
    assert |s + {"Accept"}| == 2;
    assert |s + {"Accept", "Accept-Encoding"}| == 3;
    assert |s + {"Accept", "Accept-Encoding", "Cache-Control"}| == 4;
    assert |ReceiptHeaderNames| == 5;
    assert |ReceiptHeaders(sslClientFingerprint).Keys| == 5;
  }

  /** `ReceiptApiClient.__init__`, minus the session. */
  function NewReceiptApiClient(sslClientFingerprint: string, baseUrl: string, mode: Mode := Sync): (c: ReceiptApiClient)
    requires |baseUrl| > 0
    ensures EndsWithSlash(c.baseUrl) && baseUrl <= c.baseUrl
    ensures c.baseUrl == baseUrl <==> EndsWithSlash(baseUrl)
    ensures c.conn.headers == ReceiptHeaders(sslClientFingerprint) && c.conn.mode == mode
  {
    ReceiptApiClient(NormaliseBaseUrl(baseUrl), Connection.Connection(ReceiptHeaders(sslClientFingerprint), mode))
  }

  /** The receipt endpoints. */
  datatype Endpoint = Health | FiscalReceiptGeneration | FiscalReceiptRefund | SaveQrCodeUrl

  function Path(e: Endpoint): (p: string)
    ensures |p| > 0 && '/' !in p
  {
    match e
    case Health => "health"
    case FiscalReceiptGeneration => "fiscal_receipt_generation"
    case FiscalReceiptRefund => "fiscal_receipt_refund"
    case SaveQrCodeUrl => "save_qr_code_url"
  }

  /** The URL of a receipt endpoint under `base`. */
  function Url(base: string, e: Endpoint): (u: string)
    ensures base <= u && u[|base|..] == Path(e)
    ensures forall i :: |base| <= i < |u| ==> u[i] != '/'
  {
    Join(base, Path(e))
  }

  /** After construction a URL is the given base, one slash when the base had
      none, then the path. */
  lemma UrlAfterConstruction(sslClientFingerprint: string, baseUrl: string, mode: Mode, e: Endpoint)
    requires |baseUrl| > 0
    ensures var c := NewReceiptApiClient(sslClientFingerprint, baseUrl, mode);
            Url(c.baseUrl, e) == (if EndsWithSlash(baseUrl) then baseUrl else baseUrl + "/") + Path(e)
  {
  }

  /** `health(**kwargs)`: a GET whose JSON body is a copy of the keyword arguments. */
  function HealthRequest(c: ReceiptApiClient, kwargs: Object := map[]): (r: Request)
    ensures r.url == Url(c.baseUrl, Health) && r.body == kwargs && r.verb == GET
  {
    Request(Url(c.baseUrl, Health), kwargs, GET)
  }

  /** `data['payment_id'] = payment_id` guarded by `if payment_id:`. */
  function WithPaymentId(d: Object, paymentId: Json): (r: Object)
    ensures r.Keys == d.Keys + (if Truthy(paymentId) then {"payment_id"} else {})
    ensures Truthy(paymentId) ==> r["payment_id"] == paymentId
    ensures forall k :: k in d && (k != "payment_id" || !Truthy(paymentId)) ==> r[k] == d[k]
  {
    if Truthy(paymentId) then d["payment_id" := paymentId] else d
  }

  const GenerationKeys: set<string> :=
    {"operation_id", "date_time", "receipt_type", "cash_amount", "card_amount", "phone_number", "items"}

  /** `fiscal_receipt_generation(...)`; `payment_id` defaults to None and
      `receipt_type` to 0. */
  function GenerationRequest(c: ReceiptApiClient, operationId: Json, dateTime: Json, cashAmount: Json,
                             cardAmount: Json, phoneNumber: Json, items: Json, paymentId: Json := JNull,
                             receiptType: Json := JInt(0)): (r: Request)
    ensures r.url == Url(c.baseUrl, FiscalReceiptGeneration) && r.verb == POST
    ensures r.body.Keys == GenerationKeys + (if Truthy(paymentId) then {"payment_id"} else {})
    ensures r.body["operation_id"] == operationId && r.body["date_time"] == dateTime
    ensures r.body["receipt_type"] == receiptType
    ensures r.body["cash_amount"] == cashAmount && r.body["card_amount"] == cardAmount
    ensures r.body["phone_number"] == phoneNumber && r.body["items"] == items
    ensures "payment_id" in r.body ==> r.body["payment_id"] == paymentId
  {
    var data := map[
      "operation_id" := operationId,
      "date_time" := dateTime,
      "receipt_type" := receiptType,
      "cash_amount" := cashAmount,
      "card_amount" := cardAmount,
      "phone_number" := phoneNumber,
      "items" := items
    ];
    Request(Url(c.baseUrl, FiscalReceiptGeneration), WithPaymentId(data, paymentId), POST)
  }

  const RefundKeys: set<string> :=
    {"operation_id", "date_time", "receipt_type", "cash_amount", "card_amount", "items"}

  /** `fiscal_receipt_refund(...)`: the generation payload without `phone_number`. */
  function RefundRequest(c: ReceiptApiClient, operationId: Json, dateTime: Json, cashAmount: Json,
                         cardAmount: Json, items: Json, paymentId: Json := JNull,
                         receiptType: Json := JInt(0)): (r: Request)
    ensures r.url == Url(c.baseUrl, FiscalReceiptRefund) && r.verb == POST
    ensures r.body.Keys == RefundKeys + (if Truthy(paymentId) then {"payment_id"} else {})
    ensures r.body["operation_id"] == operationId && r.body["date_time"] == dateTime
    ensures r.body["receipt_type"] == receiptType
    ensures r.body["cash_amount"] == cashAmount && r.body["card_amount"] == cardAmount
    ensures r.body["items"] == items
    ensures "payment_id" in r.body ==> r.body["payment_id"] == paymentId
  {
    var data := map[
      "operation_id" := operationId,
      "date_time" := dateTime,
      "receipt_type" := receiptType,
      "cash_amount" := cashAmount,
      "card_amount" := cardAmount,
      "items" := items
    ];
    Request(Url(c.baseUrl, FiscalReceiptRefund), WithPaymentId(data, paymentId), POST)
  }

  /** The refund body is the generation body for the same arguments with
      `phone_number` removed, whatever phone number was given. */
  lemma RefundIsGenerationWithoutPhone(c: ReceiptApiClient, operationId: Json, dateTime: Json,
                                       cashAmount: Json, cardAmount: Json, phoneNumber: Json, items: Json,
                                       paymentId: Json, receiptType: Json)
    ensures RefundRequest(c, operationId, dateTime, cashAmount, cardAmount, items, paymentId, receiptType).body ==
            GenerationRequest(c, operationId, dateTime, cashAmount, cardAmount, phoneNumber, items,
                              paymentId, receiptType).body - {"phone_number"}
  {
    var data := map[
      "operation_id" := operationId,
      "date_time" := dateTime,
      "receipt_type" := receiptType,
      "cash_amount" := cashAmount,
      "card_amount" := cardAmount,
      "phone_number" := phoneNumber,
      "items" := items
    ];
    var refund := map[
      "operation_id" := operationId,
      "date_time" := dateTime,
      "receipt_type" := receiptType,
      "cash_amount" := cashAmount,
      "card_amount" := cardAmount,
      "items" := items
    ];
    assert data - {"phone_number"} == refund;
    WithPaymentIdWithout(data, "phone_number", paymentId);
  }

  /** Removing a key other than `payment_id` commutes with adding `payment_id`. */
  lemma WithPaymentIdWithout(d: Object, k: string, paymentId: Json)
    requires k != "payment_id"
    ensures WithPaymentId(d, paymentId) - {k} == WithPaymentId(d - {k}, paymentId)
  {
  }

  /** The seven generation keys are distinct, and `payment_id` is not one of them. */
  lemma GenerationKeysSize()
    ensures |GenerationKeys| == 7 && "payment_id" !in GenerationKeys
  {
    // The cardinality of a set display of distinct string literals is not
    // computed in one step; each line adds one literal and records the count.
    var s := {"operation_id"};
    assert |s + {"date_time"}| == 2;
    assert |s + {"date_time", "receipt_type"}| == 3;
    assert |s + {"date_time", "receipt_type", "cash_amount"}| == 4;
    assert |s + {"date_time", "receipt_type", "cash_amount", "card_amount"}| == 5;
    assert |s + {"date_time", "receipt_type", "cash_amount", "card_amount", "phone_number"}| == 6;
  }

  /** The generation body has seven entries, eight when `payment_id` is truthy. */
  lemma GenerationBodySize(c: ReceiptApiClient, operationId: Json, dateTime: Json,
                           cashAmount: Json, cardAmount: Json, phoneNumber: Json,
                           items: Json, paymentId: Json, receiptType: Json)
    ensures |GenerationRequest(c, operationId, dateTime, cashAmount, cardAmount, phoneNumber, items,
                               paymentId, receiptType).body| == if Truthy(paymentId) then 8 else 7
  {
    GenerationKeysSize();
    var body := GenerationRequest(c, operationId, dateTime, cashAmount, cardAmount, phoneNumber, items,
                                  paymentId, receiptType).body;
    assert |body| == |body.Keys|;
  }

  /** Called with the defaults `payment_id=None` and `receipt_type=0`, both
      payloads carry `receipt_type` 0 and no `payment_id`. */
  lemma ReceiptDefaults(c: ReceiptApiClient, operationId: Json, dateTime: Json, cashAmount: Json,
                        cardAmount: Json, phoneNumber: Json, items: Json)
    ensures var g := GenerationRequest(c, operationId, dateTime, cashAmount, cardAmount, phoneNumber, items).body;
            g.Keys == GenerationKeys && g["receipt_type"] == JInt(0) && "payment_id" !in g
    ensures var r := RefundRequest(c, operationId, dateTime, cashAmount, cardAmount, items).body;
            r.Keys == RefundKeys && r["receipt_type"] == JInt(0) && "payment_id" !in r
  {
    GenerationKeysSize();
  }

  /** `save_qr_code_url(operation_id, qr_code_url, amount)`. */
  function SaveQrCodeUrlRequest(c: ReceiptApiClient, operationId: Json, qrCodeUrl: Json, amount: Json): (r: Request)
    ensures r.url == Url(c.baseUrl, SaveQrCodeUrl) && r.verb == POST
    ensures r.body.Keys == {"operation_id", "qr_code_url", "amount"}
    ensures r.body["operation_id"] == operationId && r.body["qr_code_url"] == qrCodeUrl
    ensures r.body["amount"] == amount
  {
    Request(Url(c.baseUrl, SaveQrCodeUrl),
            map["operation_id" := operationId, "qr_code_url" := qrCodeUrl, "amount" := amount], POST)
  }

  /** An endpoint call: `self._request_model(url, data=..., method=...)`. */
  function Send(c: ReceiptApiClient, req: Request, net: Envelope -> Reply): (r: Call)
    ensures r.sent.url == req.url && r.sent.body == req.body && r.sent.headers == c.conn.headers
    ensures r.sent.verb == (if c.conn.mode == Sync then POST else req.verb)
    ensures r.outcome == Connection.Settle(c.conn.mode, net(r.sent))
  {
    Connection.RequestModel(c.conn, req.url, req.body, req.verb, net)
  }

  /** The three POST endpoints pass no `method`, so their call is
      `_request_model` with its default POST. */
  lemma PostEndpointsUseDefaultMethod(c: ReceiptApiClient, req: Request, net: Envelope -> Reply)
    requires req.verb == POST
    ensures Send(c, req, net) == Connection.RequestModel(c.conn, req.url, req.body, net := net)
    ensures Send(c, req, net).sent.verb == POST
  {
  }

  /** `health` asks for GET, but the blocking path drops the method, so it
      goes out as POST there and as GET only in suspending mode. */
  lemma HealthVerb(c: ReceiptApiClient, kwargs: Object, net: Envelope -> Reply)
    ensures Send(c, HealthRequest(c, kwargs), net).sent.verb == (if c.conn.mode == Sync then POST else GET)
  {
  }
}
