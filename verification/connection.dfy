/** The receipt client's transport core (src/uzum_payments/connection.py):
    the success test of `Connection._raise_for_status`, the status-then-band
    classifier `raise_error`, the except clauses of `_request` /
    `_async_request`, and the method selection of `_request_model`. */
module Connection {
  import opened Wrappers
  import opened Json
  import opened Exceptions
  import opened Bands
  import opened Transport

  /** A `Connection`: the frozen header map and the execution mode. */
  datatype Connection = Connection(headers: Headers, mode: Mode)

  /** The five HTTP statuses that `raise_error` maps before looking at the code. */
  const ExplicitStatuses: set<int> := {400, 401, 403, 422, 500}

  /** The kind an explicit HTTP status selects, whatever the `errorCode`. */
  function StatusKind(status: int): (k: Option<ErrorKind>)
    ensures k.Some? <==> status in ExplicitStatuses
    ensures status == 400 ==> k == Some(BadRequest)
    ensures status == 401 ==> k == Some(SignatureError)
    ensures status == 403 ==> k == Some(FingerprintError)
    ensures status == 422 ==> k == Some(ValidationError)
    ensures status == 500 ==> k == Some(InternalServerError)
  {
    if status == 400 then Some(BadRequest)
    else if status == 401 then Some(SignatureError)
    else if status == 403 then Some(FingerprintError)
    else if status == 422 then Some(ValidationError)
    else if status == 500 then Some(InternalServerError)
    else None
  }

  /** `raise_error(data, error_code, status_code)`: it never returns normally.
      An explicit status wins; otherwise the code picks a band; a code Python
      cannot order against 5000 (None included) is a TypeError. */
  function RaiseError(data: Object, code: Json, status: int): (r: Outcome)
    ensures !r.Returned?
    ensures r.Raised? ==> r.error.CheckoutError? && r.error == NewCheckoutError(r.error.kind, data, code)
    ensures r.Crashed? <==> status !in ExplicitStatuses && AsNumber(code).None?
    ensures r.Crashed? ==> r.crash == Unorderable(code)
    ensures status in ExplicitStatuses ==> r.Raised? && r.error.kind == StatusKind(status).value
    ensures status !in ExplicitStatuses && AsNumber(code).Some? ==>
              r.Raised? && r.error.kind == CodeBand(AsNumber(code).value)
  {
    match StatusKind(status)
    case Some(kind) => Raised(NewCheckoutError(kind, data, code))
    case None =>
      match AsNumber(code)
      case Some(n) => Raised(NewCheckoutError(CodeBand(n), data, code))
      case None => Crashed(Unorderable(code))
  }

  /** The success test: a falsy `errorCode` and HTTP status exactly 200. */
  predicate Succeeds(status: int, code: Json)
    ensures Succeeds(status, code) ==> status == 200 && status !in ExplicitStatuses
    ensures code.JNull? || code == JInt(0) ==> (Succeeds(status, code) <==> status == 200)
    ensures code.JInt? && code.i != 0 ==> !Succeeds(status, code)
  {
    !Truthy(code) && status == 200
  }

  /** `Connection._raise_for_status`: decode the text, read `errorCode`,
      return the body on success, otherwise hand over to `raise_error`. */
  function RaiseForStatus(status: int, text: Text): (r: Outcome)
    ensures r.Returned? <==>
              text.Parsed? && text.value.JObj? && Succeeds(status, Get(text.value.fields, "errorCode"))
    ensures r.Returned? ==> r.body == text.value.fields
    ensures DecodeBody(text).Stop? ==> r == Crashed(DecodeBody(text).crash)
    ensures r.Raised? ==> r.error.CheckoutError?
    ensures DecodeBody(text).Body? && !r.Returned? ==>
              r == RaiseError(DecodeBody(text).data, Get(DecodeBody(text).data, "errorCode"), status)
  {
    match DecodeBody(text)
    case Stop(crash) => Crashed(crash)
    case Body(data) =>
      var code := Get(data, "errorCode");
      if Succeeds(status, code) then Returned(data) else RaiseError(data, code, status)
  }

  /** How a reply becomes an outcome; the same for both modes apart from
      which transport exceptions are caught. */
  function Settle(mode: Mode, reply: Reply): (r: Outcome)
    ensures reply.Failed? ==> r == Catch(mode, reply.fault)
    ensures reply.Response? ==> r == RaiseForStatus(reply.status, reply.text)
  {
    match reply
    case Failed(fault) => Catch(mode, fault)
    case Response(status, text) => RaiseForStatus(status, text)
  }

  /** `_request_model` calls `_request(url, data)` in blocking mode, dropping
      `method` so that the default POST is used, and
      `_async_request(url, data, method)` in suspending mode. */
  function MethodSent(mode: Mode, verb: HttpMethod): (m: HttpMethod)
    ensures mode == Sync ==> m == POST
    ensures mode == Async ==> m == verb
  {
    if mode == Async then verb else POST
  }

  /** `_request_model(url, data, method)` followed by the session call through
      `net` and the handling of its reply. */
  function RequestModel(c: Connection, url: string, data: Object, verb: HttpMethod := POST,
                        net: Envelope -> Reply): (r: Call)
    ensures r.sent.url == url && r.sent.body == data && r.sent.headers == c.headers
    ensures r.sent.verb == (if c.mode == Sync then POST else verb)
    ensures r.outcome == Settle(c.mode, net(r.sent))
  {
    var sent := Envelope(url, MethodSent(c.mode, verb), c.headers, data);
    Call(sent, Settle(c.mode, net(sent)))
  }

  /** Success happens exactly for a 200 reply whose JSON object has a falsy
      `errorCode`, and then the decoded body is returned unchanged. */
  lemma SuccessIff(c: Connection, url: string, data: Object, verb: HttpMethod,
                   net: Envelope -> Reply)
    ensures var call := RequestModel(c, url, data, verb, net);
            var reply := net(call.sent);
            call.outcome.Returned? <==>
              (reply.Response? && reply.status == 200 && reply.text.Parsed? && reply.text.value.JObj?
               && !Truthy(Get(reply.text.value.fields, "errorCode")))
    ensures var call := RequestModel(c, url, data, verb, net);
            call.outcome.Returned? ==> call.outcome.body == net(call.sent).text.value.fields
  {
  }

  /** An explicit status decides the kind whatever the code says, e.g. 401
      with code 4000 is a SignatureError, not a PaymentErrors. */
  lemma StatusPrecedence(status: int, data: Object)
    requires status in ExplicitStatuses
    ensures var r := RaiseForStatus(status, Parsed(JObj(data)));
            r == Raised(NewCheckoutError(StatusKind(status).value, data, Get(data, "errorCode")))
  {
  }

  lemma SignatureBeatsPaymentBand(data: Object)
    requires Get(data, "errorCode") == JInt(4000)
    ensures RaiseForStatus(401, Parsed(JObj(data))).error.kind == SignatureError
    ensures CodeBand(4000) == PaymentErrors
  {
  }

  /** Any other non-success reply with an integer code is classified by the
      code's band alone; this includes status 200 with a nonzero code. */
  lemma BandFallback(status: int, data: Object, n: int)
    requires status !in ExplicitStatuses
    requires Get(data, "errorCode") == JInt(n)
    requires status != 200 || n != 0
    ensures RaiseForStatus(status, Parsed(JObj(data))) ==
              Raised(NewCheckoutError(CodeBand(n), data, JInt(n)))
  {
  }

  /** `ValidationError` is reached by two routes: status 422 whatever the
      code, and any other failing status with a code in [2000, 3000). Both
      raise the same exception value for the same body. */
  lemma ValidationErrorTwoRoutes(data: Object, status: int, n: int)
    requires status !in ExplicitStatuses && 2000 <= n < 3000
    requires Get(data, "errorCode") == JInt(n)
    ensures var byStatus := RaiseForStatus(422, Parsed(JObj(data)));
            var byBand := RaiseForStatus(status, Parsed(JObj(data)));
            byStatus.Raised? && byBand.Raised? && byStatus.error == byBand.error &&
            ClassName(byStatus.error) == "ValidationError"
  {
  }

  /** With an integer or absent code, the classifier crashes exactly when the
      code is absent and the status is none of 200, 400, 401, 403, 422, 500. */
  lemma CrashIff(status: int, data: Object)
    requires Get(data, "errorCode").JNull? || Get(data, "errorCode").JInt?
    ensures RaiseForStatus(status, Parsed(JObj(data))).Crashed? <==>
              Get(data, "errorCode").JNull? && status != 200 && status !in ExplicitStatuses
  {
  }

  /** Both modes classify an identical response identically. */
  lemma ModesAgreeOnResponses(status: int, text: Text)
    ensures Settle(Sync, Response(status, text)) == Settle(Async, Response(status, text))
  {
  }

  /** A timeout is NotResponding and a dropped connection is NetworkError in
      both modes; a refused connection is NetworkError only in blocking mode. */
  lemma TransportFaults(mode: Mode)
    ensures Settle(mode, Failed(TimedOut)).error.apiCode == 504
    ensures Settle(mode, Failed(Disconnected)).error.apiCode == 503
    ensures Settle(Async, Failed(Refused)).Crashed?
  {
  }
}
