/** The abstract HTTP layer underneath both clients. The `requests` session
    (blocking mode) and the `aiohttp` session (suspending mode) are replaced by
    a pure function from the request sent to the reply received; the outcome of
    a call is a returned body, a raised library exception, or a crash (a Python
    error the library does not translate). */
module Transport {
  import opened Wrappers
  import opened Json
  import opened Exceptions

  /** `is_async == False` is Sync (requests), `True` is Async (aiohttp). */
  datatype Mode = Sync | Async

  datatype HttpMethod = GET | POST

  type Headers = map<string, string>

  /** What is handed to the session: url, method, headers and the JSON body. */
  datatype Envelope = Envelope(url: string, verb: HttpMethod, headers: Headers, body: Object)

  /** A request as an endpoint method builds it, before headers are attached. */
  datatype Request = Request(url: string, body: Object, verb: HttpMethod)

  /** `f"{base_url}{path}"`: plain concatenation, no separator inserted or removed. */
  function Join(base: string, path: string): (u: string)
    ensures |u| == |base| + |path|
    ensures u[..|base|] == base && u[|base|..] == path
  {
    base + path
  }

  /** Transport failures before a complete response arrives.
      TimedOut: requests.Timeout / asyncio.TimeoutError.
      Disconnected: the server dropped the connection
        (requests.ConnectionError / aiohttp.ServerDisconnectedError).
      Refused: no connection could be made
        (requests.ConnectionError / aiohttp.ClientConnectorError).
      OtherFault: any other transport exception. */
  datatype Fault = TimedOut | Disconnected | Refused | OtherFault

  /** The response text: valid JSON, or not. */
  datatype Text = Parsed(value: Json) | Malformed

  datatype Reply = Response(status: int, text: Text) | Failed(fault: Fault)

  /** Python errors that escape the library untranslated. */
  datatype Crash =
    | DecodeFailed          // json.loads failed; the handler re-raises without arguments
    | NotAnObject           // the body is valid JSON but not an object: `.get` is missing
    | Unorderable(code: Json) // `error_code >= 5000` with a non-numeric code
    | Uncaught(fault: Fault)  // a transport exception no except clause names

  datatype Outcome = Returned(body: Object) | Raised(error: Raised) | Crashed(crash: Crash)

  /** One call: the envelope handed to the session and what the caller sees. */
  datatype Call = Call(sent: Envelope, outcome: Outcome)

  /** The except clauses around the session call (identical in
      connection.py and client.py). Blocking mode catches requests.Timeout and
      requests.ConnectionError; suspending mode catches asyncio.TimeoutError and
      aiohttp.ServerDisconnectedError only. */
  function Catch(mode: Mode, fault: Fault): (r: Outcome)
    ensures fault == TimedOut ==> r == Raised(NotRespondingError())
    ensures fault == Disconnected ==> r == Raised(NetworkDownError())
    ensures fault == Refused ==> (mode == Sync <==> r == Raised(NetworkDownError()))
    ensures r.Raised? <==> fault != OtherFault && (fault == Refused ==> mode == Sync)
    ensures !r.Raised? ==> r == Crashed(Uncaught(fault))
  {
    match fault
    case TimedOut => Raised(NotRespondingError())
    case Disconnected => Raised(NetworkDownError())
    case Refused =>
      if mode == Sync then Raised(NetworkDownError()) else Crashed(Uncaught(fault))
    case OtherFault => Crashed(Uncaught(fault))
  }

  /** An `except` clause: the exception class it names and the library
      exception it raises in its place. */
  datatype Clause = Clause(cls: string, raises: Raised)

  /** The except clauses of the blocking and of the suspending request, in
      source order. */
  function Clauses(mode: Mode): (cs: seq<Clause>)
    ensures |cs| == 2 && cs[0].raises == NotRespondingError() && cs[1].raises == NetworkDownError()
    ensures cs[0].cls == (if mode == Sync then "requests.Timeout" else "asyncio.TimeoutError")
    ensures cs[1].cls == (if mode == Sync then "requests.ConnectionError" else "aiohttp.ServerDisconnectedError")
  {
    match mode
    case Sync => [Clause("requests.Timeout", NotRespondingError()),
                  Clause("requests.ConnectionError", NetworkDownError())]
    case Async => [Clause("asyncio.TimeoutError", NotRespondingError()),
                   Clause("aiohttp.ServerDisconnectedError", NetworkDownError())]
  }

  /** The classes, among those the clauses could name, that the session's
      exception for `fault` is an instance of. `requests` raises a Timeout
      subclass or a ConnectionError (ConnectTimeout is both, and the Timeout
      clause, coming first, takes it); aiohttp raises asyncio.TimeoutError,
      ServerDisconnectedError (a ServerConnectionError) or ClientConnectorError
      (a ClientOSError), all three of the latter ClientConnectionErrors. */
  function ExceptionClasses(mode: Mode, fault: Fault): set<string> {
    match (mode, fault)
    case (Sync, TimedOut) => {"requests.Timeout", "requests.RequestException"}
    case (Sync, Disconnected) => {"requests.ConnectionError", "requests.RequestException"}
    case (Sync, Refused) => {"requests.ConnectionError", "requests.RequestException"}
    case (Async, TimedOut) => {"asyncio.TimeoutError"}
    case (Async, Disconnected) =>
      {"aiohttp.ServerDisconnectedError", "aiohttp.ServerConnectionError", "aiohttp.ClientConnectionError"}
    case (Async, Refused) =>
      {"aiohttp.ClientConnectorError", "aiohttp.ClientOSError", "aiohttp.ClientConnectionError"}
    case (_, OtherFault) => {}
  }

  /** Python's handling of a `try` with several `except` clauses: the first
      clause naming a class of the exception applies; with none, the
      exception propagates. */
  function Dispatch(classes: set<string>, cs: seq<Clause>): (r: Option<Raised>)
    ensures r.None? <==> forall i :: 0 <= i < |cs| ==> cs[i].cls !in classes
    ensures r.Some? ==> exists i :: 0 <= i < |cs| && cs[i].cls in classes && cs[i].raises == r.value
    ensures |cs| > 0 && cs[0].cls in classes ==> r == Some(cs[0].raises)
    ensures r.Some? ==> exists i :: 0 <= i < |cs| && cs[i].cls in classes && cs[i].raises == r.value &&
                                    forall j :: 0 <= j < i ==> cs[j].cls !in classes
  {
    if cs == [] then None
    else if cs[0].cls in classes then Some(cs[0].raises)
    else Dispatch(classes, cs[1..])
  }

  /** `Catch` is what the except clauses do to the exception each fault raises. */
  lemma CatchIsFirstMatchingClause(mode: Mode, fault: Fault)
    ensures Catch(mode, fault) ==
              match Dispatch(ExceptionClasses(mode, fault), Clauses(mode))
              case Some(e) => Raised(e)
              case None => Crashed(Uncaught(fault))
  {
  }

  /** A decoded response body, or the crash that ends decoding. */
  datatype Decoded = Body(data: Object) | Stop(crash: Crash)

  /** The `json.loads(text)` / `data.get` prefix of both `_raise_for_status`
      methods: the decoded object, or the crash that stops them. */
  function DecodeBody(text: Text): (r: Decoded)
    ensures r.Body? <==> text.Parsed? && text.value.JObj?
    ensures r.Body? ==> r.data == text.value.fields
    ensures text.Malformed? ==> r == Stop(DecodeFailed)
    ensures text.Parsed? && !text.value.JObj? ==> r == Stop(NotAnObject)
  {
    match text
    case Malformed => Stop(DecodeFailed)
    case Parsed(JObj(m)) => Body(m)
    case Parsed(_) => Stop(NotAnObject)
  }
}
