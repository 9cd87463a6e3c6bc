/** The library's exceptions (src/uzum_payments/exceptions.py) as values.

    Two disjoint families exist. `UzumCheckoutException` has nine concrete
    subclasses and carries a message derived from the response body plus the
    raw `errorCode`. `ApiError` has two subclasses, NotResponding and
    NetworkError, each carrying a fixed code and a fixed text. */
module Exceptions {
  import opened Json

  /** The nine concrete subclasses of UzumCheckoutException. */
  datatype ErrorKind =
    | InternalError
    | PaymentErrors
    | ValidationError
    | AuthenticationError
    | BadRequest
    | SignatureError
    | FingerprintError
    | InternalServerError
    | UnexpectedError

  /** The two concrete subclasses of ApiError. */
  datatype ApiErrorKind = NotResponding | NetworkError

  /** A raised exception of either family. */
  datatype Raised =
    | CheckoutError(kind: ErrorKind, message: Json, code: Json)
    | ApiError(reason: ApiErrorKind, apiCode: int, error: string)

  const TimeoutText := "API request timed out, please be patient."
  const NetworkDownText := "Network down."

  /** `UzumCheckoutException.__init__(data, code)`: the message is the body's
      `message` field when that field is truthy, otherwise the whole body; the
      code is stored exactly as given, None included. */
  function NewCheckoutError(kind: ErrorKind, data: Object, code: Json := JNull): (e: Raised)
    ensures e.CheckoutError? && e.kind == kind && e.code == code
    ensures "message" in data && Truthy(data["message"]) ==> e.message == data["message"]
    ensures !("message" in data && Truthy(data["message"])) ==> e.message == JObj(data)
  {
    CheckoutError(kind, Or(Get(data, "message"), JObj(data)), code)
  }

  /** The derived message is falsy exactly when the body was the empty object. */
  lemma MessageFalsyIffEmptyBody(kind: ErrorKind, data: Object, code: Json)
    ensures !Truthy(NewCheckoutError(kind, data, code).message) <==> data == map[]
  {
    if data != map[] {
      var k :| k in data;
      assert k in JObj(data).fields;
    }
  }

  /** `NotResponding()`: always code 504. */
  function NotRespondingError(): (e: Raised)
    ensures e.ApiError? && e.reason == NotResponding
    ensures e.apiCode == 504 && e.error == TimeoutText
  {
    ApiError(NotResponding, 504, TimeoutText)
  }

  /** `NetworkError()`: always code 503. */
  function NetworkDownError(): (e: Raised)
    ensures e.ApiError? && e.reason == NetworkError
    ensures e.apiCode == 503 && e.error == NetworkDownText
  {
    ApiError(NetworkError, 503, NetworkDownText)
  }

  /** The Python class an exception value is an instance of. */
  function ClassName(e: Raised): string {
    match e
    case ApiError(NotResponding, _, _) => "NotResponding"
    case ApiError(NetworkError, _, _) => "NetworkError"
    case CheckoutError(kind, _, _) =>
      match kind
      case InternalError => "InternalError"
      case PaymentErrors => "PaymentErrors"
      case ValidationError => "ValidationError"
      case AuthenticationError => "AuthenticationError"
      case BadRequest => "BadRequest"
      case SignatureError => "SignatureError"
      case FingerprintError => "FingerprintError"
      case InternalServerError => "InternalServerError"
      case UnexpectedError => "UnexpectedError"
  }

  /** The family base class a concrete exception class derives from. */
  function FamilyBase(e: Raised): string {
    if e.ApiError? then "ApiError" else "UzumCheckoutException"
  }

  /** The Python classes every exception derives from, whatever its own class. */
  const BuiltinBases: set<string> := {"Exception", "BaseException", "object"}

  /** `isinstance(e, cls)`: the exception's own class, its family base, and
      the built-in bases `Exception`, `BaseException` and `object`. */
  predicate IsInstance(e: Raised, cls: string)
    ensures cls in BuiltinBases ==> IsInstance(e, cls)
    ensures cls == ClassName(e) ==> IsInstance(e, cls)
    ensures IsInstance(e, cls) && cls !in BuiltinBases && cls != "ApiError" && cls != "UzumCheckoutException" ==>
              cls == ClassName(e)
  {
    cls == ClassName(e) || cls == FamilyBase(e) || cls in BuiltinBases
  }

  /** An `except UzumCheckoutException` clause catches exactly the classified
      errors and an `except ApiError` clause exactly the transport errors; no
      exception is caught by both. */
  lemma FamiliesPartition(e: Raised)
    ensures IsInstance(e, "UzumCheckoutException") <==> e.CheckoutError?
    ensures IsInstance(e, "ApiError") <==> e.ApiError?
    ensures !(IsInstance(e, "UzumCheckoutException") && IsInstance(e, "ApiError"))
  {
  }
}
