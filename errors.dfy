/** The SDK's closed error taxonomy and the mapping of arbitrary throwables into it
    (utils/IDDigitalError.kt). */
module Errors {
  import opened Wrappers

  /** Classes of runtime exceptions (not IOExceptions) that the modelled code can raise. */
  datatype RuntimeKind =
    | JsonException                        // org.json: body not JSON, or a key missing
    | IllegalStateException
    | NullPointerException
    | ClassCastException
    | IndexOutOfBoundsException
    | UninitializedPropertyAccessException  // reading a `lateinit var` before it is set
    | DateTimeParseException                // Instant.parse on a malformed timestamp
    | SecurityException
    | OtherRuntimeException

  /** A thrown value, by its most specific class. An IDDigitalError is itself a Throwable
      (it extends Throwable, and NOT Exception). */
  datatype Throwable =
    | Digital(error: IDDigitalError)
    | UnknownHostException(message: Option<string>)
    | SocketTimeoutException(message: Option<string>)
    | ConnectException(message: Option<string>)
    | PortUnreachableException(message: Option<string>)
    | OtherIOException(message: Option<string>)
    | Runtime(kind: RuntimeKind, message: Option<string>)

  /** IDDigitalError and its sealed sub-hierarchies, flattened. The last three constructors stand for
      the classes ChallengeValidationError, DeviceNotAssociatedError and UserCannotBeAssociatedError,
      which the view models import from the same package but whose declarations are not part of
      this model. */
  datatype IDDigitalError =
    // NetworkError
    | NoInternetConnection
    | Timeout(exception: Throwable)
    | UnknownHost(exception: Throwable)
    | ServerUnreachable(exception: Throwable)
    // ServerError
    | ServiceUnavailable(statusCode: int, responseBody: Option<string>)
    | BadResponse(statusCode: int, responseBody: Option<string>)
    | UnexpectedResponse(statusCode: int, responseBody: Option<string>)
    // SDKError
    | InvalidApiKey(reason: string)
    | NotInitialized(reason: string)
    | InvalidDocument(reason: string)
    | TooManyAttempts(reason: string)
    // other errors
    | CameraPermissionError(msg: string, cause: Option<Throwable>)
    | UserCancelledError(msg: string, cause: Option<Throwable>)
    | UnknownError(msg: string, cause: Option<Throwable>)
    | TimeoutError(msg: string, cause: Option<Throwable>)
    | ChallengeValidationError
    | DeviceNotAssociatedError
    | UserCannotBeAssociatedError

  /** The members of the NetworkError sub-hierarchy. */
  predicate IsNetworkError(e: IDDigitalError) {
    e.NoInternetConnection? || e.Timeout? || e.UnknownHost? || e.ServerUnreachable?
  }

  /** The socket-level IOException subclasses that get a network classification. */
  predicate IsSocketLevel(t: Throwable) {
    t.UnknownHostException? || t.SocketTimeoutException? || t.ConnectException? || t.PortUnreachableException?
  }

  /** `catch (e: Exception)` catches every modelled throwable except an IDDigitalError. */
  predicate IsException(t: Throwable) {
    !t.Digital?
  }

  /** The default context string of `toIDDigitalError`. */
  const DefaultContext: string := "Unknown error"

  /** `Throwable.toIDDigitalError(context)`: an ordered `when` over the throwable's class. */
  function ToIDDigitalError(t: Throwable, context: string): (r: IDDigitalError)
    ensures t.Digital? ==> r == t.error
    ensures !t.Digital? ==> (IsNetworkError(r) <==> IsSocketLevel(t))
    ensures !t.Digital? && !IsSocketLevel(t) ==> r == UnknownError(context, Some(t))
    ensures (t.UnknownHostException? || t.PortUnreachableException?) ==> r == UnknownHost(t)
    ensures t.SocketTimeoutException? ==> r == Timeout(t)
    ensures t.ConnectException? ==> r == NoInternetConnection
  {
    match t
    case Digital(e) => e
    case UnknownHostException(_) => UnknownHost(t)
    case SocketTimeoutException(_) => Timeout(t)
    case ConnectException(_) => NoInternetConnection
    case PortUnreachableException(_) => UnknownHost(t)
    case OtherIOException(_) => UnknownError(context, Some(t))
    case Runtime(_, _) => UnknownError(context, Some(t))
  }

  /** Mapping an already classified value again changes nothing, whatever the contexts. */
  lemma ToIDDigitalErrorIdempotent(t: Throwable, c1: string, c2: string)
    ensures ToIDDigitalError(Digital(ToIDDigitalError(t, c1)), c2) == ToIDDigitalError(t, c1)
  {
  }

  /** The context string is used only for throwables that get no specific classification. */
  lemma ContextOnlyForUnclassified(t: Throwable, c1: string, c2: string)
    requires ToIDDigitalError(t, c1) != ToIDDigitalError(t, c2)
    ensures !t.Digital? && !IsSocketLevel(t)
  {
  }

  /** The decimal rendering of a natural number, as string templates print an Int. */
  function NatToString(n: nat): (s: string)
    ensures |s| >= 1
    ensures forall i :: 0 <= i < |s| ==> '0' <= s[i] <= '9'
    decreases n
  {
    var d := ['0' + (n % 10) as char];
    if n < 10 then d else NatToString(n / 10) + d
  }

  function IntToString(i: int): string {
    if i < 0 then "-" + NatToString(-i) else NatToString(i)
  }

  /** A nullable message interpolated into a string template: `null` prints as "null". */
  function Interpolated(m: Option<string>): string {
    m.GetOr("null")
  }

  /** `IDDigitalError.message`, fixed per class. The last three are placeholder texts: their
      declarations are not part of this model. */
  function Message(e: IDDigitalError): string
    decreases e, 1
  {
    match e
    case NoInternetConnection => "No Internet connection."
    case Timeout(_) => "Connection timed out."
    case UnknownHost(_) => "Could not resolve host."
    case ServerUnreachable(x) => "Network error: " + Interpolated(ThrowableMessage(x))
    case ServiceUnavailable(code, _) => "Service unavailable (code: " + IntToString(code) + ")."
    case BadResponse(code, _) => "Invalid server response (code: " + IntToString(code) + ")."
    case UnexpectedResponse(code, _) => "Unexpected server response (code: " + IntToString(code) + ")."
    case InvalidApiKey(r) => "Invalid API Key: " + r
    case NotInitialized(r) => "SDK not initialized: " + r
    case InvalidDocument(r) => "Invalid document: " + r
    case TooManyAttempts(r) => "Too many attempts: " + r
    case CameraPermissionError(m, _) => m
    case UserCancelledError(m, _) => m
    case UnknownError(m, _) => m
    case TimeoutError(m, _) => m
    case ChallengeValidationError => "ChallengeValidationError"
    case DeviceNotAssociatedError => "DeviceNotAssociatedError"
    case UserCannotBeAssociatedError => "UserCannotBeAssociatedError"
  }

  /** `Throwable.message`: always present for an IDDigitalError, possibly null otherwise. */
  function ThrowableMessage(t: Throwable): (m: Option<string>)
    ensures t.Digital? ==> m.Some?
    decreases t, 0
  {
    match t
    case Digital(e) => Some(Message(e))
    case UnknownHostException(m) => m
    case SocketTimeoutException(m) => m
    case ConnectException(m) => m
    case PortUnreachableException(m) => m
    case OtherIOException(m) => m
    case Runtime(_, m) => m
  }

  /** A message keeps the detail its error carries: an SDK usage error's reason ends it, and the
      four classes built from a message report exactly that message. */
  lemma MessageKeepsDetail(e: IDDigitalError)
    ensures (e.InvalidApiKey? || e.NotInitialized? || e.InvalidDocument? || e.TooManyAttempts?) ==>
              |e.reason| < |Message(e)| && Message(e)[|Message(e)| - |e.reason|..] == e.reason
    ensures (e.CameraPermissionError? || e.UserCancelledError? || e.UnknownError? || e.TimeoutError?) ==>
              Message(e) == e.msg
  {
  }
}
