/** The controller's error taxonomy, its text, and the exception the C++ wrappers throw. */
module MonitoringErrors {

  /** nysys::MonitoringError, in declaration order. */
  datatype MonitoringError =
    | Success
    | InvalidParameter
    | InvalidInterval
    | AlreadyRunning
    | NotRunning
    | ThreadCreationFailed
    | ThreadTerminationFailed
    | EventCreationFailed
    | SystemResourceError
    | DataCollectionFailed
    | JsonGenerationFailed
    | CallbackFailed
    | CallbackExecutionFailed
    | UnknownError

  /** ToString(MonitoringError). */
  function ToString(error: MonitoringError): string
  {
    match error
    case Success => "Success"
    case InvalidParameter => "Invalid parameter"
    case InvalidInterval => "Invalid interval"
    case AlreadyRunning => "Monitoring already running"
    case NotRunning => "Monitoring not running"
    case ThreadCreationFailed => "Thread creation failed"
    case ThreadTerminationFailed => "Thread termination failed"
    case EventCreationFailed => "Event creation failed"
    case SystemResourceError => "System resource error"
    case DataCollectionFailed => "Data collection failed"
    case JsonGenerationFailed => "JSON generation failed"
    case CallbackFailed => "Callback failed"
    case CallbackExecutionFailed => "Callback execution failed"
    case UnknownError => "Unknown error"
  }

  /** Every code has a non-empty text, and no two codes share one. */
  lemma ToStringDistinct(a: MonitoringError, b: MonitoringError)
    ensures |ToString(a)| > 0
    ensures ToString(a) == ToString(b) ==> a == b
  {
  }

  const MessagePrefix: string := "Monitoring Error: "

  /** MonitoringException: a std::runtime_error whose what() is `message`, plus the code. */
  datatype MonitoringException = MonitoringException(errorCode: MonitoringError, message: string)
  {
    function GetErrorCode(): MonitoringError { errorCode }
  }

  /** MonitoringException(errorCode). */
  function NewException(code: MonitoringError): (e: MonitoringException)
    ensures e.GetErrorCode() == code
    ensures e.message == MessagePrefix + ToString(code)
  {
    MonitoringException(code, MessagePrefix + ToString(code))
  }

  /** MonitoringException(errorCode, details). */
  function NewExceptionWithDetails(code: MonitoringError, details: string): (e: MonitoringException)
    ensures e.GetErrorCode() == code
    ensures e.message == MessagePrefix + ToString(code) + " - " + details
  {
    MonitoringException(code, MessagePrefix + ToString(code) + " - " + details)
  }

  /** Both constructors keep the code, and the message names it: it starts with the prefix and the code's text. */
  lemma ExceptionMessageNamesCode(code: MonitoringError, details: string)
    ensures var e := NewExceptionWithDetails(code, details);
      |e.message| > |MessagePrefix + ToString(code)| &&
      e.message[..|MessagePrefix + ToString(code)|] == MessagePrefix + ToString(code)
    ensures NewException(code).message[..|MessagePrefix|] == MessagePrefix
    ensures NewException(code).GetErrorCode() == NewExceptionWithDetails(code, details).GetErrorCode() == code
  {
  }

  /** The message alone determines the code: codes with different texts give different messages. */
  lemma ExceptionMessageDeterminesCode(a: MonitoringError, b: MonitoringError)
    requires NewException(a).message == NewException(b).message
    ensures a == b
  {
    var m := NewException(a).message;
    assert m[|MessagePrefix|..] == ToString(a);
    assert NewException(b).message[|MessagePrefix|..] == ToString(b);
    ToStringDistinct(a, b);
  }
}
