/**
 * `NetworkRequestResultFactory.createResult`: runs a network call and turns
 * its outcome, value or exception, into one variant of the closed
 * `NetworkRequestResult` type, tagged with the step it belongs to.
 *
 * The call's outcome is a value; the Retrofit error-body converter is a
 * function parameter whose outcome may be a response, `null` or an
 * exception.
 */
module NetworkRequestResultFactory {
  import opened Wrappers

  /** The step of a flow a request belongs to (an opaque tag). */
  datatype Step = Step(code: int)

  /** The application error body a CoronaCheck server may return. */
  datatype CoronaCheckErrorResponse = CoronaCheckErrorResponse(status: string, code: int)

  /** The raw error body of an HTTP error response. */
  datatype ResponseBody = ResponseBody(bytes: seq<bv8>)

  /** What the error-body converter does with a body. */
  datatype ConverterOutcome =
    | Converted(response: CoronaCheckErrorResponse)
    | ConvertedToNull
    | ConverterThrew

  /** The kinds of `IOException` the factory tells apart. */
  datatype IOKind = SocketTimeout | UnknownHost | OtherIO

  /**
   * An exception the call may throw: an `HttpException` (with the HTTP
   * code and the error body of its response, if any), an `IOException`, or
   * any other exception.
   */
  datatype CallException =
    | HttpException(httpCode: int, errorBody: Option<ResponseBody>)
    | IOException(kind: IOKind)
    | OtherException(name: string)

  datatype CallOutcome<R> = Returned(response: R) | Threw(exception: CallException)

  datatype NetworkRequestResult<R> =
    | Success(step: Step, response: R)
    | HttpError(step: Step, httpException: CallException)
    | CoronaCheckHttpError(step: Step, errorResponse: CoronaCheckErrorResponse)
    | NetworkError(step: Step, exception: CallException)
    | Error(step: Step, exception: CallException)

  /** A failure caused by the connection itself: a timeout or an unknown host. */
  predicate IsConnectivityFailure(e: CallException)
  {
    e.IOException? && (e.kind == SocketTimeout || e.kind == UnknownHost)
  }

  function CreateResult<R>(step: Step, call: CallOutcome<R>, convert: ResponseBody -> ConverterOutcome)
    : (r: NetworkRequestResult<R>)
    ensures r.step == step
    ensures r.Success? <==> call.Returned?
    ensures r.Success? ==> r.response == call.response
    ensures r.CoronaCheckHttpError? <==>
      call.Threw? && call.exception.HttpException? && call.exception.errorBody.Some?
      && convert(call.exception.errorBody.value).Converted?
    ensures r.CoronaCheckHttpError? ==> r.errorResponse == convert(call.exception.errorBody.value).response
    ensures r.HttpError? <==>
      call.Threw? && call.exception.HttpException?
      && (call.exception.errorBody.None? || !convert(call.exception.errorBody.value).Converted?)
    ensures r.HttpError? ==> r.httpException == call.exception
    ensures r.NetworkError? <==> call.Threw? && IsConnectivityFailure(call.exception)
    ensures r.Error? <==>
      call.Threw? && !call.exception.HttpException? && !IsConnectivityFailure(call.exception)
    ensures r.NetworkError? || r.Error? ==> r.exception == call.exception
  {
    match call
    case Returned(response) => Success(step, response)
    case Threw(e) =>
      match e
      case HttpException(_, errorBody) =>
        (match errorBody
         case None => HttpError(step, e)
         case Some(body) =>
           (match convert(body)
            case Converted(errorResponse) => CoronaCheckHttpError(step, errorResponse)
            case ConvertedToNull => HttpError(step, e)
            case ConverterThrew => HttpError(step, e)))
      case IOException(kind) =>
        if kind == SocketTimeout || kind == UnknownHost then NetworkError(step, e) else Error(step, e)
      case OtherException(_) => Error(step, e)
  }

  /** Only a call that threw is classified as a failure, and the classification does not depend on the step. */
  lemma {:induction false} FailureIffThrew<R>(
    step: Step, step': Step, call: CallOutcome<R>, convert: ResponseBody -> ConverterOutcome)
    ensures !CreateResult(step, call, convert).Success? <==> call.Threw?
    ensures CreateResult(step', call, convert) == CreateResult(step, call, convert).(step := step')
  {
  }
}
