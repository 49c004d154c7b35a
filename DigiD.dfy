/**
 * `DigiDViewModel`: the DigiD login flow of the holder app. `login` starts
 * the authorization activity with a loading indicator around it;
 * `handleActivityResult` turns what the activity returns into one
 * `DigidResult`: cancelled, a failure (server busy or a generic error) or a
 * success carrying the jwt.
 *
 * The authorization library's intent parsing is represented by the two
 * optional fields of `Intent`; the repository's calls are parameters whose
 * outcome is a value or an exception. Every failure is tagged with the
 * same step, `DigidNetworkRequest`, which is therefore not represented.
 */
module DigiD {
  import opened Wrappers

  /** Error type of the authorization library's generic errors. */
  const GenericErrorType := 0
  /** Code of a generic error raised when the user cancels the flow. */
  const UserCancelledFlowCode := 1
  const LoginRequiredError := "login_required"
  const SamlAuthnFailedError := "saml_authn_failed"

  /** An `AuthorizationException`: its type, its code and its optional error string. */
  datatype AuthorizationException = AuthorizationException(errorType: int, code: int, error: Option<string>)

  /** An `AuthorizationResponse`, of which the flow only passes on the authorization code. */
  datatype AuthorizationResponse = AuthorizationResponse(authorizationCode: string)

  /** The result intent, as the library reads it: an optional response and an optional error. */
  datatype Intent = Intent(authResponse: Option<AuthorizationResponse>, authError: Option<AuthorizationException>)

  datatype ActivityResult = ActivityResult(data: Option<Intent>)

  /** The cause a failure carries. */
  datatype Cause =
    | AuthError(exception: AuthorizationException)
    | Thrown(name: string)
    | NullPointer

  datatype OpenIdErrorResult = ServerBusy(authError: AuthorizationException) | Error(cause: Cause)

  datatype DigidResult = Success(jwt: string) | Failed(error: OpenIdErrorResult) | Cancelled

  /** What a repository call does: it returns a value, or throws the named exception. */
  datatype CallOutcome<T> = Returned(value: T) | Threw(exception: string)

  predicate IsUserCancelled(authError: AuthorizationException)
  {
    authError.errorType == GenericErrorType && authError.code == UserCancelledFlowCode
  }

  predicate IsServerBusy(authError: AuthorizationException)
  {
    authError.error == Some(LoginRequiredError) || authError.error == Some(SamlAuthnFailedError)
  }

  /** The `when` of `postErrorResult`: a cancellation is recognised before a busy server. */
  function ErrorResult(authError: AuthorizationException): (r: DigidResult)
    ensures !r.Success?
    ensures r.Cancelled? <==> authError.errorType == 0 && authError.code == 1
    ensures r == Failed(ServerBusy(authError)) <==>
      !r.Cancelled? && (authError.error == Some("login_required") || authError.error == Some("saml_authn_failed"))
    ensures r == Failed(Error(AuthError(authError))) <==> !r.Cancelled? && !r.error.ServerBusy?
  {
    if IsUserCancelled(authError) then Cancelled
    else if IsServerBusy(authError) then Failed(ServerBusy(authError))
    else Failed(Error(AuthError(authError)))
  }

  /** `postResponseResult`: the jwt when the repository returns one, a generic error when it throws. */
  function ResponseResult(authResponse: AuthorizationResponse, jwt: AuthorizationResponse -> CallOutcome<string>)
    : (r: DigidResult)
    ensures r.Success? <==> jwt(authResponse).Returned?
    ensures r.Success? ==> r.jwt == jwt(authResponse).value
    ensures !r.Success? ==> r == Failed(Error(Thrown(jwt(authResponse).exception)))
  {
    match jwt(authResponse)
    case Returned(token) => Success(token)
    case Threw(e) => Failed(Error(Thrown(e)))
  }

  /** The result posted for an activity result; `jwt` is the repository's jwt exchange. */
  function ActivityResultOutcome(activityResult: ActivityResult, jwt: AuthorizationResponse -> CallOutcome<string>)
    : (r: DigidResult)
    ensures activityResult.data.None? ==> r == Cancelled
    ensures activityResult.data.Some? && activityResult.data.value.authError.Some? ==>
      r == ErrorResult(activityResult.data.value.authError.value)
    ensures (activityResult.data.Some? && activityResult.data.value.authError.None?
             && activityResult.data.value.authResponse.Some?) ==>
      r == ResponseResult(activityResult.data.value.authResponse.value, jwt)
    ensures (activityResult.data.Some? && activityResult.data.value.authError.None?
             && activityResult.data.value.authResponse.None?) ==>
      r == Failed(Error(NullPointer))
  {
    match activityResult.data
    case None => Cancelled
    case Some(intent) =>
      if intent.authError.Some? then ErrorResult(intent.authError.value)
      else if intent.authResponse.Some? then ResponseResult(intent.authResponse.value, jwt)
      else Failed(Error(NullPointer))
  }

  /**
   * The login succeeds exactly when the intent carries a response, no
   * error, and the jwt exchange returns; it is cancelled exactly when there
   * is no intent or the error is the user's cancellation.
   */
  lemma {:induction false} ActivityResultCases(
    activityResult: ActivityResult, jwt: AuthorizationResponse -> CallOutcome<string>)
    ensures var r := ActivityResultOutcome(activityResult, jwt);
      && (r.Success? <==>
           && activityResult.data.Some?
           && activityResult.data.value.authError.None?
           && activityResult.data.value.authResponse.Some?
           && jwt(activityResult.data.value.authResponse.value).Returned?)
      && (r.Cancelled? <==>
           || activityResult.data.None?
           || (activityResult.data.value.authError.Some? && IsUserCancelled(activityResult.data.value.authError.value)))
      && (r.Failed? && r.error.ServerBusy? ==>
           activityResult.data.Some? && activityResult.data.value.authError == Some(r.error.authError))
  {
  }

  /** An error in the intent decides the result, whatever response comes with it. */
  lemma ErrorTakesPrecedence(
    authError: AuthorizationException, response: Option<AuthorizationResponse>, response': Option<AuthorizationResponse>,
    jwt: AuthorizationResponse -> CallOutcome<string>)
    ensures ActivityResultOutcome(ActivityResult(Some(Intent(response, Some(authError)))), jwt)
      == ActivityResultOutcome(ActivityResult(Some(Intent(response', Some(authError)))), jwt)
  {
  }

  /**
   * The view model's observable state: the loading events and the results
   * posted so far, oldest first.
   */
  class DigiDViewModel {
    var loading: seq<bool>
    var digidResults: seq<DigidResult>

    constructor ()
      ensures loading == [] && digidResults == []
    {
      loading := [];
      digidResults := [];
    }

    /**
     * `login`: loading is switched on, the authorization activity is
     * started (`authResponse` is what that call does) and loading is
     * switched off again, whether or not the call threw; a throw is posted
     * as a generic error.
     */
    method Login(authResponse: CallOutcome<()>)
      modifies this
      ensures loading == old(loading) + [true, false]
      ensures authResponse.Returned? ==> digidResults == old(digidResults)
      ensures authResponse.Threw? ==>
        digidResults == old(digidResults) + [Failed(Error(Thrown(authResponse.exception)))]
    {
      loading := loading + [true];
      match authResponse {
        case Returned(_) =>
        case Threw(e) =>
          digidResults := digidResults + [Failed(Error(Thrown(e)))];
      }
      loading := loading + [false];
    }

    /** `handleActivityResult`: posts exactly one result, the one `ActivityResultOutcome` gives. */
    method HandleActivityResult(activityResult: ActivityResult, jwt: AuthorizationResponse -> CallOutcome<string>)
      modifies this
      ensures loading == old(loading)
      ensures digidResults == old(digidResults) + [ActivityResultOutcome(activityResult, jwt)]
    {
      match activityResult.data {
        case Some(intent) =>
          if intent.authError.Some? {
            PostErrorResult(intent.authError.value);
          } else if intent.authResponse.Some? {
            PostResponseResult(intent.authResponse.value, jwt);
          } else {
            PostAuthNullResult();
          }
        case None =>
          digidResults := digidResults + [Cancelled];
      }
    }

    method PostErrorResult(authError: AuthorizationException)
      modifies this
      ensures loading == old(loading)
      ensures digidResults == old(digidResults) + [ErrorResult(authError)]
    {
      var digidResult;
      if IsUserCancelled(authError) {
        digidResult := Cancelled;
      } else if IsServerBusy(authError) {
        digidResult := Failed(ServerBusy(authError));
      } else {
        digidResult := Failed(Error(AuthError(authError)));
      }
      digidResults := digidResults + [digidResult];
    }

    method PostResponseResult(authResponse: AuthorizationResponse, jwt: AuthorizationResponse -> CallOutcome<string>)
      modifies this
      ensures loading == old(loading)
      ensures digidResults == old(digidResults) + [ResponseResult(authResponse, jwt)]
    {
      match jwt(authResponse) {
        case Returned(token) =>
          digidResults := digidResults + [Success(token)];
        case Threw(e) =>
          digidResults := digidResults + [Failed(Error(Thrown(e)))];
      }
    }

    method PostAuthNullResult()
      modifies this
      ensures loading == old(loading)
      ensures digidResults == old(digidResults) + [Failed(Error(NullPointer))]
    {
      digidResults := digidResults + [Failed(Error(NullPointer))];
    }
  }
}
