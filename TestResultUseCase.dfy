/**
 * `TestResultUseCase.testResult`: redeems a unique code handed out by a
 * test provider. The code is checked offline first (its shape, the
 * provider it names, the checksum of its token); only a code that passes
 * every check is sent to the provider, and what comes back is classified
 * into one `TestResult` variant.
 *
 * The collaborators are parameters: the provider lookup in the remote
 * configuration, the token validator, the fetch from the provider (whose
 * outcome is a value or one of the two exceptions the use case catches)
 * and the validity check of a fetched result.
 */
module TestResultUseCase {
  import opened Wrappers
  import Text

  datatype TestProvider = TestProvider(
    name: string, providerIdentifier: string, resultUrl: string, publicKey: seq<bv8>)

  /** The status a provider reports for a test, as spelled in the protocol; `UNKNOWN` stands for any other value. */
  datatype Status = PENDING | COMPLETE | VERIFICATION_REQUIRED | INVALID_TOKEN | UNKNOWN

  datatype RemoteResult = RemoteResult(unique: string, sampleDate: int, testType: string, negativeResult: bool)

  datatype RemoteTestResult = RemoteTestResult(
    result: Option<RemoteResult>, providerIdentifier: string, status: Status, protocolVersion: string)

  /** A fetched result together with the signed bytes it was parsed from. */
  datatype SignedResponse = SignedResponse(rawResponse: seq<bv8>, model: RemoteTestResult)

  /** What fetching a result does: it returns, or throws an `HttpException` or an `IOException`. */
  datatype FetchOutcome =
    | Fetched(response: SignedResponse)
    | FetchHttpException(httpCode: int)
    | FetchIOException

  datatype TestResult =
    | NegativeTestResult(signedResponse: SignedResponse)
    | NoNegativeTestResult
    | Pending
    | VerificationRequired
    | InvalidToken
    | ServerError(httpCode: int)
    | NetworkError

  /** The three segments of a unique code `provider-token-checksum`. */
  datatype UniqueCode = UniqueCode(providerIdentifier: string, token: string, checksum: string)

  /** The code split on `-` into exactly three non-empty segments, or `None` if it does not. */
  function ParseUniqueCode(code: string): (r: Option<UniqueCode>)
    ensures r.Some? <==>
      var parts := Text.Split(code, '-');
      |parts| == 3 && parts[0] != [] && parts[1] != [] && parts[2] != []
    ensures r.Some? ==>
      && r.value.providerIdentifier != [] && r.value.token != [] && r.value.checksum != []
      && '-' !in r.value.providerIdentifier && '-' !in r.value.token && '-' !in r.value.checksum
      && code == r.value.providerIdentifier + "-" + r.value.token + "-" + r.value.checksum
  {
    var parts := Text.Split(code, '-');
    if |parts| == 3 && parts[0] != [] && parts[1] != [] && parts[2] != [] then
      assert parts == [parts[0], parts[1], parts[2]];
      Text.JoinThree(parts[0], parts[1], parts[2], '-');
      Some(UniqueCode(parts[0], parts[1], parts[2]))
    else
      None
  }

  /** Formatting three non-empty segments without `-` and parsing them back gives the segments. */
  lemma ParseFormattedCode(p: string, t: string, c: string)
    requires p != [] && t != [] && c != []
    requires '-' !in p && '-' !in t && '-' !in c
    ensures ParseUniqueCode(p + "-" + t + "-" + c) == Some(UniqueCode(p, t, c))
  {
    Text.JoinThree(p, t, c, '-');
    Text.SplitJoin([p, t, c], '-');
  }

  /** A code whose number of `-` is not two never parses. */
  lemma WrongSegmentCount(code: string)
    requires Text.Occurrences(code, '-') != 2
    ensures ParseUniqueCode(code).None?
  {
  }

  /** The code passes every offline check: its shape, its provider and its token. */
  predicate PassesOfflineChecks(
    code: string,
    testProvider: string -> Option<TestProvider>,
    validateToken: (string, string) -> bool)
  {
    var parsed := ParseUniqueCode(code);
    && parsed.Some?
    && validateToken(parsed.value.token, parsed.value.checksum)
    && testProvider(parsed.value.providerIdentifier).Some?
  }

  /** The classification of a fetched result by its status. */
  function Classify(response: SignedResponse, isValid: RemoteResult -> bool): (r: TestResult)
    ensures r.NegativeTestResult? <==>
      && response.model.status == COMPLETE
      && response.model.result.Some?
      && response.model.result.value.negativeResult
      && isValid(response.model.result.value)
    ensures r.NegativeTestResult? ==> r.signedResponse == response
    ensures r == NoNegativeTestResult <==> response.model.status == COMPLETE && !r.NegativeTestResult?
    ensures r == Pending <==> response.model.status == PENDING
    ensures r == VerificationRequired <==> response.model.status == VERIFICATION_REQUIRED
    ensures r == InvalidToken <==>
      response.model.status == INVALID_TOKEN || response.model.status == UNKNOWN
  {
    match response.model.status
    case COMPLETE =>
      (match response.model.result
       case Some(result) =>
         if result.negativeResult && isValid(result) then NegativeTestResult(response)
         else NoNegativeTestResult
       case None => NoNegativeTestResult)
    case PENDING => Pending
    case VERIFICATION_REQUIRED => VerificationRequired
    case INVALID_TOKEN => InvalidToken
    case UNKNOWN => InvalidToken
  }

  /**
   * `testResult(uniqueCode, verificationCode)`: `InvalidToken` for a code
   * that fails an offline check; otherwise the fetch's exception mapped to
   * `ServerError` or `NetworkError`, or the classification of its result.
   */
  function RedeemTestResult(
    code: string,
    verificationCode: Option<string>,
    testProvider: string -> Option<TestProvider>,
    validateToken: (string, string) -> bool,
    fetch: (TestProvider, string, Option<string>) -> FetchOutcome,
    isValid: RemoteResult -> bool): (r: TestResult)
    ensures !PassesOfflineChecks(code, testProvider, validateToken) ==> r == InvalidToken
    ensures PassesOfflineChecks(code, testProvider, validateToken) ==>
      var parsed := ParseUniqueCode(code).value;
      var outcome := fetch(testProvider(parsed.providerIdentifier).value, parsed.token, verificationCode);
      && (outcome.FetchHttpException? ==> r == ServerError(outcome.httpCode))
      && (outcome.FetchIOException? ==> r == NetworkError)
      && (outcome.Fetched? ==> r == Classify(outcome.response, isValid))
  {
    match ParseUniqueCode(code)
    case None => InvalidToken
    case Some(parsed) =>
      if !validateToken(parsed.token, parsed.checksum) then InvalidToken
      else
        match testProvider(parsed.providerIdentifier)
        case None => InvalidToken
        case Some(provider) =>
          match fetch(provider, parsed.token, verificationCode)
          case FetchHttpException(httpCode) => ServerError(httpCode)
          case FetchIOException => NetworkError
          case Fetched(response) => Classify(response, isValid)
  }

  /**
   * A code that fails an offline check is answered without the network:
   * the result is `InvalidToken` whatever the fetch would have done.
   */
  lemma {:induction false} OfflineRejectionIgnoresFetch(
    code: string,
    verificationCode: Option<string>,
    testProvider: string -> Option<TestProvider>,
    validateToken: (string, string) -> bool,
    fetch: (TestProvider, string, Option<string>) -> FetchOutcome,
    fetch': (TestProvider, string, Option<string>) -> FetchOutcome,
    isValid: RemoteResult -> bool)
    requires !PassesOfflineChecks(code, testProvider, validateToken)
    ensures RedeemTestResult(code, verificationCode, testProvider, validateToken, fetch, isValid)
      == RedeemTestResult(code, verificationCode, testProvider, validateToken, fetch', isValid)
      == InvalidToken
  {
  }

  /** Only a fetched, complete, negative and valid result redeems to `NegativeTestResult`. */
  lemma NegativeOnlyFromCompleteValidResult(
    code: string,
    verificationCode: Option<string>,
    testProvider: string -> Option<TestProvider>,
    validateToken: (string, string) -> bool,
    fetch: (TestProvider, string, Option<string>) -> FetchOutcome,
    isValid: RemoteResult -> bool)
    requires RedeemTestResult(code, verificationCode, testProvider, validateToken, fetch, isValid).NegativeTestResult?
    ensures PassesOfflineChecks(code, testProvider, validateToken)
    ensures
      var parsed := ParseUniqueCode(code).value;
      var outcome := fetch(testProvider(parsed.providerIdentifier).value, parsed.token, verificationCode);
      && outcome.Fetched?
      && outcome.response.model.status == COMPLETE
      && outcome.response.model.result.Some?
      && outcome.response.model.result.value.negativeResult
      && isValid(outcome.response.model.result.value)
  {
  }

  // ---------------------------------------------------------------------
  // The cases the use case's tests pin down

  /** A provider table that knows the identifier `provider` only. */
  function DummyProviders(id: string): Option<TestProvider>
  {
    if id == "provider" then Some(TestProvider("dummy", "provider", "dummy", [])) else None
  }

  function DummyResponse(status: Status, negativeResult: bool): SignedResponse
  {
    SignedResponse([], RemoteTestResult(Some(RemoteResult("dummy", 0, "dummy", negativeResult)), "dummy", status, "dummy"))
  }

  /** Codes with one or two segments are invalid tokens, whatever the collaborators say. */
  lemma {:induction false} TooFewSegments(
    testProvider: string -> Option<TestProvider>,
    validateToken: (string, string) -> bool,
    fetch: (TestProvider, string, Option<string>) -> FetchOutcome,
    isValid: RemoteResult -> bool)
    ensures RedeemTestResult("dummy", None, testProvider, validateToken, fetch, isValid) == InvalidToken
    ensures RedeemTestResult("dummy-dummy", None, testProvider, validateToken, fetch, isValid) == InvalidToken
  {
    assert Text.Occurrences("dummy", '-') == 0;
    WrongSegmentCount("dummy");
    assert Text.Occurrences("dummy-dummy", '-') == 1;
    WrongSegmentCount("dummy-dummy");
  }

  /** The unique code the tests use, `provider-B-t1`, names provider `provider`. */
  lemma TestCodeParses()
    ensures ParseUniqueCode("provider-B-t1") == Some(UniqueCode("provider", "B", "t1"))
  {
    ParseFormattedCode("provider", "B", "t1");
    assert "provider" + "-" + "B" + "-" + "t1" == "provider-B-t1";
  }

  /** A well-formed code, a known provider and an accepted token reach the fetch, and its result is classified. */
  lemma FetchedResultIsClassified(status: Status, negativeResult: bool, isValid: RemoteResult -> bool)
    ensures RedeemTestResult("provider-B-t1", None, DummyProviders, (t, c) => true,
        (p, t, v) => Fetched(DummyResponse(status, negativeResult)), isValid)
      == Classify(DummyResponse(status, negativeResult), isValid)
  {
    TestCodeParses();
  }

  /** An `HttpException` during the fetch is a server error with its HTTP code. */
  lemma HttpExceptionIsServerError(httpCode: int, isValid: RemoteResult -> bool)
    ensures RedeemTestResult("provider-B-t1", None, DummyProviders, (t, c) => true,
        (p, t, v) => FetchHttpException(httpCode), isValid) == ServerError(httpCode)
  {
    TestCodeParses();
  }

  /** An `IOException` during the fetch is a network error. */
  lemma IOExceptionIsNetworkError(isValid: RemoteResult -> bool)
    ensures RedeemTestResult("provider-B-t1", None, DummyProviders, (t, c) => true,
        (p, t, v) => FetchIOException, isValid) == NetworkError
  {
    TestCodeParses();
  }

  /** No matching provider, or a rejected token, is an invalid token even when the provider would answer. */
  lemma UnknownProviderOrBadToken(status: Status, isValid: RemoteResult -> bool)
    ensures RedeemTestResult("provider-B-t1", None, id => None, (t, c) => true,
        (p, t, v) => Fetched(DummyResponse(status, true)), isValid) == InvalidToken
    ensures RedeemTestResult("provider-B-t1", None, DummyProviders, (t, c) => false,
        (p, t, v) => Fetched(DummyResponse(status, true)), isValid) == InvalidToken
  {
    TestCodeParses();
  }

  /** The statuses of the tests: complete and negative is negative only when valid; the others map one to one. */
  lemma StatusCases(isValid: RemoteResult -> bool)
    ensures isValid(DummyResponse(COMPLETE, true).model.result.value) ==>
      Classify(DummyResponse(COMPLETE, true), isValid).NegativeTestResult?
    ensures !isValid(DummyResponse(COMPLETE, true).model.result.value) ==>
      Classify(DummyResponse(COMPLETE, true), isValid) == NoNegativeTestResult
    ensures Classify(DummyResponse(COMPLETE, false), isValid) == NoNegativeTestResult
    ensures Classify(DummyResponse(VERIFICATION_REQUIRED, true), isValid) == VerificationRequired
    ensures Classify(DummyResponse(INVALID_TOKEN, true), isValid) == InvalidToken
    ensures Classify(DummyResponse(PENDING, true), isValid) == Pending
  {
  }
}
