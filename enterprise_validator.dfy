/** The enterprise (assessment API) verification strategy
    (src/services/validators/google-recaptcha-enterprise.validator.ts).
    The remote call is the `reply` parameter; the request it answers is
    returned as `sent`. */
module EnterpriseValidator {
  import opened Core
  import opened ErrorCodes
  import opened EnterpriseReasons
  import opened Interfaces
  import opened Exceptions
  import opened ValidatorPolicy
  import opened VerificationResult
  import opened ReasonTransformer

  const AssessmentUrlPrefix := "https://recaptchaenterprise.googleapis.com/v1/projects/"
  const AssessmentUrlSuffix := "/assessments"
  const JsonContentType := "application/json"

  /** The `event` an assessment request carries. */
  datatype AssessmentEvent = AssessmentEvent(expectedAction: Option<string>, siteKey: Option<string>, token: string)

  /** A JSON POST to `url` with query parameter `key`. */
  datatype AssessmentRequest = AssessmentRequest(url: string, event: AssessmentEvent, contentType: string, key: Option<string>)

  /** The assessment URL of a project (an absent id interpolates as "undefined"). */
  function AssessmentUrl(projectId: Option<string>): string {
    AssessmentUrlPrefix + Interpolate(projectId) + AssessmentUrlSuffix
  }

  /** The project id can be read back from the URL built for it. */
  lemma AssessmentUrlRoundTrip(projectId: Option<string>)
    ensures var url := AssessmentUrl(projectId);
      && |url| >= |AssessmentUrlPrefix| + |AssessmentUrlSuffix|
      && url[..|AssessmentUrlPrefix|] == AssessmentUrlPrefix
      && url[|url| - |AssessmentUrlSuffix|..] == AssessmentUrlSuffix
      && url[|AssessmentUrlPrefix|..|url| - |AssessmentUrlSuffix|] == Interpolate(projectId)
  {
    var url := AssessmentUrl(projectId);
    var p := AssessmentUrlPrefix;
    var mid := Interpolate(projectId);
    assert url == p + mid + AssessmentUrlSuffix;
    assert url[..|p|] == p;
    assert url[|p|..|url| - |AssessmentUrlSuffix|] == mid;
  }

  /** The request `verifyResponse` posts; reading the credentials of absent
      enterprise options is a TypeError. */
  function BuildAssessmentRequest(config: ModuleConfig, token: string, expectedAction: Option<string>): (r: Completion<AssessmentRequest>)
    ensures config.enterprise.None? <==> r.Throws?
    ensures r.Throws? ==> r.exception == TypeError("projectId")
    ensures r.Returns? ==>
      && r.value.url == AssessmentUrl(config.enterprise.value.projectId)
      && r.value.event == AssessmentEvent(expectedAction, config.enterprise.value.siteKey, token)
      && r.value.key == config.enterprise.value.apiKey
      && r.value.contentType == JsonContentType
  {
    match config.enterprise
    case None => Throws(TypeError("projectId"))
    case Some(enterprise) =>
      Returns(AssessmentRequest(AssessmentUrl(enterprise.projectId),
                                AssessmentEvent(expectedAction, enterprise.siteKey, token),
                                JsonContentType, enterprise.apiKey))
  }

  /** The `{status, data}` record kept for an API error. */
  datatype ErrorDetails = ErrorDetails(status: Option<int>, data: Option<Json>)

  /** The `[result, errorDetails]` pair `verifyResponse` resolves with. */
  datatype AssessmentReply = AssessmentReply(result: Option<EnterprisePayload>, errorDetails: Option<ErrorDetails>)

  /** A failure the enterprise strategy treats as a network error: an
      HTTP-client error with a code, whether or not a response came back. */
  predicate IsCodedFailure(error: RaisedError) {
    error.isAxiosError && TextTruthy(error.code)
  }

  /** `verifyResponse(response, expectedAction)`: the payload, or the error
      details of an API error, or a thrown exception. */
  function VerifyResponse(config: ModuleConfig, reply: RemoteOutcome<EnterprisePayload>): (r: Completion<AssessmentReply>)
    ensures config.enterprise.None? ==> r == Throws(TypeError("projectId"))
    ensures config.enterprise.Some? && reply.Ok? ==> r == Returns(AssessmentReply(Some(reply.payload), None))
    ensures config.enterprise.Some? && reply.Rejected? && IsCodedFailure(reply.error) ==>
      r == Throws(NewNetworkException(reply.error.code))
    ensures config.enterprise.Some? && reply.Rejected? && !IsCodedFailure(reply.error) ==>
      if reply.error.response.None? then r == Throws(TypeError("status"))
      else r == Returns(AssessmentReply(None, Some(ErrorDetails(reply.error.response.value.status, reply.error.response.value.data))))
    ensures r.Returns? ==> (r.value.result.Some? <==> r.value.errorDetails.None?)
  {
    if config.enterprise.None? then Throws(TypeError("projectId"))
    else
      match reply
      case Ok(payload) => Returns(AssessmentReply(Some(payload), None))
      case Rejected(error) =>
        if IsCodedFailure(error) then Throws(NewNetworkException(error.code))
        else if error.response.None? then Throws(TypeError("status"))
        else Returns(AssessmentReply(None, Some(ErrorDetails(error.response.value.status, error.response.value.data))))
  }

  /** The assessment names a truthy invalid reason. */
  predicate HasInvalidReason(tokenProperties: TokenProperties) {
    tokenProperties.invalidReason.Some? && ReasonTruthy(tokenProperties.invalidReason.value)
  }

  /** The codes an assessment with token properties and risk analysis adds:
      its translated invalid reason, then forbidden-action, then low-score. */
  function AssessedErrors(config: ModuleConfig, options: VerifyResponseOptions, tokenProperties: TokenProperties, riskAnalysis: RiskAnalysis): seq<ErrorCode> {
    (if HasInvalidReason(tokenProperties) then [Transform(tokenProperties.invalidReason.value)] else [])
    + (if IsValidAction(config, tokenProperties.action, options) then [] else [ForbiddenAction])
    + (if IsValidScore(config, riskAnalysis.score, options.score) then [] else [LowScore])
  }

  /** The hostname reported for an assessment: its own when truthy, else "". */
  function ReportedHostname(tokenProperties: TokenProperties): string {
    if TextTruthy(tokenProperties.hostname) then tokenProperties.hostname.value else ""
  }

  /** What `validate(options)` completes with, given the service's reply. */
  function ValidateOutcome(config: ModuleConfig, options: VerifyResponseOptions, reply: RemoteOutcome<EnterprisePayload>): Completion<RecaptchaVerificationResult> {
    match VerifyResponse(config, reply)
    case Throws(e) => Throws(e)
    case Returns(answer) =>
      var detailErrors := if answer.errorDetails.Some? then [UnknownError] else [];
      match answer.result
      case None =>
        Returns(NewResult(ResultOptions(false, NullNative, Some(""), None, None, detailErrors, None)))
      case Some(payload) =>
        if payload.tokenProperties.None? then Throws(TypeError("valid"))
        else if payload.riskAnalysis.None? then Throws(TypeError("score"))
        else
          var tp := payload.tokenProperties.value;
          var ra := payload.riskAnalysis.value;
          var success := tp.valid && IsValidAction(config, tp.action, options) && IsValidScore(config, ra.score, options.score);
          Returns(NewResult(ResultOptions(success, EnterpriseNative(payload), Some(ReportedHostname(tp)),
                                          Some(tp.action), Some(ra.score),
                                          detailErrors + AssessedErrors(config, options, tp, ra), None)))
  }

  /** `validate(options)`: posts `sent` (none when the credentials cannot
      be read) and builds success and the error list step by step. */
  method Validate(config: ModuleConfig, options: VerifyResponseOptions, reply: RemoteOutcome<EnterprisePayload>)
    returns (sent: Option<AssessmentRequest>, r: Completion<RecaptchaVerificationResult>)
    ensures sent.None? <==> config.enterprise.None?
    ensures sent.Some? ==> Returns(sent.value) == BuildAssessmentRequest(config, options.response, options.action)
    ensures r == ValidateOutcome(config, options, reply)
  {
    var request := BuildAssessmentRequest(config, options.response, options.action);
    sent := if request.Returns? then Some(request.value) else None;
    var verified := VerifyResponse(config, reply);
    if verified.Throws? {
      r := Throws(verified.exception);
      return;
    }
    var result := verified.value.result;
    var errorDetails := verified.value.errorDetails;
    var errors: seq<ErrorCode> := [];
    var success := false;
    if result.Some? {
      if result.value.tokenProperties.None? {
        r := Throws(TypeError("valid"));
        return;
      }
      success := result.value.tokenProperties.value.valid;
    }
    if errorDetails.Some? {
      errors := errors + [UnknownError];
    }
    if result.Some? {
      var tp := result.value.tokenProperties.value;
      if HasInvalidReason(tp) {
        errors := errors + [Transform(tp.invalidReason.value)];
      }
      if !IsValidAction(config, tp.action, options) {
        success := false;
        errors := errors + [ForbiddenAction];
      }
      if result.value.riskAnalysis.None? {
        r := Throws(TypeError("score"));
        return;
      }
      var ra := result.value.riskAnalysis.value;
      if !IsValidScore(config, ra.score, options.score) {
        success := false;
        errors := errors + [LowScore];
      }
      assert errors == AssessedErrors(config, options, tp, ra);
      var noDetails: seq<ErrorCode> := [];
      assert noDetails + errors == errors;
      r := Returns(NewResult(ResultOptions(success, EnterpriseNative(result.value), Some(ReportedHostname(tp)),
                                           Some(tp.action), Some(ra.score), errors, None)));
      assert r == ValidateOutcome(config, options, reply);
    } else {
      assert errors == (if errorDetails.Some? then [UnknownError] else []);
      r := Returns(NewResult(ResultOptions(success, NullNative, Some(""), None, None, errors, None)));
    }
  }

  /** The check a code comes from: the invalid reason, the action
      check, the score check. */
  function Stage(c: ErrorCode): nat {
    if c == ForbiddenAction then 2 else if c == LowScore then 3 else 1
  }

  /** Each code is from a later check than every code before it. */
  predicate StageIncreasing(errors: seq<ErrorCode>) {
    forall i, j :: 0 <= i < j < |errors| ==> Stage(errors[i]) < Stage(errors[j])
  }

  /** Appending a code from a later check than all present keeps the order. */
  lemma AppendLaterStage(errors: seq<ErrorCode>, c: ErrorCode)
    requires StageIncreasing(errors)
    requires forall i :: 0 <= i < |errors| ==> Stage(errors[i]) < Stage(c)
    ensures StageIncreasing(errors + [c])
  {
  }

  /** The codes an assessment adds are in check order. */
  lemma AssessedErrorsInStageOrder(config: ModuleConfig, options: VerifyResponseOptions, tp: TokenProperties, ra: RiskAnalysis)
    ensures StageIncreasing(AssessedErrors(config, options, tp, ra))
  {
    var reasonPart: seq<ErrorCode> := if HasInvalidReason(tp) then [Transform(tp.invalidReason.value)] else [];
    assert forall i :: 0 <= i < |reasonPart| ==> Stage(reasonPart[i]) == 1;
    var withAction := reasonPart + (if IsValidAction(config, tp.action, options) then [] else [ForbiddenAction]);
    if !IsValidAction(config, tp.action, options) {
      AppendLaterStage(reasonPart, ForbiddenAction);
    }
    assert forall i :: 0 <= i < |withAction| ==> Stage(withAction[i]) <= 2;
    if !IsValidScore(config, ra.score, options.score) {
      AppendLaterStage(withAction, LowScore);
    }
  }

  /** The codes of a completed verification appear in check order (reason,
      then action, then score), each check at most once; hence there are at
      most three, and forbidden-action and low-score each appear at most
      once. */
  lemma ErrorsInStageOrder(config: ModuleConfig, options: VerifyResponseOptions, reply: RemoteOutcome<EnterprisePayload>)
    requires ValidateOutcome(config, options, reply).Returns?
    ensures var errors := ValidateOutcome(config, options, reply).value.errors;
      StageIncreasing(errors) && |errors| <= 3
  {
    var errors := ValidateOutcome(config, options, reply).value.errors;
    var answer := VerifyResponse(config, reply).value;
    if answer.result.Some? {
      var tp := answer.result.value.tokenProperties.value;
      var ra := answer.result.value.riskAnalysis.value;
      assert errors == AssessedErrors(config, options, tp, ra);
      AssessedErrorsInStageOrder(config, options, tp, ra);
    }
  }

  /** An API error (uncoded, with a response) yields an unsuccessful result
      with exactly [unknown-error], no native response, hostname "". */
  lemma ApiErrorResult(config: ModuleConfig, options: VerifyResponseOptions, error: RaisedError)
    requires config.enterprise.Some? && !IsCodedFailure(error) && error.response.Some?
    ensures var r := ValidateOutcome(config, options, Rejected(error));
      && r.Returns? && !r.value.success && r.value.errors == [UnknownError]
      && r.value.nativeResponse.NullNative? && r.value.hostname == Some("")
      && r.value.score.None? && r.value.action.None?
  {
  }

  /** A coded HTTP-client error always ends in the network exception, even
      when a response came back. */
  lemma CodedFailureIsNetworkError(config: ModuleConfig, options: VerifyResponseOptions, error: RaisedError)
    requires config.enterprise.Some? && IsCodedFailure(error)
    ensures var r := ValidateOutcome(config, options, Rejected(error));
      && r.Throws? && r.exception.GoogleRecaptchaNetworkException?
      && r.exception.networkErrorCode == error.code && r.exception.errorCodes == [NetworkError]
  {
  }

  /** The crashes the code has: no enterprise options, an uncoded error with
      no response, an assessment without token properties or risk analysis. */
  lemma CrashCases(config: ModuleConfig, options: VerifyResponseOptions, reply: RemoteOutcome<EnterprisePayload>)
    ensures config.enterprise.None? ==> ValidateOutcome(config, options, reply) == Throws(TypeError("projectId"))
    ensures config.enterprise.Some? && reply.Rejected? && !IsCodedFailure(reply.error) && reply.error.response.None? ==>
      ValidateOutcome(config, options, reply) == Throws(TypeError("status"))
    ensures config.enterprise.Some? && reply.Ok? && reply.payload.tokenProperties.None? ==>
      ValidateOutcome(config, options, reply) == Throws(TypeError("valid"))
    ensures config.enterprise.Some? && reply.Ok? && reply.payload.tokenProperties.Some? && reply.payload.riskAnalysis.None? ==>
      ValidateOutcome(config, options, reply) == Throws(TypeError("score"))
  {
  }

  /** For a complete assessment, success is exactly: the token is valid and
      both checks pass; the invalid reason adds a code but never changes
      success, and the hostname falls back to "". */
  lemma AssessmentDecision(config: ModuleConfig, options: VerifyResponseOptions, payload: EnterprisePayload, reason: Option<EnterpriseReason>)
    requires config.enterprise.Some? && payload.tokenProperties.Some? && payload.riskAnalysis.Some?
    ensures var tp := payload.tokenProperties.value;
      var ra := payload.riskAnalysis.value;
      var r := ValidateOutcome(config, options, Ok(payload));
      && r.Returns?
      && (r.value.success <==> tp.valid && IsValidAction(config, tp.action, options) && IsValidScore(config, ra.score, options.score))
      && r.value.errors == AssessedErrors(config, options, tp, ra)
      && r.value.hostname == Some(if TextTruthy(tp.hostname) then tp.hostname.value else "")
      && r.value.action == Some(tp.action) && r.value.score == Some(ra.score)
      && r.value.nativeResponse == EnterpriseNative(payload)
      && r.value.options.remoteIp.None?
      && var other := ValidateOutcome(config, options, Ok(payload.(tokenProperties := Some(tp.(invalidReason := reason)))));
         other.Returns? && other.value.success == r.value.success
  {
  }

  /** Nothing keeps `errors` non-empty on failure: an invalid token without
      a reason, whose action and score checks pass, fails with no code. */
  lemma SilentInvalidToken(config: ModuleConfig, action: string, score: real)
    requires config.enterprise.Some? && config.actions.None? && config.score.None?
    ensures var tp := TokenProperties(false, None, Some("example.com"), action, "t");
      var payload := EnterprisePayload(Some(tp), Some(RiskAnalysis(score, [])), "assessment");
      var options := VerifyResponseOptions("tok", None, None, None);
      var r := ValidateOutcome(config, options, Ok(payload));
      r.Returns? && !r.value.success && r.value.errors == []
  {
  }

  /** Nor is `errors` empty on success: a valid token that names the reason
      INVALID_REASON_UNSPECIFIED and passes both checks succeeds with
      [unknown-error]. */
  lemma UnspecifiedReasonStillSucceeds(config: ModuleConfig)
    requires config.enterprise.Some?
    ensures var tp := TokenProperties(true, Some(InvalidReasonUnspecified), Some("example.com"), "Submit", "t");
      var payload := EnterprisePayload(Some(tp), Some(RiskAnalysis(0.9, [])), "assessment");
      var options := VerifyResponseOptions("tok", None, Some(Threshold(0.5)), Some("Submit"));
      var r := ValidateOutcome(config, options, Ok(payload));
      r.Returns? && r.value.success && r.value.errors == [UnknownError]
  {
  }

  /** A valid token with reason EXPIRED whose action "login" differs from the
      expected "Submit": rejected with [timeout-or-duplicate, action-forbidden]. */
  lemma ScenarioExpiredWrongAction(config: ModuleConfig)
    requires config.enterprise.Some?
    ensures var tp := TokenProperties(true, Some(Expired), Some("example.com"), "login", "t");
      var payload := EnterprisePayload(Some(tp), Some(RiskAnalysis(0.9, [])), "assessment");
      var options := VerifyResponseOptions("tok", None, Some(Threshold(0.5)), Some("Submit"));
      var r := ValidateOutcome(config, options, Ok(payload));
      r.Returns? && !r.value.success && r.value.errors == [TimeoutOrDuplicate, ForbiddenAction]
  {
  }
}
