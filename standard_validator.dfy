/** The standard (v2/v3 siteverify) verification strategy
    (src/services/validators/google-recaptcha.validator.ts). The remote call
    is the `reply` parameter; the request it answers is returned as `sent`. */
module StandardValidator {
  import opened Core
  import opened ErrorCodes
  import opened Interfaces
  import opened Exceptions
  import opened ValidatorPolicy
  import opened VerificationResult
  import opened ConfigRef

  /** Where the siteverify request is posted: the configured network, or
      the library's default Google endpoint. */
  datatype Endpoint = ConfiguredNetwork(url: string) | DefaultNetwork

  const FormContentType := "application/x-www-form-urlencoded"

  /** The form-encoded siteverify request. */
  datatype SiteverifyRequest = SiteverifyRequest(
    endpoint: Endpoint,
    secret: Option<string>,
    response: string,
    remoteip: Option<string>,
    contentType: string)

  /** The request `verifyResponse` posts. */
  function BuildRequest(config: ModuleConfig, response: string, remoteIp: Option<string>): (request: SiteverifyRequest)
    ensures request.secret == config.secretKey && request.response == response && request.remoteip == remoteIp
    ensures TextTruthy(config.network) ==> request.endpoint == ConfiguredNetwork(config.network.value)
    ensures !TextTruthy(config.network) ==> request.endpoint == DefaultNetwork
    ensures request.contentType == FormContentType
  {
    var endpoint := if TextTruthy(config.network) then ConfiguredNetwork(config.network.value) else DefaultNetwork;
    SiteverifyRequest(endpoint, config.secretKey, response, remoteIp, FormContentType)
  }

  /** Moves the wire's `error-codes` to `errors` (or [] when absent) and
      drops the `error-codes` key. */
  function NormaliseErrorCodes(wire: SiteverifyWire): (payload: SiteverifyPayload)
    ensures wire.errorCodes.Some? ==> payload.errors == wire.errorCodes.value
    ensures wire.errorCodes.None? ==> payload.errors == []
    ensures payload.success == wire.success && payload.challengeTs == wire.challengeTs
    ensures payload.hostname == wire.hostname && payload.score == wire.score && payload.action == wire.action
  {
    SiteverifyPayload(wire.success, wire.challengeTs, wire.hostname,
                      if wire.errorCodes.Some? then wire.errorCodes.value else [],
                      wire.score, wire.action)
  }

  /** The wire form of a payload: `errors` back under `error-codes`. */
  function ToWire(payload: SiteverifyPayload): SiteverifyWire {
    SiteverifyWire(payload.success, payload.challengeTs, payload.hostname, Some(payload.errors),
                   payload.score, payload.action)
  }

  /** Normalising the wire form of a payload gives the payload back. */
  lemma NormaliseToWire(payload: SiteverifyPayload)
    ensures NormaliseErrorCodes(ToWire(payload)) == payload
  {
  }

  /** A wire body that has `error-codes` survives normalisation unchanged;
      one without it comes back with an empty list. */
  lemma ToWireNormalise(wire: SiteverifyWire)
    ensures wire.errorCodes.Some? ==> ToWire(NormaliseErrorCodes(wire)) == wire
    ensures wire.errorCodes.None? ==> ToWire(NormaliseErrorCodes(wire)) == wire.(errorCodes := Some([]))
  {
  }

  /** A transport failure: an HTTP-client error without a response but with
      an error code. */
  predicate IsNetworkFailure(error: RaisedError) {
    error.isAxiosError && error.response.None? && TextTruthy(error.code)
  }

  /** The payload that stands in for any other failure. */
  const UnknownErrorPayload := SiteverifyPayload(false, None, None, [UnknownError], None, None)

  /** The response mapping and error classification of `verifyResponse`. */
  function VerifyResponse(reply: RemoteOutcome<SiteverifyWire>): (r: Completion<SiteverifyPayload>)
    ensures reply.Ok? ==> r == Returns(NormaliseErrorCodes(reply.payload))
    ensures reply.Rejected? && IsNetworkFailure(reply.error) ==> r == Throws(NewNetworkException(reply.error.code))
    ensures reply.Rejected? && !IsNetworkFailure(reply.error) ==> r == Returns(UnknownErrorPayload)
  {
    match reply
    case Ok(wire) => Returns(NormaliseErrorCodes(wire))
    case Rejected(error) =>
      if IsNetworkFailure(error) then Throws(NewNetworkException(error.code))
      else Returns(UnknownErrorPayload)
  }

  /** `isUseV3(v)`: a numeric `score` and a string `action` are both present. */
  predicate IsUseV3(payload: SiteverifyPayload) {
    payload.score.Some? && payload.score.value.JNum? && payload.action.Some? && payload.action.value.JStr?
  }

  /** The result of a v2 (non-v3) payload: passed through, no policy run. */
  function V2Result(payload: SiteverifyPayload, remoteIp: Option<string>): RecaptchaVerificationResult {
    NewResult(ResultOptions(payload.success, SiteverifyNative(payload), payload.hostname, None, None,
                            payload.errors, remoteIp))
  }

  /** The v3 payload after the action and score checks have amended it. */
  function AmendedByPolicy(config: ModuleConfig, options: VerifyResponseOptions, payload: SiteverifyPayload): SiteverifyPayload
    requires IsUseV3(payload)
  {
    var actionOk := IsValidAction(config, payload.action.value.s, options);
    var scoreOk := IsValidScore(config, payload.score.value.n, options.score);
    payload.(success := payload.success && actionOk && scoreOk,
             errors := payload.errors + (if actionOk then [] else [ForbiddenAction])
                                      + (if scoreOk then [] else [LowScore]))
  }

  /** The result of a v3 payload. */
  function V3Result(config: ModuleConfig, options: VerifyResponseOptions, payload: SiteverifyPayload): RecaptchaVerificationResult
    requires IsUseV3(payload)
  {
    var amended := AmendedByPolicy(config, options, payload);
    NewResult(ResultOptions(amended.success, SiteverifyNative(amended), amended.hostname,
                            Some(payload.action.value.s), Some(payload.score.value.n),
                            amended.errors, options.remoteIp))
  }

  /** What `validate(options)` completes with, given the service's reply. */
  function ValidateOutcome(config: ModuleConfig, options: VerifyResponseOptions, reply: RemoteOutcome<SiteverifyWire>): Completion<RecaptchaVerificationResult> {
    match VerifyResponse(reply)
    case Throws(e) => Throws(e)
    case Returns(payload) =>
      if IsUseV3(payload) then Returns(V3Result(config, options, payload))
      else Returns(V2Result(payload, options.remoteIp))
  }

  /** `validate(options)`: reads the options through the shared ref, posts
      `sent`, and amends the payload step by step. */
  method Validate(ref: RecaptchaConfigRef, options: VerifyResponseOptions, reply: RemoteOutcome<SiteverifyWire>)
    returns (sent: SiteverifyRequest, r: Completion<RecaptchaVerificationResult>)
    ensures sent == BuildRequest(ref.value.Snapshot(), options.response, options.remoteIp)
    ensures sent.secret == ref.value.secretKey
    ensures r == ValidateOutcome(ref.value.Snapshot(), options, reply)
  {
    var config := ref.ValueOf().Snapshot();
    sent := BuildRequest(config, options.response, options.remoteIp);
    var verified := VerifyResponse(reply);
    if verified.Throws? {
      r := Throws(verified.exception);
      return;
    }
    var result := verified.value;
    if !IsUseV3(result) {
      r := Returns(NewResult(ResultOptions(result.success, SiteverifyNative(result), result.hostname, None, None,
                                           result.errors, options.remoteIp)));
      return;
    }
    if !IsValidAction(config, result.action.value.s, options) {
      result := result.(success := false);
      result := result.(errors := result.errors + [ForbiddenAction]);
    }
    if !IsValidScore(config, result.score.value.n, options.score) {
      result := result.(success := false);
      result := result.(errors := result.errors + [LowScore]);
    }
    assert result == AmendedByPolicy(config, options, verified.value);
    var nativeResponse := SiteverifyNative(result);
    r := Returns(NewResult(ResultOptions(result.success, nativeResponse, result.hostname,
                                         Some(result.action.value.s), Some(result.score.value.n),
                                         result.errors, options.remoteIp)));
  }

  /** A non-v3 payload passes through: success, errors and hostname as the
      service sent them, no score or action, and no policy consulted (the
      outcome does not depend on the module options). */
  lemma V2PassesThrough(config: ModuleConfig, other: ModuleConfig, options: VerifyResponseOptions, wire: SiteverifyWire)
    requires !IsUseV3(NormaliseErrorCodes(wire))
    ensures var r := ValidateOutcome(config, options, Ok(wire));
      && r.Returns?
      && r.value.success == wire.success
      && r.value.errors == (if wire.errorCodes.Some? then wire.errorCodes.value else [])
      && r.value.hostname == wire.hostname
      && r.value.score.None? && r.value.action.None?
      && r.value.options.remoteIp == options.remoteIp
      && r == ValidateOutcome(other, options, Ok(wire))
  {
  }

  /** For a v3 payload, success survives exactly when the service reported
      success and both checks pass; forbidden-action and low-score are
      appended, in that order, exactly for the checks that fail. */
  lemma V3PolicyDecision(config: ModuleConfig, options: VerifyResponseOptions, wire: SiteverifyWire)
    requires IsUseV3(NormaliseErrorCodes(wire))
    ensures var r := ValidateOutcome(config, options, Ok(wire));
      var actionOk := IsValidAction(config, wire.action.value.s, options);
      var scoreOk := IsValidScore(config, wire.score.value.n, options.score);
      var before := NormaliseErrorCodes(wire).errors;
      && r.Returns?
      && (r.value.success <==> wire.success && actionOk && scoreOk)
      && r.value.errors[..|before|] == before
      && r.value.errors[|before|..] == (if actionOk then [] else [ForbiddenAction]) + (if scoreOk then [] else [LowScore])
      && r.value.score == Some(wire.score.value.n) && r.value.action == Some(wire.action.value.s)
      && r.value.options.remoteIp == options.remoteIp
  {
    var before := NormaliseErrorCodes(wire).errors;
    var r := ValidateOutcome(config, options, Ok(wire));
    var tail := (if IsValidAction(config, wire.action.value.s, options) then [] else [ForbiddenAction])
              + (if IsValidScore(config, wire.score.value.n, options.score) then [] else [LowScore]);
    assert r.value.errors == before + tail;
  }

  /** A clean v3 answer (success, no codes) is rejected exactly when the
      action or the score check fails, and then carries exactly the codes of
      the failing checks. */
  lemma V3CleanAnswer(config: ModuleConfig, options: VerifyResponseOptions, wire: SiteverifyWire)
    requires IsUseV3(NormaliseErrorCodes(wire))
    requires wire.success && (wire.errorCodes.None? || wire.errorCodes == Some([]))
    ensures var r := ValidateOutcome(config, options, Ok(wire));
      var actionOk := IsValidAction(config, wire.action.value.s, options);
      var scoreOk := IsValidScore(config, wire.score.value.n, options.score);
      && r.Returns?
      && (!r.value.success <==> !actionOk || !scoreOk)
      && (ForbiddenAction in r.value.errors <==> !actionOk)
      && (LowScore in r.value.errors <==> !scoreOk)
      && (r.value.success ==> r.value.errors == [])
  {
    V3PolicyDecision(config, options, wire);
  }

  /** A failed call never yields success: a transport failure throws the
      network exception carrying its code, anything else gives exactly
      [unknown-error]. */
  lemma FailedCallNeverSucceeds(config: ModuleConfig, options: VerifyResponseOptions, error: RaisedError)
    ensures var r := ValidateOutcome(config, options, Rejected(error));
      && (IsNetworkFailure(error) ==>
            r.Throws? && r.exception.GoogleRecaptchaNetworkException?
            && r.exception.networkErrorCode == error.code && r.exception.errorCodes == [NetworkError])
      && (!IsNetworkFailure(error) ==>
            r.Returns? && !r.value.success && r.value.errors == [UnknownError] && r.value.hostname.None?)
  {
  }

  /** An API error that carries a code is not a transport failure here: the
      standard strategy only treats response-less errors as network errors. */
  lemma ApiErrorWithCodeIsUnknown(config: ModuleConfig, options: VerifyResponseOptions, error: RaisedError)
    requires error.isAxiosError && error.response.Some? && TextTruthy(error.code)
    ensures ValidateOutcome(config, options, Rejected(error)) == Returns(V2Result(UnknownErrorPayload, options.remoteIp))
  {
  }

  /** Token "t1", expected action "Submit", threshold 0.6, and the service
      answers success with action "Submit" and score 0.9: accepted, no codes. */
  lemma ScenarioAccepted(config: ModuleConfig)
    ensures var wire := SiteverifyWire(true, None, Some("h"), None, Some(JNum(0.9)), Some(JStr("Submit")));
      var options := VerifyResponseOptions("t1", None, Some(Threshold(0.6)), Some("Submit"));
      var r := ValidateOutcome(config, options, Ok(wire));
      r.Returns? && r.value.success && r.value.errors == []
  {
  }

  /** The same with score 0.3: rejected with exactly [low-score]. */
  lemma ScenarioLowScore(config: ModuleConfig)
    ensures var wire := SiteverifyWire(true, None, Some("h"), None, Some(JNum(0.3)), Some(JStr("Submit")));
      var options := VerifyResponseOptions("t1", None, Some(Threshold(0.6)), Some("Submit"));
      var r := ValidateOutcome(config, options, Ok(wire));
      r.Returns? && !r.value.success && r.value.errors == [LowScore]
  {
  }

  /** Nothing keeps `errors` non-empty on failure: a v2 answer
      `{success: false}` without `error-codes` fails with no code at all. */
  lemma SilentV2Failure(config: ModuleConfig, options: VerifyResponseOptions, hostname: Option<string>)
    ensures var wire := SiteverifyWire(false, None, hostname, None, None, None);
      var r := ValidateOutcome(config, options, Ok(wire));
      r.Returns? && !r.value.success && r.value.errors == []
  {
  }

  /** The options the base class's policy reads when the constructor hands
      it the ref object itself: a ref has no `actions` or `score` property,
      so both read as undefined, while everything else is read through
      `valueOf`. */
  function PolicyConfigAsWritten(config: ModuleConfig): (seen: ModuleConfig)
    ensures seen.actions.None? && seen.score.None?
    ensures seen.(actions := config.actions, score := config.score) == config
  {
    config.(actions := None, score := None)
  }

  /** As written, the module-level allow-list and threshold are never
      consulted: with actions ["Submit"] and threshold 0.6 configured and no
      call-level policy, an answer with action "InvalidAction" and score 0.3
      is accepted, where reading the options through the ref rejects it with
      [forbidden-action, low-score]. */
  lemma AsWrittenIgnoresModulePolicy()
    ensures var config := ModuleConfig(Some("secret_key"), None, Some(Threshold(0.6)), Some(["Submit"]), None, None, true);
      var wire := SiteverifyWire(true, None, Some("hostname"), Some([]), Some(JNum(0.3)), Some(JStr("InvalidAction")));
      var options := VerifyResponseOptions("token", None, None, None);
      var asWritten := ValidateOutcome(PolicyConfigAsWritten(config), options, Ok(wire));
      var intended := ValidateOutcome(config, options, Ok(wire));
      && asWritten.Returns? && asWritten.value.success && asWritten.value.errors == []
      && intended.Returns? && !intended.value.success && intended.value.errors == [ForbiddenAction, LowScore]
  {
    var config := ModuleConfig(Some("secret_key"), None, Some(Threshold(0.6)), Some(["Submit"]), None, None, true);
    var options := VerifyResponseOptions("token", None, None, None);
    assert !IsValidAction(config, "InvalidAction", options);
  }
}
