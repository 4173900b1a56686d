/** The records the validators exchange: module options, per-call options,
    the two remote protocols' payloads, and the outcome of a remote call
    (src/types.ts, src/interfaces/). */
module Interfaces {
  import opened Core
  import opened ErrorCodes
  import opened EnterpriseReasons

  /** `ScoreValidator`: a minimum score or a predicate on the score. */
  datatype ScoreValidator = Threshold(min: real) | Predicate(accept: real -> bool)

  /** JavaScript truthiness of an optional score policy: a threshold of 0
      counts as absent, a predicate is always truthy. */
  predicate ScoreTruthy(v: Option<ScoreValidator>) {
    match v
    case None => false
    case Some(Threshold(t)) => t != 0.0
    case Some(Predicate(_)) => true
  }

  /** The incoming HTTP request, as far as providers and predicates see it. */
  datatype HttpRequest = HttpRequest(headers: map<string, string>, body: map<string, string>)

  /** `skipIf`: a fixed flag or a per-request predicate. */
  datatype SkipIfValue = SkipFlag(flag: bool) | SkipWhen(test: HttpRequest -> bool)

  /** Enterprise credentials; an absent field is a key the object lacks. */
  datatype EnterpriseOptions = EnterpriseOptions(projectId: Option<string>, siteKey: Option<string>, apiKey: Option<string>) {
    /** `Object.keys(this).length` */
    function KeyCount(): (n: nat)
      ensures n <= 3
      ensures n == 0 <==> projectId.None? && siteKey.None? && apiKey.None?
    {
      (if projectId.Some? then 1 else 0) + (if siteKey.Some? then 1 else 0) + (if apiKey.Some? then 1 else 0)
    }
  }

  /** A snapshot of the module options (`GoogleRecaptchaModuleOptions`). */
  datatype ModuleConfig = ModuleConfig(
    secretKey: Option<string>,
    enterprise: Option<EnterpriseOptions>,
    score: Option<ScoreValidator>,
    actions: Option<seq<string>>,
    skipIf: Option<SkipIfValue>,
    network: Option<string>,
    debug: bool)

  /** `VerifyResponseOptions`: what one verification call is asked to check. */
  datatype VerifyResponseOptions = VerifyResponseOptions(
    response: string,
    remoteIp: Option<string>,
    score: Option<ScoreValidator>,
    action: Option<string>)

  /** A siteverify response body as decoded from the wire; `errorCodes` is
      the `error-codes` key, and `score`/`action` are whatever JSON the
      service put there (v2 answers have neither). */
  datatype SiteverifyWire = SiteverifyWire(
    success: bool,
    challengeTs: Option<string>,
    hostname: Option<string>,
    errorCodes: Option<seq<ErrorCode>>,
    score: Option<Json>,
    action: Option<Json>)

  /** A siteverify response after `error-codes` has been moved to `errors`
      (`VerifyResponseV2`, and `VerifyResponseV3` when score and action are
      present with the right types). It has no `error-codes` key. */
  datatype SiteverifyPayload = SiteverifyPayload(
    success: bool,
    challengeTs: Option<string>,
    hostname: Option<string>,
    errors: seq<ErrorCode>,
    score: Option<Json>,
    action: Option<Json>)

  datatype TokenProperties = TokenProperties(
    valid: bool,
    invalidReason: Option<EnterpriseReason>,
    hostname: Option<string>,
    action: string,
    createTime: string)

  datatype RiskAnalysis = RiskAnalysis(score: real, reasons: seq<string>)

  /** An enterprise assessment response body (`VerifyResponseEnterprise`). */
  datatype EnterprisePayload = EnterprisePayload(
    tokenProperties: Option<TokenProperties>,
    riskAnalysis: Option<RiskAnalysis>,
    name: string)

  /** The HTTP response an HTTP-client error may carry. */
  datatype HttpResponse = HttpResponse(status: Option<int>, data: Option<Json>)

  /** What a failed remote call rejects with: an HTTP-client (axios) error
      when `isAxiosError` is set, any other `Error` otherwise. */
  datatype RaisedError = RaisedError(
    isAxiosError: bool,
    name: string,
    message: string,
    stack: Option<string>,
    code: Option<string>,
    response: Option<HttpResponse>)

  /** The outcome of one remote call: an answer, or the error the HTTP
      client raised. How a rejection is classified differs between the
      validators. */
  datatype RemoteOutcome<P> = Ok(payload: P) | Rejected(error: RaisedError)
}
