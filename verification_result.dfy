/** The immutable outcome of one verification
    (src/models/recaptcha-verification-result.ts). */
module VerificationResult {
  import opened Core
  import opened ErrorCodes
  import opened Interfaces
  import opened Exceptions

  /** The raw decoded remote response the result keeps: a siteverify
      payload, an enterprise assessment, or `null`. */
  datatype NativeResponse =
    | SiteverifyNative(siteverify: SiteverifyPayload)
    | EnterpriseNative(enterprise: EnterprisePayload)
    | NullNative

  /** The options record a validator hands to the constructor. The standard
      validator also passes `remoteIp`, which the result keeps only inside
      this record. */
  datatype ResultOptions = ResultOptions(
    success: bool,
    nativeResponse: NativeResponse,
    hostname: Option<string>,
    action: Option<string>,
    score: Option<real>,
    errors: seq<ErrorCode>,
    remoteIp: Option<string>)

  /** `RecaptchaVerificationResult`: every field is read-only, so a value
      of this datatype is the whole object. */
  datatype RecaptchaVerificationResult = RecaptchaVerificationResult(
    success: bool,
    hostname: Option<string>,
    action: Option<string>,
    score: Option<real>,
    nativeResponse: NativeResponse,
    errors: seq<ErrorCode>,
    options: ResultOptions)

  /** `new RecaptchaVerificationResult(options)` */
  function NewResult(options: ResultOptions): (r: RecaptchaVerificationResult)
    ensures r.success == options.success && r.hostname == options.hostname
    ensures r.action == options.action && r.score == options.score
    ensures r.errors == options.errors && r.nativeResponse == options.nativeResponse
    ensures r.options == options
  {
    RecaptchaVerificationResult(options.success, options.hostname, options.action, options.score,
                                options.nativeResponse, options.errors, options)
  }

  /** `getResponse()` */
  function GetResponse(result: RecaptchaVerificationResult): NativeResponse {
    result.nativeResponse
  }

  /** The options a result was built from, recovered from its public fields. */
  function ResultOptionsOf(result: RecaptchaVerificationResult): ResultOptions {
    ResultOptions(result.success, result.nativeResponse, result.hostname, result.action,
                  result.score, result.errors, result.options.remoteIp)
  }

  /** Building a result and reading its fields back loses nothing. */
  lemma NewResultRoundTrip(options: ResultOptions)
    ensures ResultOptionsOf(NewResult(options)) == options
    ensures GetResponse(NewResult(options)) == options.nativeResponse
  {
  }

  /** `getEnterpriseRiskAnalytics()`: the native response's own
      `riskAnalysis` property, or `null`; a `null` native response has no
      `hasOwnProperty` to call and throws. */
  function GetEnterpriseRiskAnalytics(result: RecaptchaVerificationResult): (r: Completion<Option<RiskAnalysis>>)
    ensures result.nativeResponse.NullNative? <==> r.Throws?
    ensures r.Returns? && r.value.Some? <==>
      result.nativeResponse.EnterpriseNative? && result.nativeResponse.enterprise.riskAnalysis.Some?
    ensures r.Returns? && r.value.Some? ==> r.value == result.nativeResponse.enterprise.riskAnalysis
  {
    match GetResponse(result)
    case EnterpriseNative(payload) => Returns(payload.riskAnalysis)
    case SiteverifyNative(_) => Returns(None)
    case NullNative => Throws(TypeError("hasOwnProperty"))
  }
}
