/** The older siteverify validator the guard calls
    (src/services/google-recaptcha.validator.ts). The remote call is the
    `reply` parameter. */
module LegacyValidator {
  import opened ErrorCodes
  import opened Interfaces
  import StandardValidator

  const GoogleApiUrl := "https://www.google.com/recaptcha/api/siteverify"
  const RecaptchaNetApiUrl := "https://recaptcha.net/recaptcha/api/siteverify"
  const FormContentType := "application/x-www-form-urlencoded"

  /** `GoogleRecaptchaValidatorOptions` without the HTTPS agent. */
  datatype LegacyValidatorOptions = LegacyValidatorOptions(secretKey: string, useRecaptchaNet: bool)

  /** The form body `{secret, response}`. */
  datatype FormBody = FormBody(secret: string, response: string)

  datatype PostRequest = PostRequest(url: string, body: FormBody, contentType: string)

  /** `GoogleRecaptchaValidationResult`: nothing but success and errors. */
  datatype ValidationResult = ValidationResult(success: bool, errors: seq<ErrorCode>)

  /** The endpoint: recaptcha.net when asked for, google.com otherwise. */
  function ApiUrl(options: LegacyValidatorOptions): (url: string)
    ensures url == RecaptchaNetApiUrl <==> options.useRecaptchaNet
    ensures url == GoogleApiUrl <==> !options.useRecaptchaNet
  {
    if options.useRecaptchaNet then RecaptchaNetApiUrl else GoogleApiUrl
  }

  /** The request `validate(response)` posts. */
  function Request(options: LegacyValidatorOptions, response: string): (request: PostRequest)
    ensures request.url == ApiUrl(options)
    ensures request.body.secret == options.secretKey && request.body.response == response
    ensures request.contentType == FormContentType
  {
    PostRequest(ApiUrl(options), FormBody(options.secretKey, response), FormContentType)
  }

  /** `validate(response)`: the answer's success and codes, or
      [unknown-error] for any failure at all. */
  function Validate(reply: RemoteOutcome<SiteverifyWire>): (r: ValidationResult)
    ensures reply.Ok? && reply.payload.errorCodes.Some? ==>
      r == ValidationResult(reply.payload.success, reply.payload.errorCodes.value)
    ensures reply.Ok? && reply.payload.errorCodes.None? ==> r == ValidationResult(reply.payload.success, [])
    ensures reply.Rejected? ==> r == ValidationResult(false, [UnknownError])
  {
    match reply
    case Ok(wire) =>
      ValidationResult(wire.success, if wire.errorCodes.Some? then wire.errorCodes.value else [])
    case Rejected(_) => ValidationResult(false, [UnknownError])
  }

  /** Success needs an answer that reports success. */
  lemma SuccessNeedsAnswer(reply: RemoteOutcome<SiteverifyWire>)
    requires Validate(reply).success
    ensures reply.Ok? && reply.payload.success
  {
  }

  /** On an answer, the older validator reports what the newer one does for
      a v2 payload; on a failure it reports the newer one's catch-all result
      even where the newer one throws the network exception. */
  lemma AgreesWithStandardValidator(reply: RemoteOutcome<SiteverifyWire>)
    ensures reply.Ok? ==>
      var payload := StandardValidator.NormaliseErrorCodes(reply.payload);
      Validate(reply) == ValidationResult(payload.success, payload.errors)
    ensures reply.Rejected? ==>
      var payload := StandardValidator.UnknownErrorPayload;
      Validate(reply) == ValidationResult(payload.success, payload.errors)
  {
  }
}
