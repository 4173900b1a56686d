# google-recaptcha verification core, in Dafny

This project models the verification-decision logic of the NestJS reCAPTCHA
library `@nestlab/google-recaptcha` (chvarkov/google-recaptcha), states what
that logic promises, and proves it. It covers:

- the score and action policy shared by the validators;
- the standard (v2/v3 siteverify) validator and the older siteverify
  validator that the guard calls;
- the enterprise (assessment API) validator and its reason translation;
- validator selection and the shared, mutable `RecaptchaConfigRef`;
- the immutable `RecaptchaVerificationResult`;
- the request resolver and the route guard;
- the axios-error summary and the two exception classes.

Every remote call is a parameter, `reply: RemoteOutcome<P>`:

- `Ok(payload)` is an answer from the service.
- `Rejected(error)` is a failed call. The error is the HTTP-client error
  record (`isAxiosError`, `name`, `message`, `stack`, `code`, `response`).
  The two validators classify a rejection differently:
  - the standard validator throws a network failure iff the error is an
    HTTP-client error with no `response` and a truthy `code`; every other
    rejection becomes an `[unknown-error]` answer;
  - the enterprise validator throws a network failure iff the error is an
    HTTP-client error with a truthy `code`, whether or not it has a
    `response`; an uncoded rejection with a `response` is an API error, and
    one without a response throws a TypeError when `.status` is read.

The request the validator would post is returned as an out-parameter, so
its contents can be stated.

An operation that may throw completes with `Completion<T>`: either
`Returns(value)` or `Throws(exception)`. A property read on `undefined`
appears as `Throws(TypeError(property))`. JavaScript truthiness is written
out wherever the code tests a value with `if (x)` or `x || y`:

- a threshold of 0 is falsy;
- an empty secret key, action, error code or reason is falsy;
- enterprise options with no keys count as absent.

Modules follow the source files:

- `Core`, `ErrorCodes`, `EnterpriseReasons` and `Interfaces` hold the records
  and enumerations.
- `Exceptions`, `ValidatorPolicy`, `ReasonTransformer`, `ErrorInfo`,
  `VerificationResult` and `ConfigRef` each model one source file.
- `StandardValidator`, `EnterpriseValidator`, `ValidatorResolver`,
  `RequestResolver`, `LegacyValidator` and `Guard` each model one source file.

The two validators make step-by-step updates: they push codes onto a list,
set `success = false` and amend the payload in place. Each is therefore a
`method` whose `ensures` ties its result to a specification function
(`ValidateOutcome`), and the lemmas prove the promised properties about that
function. The guard is modelled the same way. `RecaptchaConfigRef` is a class
holding a reference to a `ModuleOptions` object; its setters `modify` that
object, which the caller's own reference also sees.

Decisions where the code leaves a case open, or where it behaves otherwise
than its tests or a reader would expect. The model follows the code except
where noted:

- **Enterprise crash cases.** The enterprise validator reads
  `tokenProperties.valid` and `riskAnalysis.score` without guards. A payload
  that lacks either is modelled as a thrown TypeError, not as a default.
  Two other cases are modelled as TypeErrors too:
  - absent enterprise options, read at lines 67, 71 and 81;
  - an uncoded failure without a response, whose `err.response.status` is
    read at line 110.
- **Enterprise `remoteIp`.** The enterprise validator sends no `remoteIp` and
  leaves it out of the result.
- **Standard validator's base class (a departure from the code).** Read
  literally, `super(configRef)` hands the policy base the ref itself, so the
  base's `actions` and `score` would read as undefined. The base constructor
  there is typed to take `GoogleRecaptchaModuleOptions`, which a ref does not
  match, so this reading may not describe any real build. The model reads the
  module options through the ref, as intended; see "## Findings".
- **Custom exception message (a departure from the code).** The constructor
  of `GoogleRecaptchaException` at src/exceptions/google-recaptcha.exception.ts:5
  takes only the codes, so the message the network exception passes as a
  second argument would be ignored. The model follows the two exception test
  files: an optional custom message, with the joined-codes message when none
  is given.
- **Errors and success are not tied together.** One might expect `errors`
  to be empty exactly when `success` holds, with a default code pushed
  rather than a failure with no codes. The code has no such fallback, and the
  model has none either. `StandardValidator.SilentV2Failure` and
  `EnterpriseValidator.SilentInvalidToken` exhibit failures with no code.
  `EnterpriseValidator.UnspecifiedReasonStillSucceeds` exhibits a success
  that carries a code.
- **String comparisons.** The `switch` statements in the guard's error
  handler and in the reason translation compare string values. The model
  compares `Name(code)` and `ReasonName(reason)`, so an unlisted string that
  spells a listed value behaves like that value.

## Model

| member | source | states |
|---|---|---|
| ValidatorPolicy.IsValidAction | src/services/validators/abstract-google-recaptcha-validator.ts:12-20 | with a non-empty expected action, passes iff the reported action equals it; otherwise membership in the module allow-list when one is set, else passes |
| ValidatorPolicy.EffectiveScoreValidator | src/services/validators/abstract-google-recaptcha-validator.ts:23 | the call-level policy when truthy (a threshold of 0 is falsy), else the module-level one |
| ValidatorPolicy.IsValidScore | src/services/validators/abstract-google-recaptcha-validator.ts:22-34 | a truthy threshold passes iff score >= threshold; a predicate gives exactly predicate(score); no truthy policy passes |
| ValidatorPolicy.ExpectedActionIgnoresAllowList | src/services/validators/abstract-google-recaptcha-validator.ts:13-15 | with an expected action, any allow-list gives the same decision |
| ValidatorPolicy.ExpectedActionIsUnique | src/services/validators/abstract-google-recaptcha-validator.ts:13-15 | with an expected action, two accepted actions are equal |
| ValidatorPolicy.EmptyAllowListRejects | src/services/validators/abstract-google-recaptcha-validator.ts:17-19 | an empty allow-list rejects every action when none is expected |
| ValidatorPolicy.CallLevelScorePolicyWins | src/services/validators/abstract-google-recaptcha-validator.ts:23 | a truthy call-level policy makes the module-level one irrelevant |
| ValidatorPolicy.ZeroThresholdDefers | src/services/validators/abstract-google-recaptcha-validator.ts:23-25 | a call-level threshold of 0 behaves like no call-level policy |
| ValidatorPolicy.ScoreCheckMonotone | src/services/validators/abstract-google-recaptcha-validator.ts:30 | under a non-zero threshold, raising the score never turns a pass into a fail |
| StandardValidator.BuildRequest | src/services/validators/google-recaptcha.validator.ts:75-80 | the body carries the ref's secret, the token and the remote IP; the endpoint is the configured network when truthy, else the default; form-encoded |
| StandardValidator.NormaliseErrorCodes | src/services/validators/google-recaptcha.validator.ts:95-102 | `errors` is the wire's `error-codes`, or [] when absent; every other field is unchanged |
| StandardValidator.NormaliseToWire | src/services/validators/google-recaptcha.validator.ts:95-102 | normalising the wire form of a payload gives the payload back |
| StandardValidator.ToWireNormalise | src/services/validators/google-recaptcha.validator.ts:95-102 | a wire body with `error-codes` comes back unchanged; one without comes back with an empty list |
| StandardValidator.VerifyResponse | src/services/validators/google-recaptcha.validator.ts:86-118 | an answer is normalised; a response-less HTTP-client error with a truthy code throws the network exception with that code; any other failure gives success=false, errors=[unknown-error] |
| StandardValidator.IsUseV3 | src/services/validators/google-recaptcha.validator.ts:121-123 | an answer counts as v3 iff its score is a number and its action is a string |
| StandardValidator.Validate | src/services/validators/google-recaptcha.validator.ts:35-72 | posts the request built from the options read through the ref at call time, and completes with `ValidateOutcome` of those options |
| StandardValidator.V2PassesThrough | src/services/validators/google-recaptcha.validator.ts:38-49 | a non-v3 payload keeps success, errors and hostname; score and action are undefined; remoteIp is kept; the module policy does not matter |
| StandardValidator.V3PolicyDecision | src/services/validators/google-recaptcha.validator.ts:51-71 | for v3, success iff the service reported success and both checks pass; after the service's codes come forbidden-action then low-score, each exactly when its check fails; score, action and remoteIp are reported |
| StandardValidator.V3CleanAnswer | src/services/validators/google-recaptcha.validator.ts:51-59 | a clean v3 answer is rejected iff a check fails, carries forbidden-action iff the action check fails and low-score iff the score check fails, and has no codes when accepted |
| StandardValidator.FailedCallNeverSucceeds | src/services/validators/google-recaptcha.validator.ts:103-118 | a transport failure throws the network exception carrying its code and [network-error]; any other failure is unsuccessful with exactly [unknown-error] |
| StandardValidator.ApiErrorWithCodeIsUnknown | src/services/validators/google-recaptcha.validator.ts:108 | an HTTP-client error that has a response is not a network failure, even with a code |
| StandardValidator.ScenarioAccepted | src/services/validators/google-recaptcha.validator.ts:35-72 | expected action Submit with threshold 0.6, and an answer with Submit/0.9: accepted with no codes |
| StandardValidator.SilentV2Failure | src/services/validators/google-recaptcha.validator.ts:38-49 | a v2 answer `{success: false}` without `error-codes` fails with no code, for every config and call |
| StandardValidator.ScenarioLowScore | src/services/validators/google-recaptcha.validator.ts:56-59 | the same with score 0.3: rejected with exactly [low-score] |
| StandardValidator.PolicyConfigAsWritten | src/services/validators/google-recaptcha.validator.ts:28 | the options the base sees when handed the ref itself: no allow-list and no score policy, everything else unchanged |
| StandardValidator.AsWrittenIgnoresModulePolicy | src/services/validators/google-recaptcha.validator.ts:28 | as written, module actions ["Submit"] and threshold 0.6 let an InvalidAction/0.3 answer through; read through the ref, it is rejected with [forbidden-action, low-score] |
| EnterpriseValidator.AssessmentUrl | src/services/validators/google-recaptcha-enterprise.validator.ts:76 | the assessments URL of the project, with an absent id printed as "undefined" |
| EnterpriseValidator.AssessmentUrlRoundTrip | src/services/validators/google-recaptcha-enterprise.validator.ts:76 | the URL starts with the fixed prefix, ends with "/assessments", and the project id can be read back between them |
| EnterpriseValidator.BuildAssessmentRequest | src/services/validators/google-recaptcha-enterprise.validator.ts:66-83 | throws a TypeError iff the enterprise options are absent; otherwise a JSON request whose event is (expected action, site key, token) and whose `key` is the API key |
| EnterpriseValidator.VerifyResponse | src/services/validators/google-recaptcha-enterprise.validator.ts:89-115 | an answer gives [payload, null]; a coded HTTP-client error throws the network exception; an uncoded error gives [null, {status, data}], or a TypeError when it has no response; exactly one of payload and details is present |
| EnterpriseValidator.Validate | src/services/validators/google-recaptcha-enterprise.validator.ts:30-64 | posts the assessment request (none when the credentials are missing), builds success and errors step by step, and completes with `ValidateOutcome` |
| EnterpriseValidator.ErrorsInStageOrder | src/services/validators/google-recaptcha-enterprise.validator.ts:33-53 | the codes of any completed verification come in check order (unknown-error or translated reason, then forbidden-action, then low-score), each stage at most once, so there are at most three |
| EnterpriseValidator.AssessedErrorsInStageOrder | src/services/validators/google-recaptcha-enterprise.validator.ts:41-53 | the codes an assessment adds are in check order: reason, then action, then score |
| EnterpriseValidator.AppendLaterStage | src/services/validators/google-recaptcha-enterprise.validator.ts:45-53 | pushing a code of a later check keeps the list in check order |
| EnterpriseValidator.ApiErrorResult | src/services/validators/google-recaptcha-enterprise.validator.ts:109-114 | an API error gives success=false, exactly [unknown-error], a null native response, hostname "" and no score or action |
| EnterpriseValidator.CodedFailureIsNetworkError | src/services/validators/google-recaptcha-enterprise.validator.ts:103-106 | an HTTP-client error with a code throws the network exception with that code and [network-error], whatever the response |
| EnterpriseValidator.CrashCases | src/services/validators/google-recaptcha-enterprise.validator.ts:30-116 | absent credentials, an uncoded error without response, and a payload without token properties or risk analysis each throw a TypeError |
| EnterpriseValidator.AssessmentDecision | src/services/validators/google-recaptcha-enterprise.validator.ts:34-63 | success iff the token is valid and both checks pass; errors are the translated reason, forbidden-action, low-score as they apply; hostname falls back to ""; score and action are reported; changing the invalid reason never changes success |
| EnterpriseValidator.SilentInvalidToken | src/services/validators/google-recaptcha-enterprise.validator.ts:33-53 | an invalid token with no reason whose checks pass fails with no code |
| EnterpriseValidator.UnspecifiedReasonStillSucceeds | src/services/validators/google-recaptcha-enterprise.validator.ts:41-43 | a valid token with reason INVALID_REASON_UNSPECIFIED that passes both checks succeeds with [unknown-error] |
| EnterpriseValidator.ScenarioExpiredWrongAction | src/services/validators/google-recaptcha-enterprise.validator.ts:30-64 | a valid token with reason EXPIRED and a mismatched action is rejected with [timeout-or-duplicate, forbidden-action] |
| ReasonTransformer.Transform | src/services/enterprise-reason.transformer.ts:7-34 | total; only the six translated codes, never network-error, forbidden-action, low-score or a secret code |
| ReasonTransformer.TransformPreimages | src/services/enterprise-reason.transformer.ts:8-33 | exactly which reason strings give each code: EXPIRED and DUPE give timeout-or-duplicate, MALFORMED, MISSING, SITE_MISMATCH and BROWSER_ERROR their own codes, all others unknown-error |
| ReasonTransformer.TransformListedReasons | src/services/enterprise-reason.transformer.ts:9-32 | the table across the listed reasons, with any unlisted reason giving unknown-error |
| ReasonTransformer.TransformOnto | src/services/enterprise-reason.transformer.ts:7-34 | every code of the stated range is the translation of some reason |
| ValidatorResolver.Resolve | src/services/recaptcha-validator.resolver.ts:16-26 | the standard validator iff the secret key is truthy; the enterprise one iff not and the enterprise options have a key; otherwise throws 'Cannot resolve google recaptcha validator' |
| ValidatorResolver.SecretKeyWins | src/services/recaptcha-validator.resolver.ts:17-19 | a truthy secret key wins whatever the enterprise options are |
| ValidatorResolver.EmptyCredentialsAreAbsent | src/services/recaptcha-validator.resolver.ts:17-21 | `{}` enterprise options equal undefined ones, and an empty secret key equals none |
| ValidatorResolver.ResolveReadsCredentialsOnly | src/services/recaptcha-validator.resolver.ts:16-26 | the choice depends on the two credentials alone |
| ValidatorResolver.ResolveAfterSetters | src/services/recaptcha-validator.resolver.ts:16-26 | after `setSecretKey` with a non-empty key the standard validator is chosen; after `setEnterpriseOptions` the enterprise one iff the options have a key, else resolution fails |
| Interfaces.EnterpriseOptions.KeyCount | src/services/recaptcha-validator.resolver.ts:21 | at most three keys, and none iff every field is absent |
| ConfigRef.RecaptchaConfigRef.constructor | src/models/recaptcha-config-ref.ts:6-11 | `valueOf` is the very options object given |
| ConfigRef.RecaptchaConfigRef.ValueOf | src/models/recaptcha-config-ref.ts:6-8 | the very options object the ref was built around, not a copy |
| ConfigRef.RecaptchaConfigRef.SetSecretKey | src/models/recaptcha-config-ref.ts:13-18 | sets the secret, clears enterprise, changes nothing else, keeps the credentials exclusive, returns the same ref |
| ConfigRef.RecaptchaConfigRef.SetEnterpriseOptions | src/models/recaptcha-config-ref.ts:20-25 | clears the secret, sets enterprise, changes nothing else, keeps the credentials exclusive, returns the same ref |
| ConfigRef.RecaptchaConfigRef.SetScore | src/models/recaptcha-config-ref.ts:27-31 | changes only `score`; returns the same ref |
| ConfigRef.RecaptchaConfigRef.SetSkipIf | src/models/recaptcha-config-ref.ts:33-37 | changes only `skipIf`; returns the same ref |
| ConfigRef.RotateSecretThroughRef | src/models/recaptcha-config-ref.ts:6-18 | a secret set through a ref is seen through the owner's object and the ref, and enterprise is cleared |
| ConfigRef.SwitchToEnterpriseThroughRef | src/models/recaptcha-config-ref.ts:20-31 | chained setters leave the owner's object with the enterprise options, no secret and the new threshold |
| VerificationResult.NewResult | src/models/recaptcha-verification-result.ts:14-29 | copies success, hostname, action, score, errors and native response unchanged and keeps the options |
| VerificationResult.NewResultRoundTrip | src/models/recaptcha-verification-result.ts:22-33 | the options can be read back from the result, and `getResponse` is the native response given |
| VerificationResult.GetResponse | src/models/recaptcha-verification-result.ts:31-33 | the native response the result was built with |
| VerificationResult.GetEnterpriseRiskAnalytics | src/models/recaptcha-verification-result.ts:35-41 | throws iff the native response is null; returns a risk analysis iff the native response is an assessment that has one, and it is that one |
| RequestResolver.GraphQLRequest | src/services/recaptcha-request.resolver.ts:12-14 | defined iff every link of `req.connection._httpMessage.req` is present, and then it is the end of that chain |
| RequestResolver.Resolve | src/services/recaptcha-request.resolver.ts:7-18 | REST returns the HTTP request unchanged; GraphQL returns the chained request, defined iff the chain is complete; any other type throws "Unsupported request type '<type>'." |
| RequestResolver.GraphQLRoundTrip | src/services/recaptcha-request.resolver.ts:12-14 | a request placed in a complete GraphQL chain is the one resolved |
| RequestResolver.GraphQLMissingLink | src/services/recaptcha-request.resolver.ts:14 | a missing link anywhere resolves to undefined |
| RequestResolver.UnsupportedMessageNamesType | src/services/recaptcha-request.resolver.ts:15-16 | the failure message is the fixed text around the type name, which can be read back from it |
| LegacyValidator.ApiUrl | src/services/google-recaptcha.validator.ts:10-22 | the recaptcha.net URL iff `useRecaptchaNet` is set, the google.com URL otherwise |
| LegacyValidator.Request | src/services/google-recaptcha.validator.ts:12-26 | posts the secret and the token, form-encoded, to that URL |
| LegacyValidator.Validate | src/services/google-recaptcha.validator.ts:18-37 | success is copied and errors are `error-codes` or []; any failure gives success=false, errors=[unknown-error]; nothing else is reported |
| LegacyValidator.SuccessNeedsAnswer | src/services/google-recaptcha.validator.ts:29-36 | success requires an answer that reports success |
| LegacyValidator.AgreesWithStandardValidator | src/services/google-recaptcha.validator.ts:29-36 | on an answer it reports what the newer validator's normalisation gives; on any failure, the newer one's catch-all result |
| Guard.ErrorMessage | src/guards/google-recaptcha.guard.ts:49-75 | the six listed first codes give their fixed messages; unknown-error, any other code and an empty list give BadGatewayException('Unknown error when checking captcha.') |
| Guard.HandledCodes | src/guards/google-recaptcha.guard.ts:52-74 | among canonical codes, exactly the six listed ones get a message |
| Guard.ErrorCodeList.Shift | src/guards/google-recaptcha.guard.ts:50 | removes and returns the first code; an empty list stays empty and gives none |
| Guard.ErrorHandler | src/guards/google-recaptcha.guard.ts:49-75 | maps the first code and removes it from the list given |
| Guard.CanActivate | src/guards/google-recaptcha.guard.ts:21-47 | posts a request iff it does not skip, and it is the one for the resolved token; completes with `GuardOutcome` |
| Guard.NeverReturnsFalse | src/guards/google-recaptcha.guard.ts:21-47 | the guard never completes with false |
| Guard.AllowsIff | src/guards/google-recaptcha.guard.ts:24-36 | it allows iff it skips or the service reported success |
| Guard.SkipRules | src/guards/google-recaptcha.guard.ts:24-28 | without `skipIf` it never skips; a skipping guard allows whatever the reply |
| Guard.FailureThrows | src/guards/google-recaptcha.guard.ts:38-46 | on failure a message is thrown as BadRequestException(message), an Error as it is, and a configured `onError` alone decides which |
| Guard.FailedCallIsBadGateway | src/guards/google-recaptcha.guard.ts:38-73 | a failed call with the built-in handler throws the bad gateway exception |
| Guard.ScenarioTimeoutOrDuplicate | src/guards/google-recaptcha.guard.ts:50-69 | a first code of timeout-or-duplicate gives a bad request with its message |
| ErrorInfo.GetErrorInfo | src/helpers/get-error-info.ts:8-14 | for an HTTP-client error, its truthy response data, else its truthy code, else 'Unknown axios error'; for any other error, {error: name, message, stack} |
| ErrorInfo.IsAxiosError | src/helpers/get-error-info.ts:4-6 | an error is an HTTP-client error iff its own `isAxiosError` flag is set |
| ErrorInfo.FlagDecidesShape | src/helpers/get-error-info.ts:4-9 | the `isAxiosError` flag alone decides which shape is returned |
| ErrorInfo.DetailRoundTrip | src/helpers/get-error-info.ts:13 | a plain error's name, message and stack can be read back |
| Exceptions.NewGoogleRecaptchaException | src/exceptions/google-recaptcha.exception.ts:4-6 | a bad request storing exactly the given codes; the supplied message when given, else the joined-codes message |
| Exceptions.DefaultMessageListsCodes | src/exceptions/google-recaptcha.exception.ts:6 | the message starts with 'Google recaptcha errors: ' and ends with '.'; each code's string is at its place in the join, followed by ', ' and the next code |
| Exceptions.DefaultMessageOfNoCodes | src/exceptions/google-recaptcha.exception.ts:6 | no codes give 'Google recaptcha errors: .' |
| Exceptions.NewNetworkException | src/exceptions/google-recaptcha-network.exception.ts:4-6 | a GoogleRecaptchaException and a bad request carrying exactly [network-error] and the given code; the message contains a truthy code, else it is 'Unknown network error.' |
| Exceptions.NetworkMessageOfCode | src/exceptions/google-recaptcha-network.exception.ts:6 | with a code the message is exactly "Network error '<code>'." |
| ErrorCodes.ParseName | src/enums/error-code.ts:1-17 | reading back a canonical code's wire string gives the code |
| ErrorCodes.NameParse | src/enums/error-code.ts:1-17 | any wire string reads as a canonical code that prints as that string |
| ErrorCodes.NameInjective | src/enums/error-code.ts:1-17 | distinct canonical codes have distinct wire strings |

## Findings

| source | as written | input that shows it | evidently intended | confidence | as-written member | corrected member |
|---|---|---|---|---|---|---|
| src/services/validators/google-recaptcha.validator.ts:28 | `super(configRef)` hands the policy base the ref object, so `this.options.actions` and `this.options.score` read as undefined | module options `score: 0.6, actions: ['Submit']`; no call-level policy; answer success, action InvalidAction, score 0.3: accepted | the module-level allow-list and threshold apply, as the integration test 'V3 Invalid action' expects (400) | not executed; medium (another version of the base class may read through `valueOf`; the base constructor is typed to take `GoogleRecaptchaModuleOptions`, which a `RecaptchaConfigRef` does not match, so the files may come from different versions) | StandardValidator.AsWrittenIgnoresModulePolicy | StandardValidator.Validate |

## Left out

- HTTP, RxJS and Promise plumbing are left out. Each remote call is the `reply` parameter, and async steps run in sequence.
- Logging is left out. Debug logging and the `Logger.error` of module loading do not affect control flow.
- Form encoding and JSON serialisation are left out because they are library calls. Request bodies are records.
- The HTTPS `agent` option of the older validator is left out because it only affects the transport.
- DI and framework wiring are left out because they decide nothing: the module, the decorators, `loadModule` and `src/index.ts`.
- The case where `@nestjs/graphql` is missing is left out. `loadModule` then rethrows the `require` error, whose message is not in the code.
- The value of the default siteverify endpoint is left out. `GoogleRecaptchaNetwork` is not part of this model, so the default is `DefaultNetwork`.
- `ApplicationType`'s string values are left out because that enum is not part of this model. Other types carry their name.
- The per-code HTTP status table asserted in test/google-recaptcha-exception.spec.ts is left out. The exception class in this code always extends BadRequestException.
- `xor` is left out because it is not part of this model.
- Extra JSON keys are left out. Wire and payload records hold only the fields the core reads, and the enterprise echo `event` is not modelled.
- Floating-point NaN is left out. Scores are `real` and are only compared or passed to a predicate.
- An answer whose decoded body is `null` or not an object is left out. Payloads are always records here.
- Object.keys and an explicit `undefined`: an enterprise field that is present but `undefined` is modelled as absent.
- Guard.CanActivate: `skipIf` and `response` may return promises. Their awaited values are the parameters' values.
- Exceptions.NewGoogleRecaptchaException / Exceptions.NewNetworkException: the constructor in src/exceptions/google-recaptcha.exception.ts:5 has one parameter, so as written the network exception's own message is dropped in favour of the joined-codes one. The model follows test/google-recaptcha-exception.spec.ts and the network-exception test, which expect the custom message.
- RequestResolver.Resolve: `ExecutionContext.gqlContext` is never absent, so the model assumes that `getContext()` at src/services/recaptcha-request.resolver.ts:14 returns an object; an undefined context, which would throw there, is not modelled.
- LegacyValidator.Validate: `useRecaptchaNet` is a `bool`. Undefined is `false`, which is how the code's truthiness test treats it.
