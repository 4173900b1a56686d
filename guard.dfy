/** The route guard: skip, validate the token, or turn the first error code
    into a thrown exception (src/guards/google-recaptcha.guard.ts). */
module Guard {
  import opened Core
  import opened ErrorCodes
  import opened Interfaces
  import opened Exceptions
  import opened LegacyValidator

  /** What an error handler returns: a message, or an `Error` to throw. */
  datatype HandlerOutcome = Message(text: string) | Raise(error: Exception)

  /** `GoogleRecaptchaGuardOptions` */
  datatype GuardOptions = GuardOptions(
    response: HttpRequest -> string,
    skipIf: Option<() -> bool>,
    onError: Option<seq<ErrorCode> -> HandlerOutcome>)

  const MissingSecretMessage := "The secret parameter is missing."
  const InvalidSecretMessage := "The secret parameter is invalid or malformed."
  const MissingResponseMessage := "The response parameter is missing."
  const InvalidResponseMessage := "The response parameter is invalid or malformed."
  const BadRequestMessage := "The request is invalid or malformed."
  const TimeoutOrDuplicateMessage := "The response is no longer valid: either is too old or has been used previously."
  const UnknownCheckMessage := "Unknown error when checking captcha."

  /** The `switch` on the first code, by its string value; anything else,
      unknown-error included, and no code at all give a bad gateway. */
  function ErrorMessage(first: Option<ErrorCode>): (outcome: HandlerOutcome)
    ensures first.Some? && Name(first.value) == "missing-input-secret" ==> outcome == Message(MissingSecretMessage)
    ensures first.Some? && Name(first.value) == "invalid-input-secret" ==> outcome == Message(InvalidSecretMessage)
    ensures first.Some? && Name(first.value) == "missing-input-response" ==> outcome == Message(MissingResponseMessage)
    ensures first.Some? && Name(first.value) == "invalid-input-response" ==> outcome == Message(InvalidResponseMessage)
    ensures first.Some? && Name(first.value) == "bad-request" ==> outcome == Message(BadRequestMessage)
    ensures first.Some? && Name(first.value) == "timeout-or-duplicate" ==> outcome == Message(TimeoutOrDuplicateMessage)
    ensures outcome.Raise? <==> first.None? || Name(first.value) !in HandledNames
    ensures outcome.Raise? ==> outcome.error == BadGatewayException(UnknownCheckMessage)
  {
    if first.None? then Raise(BadGatewayException(UnknownCheckMessage))
    else
      var name := Name(first.value);
      if name == "missing-input-secret" then Message(MissingSecretMessage)
      else if name == "invalid-input-secret" then Message(InvalidSecretMessage)
      else if name == "missing-input-response" then Message(MissingResponseMessage)
      else if name == "invalid-input-response" then Message(InvalidResponseMessage)
      else if name == "bad-request" then Message(BadRequestMessage)
      else if name == "timeout-or-duplicate" then Message(TimeoutOrDuplicateMessage)
      else Raise(BadGatewayException(UnknownCheckMessage))
  }

  /** The string values the handler has a message for. */
  const HandledNames := {"missing-input-secret", "invalid-input-secret", "missing-input-response",
                         "invalid-input-response", "bad-request", "timeout-or-duplicate"}

  /** The six handled codes, as codes. */
  lemma HandledCodes(c: ErrorCode)
    requires Canonical(c)
    ensures ErrorMessage(Some(c)).Message? <==>
      c in {MissingInputSecret, InvalidInputSecret, MissingInputResponse, InvalidInputResponse, BadRequest, TimeoutOrDuplicate}
  {
    ParseName(c);
  }

  /** The list `errorHandler` shifts its first code off. */
  class ErrorCodeList {
    var codes: seq<ErrorCode>

    constructor (codes: seq<ErrorCode>)
      ensures this.codes == codes
    {
      this.codes := codes;
    }

    /** `shift()`: removes and returns the first code, if any. */
    method Shift() returns (first: Option<ErrorCode>)
      modifies this
      ensures old(codes) == [] ==> first.None? && codes == []
      ensures old(codes) != [] ==> first == Some(old(codes)[0]) && codes == old(codes)[1..]
    {
      if codes == [] {
        first := None;
      } else {
        first := Some(codes[0]);
        codes := codes[1..];
      }
    }
  }

  /** The first code of a list, if any. */
  function FirstCode(codes: seq<ErrorCode>): Option<ErrorCode> {
    if codes == [] then None else Some(codes[0])
  }

  /** `errorHandler(errorCodes)`: consumes the first code and maps it. */
  method ErrorHandler(list: ErrorCodeList) returns (outcome: HandlerOutcome)
    modifies list
    ensures outcome == ErrorMessage(FirstCode(old(list.codes)))
    ensures list.codes == if old(list.codes) == [] then [] else old(list.codes)[1..]
  {
    var first := list.Shift();
    outcome := ErrorMessage(first);
  }

  /** Whether the guard skips: `skipIf` is set and evaluates true. */
  function Skips(options: GuardOptions): bool {
    if options.skipIf.Some? then options.skipIf.value() else false
  }

  /** The handler outcome for a failed result: `onError` when configured,
      the built-in mapping of the first code otherwise. */
  function HandlerOutcomeOf(options: GuardOptions, errors: seq<ErrorCode>): HandlerOutcome {
    if options.onError.Some? then options.onError.value(errors) else ErrorMessage(FirstCode(errors))
  }

  /** What `canActivate` completes with. */
  function GuardOutcome(options: GuardOptions, request: HttpRequest, reply: RemoteOutcome<SiteverifyWire>): Completion<bool> {
    if Skips(options) then Returns(true)
    else
      var result := Validate(reply);
      if result.success then Returns(true)
      else
        match HandlerOutcomeOf(options, result.errors)
        case Raise(e) => Throws(e)
        case Message(text) => Throws(BadRequestException(text))
  }

  /** `canActivate(context)`: `posted` is the siteverify request the guard
      sends, none when it skips. */
  method CanActivate(validatorOptions: LegacyValidatorOptions, options: GuardOptions, request: HttpRequest,
                     reply: RemoteOutcome<SiteverifyWire>)
    returns (posted: Option<PostRequest>, r: Completion<bool>)
    ensures posted.None? <==> Skips(options)
    ensures posted.Some? ==> posted.value == Request(validatorOptions, options.response(request))
    ensures r == GuardOutcome(options, request, reply)
  {
    var skip := if options.skipIf.Some? then options.skipIf.value() else false;
    if skip {
      posted := None;
      r := Returns(true);
      return;
    }
    var response := options.response(request);
    posted := Some(Request(validatorOptions, response));
    var result := Validate(reply);
    if result.success {
      r := Returns(true);
      return;
    }
    var error: HandlerOutcome;
    if options.onError.Some? {
      error := options.onError.value(result.errors);
    } else {
      var list := new ErrorCodeList(result.errors);
      error := ErrorHandler(list);
    }
    match error
    case Raise(e) =>
      r := Throws(e);
    case Message(text) =>
      r := Throws(BadRequestException(text));
  }

  /** The guard never completes with false: it allows or it throws. */
  lemma NeverReturnsFalse(options: GuardOptions, request: HttpRequest, reply: RemoteOutcome<SiteverifyWire>)
    ensures var r := GuardOutcome(options, request, reply);
      r.Returns? ==> r.value
  {
  }

  /** It allows exactly when it skips or the service reported success. */
  lemma AllowsIff(options: GuardOptions, request: HttpRequest, reply: RemoteOutcome<SiteverifyWire>)
    ensures GuardOutcome(options, request, reply).Returns? <==>
      Skips(options) || (reply.Ok? && reply.payload.success)
  {
  }

  /** Without `skipIf` the guard never skips, and a skipping guard ignores
      the reply entirely. */
  lemma SkipRules(options: GuardOptions, request: HttpRequest, reply: RemoteOutcome<SiteverifyWire>, other: RemoteOutcome<SiteverifyWire>)
    ensures options.skipIf.None? ==> !Skips(options)
    ensures Skips(options) ==> GuardOutcome(options, request, reply) == GuardOutcome(options, request, other) == Returns(true)
  {
  }

  /** On a failed validation, a message becomes a bad request with that
      message, an `Error` is thrown as it is, and a configured `onError`
      alone decides which. */
  lemma FailureThrows(options: GuardOptions, request: HttpRequest, reply: RemoteOutcome<SiteverifyWire>)
    requires !Skips(options) && !Validate(reply).success
    ensures var r := GuardOutcome(options, request, reply);
      var outcome := HandlerOutcomeOf(options, Validate(reply).errors);
      && r.Throws?
      && (outcome.Message? ==> r.exception == BadRequestException(outcome.text))
      && (outcome.Raise? ==> r.exception == outcome.error)
      && (options.onError.Some? ==> outcome == options.onError.value(Validate(reply).errors))
  {
  }

  /** A failed remote call, with the built-in handler, ends in a bad gateway. */
  lemma FailedCallIsBadGateway(options: GuardOptions, request: HttpRequest, error: RaisedError)
    requires !Skips(options) && options.onError.None?
    ensures GuardOutcome(options, request, Rejected(error)) == Throws(BadGatewayException(UnknownCheckMessage))
  {
  }

  /** A rejected token whose first code is timeout-or-duplicate, with the
      built-in handler, is a bad request with the timeout message. */
  lemma ScenarioTimeoutOrDuplicate(options: GuardOptions, request: HttpRequest)
    requires !Skips(options) && options.onError.None?
    ensures var wire := SiteverifyWire(false, None, None, Some([TimeoutOrDuplicate, BadRequest]), None, None);
      GuardOutcome(options, request, Ok(wire)) == Throws(BadRequestException(TimeoutOrDuplicateMessage))
  {
  }
}
