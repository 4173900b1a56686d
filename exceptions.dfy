/** The exceptions the library throws or lets escape, and the completion of
    an operation that may throw (src/exceptions/). */
module Exceptions {
  import opened Core
  import opened ErrorCodes

  /** Everything a modelled operation can throw. */
  datatype Exception =
      /** `new Error(message)` */
    | PlainError(message: string)
      /** a property read on `undefined` or `null`; `property` is the one read */
    | TypeError(property: string)
    | BadRequestException(message: string)
    | BadGatewayException(message: string)
    | GoogleRecaptchaException(errorCodes: seq<ErrorCode>, message: string)
    | GoogleRecaptchaNetworkException(networkErrorCode: Option<string>, errorCodes: seq<ErrorCode>, message: string)
  {
    /** `instanceof GoogleRecaptchaException` */
    predicate IsGoogleRecaptchaException() {
      GoogleRecaptchaException? || GoogleRecaptchaNetworkException?
    }

    /** `instanceof BadRequestException` */
    predicate IsBadRequest() {
      BadRequestException? || IsGoogleRecaptchaException()
    }
  }

  /** An operation either returns a value or throws. */
  datatype Completion<+T> = Returns(value: T) | Throws(exception: Exception)

  const RecaptchaMessagePrefix := "Google recaptcha errors: "

  /** The message a `GoogleRecaptchaException` gets when none is supplied. */
  function DefaultRecaptchaMessage(errorCodes: seq<ErrorCode>): string {
    RecaptchaMessagePrefix + Join(Names(errorCodes), ", ") + "."
  }

  /** `new GoogleRecaptchaException(errorCodes, message?)` */
  function NewGoogleRecaptchaException(errorCodes: seq<ErrorCode>, message: Option<string>): (e: Exception)
    ensures e.GoogleRecaptchaException? && e.IsBadRequest()
    ensures e.errorCodes == errorCodes
    ensures message.Some? ==> e.message == message.value
    ensures message.None? ==> e.message == DefaultRecaptchaMessage(errorCodes)
  {
    GoogleRecaptchaException(errorCodes, if message.Some? then message.value else DefaultRecaptchaMessage(errorCodes))
  }

  /** The default message starts with the fixed prefix, ends with a full
      stop, and lists every code's wire string, in the given order, each
      followed by ", " except the last. */
  lemma DefaultMessageListsCodes(errorCodes: seq<ErrorCode>, i: nat)
    requires i < |errorCodes|
    ensures var m := DefaultRecaptchaMessage(errorCodes); var p := |RecaptchaMessagePrefix|;
      && m[..p] == RecaptchaMessagePrefix
      && m[|m| - 1] == '.'
      && OccursAt(m, Name(errorCodes[i]), p + JoinOffset(Names(errorCodes), ", ", i))
      && (i + 1 < |errorCodes| ==>
            OccursAt(m, ", " + Name(errorCodes[i + 1]), p + JoinOffset(Names(errorCodes), ", ", i) + |Name(errorCodes[i])|))
  {
    var names := Names(errorCodes);
    var joined := Join(names, ", ");
    var m := DefaultRecaptchaMessage(errorCodes);
    assert m == RecaptchaMessagePrefix + joined + ".";
    assert m[..|RecaptchaMessagePrefix|] == RecaptchaMessagePrefix;
    JoinPlacesPart(names, ", ", i);
    OccursInside(RecaptchaMessagePrefix, joined, ".", names[i], JoinOffset(names, ", ", i));
    if i + 1 < |errorCodes| {
      JoinPlacesNextPart(names, ", ", i);
      OccursInside(RecaptchaMessagePrefix, joined, ".", ", " + names[i + 1], JoinOffset(names, ", ", i) + |names[i]|);
    }
  }

  /** With no codes the default message is the prefix and a full stop. */
  lemma DefaultMessageOfNoCodes()
    ensures DefaultRecaptchaMessage([]) == "Google recaptcha errors: ."
  {
  }

  const UnknownNetworkMessage := "Unknown network error."

  /** The message of a network exception that carries `code`. */
  function NetworkMessage(code: string): string {
    "Network error '" + code + "'."
  }

  /** `new GoogleRecaptchaNetworkException(networkErrorCode?)`: a
      `GoogleRecaptchaException` carrying [network-error] and a message
      naming the transport error code. */
  function NewNetworkException(networkErrorCode: Option<string>): (e: Exception)
    ensures e.GoogleRecaptchaNetworkException? && e.IsGoogleRecaptchaException() && e.IsBadRequest()
    ensures e.networkErrorCode == networkErrorCode
    ensures e.errorCodes == [NetworkError]
    ensures TextTruthy(networkErrorCode) ==> Includes(e.message, networkErrorCode.value)
    ensures !TextTruthy(networkErrorCode) ==> e.message == UnknownNetworkMessage
  {
    var message := if TextTruthy(networkErrorCode) then NetworkMessage(networkErrorCode.value) else UnknownNetworkMessage;
    assert TextTruthy(networkErrorCode) ==> OccursAt(message, networkErrorCode.value, 15);
    var base := NewGoogleRecaptchaException([NetworkError], Some(message));
    GoogleRecaptchaNetworkException(networkErrorCode, base.errorCodes, base.message)
  }

  /** The network exception's message is exactly the quoted code. */
  lemma NetworkMessageOfCode(code: string)
    requires code != ""
    ensures NewNetworkException(Some(code)).message == "Network error '" + code + "'."
  {
  }
}
