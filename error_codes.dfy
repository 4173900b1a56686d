/** The verification failure reasons shared by both verification strategies
    (src/enums/error-code.ts). The wire carries them as strings, and codes
    outside the enumeration do reach the library, so `Unrecognised` keeps
    any other string. */
module ErrorCodes {

  datatype ErrorCode =
    | MissingInputSecret
    | InvalidInputSecret
    | MissingInputResponse
    | InvalidInputResponse
    | BadRequest
    | TimeoutOrDuplicate
    | UnknownError
    | ForbiddenAction
    | LowScore
    | InvalidKeys
    | IncorrectCaptchaSol
    | NetworkError
    | SiteMismatch
    | BrowserError
    | Unrecognised(code: string)

  /** The string value of a code, as it travels on the wire. */
  function Name(c: ErrorCode): string {
    match c
    case MissingInputSecret => "missing-input-secret"
    case InvalidInputSecret => "invalid-input-secret"
    case MissingInputResponse => "missing-input-response"
    case InvalidInputResponse => "invalid-input-response"
    case BadRequest => "bad-request"
    case TimeoutOrDuplicate => "timeout-or-duplicate"
    case UnknownError => "unknown-error"
    case ForbiddenAction => "forbidden-action"
    case LowScore => "low-score"
    case InvalidKeys => "invalid-keys"
    case IncorrectCaptchaSol => "incorrect-captcha-sol"
    case NetworkError => "network-error"
    case SiteMismatch => "site-mismatch"
    case BrowserError => "browser-error"
    case Unrecognised(s) => s
  }

  /** Reads a wire string as a code. */
  function Parse(s: string): ErrorCode {
    if s == "missing-input-secret" then MissingInputSecret
    else if s == "invalid-input-secret" then InvalidInputSecret
    else if s == "missing-input-response" then MissingInputResponse
    else if s == "invalid-input-response" then InvalidInputResponse
    else if s == "bad-request" then BadRequest
    else if s == "timeout-or-duplicate" then TimeoutOrDuplicate
    else if s == "unknown-error" then UnknownError
    else if s == "forbidden-action" then ForbiddenAction
    else if s == "low-score" then LowScore
    else if s == "invalid-keys" then InvalidKeys
    else if s == "incorrect-captcha-sol" then IncorrectCaptchaSol
    else if s == "network-error" then NetworkError
    else if s == "site-mismatch" then SiteMismatch
    else if s == "browser-error" then BrowserError
    else Unrecognised(s)
  }

  /** A code in its one canonical form: an unrecognised code never spells
      one of the enumerated values. */
  predicate Canonical(c: ErrorCode) {
    c.Unrecognised? ==> Parse(c.code).Unrecognised?
  }

  /** Reading a code's wire string gives the code back. */
  lemma ParseName(c: ErrorCode)
    requires Canonical(c)
    ensures Parse(Name(c)) == c
  {
  }

  /** Every wire string reads as a canonical code that prints as that string. */
  lemma NameParse(s: string)
    ensures Canonical(Parse(s))
    ensures Name(Parse(s)) == s
  {
  }

  /** Distinct canonical codes travel as distinct strings. */
  lemma NameInjective(c: ErrorCode, d: ErrorCode)
    requires Canonical(c) && Canonical(d)
    requires Name(c) == Name(d)
    ensures c == d
  {
    ParseName(c);
    ParseName(d);
  }

  /** The wire strings of a list of codes, in order. */
  function Names(codes: seq<ErrorCode>): seq<string> {
    seq(|codes|, i requires 0 <= i < |codes| => Name(codes[i]))
  }
}
