/** The reasons the enterprise assessment service gives for an invalid token
    (src/enums/google-recaptcha-enterprise-reason.ts). A reason string the
    enumeration does not list is kept in `UnlistedReason`. */
module EnterpriseReasons {

  datatype EnterpriseReason =
    | InvalidReasonUnspecified
    | UnknownInvalidReason
    | Malformed
    | Expired
    | Dupe
    | SiteMismatch
    | Missing
    | BrowserError
    | UnlistedReason(reason: string)

  /** The string value of a reason, as it travels on the wire. */
  function ReasonName(r: EnterpriseReason): string {
    match r
    case InvalidReasonUnspecified => "INVALID_REASON_UNSPECIFIED"
    case UnknownInvalidReason => "UNKNOWN_INVALID_REASON"
    case Malformed => "MALFORMED"
    case Expired => "EXPIRED"
    case Dupe => "DUPE"
    case SiteMismatch => "SITE_MISMATCH"
    case Missing => "MISSING"
    case BrowserError => "BROWSER_ERROR"
    case UnlistedReason(s) => s
  }

  /** JavaScript truthiness of a reason: only the empty string is falsy. */
  predicate ReasonTruthy(r: EnterpriseReason) {
    ReasonName(r) != ""
  }
}
