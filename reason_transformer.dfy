/** Translation of the enterprise service's invalid-token reasons into the
    common error codes (src/services/enterprise-reason.transformer.ts). */
module ReasonTransformer {
  import opened ErrorCodes
  import R = EnterpriseReasons

  /** The codes a translation can yield. */
  predicate TranslatedCode(c: ErrorCode) {
    c in {TimeoutOrDuplicate, InvalidInputResponse, MissingInputResponse, SiteMismatch, BrowserError, UnknownError}
  }

  /** `transform(errCode)`: the `switch` compares the reason's string value. */
  function Transform(reason: R.EnterpriseReason): (c: ErrorCode)
    ensures TranslatedCode(c)
    ensures c != NetworkError && c != ForbiddenAction && c != LowScore
    ensures c != MissingInputSecret && c != InvalidInputSecret
  {
    var name := R.ReasonName(reason);
    if name == "BROWSER_ERROR" then BrowserError
    else if name == "UNKNOWN_INVALID_REASON" then UnknownError
    else if name == "SITE_MISMATCH" then SiteMismatch
    else if name == "EXPIRED" || name == "DUPE" then TimeoutOrDuplicate
    else if name == "MALFORMED" then InvalidInputResponse
    else if name == "MISSING" then MissingInputResponse
    else if name == "INVALID_REASON_UNSPECIFIED" then UnknownError
    else UnknownError
  }

  /** Which reason strings translate to which code, in both directions. */
  lemma TransformPreimages(reason: R.EnterpriseReason)
    ensures var name := R.ReasonName(reason);
      && (Transform(reason) == TimeoutOrDuplicate <==> name == "EXPIRED" || name == "DUPE")
      && (Transform(reason) == InvalidInputResponse <==> name == "MALFORMED")
      && (Transform(reason) == MissingInputResponse <==> name == "MISSING")
      && (Transform(reason) == SiteMismatch <==> name == "SITE_MISMATCH")
      && (Transform(reason) == BrowserError <==> name == "BROWSER_ERROR")
      && (Transform(reason) == UnknownError <==>
            name !in {"EXPIRED", "DUPE", "MALFORMED", "MISSING", "SITE_MISMATCH", "BROWSER_ERROR"})
  {
  }

  /** The listed reasons, case by case: expired and duplicate tokens are one
      code, the two unspecific reasons and any unlisted string are unknown. */
  lemma TransformListedReasons(unlisted: string)
    requires unlisted !in {"EXPIRED", "DUPE", "MALFORMED", "MISSING", "SITE_MISMATCH", "BROWSER_ERROR"}
    ensures Transform(R.Expired) == TimeoutOrDuplicate && Transform(R.Dupe) == TimeoutOrDuplicate
    ensures Transform(R.Malformed) == InvalidInputResponse && Transform(R.Missing) == MissingInputResponse
    ensures Transform(R.SiteMismatch) == SiteMismatch && Transform(R.BrowserError) == BrowserError
    ensures Transform(R.UnknownInvalidReason) == UnknownError && Transform(R.InvalidReasonUnspecified) == UnknownError
    ensures Transform(R.UnlistedReason(unlisted)) == UnknownError
  {
  }

  /** Every code of the stated range is reached by some reason, so the
      translation is onto it. */
  lemma TransformOnto(c: ErrorCode)
    requires TranslatedCode(c)
    ensures exists reason :: Transform(reason) == c
  {
    if c == TimeoutOrDuplicate { assert Transform(R.Expired) == c; }
    else if c == InvalidInputResponse { assert Transform(R.Malformed) == c; }
    else if c == MissingInputResponse { assert Transform(R.Missing) == c; }
    else if c == SiteMismatch { assert Transform(R.SiteMismatch) == c; }
    else if c == BrowserError { assert Transform(R.BrowserError) == c; }
    else { assert Transform(R.InvalidReasonUnspecified) == c; }
  }
}
