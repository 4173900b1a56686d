/** The summary of a raised error that the validators log in debug mode
    (src/helpers/get-error-info.ts). */
module ErrorInfo {
  import opened Core
  import opened Interfaces

  /** `isAxiosError(error)`: decided by the error's own flag alone. */
  predicate IsAxiosError(error: RaisedError) {
    error.isAxiosError
  }

  /** What `getErrorInfo` returns: the response data, a string, or the
      `{error, message, stack}` record of a plain error. */
  datatype Info =
    | DataInfo(data: Json)
    | TextInfo(text: string)
    | DetailInfo(error: string, message: string, stack: Option<string>)

  /** The response data an HTTP-client error carries, when truthy. */
  predicate HasTruthyData(error: RaisedError) {
    error.response.Some? && error.response.value.data.Some? && JsonTruthy(error.response.value.data.value)
  }

  const UnknownAxiosError := "Unknown axios error"

  /** `getErrorInfo(error)` */
  function GetErrorInfo(error: RaisedError): (info: Info)
    ensures IsAxiosError(error) && HasTruthyData(error) ==> info == DataInfo(error.response.value.data.value)
    ensures IsAxiosError(error) && !HasTruthyData(error) && TextTruthy(error.code) ==> info == TextInfo(error.code.value)
    ensures IsAxiosError(error) && !HasTruthyData(error) && !TextTruthy(error.code) ==> info == TextInfo(UnknownAxiosError)
    ensures !IsAxiosError(error) ==> info == DetailInfo(error.name, error.message, error.stack)
  {
    if IsAxiosError(error) then
      if HasTruthyData(error) then DataInfo(error.response.value.data.value)
      else if TextTruthy(error.code) then TextInfo(error.code.value)
      else TextInfo(UnknownAxiosError)
    else
      DetailInfo(error.name, error.message, error.stack)
  }

  /** The flag alone selects the branch: errors that differ only in their
      flag get a detail record exactly when the flag is off. */
  lemma FlagDecidesShape(error: RaisedError)
    ensures GetErrorInfo(error).DetailInfo? <==> !error.isAxiosError
    ensures GetErrorInfo(error.(isAxiosError := false)) == DetailInfo(error.name, error.message, error.stack)
  {
  }

  /** A plain error's summary loses nothing: name, message and stack can be
      read back from it. */
  lemma DetailRoundTrip(error: RaisedError)
    requires !error.isAxiosError
    ensures var info := GetErrorInfo(error);
      info.error == error.name && info.message == error.message && info.stack == error.stack
  {
  }
}
