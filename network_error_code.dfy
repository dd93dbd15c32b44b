/** `NetworkErrorCode`: the closed set of error codes and their integer values. */
module NetworkErrorCodes {

  datatype NetworkErrorCode =
    | Unknown
    | NoInternet
    | BadUrl
    | JsonFileError
    | Api
    | DownloadCode
    | UploadCode
    | Custom(code: int)

  /** The values of the seven named cases. */
  const NamedValueSet: set<int> := {0, -1, -2, -3, -111, -222, -333}

  /** The integer a code stands for; a custom code stands for itself. */
  function Value(c: NetworkErrorCode): (r: int)
    ensures !c.Custom? ==> r in NamedValueSet
  {
    match c
    case Unknown => 0
    case NoInternet => -1
    case BadUrl => -2
    case JsonFileError => -3
    case Api => -111
    case DownloadCode => -222
    case UploadCode => -333
    case Custom(code) => code
  }

  /** The seven named cases. */
  const NamedCodes: seq<NetworkErrorCode> :=
    [Unknown, NoInternet, BadUrl, JsonFileError, Api, DownloadCode, UploadCode]

  /**
   * The code a raw integer is read back as: the named case carrying that value,
   * or the custom case when no named case does. An inverse of `Value`.
   */
  function FromValue(n: int): (c: NetworkErrorCode)
    ensures Value(c) == n
    ensures c.Custom? <==> n !in NamedValueSet
  {
    if n == 0 then Unknown
    else if n == -1 then NoInternet
    else if n == -2 then BadUrl
    else if n == -3 then JsonFileError
    else if n == -111 then Api
    else if n == -222 then DownloadCode
    else if n == -333 then UploadCode
    else Custom(n)
  }

  /** The named cases carry the fixed table of values, all different, all at most zero. */
  lemma NamedValues()
    ensures [Value(Unknown), Value(NoInternet), Value(BadUrl), Value(JsonFileError),
             Value(Api), Value(DownloadCode), Value(UploadCode)] == [0, -1, -2, -3, -111, -222, -333]
    ensures forall i, j :: 0 <= i < j < |NamedCodes| ==> Value(NamedCodes[i]) != Value(NamedCodes[j])
  {
  }

  /** A custom code carries exactly the integer it was built from. */
  lemma CustomValue(n: int)
    ensures Value(Custom(n)) == n
  {
  }

  /** Reading back the value of a named case gives that case: `Value` is injective on named cases. */
  lemma NamedRoundTrip(c: NetworkErrorCode)
    requires !c.Custom?
    ensures FromValue(Value(c)) == c
  {
  }

  /** Over the whole enum `Value` is not injective: a custom -222 collides with the download code. */
  lemma ValueNotInjective()
    ensures Custom(-222) != DownloadCode && Value(Custom(-222)) == Value(DownloadCode)
  {
  }
}
