/**
 * `NetworkError`: the one error value that crosses every public operation, its
 * fixed constructors, the HTTP status validation against the error catalog and
 * the conversion of a platform `NSError`.
 */
module NetworkErrors {
  import opened Wrappers
  import NetworkErrorCodes

  /** `NetworkCodes`, the older twin of `NetworkErrorCode`, as used by `NetworkError`. */
  datatype NetworkCodes =
    | Unknown
    | NoInternet
    | BadUrl
    | JsonFileError
    | Api
    | DownloadCode
    | UploadCode
    | Custom(code: int)

  /** The integer a code stands for: the named cases take the values of `NetworkErrorCode`'s named cases. */
  function Value(c: NetworkCodes): (r: int)
    ensures !c.Custom? ==> r in NetworkErrorCodes.NamedValueSet
  {
    match c
    case Unknown => 0
    case NoInternet => -1
    case BadUrl => -2
    case JsonFileError => -3
    case Api => -111
    case DownloadCode => -222
    case UploadCode => -333
    case Custom(code) => code
  }

  /** The case of `NetworkErrorCode` with the same name: the two enums agree case by case on every value. */
  function AsErrorCode(c: NetworkCodes): (r: NetworkErrorCodes.NetworkErrorCode)
    ensures NetworkErrorCodes.Value(r) == Value(c)
    ensures r.Custom? <==> c.Custom?
  {
    match c
    case Unknown => NetworkErrorCodes.Unknown
    case NoInternet => NetworkErrorCodes.NoInternet
    case BadUrl => NetworkErrorCodes.BadUrl
    case JsonFileError => NetworkErrorCodes.JsonFileError
    case Api => NetworkErrorCodes.Api
    case DownloadCode => NetworkErrorCodes.DownloadCode
    case UploadCode => NetworkErrorCodes.UploadCode
    case Custom(code) => NetworkErrorCodes.Custom(code)
  }

  /** The named codes carry 0, -1, -2, -3, -111, -222, -333, all different; a custom code carries itself. */
  lemma CodeTable(n: int)
    ensures [Value(Unknown), Value(NoInternet), Value(BadUrl), Value(JsonFileError),
             Value(Api), Value(DownloadCode), Value(UploadCode)] == [0, -1, -2, -3, -111, -222, -333]
    ensures Value(Custom(n)) == n
  {
  }

  datatype NetworkError = NetworkError(title: string, code: NetworkCodes, errorMessage: string, userMessage: string)

  // The private `Copy` strings.
  const NoInternetCopy := "Something wrong with the url that has been constructed, Please check and try again"
  const NoInternetTitleCopy := "No Internet"
  const BadUrlTitleCopy := "Bar Request Constructed"
  const BadUrlCopy := "Something wrong with the url that has been constructed, Please check and try again"
  const UnknownCopy := "An unknown error occurred while processing request, please check and try again."
  const HTTPResponseNilCopy := "HTTPURLResponse is nil"
  const NSErrorURLKey := "NSErrorFailingURLKey"
  const CodableConversionErrorCopy := "NetworErrors Json File"
  const CodableConversionErrorMessageCopy := "Issue in converting NetworkErrors.json via codable model."

  function NoInternetError(): (e: NetworkError)
    ensures Value(e.code) == -1 && e.userMessage == ""
  {
    NetworkError(NoInternetTitleCopy, NoInternet, NoInternetCopy, "")
  }

  function BadUrlError(): (e: NetworkError)
    ensures Value(e.code) == -2 && e.userMessage == ""
  {
    NetworkError(BadUrlTitleCopy, BadUrl, BadUrlCopy, "")
  }

  function UnknownError(): (e: NetworkError)
    ensures Value(e.code) == 0 && e.errorMessage == ""
  {
    NetworkError(HTTPResponseNilCopy, Unknown, "", UnknownCopy)
  }

  function ErrorInCodableConversion(): (e: NetworkError)
    ensures Value(e.code) == -3 && e.userMessage == ""
  {
    NetworkError(CodableConversionErrorCopy, JsonFileError, CodableConversionErrorMessageCopy, "")
  }

  /** No-internet and bad-url differ in title and code but share the diagnostic message. */
  lemma PreflightErrors()
    ensures NoInternetError().errorMessage == BadUrlError().errorMessage
    ensures NoInternetError().title != BadUrlError().title
    ensures Value(NoInternetError().code) != Value(BadUrlError().code)
  {
  }

  /** What reading and decoding the bundled catalog resource produced. */
  datatype CatalogLoad =
    | Missing                              // the resource is not in the bundle
    | Malformed                            // reading or decoding it threw
    | Loaded(entries: seq<NetworkError>)

  datatype HTTPURLResponse = HTTPURLResponse(statusCode: int)

  /** `first(where:)`: the first catalog entry whose code value is the status. */
  function FirstWithStatus(entries: seq<NetworkError>, status: int): (r: Option<NetworkError>)
    ensures r.None? <==> forall i :: 0 <= i < |entries| ==> Value(entries[i].code) != status
    ensures r.Some? ==> exists i :: 0 <= i < |entries| && entries[i] == r.value
                                    && Value(entries[i].code) == status
                                    && forall j :: 0 <= j < i ==> Value(entries[j].code) != status
  {
    if entries == [] then None
    else if Value(entries[0].code) == status then Some(entries[0])
    else
      var r := FirstWithStatus(entries[1..], status);
      if r.Some? then
        var i :| 1 <= i + 1 < |entries| && entries[1..][i] == r.value && Value(entries[1..][i].code) == status
                 && forall j :: 0 <= j < i ==> Value(entries[1..][j].code) != status;
        assert entries[i + 1] == r.value;
        r
      else r
  }

  /**
   * `validateHTTPError`: no response is the unknown error; a 2xx status is no error;
   * any other status is looked up in the catalog, where a missing catalog or a
   * status with no entry is no error and an unreadable catalog is the
   * codable-conversion error.
   */
  function ValidateHTTPError(urlResponse: Option<HTTPURLResponse>, catalog: CatalogLoad): (r: Option<NetworkError>)
    ensures urlResponse.None? ==> r == Some(UnknownError())
    ensures urlResponse.Some? && 200 <= urlResponse.value.statusCode <= 299 ==> r.None?
    ensures (urlResponse.Some? && catalog.Malformed? && !(200 <= urlResponse.value.statusCode <= 299))
              ==> r == Some(ErrorInCodableConversion())
    ensures (urlResponse.Some? && catalog.Loaded? && r.Some?)
              ==> r.value in catalog.entries && Value(r.value.code) == urlResponse.value.statusCode
    ensures r.None? <==>
              (urlResponse.Some? && (200 <= urlResponse.value.statusCode <= 299 || catalog.Missing?
                || (catalog.Loaded? && forall e :: e in catalog.entries ==> Value(e.code) != urlResponse.value.statusCode)))
  {
    match urlResponse
    case None => Some(UnknownError())
    case Some(response) =>
      if 200 <= response.statusCode <= 299 then None
      else
        match catalog
        case Missing => None
        case Malformed => Some(ErrorInCodableConversion())
        case Loaded(entries) => FirstWithStatus(entries, response.statusCode)
  }

  /** A status that the catalog lists, outside 2xx, always comes back as an error carrying that status. */
  lemma CatalogStatusRoundTrip(status: int, entries: seq<NetworkError>, e: NetworkError)
    requires !(200 <= status <= 299)
    requires e in entries && Value(e.code) == status
    ensures ValidateHTTPError(Some(HTTPURLResponse(status)), Loaded(entries)).Some?
    ensures Value(ValidateHTTPError(Some(HTTPURLResponse(status)), Loaded(entries)).value.code) == status
  {
  }

  /** Foundation's `NSError`; `userInfo` values are given by their `String(describing:)` text. */
  datatype NSError = NSError(domain: string, code: int, localizedDescription: string, userInfo: map<string, string>)

  /**
   * `convertErrorToNetworkError`: total; the domain becomes the title, the code a
   * custom code, the localized description the user message, and the failing-URL
   * entry (if any) the diagnostic message.
   */
  function ConvertErrorToNetworkError(error: NSError): (r: NetworkError)
    ensures r.title == error.domain
    ensures r.code == Custom(error.code) && Value(r.code) == error.code
    ensures r.userMessage == error.localizedDescription
    ensures r.errorMessage == if NSErrorURLKey in error.userInfo then error.userInfo[NSErrorURLKey] else ""
  {
    var errorMessage := if NSErrorURLKey in error.userInfo then error.userInfo[NSErrorURLKey] else "";
    NetworkError(error.domain, Custom(error.code), errorMessage, error.localizedDescription)
  }

  /** Converting never produces one of the named codes' cases, even when the value coincides. */
  lemma ConvertedCodeIsCustom(error: NSError)
    ensures ConvertErrorToNetworkError(error).code.Custom?
    ensures error.code == -222 ==> ConvertErrorToNetworkError(error).code != DownloadCode
  {
  }
}
