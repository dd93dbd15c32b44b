/** `NetworkErrorMessage`: the diagnostic messages an error can carry. */
module NetworkErrorMessages {

  datatype NetworkErrorMessage =
    | NoInternet
    | BadUrl
    | Unknown
    | CodableConversion
    | Custom(message: string)

  /** The text of a message; every named message has some. */
  function Value(m: NetworkErrorMessage): (r: string)
    ensures !m.Custom? ==> |r| > 0
  {
    match m
    case NoInternet => "Something wrong with the url that has been constructed, Please check and try again"
    case BadUrl => "Something wrong with the url that has been constructed, Please check and try again"
    case Unknown => "An unknown error occurred while processing request, please check and try again."
    case CodableConversion => "Issue in converting NetworkErrors.json via codable model."
    case Custom(message) => message
  }

  /**
   * No-internet and bad-url share one string, so `Value` is not injective on
   * the named cases; the unknown and codable-conversion messages differ from
   * it and from each other.
   */
  lemma SharedMessage()
    ensures Value(NoInternet) == Value(BadUrl)
    ensures Value(Unknown) != Value(CodableConversion)
    ensures Value(Unknown) != Value(NoInternet)
    ensures Value(CodableConversion) != Value(NoInternet)
  {
    var shared, unknown, codable := Value(NoInternet), Value(Unknown), Value(CodableConversion);
    assert shared == "Something wrong with the url that has been constructed, Please check and try again";
    assert unknown == "An unknown error occurred while processing request, please check and try again.";
    assert codable == "Issue in converting NetworkErrors.json via codable model.";
    assert |shared| == 82 && |unknown| == 79 && |codable| == 57;
  }

  lemma CustomMessage(s: string)
    ensures Value(Custom(s)) == s
  {
  }
}
