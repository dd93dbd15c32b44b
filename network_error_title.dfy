/** `NetworkErrorTitle`: the titles an error can carry. */
module NetworkErrorTitles {

  datatype NetworkErrorTitle =
    | NoInternetTitle
    | BadUrlTitle
    | Unknown
    | Api
    | HttpResponse
    | Json
    | Download
    | Upload
    | ApiDelegate
    | Socket
    | Custom(title: string)

  /** The display string of a title; total, every case has one. */
  function Value(t: NetworkErrorTitle): (r: string)
    ensures !t.Custom? ==> |r| > 0
  {
    match t
    case NoInternetTitle => "No internet"
    case BadUrlTitle => "Bar request constructed"
    case Unknown => "Unknown"
    case Api => "Api error"
    case HttpResponse => "HTTResponse error"
    case Json => "Json or codable error"
    case Download => "Api download error"
    case Upload => "Api upload error"
    case ApiDelegate => "Urlsession delegate error"
    case Socket => "Websocket error"
    case Custom(title) => title
  }

  const NamedTitles: seq<NetworkErrorTitle> :=
    [NoInternetTitle, BadUrlTitle, Unknown, Api, HttpResponse, Json, Download, Upload, ApiDelegate, Socket]

  /** The ten named titles are non-empty and pairwise different. */
  lemma NamedTitlesDistinct()
    ensures forall i :: 0 <= i < |NamedTitles| ==> |Value(NamedTitles[i])| > 0
    ensures forall i, j :: 0 <= i < j < |NamedTitles| ==> Value(NamedTitles[i]) != Value(NamedTitles[j])
  {
  }

  /** A custom title renders as the string it carries. */
  lemma CustomTitle(s: string)
    ensures Value(Custom(s)) == s
  {
  }
}
