/** `NetworkHTTPHeaderField`: a descriptor's header dictionary and how keys and values render. */
module HTTPHeaderFields {

  datatype NetworkHTTPHeaderKey = Authentication | ContentType | AcceptType | Other(value: string)

  datatype NetworkHTTPHeaderValue = Json | MultipartFormData(boundary: string) | Other(value: string)

  datatype NetworkHTTPHeaderField = HeaderFields(fields: map<NetworkHTTPHeaderKey, NetworkHTTPHeaderValue>)
  {
    /** `headers`: the stored dictionary itself. */
    function Headers(): (h: map<NetworkHTTPHeaderKey, NetworkHTTPHeaderValue>)
      ensures h == fields
    {
      match this
      case HeaderFields(httpHeaders) => httpHeaders
    }
  }

  /** The header name a key renders as. */
  function KeyDescription(k: NetworkHTTPHeaderKey): (r: string)
    ensures !k.Other? ==> |r| > 0
  {
    match k
    case Authentication => "Authorization"
    case ContentType => "Content-Type"
    case AcceptType => "Accept"
    case Other(value) => value
  }

  /** A character in lower case; only the ASCII letters A to Z change. */
  function LowerChar(c: char): char
  {
    if 'A' <= c <= 'Z' then (c as int + 32) as char else c
  }

  /**
   * A header name with its ASCII letters in lower case: `URLRequest` compares
   * header names without regard to case, so two names with the same folding
   * name the same header.
   */
  function FoldedName(name: string): string
  {
    seq(|name|, i requires 0 <= i < |name| => LowerChar(name[i]))
  }

  /** The header a key sets on a `URLRequest`: its rendered name, folded. */
  function HeaderName(k: NetworkHTTPHeaderKey): string
  {
    FoldedName(KeyDescription(k))
  }

  /** The header value a value renders as. */
  function ValueDescription(v: NetworkHTTPHeaderValue): (r: string)
    ensures !v.Other? ==> |r| > 0
  {
    match v
    case Json => "application/json"
    case MultipartFormData(boundary) => "multipart/form-data; boundary=" + boundary
    case Other(value) => value
  }

  /** The fixed names of the three named keys, and custom keys render verbatim. */
  lemma KeyNames(s: string)
    ensures KeyDescription(Authentication) == "Authorization"
    ensures KeyDescription(ContentType) == "Content-Type"
    ensures KeyDescription(AcceptType) == "Accept"
    ensures KeyDescription(NetworkHTTPHeaderKey.Other(s)) == s
  {
  }

  /**
   * A multipart value carries the boundary as the `boundary` parameter of the
   * `multipart/form-data` media type (section 4.1 of RFC 7578): the boundary is
   * exactly what follows the fixed 30-character prefix.
   */
  lemma MultipartValueCarriesBoundary(boundary: string)
    ensures var d := ValueDescription(MultipartFormData(boundary));
            |d| == 30 + |boundary| && d[..30] == "multipart/form-data; boundary=" && d[30..] == boundary
  {
  }

  lemma ValueNames(s: string)
    ensures ValueDescription(Json) == "application/json"
    ensures ValueDescription(NetworkHTTPHeaderValue.Other(s)) == s
  {
  }

  /** Rendering is not injective: a custom "Content-Type" key names the same header as `contentType`. */
  lemma KeyRenderingCollides()
    ensures NetworkHTTPHeaderKey.Other("Content-Type") != ContentType
    ensures KeyDescription(NetworkHTTPHeaderKey.Other("Content-Type")) == KeyDescription(ContentType)
  {
  }
}
