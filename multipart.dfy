/**
 * `NetworkMultipartUploadRequestProtocol`: the single `multipart/form-data` body
 * part a multipart upload sends, for a text field or for a file's bytes.
 */
module MultipartForms {
  import opened Bytes
  import opened NetworkRequests

  datatype MultipartFormDataType =
    | Form(name: string, value: string)
    | Data(name: string, data: Bytes, mimeType: string)

  /** A multipart upload descriptor: an ordinary request descriptor plus the boundary and the field. */
  datatype MultipartRequest = MultipartRequest(
    request: RequestDescriptor,
    boundary: string,
    multipartFormDataType: MultipartFormDataType)

  const CRLF: string := "\r\n"

  /** The delimiter line that opens a body part (section 5.1.1 of RFC 2046). */
  function DelimiterLine(boundary: string): string
  {
    "--" + boundary + CRLF
  }

  /** The `Content-Disposition` header of a form field (section 4.2 of RFC 7578); the name goes in unescaped. */
  function DispositionLine(name: string): string
  {
    "Content-Disposition: form-data; name=\"" + name + "\"" + CRLF
  }

  const TextContentTypeLine: string := "Content-Type: text/plain; charset=ISO-8859-1" + CRLF
  const TransferEncodingLine: string := "Content-Transfer-Encoding: 8bit" + CRLF

  /** One encapsulated body part: delimiter line, header lines, blank line, content, CRLF. */
  function BodyPart(boundary: string, headerLines: string, content: Bytes): Bytes
  {
    Utf8(DelimiterLine(boundary) + headerLines + CRLF) + content + Utf8(CRLF)
  }

  /** The part a text field produces: its value as text/plain content. */
  function TextPart(boundary: string, name: string, value: string): Bytes
  {
    BodyPart(boundary, DispositionLine(name) + TextContentTypeLine + TransferEncodingLine, Utf8(value))
  }

  /** The `Content-Type` header of a data field. */
  function ContentTypeLine(mimeType: string): string
  {
    "Content-Type: " + mimeType + CRLF
  }

  /** The part a data field produces: its raw bytes under the given media type. */
  function DataPart(boundary: string, name: string, data: Bytes, mimeType: string): Bytes
  {
    BodyPart(boundary, DispositionLine(name) + ContentTypeLine(mimeType), data)
  }

  /** The body `makeFormBody` produces for a request. */
  function FormBody(m: MultipartRequest): Bytes
  {
    match m.multipartFormDataType
    case Data(name, data, mimeType) => DataPart(m.boundary, name, data, mimeType)
    case Form(name, value) => TextPart(m.boundary, name, value)
  }

  /** `textFormField`: the field text is grown line by line, then appended to an empty buffer as UTF-8. */
  method TextFormField(boundary: string, name: string, value: string) returns (fieldData: Bytes)
    ensures fieldData == TextPart(boundary, name, value)
  {
    var fieldString := DelimiterLine(boundary);
    fieldString := fieldString + DispositionLine(name);
    fieldString := fieldString + TextContentTypeLine;
    fieldString := fieldString + TransferEncodingLine;
    fieldString := fieldString + CRLF;
    fieldString := fieldString + value + CRLF;
    fieldData := [] + Utf8(fieldString);

    var d, disp := DelimiterLine(boundary), DispositionLine(name);
    AppendAssoc(d, disp + TextContentTypeLine, TransferEncodingLine);
    AppendAssoc(d, disp, TextContentTypeLine);
    var head := d + (disp + TextContentTypeLine + TransferEncodingLine) + CRLF;
    calc {
      TextPart(boundary, name, value);
      BodyPart(boundary, DispositionLine(name) + TextContentTypeLine + TransferEncodingLine, Utf8(value));
      Utf8(head) + Utf8(value) + Utf8(CRLF);
      { Utf8Append(head, value); Utf8Append(head + value, CRLF); }
      Utf8(head + value + CRLF);
      { assert head + value + CRLF == fieldString; }
      Utf8(fieldString);
    }
  }

  /** `dataFormField`: each line, then the raw bytes, then CRLF, appended to the buffer in turn. */
  method DataFormField(boundary: string, name: string, data: Bytes, mimeType: string) returns (fieldData: Bytes)
    ensures fieldData == DataPart(boundary, name, data, mimeType)
  {
    fieldData := [];
    fieldData := fieldData + Utf8(DelimiterLine(boundary));
    fieldData := fieldData + Utf8(DispositionLine(name));
    fieldData := fieldData + Utf8(ContentTypeLine(mimeType));
    fieldData := fieldData + Utf8(CRLF);
    fieldData := fieldData + data;
    fieldData := fieldData + Utf8(CRLF);

    var a, b, c := DelimiterLine(boundary), DispositionLine(name), ContentTypeLine(mimeType);
    calc {
      DataPart(boundary, name, data, mimeType);
      BodyPart(boundary, b + c, data);
      Utf8(a + (b + c) + CRLF) + data + Utf8(CRLF);
      { AppendAssoc(a, b, c); }
      Utf8(a + b + c + CRLF) + data + Utf8(CRLF);
      { Utf8Append(a + b + c, CRLF); Utf8Append(a + b, c); Utf8Append(a, b); }
      Utf8(a) + Utf8(b) + Utf8(c) + Utf8(CRLF) + data + Utf8(CRLF);
    }
  }

  /** `makeFormBody`: a data field goes to `dataFormField`, a text field to `textFormField`. */
  method MakeFormBody(m: MultipartRequest) returns (body: Bytes)
    ensures body == FormBody(m)
    ensures m.multipartFormDataType.Form? ==> body == TextPart(m.boundary, m.multipartFormDataType.name, m.multipartFormDataType.value)
    ensures m.multipartFormDataType.Data? ==>
              body == DataPart(m.boundary, m.multipartFormDataType.name, m.multipartFormDataType.data, m.multipartFormDataType.mimeType)
  {
    match m.multipartFormDataType
    case Data(name, data, mimeType) =>
      body := DataFormField(m.boundary, name, data, mimeType);
    case Form(name, value) =>
      body := TextFormField(m.boundary, name, value);
  }

  /**
   * The layout of every part: it opens with the delimiter line, the content sits
   * contiguously right after the blank line that ends the headers, and the part
   * ends with CRLF straight after the content; no close delimiter is appended.
   */
  lemma {:induction false} BodyPartLayout(boundary: string, headerLines: string, content: Bytes)
    ensures var part, k := BodyPart(boundary, headerLines, content), |Utf8(DelimiterLine(boundary) + headerLines + CRLF)|;
            && |Utf8(DelimiterLine(boundary))| <= k
            && part[..|Utf8(DelimiterLine(boundary))|] == Utf8(DelimiterLine(boundary))
            && |part| == k + |content| + 2
            && part[k..k + |content|] == content
            && part[k + |content|..] == [13, 10]
  {
    Utf8Append(DelimiterLine(boundary), headerLines + CRLF);
    assert DelimiterLine(boundary) + headerLines + CRLF == DelimiterLine(boundary) + (headerLines + CRLF);
    Utf8Ascii(CRLF);
  }

  /** The delimiter line encodes as "--", the boundary's bytes and CRLF. */
  lemma DelimiterBytes(boundary: string)
    ensures Utf8(DelimiterLine(boundary)) == [45, 45] + Utf8(boundary) + [13, 10]
  {
    Utf8Append("--", boundary);
    Utf8Append("--" + boundary, CRLF);
    Utf8Ascii("--");
    Utf8Ascii(CRLF);
  }

  /** A data part carries the file's bytes verbatim right after the blank line, then CRLF. */
  lemma DataPayloadVerbatim(boundary: string, name: string, data: Bytes, mimeType: string)
    ensures var headerLines := DispositionLine(name) + ContentTypeLine(mimeType);
            var k := |Utf8(DelimiterLine(boundary) + headerLines + CRLF)|;
            var part := DataPart(boundary, name, data, mimeType);
            |part| == k + |data| + 2 && part[k..k + |data|] == data && part[k + |data|..] == [13, 10]
  {
    BodyPartLayout(boundary, DispositionLine(name) + ContentTypeLine(mimeType), data);
  }

  /** The field name is inserted verbatim between the quotes, whatever it contains (no escaping). */
  lemma NameUnescaped(name: string)
    ensures var line := DispositionLine(name);
            |line| == 41 + |name| && line[38..38 + |name|] == name && line[..38] == "Content-Disposition: form-data; name=\""
  {
  }
}
