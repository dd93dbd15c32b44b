# NetworkClient in Dafny

A model of the core of NetworkClient, a Swift networking library built on
`URLSession` and Combine, with proofs about that model. It covers:

- the error taxonomy: `NetworkCodes`/`NetworkErrorCode`, `NetworkErrorTitle`,
  `NetworkErrorMessage`, the fixed `NetworkError` values, HTTP status validation
  against the bundled error catalog, and the conversion of an `NSError`;
- request construction: the default `makeRequest` of `NetworkRequestProtocol`,
  header rendering, and the `multipart/form-data` body part
  (section 5.1.1 of RFC 2046, sections 4.1 and 4.2 of RFC 7578);
- SSL pinning: certificate pinning, and public-key pinning over the chain with
  the RSA-2048 SubjectPublicKeyInfo prefix (section 4.1.2.7 of RFC 5280);
- the session delegate: the authentication challenge, the download and upload
  callbacks, saving a download, and completion with an error;
- the `Network` orchestration: the data-task result pipeline with its logging,
  download and upload starts, and selecting the first matching task to
  suspend, resume or cancel;
- the async download path: the 64 KiB buffered byte writer with its progress
  counters, and the partial-write loop of `OutputStream.write(_:)`.

One Dafny module per source file. Helper modules:

- `Wrappers` holds `Option`/`Result`.
- `Bytes` holds `Data` as a byte sequence and the UTF-8 encoding used when a
  `String` is appended to `Data`.
- `Subjects` models `PassthroughSubject` as a log of what was sent, the events
  delivered and a `completed` flag. A send after completion is dropped.
- `Sessions` models the task list of `URLSession` as a sequence of
  (original request, kind, state).
- `OutputStreams` holds the partial-write loop.

State the source changes in place is kept in classes:

- the delegate's `saveToLocation` and its two subjects;
- the session's tasks;
- the logger's calls;
- the output stream's contents;
- the `Progress` counters.

Each method is proved against a specification function. Examples:
`MakeRequest` against `BuildRequest`, `RunPipeline` against `Pipeline`,
`WriteAll` against `WriteFrom`, and `ReceiveBytes`/`DownloadFor` against
`FullWrites`, `FlushSizes` and `FlushSnapshots`.

Platform behaviour is an input of the model:

- URL validity, JSON serialisation, reachability and the catalog load;
- SHA-256, base64 and trust evaluation;
- file-manager outcomes, resume data, and the byte counts a stream reports;
- Swift's bridging of a thrown error to `NSError`.

Where the source files disagree with one another, each is modelled as written:

- `Network.swift` and the `Network+Downloads.swift`/`Network+Uploads.swift`
  extensions both declare `download` and `upload`. The first pair resumes tasks
  with the background hints, the second with a plain resume.
- `uploadMultipart` in `Network.swift` runs the data pipeline and never attaches
  the form body. The extension's version starts an upload task whose body is the
  form body.
- `requestType` is assigned but never declared. It is a ghost field of the
  delegate.
- The delegate's pin check calls pinning functions with labels that
  `SSLPinning.swift` does not declare. It is modelled as a call to the two
  pinning decisions that file does declare.
- `NetworkSessionDelegate.swift` lines 152 and 197 pass `Constants.errorCode`,
  an `Int`, where a `NetworkCodes` is expected, which does not type-check. It
  is modelled as `some(-222)`.

## Model

| member | source | states |
|---|---|---|
| NetworkErrorCodes.FromValue | Sources/NetworkClient/Error/NetworkErrorCode.swift:15-26 | An integer is read back as a code whose `value` is that integer. The result is the custom case exactly when the integer is none of the seven table values. |
| NetworkErrorCodes.Value | Sources/NetworkClient/Error/NetworkErrorCode.swift:15-26 | A named case stands for one of the seven table values 0, -1, -2, -3, -111, -222, -333. |
| NetworkErrorCodes.NamedValues | Sources/NetworkClient/Error/NetworkErrorCode.swift:17-23 | The seven named cases map to 0, -1, -2, -3, -111, -222, -333, and these values are pairwise distinct. |
| NetworkErrorCodes.CustomValue | Sources/NetworkClient/Error/NetworkErrorCode.swift:24 | `some(n).value == n` for every integer n. |
| NetworkErrorCodes.NamedRoundTrip | Sources/NetworkClient/Error/NetworkErrorCode.swift:16-23 | Reading back a named case's value gives that case, so `value` is injective on the named cases. |
| NetworkErrorCodes.ValueNotInjective | Sources/NetworkClient/Error/NetworkErrorCode.swift:22-24 | Over the whole enum `value` is not injective: `some(-222)` and `downloadCode` are different cases with the same value. |
| NetworkErrorTitles.NamedTitlesDistinct | Sources/NetworkClient/Error/NetworkErrorTitle.swift:20-29 | The ten named titles are non-empty and pairwise distinct. |
| NetworkErrorTitles.Value | Sources/NetworkClient/Error/NetworkErrorTitle.swift:18-32 | Every named title has a non-empty display string. |
| NetworkErrorTitles.CustomTitle | Sources/NetworkClient/Error/NetworkErrorTitle.swift:30 | `some(t).value == t`. |
| NetworkErrorMessages.SharedMessage | Sources/NetworkClient/Error/NetworkErrorMessage.swift:14-17 | No-internet and bad-url render the same message, so `value` is not injective on the named cases. The unknown and codable-conversion messages differ from it and from each other. |
| NetworkErrorMessages.CustomMessage | Sources/NetworkClient/Error/NetworkErrorMessage.swift:18 | `some(s).value == s`. |
| NetworkErrorMessages.Value | Sources/NetworkClient/Error/NetworkErrorMessage.swift:12-20 | Every named message has a non-empty text. |
| NetworkErrors.Value | Sources/NetworkClient/Error/NetworkError.swift:15-26 | A named `NetworkCodes` case stands for one of the seven values of the named `NetworkErrorCode` cases. |
| NetworkErrors.AsErrorCode | Sources/NetworkClient/Error/NetworkError.swift:3-26 | The `NetworkErrorCode` case of the same name has the same value, and it is the custom case exactly when the code is. The two enums agree case by case. |
| NetworkErrors.CodeTable | Sources/NetworkClient/Error/NetworkError.swift:15-26 | The named `NetworkCodes` map to 0, -1, -2, -3, -111, -222, -333, and `some(n)` maps to n. |
| NetworkErrors.NoInternetError | Sources/NetworkClient/Error/NetworkError.swift:37-44 | The no-internet error has code value -1 and an empty user message. |
| NetworkErrors.BadUrlError | Sources/NetworkClient/Error/NetworkError.swift:46-53 | The bad-url error has code value -2 and an empty user message. |
| NetworkErrors.UnknownError | Sources/NetworkClient/Error/NetworkError.swift:55-62 | The unknown error has code value 0 and an empty diagnostic message. |
| NetworkErrors.ErrorInCodableConversion | Sources/NetworkClient/Error/NetworkError.swift:117-124 | The catalog-decoding error has code value -3 and an empty user message. |
| NetworkErrors.PreflightErrors | Sources/NetworkClient/Error/NetworkError.swift:37-53 | No-internet and bad-url share the diagnostic message but differ in title and code. |
| NetworkErrors.FirstWithStatus | Sources/NetworkClient/Error/NetworkError.swift:75 | `first(where:)` finds nothing exactly when no entry has the status. Otherwise it returns an entry with that status, and no earlier entry has it. |
| NetworkErrors.ValidateHTTPError | Sources/NetworkClient/Error/NetworkError.swift:64-80 | No response gives the unknown error. A 2xx status gives no error, whatever the catalog holds. An unreadable catalog gives the codable-conversion error. Any error found in the catalog carries the status as its code value. No error is returned exactly for 2xx, a missing catalog, or a status the catalog does not list. |
| NetworkErrors.CatalogStatusRoundTrip | Sources/NetworkClient/Error/NetworkError.swift:69-75 | A non-2xx status that the loaded catalog lists always comes back as an error carrying that status. |
| NetworkErrors.ConvertErrorToNetworkError | Sources/NetworkClient/Error/NetworkError.swift:82-98 | The conversion is total. The title is the domain. The code is `some(code)`, so its value is the error's code. The user message is the localized description. The diagnostic message is the failing-URL entry, or empty when there is none. |
| NetworkErrors.ConvertedCodeIsCustom | Sources/NetworkClient/Error/NetworkError.swift:94 | A converted code is always the custom case, even when its value equals a named code's (-222 is not `downloadCode`). |
| HTTPHeaderFields.NetworkHTTPHeaderField.Headers | Sources/NetworkClient/NetworkRequestParams/NetworkHTTPHeaderField.swift:6-11 | `headers` is exactly the stored dictionary. |
| HTTPHeaderFields.KeyDescription | Sources/NetworkClient/NetworkRequestParams/NetworkHTTPHeaderField.swift:28-39 | A named key never renders as an empty header name. |
| HTTPHeaderFields.ValueDescription | Sources/NetworkClient/NetworkRequestParams/NetworkHTTPHeaderField.swift:43-52 | A `json` or multipart value never renders as an empty header value. |
| HTTPHeaderFields.KeyNames | Sources/NetworkClient/NetworkRequestParams/NetworkHTTPHeaderField.swift:28-39 | The three named keys render as "Authorization", "Content-Type" and "Accept". `other(v)` renders as v. |
| HTTPHeaderFields.ValueNames | Sources/NetworkClient/NetworkRequestParams/NetworkHTTPHeaderField.swift:43-52 | `json` renders as "application/json" and `other(v)` renders as v. |
| HTTPHeaderFields.MultipartValueCarriesBoundary | Sources/NetworkClient/NetworkRequestParams/NetworkHTTPHeaderField.swift:47-48 | The multipart value is the fixed 30-character prefix "multipart/form-data; boundary=" followed by exactly the boundary. |
| HTTPHeaderFields.KeyRenderingCollides | Sources/NetworkClient/NetworkRequestParams/NetworkHTTPHeaderField.swift:32-37 | Key rendering is not injective: `other("Content-Type")` names the same header as `contentType`. |
| NetworkRequests.DefaultDescriptor | Sources/NetworkClient/NetworkProtocols/NetworkRequestProtocol.swift:13-23 | By default a descriptor has no header fields, no body parameters, no API key and no cache purge. |
| NetworkRequests.SetHeaders | Sources/NetworkClient/NetworkProtocols/NetworkRequestProtocol.swift:34-37 | After `setValue(_:forHTTPHeaderField:)` for each key in turn, every key's header is set. Headers are identified by their name with ASCII case folded, as `URLRequest` compares them. |
| NetworkRequests.SetHeadersNames | Sources/NetworkClient/NetworkProtocols/NetworkRequestProtocol.swift:34-37 | After the `forEach`, the headers set are exactly the keys' rendered names, compared without regard to case. |
| NetworkRequests.SetHeadersValue | Sources/NetworkClient/NetworkProtocols/NetworkRequestProtocol.swift:34-37 | A header that no later key names (ignoring case) carries its own key's rendered value. When two keys name the same header, even in different case, the one enumerated last wins. |
| NetworkRequests.CaseInsensitiveOverride | Sources/NetworkClient/NetworkProtocols/NetworkRequestProtocol.swift:34-37 | `contentType` followed by `other("content-type")` sets one Content-Type header, holding the later key's value. |
| NetworkRequests.MakeBody | Sources/NetworkClient/NetworkProtocols/NetworkRequestProtocol.swift:64-76 | No parameters gives no body. Otherwise the body is the serialised bytes, or the serialiser's error rethrown unchanged. |
| NetworkRequests.ManageInternetConnectivity | Sources/NetworkClient/NetworkProtocols/NetworkRequestProtocol.swift:54-60 | The no-internet error is returned exactly when the network is unreachable. |
| NetworkRequests.ClearCacheForRequest | Sources/NetworkClient/NetworkProtocols/NetworkRequestProtocol.swift:78-82 | The cached response is purged exactly when `clearCache` is true. |
| NetworkRequests.BuildRequest | Sources/NetworkClient/NetworkProtocols/NetworkRequestProtocol.swift:25-52 | A missing or invalid URL throws bad-url first and purges nothing. A serialisation error is rethrown unchanged, before the cache purge and the reachability check. No-internet is thrown only after the URL and the body have succeeded. The build succeeds exactly when the URL is valid, the body serialises and the network is reachable. A built request carries the URL, the raw method, the rendered headers and the body. The cache is purged exactly when asked for, once the URL and body have succeeded. |
| NetworkRequests.MakeRequest | Sources/NetworkClient/NetworkProtocols/NetworkRequestProtocol.swift:25-52 | The step-by-step build (method, header loop, body, cache, reachability) gives exactly `BuildRequest`'s result and cache purge. |
| NetworkRequests.DefaultsBuildBareRequest | Sources/NetworkClient/NetworkProtocols/NetworkRequestProtocol.swift:13-52 | With every default and a reachable network, a valid URL builds a request with no headers, no body and no cache purge. |
| NetworkRequests.BuiltHeaders | Sources/NetworkClient/NetworkProtocols/NetworkRequestProtocol.swift:34-37 | In a built request, no header fields give no headers. Every key's header is set, and every header set is some key's, with names compared without regard to case. A header that only one key names carries that key's value. |
| MultipartForms.TextFormField | Sources/NetworkClient/NetworkProtocols/NetworkMultipartUploadRequestProtocol.swift:30-43 | The text grown by `+=` and appended as UTF-8 is exactly the text part: the delimiter line, the quoted-name disposition, the text/plain ISO-8859-1 and 8bit lines, a blank line, then value and CRLF. |
| MultipartForms.DataFormField | Sources/NetworkClient/NetworkProtocols/NetworkMultipartUploadRequestProtocol.swift:45-58 | The bytes appended in turn are exactly the data part: the delimiter line, the disposition line, `Content-Type: mimeType`, a blank line, the raw data, then CRLF. |
| MultipartForms.MakeFormBody | Sources/NetworkClient/NetworkProtocols/NetworkMultipartUploadRequestProtocol.swift:15-26 | `.data` is dispatched to the data part and `.form` to the text part. |
| MultipartForms.BodyPartLayout | Sources/NetworkClient/NetworkProtocols/NetworkMultipartUploadRequestProtocol.swift:35-56 | Every part opens with the dash-boundary delimiter line. The content sits contiguously right after the blank line. The part ends with CRLF straight after the content, with no close delimiter. |
| MultipartForms.DelimiterBytes | Sources/NetworkClient/NetworkProtocols/NetworkMultipartUploadRequestProtocol.swift:35 | The delimiter line encodes as "--", the boundary's bytes, then CR LF. |
| MultipartForms.DataPayloadVerbatim | Sources/NetworkClient/NetworkProtocols/NetworkMultipartUploadRequestProtocol.swift:51-56 | A data part carries the file's bytes verbatim right after the header block, followed only by CR LF. |
| MultipartForms.NameUnescaped | Sources/NetworkClient/NetworkProtocols/NetworkMultipartUploadRequestProtocol.swift:36 | The field name is inserted verbatim between the quotes, with no escaping. |
| MultipartForms.BodyPart | Sources/NetworkClient/NetworkProtocols/NetworkMultipartUploadRequestProtocol.swift:35-40 | The encapsulation both fields share: the delimiter line, the header lines, a blank line, the content, then CRLF. Its layout is stated by `BodyPartLayout`. |
| MultipartForms.TextPart | Sources/NetworkClient/NetworkProtocols/NetworkMultipartUploadRequestProtocol.swift:30-43 | The text field's part: the disposition, text/plain and 8bit header lines around the value's UTF-8 bytes. `TextFormField` is proved equal to it. |
| MultipartForms.DataPart | Sources/NetworkClient/NetworkProtocols/NetworkMultipartUploadRequestProtocol.swift:45-58 | The data field's part: the disposition and `Content-Type` lines around the raw bytes. `DataFormField` is proved equal to it, and `DataPayloadVerbatim` states where the bytes sit. |
| MultipartForms.FormBody | Sources/NetworkClient/NetworkProtocols/NetworkMultipartUploadRequestProtocol.swift:15-26 | The body of a multipart request: the data part for `.data`, the text part for `.form`. `MakeFormBody` is proved equal to it. |
| SslPinning.HeaderLengths | Sources/NetworkClient/Network/SSLPinning.swift:64-67 | The header is 24 bytes. Its two DER lengths describe the bytes that follow exactly when the key is 270 bytes long (a PKCS #1 RSA-2048 key). |
| SslPinning.CertificatePinned | Sources/NetworkClient/Network/SSLPinning.swift:10-23 | Pinned exactly when the chain has a leaf, the trust evaluates, and the leaf's bytes equal the local certificate's bytes. |
| SslPinning.OneByteFlips | Sources/NetworkClient/Network/SSLPinning.swift:18-22 | Changing any byte of a pinned local certificate makes the same trust fail. |
| SslPinning.HashInput | Sources/NetworkClient/Network/SSLPinning.swift:55-56 | The hashed input is the 24-byte header followed by the raw key bytes. |
| SslPinning.Hash | Sources/NetworkClient/Network/SSLPinning.swift:54-62 | The key hash is base64 of SHA-256 of the header followed by the key. |
| SslPinning.MatchesAt | Sources/NetworkClient/Network/SSLPinning.swift:37-50 | The specification of a pinning match at index i: certificates 0 to i all yield a key, and the hash of certificate i's key is listed. `PublicKeyPinned` is proved against it. |
| SslPinning.PublicKeyPinned | Sources/NetworkClient/Network/SSLPinning.swift:25-52 | The early-exit scan returns true exactly when some index has a listed key hash and every certificate up to it has an extractable key. |
| SslPinning.NothingToMatch | Sources/NetworkClient/Network/SSLPinning.swift:38-51 | An empty chain or an empty hash list never pins. |
| SslPinning.MissingKeyBlocksLaterMatch | Sources/NetworkClient/Network/SSLPinning.swift:40-44 | A certificate without a key, met before any match, rejects the chain even if a later key is listed. |
| Subjects.Observe | Sources/NetworkClient/Network/NetworkSessionDelegate.swift:10-11 | What a subscriber observes is a prefix of what was sent. Only its last event may be a completion, and it falls short of the sends only after a completion. |
| Subjects.ObserveValues | Sources/NetworkClient/Network/NetworkSessionDelegate.swift:10-11 | A log of values only is observed whole. |
| Subjects.ObserveStopsAtCompletion | Sources/NetworkClient/Network/NetworkSessionDelegate.swift:89-111 | Once a shared subject has completed (line 107), nothing sent later is observed. |
| Subjects.Subject.constructor | Sources/NetworkClient/Network/NetworkSessionDelegate.swift:10-11 | A new subject has sent nothing and is not completed. |
| Subjects.Subject.Send | Sources/NetworkClient/Network/NetworkSessionDelegate.swift:106 | `send(_:)` logs the value. It is delivered unless the subject has completed. |
| Subjects.Subject.SendCompletion | Sources/NetworkClient/Network/NetworkSessionDelegate.swift:107 | `send(completion:)` logs the completion. It is delivered unless the subject has already completed, and the subject is then completed. |
| Sessions.Filter | Sources/NetworkClient/Network/Network+SessionTask.swift:10-11 | `filter` keeps only tasks that satisfy the predicate, and keeps every one that does. From ascending indices it gives ascending indices, so the kept tasks stay in order. |
| Sessions.FilterFilter | Sources/NetworkClient/Network/Network+SessionTask.swift:10-11 | Filtering by state and then by request is filtering once by both. |
| Sessions.FirstWhere | Sources/NetworkClient/Network/Network+SessionTask.swift:9-11 | A selected task satisfies both predicates. |
| Sessions.FirstWhereIsFirstMatch | Sources/NetworkClient/Network/Network+SessionTask.swift:9-11 | Nothing is selected exactly when no task satisfies both predicates. Otherwise the selected task is the first that does. |
| Sessions.Apply | Sources/NetworkClient/Network/Network+SessionTask.swift:12 | Only the selected task, if any, changes, and only its state. |
| Sessions.ActsOnFirstMatchOnly | Sources/NetworkClient/Network/Network+SessionTask.swift:9-12 | At most one task changes: the first that satisfies both predicates, which moves to the new state. Nothing changes when no task matches. |
| Sessions.CancelOutstanding | Sources/NetworkClient/Network/Network.swift:246-248 | After `invalidateAndCancel` no task is running or suspended. Finished tasks are untouched, and only states change. |
| Sessions.URLSession.constructor | Sources/NetworkClient/Extensions/URLSession+Extensions.swift:5-11 | A new session has no tasks, has not been flushed and is not invalidated. |
| Sessions.URLSession.StartTask | Sources/NetworkClient/Extensions/URLSessionTask+Extensions.swift:4-9 | Exactly one running task is appended, carrying the scheduling hints (one hour ahead, 200 bytes out, 500 KiB in) when resumed as a background task. |
| Sessions.URLSession.Transition | Sources/NetworkClient/Network/Network+SessionTask.swift:12 | `suspend`/`resume`/`cancel` on the selected task gives `Apply` of the old task list. |
| Sessions.URLSession.Flush | Sources/NetworkClient/Network/Network+SessionTask.swift:39 | `flush` changes no task. |
| Sessions.URLSession.InvalidateAndCancel | Sources/NetworkClient/Network/Network.swift:247 | The task list becomes `CancelOutstanding` of the old one, and the session is invalidated. |
| Loggers.NetworkLogger.constructor | Sources/NetworkClient/Logger/NetworkLogger.swift:35-43 | A new logger has received no calls. |
| Loggers.NetworkLogger.LogRequest | Sources/NetworkClient/Logger/NetworkLogger.swift:45-66 | Each call is recorded, in order, with its URL, error, level and privacy. |
| SessionDelegates.DownloadFailedError | Sources/NetworkClient/Network/NetworkSessionDelegate.swift:150-155 | The logged error has title "Download failed", code -222 and an empty user message. |
| SessionDelegates.DownloadToLocationError | Sources/NetworkClient/Network/NetworkSessionDelegate.swift:195-200 | The save failure has title "Download To Location", code -222, the file error's description and the fixed user message. |
| SessionDelegates.Save | Sources/NetworkClient/Network/NetworkSessionDelegate.swift:184-202 | The file operations of `save(to:downloadedUrl:)` and the error that stops them: remove the destination if a file is there, then copy. Its order is stated by `SaveOrder`. |
| SessionDelegates.SaveOrder | Sources/NetworkClient/Network/NetworkSessionDelegate.swift:184-202 | The destination is removed exactly when a file is there, and first. The copy is made unless that removal failed. The save succeeds exactly when the copy was the last step and did not fail; otherwise the first error is reported. |
| SessionDelegates.NetworkSessionDelegate.constructor | Sources/NetworkClient/Network/NetworkSessionDelegate.swift:16-24 | A new delegate keeps the pinning and logger, has two fresh empty subjects and no save location. |
| SessionDelegates.NetworkSessionDelegate.DidReceiveChallenge | Sources/NetworkClient/Network/NetworkSessionDelegate.swift:28-85 | Without pinning, the reply is use-credential with the trust, whatever the method; a nil trust traps. With pinning, a non-server-trust method or a missing trust is cancelled with no credential. A trust that fails evaluation is never answered. Otherwise the reply is use-credential with the trust exactly when the pin check accepts, and cancel with no credential when it does not. |
| SessionDelegates.NetworkSessionDelegate.DidWriteData | Sources/NetworkClient/Network/NetworkSessionDelegate.swift:89-98 | Exactly one progress event, with the written and expected byte counts, is sent on the download subject. |
| SessionDelegates.NetworkSessionDelegate.DidFinishDownloadingTo | Sources/NetworkClient/Network/NetworkSessionDelegate.swift:100-111 | With no save location, the delegate sends `response(location)` and then `finished`, and touches no file. With one, it performs the save's file operations and sends only a file error, as a failure. |
| SessionDelegates.NetworkSessionDelegate.SaveTo | Sources/NetworkClient/Network/NetworkSessionDelegate.swift:184-202 | The file operations are those of `Save`. A failure is sent exactly when the save reports an error; success sends nothing. |
| SessionDelegates.NetworkSessionDelegate.DidSendBodyData | Sources/NetworkClient/Network/NetworkSessionDelegate.swift:115-124 | Exactly one progress event, with the sent and expected byte counts, is sent on the upload subject. |
| SessionDelegates.NetworkSessionDelegate.DidReceiveData | Sources/NetworkClient/Network/NetworkSessionDelegate.swift:126-133 | `response(data)` and then `finished` are sent on the upload subject. |
| SessionDelegates.NetworkSessionDelegate.DidCompleteWithError | Sources/NetworkClient/Network/NetworkSessionDelegate.swift:137-166 | A nil error or a missing URL changes nothing. Otherwise: the fixed -222 error is logged once; the converted error is sent as a failure on the download subject, even for uploads; and one resumed download is started exactly when there is resume data. |
| SessionDelegates.NetworkSessionDelegate.LogDownloadFailed | Sources/NetworkClient/Network/NetworkSessionDelegate.swift:147-159 | With a logger, exactly one error-level, encrypted call with the fixed error is logged. |
| Networks.ThrownAsNSError | Sources/NetworkClient/Network/Network.swift:132-133 | A serialisation error is caught as is. A thrown `NetworkError` is caught as its bridged `NSError`. |
| Networks.TryMap | Sources/NetworkClient/Network/Network.swift:141-156 | The data passes exactly when it was delivered and validation finds no error, and it passes unchanged. A transport error passes on as it is. A logger call is made exactly when there is a logger and validation failed, and it logs that error. |
| Networks.MapError | Sources/NetworkClient/Network/Network.swift:157-171 | Data passes unchanged. A transport error becomes its converted `NetworkError`. A validation error is kept as it is and, with a logger, logged again. |
| Networks.Pipeline | Sources/NetworkClient/Network/Network.swift:138-174 | A response that passes validation delivers the data unchanged and logs nothing. A validation error reaches the caller as that same error and, with a logger, is logged exactly twice. A transport failure is converted and never logged. The result is a success exactly when the response passes validation. |
| Networks.TransportErrorKeepsCode | Sources/NetworkClient/Network/Network.swift:157-160 | A transport error is always a failure whose code value is the error's own code, and it is not logged. |
| Networks.StatusDecidesDelivery | Sources/NetworkClient/Network/Network.swift:141-144 | A 2xx response delivers the data whatever the catalog holds. A missing response is the unknown error. |
| Networks.UploadKind | Sources/NetworkClient/Network/Network.swift:208-219 | `.data` starts a from-data task with that data, and `.url` starts a from-file task with that URL. |
| Networks.SerializationErrorSurfaces | Sources/NetworkClient/Network/Network.swift:132-133 | A serialisation error reaches the caller with its own domain, code and description. |
| Networks.CancelTaskWithUrlSelects | Sources/NetworkClient/Network/Network.swift:250-257 | `cancelTaskWithUrl` cancels at most one task, a running one whose original request has that URL. Nothing changes when none matches. |
| Networks.Network.constructor | Sources/NetworkClient/Network/Network.swift:34-118 | One delegate with the given pinning and logger, one fresh session with no tasks, and the same logger on both. |
| Networks.Network.RunPipeline | Sources/NetworkClient/Network/Network.swift:138-174 | The result is `Pipeline`'s result, and the logger receives exactly `Pipeline`'s calls. |
| Networks.Network.Request | Sources/NetworkClient/Network/Network.swift:124-136 | A build failure is an immediate failure carrying the converted error, with no transport call and nothing logged. Otherwise the result and the log are the pipeline's. |
| Networks.Network.Download | Sources/NetworkClient/Network/Network.swift:180-195 | A build failure returns a fresh subject that has failed with the converted error, and leaves the delegate and the session untouched. Otherwise the request type is set to download and the save location to the request's, one download task with the background hints is started, and the shared download subject is returned. |
| Networks.Network.Upload | Sources/NetworkClient/Network/Network.swift:201-227 | A build failure returns a fresh failed subject and changes nothing. Otherwise the request type is set to upload, one from-data or from-file task (by the file's case) is started, and the shared upload subject is returned. |
| Networks.Network.UploadMultipart | Sources/NetworkClient/Network/Network.swift:229-240 | It behaves as `Request` on the multipart descriptor: the data pipeline, with no upload task. |
| Networks.Network.CancelAllTasks | Sources/NetworkClient/Network/Network.swift:246-248 | Every running or suspended task is cancelled and the session is invalidated. |
| Networks.Network.CancelTaskWithUrl | Sources/NetworkClient/Network/Network.swift:250-257 | The tasks become `Apply` of the first running task with that URL, moved to cancelling. |
| NetworkDownloads.Download | Sources/NetworkClient/Network/Network+Downloads.swift:7-22 | A build failure returns a fresh failed subject and leaves the delegate fields and the tasks untouched. Otherwise the request type is download, the save location is overwritten with the request's (possibly nil), exactly one download task is started, and the shared download subject is returned. |
| NetworkUploads.Upload | Sources/NetworkClient/Network/Network+Uploads.swift:7-33 | A build failure returns a fresh failed subject and leaves the request type and the tasks untouched. Otherwise the request type is upload, one from-data or from-file task is started, and the shared upload subject is returned. The save location never changes. |
| NetworkUploads.UploadMultipart | Sources/NetworkClient/Network/Network+Uploads.swift:35-49 | A build failure returns a fresh failed subject and changes nothing. Otherwise the request type is upload, one upload task whose body is exactly the form body is started, and the shared upload subject is returned. |
| NetworkSessionTasks.Suspend | Sources/NetworkClient/Network/Network+SessionTask.swift:7-14 | The first running task with this original request is suspended, and no other task changes. |
| NetworkSessionTasks.Resume | Sources/NetworkClient/Network/Network+SessionTask.swift:16-23 | The first suspended task with this original request runs again, and no other task changes. |
| NetworkSessionTasks.Cancel | Sources/NetworkClient/Network/Network+SessionTask.swift:25-32 | The first running task with this original request is cancelled, and no other task changes. |
| NetworkSessionTasks.CancelAllRequests | Sources/NetworkClient/Network/Network+SessionTask.swift:38-42 | The session is flushed once, and no task changes state. |
| NetworkSessionTasks.ChangesFirstMatchingTaskOnly | Sources/NetworkClient/Network/Network+SessionTask.swift:7-32 | Suspend, resume and cancel change at most one task: the first in the required state with that original request. Every other task keeps its state, and nothing changes without a match. |
| OutputStreams.WriteFrom | Sources/NetworkClient/Network/AsyncNetwork+Downloads.swift:108-118 | The corrected partial-write loop never goes past the data. It succeeds exactly when every byte was taken, and its only failure is `writeFailure`. |
| OutputStreams.FailureIsAStall | Sources/NetworkClient/Network/AsyncNetwork+Downloads.swift:110-114 | A failed write ends at a call that took nothing or reported an error. |
| OutputStreams.StreamWrite | Sources/NetworkClient/Network/AsyncNetwork+Downloads.swift:102-120 | No base address fails at once with `bufferFailure` and writes nothing. A write that does not fail takes the whole buffer. |
| OutputStreams.NeverStallsWritesAll | Sources/NetworkClient/Network/AsyncNetwork+Downloads.swift:110-118 | A stream that always takes at least one byte takes the whole buffer. |
| OutputStreams.FullStreamFails | Sources/NetworkClient/Network/AsyncNetwork+Downloads.swift:110-114 | In the corrected loop, a stream that takes nothing fails after one call, having written nothing. |
| OutputStreams.AsWrittenRun | Sources/NetworkClient/Network/AsyncNetwork+Downloads.swift:108-118 | The loop as written, run for a bounded number of passes: only a negative count throws, and the call count never decreases. |
| OutputStreams.ZeroWriteSpins | Sources/NetworkClient/Network/AsyncNetwork+Downloads.swift:110-118 | As written, a stream that keeps taking nothing keeps the loop going for any number of passes. Nothing is written or thrown, and the loop guard still holds. |
| OutputStreams.AsWrittenAgrees | Sources/NetworkClient/Network/AsyncNetwork+Downloads.swift:108-118 | On a stream that never answers 0, the loop as written and the corrected loop agree: the same bytes written, the same calls, and a throw exactly when the corrected loop fails. |
| OutputStreams.OutputStream.constructor | Sources/NetworkClient/Network/AsyncNetwork+Downloads.swift:56-59 | An opened stream has empty contents and has made no calls. |
| OutputStreams.OutputStream.WriteBytes | Sources/NetworkClient/Network/AsyncNetwork+Downloads.swift:111 | One `write(_:maxLength:)` call: the stream's count is returned, and exactly that many bytes from the pointer are appended. |
| OutputStreams.OutputStream.Write | Sources/NetworkClient/Network/AsyncNetwork+Downloads.swift:102-120 | The outcome, the call count and the appended bytes are those of `StreamWrite`, with the corrected loop. |
| OutputStreams.OutputStream.WriteAll | Sources/NetworkClient/Network/AsyncNetwork+Downloads.swift:108-118 | The corrected loop: its outcome and call count are those of `WriteFrom`, and the file grows by exactly the accepted prefix of the data. |
| AsyncDownloads.Progress.constructor | Sources/NetworkClient/Network/AsyncNetwork+Downloads.swift:44 | A new progress has zero total and zero completed units. |
| AsyncDownloads.InitialTotal | Sources/NetworkClient/Network/AsyncNetwork+Downloads.swift:51-52 | The initial total is the expected length when positive, otherwise 1,000,000. It is always positive. |
| AsyncDownloads.TotalAfterFlush | Sources/NetworkClient/Network/AsyncNetwork+Downloads.swift:80-82 | When the length is unknown or exceeded, the total is bumped to the count plus 1,000,000; otherwise it stays the expected length. It is never below the count. |
| AsyncDownloads.RecordFlush | Sources/NetworkClient/Network/AsyncNetwork+Downloads.swift:80-83 | After a flush the total is `TotalAfterFlush` and the completed count is the bytes counted so far. |
| AsyncDownloads.FullWrites | Sources/NetworkClient/Network/AsyncNetwork+Downloads.swift:76-78 | One entry per in-loop flush. |
| AsyncDownloads.FullWritesAreFull | Sources/NetworkClient/Network/AsyncNetwork+Downloads.swift:76-78 | Every in-loop flush writes exactly 65536 bytes, and together they write n × 65536. |
| AsyncDownloads.FlushSizes | Sources/NetworkClient/Network/AsyncNetwork+Downloads.swift:76-90 | A download of `total` bytes makes ⌈total / 65536⌉ writes. |
| AsyncDownloads.FlushSizesShape | Sources/NetworkClient/Network/AsyncNetwork+Downloads.swift:69-90 | Full 65536-byte writes come first. A trailing write follows only if bytes remain, and then has 1 to 65535 bytes. The sizes add up to the bytes received. |
| AsyncDownloads.FlushSnapshots | Sources/NetworkClient/Network/AsyncNetwork+Downloads.swift:80-83 | One progress snapshot per in-loop flush. |
| AsyncDownloads.SnapshotsComplete | Sources/NetworkClient/Network/AsyncNetwork+Downloads.swift:80-83 | After the j-th flush, the completed count is (j+1) × 65536, the total is `TotalAfterFlush` of it, and completed never exceeds total. |
| AsyncDownloads.FlushBuffer | Sources/NetworkClient/Network/AsyncNetwork+Downloads.swift:76-85 | A successful flush appends the whole buffer to the file and records the progress at the count. A failure is possible only when the stream can stall. |
| AsyncDownloads.ReceiveBytes | Sources/NetworkClient/Network/AsyncNetwork+Downloads.swift:68-86 | An interruption inside the bytes fails with its error. Otherwise, with a stream that never stalls, the loop succeeds. On success: the count is the bytes received; the file followed by the buffer is exactly the bytes, in order; the buffer holds the remainder after whole buffers; and the writes and progress snapshots are those of each full flush. |
| AsyncDownloads.DownloadFor | Sources/NetworkClient/Network/AsyncNetwork+Downloads.swift:43-98 | A connection error, a file that cannot be opened, or an interruption each end in failure. With a stream that never stalls, an interruption fails with the connection's own error. With a stream that never stalls and no interruption, the download succeeds. On success: the file holds exactly the received bytes in order; total and completed both equal the count; the writes are `FlushSizes` of the length; and the progress after each flush is `FlushSnapshots`. |
| AsyncDownloads.DownloadErrorAsNSError | Sources/NetworkClient/Network/AsyncNetwork+Downloads.swift:25 | A connection error is caught as it is, and the stream and file errors as their bridged `NSError`. |
| AsyncDownloads.Download | Sources/NetworkClient/Network/AsyncNetwork+Downloads.swift:8-30 | Any error (build, byte download or move) returns a fresh subject that has failed with the converted error. On success the destination is removed and the download moved there, and the shared download subject is returned. A nil destination traps. |

## Left out

- Float progress percentages (`NetworkSessionDelegate.swift` lines 96 and 122) are floating point. Progress events carry the two byte counts instead. Dividing by a zero or unknown expected total is unguarded in the source, and the model does not capture it.
- Combine scheduling (`receive(on:)`, `eraseToAnyPublisher`, the `[weak self]` captures) is left out. The pipeline is modelled for the one outcome the data task delivers. The `Subject` behaviour of dropping sends after completion is assumed of `PassthroughSubject`, whose code is not part of this model.
- Session configuration (`default`/`background`) and `urlSessionDidFinishEvents` are left out. The backgroundSession call in `Network.swift` passes an `identifier` that `URLSession+Extensions.swift` does not accept. The model's constructor builds one plain session.
- The `Progress` parent/child tree (`addChild`) and `reserveCapacity` are left out. Neither changes what is written or counted.
- `debugPrint` output is left out, and so is the logger's `os.Logger` formatting and privacy masking. The logger is its log of calls.
- `Task.checkCancellation` and errors thrown by the byte sequence are one input, an `Interruption` at a byte position.
- The `SecPolicyCreateSSL` domain policy in public-key pinning is left out. It only installs a policy that the decision never evaluates.
- A resumed download's `originalRequest` is modelled as absent.
- The stream's `write(_:maxLength:)` is assumed never to report more bytes than it was offered (`WithinMaxLength`). That is its documented contract, and the source relies on it.
- Swift's bridging of a thrown `NetworkError`, `OutputStreamError` or `URLError` to `NSError` is a function parameter. Its result is not defined here.
- `resumeTask()` and `NetworkRequestMethod` are declared nowhere in the repository. `resumeTask()` is a plain resume, and the method is its raw string.
- `NSMutableData.append(String)` is not declared in the repository. It is taken to append the UTF-8 bytes.
- URL validity (`URL.isValid`), JSON serialisation and decoding, the bundled catalog load, file-manager operations and the temporary file name are inputs. The catalog load is missing, malformed or a list.
- Left out as thin wrappers or coordination code: WebSocket support; `serialRequests` and the duplicate pipeline in `Network+Requests.swift`; `AsyncNetwork.swift` and `AsyncNetwork+Requests.swift`; reachability monitoring; the pure protocol files; and the platform configuration extensions.
- OutputStreams.OutputStream.WriteAll: runs the corrected loop of the finding below, where a count of 0 fails the write. The loop as written calls again on 0, so a stream that answers 0 once and then takes everything succeeds in the source but fails here. The loop as written need not end, so it is not a method here. It is `AsWrittenRun`, and `AsWrittenAgrees` proves the two loops agree on every stream that never answers 0.
- OutputStreams.OutputStream.Write: inherits the corrected loop from `WriteAll`.
- AsyncDownloads.FlushBuffer: inherits the corrected loop, so a stream that answers 0 and then recovers fails the flush here.
- AsyncDownloads.ReceiveBytes: inherits the corrected loop through `FlushBuffer`.
- AsyncDownloads.DownloadFor: inherits the corrected loop, so a stream that answers 0 and then recovers ends in `StreamFailed` here.
- NetworkRequests.SetHeaders: header names are folded for ASCII letters only. Which spelling `URLRequest` keeps for a header set twice in different case is not modelled: the map is keyed on the folded name.
- `getAllTasks` (`Network+SessionTask.swift` line 8, `Network.swift` line 251) is taken to report tasks in the order they were started, and to run its callback at once, before anything else changes the session. Foundation documents neither. "First" in `Suspend`, `Resume`, `Cancel` and `CancelTaskWithUrl` rests on that order.

## Findings

| source | as written | input that shows it | evidently intended | confidence | as-written member | corrected member |
|---|---|---|---|---|---|---|
| Sources/NetworkClient/Network/AsyncNetwork+Downloads.swift:110-118 | Only `bytesWritten < 0` throws. A count of 0 leaves `bytesRemaining` and `pointer` unchanged, and the loop runs again. | An output stream whose `write(_:maxLength:)` keeps returning 0 (a fixed-length stream at capacity) while a non-empty buffer is being written: the loop never ends. | A count of zero or less ends the write with `writeFailure`. | not executed | OutputStreams.ZeroWriteSpins | OutputStreams.FullStreamFails |
