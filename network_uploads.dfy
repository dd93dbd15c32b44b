/**
 * The `upload(with:receive:)` and `uploadMultipart(with:receive:)` extension of
 * `Network`: both start an upload task with a plain resume and hand back the
 * shared upload subject.
 */
module NetworkUploads {
  import opened Wrappers
  import opened Bytes
  import opened HTTPHeaderFields
  import opened NetworkErrors
  import opened NetworkRequests
  import opened Subjects
  import opened Sessions
  import opened SessionDelegates
  import opened Networks
  import opened MultipartForms

  /** One upload task from the data or from the file, after setting the request type. */
  method Upload(network: Network, r: UploadRequest, order: seq<NetworkHTTPHeaderKey>, isInternetReachable: bool,
                bridge: NetworkError -> NSError)
    returns (subject: Subject<UploadNetworkResponse>)
    requires network.Valid() && EnumeratesKeys(order, r.request.httpHeaderFields)
    modifies network.delegate, network.session
    ensures network.Valid()
    ensures var built := BuildRequest(r.request, order, isInternetReachable);
            && (built.result.Failure? ==>
                  && fresh(subject) && subject.Valid()
                  && subject.sent == [End(Failed(ConvertErrorToNetworkError(ThrownAsNSError(built.result.error, bridge))))]
                  && network.delegate.requestType == old(network.delegate.requestType)
                  && network.session.tasks == old(network.session.tasks))
            && (built.result.Success? ==>
                  && subject == network.delegate.uploadProgressSubject
                  && network.delegate.requestType == Some(RequestType.Upload)
                  && network.session.tasks == old(network.session.tasks) + [SessionTask(Some(built.result.value), UploadKind(r.uploadFile), Running, None)])
    ensures network.delegate.saveToLocation == old(network.delegate.saveToLocation)
    ensures network.session.flushes == old(network.session.flushes) && network.session.invalidated == old(network.session.invalidated)
  {
    var uploadRequest, _ := MakeRequest(r.request, order, isInternetReachable);
    if uploadRequest.Failure? {
      var failure := new Subject<UploadNetworkResponse>();
      failure.SendCompletion(Failed(ConvertErrorToNetworkError(ThrownAsNSError(uploadRequest.error, bridge))));
      return failure;
    }
    network.delegate.requestType := Some(RequestType.Upload);
    match r.uploadFile {
      case FromData(data) =>
        network.session.StartTask(Some(uploadRequest.value), UploadFromData(data), None);
      case FromUrl(url) =>
        network.session.StartTask(Some(uploadRequest.value), UploadFromFile(url), None);
    }
    return network.delegate.uploadProgressSubject;
  }

  /** One upload task whose body is exactly the multipart form body, after setting the request type. */
  method UploadMultipart(network: Network, m: MultipartRequest, order: seq<NetworkHTTPHeaderKey>, isInternetReachable: bool,
                         bridge: NetworkError -> NSError)
    returns (subject: Subject<UploadNetworkResponse>)
    requires network.Valid() && EnumeratesKeys(order, m.request.httpHeaderFields)
    modifies network.delegate, network.session
    ensures network.Valid()
    ensures var built := BuildRequest(m.request, order, isInternetReachable);
            && (built.result.Failure? ==>
                  && fresh(subject) && subject.Valid()
                  && subject.sent == [End(Failed(ConvertErrorToNetworkError(ThrownAsNSError(built.result.error, bridge))))]
                  && network.delegate.requestType == old(network.delegate.requestType)
                  && network.session.tasks == old(network.session.tasks))
            && (built.result.Success? ==>
                  && subject == network.delegate.uploadProgressSubject
                  && network.delegate.requestType == Some(RequestType.Upload)
                  && network.session.tasks == old(network.session.tasks) + [SessionTask(Some(built.result.value), UploadFromData(FormBody(m)), Running, None)])
    ensures network.delegate.saveToLocation == old(network.delegate.saveToLocation)
    ensures network.session.flushes == old(network.session.flushes) && network.session.invalidated == old(network.session.invalidated)
  {
    var multipartRequest, _ := MakeRequest(m.request, order, isInternetReachable);
    if multipartRequest.Failure? {
      var failure := new Subject<UploadNetworkResponse>();
      failure.SendCompletion(Failed(ConvertErrorToNetworkError(ThrownAsNSError(multipartRequest.error, bridge))));
      return failure;
    }
    network.delegate.requestType := Some(RequestType.Upload);
    var body := MakeFormBody(m);
    network.session.StartTask(Some(multipartRequest.value), UploadFromData(body), None);
    return network.delegate.uploadProgressSubject;
  }
}
