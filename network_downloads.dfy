/**
 * The `download(for:receive:)` extension of `Network`: like the one declared
 * with the class, but the task is started with a plain resume.
 */
module NetworkDownloads {
  import opened Wrappers
  import opened HTTPHeaderFields
  import opened NetworkErrors
  import opened NetworkRequests
  import opened Subjects
  import opened Sessions
  import opened SessionDelegates
  import opened Networks

  /**
   * Set the request type and the save location (overwriting any earlier one,
   * possibly with none), start one download task, and hand back the shared
   * download subject; a build failure returns a new, already failed subject
   * and touches neither the delegate nor the session.
   */
  method Download(network: Network, r: DownloadRequest, order: seq<NetworkHTTPHeaderKey>, isInternetReachable: bool,
                  bridge: NetworkError -> NSError)
    returns (subject: Subject<NetworkDownloadResponse>)
    requires network.Valid() && EnumeratesKeys(order, r.request.httpHeaderFields)
    modifies network.delegate, network.session
    ensures network.Valid()
    ensures var built := BuildRequest(r.request, order, isInternetReachable);
            && (built.result.Failure? ==>
                  && fresh(subject) && subject.Valid()
                  && subject.sent == [End(Failed(ConvertErrorToNetworkError(ThrownAsNSError(built.result.error, bridge))))]
                  && network.delegate.saveToLocation == old(network.delegate.saveToLocation)
                  && network.delegate.requestType == old(network.delegate.requestType)
                  && network.session.tasks == old(network.session.tasks))
            && (built.result.Success? ==>
                  && subject == network.delegate.downloadProgressSubject
                  && network.delegate.requestType == Some(RequestType.Download)
                  && network.delegate.saveToLocation == r.saveDownloadedUrlToLocation
                  && network.session.tasks == old(network.session.tasks) + [SessionTask(Some(built.result.value), DownloadTask, Running, None)])
    ensures network.session.flushes == old(network.session.flushes) && network.session.invalidated == old(network.session.invalidated)
  {
    var downloadRequest, _ := MakeRequest(r.request, order, isInternetReachable);
    if downloadRequest.Failure? {
      var failure := new Subject<NetworkDownloadResponse>();
      failure.SendCompletion(Failed(ConvertErrorToNetworkError(ThrownAsNSError(downloadRequest.error, bridge))));
      return failure;
    }
    network.delegate.requestType := Some(RequestType.Download);
    network.delegate.saveToLocation := r.saveDownloadedUrlToLocation;
    network.session.StartTask(Some(downloadRequest.value), DownloadTask, None);
    return network.delegate.downloadProgressSubject;
  }
}
