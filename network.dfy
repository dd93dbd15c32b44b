/**
 * `Network`: builds requests, runs them through the data-task pipeline that
 * validates the HTTP status and logs errors, starts download and upload tasks
 * through the shared session delegate, and cancels tasks.
 */
module Networks {
  import opened Wrappers
  import opened Bytes
  import opened HTTPHeaderFields
  import opened NetworkErrors
  import opened NetworkRequests
  import opened SslPinning
  import opened Subjects
  import opened Sessions
  import opened Loggers
  import opened SessionDelegates
  import MultipartForms

  /**
   * `catch let error as NSError`: a serialisation error already is an
   * `NSError`; a thrown `NetworkError` goes through Swift's error bridging,
   * which is a parameter of the model.
   */
  function ThrownAsNSError(thrown: Thrown, bridge: NetworkError -> NSError): (e: NSError)
    ensures thrown.SerializationFailure? ==> e == thrown.cause
    ensures thrown.NetworkFailure? ==> e == bridge(thrown.error)
  {
    match thrown
    case SerializationFailure(cause) => cause
    case NetworkFailure(error) => bridge(error)
  }

  /** What the data task publisher delivers: data with its response, or a transport error. */
  datatype TransportOutcome =
    | Delivered(data: Bytes, response: Option<HTTPURLResponse>)
    | TransportFailed(error: NSError)

  /** What reaches `mapError`: an error thrown by `tryMap`, or the publisher's own error. */
  datatype UpstreamError = Validation(error: NetworkError) | Transport(cause: NSError)

  /** The result the subscriber receives and the logger calls made on the way. */
  datatype PipelineTrace = PipelineTrace(result: Result<Bytes, NetworkError>, logged: seq<LogCall>)

  function ErrorLog(url: Url, error: NetworkError): LogCall
  {
    LogCall(url, error, OSLogType.Error, Encrypt)
  }

  /** The `tryMap` stage: pass the data through, or log and throw the validation error. */
  function TryMap(request: URLRequest, outcome: TransportOutcome, catalog: CatalogLoad, hasLogger: bool)
    : (r: (Result<Bytes, UpstreamError>, seq<LogCall>))
    ensures r.0.Success? <==> outcome.Delivered? && ValidateHTTPError(outcome.response, catalog).None?
    ensures r.0.Success? ==> r.0.value == outcome.data
    ensures outcome.TransportFailed? ==> r.0 == Failure(Transport(outcome.error))
    ensures r.1 != [] <==> hasLogger && r.0.Failure? && r.0.error.Validation?
    ensures r.1 != [] ==> r.1 == [ErrorLog(request.url, r.0.error.error)]
  {
    match outcome
    case TransportFailed(e) => (Failure(Transport(e)), [])
    case Delivered(data, response) =>
      match ValidateHTTPError(response, catalog)
      case None => (Success(data), [])
      case Some(error) => (Failure(Validation(error)), if hasLogger then [ErrorLog(request.url, error)] else [])
  }

  /** The `mapError` stage: convert a transport error, or log a validation error again and keep it. */
  function MapError(request: URLRequest, upstream: Result<Bytes, UpstreamError>, hasLogger: bool)
    : (r: (Result<Bytes, NetworkError>, seq<LogCall>))
    ensures r.0.Success? <==> upstream.Success?
    ensures upstream.Success? ==> r.0.value == upstream.value
    ensures upstream.Failure? && upstream.error.Transport? ==> r.0.error == ConvertErrorToNetworkError(upstream.error.cause)
    ensures upstream.Failure? && upstream.error.Validation? ==> r.0.error == upstream.error.error
    ensures r.1 != [] <==> hasLogger && upstream.Failure? && upstream.error.Validation?
  {
    match upstream
    case Success(data) => (Success(data), [])
    case Failure(Transport(e)) => (Failure(ConvertErrorToNetworkError(e)), [])
    case Failure(Validation(error)) => (Failure(error), if hasLogger then [ErrorLog(request.url, error)] else [])
  }

  /**
   * The private `makeRequest(request:receive:)` pipeline, for the outcome the
   * data task publisher delivers.
   */
  function Pipeline(request: URLRequest, outcome: TransportOutcome, catalog: CatalogLoad, hasLogger: bool): (t: PipelineTrace)
    // a response that passes validation delivers the data unchanged, with nothing logged
    ensures (outcome.Delivered? && ValidateHTTPError(outcome.response, catalog).None?)
              ==> t == PipelineTrace(Success(outcome.data), [])
    // a validation error reaches the subscriber as that same error, logged once per stage
    ensures (outcome.Delivered? && ValidateHTTPError(outcome.response, catalog).Some?)
              ==> && t.result == Failure(ValidateHTTPError(outcome.response, catalog).value)
                  && t.logged == if hasLogger then [ErrorLog(request.url, t.result.error), ErrorLog(request.url, t.result.error)] else []
    // a transport failure is converted and never logged
    ensures outcome.TransportFailed? ==> t == PipelineTrace(Failure(ConvertErrorToNetworkError(outcome.error)), [])
    ensures t.result.Success? <==> outcome.Delivered? && ValidateHTTPError(outcome.response, catalog).None?
  {
    var (upstream, loggedInTryMap) := TryMap(request, outcome, catalog, hasLogger);
    var (result, loggedInMapError) := MapError(request, upstream, hasLogger);
    PipelineTrace(result, loggedInTryMap + loggedInMapError)
  }

  /** A transport error never becomes a success, and its converted code is its own. */
  lemma TransportErrorKeepsCode(request: URLRequest, e: NSError, catalog: CatalogLoad, hasLogger: bool)
    ensures var t := Pipeline(request, TransportFailed(e), catalog, hasLogger);
            t.result.Failure? && NetworkErrors.Value(t.result.error.code) == e.code && t.logged == []
  {
  }

  /** A 2xx response is delivered whatever the catalog holds; a missing response is an unknown error. */
  lemma StatusDecidesDelivery(request: URLRequest, data: Bytes, status: int, catalog: CatalogLoad, hasLogger: bool)
    ensures 200 <= status <= 299 ==> Pipeline(request, Delivered(data, Some(HTTPURLResponse(status))), catalog, hasLogger).result == Success(data)
    ensures Pipeline(request, Delivered(data, None), catalog, hasLogger).result == Failure(UnknownError())
  {
  }

  datatype DownloadRequest = DownloadRequest(request: RequestDescriptor, saveDownloadedUrlToLocation: Option<Url>)

  datatype UploadFileFrom = FromUrl(url: Url) | FromData(data: Bytes)

  datatype UploadRequest = UploadRequest(request: RequestDescriptor, uploadFile: UploadFileFrom)

  /** The session task kind for an upload source. */
  function UploadKind(file: UploadFileFrom): (k: TaskKind)
    ensures file.FromData? <==> k.UploadFromData?
    ensures file.FromData? ==> k == UploadFromData(file.data)
    ensures file.FromUrl? ==> k == UploadFromFile(file.url)
  {
    match file
    case FromData(data) => UploadFromData(data)
    case FromUrl(url) => UploadFromFile(url)
  }

  /** What a caller of `request(for:)` or `uploadMultipart(for:)` receives, and what happened on the way. */
  datatype RequestTrace = RequestTrace(result: Result<Bytes, NetworkError>, transportCalled: bool, cachePurged: bool)

  class Network {
    const session: URLSession
    const delegate: NetworkSessionDelegate
    const logger: Option<NetworkLogger>

    function LoggerFrame(): set<object>
    {
      if logger.Some? then {logger.value} else {}
    }

    ghost predicate Valid()
      reads this, delegate, delegate.downloadProgressSubject, delegate.uploadProgressSubject
    {
      delegate.Valid()
    }

    /** The convenience initialisers: one delegate with the pinning and logger, one session driven by it. */
    constructor (pinning: Option<SSLPinning>, logger: Option<NetworkLogger>)
      ensures Valid() && this.logger == logger && delegate.logger == logger && delegate.pinning == pinning
      ensures fresh(session) && fresh(delegate) && session.tasks == []
    {
      delegate := new NetworkSessionDelegate(pinning, logger);
      session := new URLSession();
      this.logger := logger;
    }

    /** The private `makeRequest(request:receive:)`, subscribed to and delivered the given outcome. */
    method RunPipeline(request: URLRequest, outcome: TransportOutcome, catalog: CatalogLoad) returns (result: Result<Bytes, NetworkError>)
      modifies LoggerFrame()
      ensures result == Pipeline(request, outcome, catalog, logger.Some?).result
      ensures logger.Some? ==> logger.value.calls == old(logger.value.calls) + Pipeline(request, outcome, catalog, logger.Some?).logged
    {
      var upstream: Result<Bytes, UpstreamError>;
      match outcome {
        case TransportFailed(e) =>
          upstream := Failure(Transport(e));
        case Delivered(data, response) =>
          var error := ValidateHTTPError(response, catalog);
          if error.None? {
            upstream := Success(data);
          } else {
            if logger.Some? {
              logger.value.LogRequest(request.url, error.value, OSLogType.Error, Encrypt);
            }
            upstream := Failure(Validation(error.value));
          }
      }
      match upstream {
        case Success(data) =>
          result := Success(data);
        case Failure(Transport(e)) =>
          result := Failure(ConvertErrorToNetworkError(e));
        case Failure(Validation(error)) =>
          if logger.Some? {
            logger.value.LogRequest(request.url, error, OSLogType.Error, Encrypt);
          }
          result := Failure(error);
      }
    }

    /**
     * `request(for:receive:)`: a request that fails to build is an immediate
     * failure with the converted error and never reaches the transport.
     */
    method Request(d: RequestDescriptor, order: seq<NetworkHTTPHeaderKey>, isInternetReachable: bool,
                   outcome: TransportOutcome, catalog: CatalogLoad, bridge: NetworkError -> NSError)
      returns (trace: RequestTrace)
      requires EnumeratesKeys(order, d.httpHeaderFields)
      modifies LoggerFrame()
      ensures var built := BuildRequest(d, order, isInternetReachable);
              && trace.cachePurged == built.cachePurged
              && trace.transportCalled == built.result.Success?
              && (built.result.Failure? ==>
                    && trace.result == Failure(ConvertErrorToNetworkError(ThrownAsNSError(built.result.error, bridge)))
                    && (logger.Some? ==> logger.value.calls == old(logger.value.calls)))
              && (built.result.Success? ==>
                    && trace.result == Pipeline(built.result.value, outcome, catalog, logger.Some?).result
                    && (logger.Some? ==> logger.value.calls == old(logger.value.calls) + Pipeline(built.result.value, outcome, catalog, logger.Some?).logged))
    {
      var built, cachePurged := MakeRequest(d, order, isInternetReachable);
      if built.Failure? {
        var error := ThrownAsNSError(built.error, bridge);
        return RequestTrace(Failure(ConvertErrorToNetworkError(error)), false, cachePurged);
      }
      var result := RunPipeline(built.value, outcome, catalog);
      return RequestTrace(result, true, cachePurged);
    }

    /**
     * `download(for:receive:)`: set the request type and save location, start
     * one download task with the background hints, and hand back the shared
     * download subject; a build failure returns a new, already failed subject.
     */
    method Download(r: DownloadRequest, order: seq<NetworkHTTPHeaderKey>, isInternetReachable: bool, bridge: NetworkError -> NSError)
      returns (subject: Subject<NetworkDownloadResponse>)
      requires Valid() && EnumeratesKeys(order, r.request.httpHeaderFields)
      modifies delegate, session
      ensures Valid()
      ensures var built := BuildRequest(r.request, order, isInternetReachable);
              && (built.result.Failure? ==>
                    && fresh(subject) && subject.Valid()
                    && subject.sent == [End(Failed(ConvertErrorToNetworkError(ThrownAsNSError(built.result.error, bridge))))]
                    && delegate.saveToLocation == old(delegate.saveToLocation)
                    && delegate.requestType == old(delegate.requestType)
                    && session.tasks == old(session.tasks))
              && (built.result.Success? ==>
                    && subject == delegate.downloadProgressSubject
                    && delegate.requestType == Some(RequestType.Download)
                    && delegate.saveToLocation == r.saveDownloadedUrlToLocation
                    && session.tasks == old(session.tasks) + [SessionTask(Some(built.result.value), DownloadTask, Running, Some(BackgroundTaskHints))])
      ensures session.flushes == old(session.flushes) && session.invalidated == old(session.invalidated)
    {
      var built, _ := MakeRequest(r.request, order, isInternetReachable);
      if built.Failure? {
        var failure := new Subject<NetworkDownloadResponse>();
        failure.SendCompletion(Failed(ConvertErrorToNetworkError(ThrownAsNSError(built.error, bridge))));
        return failure;
      }
      delegate.requestType := Some(RequestType.Download);
      delegate.saveToLocation := r.saveDownloadedUrlToLocation;
      session.StartTask(Some(built.value), DownloadTask, Some(BackgroundTaskHints));
      return delegate.downloadProgressSubject;
    }

    /**
     * `upload(with:receive:)`: set the request type, start one upload task from
     * the data or from the file, and hand back the shared upload subject; a
     * build failure returns a new, already failed subject.
     */
    method Upload(r: UploadRequest, order: seq<NetworkHTTPHeaderKey>, isInternetReachable: bool, bridge: NetworkError -> NSError)
      returns (subject: Subject<UploadNetworkResponse>)
      requires Valid() && EnumeratesKeys(order, r.request.httpHeaderFields)
      modifies delegate, session
      ensures Valid()
      ensures var built := BuildRequest(r.request, order, isInternetReachable);
              && (built.result.Failure? ==>
                    && fresh(subject) && subject.Valid()
                    && subject.sent == [End(Failed(ConvertErrorToNetworkError(ThrownAsNSError(built.result.error, bridge))))]
                    && delegate.saveToLocation == old(delegate.saveToLocation)
                    && delegate.requestType == old(delegate.requestType)
                    && session.tasks == old(session.tasks))
              && (built.result.Success? ==>
                    && subject == delegate.uploadProgressSubject
                    && delegate.requestType == Some(RequestType.Upload)
                    && delegate.saveToLocation == old(delegate.saveToLocation)
                    && session.tasks == old(session.tasks) + [SessionTask(Some(built.result.value), UploadKind(r.uploadFile), Running, Some(BackgroundTaskHints))])
      ensures session.flushes == old(session.flushes) && session.invalidated == old(session.invalidated)
    {
      var built, _ := MakeRequest(r.request, order, isInternetReachable);
      if built.Failure? {
        var failure := new Subject<UploadNetworkResponse>();
        failure.SendCompletion(Failed(ConvertErrorToNetworkError(ThrownAsNSError(built.error, bridge))));
        return failure;
      }
      delegate.requestType := Some(RequestType.Upload);
      match r.uploadFile {
        case FromData(data) =>
          session.StartTask(Some(built.value), UploadFromData(data), Some(BackgroundTaskHints));
        case FromUrl(url) =>
          session.StartTask(Some(built.value), UploadFromFile(url), Some(BackgroundTaskHints));
      }
      return delegate.uploadProgressSubject;
    }

    /**
     * `uploadMultipart(for:receive:)`: the multipart request goes through the
     * data pipeline; the form body is not attached and no upload task is started.
     */
    method UploadMultipart(m: MultipartForms.MultipartRequest, order: seq<NetworkHTTPHeaderKey>, isInternetReachable: bool,
                           outcome: TransportOutcome, catalog: CatalogLoad, bridge: NetworkError -> NSError)
      returns (trace: RequestTrace)
      requires EnumeratesKeys(order, m.request.httpHeaderFields)
      modifies LoggerFrame()
      ensures var built := BuildRequest(m.request, order, isInternetReachable);
              && trace.cachePurged == built.cachePurged
              && trace.transportCalled == built.result.Success?
              && (built.result.Failure? ==>
                    && trace.result == Failure(ConvertErrorToNetworkError(ThrownAsNSError(built.result.error, bridge)))
                    && (logger.Some? ==> logger.value.calls == old(logger.value.calls)))
              && (built.result.Success? ==>
                    && trace.result == Pipeline(built.result.value, outcome, catalog, logger.Some?).result
                    && (logger.Some? ==> logger.value.calls == old(logger.value.calls) + Pipeline(built.result.value, outcome, catalog, logger.Some?).logged))
    {
      var multipartRequest, cachePurged := MakeRequest(m.request, order, isInternetReachable);
      if multipartRequest.Failure? {
        var error := ThrownAsNSError(multipartRequest.error, bridge);
        return RequestTrace(Failure(ConvertErrorToNetworkError(error)), false, cachePurged);
      }
      var result := RunPipeline(multipartRequest.value, outcome, catalog);
      return RequestTrace(result, true, cachePurged);
    }

    /** `cancelAllTasks`: `invalidateAndCancel` on the session. */
    method CancelAllTasks()
      modifies session
      ensures session.tasks == CancelOutstanding(old(session.tasks)) && session.invalidated
      ensures session.flushes == old(session.flushes)
    {
      session.InvalidateAndCancel();
    }

    /** `cancelTaskWithUrl(url:)`: cancel the first running task whose original request has this URL. */
    method CancelTaskWithUrl(url: Url)
      modifies session
      ensures session.tasks == Apply(old(session.tasks), FirstWhere(old(session.tasks), InState(Running), HasUrl(url)), Canceling)
      ensures session.flushes == old(session.flushes) && session.invalidated == old(session.invalidated)
    {
      var selected := FirstWhere(session.tasks, InState(Running), HasUrl(url));
      session.Transition(selected, Canceling);
    }
  }

  /** A serialisation error reaches the caller with its own domain, code and description. */
  lemma SerializationErrorSurfaces(cause: NSError, bridge: NetworkError -> NSError)
    ensures var e := ConvertErrorToNetworkError(ThrownAsNSError(SerializationFailure(cause), bridge));
            e.title == cause.domain && NetworkErrors.Value(e.code) == cause.code && e.userMessage == cause.localizedDescription
  {
  }

  /** `cancelTaskWithUrl` cancels at most one task, the first running one with that URL, and nothing when none matches. */
  lemma CancelTaskWithUrlSelects(tasks: seq<SessionTask>, url: Url)
    ensures var r := Apply(tasks, FirstWhere(tasks, InState(Running), HasUrl(url)), Canceling);
            && |r| == |tasks|
            && (forall i, j :: 0 <= i < j < |tasks| && r[i] != tasks[i] ==> r[j] == tasks[j])
            && (forall i :: 0 <= i < |tasks| && r[i] != tasks[i] ==>
                  && tasks[i].state == Running && tasks[i].originalRequest.Some? && tasks[i].originalRequest.value.url == url
                  && r[i].state == Canceling)
            && ((forall i :: 0 <= i < |tasks| ==> !(tasks[i].state == Running && tasks[i].originalRequest.Some? && tasks[i].originalRequest.value.url == url))
                  ==> r == tasks)
  {
    ActsOnFirstMatchOnly(tasks, InState(Running), HasUrl(url), Canceling);
  }
}
