/**
 * `NetworkSessionDelegate`: answers authentication challenges (with optional
 * SSL pinning) and turns download and upload callbacks into events on two
 * long-lived subjects, saving finished downloads to a chosen location.
 */
module SessionDelegates {
  import opened Wrappers
  import opened Bytes
  import opened NetworkErrors
  import opened NetworkRequests
  import opened SslPinning
  import opened Subjects
  import opened Sessions
  import opened Loggers

  /** `NetworkDownloadResponse`; a progress event carries the byte counts its percentage is computed from. */
  datatype NetworkDownloadResponse =
    | DownloadProgress(totalBytesWritten: int, totalBytesExpectedToWrite: int)
    | DownloadResponse(location: Url)

  /** `UploadNetworkResponse`; a progress event carries the byte counts its percentage is computed from. */
  datatype UploadNetworkResponse =
    | UploadProgress(totalBytesSent: int, totalBytesExpectedToSend: int)
    | UploadResponse(data: Bytes)

  /** The kind of transfer last started through the network. */
  datatype RequestType = Download | Upload

  datatype AuthChallengeDisposition = UseCredential | PerformDefaultHandling | CancelAuthenticationChallenge | RejectProtectionSpace

  datatype URLCredential = TrustCredential(trust: ServerTrust)

  datatype ProtectionSpace = ProtectionSpace(authenticationMethod: string, serverTrust: Option<ServerTrust>)

  const NSURLAuthenticationMethodServerTrust := "NSURLAuthenticationMethodServerTrust"

  /**
   * How a challenge ends: the completion handler is called once, never called
   * (trust evaluation failed), or the process traps on a force-unwrapped nil trust.
   */
  datatype ChallengeReply =
    | Replied(disposition: AuthChallengeDisposition, credential: Option<URLCredential>)
    | NeverReplied
    | Trapped

  datatype FileOp = RemoveItem(at: Url) | CopyItem(from: Url, to: Url) | MoveItem(from: Url, to: Url)

  const DownloadFailedTitle := "Download failed"
  const DownloadFailedMessage := "Failed to download the given url = %@"
  const DownloadToLocationTitle := "Download To Location"
  const DownloadToLocationMessage := "Failed to save the url to given location"
  const ErrorCode := -222

  /** The fixed error logged for every task that completes with an error. */
  function DownloadFailedError(): (e: NetworkError)
    ensures e.title == DownloadFailedTitle && e.code == Custom(-222) && e.userMessage == ""
  {
    NetworkError(DownloadFailedTitle, Custom(ErrorCode), DownloadFailedMessage, "")
  }

  /** The failure sent when a finished download cannot be saved. */
  function DownloadToLocationError(fileError: NSError): (e: NetworkError)
    ensures e.title == DownloadToLocationTitle && e.code == Custom(-222)
    ensures e.errorMessage == fileError.localizedDescription && e.userMessage == DownloadToLocationMessage
  {
    NetworkError(DownloadToLocationTitle, Custom(ErrorCode), fileError.localizedDescription, DownloadToLocationMessage)
  }

  /** The file operations `save(to:downloadedUrl:)` performs, and the error that stops it, if any. */
  datatype SaveOutcome = SaveOutcome(ops: seq<FileOp>, error: Option<NSError>)

  /**
   * Remove the destination only if a file is there, then copy the download to
   * it; the first error stops the sequence.
   */
  function Save(file: Url, downloadedUrl: Url, fileExists: bool, removeError: Option<NSError>, copyError: Option<NSError>): SaveOutcome
  {
    var removed := if fileExists then [RemoveItem(file)] else [];
    if fileExists && removeError.Some? then SaveOutcome(removed, removeError)
    else SaveOutcome(removed + [CopyItem(downloadedUrl, file)], copyError)
  }

  /**
   * The destination is removed exactly when a file is there, and first; the
   * copy is attempted unless that removal failed; the save succeeds exactly
   * when the copy was made and did not fail, and otherwise reports the first
   * error.
   */
  lemma SaveOrder(file: Url, downloadedUrl: Url, fileExists: bool, removeError: Option<NSError>, copyError: Option<NSError>)
    ensures var r := Save(file, downloadedUrl, fileExists, removeError, copyError);
            && (RemoveItem(file) in r.ops <==> fileExists)
            && (fileExists ==> r.ops[0] == RemoveItem(file))
            && (CopyItem(downloadedUrl, file) in r.ops <==> !(fileExists && removeError.Some?))
            && 0 < |r.ops| <= 2
            && (r.error.None? <==> r.ops[|r.ops| - 1] == CopyItem(downloadedUrl, file) && copyError.None?)
            && (r.error.Some? ==> r.error == (if fileExists && removeError.Some? then removeError else copyError))
  {
  }

  class NetworkSessionDelegate {
    const downloadProgressSubject: Subject<NetworkDownloadResponse>
    const uploadProgressSubject: Subject<UploadNetworkResponse>
    var saveToLocation: Option<Url>
    /** Written by the network before each download or upload; declared nowhere in the delegate itself. */
    ghost var requestType: Option<RequestType>
    const pinning: Option<SSLPinning>
    const logger: Option<NetworkLogger>

    function LoggerFrame(): set<object>
    {
      if logger.Some? then {logger.value} else {}
    }

    ghost predicate Valid()
      reads this, downloadProgressSubject, uploadProgressSubject
    {
      downloadProgressSubject.Valid() && uploadProgressSubject.Valid()
    }

    constructor (pinning: Option<SSLPinning>, logger: Option<NetworkLogger>)
      ensures Valid() && this.pinning == pinning && this.logger == logger
      ensures fresh(downloadProgressSubject) && fresh(uploadProgressSubject)
      ensures downloadProgressSubject.sent == [] && uploadProgressSubject.sent == []
      ensures saveToLocation.None? && requestType.None?
    {
      downloadProgressSubject := new Subject();
      uploadProgressSubject := new Subject();
      saveToLocation := None;
      requestType := None;
      this.pinning := pinning;
      this.logger := logger;
    }

    /**
     * `urlSession(_:didReceive:completionHandler:)`. Without pinning the server
     * trust is force-unwrapped and used as the credential. With pinning, only a
     * server-trust challenge that carries a trust is evaluated; a trust that
     * evaluates is answered by the pin check, one that does not is never answered.
     */
    method DidReceiveChallenge(space: ProtectionSpace, sha256: Bytes -> Bytes, base64: Bytes -> string) returns (reply: ChallengeReply)
      ensures pinning.None? && space.serverTrust.None? ==> reply == Trapped
      ensures pinning.None? && space.serverTrust.Some? ==> reply == Replied(UseCredential, Some(TrustCredential(space.serverTrust.value)))
      ensures (pinning.Some? && (space.authenticationMethod != NSURLAuthenticationMethodServerTrust || space.serverTrust.None?))
                ==> reply == Replied(CancelAuthenticationChallenge, None)
      ensures (pinning.Some? && space.authenticationMethod == NSURLAuthenticationMethodServerTrust && space.serverTrust.Some?)
                ==> reply == if !space.serverTrust.value.evaluates then NeverReplied
                             else if Accepts(pinning.value, space.serverTrust.value, sha256, base64)
                             then Replied(UseCredential, Some(TrustCredential(space.serverTrust.value)))
                             else Replied(CancelAuthenticationChallenge, None)
    {
      if pinning.None? {
        if space.serverTrust.None? {
          return Trapped;
        }
        return Replied(UseCredential, Some(TrustCredential(space.serverTrust.value)));
      }
      if space.authenticationMethod != NSURLAuthenticationMethodServerTrust || space.serverTrust.None? {
        return Replied(CancelAuthenticationChallenge, None);
      }
      var serverTrust := space.serverTrust.value;
      if !serverTrust.evaluates {
        return NeverReplied;
      }
      var result := false;
      match pinning.value {
        case CertificatePinning(certificate) =>
          result := CertificatePinned(certificate, serverTrust);
        case PublicKeyPinning(hashes, domain) =>
          result := PublicKeyPinned(serverTrust, hashes, domain, sha256, base64);
      }
      reply := Replied(if result then UseCredential else CancelAuthenticationChallenge,
                       if result then Some(TrustCredential(serverTrust)) else None);
    }

    /** `urlSession(_:downloadTask:didWriteData:...)`: a progress event on the download subject. */
    method DidWriteData(bytesWritten: int, totalBytesWritten: int, totalBytesExpectedToWrite: int)
      requires Valid()
      modifies downloadProgressSubject
      ensures Valid()
      ensures downloadProgressSubject.sent == old(downloadProgressSubject.sent) + [Value(DownloadProgress(totalBytesWritten, totalBytesExpectedToWrite))]
    {
      downloadProgressSubject.Send(DownloadProgress(totalBytesWritten, totalBytesExpectedToWrite));
    }

    /**
     * `urlSession(_:downloadTask:didFinishDownloadingTo:)`: without a save
     * location, the temporary location and then a normal completion; with one,
     * the file is saved and only a file error is reported.
     */
    method DidFinishDownloadingTo(location: Url, fileExists: bool, removeError: Option<NSError>, copyError: Option<NSError>)
      returns (ops: seq<FileOp>)
      requires Valid()
      modifies downloadProgressSubject
      ensures Valid()
      ensures saveToLocation.None? ==>
                && ops == []
                && downloadProgressSubject.sent == old(downloadProgressSubject.sent) + [Value(DownloadResponse(location)), End(Finished)]
      ensures saveToLocation.Some? ==>
                var saved := Save(saveToLocation.value, location, fileExists, removeError, copyError);
                && ops == saved.ops
                && downloadProgressSubject.sent == old(downloadProgressSubject.sent)
                     + (if saved.error.Some? then [End(Failed(DownloadToLocationError(saved.error.value)))] else [])
    {
      if saveToLocation.None? {
        downloadProgressSubject.Send(DownloadResponse(location));
        downloadProgressSubject.SendCompletion(Finished);
        return [];
      }
      ops := SaveTo(saveToLocation.value, location, fileExists, removeError, copyError);
    }

    /** `save(to:downloadedUrl:)`. */
    method SaveTo(file: Url, downloadedUrl: Url, fileExists: bool, removeError: Option<NSError>, copyError: Option<NSError>)
      returns (ops: seq<FileOp>)
      requires Valid()
      modifies downloadProgressSubject
      ensures Valid()
      ensures var saved := Save(file, downloadedUrl, fileExists, removeError, copyError);
              && ops == saved.ops
              && downloadProgressSubject.sent == old(downloadProgressSubject.sent)
                   + (if saved.error.Some? then [End(Failed(DownloadToLocationError(saved.error.value)))] else [])
    {
      ops := [];
      var fileError: Option<NSError> := None;
      if fileExists {
        ops := ops + [RemoveItem(file)];
        fileError := removeError;
      }
      if fileError.None? {
        ops := ops + [CopyItem(downloadedUrl, file)];
        fileError := copyError;
      }
      assert SaveOutcome(ops, fileError) == Save(file, downloadedUrl, fileExists, removeError, copyError);
      if fileError.Some? {
        downloadProgressSubject.SendCompletion(Failed(DownloadToLocationError(fileError.value)));
      }
    }

    /** `urlSession(_:task:didSendBodyData:...)`: a progress event on the upload subject. */
    method DidSendBodyData(bytesSent: int, totalBytesSent: int, totalBytesExpectedToSend: int)
      requires Valid()
      modifies uploadProgressSubject
      ensures Valid()
      ensures uploadProgressSubject.sent == old(uploadProgressSubject.sent) + [Value(UploadProgress(totalBytesSent, totalBytesExpectedToSend))]
    {
      uploadProgressSubject.Send(UploadProgress(totalBytesSent, totalBytesExpectedToSend));
    }

    /** `urlSession(_:dataTask:didReceive:)`: the received data and then a normal completion, on the upload subject. */
    method DidReceiveData(data: Bytes)
      requires Valid()
      modifies uploadProgressSubject
      ensures Valid()
      ensures uploadProgressSubject.sent == old(uploadProgressSubject.sent) + [Value(UploadResponse(data)), End(Finished)]
    {
      uploadProgressSubject.Send(UploadResponse(data));
      uploadProgressSubject.SendCompletion(Finished);
    }

    /**
     * `urlSession(_:task:didCompleteWithError:)`: for an error on a task with a
     * current URL, log the fixed download-failed error, fail the download
     * subject with the converted error (for uploads too), and start one
     * download from the resume data when the error carries some.
     */
    method DidCompleteWithError(session: URLSession, error: Option<NSError>, currentUrl: Option<Url>, resumeData: Option<Bytes>)
      requires Valid()
      modifies downloadProgressSubject, session, LoggerFrame()
      ensures Valid()
      ensures (error.None? || currentUrl.None?) ==>
                && downloadProgressSubject.sent == old(downloadProgressSubject.sent)
                && session.tasks == old(session.tasks)
                && (logger.Some? ==> logger.value.calls == old(logger.value.calls))
      ensures (error.Some? && currentUrl.Some?) ==>
                && downloadProgressSubject.sent == old(downloadProgressSubject.sent) + [End(Failed(ConvertErrorToNetworkError(error.value)))]
                && (logger.Some? ==> logger.value.calls == old(logger.value.calls) + [LogCall(currentUrl.value, DownloadFailedError(), OSLogType.Error, Encrypt)])
                && session.tasks == old(session.tasks) + (if resumeData.Some? then [SessionTask(None, ResumedDownload(resumeData.value), Running, None)] else [])
      ensures session.flushes == old(session.flushes) && session.invalidated == old(session.invalidated)
    {
      if error.Some? && currentUrl.Some? {
        LogDownloadFailed(currentUrl.value);
        downloadProgressSubject.SendCompletion(Failed(ConvertErrorToNetworkError(error.value)));
        if resumeData.Some? {
          session.StartTask(None, ResumedDownload(resumeData.value), None);
        }
      }
    }

    /** The logging step of `didCompleteWithError`, when a logger is configured. */
    method LogDownloadFailed(url: Url)
      modifies LoggerFrame()
      ensures logger.Some? ==> logger.value.calls == old(logger.value.calls) + [LogCall(url, DownloadFailedError(), OSLogType.Error, Encrypt)]
    {
      if logger.Some? {
        logger.value.LogRequest(url, DownloadFailedError(), OSLogType.Error, Encrypt);
      }
    }
  }
}
