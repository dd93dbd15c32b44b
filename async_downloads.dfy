/**
 * The async download path: `URLSession.download(for:progress:)` streams the
 * response bytes into a 64 KiB buffer that is flushed to a file through
 * `OutputStream.write(_:)`, keeping a `Progress` up to date, and the outer
 * `download(for:receive:)` turns any error into a failed subject.
 */
module AsyncDownloads {
  import opened Wrappers
  import opened Bytes
  import opened HTTPHeaderFields
  import opened NetworkErrors
  import opened NetworkRequests
  import opened Subjects
  import opened SessionDelegates
  import opened Networks
  import opened OutputStreams

  const BufferSize := 65536
  const EstimatedSize := 1000000

  class Progress {
    var totalUnitCount: int
    var completedUnitCount: int

    constructor ()
      ensures totalUnitCount == 0 && completedUnitCount == 0
    {
      totalUnitCount := 0;
      completedUnitCount := 0;
    }
  }

  /** The total before any flush: the expected length if the server gave a positive one, else the estimate. */
  function InitialTotal(expectedLength: int): (total: int)
    ensures total > 0
    ensures expectedLength > 0 ==> total == expectedLength
    ensures expectedLength <= 0 ==> total == EstimatedSize
  {
    if expectedLength > 0 then expectedLength else EstimatedSize
  }

  /**
   * The total after a flush at `count` bytes: bumped past the count once the
   * length is unknown or exceeded; never below the count.
   */
  function TotalAfterFlush(expectedLength: int, count: nat): (total: int)
    ensures count <= total
    ensures (expectedLength < 0 || count > expectedLength) ==> total == count + EstimatedSize
    ensures (0 <= expectedLength && count <= expectedLength) ==> total == expectedLength
  {
    if expectedLength < 0 || count > expectedLength then count + EstimatedSize else expectedLength
  }

  /**
   * The progress update after an in-loop flush at `count` bytes: bump the
   * total past the count when the length is unknown or exceeded, and mark
   * the count completed.
   */
  method RecordFlush(progress: Progress, expectedLength: int, flushedBefore: nat, count: nat)
    requires flushedBefore < count
    requires progress.totalUnitCount == if flushedBefore == 0 then InitialTotal(expectedLength) else TotalAfterFlush(expectedLength, flushedBefore)
    modifies progress
    ensures progress.totalUnitCount == TotalAfterFlush(expectedLength, count)
    ensures progress.completedUnitCount == count
  {
    if expectedLength < 0 || count > expectedLength {
      progress.totalUnitCount := count + EstimatedSize;
    }
    progress.completedUnitCount := count;
  }

  /** Why the byte download ends early. */
  datatype DownloadError = ConnectionFailed(error: NSError) | CannotOpenFile | StreamFailed(streamError: OutputStreamError)

  /** The byte sequence throws `error` when asked for byte `at` (or for the end, when `at` is its length). */
  datatype Interruption = Interruption(at: nat, error: NSError)

  /**
   * A finished byte download: the file's bytes, the final progress, the size
   * of each `write(_:)` call and the progress after each in-loop flush.
   */
  datatype Fetched = Fetched(file: Bytes, totalUnitCount: int, completedUnitCount: int,
                             writes: seq<nat>, snapshots: seq<(int, int)>)

  /** `n` in-loop flushes, each of a full buffer. */
  function FullWrites(n: nat): (w: seq<nat>)
    ensures |w| == n
  {
    if n == 0 then [] else FullWrites(n - 1) + [BufferSize]
  }

  /** The sizes of the `write(_:)` calls for a download of `total` bytes. */
  function FlushSizes(total: nat): (sizes: seq<nat>)
    ensures |sizes| == (total + BufferSize - 1) / BufferSize
  {
    FullWrites(total / BufferSize) + (if total % BufferSize == 0 then [] else [total % BufferSize])
  }

  /** The (total, completed) progress after each of the first `n` in-loop flushes. */
  function FlushSnapshots(expectedLength: int, n: nat): (snapshots: seq<(int, int)>)
    ensures |snapshots| == n
  {
    if n == 0 then [] else FlushSnapshots(expectedLength, n - 1) + [(TotalAfterFlush(expectedLength, n * BufferSize), n * BufferSize)]
  }

  function Sum(sizes: seq<nat>): nat
  {
    if sizes == [] then 0 else Sum(sizes[..|sizes| - 1]) + sizes[|sizes| - 1]
  }

  /** Every in-loop flush writes a full buffer, and the sizes add up to the flushed bytes. */
  lemma {:induction false} FullWritesAreFull(n: nat)
    ensures forall j :: 0 <= j < n ==> FullWrites(n)[j] == BufferSize
    ensures Sum(FullWrites(n)) == n * BufferSize
  {
    if n > 0 {
      FullWritesAreFull(n - 1);
      assert FullWrites(n)[..n - 1] == FullWrites(n - 1);
    }
  }

  /**
   * The writes of a download: one full buffer per in-loop flush, then a
   * trailing write of the 1 to 65535 bytes left, if any; together they
   * carry every byte.
   */
  lemma FlushSizesShape(total: nat)
    ensures var sizes := FlushSizes(total);
            && |sizes| == total / BufferSize + (if total % BufferSize == 0 then 0 else 1)
            && (forall j :: 0 <= j < total / BufferSize ==> sizes[j] == BufferSize)
            && (total % BufferSize != 0 ==> 0 < sizes[|sizes| - 1] == total % BufferSize < BufferSize)
            && Sum(sizes) == total
  {
    var n := total / BufferSize;
    FullWritesAreFull(n);
    var sizes := FlushSizes(total);
    if total % BufferSize != 0 {
      assert sizes[..|sizes| - 1] == FullWrites(n);
    } else {
      assert sizes == FullWrites(n);
    }
  }

  /** After the j-th flush, the completed count is the bytes so far and the total is at least that. */
  lemma {:induction false} SnapshotsComplete(expectedLength: int, n: nat)
    ensures forall j :: 0 <= j < n ==>
              var snapshot := FlushSnapshots(expectedLength, n)[j];
              && snapshot.1 == (j + 1) * BufferSize
              && snapshot.0 == TotalAfterFlush(expectedLength, (j + 1) * BufferSize)
              && snapshot.1 <= snapshot.0
  {
    if n > 0 {
      SnapshotsComplete(expectedLength, n - 1);
      assert FlushSnapshots(expectedLength, n)[..n - 1] == FlushSnapshots(expectedLength, n - 1);
    }
  }

  /** Splitting `total` into whole buffers and a remainder. */
  lemma DivideIntoBuffers(total: nat, n: nat, rest: nat)
    requires total == n * BufferSize + rest && rest < BufferSize
    ensures total / BufferSize == n && total % BufferSize == rest
  {
  }

  /** An in-loop flush: write the full buffer out, then record the progress at `count` bytes. */
  method FlushBuffer(output: OutputStream, progress: Progress, buffer: Bytes, expectedLength: int, flushedBefore: nat, count: nat)
    returns (error: Option<OutputStreamError>)
    requires output.Valid() && flushedBefore + |buffer| == count && |buffer| > 0
    requires progress.totalUnitCount == if flushedBefore == 0 then InitialTotal(expectedLength) else TotalAfterFlush(expectedLength, flushedBefore)
    modifies output, progress
    ensures output.Valid()
    ensures error.Some? ==> !NeverStalls(output.writer)
    ensures error.None? ==>
              && output.contents == old(output.contents) + buffer
              && progress.totalUnitCount == TotalAfterFlush(expectedLength, count)
              && progress.completedUnitCount == count
  {
    if NeverStalls(output.writer) {
      NeverStallsWritesAll(buffer, 0, output.calls, output.writer);
    }
    error := output.Write(buffer, true);
    if error.None? {
      assert buffer[..|buffer|] == buffer;
      RecordFlush(progress, expectedLength, flushedBefore, count);
    }
  }

  /**
   * The `for try await` loop of `download(for:progress:)`: append each byte
   * to the buffer and, once it holds 65536 bytes, write it out, clear it and
   * update the progress. On success the buffer holds the bytes after the
   * last full buffer.
   */
  method ReceiveBytes(output: OutputStream, progress: Progress, asyncBytes: Bytes, interruption: Option<Interruption>,
                      expectedLength: int)
    returns (failure: Option<DownloadError>, buffer: Bytes, count: nat, writes: seq<nat>, snapshots: seq<(int, int)>)
    requires output.Valid() && output.contents == []
    requires progress.totalUnitCount == InitialTotal(expectedLength) && progress.completedUnitCount == 0
    modifies output, progress
    ensures output.Valid()
    ensures (interruption.Some? && interruption.value.at < |asyncBytes|) ==> failure.Some?
    ensures failure.Some? && failure.value.ConnectionFailed? ==> interruption.Some? && failure.value.error == interruption.value.error
    ensures failure.Some? && !failure.value.ConnectionFailed? ==> !NeverStalls(output.writer)
    ensures NeverStalls(output.writer) && (interruption.None? || interruption.value.at >= |asyncBytes|) ==> failure.None?
    ensures failure.None? ==>
              && count == |asyncBytes| && |buffer| == |asyncBytes| % BufferSize
              && output.contents + buffer == asyncBytes
              && writes == FullWrites(|asyncBytes| / BufferSize)
              && snapshots == FlushSnapshots(expectedLength, |asyncBytes| / BufferSize)
  {
    buffer := [];
    count := 0;
    writes := [];
    snapshots := [];
    ghost var n := 0;
    for i := 0 to |asyncBytes|
      invariant output.Valid()
      invariant count == i && n * BufferSize + |buffer| == i && |buffer| < BufferSize
      invariant output.contents == asyncBytes[..n * BufferSize] && buffer == asyncBytes[n * BufferSize..i]
      invariant writes == FullWrites(n) && snapshots == FlushSnapshots(expectedLength, n)
      invariant progress.totalUnitCount == if n == 0 then InitialTotal(expectedLength) else TotalAfterFlush(expectedLength, n * BufferSize)
      invariant progress.completedUnitCount == n * BufferSize
      invariant interruption.None? || interruption.value.at >= i
    {
      if interruption.Some? && interruption.value.at == i {
        return Some(ConnectionFailed(interruption.value.error)), buffer, count, writes, snapshots;
      }
      count := count + 1;
      buffer := buffer + [asyncBytes[i]];
      if |buffer| >= BufferSize {
        var error := FlushBuffer(output, progress, buffer, expectedLength, count - |buffer|, count);
        if error.Some? {
          return Some(StreamFailed(error.value)), buffer, count, writes, snapshots;
        }
        writes := writes + [|buffer|];
        buffer := [];
        n := n + 1;
        snapshots := snapshots + [(progress.totalUnitCount, progress.completedUnitCount)];
      }
    }
    DivideIntoBuffers(|asyncBytes|, n, |buffer|);
    failure := None;
  }

  /**
   * `URLSession.download(for:progress:)`. `connection` is what `bytes(for:)`
   * gives: the expected content length (-1 when unknown) or its error.
   */
  method DownloadFor(connection: Result<int, NSError>, canOpenOutput: bool, asyncBytes: Bytes,
                     interruption: Option<Interruption>, writer: Writer)
    returns (r: Result<Fetched, DownloadError>)
    requires WithinMaxLength(writer)
    ensures connection.Failure? ==> r == Failure(ConnectionFailed(connection.error))
    ensures connection.Success? && !canOpenOutput ==> r == Failure(CannotOpenFile)
    ensures (interruption.Some? && interruption.value.at <= |asyncBytes|) ==> r.Failure?
    // on a stream that never stalls, an interruption fails the download with the connection's own error
    ensures (connection.Success? && canOpenOutput && NeverStalls(writer)
             && interruption.Some? && interruption.value.at <= |asyncBytes|)
              ==> r == Failure(ConnectionFailed(interruption.value.error))
    ensures (connection.Success? && canOpenOutput && (interruption.None? || interruption.value.at > |asyncBytes|)
             && NeverStalls(writer)) ==> r.Success?
    // the file holds the received bytes in order, and the final progress is complete
    ensures r.Success? ==>
              && r.value.file == asyncBytes
              && r.value.totalUnitCount == r.value.completedUnitCount == |asyncBytes|
    // the writes and the progress after each in-loop flush
    ensures r.Success? ==>
              && r.value.writes == FlushSizes(|asyncBytes|)
              && r.value.snapshots == FlushSnapshots(connection.value, |asyncBytes| / BufferSize)
  {
    if connection.Failure? {
      return Failure(ConnectionFailed(connection.error));
    }
    var expectedLength := connection.value;
    var progress := new Progress();
    progress.totalUnitCount := InitialTotal(expectedLength);
    if !canOpenOutput {
      return Failure(CannotOpenFile);
    }
    var output := new OutputStream(writer);

    var failure, buffer, count, writes, snapshots := ReceiveBytes(output, progress, asyncBytes, interruption, expectedLength);
    if failure.Some? {
      return Failure(failure.value);
    }
    if interruption.Some? && interruption.value.at == |asyncBytes| {
      return Failure(ConnectionFailed(interruption.value.error));
    }
    if |buffer| > 0 {
      if NeverStalls(writer) {
        NeverStallsWritesAll(buffer, 0, output.calls, writer);
      }
      var error := output.Write(buffer, true);
      if error.Some? {
        return Failure(StreamFailed(error.value));
      }
      writes := writes + [|buffer|];
    }
    progress.totalUnitCount := count;
    progress.completedUnitCount := count;
    return Success(Fetched(output.contents, progress.totalUnitCount, progress.completedUnitCount, writes, snapshots));
  }

  /**
   * The error `download(for:receive:)` catches from the byte download: a
   * connection error as it is, the others as their bridging makes them.
   */
  function DownloadErrorAsNSError(e: DownloadError, bridge: DownloadError -> NSError): (ns: NSError)
    ensures e.ConnectionFailed? ==> ns == e.error
    ensures !e.ConnectionFailed? ==> ns == bridge(e)
  {
    if e.ConnectionFailed? then e.error else bridge(e)
  }

  /**
   * `AsyncNetwork.download(for:receive:)`: build the request, download its
   * URL into `tempFile`, remove whatever is at the destination (ignoring any
   * error), move the file there and hand back the delegate's download
   * subject. Any error caught on the way is returned as a new subject that
   * has already failed with the converted error. `subject` is `None` when
   * the force-unwrapped destination is nil, which traps; `fetched` is what
   * the byte download gave, when it ran.
   */
  method Download(delegate: NetworkSessionDelegate, r: DownloadRequest, order: seq<NetworkHTTPHeaderKey>,
                  isInternetReachable: bool, bridge: NetworkError -> NSError,
                  connection: Result<int, NSError>, canOpenOutput: bool, asyncBytes: Bytes,
                  interruption: Option<Interruption>, writer: Writer,
                  bridgeDownload: DownloadError -> NSError, tempFile: Url, moveError: Option<NSError>)
    returns (subject: Option<Subject<NetworkDownloadResponse>>, fetched: Option<Result<Fetched, DownloadError>>, ops: seq<FileOp>)
    requires EnumeratesKeys(order, r.request.httpHeaderFields) && WithinMaxLength(writer)
    ensures var built := BuildRequest(r.request, order, isInternetReachable);
            built.result.Failure? ==>
              && fetched.None? && ops == []
              && subject.Some? && fresh(subject.value) && subject.value.Valid()
              && subject.value.sent == [End(Failed(ConvertErrorToNetworkError(ThrownAsNSError(built.result.error, bridge))))]
    ensures BuildRequest(r.request, order, isInternetReachable).result.Success? ==> fetched.Some?
    ensures fetched.Some? && fetched.value.Success? ==> fetched.value.value.file == asyncBytes
    ensures fetched.Some? && fetched.value.Failure? ==>
              && ops == []
              && subject.Some? && fresh(subject.value) && subject.value.Valid()
              && subject.value.sent == [End(Failed(ConvertErrorToNetworkError(DownloadErrorAsNSError(fetched.value.error, bridgeDownload))))]
    ensures fetched.Some? && fetched.value.Success? && r.saveDownloadedUrlToLocation.None? ==> subject.None? && ops == []
    ensures fetched.Some? && fetched.value.Success? && r.saveDownloadedUrlToLocation.Some? ==>
              var destination := r.saveDownloadedUrlToLocation.value;
              && ops == [RemoveItem(destination), MoveItem(tempFile, destination)]
              && subject.Some?
              && (moveError.None? ==> subject.value == delegate.downloadProgressSubject)
              && (moveError.Some? ==>
                    && fresh(subject.value) && subject.value.Valid()
                    && subject.value.sent == [End(Failed(ConvertErrorToNetworkError(moveError.value)))])
  {
    ops := [];
    var built, _ := MakeRequest(r.request, order, isInternetReachable);
    var error: NSError;
    if built.Failure? {
      fetched := None;
      error := ThrownAsNSError(built.error, bridge);
    } else {
      var downloaded := DownloadFor(connection, canOpenOutput, asyncBytes, interruption, writer);
      fetched := Some(downloaded);
      if downloaded.Failure? {
        error := DownloadErrorAsNSError(downloaded.error, bridgeDownload);
      } else if r.saveDownloadedUrlToLocation.None? {
        return None, fetched, ops;
      } else {
        var destination := r.saveDownloadedUrlToLocation.value;
        ops := [RemoveItem(destination), MoveItem(tempFile, destination)];
        if moveError.None? {
          return Some(delegate.downloadProgressSubject), fetched, ops;
        }
        error := moveError.value;
      }
    }
    var failure := new Subject<NetworkDownloadResponse>();
    failure.SendCompletion(Failed(ConvertErrorToNetworkError(error)));
    return Some(failure), fetched, ops;
  }
}
