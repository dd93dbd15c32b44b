/**
 * `OutputStream.write(_:)` from the async download path: the partial-write
 * loop that offers the stream what is left of a buffer until it has taken
 * all of it.
 */
module OutputStreams {
  import opened Wrappers
  import opened Bytes

  datatype OutputStreamError = WriteFailure | BufferFailure

  /**
   * What `write(_:maxLength:)` returns on its k-th call when offered m bytes:
   * the number of bytes it took, 0 when a fixed-length stream is full, or a
   * negative number on error.
   */
  type Writer = (nat, nat) -> int

  /** The stream never reports taking more bytes than it was offered. */
  ghost predicate WithinMaxLength(writer: Writer)
  {
    forall k: nat, m: nat :: writer(k, m) <= m
  }

  /** The stream always takes at least one of the bytes it is offered. */
  ghost predicate NeverStalls(writer: Writer)
  {
    forall k: nat, m: nat :: m > 0 ==> writer(k, m) > 0
  }

  /** How a `write(_:)` ends, how far into the data it got, and how many stream calls were made in all. */
  datatype WriteRun = WriteRun(outcome: Option<OutputStreamError>, accepted: nat, calls: nat)

  /**
   * The partial-write loop from `offset` on, starting with stream call `k`,
   * with a count of zero treated as a failure.
   */
  function WriteFrom(data: Bytes, offset: nat, k: nat, writer: Writer): (run: WriteRun)
    requires offset <= |data| && WithinMaxLength(writer)
    ensures offset <= run.accepted <= |data| && k <= run.calls
    ensures run.outcome.None? <==> run.accepted == |data|
    ensures run.outcome.Some? ==> run.outcome == Some(WriteFailure)
    decreases |data| - offset
  {
    if offset == |data| then WriteRun(None, offset, k)
    else
      var bytesWritten := writer(k, |data| - offset);
      if bytesWritten <= 0 then WriteRun(Some(WriteFailure), offset, k + 1)
      else WriteFrom(data, offset + bytesWritten, k + 1, writer)
  }

  /** A write that fails does so at the first call that took nothing or reported an error. */
  lemma {:induction false} FailureIsAStall(data: Bytes, offset: nat, k: nat, writer: Writer)
    requires offset <= |data| && WithinMaxLength(writer)
    ensures var run := WriteFrom(data, offset, k, writer);
            run.outcome.Some? ==> run.calls > k && writer(run.calls - 1, |data| - run.accepted) <= 0
    decreases |data| - offset
  {
    if offset < |data| {
      var bytesWritten := writer(k, |data| - offset);
      if bytesWritten > 0 {
        FailureIsAStall(data, offset + bytesWritten, k + 1, writer);
      }
    }
  }

  /** One pass of the partial-write loop. */
  lemma WriteFromStep(data: Bytes, offset: nat, k: nat, writer: Writer)
    requires offset < |data| && WithinMaxLength(writer)
    ensures var bytesWritten := writer(k, |data| - offset);
            WriteFrom(data, offset, k, writer)
              == if bytesWritten <= 0 then WriteRun(Some(WriteFailure), offset, k + 1)
                 else WriteFrom(data, offset + bytesWritten, k + 1, writer)
  {
  }

  /** Appending the next slice of `data` to what was written of it extends the written prefix. */
  lemma PrefixGrows(front: Bytes, data: Bytes, i: nat, j: nat)
    requires i <= j <= |data|
    ensures front + data[..i] + data[i..j] == front + data[..j]
  {
    assert data[..i] + data[i..j] == data[..j];
    AppendAssoc(front, data[..i], data[i..j]);
  }

  /** `OutputStream.write(_:)`: no base address fails at once; otherwise the partial-write loop. */
  function StreamWrite(data: Bytes, hasBaseAddress: bool, k: nat, writer: Writer): (run: WriteRun)
    requires WithinMaxLength(writer)
    ensures !hasBaseAddress ==> run == WriteRun(Some(BufferFailure), 0, k)
    ensures run.accepted <= |data| && (run.outcome.None? ==> run.accepted == |data|)
  {
    if !hasBaseAddress then WriteRun(Some(BufferFailure), 0, k) else WriteFrom(data, 0, k, writer)
  }

  /** A stream that never stalls takes the whole buffer. */
  lemma {:induction false} NeverStallsWritesAll(data: Bytes, offset: nat, k: nat, writer: Writer)
    requires offset <= |data| && WithinMaxLength(writer) && NeverStalls(writer)
    ensures WriteFrom(data, offset, k, writer).outcome.None?
    decreases |data| - offset
  {
    if offset < |data| {
      NeverStallsWritesAll(data, offset + writer(k, |data| - offset), k + 1, writer);
    }
  }

  /** A stream that takes nothing ends the write with a failure after one call. */
  lemma FullStreamFails(data: Bytes, k: nat, writer: Writer)
    requires |data| > 0 && WithinMaxLength(writer) && writer(k, |data|) == 0
    ensures WriteFrom(data, 0, k, writer) == WriteRun(Some(WriteFailure), 0, k + 1)
  {
  }

  /** The state of the `while bytesRemaining > 0` loop as the source writes it. */
  datatype LoopState = LoopState(bytesRemaining: int, pointer: int, calls: nat, thrown: bool)

  /**
   * The loop exactly as written, run for at most `passes` passes: only a
   * negative count throws, and a count of zero leaves the state as it was.
   */
  function AsWrittenRun(s: LoopState, writer: Writer, passes: nat): (r: LoopState)
    ensures r.calls >= s.calls
    decreases passes
  {
    if passes == 0 || s.thrown || s.bytesRemaining <= 0 then s
    else
      var bytesWritten := writer(s.calls, s.bytesRemaining);
      var next := if bytesWritten < 0 then s.(calls := s.calls + 1, thrown := true)
                  else LoopState(s.bytesRemaining - bytesWritten, s.pointer + bytesWritten, s.calls + 1, false);
      AsWrittenRun(next, writer, passes - 1)
  }

  /**
   * As written, a stream that keeps taking nothing keeps the loop going for
   * ever: after any number of passes nothing has been written or thrown and the
   * guard still holds.
   */
  lemma {:induction false} ZeroWriteSpins(size: nat, calls: nat, writer: Writer, passes: nat)
    requires size > 0
    requires forall k: nat :: writer(k, size) == 0
    ensures var r := AsWrittenRun(LoopState(size, 0, calls, false), writer, passes);
            r.bytesRemaining == size > 0 && r.pointer == 0 && !r.thrown && r.calls == calls + passes
    decreases passes
  {
    if passes > 0 {
      assert writer(calls, size) == 0;
      ZeroWriteSpins(size, calls + 1, writer, passes - 1);
    }
  }

  /** A stream that never answers 0 to a non-empty offer: each call takes bytes or reports an error. */
  ghost predicate NeverZero(writer: Writer)
  {
    forall k: nat, m: nat :: m > 0 ==> writer(k, m) != 0
  }

  /**
   * On a stream that never answers 0 the loop as written and the corrected
   * loop agree: given enough passes, the loop as written ends at the same
   * place, after the same calls, and throws exactly when the corrected loop
   * fails.
   */
  lemma {:induction false} AsWrittenAgrees(data: Bytes, offset: nat, k: nat, writer: Writer, passes: nat)
    requires offset <= |data| && WithinMaxLength(writer) && NeverZero(writer)
    requires passes >= |data| - offset
    ensures var run := WriteFrom(data, offset, k, writer);
            AsWrittenRun(LoopState(|data| - offset, offset, k, false), writer, passes)
              == LoopState(|data| - run.accepted, run.accepted, run.calls, run.outcome.Some?)
    decreases |data| - offset
  {
    if offset < |data| {
      var bytesWritten := writer(k, |data| - offset);
      if bytesWritten > 0 {
        AsWrittenAgrees(data, offset + bytesWritten, k + 1, writer, passes - 1);
      }
    }
  }

  class OutputStream {
    const writer: Writer
    /** The bytes the file has received so far. */
    var contents: Bytes
    /** How many `write(_:maxLength:)` calls have been made. */
    var calls: nat

    ghost predicate Valid()
      reads this
    {
      WithinMaxLength(writer)
    }

    /** `OutputStream(url:append: false)` followed by `open()`. */
    constructor (writer: Writer)
      requires WithinMaxLength(writer)
      ensures Valid() && this.writer == writer && contents == [] && calls == 0
    {
      this.writer := writer;
      contents := [];
      calls := 0;
    }

    /** `write(_:maxLength:)` offered `maxLength` bytes of `data` from `offset`. */
    method WriteBytes(data: Bytes, offset: nat, maxLength: nat) returns (bytesWritten: int)
      requires Valid() && offset + maxLength <= |data|
      modifies this
      ensures Valid() && calls == old(calls) + 1 && bytesWritten == writer(old(calls), maxLength)
      ensures contents == old(contents) + (if bytesWritten > 0 then data[offset..offset + bytesWritten] else [])
    {
      bytesWritten := writer(calls, maxLength);
      if bytesWritten > 0 {
        contents := contents + data[offset..offset + bytesWritten];
      }
      calls := calls + 1;
    }

    /**
     * `write(_:)`: no base address fails at once with `bufferFailure`;
     * otherwise the partial-write loop.
     */
    method Write(data: Bytes, hasBaseAddress: bool) returns (error: Option<OutputStreamError>)
      requires Valid()
      modifies this
      ensures Valid()
      ensures var run := StreamWrite(data, hasBaseAddress, old(calls), writer);
              error == run.outcome && calls == run.calls && contents == old(contents) + data[..run.accepted]
    {
      if !hasBaseAddress {
        return Some(BufferFailure);
      }
      error := WriteAll(data);
    }

    /**
     * The loop of `write(_:)`: offer the stream what is left until every
     * byte is taken, advancing past what each call takes; a count of zero
     * or below fails with `writeFailure`.
     */
    method WriteAll(data: Bytes) returns (error: Option<OutputStreamError>)
      requires Valid()
      modifies this
      ensures Valid()
      ensures var run := WriteFrom(data, 0, old(calls), writer);
              error == run.outcome && calls == run.calls && contents == old(contents) + data[..run.accepted]
    {
      ghost var run := WriteFrom(data, 0, calls, writer);
      var pointer := 0;
      var bytesRemaining := |data|;
      while bytesRemaining > 0
        invariant Valid()
        invariant 0 <= pointer <= |data| && bytesRemaining == |data| - pointer
        invariant contents == old(contents) + data[..pointer]
        invariant WriteFrom(data, pointer, calls, writer) == run
        decreases bytesRemaining
      {
        ghost var k := calls;
        WriteFromStep(data, pointer, k, writer);
        var bytesWritten := WriteBytes(data, pointer, bytesRemaining);
        if bytesWritten <= 0 {
          return Some(WriteFailure);
        }
        PrefixGrows(old(contents), data, pointer, pointer + bytesWritten);
        bytesRemaining := bytesRemaining - bytesWritten;
        pointer := pointer + bytesWritten;
      }
      assert data[..pointer] == data;
      return None;
    }
  }
}
