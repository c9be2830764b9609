/**
 Bounded and verified streams. A source hands out its bytes in chunks of any
 size, may report end-of-stream with or after its last bytes, and may fail at
 any read; which of these it does is its script.
 */
module Streams {
  import opened Base

  type byte = x: int | 0 <= x < 256

  /** SHA-256 is taken to be injective: the digest is named by the bytes it digests. */
  datatype Digest = Sha256(bytes: seq<byte>)

  datatype Error = ErrTooLarge | ErrIntegrity | ErrContext | ErrBackend | ErrNotConsumed

  datatype Status = Fine | Eof | Failed(error: Error)

  /** How one read of the source goes: at most `count` bytes, an early end-of-stream report, or a failure. */
  datatype Choice = Choice(count: nat, eof: bool, fails: bool)

  /** One caller's read: its buffer size, and what the context polls before and after the source read say. */
  datatype Call = Call(capacity: nat, before: bool, after: bool)

  /** A read that delivers something and reports the end with the last bytes. */
  predicate Obliging(choice: Choice) { choice.count > 0 && choice.eof && !choice.fails }

  predicate Alive(call: Call) { call.capacity > 0 && call.before && call.after }

  /** Reads that will not fail, under a context that does not end, and enough of them for the content. */
  predicate Cooperative(script: seq<Choice>, calls: seq<Call>, length: nat) {
    && length < |calls| <= |script|
    && (forall i :: 0 <= i < |calls| ==> Alive(calls[i]) && Obliging(script[i]))
  }

  const MAX_INT64: int := 0x7FFF_FFFF_FFFF_FFFF

  class Source {
    const content: seq<byte>
    var pos: nat
    var script: seq<Choice>

    constructor (content: seq<byte>, script: seq<Choice>)
      ensures this.content == content && pos == 0 && this.script == script
    {
      this.content, this.pos, this.script := content, 0, script;
    }

    ghost predicate Valid()
      reads this
    {
      pos <= |content|
    }

    /** End-of-stream is reported only at the true end; a script that runs out fails. */
    method Read(capacity: nat) returns (chunk: seq<byte>, status: Status)
      requires Valid()
      modifies this
      ensures Valid() && |chunk| <= capacity
      ensures pos == old(pos) + |chunk| && chunk == content[old(pos)..pos]
      ensures status.Eof? ==> pos == |content|
      ensures status.Failed? ==> status.error == ErrBackend
      ensures old(script) != [] ==> script == old(script)[1..]
      ensures old(script) != [] && Obliging(old(script)[0]) && capacity > 0 ==>
                status == Eof || (status == Fine && |chunk| > 0)
    {
      var choice := if script == [] then Choice(0, false, true) else script[0];
      if script != [] {
        script := script[1..];
      }
      var n := Min(Min(choice.count, capacity), |content| - pos);
      chunk := content[pos..pos + n];
      pos := pos + n;
      status := if choice.fails then Failed(ErrBackend)
          else if choice.eof && pos == |content| then Eof
          else Fine;
    }
  }

  /** Enforces a byte limit and digests what it delivers. */
  class BoundedReader {
    const source: Source
    const maxBytes: int
    var hashed: seq<byte>
    var size: int
    var finished: bool
    var err: Option<Error>

    constructor (source: Source, maxBytes: int)
      requires source.Valid() && source.pos == 0
      requires 0 <= maxBytes < MAX_INT64
      ensures Valid() && this.source == source && this.maxBytes == maxBytes
      ensures hashed == [] && !finished && err.None?
    {
      this.source, this.maxBytes := source, maxBytes;
      hashed, size, finished, err := [], 0, false, None;
    }

    ghost predicate Valid()
      reads this, source
    {
      && source.Valid()
      && 0 <= maxBytes < MAX_INT64
      && size == |hashed| <= maxBytes
      && |hashed| <= |source.content|
      && hashed == source.content[..size]
      && (err.None? ==> source.pos == size)
      && (finished ==> err.None? && hashed == source.content)
    }

    method Read(call: Call) returns (chunk: seq<byte>, status: Status)
      requires Valid()
      modifies this, source
      ensures Valid() && |chunk| <= call.capacity
      ensures hashed == old(hashed) + chunk
      ensures status.Eof? <==> finished
      ensures status.Failed? <==> err.Some?
      ensures err.Some? ==> status == Failed(err.value)
      ensures old(err.Some?) ==> err == old(err) && chunk == []
      ensures old(finished) ==> finished && chunk == []
      ensures err == Some(ErrTooLarge) && old(err.None?) ==> |source.content| > maxBytes
      ensures old(err.None? && !finished && source.script != []) && call.before ==>
                source.script == old(source.script)[1..]
      ensures old(err.None? && !finished && source.script != []) && Alive(call) && Obliging(old(source.script)[0]) ==>
                status == Eof || status == Failed(ErrTooLarge) || (status == Fine && chunk != [])
    {
      if err.Some? {
        return [], Failed(err.value);
      }
      if finished {
        return [], Eof;
      }
      if !call.before {
        err := Some(ErrContext);
        return [], Failed(ErrContext);
      }
      var remaining := maxBytes - size;
      assert remaining + 1 <= MAX_INT64;
      var capacity := call.capacity;
      if capacity > remaining + 1 {
        capacity := remaining + 1;
      }
      var read, readStatus := source.Read(capacity);
      if !call.after {
        err := Some(ErrContext);
        return [], Failed(ErrContext);
      }
      if |read| > remaining {
        err := Some(ErrTooLarge);
        return [], Failed(ErrTooLarge);
      }
      hashed := hashed + read;
      size := size + |read|;
      if readStatus.Eof? {
        finished := true;
      }
      if readStatus.Failed? {
        err := Some(readStatus.error);
      }
      return read, readStatus;
    }

    /** Succeeds only with the size and digest of the whole source, and never for one longer than the limit. */
    method Result() returns (r: Result<(int, Digest), Error>)
      requires Valid()
      ensures r.Ok? <==> finished
      ensures r.Ok? ==> r.value == (|source.content|, Sha256(source.content))
      ensures |source.content| > maxBytes ==> r.Err?
    {
      if err.Some? {
        return Err(err.value);
      }
      if !finished {
        return Err(ErrNotConsumed);
      }
      r := Ok((size, Sha256(hashed)));
    }
  }

  /** io.Copy: reads until end-of-stream or a failure; a context that ends stops it. */
  method CopyAll(reader: BoundedReader, calls: seq<Call>) returns (out: seq<byte>, status: Status)
    requires reader.Valid() && reader.hashed == [] && !reader.finished && reader.err.None?
    modifies reader, reader.source
    ensures reader.Valid() && out == reader.hashed && |out| <= reader.maxBytes
    ensures out == reader.source.content[..|out|]
    ensures status.Eof? <==> reader.finished
    ensures status.Eof? ==> out == reader.source.content
    ensures status == Failed(ErrTooLarge) ==> |reader.source.content| > reader.maxBytes
    ensures |reader.source.content| > reader.maxBytes ==> !status.Eof?
    ensures Cooperative(old(reader.source.script), calls, |reader.source.content|) ==>
              status.Eof? || status == Failed(ErrTooLarge)
  {
    ghost var script, length := reader.source.script, |reader.source.content|;
    out, status := [], Fine;
    for i := 0 to |calls|
      invariant reader.Valid() && out == reader.hashed && status.Fine?
      invariant !reader.finished && reader.err.None?
      invariant Cooperative(script, calls, length) ==> reader.source.script == script[i..] && |out| >= i
    {
      var chunk;
      chunk, status := reader.Read(calls[i]);
      out := out + chunk;
      if !status.Fine? {
        return;
      }
    }
  }

  /** VerifyExpected: a completed stream against the caller's expectations. */
  predicate MeetsExpected(size: int, digest: Digest, expectedSize: Option<int>, expectedDigest: Option<Digest>) {
    && (expectedSize.Some? ==> size == expectedSize.value)
    && (expectedDigest.Some? ==> digest == expectedDigest.value)
  }

  /** Checks committed size and digest when the stream ends. */
  class VerifiedReader {
    const source: Source
    const expectedSize: int
    const expectedDigest: Digest
    var hashed: seq<byte>
    var size: int
    var finished: bool
    ghost var rejected: bool

    constructor (source: Source, expectedSize: int, expectedDigest: Digest)
      requires source.Valid() && source.pos == 0
      ensures Valid() && this.source == source && !finished && hashed == []
      ensures this.expectedSize == expectedSize && this.expectedDigest == expectedDigest
    {
      this.source, this.expectedSize, this.expectedDigest := source, expectedSize, expectedDigest;
      hashed, size, finished, rejected := [], 0, false, false;
    }

    ghost predicate Genuine() {
      |source.content| == expectedSize && Sha256(source.content) == expectedDigest
    }

    ghost predicate Valid()
      reads this, source
    {
      && source.Valid()
      && source.pos == size == |hashed|
      && hashed == source.content[..size]
      && (finished && !rejected ==> hashed == source.content && Genuine())
      && (rejected ==> finished && !Genuine())
    }

    /** Never reports end-of-stream for bytes that are not the committed ones, unless it already reported them. */
    method Read(capacity: nat, alive: bool) returns (chunk: seq<byte>, status: Status)
      requires Valid()
      modifies this, source
      ensures Valid() && |chunk| <= capacity
      ensures hashed == old(hashed) + chunk
      ensures status.Fine? ==> finished == old(finished) && !finished
      ensures status.Eof? && !old(finished) ==> finished && !rejected
      ensures status == Failed(ErrIntegrity) ==> rejected
      ensures Genuine() ==> status != Failed(ErrIntegrity)
      ensures old(finished) ==> status == Eof && chunk == []
    {
      if finished {
        return [], Eof;
      }
      if !alive {
        return [], Failed(ErrContext);
      }
      chunk, status := source.Read(capacity);
      hashed := hashed + chunk;
      size := size + |chunk|;
      if |chunk| > 0 && size > expectedSize {
        finished, rejected := true, true;
        return chunk, Failed(ErrIntegrity);
      }
      if status.Eof? {
        finished := true;
        if size != expectedSize || Sha256(hashed) != expectedDigest {
          rejected := true;
          return chunk, Failed(ErrIntegrity);
        }
      }
    }
  }

  /** After an integrity failure the reader reports a plain end-of-stream, so callers must stop at the first error. */
  method ReadPastRejection(reader: VerifiedReader, capacity: nat) returns (status: Status)
    requires reader.Valid() && reader.rejected
    modifies reader, reader.source
    ensures status == Eof && !reader.Genuine()
  {
    var _, s := reader.Read(capacity, true);
    status := s;
  }

  datatype ParseError = InputRead(cause: Error) | InputTooLarge | Cancelled

  /**
   The parser's bounded read of a report: a limit of maxBytes + 1 over the
   reader, read to the end. A report that is returned is the whole committed
   content, because the extra byte tells a full report from a cut one.
   */
  method ReadReport(reader: VerifiedReader, maxBytes: int, calls: seq<Call>) returns (r: Result<seq<byte>, ParseError>)
    requires reader.Valid() && !reader.finished && reader.hashed == []
    requires 0 < maxBytes < MAX_INT64
    modifies reader, reader.source
    ensures reader.Valid()
    ensures r.Ok? ==>
              && r.value == reader.source.content && reader.finished && !reader.rejected
              && |r.value| == reader.expectedSize && Sha256(r.value) == reader.expectedDigest
              && |r.value| <= maxBytes
    ensures r == Err(InputTooLarge) ==> |reader.source.content| > maxBytes
    ensures reader.Genuine() ==> r != Err(InputRead(ErrIntegrity))
  {
    var data: seq<byte> := [];
    var left := maxBytes + 1;
    for i := 0 to |calls|
      invariant reader.Valid() && !reader.finished
      invariant data == reader.hashed && left == maxBytes + 1 - |data| && 0 <= left
    {
      if left <= 0 {
        return Err(InputTooLarge);
      }
      if !calls[i].before {
        return Err(Cancelled);
      }
      var chunk, status := reader.Read(Min(calls[i].capacity, left), calls[i].after);
      data := data + chunk;
      left := left - |chunk|;
      match status
      case Fine =>
      case Failed(error) =>
        return Err(if error == ErrContext then Cancelled else InputRead(error));
      case Eof =>
        if |data| > maxBytes {
          return Err(InputTooLarge);
        }
        return Ok(data);
    }
    r := Err(Cancelled);
  }
}
