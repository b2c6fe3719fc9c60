/**
 * The I/O the watermark package relies on: a read-write-seek byte stream
 * (`io.ReadWriteSeeker`, an open `*os.File`) and a file system that opens
 * files for reading or for reading and writing.
 */
module Io {
  import opened Wrappers

  newtype byte = x: int | 0 <= x < 256

  /** An error value produced outside the package; it reaches the caller unchanged. */
  datatype Fault = Fault(msg: string)

  /** The observable state of a stream: its bytes and the offset of the next read or write. */
  datatype StreamState = StreamState(data: seq<byte>, pos: nat)

  predicate InBounds(s: StreamState) {
    s.pos <= |s.data|
  }

  function Min(a: int, b: int): int {
    if a <= b then a else b
  }

  /** The state after a reader has consumed `n` bytes; reading stops at the end of the data. */
  function AfterRead(s: StreamState, n: nat): (r: StreamState)
    requires InBounds(s)
    ensures InBounds(r) && r.data == s.data && s.pos <= r.pos
    ensures r.pos == Min(s.pos + n, |s.data|)
  {
    StreamState(s.data, Min(s.pos + n, |s.data|))
  }

  /**
   * The state after writing `bytes` at the current offset: they replace the old
   * bytes there, the file grows only if they run past its end, and nothing is
   * truncated.
   */
  function Overwrite(s: StreamState, bytes: seq<byte>): (r: StreamState)
    requires InBounds(s)
    ensures InBounds(r) && r.pos == s.pos + |bytes|
    ensures r.data[..s.pos] == s.data[..s.pos]
    ensures r.data[s.pos..r.pos] == bytes
    ensures |r.data| == if |s.data| < r.pos then r.pos else |s.data|
    ensures forall k :: r.pos <= k < |s.data| ==> r.data[k] == s.data[k]
  {
    var end := s.pos + |bytes|;
    StreamState(s.data[..s.pos] + bytes + (if end < |s.data| then s.data[end..] else []), end)
  }

  /** A byte stream that can be read, written and repositioned to its start. */
  class Stream {
    var data: seq<byte>
    var pos: nat
    /** The error `Seek(0, io.SeekStart)` reports on this stream, if any. */
    const seekFault: Option<Fault>

    predicate Valid()
      reads this
    {
      pos <= |data|
    }

    function State(): (s: StreamState)
      reads this
    {
      StreamState(data, pos)
    }

    /** The bytes a reader sees from the current offset on. */
    function Unread(): seq<byte>
      reads this
      requires Valid()
    {
      data[pos..]
    }

    constructor (data: seq<byte>, seekFault: Option<Fault>)
      ensures Valid() && State() == StreamState(data, 0) && this.seekFault == seekFault
    {
      this.data := data;
      this.pos := 0;
      this.seekFault := seekFault;
    }

    /** A reader has consumed `n` bytes. */
    method Consume(n: nat)
      requires Valid()
      modifies this
      ensures Valid() && State() == AfterRead(old(State()), n)
    {
      pos := Min(pos + n, |data|);
    }

    /** `Seek(0, io.SeekStart)`; on failure the offset is left where it was. */
    method SeekStart() returns (fault: Option<Fault>)
      requires Valid()
      modifies this
      ensures Valid() && fault == seekFault
      ensures State() == if seekFault.None? then StreamState(old(data), 0) else old(State())
    {
      fault := seekFault;
      if seekFault.None? {
        pos := 0;
      }
    }

    method Write(bytes: seq<byte>)
      requires Valid()
      modifies this
      ensures Valid() && State() == Overwrite(old(State()), bytes)
    {
      var s := Overwrite(State(), bytes);
      data, pos := s.data, s.pos;
    }
  }

  /** The flags of `os.Open` (read only) and `os.OpenFile(path, os.O_RDWR, …)`. */
  datatype OpenMode = ReadOnly | ReadWrite

  /** The files of the file system, by path. */
  class FileSystem {
    var files: map<string, seq<byte>>
    /** The error the operating system reports when it refuses to open a path in a mode, if any. */
    const refusal: (string, OpenMode) -> Option<Fault>

    constructor (files: map<string, seq<byte>>, refusal: (string, OpenMode) -> Option<Fault>)
      ensures this.files == files && this.refusal == refusal
    {
      this.files := files;
      this.refusal := refusal;
    }

    /**
     * The error opening `path` in `mode` fails with: a refusal by the operating
     * system, or a missing file, since neither mode creates one.
     */
    function OpenFault(path: string, mode: OpenMode): (f: Option<Fault>)
      reads this
      ensures f.None? ==> path in files
    {
      if refusal(path, mode).Some? then refusal(path, mode)
      else if path !in files then Some(Fault("open " + path + ": no such file or directory"))
      else None
    }

    /** Opens `path`, positioned at its first byte; a regular file can always seek. */
    method Open(path: string, mode: OpenMode) returns (r: Result<Stream, Fault>)
      ensures OpenFault(path, mode).Some? <==> r.Failure?
      ensures r.Failure? ==> r.error == OpenFault(path, mode).value
      ensures r.Success? ==> fresh(r.value) && r.value.Valid() && r.value.seekFault.None?
      ensures r.Success? ==> path in files && r.value.State() == StreamState(files[path], 0)
    {
      var fault := OpenFault(path, mode);
      if fault.Some? {
        return Failure(fault.value);
      }
      var s := new Stream(files[path], None);
      return Success(s);
    }

    /** Closes a stream opened on `path`: the file now holds what was written to it. */
    method Close(path: string, s: Stream)
      modifies this
      ensures files == old(files)[path := s.data]
    {
      files := files[path := s.data];
    }
  }
}
