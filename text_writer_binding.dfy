/**
 * TextWriterArgumentBindingProvider: binds a `TextWriter` parameter to a block
 * blob. The writer writes through a self-watching stream over the blob's write
 * stream and leaves that stream open; the blob is committed only by disposing
 * the stream, which happens only in `SetValue` and only if the stream says so.
 */
module TextWriterBinding {
  import opened Wrappers
  import Guids

  /** The declared type of a function parameter, identified by its full name. */
  datatype ClrType = ClrType(fullName: string)

  /** `typeof(TextWriter)`. */
  const TextWriterType: ClrType := ClrType("System.IO.TextWriter")

  /** The concrete kind behind an `ICloudBlob`. */
  datatype BlobKind = BlockBlob | PageBlob | AppendBlob

  /** A blob; `openWrites` counts the write streams opened on it. */
  class CloudBlob {
    const kind: BlobKind
    /** What `GetBlobPath()` gives: "container/name". */
    const path: string
    var openWrites: nat

    constructor (kind: BlobKind, path: string)
      ensures this.kind == kind && this.path == path && openWrites == 0
    {
      this.kind := kind;
      this.path := path;
      openWrites := 0;
    }

    /** `CloudBlockBlob.OpenWrite()`: a new, uncommitted write stream. */
    method OpenWrite(functionInstanceId: Guids.Guid) returns (s: BlobStream)
      requires kind == BlockBlob
      modifies this
      ensures openWrites == old(openWrites) + 1
      ensures fresh(s) && s.blob == this && s.functionInstanceId == functionInstanceId && !s.committed
    {
      openWrites := openWrites + 1;
      s := new BlobStream(this, functionInstanceId);
    }
  }

  /**
   * The `SelfWatchCloudBlobStream` over the blob's write stream, with its
   * `BlobCommittedAction` for the invocation; disposing it commits the blob.
   */
  class BlobStream {
    const blob: CloudBlob
    const functionInstanceId: Guids.Guid
    var committed: bool

    constructor (blob: CloudBlob, functionInstanceId: Guids.Guid)
      ensures this.blob == blob && this.functionInstanceId == functionInstanceId && !committed
    {
      this.blob := blob;
      this.functionInstanceId := functionInstanceId;
      committed := false;
    }

    method Dispose()
      modifies this
      ensures committed
    {
      committed := true;
    }
  }

  /** A `StreamWriter` over `target`; with `leaveOpen` its disposal leaves the target alone. */
  class TextWriter {
    const target: BlobStream
    const leaveOpen: bool
    var flushed: bool
    var disposed: bool

    constructor (target: BlobStream, leaveOpen: bool)
      ensures this.target == target && this.leaveOpen == leaveOpen && !flushed && !disposed
    {
      this.target := target;
      this.leaveOpen := leaveOpen;
      flushed, disposed := false, false;
    }

    /**
     * A `StreamWriter` drops its stream on disposal only when it does not leave
     * it open; a writer that leaves it open keeps working after `Dispose`.
     */
    predicate Closed()
      reads this
    {
      disposed && !leaveOpen
    }

    /** `Flush`: a closed writer throws `ObjectDisposedException`; any other writer flushes. */
    method Flush() returns (outcome: Outcome)
      modifies this
      ensures outcome == (if old(Closed()) then Threw(ObjectDisposed) else Done)
      ensures old(Closed()) ==> unchanged(this)
      ensures !old(Closed()) ==> flushed && disposed == old(disposed)
    {
      if Closed() {
        return Threw(ObjectDisposed);
      }
      flushed := true;
      outcome := Done;
    }

    /**
     * `Dispose`: a closed writer does nothing; any other writer flushes its
     * buffer first, and closes its target only when it does not leave it open.
     */
    method Dispose()
      modifies this, if leaveOpen then {} else {target}
      ensures old(Closed()) ==> unchanged(this) && unchanged(target)
      ensures !old(Closed()) ==> flushed && disposed
      ensures !old(Closed()) && !leaveOpen ==> target.committed
      ensures leaveOpen ==> unchanged(target)
    {
      if Closed() {
        return;
      }
      flushed, disposed := true, true;
      if !leaveOpen {
        target.Dispose();
      }
    }
  }

  /** What the binder does to its writer and stream, in order. */
  datatype Op = FlushWriter | DisposeWriter | CommitStream

  /** The number of commits in a history of operations. */
  function Commits(ops: seq<Op>): (n: nat)
    ensures n <= |ops|
    ensures n == 0 <==> CommitStream !in ops
  {
    if ops == [] then 0 else (if ops[0] == CommitStream then 1 else 0) + Commits(ops[1..])
  }

  lemma {:induction false} CommitsAppend(a: seq<Op>, b: seq<Op>)
    ensures Commits(a + b) == Commits(a) + Commits(b)
  {
    if a == [] {
      assert a + b == b;
    } else {
      assert (a + b)[0] == a[0] && (a + b)[1..] == a[1..] + b;
      CommitsAppend(a[1..], b);
    }
  }

  /** The `TextWriterValueBinder` returned by `Bind`. */
  class TextWriterValueBinder {
    const blob: CloudBlob
    const stream: BlobStream
    const value: TextWriter
    var disposed: bool
    /** The writer and stream operations performed so far. */
    ghost var ops: seq<Op>

    /**
     * The writer writes into the watched stream and leaves it open, and a
     * disposed binder has disposed its writer.
     */
    ghost predicate Valid()
      reads this, value
    {
      value.target == stream && value.leaveOpen && stream.blob == blob && (disposed ==> value.disposed)
    }

    constructor (blob: CloudBlob, stream: BlobStream, value: TextWriter)
      ensures this.blob == blob && this.stream == stream && this.value == value
      ensures !disposed && ops == []
      ensures Valid() <==> value.target == stream && value.leaveOpen && stream.blob == blob
    {
      this.blob := blob;
      this.stream := stream;
      this.value := value;
      disposed := false;
      ops := [];
    }

    /** The `Type` property. */
    function Type(): (t: ClrType)
      ensures t == TextWriterArgumentBinding.Binding.ValueType()
    {
      TextWriterType
    }

    /** `Watcher`: the self-watching stream the writer writes into. */
    function Watcher(): (s: BlobStream)
      requires Valid()
      reads this, value
      ensures s == value.target && s.blob == blob
    {
      stream
    }

    /**
     * `GetValue`: the writer handed to the user function, the same one `SetValue`
     * and `Dispose` act on; it leaves the watched stream open.
     */
    function GetValue(): (w: TextWriter)
      requires Valid()
      reads this, value
      ensures w == value
      ensures w.target == Watcher() && w.leaveOpen
    {
      value
    }

    /** `ToInvokeString`: the blob's path. */
    function ToInvokeString(): (s: string)
      ensures s == blob.path
    {
      blob.path
    }

    /**
     * `SetValue`: flushes then disposes the writer, then disposes (commits) the
     * stream if and only if `complete`, the answer of the stream's `Complete()`.
     * The writer leaves the stream open, so it is never closed and this holds
     * on every call, after `Dispose` or an earlier `SetValue` too.
     */
    method SetValue(complete: bool)
      requires Valid()
      modifies value, stream, this`ops
      ensures Valid()
      ensures disposed == old(disposed)
      ensures value.flushed && value.disposed && !value.Closed()
      ensures stream.committed == (old(stream.committed) || complete)
      ensures ops == old(ops) + [FlushWriter, DisposeWriter] + (if complete then [CommitStream] else [])
    {
      var flushOutcome := value.Flush();
      assert flushOutcome == Done;
      value.Dispose();
      ops := ops + [FlushWriter, DisposeWriter];
      if complete {
        stream.Dispose();
        ops := ops + [CommitStream];
      }
    }

    /**
     * `Dispose`: the first call disposes (and so flushes) the writer only and
     * sets the flag; later calls do nothing. The stream, and so the blob, is
     * never touched.
     */
    method Dispose()
      requires Valid()
      modifies this`disposed, this`ops, value
      ensures Valid()
      ensures disposed
      ensures value.disposed == (old(value.disposed) || !old(disposed))
      ensures value.flushed == (old(value.flushed) || !old(disposed))
      ensures ops == old(ops) + (if old(disposed) then [] else [DisposeWriter])
      ensures Commits(ops) == Commits(old(ops))
      ensures unchanged(stream)
    {
      if !disposed {
        value.Dispose();
        disposed := true;
        ops := ops + [DisposeWriter];
        CommitsAppend(old(ops), [DisposeWriter]);
      }
    }
  }

  /** The argument binding `TryCreate` hands out; it holds no state. */
  datatype TextWriterArgumentBinding = Binding {
    /** The `ValueType` property. */
    static function ValueType(): ClrType {
      TextWriterType
    }
  }

  /** The invocation metadata `Bind` needs. */
  datatype ArgumentBindingContext = ArgumentBindingContext(functionInstanceId: Guids.Guid)

  datatype BindResult = Bound(binder: TextWriterValueBinder) | BindFailed(error: Exception)

  /** `TryCreate`: a binding exactly for `TextWriter` parameters, null for every other type. */
  function TryCreate(parameterType: ClrType): (r: Option<TextWriterArgumentBinding>)
    ensures r.Some? <==> parameterType == TextWriterType
    ensures r.Some? ==> r.value.ValueType() == parameterType
  {
    if parameterType != TextWriterType then None else Some(Binding)
  }

  /**
   * `Bind`: a non-block blob is an `InvalidOperationException` before anything is
   * opened; a block blob gets exactly one write stream, wrapped in a writer that
   * leaves it open, with nothing flushed, disposed or committed yet.
   */
  method Bind(blob: CloudBlob, context: ArgumentBindingContext) returns (r: BindResult)
    modifies blob
    ensures blob.kind != BlockBlob ==>
      r == BindFailed(InvalidOperation("Cannot bind a page blob to a TextWriter.")) &&
      blob.openWrites == old(blob.openWrites)
    ensures blob.kind == BlockBlob ==>
      && r.Bound?
      && blob.openWrites == old(blob.openWrites) + 1
      && fresh(r.binder) && fresh(r.binder.stream) && fresh(r.binder.value)
      && r.binder.Valid()
      && r.binder.blob == blob
      && r.binder.stream.functionInstanceId == context.functionInstanceId
      && !r.binder.stream.committed
      && !r.binder.value.flushed && !r.binder.value.disposed
      && !r.binder.disposed && r.binder.ops == []
  {
    if blob.kind != BlockBlob {
      return BindFailed(InvalidOperation("Cannot bind a page blob to a TextWriter."));
    }
    var selfWatchStream := blob.OpenWrite(context.functionInstanceId);
    var writer := new TextWriter(selfWatchStream, true);
    var binder := new TextWriterValueBinder(blob, selfWatchStream, writer);
    return Bound(binder);
  }
}
