/** An output stream (Sources/SoundIO/OutStream.swift). */
module Output {
  import opened Errors
  import Values
  import opened Channels
  import opened Streams

  /** The binding's `OutStream.Callbacks` object: one slot for the write closure. */
  class WriteCallbacks {
    var onWrite: Option<Closure>

    constructor ()
      ensures onWrite == None
    {
      onWrite := None;
    }
  }

  /** The fields of the C `SoundIoOutStream` the binding reads or writes, and how often the
      C stream was destroyed. */
  class NativeOutStream {
    var format: int
    var sampleRate: CInt
    var layout: LayoutData
    var layoutError: CInt
    /** `userdata`: the callbacks object handed to C. */
    var userdata: WriteCallbacks?
    /** `write_callback` points at the binding's trampoline. */
    var writeHooked: bool
    /** How often `soundio_outstream_destroy` was called on this stream. */
    var destroyed: nat

    constructor (layout: LayoutData)
      ensures this.layout == layout && userdata == null && !writeHooked && destroyed == 0
    {
      format, sampleRate, this.layout, layoutError := 0, 0, layout, 0;
      userdata, writeHooked, destroyed := null, false, 0;
    }

    /** Once the trampoline is installed, C also holds the callbacks object it reads. */
    ghost predicate Valid()
      reads this
    {
      writeHooked ==> userdata != null
    }
  }

  /** What `soundio_outstream_open` produces: its status, and the `layout_error` it leaves
      in the stream. */
  datatype OpenReply = OpenReply(status: CInt, layoutError: CInt)

  /** `OutStream`: a Swift wrapper around one C output stream. */
  class OutStream {
    const native: NativeOutStream
    const callbacks: WriteCallbacks
    /** Set on the wrapper the write trampoline builds, so that dropping it leaves the C
        stream alone. */
    var temporary: bool

    /** `init(internalPointer:)`. */
    constructor Wrap(native: NativeOutStream)
      ensures this.native == native && !temporary
      ensures fresh(callbacks) && callbacks.onWrite == None
    {
      this.native := native;
      callbacks := new WriteCallbacks();
      temporary := false;
    }

    /** `deinit`: a temporary wrapper only clears its flag; any other destroys the C stream. */
    method Deinit()
      modifies this`temporary, native`destroyed
      ensures !temporary
      ensures native.destroyed == if old(temporary) then old(native.destroyed) else old(native.destroyed) + 1
    {
      if temporary {
        temporary := false;
      } else {
        native.destroyed := native.destroyed + 1;
      }
    }

    /** The getter of `format`: the raw C field, wrapped. */
    function Format(): (f: Values.Format)
      reads native
      ensures f.rawValue == native.format
    {
      Values.Format(native.format)
    }

    /** The setter of `format`: stores the raw value in the C field and nothing else, so
        reading `format` back gives the value set. */
    method SetFormat(f: Values.Format)
      modifies native`format
      ensures native.format == f.rawValue
      ensures Format() == f
    {
      native.format := f.rawValue;
    }

    /** `layout`: the C stream's layout. */
    function Layout(): (l: ChannelLayout)
      reads native
      ensures l.pointee == native.layout
    {
      ChannelLayout(native.layout)
    }

    /** `sampleRate`: `UInt(sample_rate)`, a conversion that traps on a negative rate. */
    function SampleRate(): (r: nat)
      reads native
      requires 0 <= native.sampleRate
      ensures r == native.sampleRate
    {
      native.sampleRate
    }

    /** `writeCallback(_:)`: the one slot now holds `callback`, and the C stream points at
        this wrapper's callbacks and the trampoline. */
    method WriteCallback(callback: Closure)
      modifies callbacks, native`userdata, native`writeHooked
      ensures callbacks.onWrite == Some(callback)
      ensures native.userdata == callbacks && native.writeHooked && native.Valid()
    {
      callbacks.onWrite := Some(callback);
      native.userdata := callbacks;
      native.writeHooked := true;
    }

    /** The `write_callback` trampoline, as far as the binding's own logic goes: for a null
        stream it does nothing; otherwise it wraps the stream in a temporary `OutStream`,
        calls the closure in the slot C's `userdata` points at with the two frame bounds
        (the returned `invoked`), and drops the wrapper without destroying the stream. */
    static method WriteTrampoline(stream: NativeOutStream?, frameCountMin: CInt, frameCountMax: CInt)
      returns (invoked: Option<(Closure, CInt, CInt)>)
      requires stream != null ==> stream.Valid() && stream.writeHooked
      modifies stream
      ensures stream == null ==> invoked == None
      ensures stream != null ==> stream.userdata == old(stream.userdata) != null
      ensures stream != null ==>
        invoked == match stream.userdata.onWrite
                   case None => None
                   case Some(c) => Some((c, frameCountMin, frameCountMax))
      ensures stream != null ==> stream.destroyed == old(stream.destroyed)
      ensures stream != null ==> unchanged(stream)
    {
      if stream == null {
        return None;
      }
      var out := new OutStream.Wrap(stream);
      out.temporary := true;
      invoked := match stream.userdata.onWrite
                 case None => None
                 case Some(c) => Some((c, frameCountMin, frameCountMax));
      out.Deinit();
    }

    /** `open()`: `reply` is what `soundio_outstream_open` returned and left in
        `layout_error`. A positive open status throws; otherwise a positive layout error
        throws; only when both are at most 0 does the stream open. */
    method Open(reply: OpenReply, strerror: Strerror) returns (r: Outcome<SoundIOError>)
      modifies native`layoutError
      ensures native.layoutError == reply.layoutError
      ensures r == Pass <==> reply.status <= 0 && reply.layoutError <= 0
      ensures 0 < reply.status ==> r == Fail(FromCode(reply.status, strerror))
      ensures reply.status <= 0 && 0 < reply.layoutError ==> r == Fail(FromCode(reply.layoutError, strerror))
    {
      native.layoutError := reply.layoutError;
      var status := EnsureSuccess(reply.status, strerror);
      if status.Fail? {
        return status;
      }
      r := EnsureSuccess(native.layoutError, strerror);
    }

    /** `beginWrite(areas:frameCount:)`, the `call`-th begin of a loop: throws for a positive
        status, and otherwise hands back the areas and the frame count C stored. */
    function BeginWrite(backend: Replies, call: nat, frameCount: CInt): (r: Result<BeginReply, SoundIOError>)
      ensures r.Failure? <==> 0 < backend.begin(call, frameCount).status
      ensures r.Failure? ==> r.error == FromCode(backend.begin(call, frameCount).status, backend.strerror)
      ensures r.Success? ==> r.value == backend.begin(call, frameCount)
    {
      var reply := backend.begin(call, frameCount);
      match EnsureSuccess(reply.status, backend.strerror)
      case Fail(e) => Failure(e)
      case Pass => Success(reply)
    }

    /** `endWrite()`, the `call`-th end of a loop: throws for a positive status. */
    function EndWrite(backend: Replies, call: nat): (r: Outcome<SoundIOError>)
      ensures r == Pass <==> backend.end(call) <= 0
      ensures r != Pass ==> r.error == FromCode(backend.end(call), backend.strerror)
    {
      EnsureSuccess(backend.end(call), backend.strerror)
    }

    /** `write(frameCount:_:)` as written. After a full bracket the loop subtracts the
        requested `frameCount` rather than the frames granted, so `framesLeft` drops to 0
        and the loop never goes round a second time: one call is exactly `Once`. */
    method Write(frameCount: CInt, backend: Replies, task: Task) returns (r: Bracketed)
      ensures r == Once(frameCount, backend, task)
    {
      var trace: seq<Event> := [];
      var framesLeft := frameCount;
      var call: nat := 0;
      while 0 < framesLeft
        invariant || (framesLeft == frameCount && call == 0 && trace == [])
                  || (framesLeft == 0 < frameCount && call == 1 && Once(frameCount, backend, task) == Bracketed(Pass, trace))
      {
        var actualFrameCount := framesLeft;
        trace := trace + [Begin(actualFrameCount)];
        var begun := BeginWrite(backend, call, actualFrameCount);
        if begun.Failure? {
          return Bracketed(Fail(Native(begun.error)), trace);
        }
        var areas := begun.value.areas;
        actualFrameCount := begun.value.frameCount;

        if actualFrameCount == 0 {
          break;
        }

        trace := trace + [Run(areas, actualFrameCount)];
        var done := task(call, areas, actualFrameCount);
        if done.Threw? {
          return Bracketed(Fail(FromTask(done.reason)), trace);
        }
        trace := trace + [End];
        var ended := EndWrite(backend, call);
        if ended.Fail? {
          return Bracketed(Fail(Native(ended.error)), trace);
        }

        framesLeft := framesLeft - frameCount;
        call := call + 1;
      }
      r := Bracketed(Pass, trace);
    }

    /** `write(frameCount:_:)` with `framesLeft` decreased by the frames granted: brackets
        follow one another until every requested frame went to the closure, the backend
        grants zero frames, or something throws. It relies on the C library's promise that
        a grant is never negative nor larger than the request. */
    method WriteAll(frameCount: CInt, backend: Replies, task: Task) returns (r: Bracketed)
      requires GrantsWithinRequest(backend)
      ensures frameCount <= 0 ==> r == Bracketed(Pass, [])
      ensures 0 <= Delivered(r.trace) <= (if frameCount < 0 then 0 else frameCount)
      ensures 0 < frameCount && r.outcome == Pass && !EndsInBegin(r.trace) ==> Delivered(r.trace) == frameCount
    {
      var trace: seq<Event> := [];
      var framesLeft := frameCount;
      var call: nat := 0;
      while 0 < framesLeft
        invariant frameCount <= 0 ==> trace == [] && framesLeft == frameCount
        invariant 0 < frameCount ==> 0 <= framesLeft && Delivered(trace) + framesLeft == frameCount
        invariant !EndsInBegin(trace)
        decreases framesLeft
      {
        var actualFrameCount := framesLeft;
        DeliveredAppend(trace, Begin(actualFrameCount));
        trace := trace + [Begin(actualFrameCount)];
        var begun := BeginWrite(backend, call, actualFrameCount);
        if begun.Failure? {
          return Bracketed(Fail(Native(begun.error)), trace);
        }
        var areas := begun.value.areas;
        actualFrameCount := begun.value.frameCount;

        if actualFrameCount == 0 {
          return Bracketed(Pass, trace);
        }

        DeliveredAppend(trace, Run(areas, actualFrameCount));
        trace := trace + [Run(areas, actualFrameCount)];
        var done := task(call, areas, actualFrameCount);
        if done.Threw? {
          return Bracketed(Fail(FromTask(done.reason)), trace);
        }
        DeliveredAppend(trace, End);
        trace := trace + [End];
        var ended := EndWrite(backend, call);
        if ended.Fail? {
          return Bracketed(Fail(Native(ended.error)), trace);
        }

        framesLeft := framesLeft - actualFrameCount;
        call := call + 1;
      }
      r := Bracketed(Pass, trace);
    }
  }
}
