/** An input stream (Sources/SoundIO/InStream.swift). */
module Input {
  import opened Errors
  import Values
  import opened Channels
  import opened Streams

  /** The binding's `InStream.Callbacks` object: one slot for the read closure. */
  class ReadCallbacks {
    var onRead: Option<Closure>

    constructor ()
      ensures onRead == None
    {
      onRead := None;
    }
  }

  /** The fields of the C `SoundIoInStream` the binding reads or writes, and how often the
      C stream was destroyed. */
  class NativeInStream {
    var format: int
    var sampleRate: CInt
    var layout: LayoutData
    var bytesPerFrame: CInt
    /** `userdata`: the callbacks object handed to C. */
    var userdata: ReadCallbacks?
    /** `read_callback` points at the binding's trampoline. */
    var readHooked: bool
    /** How often `soundio_instream_destroy` was called on this stream. */
    var destroyed: nat

    constructor (layout: LayoutData)
      ensures this.layout == layout && userdata == null && !readHooked && destroyed == 0
    {
      format, sampleRate, this.layout, bytesPerFrame := 0, 0, layout, 0;
      userdata, readHooked, destroyed := null, false, 0;
    }

    /** Once the trampoline is installed, C also holds the callbacks object it reads. */
    ghost predicate Valid()
      reads this
    {
      readHooked ==> userdata != null
    }
  }

  /** `InStream`: a Swift wrapper around one C input stream. */
  class InStream {
    const native: NativeInStream
    const callbacks: ReadCallbacks
    /** Set on the wrapper the read trampoline builds, so that dropping it leaves the C
        stream alone. */
    var temporary: bool

    /** `init(internalPointer:)`. */
    constructor Wrap(native: NativeInStream)
      ensures this.native == native && !temporary
      ensures fresh(callbacks) && callbacks.onRead == None
    {
      this.native := native;
      callbacks := new ReadCallbacks();
      temporary := false;
    }

    /** `deinit`: a temporary wrapper only clears its flag; any other destroys the C stream. */
    method Deinit()
      modifies this`temporary, native`destroyed
      ensures !temporary
      ensures native.destroyed == if old(temporary) then old(native.destroyed) else old(native.destroyed) + 1
    {
      if temporary {
        temporary := false;
      } else {
        native.destroyed := native.destroyed + 1;
      }
    }

    /** `bytesPerFrame`: the C field. */
    function BytesPerFrame(): (r: CInt)
      reads native
      ensures r == native.bytesPerFrame
    {
      native.bytesPerFrame
    }

    /** The getter of `format`: the raw C field, wrapped. */
    function Format(): (f: Values.Format)
      reads native
      ensures f.rawValue == native.format
    {
      Values.Format(native.format)
    }

    /** The setter of `format`: stores the raw value in the C field and nothing else, so
        reading `format` back gives the value set. */
    method SetFormat(f: Values.Format)
      modifies native`format
      ensures native.format == f.rawValue
      ensures Format() == f
    {
      native.format := f.rawValue;
    }

    /** The getter of `sampleRate`: the C field. */
    function SampleRate(): (r: CInt)
      reads native
      ensures r == native.sampleRate
    {
      native.sampleRate
    }

    /** The setter of `sampleRate`: stores the value in the C field and nothing else, so
        reading `sampleRate` back gives the value set. */
    method SetSampleRate(rate: CInt)
      modifies native`sampleRate
      ensures native.sampleRate == rate
      ensures SampleRate() == rate
    {
      native.sampleRate := rate;
    }

    /** The getter of `layout`: a view of the stream's own C layout. */
    function Layout(): (l: ChannelLayout)
      reads native
      ensures l.pointee == native.layout
    {
      ChannelLayout(native.layout)
    }

    /** The setter of `layout`: copies the layout the new value points at into the stream,
        and nothing else, so reading `layout` back gives a layout equal to it. */
    method SetLayout(l: ChannelLayout)
      modifies native`layout
      ensures native.layout == l.pointee
      ensures Layout() == l
    {
      native.layout := l.pointee;
    }

    /** `readCallback(_:)`: the one slot now holds `callback`, and the C stream points at
        this wrapper's callbacks and the trampoline. */
    method ReadCallback(callback: Closure)
      modifies callbacks, native`userdata, native`readHooked
      ensures callbacks.onRead == Some(callback)
      ensures native.userdata == callbacks && native.readHooked && native.Valid()
    {
      callbacks.onRead := Some(callback);
      native.userdata := callbacks;
      native.readHooked := true;
    }

    /** The `read_callback` trampoline, as far as the binding's own logic goes: for a null
        stream it does nothing; otherwise it wraps the stream in a temporary `InStream`,
        calls the closure in the slot C's `userdata` points at with the two frame bounds
        (the returned `invoked`), and drops the wrapper without destroying the stream. */
    static method ReadTrampoline(stream: NativeInStream?, frameCountMin: CInt, frameCountMax: CInt)
      returns (invoked: Option<(Closure, CInt, CInt)>)
      requires stream != null ==> stream.Valid() && stream.readHooked
      modifies stream
      ensures stream == null ==> invoked == None
      ensures stream != null ==> stream.userdata == old(stream.userdata) != null
      ensures stream != null ==>
        invoked == match stream.userdata.onRead
                   case None => None
                   case Some(c) => Some((c, frameCountMin, frameCountMax))
      ensures stream != null ==> stream.destroyed == old(stream.destroyed)
      ensures stream != null ==> unchanged(stream)
    {
      if stream == null {
        return None;
      }
      var out := new InStream.Wrap(stream);
      out.temporary := true;
      invoked := match stream.userdata.onRead
                 case None => None
                 case Some(c) => Some((c, frameCountMin, frameCountMax));
      out.Deinit();
    }

    /** `open()`: `status` is what `soundio_instream_open` returned; unlike an output
        stream, no layout error is checked. */
    function Open(status: CInt, strerror: Strerror): (r: Outcome<SoundIOError>)
      ensures r == Pass <==> status <= 0
      ensures r != Pass ==> r.error == FromCode(status, strerror)
    {
      EnsureSuccess(status, strerror)
    }

    /** `beginRead(areas:frameCount:)`, the `call`-th begin of a loop: throws for a positive
        status, and otherwise hands back the areas and the frame count C stored. */
    function BeginRead(backend: Replies, call: nat, frameCount: CInt): (r: Result<BeginReply, SoundIOError>)
      ensures r.Failure? <==> 0 < backend.begin(call, frameCount).status
      ensures r.Failure? ==> r.error == FromCode(backend.begin(call, frameCount).status, backend.strerror)
      ensures r.Success? ==> r.value == backend.begin(call, frameCount)
    {
      var reply := backend.begin(call, frameCount);
      match EnsureSuccess(reply.status, backend.strerror)
      case Fail(e) => Failure(e)
      case Pass => Success(reply)
    }

    /** `endRead()`, the `call`-th end of a loop: throws for a positive status. */
    function EndRead(backend: Replies, call: nat): (r: Outcome<SoundIOError>)
      ensures r == Pass <==> backend.end(call) <= 0
      ensures r != Pass ==> r.error == FromCode(backend.end(call), backend.strerror)
    {
      EnsureSuccess(backend.end(call), backend.strerror)
    }

    /** `read(frameCount:_:)` as written. After a full bracket the loop subtracts the
        requested `frameCount` rather than the frames granted, so `framesLeft` drops to 0
        and the loop never goes round a second time: one call is exactly `Once`. The areas
        may be a null pointer (0), which the closure receives as nil. */
    method Read(frameCount: CInt, backend: Replies, task: Task) returns (r: Bracketed)
      ensures r == Once(frameCount, backend, task)
    {
      var trace: seq<Event> := [];
      var framesLeft := frameCount;
      var call: nat := 0;
      while 0 < framesLeft
        invariant || (framesLeft == frameCount && call == 0 && trace == [])
                  || (framesLeft == 0 < frameCount && call == 1 && Once(frameCount, backend, task) == Bracketed(Pass, trace))
      {
        var actualFrameCount := framesLeft;
        trace := trace + [Begin(actualFrameCount)];
        var begun := BeginRead(backend, call, actualFrameCount);
        if begun.Failure? {
          return Bracketed(Fail(Native(begun.error)), trace);
        }
        var areas := begun.value.areas;
        actualFrameCount := begun.value.frameCount;

        if actualFrameCount == 0 {
          break;
        }

        trace := trace + [Run(areas, actualFrameCount)];
        var done := task(call, areas, actualFrameCount);
        if done.Threw? {
          return Bracketed(Fail(FromTask(done.reason)), trace);
        }
        trace := trace + [End];
        var ended := EndRead(backend, call);
        if ended.Fail? {
          return Bracketed(Fail(Native(ended.error)), trace);
        }

        framesLeft := framesLeft - frameCount;
        call := call + 1;
      }
      r := Bracketed(Pass, trace);
    }

    /** `read(frameCount:_:)` with `framesLeft` decreased by the frames granted: brackets
        follow one another until every requested frame went to the closure, the backend
        grants zero frames, or something throws. It relies on the C library's promise that
        a grant is never negative nor larger than the request. */
    method ReadAll(frameCount: CInt, backend: Replies, task: Task) returns (r: Bracketed)
      requires GrantsWithinRequest(backend)
      ensures frameCount <= 0 ==> r == Bracketed(Pass, [])
      ensures 0 <= Delivered(r.trace) <= (if frameCount < 0 then 0 else frameCount)
      ensures 0 < frameCount && r.outcome == Pass && !EndsInBegin(r.trace) ==> Delivered(r.trace) == frameCount
    {
      var trace: seq<Event> := [];
      var framesLeft := frameCount;
      var call: nat := 0;
      while 0 < framesLeft
        invariant frameCount <= 0 ==> trace == [] && framesLeft == frameCount
        invariant 0 < frameCount ==> 0 <= framesLeft && Delivered(trace) + framesLeft == frameCount
        invariant !EndsInBegin(trace)
        decreases framesLeft
      {
        var actualFrameCount := framesLeft;
        DeliveredAppend(trace, Begin(actualFrameCount));
        trace := trace + [Begin(actualFrameCount)];
        var begun := BeginRead(backend, call, actualFrameCount);
        if begun.Failure? {
          return Bracketed(Fail(Native(begun.error)), trace);
        }
        var areas := begun.value.areas;
        actualFrameCount := begun.value.frameCount;

        if actualFrameCount == 0 {
          return Bracketed(Pass, trace);
        }

        DeliveredAppend(trace, Run(areas, actualFrameCount));
        trace := trace + [Run(areas, actualFrameCount)];
        var done := task(call, areas, actualFrameCount);
        if done.Threw? {
          return Bracketed(Fail(FromTask(done.reason)), trace);
        }
        DeliveredAppend(trace, End);
        trace := trace + [End];
        var ended := EndRead(backend, call);
        if ended.Fail? {
          return Bracketed(Fail(Native(ended.error)), trace);
        }

        framesLeft := framesLeft - actualFrameCount;
        call := call + 1;
      }
      r := Bracketed(Pass, trace);
    }
  }
}
