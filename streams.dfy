/** What the bracketed chunk loops `OutStream.write(frameCount:_:)` and
    `InStream.read(frameCount:_:)` do, stated once for both: the backend they talk to, the
    calls they make, and a straight-line reference for one call of either loop. */
module Streams {
  import opened Errors

  /** What `soundio_outstream_begin_write` or `soundio_instream_begin_read` gives back: its
      status, the channel-area list it stores through `areas`, and the frame count it
      stores through `frameCount` (the frames actually granted). */
  datatype BeginReply = BeginReply(status: CInt, areas: Ptr, frameCount: CInt)

  /** The replies of the C library for one stream during one loop: `begin(n, requested)` is the reply to the
      n-th begin call (counting from 0) made with `requested` frames, `end(n)` the status of
      the n-th end call, `strerror` the library's error texts. */
  datatype Replies = Replies(begin: (nat, CInt) -> BeginReply, end: nat -> CInt, strerror: Strerror)

  /** What the caller's closure did with the n-th window it was given. */
  datatype TaskResult = Completed | Threw(reason: string)

  /** The caller's closure: given the call number, the areas and the granted frame count. */
  type Task = (nat, Ptr, CInt) -> TaskResult

  /** An error leaving the loop: one the binding made from a status, or one the closure threw. */
  datatype Thrown = Native(error: SoundIOError) | FromTask(reason: string)

  /** One step of a loop, in the order the steps happen: a begin call with the frames
      requested, a run of the closure with the areas and frames it was given, an end call. */
  datatype Event = Begin(requested: CInt) | Run(areas: Ptr, frames: CInt) | End

  /** How one call of a loop ends, and the steps it took. */
  datatype Bracketed = Bracketed(outcome: Outcome<Thrown>, trace: seq<Event>)

  /** The frames a step handed to the closure. */
  function FramesOf(e: Event): int
  {
    if e.Run? then e.frames else 0
  }

  /** The frames handed to the closure over a whole trace. */
  function Delivered(trace: seq<Event>): int
  {
    if trace == [] then 0 else Delivered(trace[..|trace| - 1]) + FramesOf(trace[|trace| - 1])
  }

  /** How many times the closure ran in a trace. */
  function Runs(trace: seq<Event>): nat
  {
    if trace == [] then 0 else Runs(trace[..|trace| - 1]) + (if trace[|trace| - 1].Run? then 1 else 0)
  }

  lemma {:induction false} DeliveredAppend(trace: seq<Event>, e: Event)
    ensures Delivered(trace + [e]) == Delivered(trace) + FramesOf(e)
  {
    assert (trace + [e])[..|trace|] == trace;
  }

  /** A well-behaved C backend never grants more frames than were requested, nor fewer
      than zero. */
  ghost predicate GrantsWithinRequest(b: Replies)
  {
    forall n: nat, requested: CInt :: 0 < requested ==> 0 <= b.begin(n, requested).frameCount <= requested
  }

  /** The straight-line reference for one call of either loop with `frameCount` frames:
      nothing happens for a count that is not positive; otherwise one begin call asks for
      all `frameCount` frames; a positive status ends the call with that error; a grant of
      zero frames ends it quietly; otherwise the closure runs once on what was granted and,
      unless it throws, one end call follows, whose positive status is an error. */
  function Once(frameCount: CInt, b: Replies, task: Task): (r: Bracketed)
    ensures r.trace == [] <==> frameCount <= 0
    ensures r.trace <= [Begin(frameCount), Run(b.begin(0, frameCount).areas, b.begin(0, frameCount).frameCount), End]
    ensures Runs(r.trace) <= 1
  {
    if frameCount <= 0 then Bracketed(Pass, [])
    else
      var reply := b.begin(0, frameCount);
      var begun := [Begin(frameCount)];
      match EnsureSuccess(reply.status, b.strerror)
      case Fail(e) => Bracketed(Fail(Native(e)), begun)
      case Pass =>
        if reply.frameCount == 0 then Bracketed(Pass, begun)
        else
          var ran := begun + [Run(reply.areas, reply.frameCount)];
          assert Runs(ran) == 1 by { assert ran[..1] == begun; }
          match task(0, reply.areas, reply.frameCount)
          case Threw(reason) => Bracketed(Fail(FromTask(reason)), ran)
          case Completed =>
            assert (ran + [End])[..2] == ran;
            match EnsureSuccess(b.end(0), b.strerror)
            case Fail(e) => Bracketed(Fail(Native(e)), ran + [End])
            case Pass => Bracketed(Pass, ran + [End])
  }

  /** A count that is not positive never reaches the backend or the closure. */
  lemma OnceSkipsEmptyRequest(frameCount: CInt, b: Replies, task: Task)
    requires frameCount <= 0
    ensures Once(frameCount, b, task) == Bracketed(Pass, [])
  {
  }

  /** A positive begin status is thrown before the closure or the end call runs. */
  lemma OnceBeginFailure(frameCount: CInt, b: Replies, task: Task)
    requires 0 < frameCount && 0 < b.begin(0, frameCount).status
    ensures Once(frameCount, b, task)
         == Bracketed(Fail(Native(FromCode(b.begin(0, frameCount).status, b.strerror))), [Begin(frameCount)])
  {
  }

  /** A grant of zero frames ends the call successfully with neither closure nor end call. */
  lemma OnceZeroGrant(frameCount: CInt, b: Replies, task: Task)
    requires 0 < frameCount && b.begin(0, frameCount).status <= 0 && b.begin(0, frameCount).frameCount == 0
    ensures Once(frameCount, b, task) == Bracketed(Pass, [Begin(frameCount)])
  {
  }

  /** When the closure runs it gets exactly the areas and count begin granted; the end call
      follows it unless it threw, and the end status decides the outcome. */
  lemma OnceRunsGrantThenEnds(frameCount: CInt, b: Replies, task: Task)
    requires 0 < frameCount
    requires b.begin(0, frameCount).status <= 0 && b.begin(0, frameCount).frameCount != 0
    ensures var reply := b.begin(0, frameCount);
            var ran := [Begin(frameCount), Run(reply.areas, reply.frameCount)];
            var r := Once(frameCount, b, task);
            match task(0, reply.areas, reply.frameCount)
            case Threw(reason) => r == Bracketed(Fail(FromTask(reason)), ran)
            case Completed =>
              && r.trace == ran + [End]
              && (r.outcome == Pass <==> b.end(0) <= 0)
              && (0 < b.end(0) ==> r.outcome == Fail(Native(FromCode(b.end(0), b.strerror))))
  {
  }

  /** Counting the closure's runs and frames along a prefix of one full bracket. */
  lemma BracketPrefixCounts(t: seq<Event>, requested: CInt, areas: Ptr, frames: CInt)
    requires t <= [Begin(requested), Run(areas, frames), End]
    ensures Runs(t) == (if |t| >= 2 then 1 else 0)
    ensures Delivered(t) == (if |t| >= 2 then frames else 0)
  {
    var t1 := [Begin(requested)];
    var t2 := t1 + [Run(areas, frames)];
    var t3 := t2 + [End];
    assert t1[..0] == [] && t2[..1] == t1 && t3[..2] == t2;
    assert Runs(t1) == 0 && Delivered(t1) == 0;
    assert Runs(t2) == 1 && Delivered(t2) == frames;
    assert Runs(t3) == 1 && Delivered(t3) == frames;
    if |t| == 1 {
      assert t == t1;
    } else if |t| == 2 {
      assert t == t2;
    } else if |t| == 3 {
      assert t == t3;
    }
  }

  /** One call of either loop delivers at most the frames the first begin granted: however
      few that is, the rest of the request is dropped and the call still succeeds. */
  lemma OnceDeliversFirstGrantOnly(frameCount: CInt, b: Replies, task: Task)
    requires 0 < frameCount
    ensures Delivered(Once(frameCount, b, task).trace)
         == if Runs(Once(frameCount, b, task).trace) == 1 then b.begin(0, frameCount).frameCount else 0
  {
    var reply := b.begin(0, frameCount);
    BracketPrefixCounts(Once(frameCount, b, task).trace, frameCount, reply.areas, reply.frameCount);
  }

  /** The input that shows it: four frames requested, a backend that grants two at a time,
      a closure and end call that succeed. The call reports success with two frames
      delivered and no second bracket for the other two. */
  lemma OnceDropsUngrantedFrames()
    ensures var b := Replies((n: nat, requested: CInt) => BeginReply(0, 1, if requested < 2 then requested else 2),
                             (n: nat) => 0, (code: CInt) => "");
            var task := (n: nat, areas: Ptr, frames: CInt) => Completed;
            var r := Once(4, b, task);
            && GrantsWithinRequest(b)
            && r == Bracketed(Pass, [Begin(4), Run(1, 2), End])
            && Delivered(r.trace) == 2 < 4
  {
    var b := Replies((n: nat, requested: CInt) => BeginReply(0, 1, if requested < 2 then requested else 2),
                     (n: nat) => 0, (code: CInt) => "");
    var task := (n: nat, areas: Ptr, frames: CInt) => Completed;
    var t := [Begin(4), Run(1, 2), End];
    assert Once(4, b, task) == Bracketed(Pass, t);
    BracketPrefixCounts(t, 4, 1, 2);
  }

  /** The last event of a non-empty trace is a begin call: the loop stopped on a grant of
      zero frames (or on a begin error). */
  predicate EndsInBegin(trace: seq<Event>)
  {
    trace != [] && trace[|trace| - 1].Begin?
  }
}
