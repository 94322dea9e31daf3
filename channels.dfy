/** Channel layouts, layout lists and channel areas (Sources/SoundIO/Channel.swift). */
module Channels {
  import opened Errors

  /** `SOUNDIO_MAX_CHANNELS`: the size of the channel array inside every C layout. */
  const MaxChannels: nat := 24

  /** `SoundIoChannelId`, a C enum value. */
  type ChannelId = CInt

  /** The fixed-size `channels` array of a C `SoundIoChannelLayout`. */
  type ChannelTuple = s: seq<ChannelId> | |s| == MaxChannels witness seq(MaxChannels, _ => 0)

  /** A C `SoundIoChannelLayout`: a name that may be a null pointer, the number of
      channels in use and the whole channel array. */
  datatype LayoutData = LayoutData(name: Option<string>, channelCount: CInt, channels: ChannelTuple)

  /** `ChannelLayout`: a view of one C layout, modelled by the layout it points at. */
  datatype ChannelLayout = ChannelLayout(pointee: LayoutData)
  {
    /** `name`: nil exactly when the C name pointer is null, else that string. */
    function Name(): (r: Option<string>)
      ensures r.None? <==> pointee.name.None?
      ensures r.Some? ==> r.value == pointee.name.value
    {
      match pointee.name
      case None => None
      case Some(s) => Some(s)
    }

    /** `channelCount`: `UInt(channel_count)`, a conversion that traps on a negative count. */
    function ChannelCount(): (r: nat)
      requires 0 <= pointee.channelCount
      ensures r == pointee.channelCount
    {
      pointee.channelCount
    }

    /** `channels`: the whole C channel array, `SOUNDIO_MAX_CHANNELS` entries in order,
        however many of them `channel_count` says are in use. */
    function Channels(): (r: seq<ChannelId>)
      ensures |r| == MaxChannels
      ensures forall i :: 0 <= i < MaxChannels ==> r[i] == pointee.channels[i]
    {
      seq(MaxChannels, i requires 0 <= i < MaxChannels => pointee.channels[i])
    }
  }

  /** `ChannelLayout.findBestMatching(preferred:available:)`. The matching itself is done by
      `soundio_best_matching_channel_layout`, foreign code whose answer is `matched`:
      the layout its result points at, or None for a null result. */
  function FindBestMatching(preferred: ChannelLayoutList, available: ChannelLayoutList,
                            matched: Option<LayoutData>): (r: Option<ChannelLayout>)
    ensures r.None? <==> matched.None?
    ensures r.Some? ==> r.value.pointee == matched.value
  {
    match matched
    case None => None
    case Some(l) => Some(ChannelLayout(l))
  }

  /** `ChannelLayoutList`: a buffer of C layouts. */
  datatype ChannelLayoutList = ChannelLayoutList(buffer: seq<LayoutData>)
  {
    /** `count`: `Int32(buffer.count)`, a conversion that traps above `Int32.max`. */
    function Count(): (r: CInt)
      requires |buffer| < 0x8000_0000
      ensures r == |buffer|
    {
      |buffer|
    }

    /** `subscript(i)`: the layout at `baseAddress + i`; nothing checks `i`, so reading
        outside the buffer is undefined and excluded here. */
    function At(i: int): (r: ChannelLayout)
      requires 0 <= i < |buffer|
      ensures r.pointee == buffer[i]
    {
      ChannelLayout(buffer[i])
    }
  }

  /** `SoundIoChannelArea` (`ChannelArea`): where one channel's samples start and how many
      bytes apart consecutive frames are. */
  datatype ChannelArea = ChannelArea(ptr: int, step: CInt)
  {
    /** The address `writeAny` stores a sample of frame `frame` at. */
    function Offset(frame: CInt): int
    {
      ptr + step * frame
    }

    /** `write(_:stepBy:)` for both its integer and floating-point overloads; `frame`
        defaults to 1 as in the source. `memory` is the hardware buffer, indexed by
        address. `step * frame` is an `Int32` product, which traps on overflow. */
    method Write<T>(memory: array<T>, value: T, frame: CInt := 1)
      requires -0x8000_0000 <= step * frame < 0x8000_0000
      requires 0 <= Offset(frame) < memory.Length
      modifies memory
      ensures memory[ptr + step * frame] == value
      ensures forall j :: 0 <= j < memory.Length && j != ptr + step * frame ==> memory[j] == old(memory[j])
    {
      WriteAny(memory, value, frame);
    }

    /** `writeAny(value:stepBy:)`: one store at `ptr + step * frame`. */
    method WriteAny<T>(memory: array<T>, value: T, frame: CInt)
      requires -0x8000_0000 <= step * frame < 0x8000_0000
      requires 0 <= Offset(frame) < memory.Length
      modifies memory
      ensures memory[ptr + step * frame] == value
      ensures forall j :: 0 <= j < memory.Length && j != ptr + step * frame ==> memory[j] == old(memory[j])
    {
      var buffer := Offset(frame);
      memory[buffer] := value;
    }
  }

  /** `ChannelAreaList.iterate(over:)`: the `channelCount` areas stored from the list's
      head on. `areas` is the memory the list points into and `head` the list's index in it. */
  function Iterate(areas: seq<ChannelArea>, head: nat, channelCount: nat): (r: seq<ChannelArea>)
    requires head + channelCount <= |areas|
    ensures |r| == channelCount
    ensures forall i :: 0 <= i < channelCount ==> r[i] == areas[head + i]
  {
    areas[head..head + channelCount]
  }
}
