/** One audio device and its capabilities (Sources/SoundIO/Device.swift). */
module Devices {
  import opened Errors
  import opened Values
  import opened Channels

  /** A C `SoundIoSampleRateRange`: the fields are `min` then `max`. */
  datatype CSampleRateRange = CSampleRateRange(min: CInt, max: CInt)

  /** `SampleRateRange`, the Swift tuple `(max:, min:)`. */
  datatype SampleRateRange = SampleRateRange(max: CInt, min: CInt)

  /** The C `SoundIoDevice` the binding reads, owned by the C library. Each array holds the
      entries the matching count field announces. */
  class NativeDevice {
    var id: string
    var name: string
    var isRaw: bool
    var layouts: array<LayoutData>
    var layoutCount: CInt
    var currentLayout: LayoutData
    var sampleRates: array<CSampleRateRange>
    var sampleRateCount: CInt
    var sampleRateCurrent: CInt
    var formats: array<CInt>
    var formatCount: CInt
    var currentFormat: CInt
    var probeError: CInt
    /** How often `soundio_device_unref` was called on this device. */
    var unrefs: nat

    /** The counts describe the arrays; a negative count or one past the array traps or
        reads outside it. */
    ghost predicate Valid()
      reads this
    {
      && 0 <= layoutCount <= layouts.Length
      && 0 <= sampleRateCount <= sampleRates.Length
      && 0 <= formatCount <= formats.Length
    }

    constructor (layouts: array<LayoutData>, sampleRates: array<CSampleRateRange>,
                 formats: array<CInt>, current: LayoutData)
      ensures this.layouts == layouts && this.sampleRates == sampleRates && this.formats == formats
      ensures layoutCount == sampleRateCount == formatCount == 0 && unrefs == 0
    {
      id, name, isRaw := "", "", false;
      this.layouts, layoutCount, currentLayout := layouts, 0, current;
      this.sampleRates, sampleRateCount, sampleRateCurrent := sampleRates, 0, 0;
      this.formats, formatCount, currentFormat := formats, 0, 0;
      probeError, unrefs := 0, 0;
    }
  }

  /** The closure `sampleRates` is initialised with: each C range becomes a `(max, min)`
      tuple, in the C order. */
  function RangesFromC(c: seq<CSampleRateRange>): (r: seq<SampleRateRange>)
    ensures |r| == |c|
    ensures forall i :: 0 <= i < |c| ==> r[i].max == c[i].max && r[i].min == c[i].min
  {
    seq(|c|, i requires 0 <= i < |c| => SampleRateRange(c[i].max, c[i].min))
  }

  /** The closure `formats` is initialised with: each raw C value wrapped as a `Format`,
      in the C order. */
  function FormatsFromC(c: seq<CInt>): (r: seq<Format>)
    ensures |r| == |c|
    ensures forall i :: 0 <= i < |c| ==> r[i].rawValue == c[i]
  {
    seq(|c|, i requires 0 <= i < |c| => Format(c[i]))
  }

  /** `Device`: a Swift owner of one reference to a C device. */
  class Device {
    const native: NativeDevice
    /** The stored values of the lazy properties `sampleRates` and `formats`. */
    var sampleRatesCache: Option<seq<SampleRateRange>>
    var formatsCache: Option<seq<Format>>

    /** `init(internalPointer:)`. */
    constructor (native: NativeDevice)
      ensures this.native == native
      ensures sampleRatesCache == None && formatsCache == None
    {
      this.native := native;
      sampleRatesCache, formatsCache := None, None;
    }

    /** `deinit`: gives back this wrapper's reference, once. */
    method Deinit()
      modifies native`unrefs
      ensures native.unrefs == old(native.unrefs) + 1
    {
      native.unrefs := native.unrefs + 1;
    }

    /** `probeError()`: nil unless the device's `probe_error` is strictly positive, in which
        case the error for that code. */
    function ProbeError(strerror: Strerror): (r: Option<SoundIOError>)
      reads native
      ensures r.None? <==> native.probeError <= 0
      ensures r.Some? ==> r.value == FromCode(native.probeError, strerror)
    {
      if 0 < native.probeError then Some(FromCode(native.probeError, strerror)) else None
    }

    /** `layouts`: an array of `layoutCount` layouts filled in C order, element i a copy
        of C layout i. */
    method Layouts() returns (r: seq<ChannelLayout>)
      requires native.Valid()
      ensures |r| == native.layoutCount
      ensures forall i :: 0 <= i < |r| ==> r[i].pointee == native.layouts[i]
    {
      var count := native.layoutCount;
      r := [];
      var i := 0;
      while i < count
        invariant 0 <= i <= count
        invariant |r| == i
        invariant forall k :: 0 <= k < i ==> r[k].pointee == native.layouts[k]
      {
        var value := native.layouts[i];
        r := r + [ChannelLayout(value)];
        i := i + 1;
      }
    }

    /** `sampleRates`, a lazy property: the first read converts the C ranges and stores
        them; every later read returns what was stored, whatever the C device says now. */
    method SampleRates() returns (r: seq<SampleRateRange>)
      requires native.Valid()
      modifies this`sampleRatesCache
      ensures old(sampleRatesCache).Some? ==> r == old(sampleRatesCache).value
      ensures old(sampleRatesCache).None? ==>
        r == RangesFromC(native.sampleRates[..native.sampleRateCount])
      ensures sampleRatesCache == Some(r)
    {
      if sampleRatesCache.None? {
        var buffer := native.sampleRates[..native.sampleRateCount];
        sampleRatesCache := Some(RangesFromC(buffer));
      }
      r := sampleRatesCache.value;
    }

    /** `formats`, a lazy property built and kept like `sampleRates`. */
    method Formats() returns (r: seq<Format>)
      requires native.Valid()
      modifies this`formatsCache
      ensures old(formatsCache).Some? ==> r == old(formatsCache).value
      ensures old(formatsCache).None? ==> r == FormatsFromC(native.formats[..native.formatCount])
      ensures formatsCache == Some(r)
    {
      if formatsCache.None? {
        var buffer := native.formats[..native.formatCount];
        formatsCache := Some(FormatsFromC(buffer));
      }
      r := formatsCache.value;
    }

    /** `currentLayout`: the device's current C layout. */
    function CurrentLayout(): (l: ChannelLayout)
      reads native
      ensures l.pointee == native.currentLayout
    {
      ChannelLayout(native.currentLayout)
    }

    /** `currentFormat`: the device's current raw format. */
    function CurrentFormat(): (f: Format)
      reads native
      ensures f.rawValue == native.currentFormat
    {
      Format(native.currentFormat)
    }
  }
}
