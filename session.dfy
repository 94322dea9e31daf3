/** The `SoundIO` context object (Sources/SoundIO/Wrappers.swift). */
module Session {
  import opened Errors
  import opened Devices

  /** The binding's `SoundIO.Callbacks` object: one slot for the device-change closure. */
  class Callbacks {
    var onDevicesChange: Option<Closure>

    constructor ()
      ensures onDevicesChange == None
    {
      onDevicesChange := None;
    }
  }

  /** The fields of the C `SoundIo` struct the binding writes, and how often the C context
      was destroyed. */
  class NativeSoundIo {
    /** `userdata`: the callbacks object handed to C. */
    var userdata: Callbacks?
    /** `on_devices_change` points at the binding's trampoline. */
    var devicesChangeHooked: bool
    /** How often `soundio_destroy` was called on this context. */
    var destroyed: nat

    constructor ()
      ensures userdata == null && !devicesChangeHooked && destroyed == 0
    {
      userdata, devicesChangeHooked, destroyed := null, false, 0;
    }

    /** Once the trampoline is installed, C also holds the callbacks object it reads. */
    ghost predicate Valid()
      reads this
    {
      devicesChangeHooked ==> userdata != null
    }
  }

  /** A C ring buffer; what it does is foreign and not part of this model. */
  class NativeRingBuffer {
    constructor ()
    {
    }
  }

  /** `RingBuffer`: a Swift owner of one C ring buffer. */
  class RingBuffer {
    const native: NativeRingBuffer

    constructor (native: NativeRingBuffer)
      ensures this.native == native
    {
      this.native := native;
    }
  }

  /** `SoundIO`: a Swift wrapper around one C context. */
  class SoundIO {
    const native: NativeSoundIo
    const callbacks: Callbacks
    /** Set on the wrapper the device-change trampoline builds, so that dropping it leaves
        the C context alone. */
    var temporary: bool

    /** `init(internalPointer:)`: a wrapper with a fresh, empty callbacks object. */
    constructor Wrap(native: NativeSoundIo)
      ensures this.native == native && !temporary
      ensures fresh(callbacks) && callbacks.onDevicesChange == None
    {
      this.native := native;
      callbacks := new Callbacks();
      temporary := false;
    }

    /** `deinit`: a temporary wrapper only clears its flag; any other destroys the C context. */
    method Deinit()
      modifies this`temporary, native`destroyed
      ensures !temporary
      ensures native.destroyed == if old(temporary) then old(native.destroyed) else old(native.destroyed) + 1
    {
      if temporary {
        temporary := false;
      } else {
        native.destroyed := native.destroyed + 1;
      }
    }

    /** `inputDeviceCount()`: `backendCount` is what `soundio_input_device_count` returned.
        Only -1 (events not flushed yet) throws; every other value comes back unchanged. */
    function InputDeviceCount(backendCount: CInt): (r: Result<CInt, SoundIOError>)
      ensures r.Failure? <==> backendCount == -1
      ensures r.Success? ==> r.value == backendCount
      ensures r.Failure? ==> r.error.message == "flushEvents must be called before calling inputDeviceCount"
    {
      if backendCount == -1 then
        Failure(SoundIOError("flushEvents must be called before calling inputDeviceCount"))
      else
        Success(backendCount)
    }

    /** `outputDeviceCount()`, the same check on `soundio_output_device_count`. */
    function OutputDeviceCount(backendCount: CInt): (r: Result<CInt, SoundIOError>)
      ensures r.Failure? <==> backendCount == -1
      ensures r.Success? ==> r.value == backendCount
      ensures r.Failure? ==> r.error.message == "flushEvents must be called before calling outputDeviceCount"
    {
      if backendCount == -1 then
        Failure(SoundIOError("flushEvents must be called before calling outputDeviceCount"))
      else
        Success(backendCount)
    }

    /** `defaultInputDeviceIndex()`: a negative index from
        `soundio_default_input_device_index` means there is no input device. */
    function DefaultInputDeviceIndex(backendIndex: CInt): (r: Result<CInt, SoundIOError>)
      ensures r.Failure? <==> backendIndex < 0
      ensures r.Success? ==> r.value == backendIndex
      ensures r.Failure? ==> r.error.message == "No input device found"
    {
      if 0 <= backendIndex then Success(backendIndex) else Failure(SoundIOError("No input device found"))
    }

    /** `defaultOutputDeviceIndex()`, the same check for output devices. */
    function DefaultOutputDeviceIndex(backendIndex: CInt): (r: Result<CInt, SoundIOError>)
      ensures r.Failure? <==> backendIndex < 0
      ensures r.Success? ==> r.value == backendIndex
      ensures r.Failure? ==> r.error.message == "No output device found"
    {
      if 0 <= backendIndex then Success(backendIndex) else Failure(SoundIOError("No output device found"))
    }

    /** `getInputDevice(at:)`: `device` is what `soundio_get_input_device` returned for the
        index. A null device throws; any other is wrapped as it is. */
    method GetInputDevice(index: CInt, device: NativeDevice?) returns (r: Result<Device, SoundIOError>)
      ensures r.Failure? <==> device == null
      ensures r.Success? ==> r.value.native == device
      ensures r.Failure? ==> r.error.message == "invalid parameter value"
    {
      if device == null {
        return Failure(SoundIOError("invalid parameter value"));
      }
      var d := new Device(device);
      r := Success(d);
    }

    /** `getOutputDevice(at:)`, the same for `soundio_get_output_device`. */
    method GetOutputDevice(index: CInt, device: NativeDevice?) returns (r: Result<Device, SoundIOError>)
      ensures r.Failure? <==> device == null
      ensures r.Success? ==> r.value.native == device
      ensures r.Failure? ==> r.error.message == "invalid parameter value"
    {
      if device == null {
        return Failure(SoundIOError("invalid parameter value"));
      }
      var d := new Device(device);
      r := Success(d);
    }

    /** `createRingBuffer(capacity:)`: `created` is what `soundio_ring_buffer_create`
        returned. Null throws; anything else is wrapped as it is. */
    method CreateRingBuffer(capacity: CInt, created: NativeRingBuffer?) returns (r: Result<RingBuffer, SoundIOError>)
      ensures r.Failure? <==> created == null
      ensures r.Success? ==> r.value.native == created
      ensures r.Failure? ==> r.error.message == "memory could not be allocated"
    {
      if created == null {
        return Failure(SoundIOError("memory could not be allocated"));
      }
      var b := new RingBuffer(created);
      r := Success(b);
    }

    /** `onDevicesChange(_:)`: the one slot now holds `callback`, whatever it held before,
        and the C context points at this wrapper's callbacks and the trampoline. */
    method OnDevicesChange(callback: Closure)
      modifies callbacks, native
      ensures callbacks.onDevicesChange == Some(callback)
      ensures native.userdata == callbacks && native.devicesChangeHooked && native.Valid()
      ensures native.destroyed == old(native.destroyed)
    {
      callbacks.onDevicesChange := Some(callback);
      native.userdata := callbacks;
      native.devicesChangeHooked := true;
    }

    /** The `on_devices_change` trampoline, as far as the binding's own logic goes: for a
        null context it does nothing; otherwise it wraps the context in a temporary
        `SoundIO`, calls the closure in the slot C's `userdata` points at (the returned
        `invoked`), and drops the wrapper without destroying the context. */
    static method DevicesChangeTrampoline(soundio: NativeSoundIo?) returns (invoked: Option<Closure>)
      requires soundio != null ==> soundio.Valid() && soundio.devicesChangeHooked
      modifies soundio
      ensures soundio == null ==> invoked == None
      ensures soundio != null ==> soundio.userdata == old(soundio.userdata) != null
      ensures soundio != null ==> invoked == soundio.userdata.onDevicesChange
      ensures soundio != null ==> soundio.destroyed == old(soundio.destroyed)
      ensures soundio != null ==> unchanged(soundio)
    {
      if soundio == null {
        return None;
      }
      var out := new SoundIO.Wrap(soundio);
      out.temporary := true;
      invoked := soundio.userdata.onDevicesChange;
      out.Deinit();
    }
  }

  /** Registering twice keeps only the second closure: the slot is single and the last
      registration wins; the trampoline then calls that closure. */
  method RegisterTwice(s: SoundIO, first: Closure, second: Closure) returns (invoked: Option<Closure>)
    modifies s.callbacks, s.native
    ensures s.callbacks.onDevicesChange == Some(second)
    ensures invoked == Some(second)
    ensures s.native.destroyed == old(s.native.destroyed)
  {
    s.OnDevicesChange(first);
    s.OnDevicesChange(second);
    invoked := SoundIO.DevicesChangeTrampoline(s.native);
  }
}
