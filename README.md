# SoundIO binding: a Dafny model

This project models the Swift side of a thin binding over the libsoundio C audio library.
The binding owns very little logic. It converts C status codes, sentinels and null
pointers into thrown `SoundIOError`s, and it wraps C handles in classes whose `deinit`
destroys them unless the wrapper is a temporary one built by a callback trampoline. It
converts C buffers into arrays and stores samples into channel areas. It also runs the
bracketed `write`/`read` chunk loops over `begin`/`end` calls. Finally, the device-listing
tool has its own argument parser and layout printer.

Every call into libsoundio is foreign code, so the model takes it as an oracle parameter:

- the returned status, count, index or pointer is an argument;
- `soundio_strerror` is a function value (`Strerror`);
- the begin and end calls of one loop are `Streams.Replies`, indexed by call number;
- `soundio_get_channel_name` is a function value.

The C structs the binding reads and writes are classes (`NativeSoundIo`, `NativeDevice`,
`NativeOutStream`, `NativeInStream`). They hold the fields the binding touches, plus a
counter for destroy or unref calls. The Swift wrappers are classes over them: `SoundIO`,
`Device`, `OutStream` and `InStream`.

Modules, one per source file:

| module | file | source |
|---|---|---|
| `Errors` | errors.dfy | Sources/SoundIO/Errors.swift, plus shared shapes (`CInt`, `Ptr`, `Option`, `Result`) |
| `Values` | values.dfy | the `Backend` and `Format` types of Sources/SoundIO/Values.swift |
| `Channels` | channels.dfy | Sources/SoundIO/Channel.swift |
| `Devices` | devices.dfy | Sources/SoundIO/Device.swift |
| `Session` | session.dfy | the `SoundIO` class of Sources/SoundIO/Wrappers.swift |
| `Streams` | streams.dfy | what the two chunk loops share: the backend replies, the trace of calls, and the reference `Once` |
| `Output` | outstream.dfy | Sources/SoundIO/OutStream.swift |
| `Input` | instream.dfy | Sources/SoundIO/InStream.swift |
| `ListDevices` | list_devices.dfy | Sources/SoundIODemo/list_devices/main.swift |

## Model

| member | source | states |
|---|---|---|
| Errors.SoundIOError.Description | Sources/SoundIO/Errors.swift:11-15 | the description of an error is its message |
| Errors.FromCode | Sources/SoundIO/Errors.swift:6-8 | an error made from a code carries the C library's text for that same code |
| Errors.EnsureSuccess | Sources/SoundIO/Errors.swift:21-25 | a status passes exactly when it is at most 0, so 0 and every negative code succeed; a positive one fails with the error for that code |
| Session.SoundIO.Wrap | Sources/SoundIO/Wrappers.swift:29-31 | a new wrapper owns the context, is not temporary and has an empty callback slot |
| Session.SoundIO.Deinit | Sources/SoundIO/Wrappers.swift:17-23 | the C context is destroyed exactly once when the wrapper is not temporary, and not at all when it is |
| Session.SoundIO.InputDeviceCount | Sources/SoundIO/Wrappers.swift:49-55 | throws exactly when the backend count is -1, with the flushEvents message; any other value, negative ones included, is returned unchanged |
| Session.SoundIO.OutputDeviceCount | Sources/SoundIO/Wrappers.swift:57-63 | the same for output devices, with its own message |
| Session.SoundIO.DefaultInputDeviceIndex | Sources/SoundIO/Wrappers.swift:65-71 | throws "No input device found" exactly when the index is negative; otherwise returns it unchanged |
| Session.SoundIO.DefaultOutputDeviceIndex | Sources/SoundIO/Wrappers.swift:73-79 | throws "No output device found" exactly when the index is negative; otherwise returns it unchanged |
| Session.SoundIO.GetInputDevice | Sources/SoundIO/Wrappers.swift:81-86 | throws "invalid parameter value" exactly when C returns null; otherwise wraps that exact device |
| Session.SoundIO.GetOutputDevice | Sources/SoundIO/Wrappers.swift:88-93 | the same for output devices |
| Session.SoundIO.CreateRingBuffer | Sources/SoundIO/Wrappers.swift:110-115 | throws "memory could not be allocated" exactly when allocation returns null; otherwise wraps that buffer |
| Session.SoundIO.OnDevicesChange | Sources/SoundIO/Wrappers.swift:95-99 | the single slot holds the new closure whatever it held before, and C's userdata points at this wrapper's callbacks |
| Session.SoundIO.DevicesChangeTrampoline | Sources/SoundIO/Wrappers.swift:99-107 | a null context does nothing; otherwise the closure in the slot userdata points at is called, and the temporary wrapper does not destroy the context; the C context is left exactly as it was |
| Session.RegisterTwice | Sources/SoundIO/Wrappers.swift:95-107 | after two registrations the slot holds the second closure and the trampoline calls that one |
| Devices.Device.constructor | Sources/SoundIO/Device.swift:10-12 | a new wrapper owns the device, and neither lazy property has a value yet |
| Devices.Device.Deinit | Sources/SoundIO/Device.swift:6-8 | dropping a device wrapper unrefs its handle exactly once |
| Devices.Device.ProbeError | Sources/SoundIO/Device.swift:88-94 | nil exactly when `probe_error` is at most 0; otherwise the error for that code |
| Devices.Device.Layouts | Sources/SoundIO/Device.swift:37-47 | exactly `layout_count` layouts, and element i is a copy of C layout i |
| Devices.RangesFromC | Sources/SoundIO/Device.swift:54-57 | as many ranges as C entries, in C order, each keeping that entry's max and min |
| Devices.Device.SampleRates | Sources/SoundIO/Device.swift:54-57 | the first read converts the first `sample_rate_count` C ranges and stores them; every later read returns the stored array |
| Devices.FormatsFromC | Sources/SoundIO/Device.swift:67-70 | as many formats as C entries, in C order, each wrapping the same raw value |
| Devices.Device.Formats | Sources/SoundIO/Device.swift:67-70 | the first read converts the first `format_count` C formats and stores them; every later read returns the stored array |
| Devices.Device.CurrentLayout | Sources/SoundIO/Device.swift:30-35 | the current layout is the device's own C `current_layout` |
| Devices.Device.CurrentFormat | Sources/SoundIO/Device.swift:72-74 | the current format wraps the raw C `current_format` |
| Channels.ChannelLayout.Name | Sources/SoundIO/Channel.swift:48-53 | nil exactly when the C name pointer is null, else that name |
| Channels.ChannelLayout.ChannelCount | Sources/SoundIO/Channel.swift:55-57 | the C channel count, for a count that converts to `UInt` |
| Channels.ChannelLayout.Channels | Sources/SoundIO/Channel.swift:59-66 | always `SOUNDIO_MAX_CHANNELS` entries, the C array in order, whatever `channel_count` says |
| Channels.FindBestMatching | Sources/SoundIO/Channel.swift:68-74 | nil exactly when the C match is null; otherwise a view of the matched layout |
| Channels.ChannelLayoutList.Count | Sources/SoundIO/Channel.swift:13-15 | the count is the buffer's length |
| Channels.ChannelLayoutList.At | Sources/SoundIO/Channel.swift:17-19 | subscript i addresses element i of the buffer |
| Channels.Iterate | Sources/SoundIO/Channel.swift:22-25 | exactly n areas, the n stored from the list's head on |
| Channels.ChannelArea.WriteAny | Sources/SoundIO/Channel.swift:37-42 | the value is stored at `ptr + step * frame` and nothing else in memory changes |
| Channels.ChannelArea.Write | Sources/SoundIO/Channel.swift:29-35 | the same store; the frame defaults to 1, which means offset `step` |
| Streams.Once | Sources/SoundIO/OutStream.swift:90-107 | one call of either chunk loop: nothing happens for a count that is not positive; otherwise the trace is a prefix of begin(all frames), run(the grant), end, and the closure runs at most once |
| Streams.OnceSkipsEmptyRequest | Sources/SoundIO/OutStream.swift:92-94 | a count of 0 or less calls neither begin nor the closure |
| Streams.OnceBeginFailure | Sources/SoundIO/OutStream.swift:82-84 | a positive begin status is thrown before the closure or the end call runs |
| Streams.OnceZeroGrant | Sources/SoundIO/OutStream.swift:96-100 | a grant of zero frames ends the call successfully, with no closure and no end call |
| Streams.OnceRunsGrantThenEnds | Sources/SoundIO/OutStream.swift:102-103 | the closure gets exactly the areas and count begin granted; unless it throws, the end call follows and its positive status is thrown |
| Streams.OnceDeliversFirstGrantOnly | Sources/SoundIO/OutStream.swift:94-106 | the frames a call hands to the closure are the first grant or nothing, never more |
| Streams.OnceDropsUngrantedFrames | Sources/SoundIO/OutStream.swift:105 | with 4 frames asked and 2 granted, the call succeeds after a single bracket that delivers 2 frames |
| Output.OutStream.Wrap | Sources/SoundIO/OutStream.swift:25-27 | a new wrapper owns the stream, is not temporary and has an empty write slot |
| Output.OutStream.Deinit | Sources/SoundIO/OutStream.swift:17-23 | the C stream is destroyed exactly once when the wrapper is not temporary, and not at all when it is |
| Output.OutStream.Format | Sources/SoundIO/OutStream.swift:33-36 | the format is the raw C field |
| Output.OutStream.SetFormat | Sources/SoundIO/OutStream.swift:37-39 | setting a format and reading it back gives the same raw value |
| Output.OutStream.Layout | Sources/SoundIO/OutStream.swift:71-76 | the layout is the stream's own C layout |
| Output.OutStream.SampleRate | Sources/SoundIO/OutStream.swift:78-80 | the rate is the C field, for a rate that converts to `UInt` |
| Output.OutStream.WriteCallback | Sources/SoundIO/OutStream.swift:42-45 | the single slot holds the closure, and C's userdata points at this wrapper's callbacks |
| Output.OutStream.WriteTrampoline | Sources/SoundIO/OutStream.swift:46-54 | a null stream does nothing; otherwise the stored closure is called with both frame bounds, and the temporary wrapper does not destroy the stream; the C stream is left exactly as it was |
| Output.OutStream.Open | Sources/SoundIO/OutStream.swift:57-60 | fails with the open status if it is positive; otherwise fails with a positive layout error; succeeds exactly when both are at most 0 |
| Output.OutStream.BeginWrite | Sources/SoundIO/OutStream.swift:82-84 | throws exactly for a positive begin status; otherwise returns the areas and the count C granted |
| Output.OutStream.EndWrite | Sources/SoundIO/OutStream.swift:86-88 | throws exactly for a positive end status |
| Output.OutStream.Write | Sources/SoundIO/OutStream.swift:90-107 | the loop as written behaves exactly like `Once`: it terminates, and the closure runs at most once per call |
| Output.OutStream.WriteAll | Sources/SoundIO/OutStream.swift:90-107 | the corrected loop never delivers more than requested, and delivers every requested frame unless a grant is zero or something throws |
| Input.InStream.Wrap | Sources/SoundIO/InStream.swift:25-27 | a new wrapper owns the stream, is not temporary and has an empty read slot |
| Input.InStream.Deinit | Sources/SoundIO/InStream.swift:17-23 | the C stream is destroyed exactly once when the wrapper is not temporary, and not at all when it is |
| Input.InStream.BytesPerFrame | Sources/SoundIO/InStream.swift:33-35 | bytes per frame is the C field |
| Input.InStream.Format | Sources/SoundIO/InStream.swift:37-40 | the format is the raw C field |
| Input.InStream.SetFormat | Sources/SoundIO/InStream.swift:41-43 | setting a format and reading it back gives the same raw value |
| Input.InStream.SampleRate | Sources/SoundIO/InStream.swift:46-49 | the getter returns the C sample rate |
| Input.InStream.SetSampleRate | Sources/SoundIO/InStream.swift:46-53 | setting the sample rate and reading it back gives the same value |
| Input.InStream.Layout | Sources/SoundIO/InStream.swift:55-58 | the layout is the stream's own C layout |
| Input.InStream.SetLayout | Sources/SoundIO/InStream.swift:59-61 | setting a layout copies what it points at, so reading it back gives an equal layout |
| Input.InStream.ReadCallback | Sources/SoundIO/InStream.swift:73-76 | the single slot holds the closure, and C's userdata points at this wrapper's callbacks |
| Input.InStream.ReadTrampoline | Sources/SoundIO/InStream.swift:77-85 | a null stream does nothing; otherwise the stored closure is called with both frame bounds, and the temporary wrapper does not destroy the stream; the C stream is left exactly as it was |
| Input.InStream.Open | Sources/SoundIO/InStream.swift:88-90 | succeeds exactly when the open status is at most 0; otherwise fails with the error for that status |
| Input.InStream.BeginRead | Sources/SoundIO/InStream.swift:96-98 | throws exactly for a positive begin status; otherwise returns the areas and the count C granted |
| Input.InStream.EndRead | Sources/SoundIO/InStream.swift:100-102 | throws exactly for a positive end status |
| Input.InStream.Read | Sources/SoundIO/InStream.swift:104-121 | the loop as written behaves exactly like `Once`: it terminates, and the closure runs at most once per call |
| Input.InStream.ReadAll | Sources/SoundIO/InStream.swift:104-121 | the corrected loop never delivers more than requested, and delivers every requested frame unless a grant is zero or something throws |
| ListDevices.Parsed.ExitStatus | Sources/SoundIODemo/list_devices/main.swift:4-14 | every usage failure ends the process with status 1, and nothing else does |
| ListDevices.BackendByName | Sources/SoundIODemo/list_devices/main.swift:121-137 | exactly the six names dummy, alsa, pulseaudio, jack, coreaudio and wasapi pick a backend, and each picks the backend of that name |
| ListDevices.BackendNameRoundTrip | Sources/SoundIODemo/list_devices/main.swift:121-133 | every backend but none is picked by its own name |
| ListDevices.ParseArguments | Sources/SoundIODemo/list_devices/main.swift:105-144 | the parsing loop computes exactly the left-to-right reference parse of the arguments after argv[0] |
| ListDevices.ParseWithoutArguments | Sources/SoundIODemo/list_devices/main.swift:105-109 | without arguments: no watch, long output, backend none |
| ListDevices.ParseIgnoresProgramPath | Sources/SoundIODemo/list_devices/main.swift:108-110 | argv[0] is never parsed |
| ListDevices.ParseConcat | Sources/SoundIODemo/list_devices/main.swift:109-144 | parsing is a left-to-right fold: arguments after a run that parses on their own continue from the options it produced |
| ListDevices.ParseStopsAtUsage | Sources/SoundIODemo/list_devices/main.swift:116-141 | an unknown option or backend name is final: no later argument changes the outcome |
| ListDevices.ParseFlagsStick | Sources/SoundIODemo/list_devices/main.swift:112-115 | `--watch` and `--short` are never undone by later arguments |
| ListDevices.ParseFlagRepeats | Sources/SoundIODemo/list_devices/main.swift:112-115 | repeating `--watch` or `--short` is the same as giving it once |
| ListDevices.ParseLaterBackendWins | Sources/SoundIODemo/list_devices/main.swift:116-133 | a later `--backend` overrides an earlier one |
| ListDevices.ConnectionFor | Sources/SoundIODemo/list_devices/main.swift:148-152 | plain `connect()` exactly for backend none, otherwise `connect(to:)` that backend |
| ListDevices.JoinedLength | Sources/SoundIODemo/list_devices/main.swift:21 | the length of a joined string is the parts' total length plus one separator between each two |
| ListDevices.JoinedSnoc | Sources/SoundIODemo/list_devices/main.swift:21 | joining read from the end: all parts but the last joined, a separator, then the last part |
| ListDevices.JoinedAppend | Sources/SoundIODemo/list_devices/main.swift:21 | joining one more part onto a non-empty list adds one separator and that part |
| ListDevices.ChannelNames | Sources/SoundIODemo/list_devices/main.swift:21 | one name per channel, in order, each the C library's name for it |
| ListDevices.PrintName | Sources/SoundIODemo/list_devices/main.swift:17-23 | a named layout prints its name; an unnamed one prints the names of all 24 channel slots in order, joined by ", " (so 23 separators) |
| ListDevices.PrintNameUsedChannels | Sources/SoundIODemo/list_devices/main.swift:17-23 | corrected: an unnamed layout prints exactly its first `channel_count` channel names in order, joined by ", " |
| ListDevices.PrintNameAgreesOnFullLayouts | Sources/SoundIODemo/list_devices/main.swift:17-23 | the corrected printer differs from the one as written only for layouts that leave channel slots unused |
| ListDevices.PrintNameListsUnusedSlots | Sources/SoundIODemo/list_devices/main.swift:21 | an unnamed stereo layout prints "FL, FR" when corrected, but at least 46 characters as written |

## Findings

| source | as written | input that shows it | evidently intended | confidence | as-written member | corrected member |
|---|---|---|---|---|---|---|
| Sources/SoundIO/OutStream.swift:105 | after one bracket, `framesLeft` drops by the requested `frameCount`, so the loop never goes round a second time | 4 frames requested; the backend grants 2, and the closure and end call succeed: the call reports success with 2 frames delivered and no second bracket | drop `framesLeft` by the granted `actualFrameCount`, so brackets continue until every frame is delivered or a grant is zero | not executed; libsoundio's own examples subtract the granted count | Output.OutStream.Write, Streams.OnceDropsUngrantedFrames | Output.OutStream.WriteAll |
| Sources/SoundIO/InStream.swift:119 | the same subtraction in `read` | the same input, for a read | the same: decrease by the frames granted | not executed | Input.InStream.Read, Streams.OnceDropsUngrantedFrames | Input.InStream.ReadAll |
| Sources/SoundIODemo/list_devices/main.swift:21 | an unnamed layout prints the names of all `SOUNDIO_MAX_CHANNELS` slots of `channels` | an unnamed stereo layout (channel_count 2): 24 names instead of "FL, FR" | print the first `channel_count` names, as libsoundio's own device lister does | not executed | ListDevices.PrintName, ListDevices.PrintNameListsUnusedSlots | ListDevices.PrintNameUsedChannels |

## Left out

- Output.OutStream.WriteAll: relies on `GrantsWithinRequest`, the C library's promise that a grant is never negative and never larger than the request.
- Input.InStream.ReadAll: relies on `GrantsWithinRequest` in the same way.
- Output.OutStream.SampleRate: requires a non-negative rate, because `UInt(sample_rate)` traps on a negative one.
- Channels.ChannelLayout.ChannelCount: requires a non-negative count, because `UInt(channel_count)` traps on a negative one.
- Channels.ChannelLayoutList.At: requires an index inside the buffer. The source does not check it, and reading outside the buffer is undefined behaviour.
- Channels.ChannelArea.Write: memory is an array of cells of the written type, indexed by address. Byte width, alignment and `withMemoryRebound` are not modelled.
- Channels.ChannelArea.WriteAny: the same memory model as `Write`.
- `ChannelLayout` is modelled as a copy of the layout it points at, not a live pointer. Later changes to the C struct are not seen through an older value.
- The user's closures are not run. Trampolines and loops report which closure was called and with what, and a loop's closure is an oracle that completes or throws. What a closure does to memory is not modelled.
- The `Unmanaged` retain/release of callback objects is not modelled. C's `userdata` is modelled as a plain reference to the callbacks object.
- The `areas` variable of the chunk loops is modelled per bracket. Its value surviving from one bracket to the next cannot be observed in the loop as written.
- `connect()`, `connect(to:)`, `flushEvents()`, `waitEvents()` and the streams' `start()` are single foreign calls, or a status passed to `ensureSuccess`, which `Errors.EnsureSuccess` models.
- The throwing initialisers `SoundIO()`, `OutStream(to:)` and `InStream(from:)` use `ensureAllocatedMemory`, which is not part of this model.
- `withInternalPointer` hands the raw pointer to caller code and has no logic of its own.
- The device's scalar accessors (`id`, `name`, `raw`, `layoutCount`, `sampleRateCount`, `sampleRateCurrent`, `formatCount`) are plain field reads. They are kept as fields of `NativeDevice`.
- `softwareLatency` and the device's `softwareLatency*` fields are floating point and are not modelled.
- `RingBuffer`'s members all forward to `soundio_ring_buffer_*`, whose arithmetic is foreign. Only creation is modelled.
- `Values.swift` is a table of C constants plus a foreign `toString`. `Backend` and `Format` are kept as plain types without their C values.
- `getChannelName(for:)` is foreign and is passed to the printers as a function.
- The demos' sine synthesis, and the console output of `printInfo` and `listDevices`, are printing and floating point.
- The watch loop of the device lister blocks forever in `waitEvents()` and is not modelled.
- The usage text and the process exit are reduced to `Parsed.Usage` and its exit status.
- `SOUNDIO_MAX_CHANNELS` is 24, the libsoundio header constant. The header is not part of this model.
