/** The device-listing tool's own logic (Sources/SoundIODemo/list_devices/main.swift): its
    argument parser, the backend it connects to, and how it prints a channel layout. */
module ListDevices {
  import opened Errors
  import opened Values
  import opened Channels

  /** What `main` has decided once the arguments are read: `watch`, the global
      `shortOutput`, and `backend`. */
  datatype Options = Options(watch: bool, shortOutput: bool, backend: Backend)

  /** Why `usage` was called. Whatever the reason, it prints the usage text and exits
      with `EXIT_FAILURE`; an unknown backend name is printed first. */
  datatype UsageReason = MissingBackendName | InvalidBackend(name: string) | UnknownOption(arg: string)

  /** The end of argument parsing: go on with these options, or the usage failure. */
  datatype Parsed = Proceed(options: Options) | Usage(reason: UsageReason)
  {
    /** The process exit status the outcome leads to, when it ends the process. */
    function ExitStatus(): (r: Option<int>)
      ensures r.Some? <==> Usage?
      ensures r.Some? ==> r.value == ExitFailure
    {
      if Usage? then Some(ExitFailure) else None
    }
  }

  /** `EXIT_FAILURE`. */
  const ExitFailure := 1

  /** The options before any argument is read. */
  const Defaults := Options(false, false, NoBackend)

  /** The name `--backend` takes for each backend other than `none`. */
  function BackendName(b: Backend): string
    requires b != NoBackend
  {
    match b
    case Dummy => "dummy"
    case Alsa => "alsa"
    case PulseAudio => "pulseaudio"
    case Jack => "jack"
    case CoreAudio => "coreaudio"
    case Wasapi => "wasapi"
  }

  /** The inner `switch argv[i]` of `main`: the six names, and nothing else, pick a backend. */
  function BackendByName(name: string): (r: Option<Backend>)
    ensures r.Some? <==> name in ["dummy", "alsa", "pulseaudio", "jack", "coreaudio", "wasapi"]
    ensures r.Some? ==> r.value != NoBackend && BackendName(r.value) == name
  {
    if name == "dummy" then Some(Dummy)
    else if name == "alsa" then Some(Alsa)
    else if name == "pulseaudio" then Some(PulseAudio)
    else if name == "jack" then Some(Jack)
    else if name == "coreaudio" then Some(CoreAudio)
    else if name == "wasapi" then Some(Wasapi)
    else None
  }

  /** Every backend but `none` can be chosen by its name, and by no other. */
  lemma BackendNameRoundTrip(b: Backend)
    requires b != NoBackend
    ensures BackendByName(BackendName(b)) == Some(b)
  {
  }

  /** The arguments after `argv[0]`, the program path, which is never parsed. */
  function Arguments(argv: seq<string>): seq<string>
  {
    if argv == [] then [] else argv[1..]
  }

  /** The reference for the parsing loop, one argument (or, for `--backend`, two) at a time,
      from left to right. */
  function ParseFrom(args: seq<string>, o: Options): Parsed
    decreases |args|
  {
    if args == [] then Proceed(o)
    else if args[0] == "--watch" then ParseFrom(args[1..], o.(watch := true))
    else if args[0] == "--short" then ParseFrom(args[1..], o.(shortOutput := true))
    else if args[0] == "--backend" then
      if |args| < 2 then Usage(MissingBackendName)
      else
        match BackendByName(args[1])
        case None => Usage(InvalidBackend(args[1]))
        case Some(b) => ParseFrom(args[2..], o.(backend := b))
    else Usage(UnknownOption(args[0]))
  }

  /** What parsing `argv` comes to. */
  function Parse(argv: seq<string>): Parsed
  {
    ParseFrom(Arguments(argv), Defaults)
  }

  /** The parsing loop of `main`: `i` runs from 1; `--watch` and `--short` set their flag,
      `--backend` consumes the next argument, which must name a backend, and anything
      else, or `--backend` with nothing after it, ends in `usage`. */
  method ParseArguments(argv: seq<string>) returns (r: Parsed)
    ensures r == Parse(argv)
  {
    var watch := false;
    var shortOutput := false;
    var backend := NoBackend;

    var i := 1;
    while i < |argv|
      invariant 1 <= i && (argv == [] || i <= |argv|)
      invariant ParseFrom(if i <= |argv| then argv[i..] else [], Options(watch, shortOutput, backend)) == Parse(argv)
    {
      var arg := argv[i];
      assert argv[i..][0] == arg && argv[i..][1..] == argv[i + 1..];
      assert i + 1 < |argv| ==> argv[i..][1] == argv[i + 1] && argv[i..][2..] == argv[i + 2..];
      if arg == "--watch" {
        watch := true;
      } else if arg == "--short" {
        shortOutput := true;
      } else if arg == "--backend" {
        i := i + 1;
        if |argv| - 1 < i {
          return Usage(MissingBackendName);
        } else {
          var name := argv[i];
          match BackendByName(name) {
            case Some(b) =>
              backend := b;
            case None =>
              return Usage(InvalidBackend(name));
          }
        }
      } else {
        return Usage(UnknownOption(arg));
      }
      i := i + 1;
    }
    r := Proceed(Options(watch, shortOutput, backend));
  }

  /** With no arguments after the program path the tool lists once, in long form, on the
      library's default backend; `argv[0]` itself is never looked at. */
  lemma ParseWithoutArguments(program: string)
    ensures Parse([]) == Parse([program]) == Proceed(Defaults)
  {
  }

  /** Only the arguments after `argv[0]` matter. */
  lemma ParseIgnoresProgramPath(p: string, q: string, rest: seq<string>)
    ensures Parse([p] + rest) == Parse([q] + rest)
  {
    assert Arguments([p] + rest) == rest == Arguments([q] + rest);
  }

  /** Parsing is a left-to-right fold: after arguments that parse on their own, the rest is
      parsed from the options they produced. */
  lemma {:induction false} ParseConcat(xs: seq<string>, ys: seq<string>, o: Options)
    requires ParseFrom(xs, o).Proceed?
    ensures ParseFrom(xs + ys, o) == ParseFrom(ys, ParseFrom(xs, o).options)
    decreases |xs|
  {
    if xs == [] {
      assert xs + ys == ys;
    } else if xs[0] == "--watch" {
      assert (xs + ys)[1..] == xs[1..] + ys;
      ParseConcat(xs[1..], ys, o.(watch := true));
    } else if xs[0] == "--short" {
      assert (xs + ys)[1..] == xs[1..] + ys;
      ParseConcat(xs[1..], ys, o.(shortOutput := true));
    } else {
      assert xs[0] == "--backend" && 2 <= |xs|;
      var b := BackendByName(xs[1]).value;
      assert (xs + ys)[2..] == xs[2..] + ys;
      ParseConcat(xs[2..], ys, o.(backend := b));
    }
  }

  /** A usage failure ends parsing: no argument after the offending one changes the
      outcome, unless the failure was a `--backend` with nothing after it. */
  lemma {:induction false} ParseStopsAtUsage(xs: seq<string>, ys: seq<string>, o: Options)
    requires ParseFrom(xs, o).Usage? && ParseFrom(xs, o).reason != MissingBackendName
    ensures ParseFrom(xs + ys, o) == ParseFrom(xs, o)
    decreases |xs|
  {
    assert xs != [];
    if xs[0] == "--watch" {
      assert (xs + ys)[1..] == xs[1..] + ys;
      ParseStopsAtUsage(xs[1..], ys, o.(watch := true));
    } else if xs[0] == "--short" {
      assert (xs + ys)[1..] == xs[1..] + ys;
      ParseStopsAtUsage(xs[1..], ys, o.(shortOutput := true));
    } else if xs[0] == "--backend" {
      assert 2 <= |xs| && (xs + ys)[1] == xs[1];
      if BackendByName(xs[1]).Some? {
        assert (xs + ys)[2..] == xs[2..] + ys;
        ParseStopsAtUsage(xs[2..], ys, o.(backend := BackendByName(xs[1]).value));
      }
    }
  }

  /** `--watch` and `--short` are never undone: a flag set before, or by, any argument is
      still set when parsing succeeds. */
  lemma {:induction false} ParseFlagsStick(args: seq<string>, o: Options)
    requires ParseFrom(args, o).Proceed?
    ensures o.watch ==> ParseFrom(args, o).options.watch
    ensures o.shortOutput ==> ParseFrom(args, o).options.shortOutput
    ensures args != [] && args[0] == "--watch" ==> ParseFrom(args, o).options.watch
    ensures args != [] && args[0] == "--short" ==> ParseFrom(args, o).options.shortOutput
    decreases |args|
  {
    if args == [] {
    } else if args[0] == "--watch" {
      ParseFlagsStick(args[1..], o.(watch := true));
    } else if args[0] == "--short" {
      ParseFlagsStick(args[1..], o.(shortOutput := true));
    } else {
      ParseFlagsStick(args[2..], o.(backend := BackendByName(args[1]).value));
    }
  }

  /** Repeating a flag is the same as giving it once. */
  lemma ParseFlagRepeats(flag: string, rest: seq<string>, o: Options)
    requires flag == "--watch" || flag == "--short"
    ensures ParseFrom([flag, flag] + rest, o) == ParseFrom([flag] + rest, o)
  {
    assert ([flag, flag] + rest)[1..] == [flag] + rest;
    assert ([flag] + rest)[1..] == rest;
  }

  /** A later `--backend` overrides an earlier one. */
  lemma ParseLaterBackendWins(first: string, second: string, rest: seq<string>, o: Options)
    requires BackendByName(first).Some?
    ensures ParseFrom(["--backend", first, "--backend", second] + rest, o)
         == ParseFrom(["--backend", second] + rest, o)
  {
    var xs := ["--backend", first];
    assert xs[2..] == [];
    assert ParseFrom(xs, o) == Proceed(o.(backend := BackendByName(first).value));
    ParseConcat(xs, ["--backend", second] + rest, o);
    assert xs + (["--backend", second] + rest) == ["--backend", first, "--backend", second] + rest;
    var ys := ["--backend", second] + rest;
    assert ys[1] == second && (|ys| >= 2 ==> ys[2..] == rest);
  }

  /** How `main` connects: `connect()` for backend `none`, `connect(to:)` otherwise. */
  datatype Connection = ConnectDefault | ConnectTo(backend: Backend)

  function ConnectionFor(o: Options): (c: Connection)
    ensures c == ConnectDefault <==> o.backend == NoBackend
    ensures c.ConnectTo? ==> c.backend == o.backend
  {
    if o.backend == NoBackend then ConnectDefault else ConnectTo(o.backend)
  }

  /** `[String].joined(separator:)`. */
  function Joined(parts: seq<string>, separator: string): string
  {
    if parts == [] then ""
    else if |parts| == 1 then parts[0]
    else parts[0] + separator + Joined(parts[1..], separator)
  }

  /** The summed length of some strings. */
  function TotalLength(parts: seq<string>): nat
  {
    if parts == [] then 0 else |parts[0]| + TotalLength(parts[1..])
  }

  /** The length of a joined string: every part's length plus one separator between each two. */
  lemma {:induction false} JoinedLength(parts: seq<string>, separator: string)
    ensures |Joined(parts, separator)| == TotalLength(parts) + (if parts == [] then 0 else (|parts| - 1) * |separator|)
    decreases |parts|
  {
    if |parts| > 1 {
      JoinedLength(parts[1..], separator);
    }
  }

  /** Joining read from the other end: the parts but the last, joined, then one separator
      and the last part. */
  lemma {:induction false} JoinedSnoc(parts: seq<string>, separator: string)
    requires 2 <= |parts|
    ensures Joined(parts, separator)
         == Joined(parts[..|parts| - 1], separator) + separator + parts[|parts| - 1]
    decreases |parts|
  {
    var n := |parts|;
    if n == 2 {
      assert parts[..1] == [parts[0]];
      assert parts[1..] == [parts[1]];
    } else {
      var init := parts[..n - 1];
      assert init[1..] == parts[1..][..n - 2];
      assert parts[1..][n - 2] == parts[n - 1];
      JoinedSnoc(parts[1..], separator);
      calc {
        Joined(parts, separator);
        parts[0] + separator + Joined(parts[1..], separator);
        parts[0] + separator + (Joined(init[1..], separator) + separator + parts[n - 1]);
        (parts[0] + separator + Joined(init[1..], separator)) + separator + parts[n - 1];
        Joined(init, separator) + separator + parts[n - 1];
      }
    }
  }

  /** Joining one more part onto a joined list, the way `joined(separator:)` grows. */
  lemma JoinedAppend(parts: seq<string>, last: string, separator: string)
    requires parts != []
    ensures Joined(parts + [last], separator) == Joined(parts, separator) + separator + last
  {
    JoinedSnoc(parts + [last], separator);
    assert (parts + [last])[..|parts|] == parts;
  }

  /** `getChannelName(for:)` over a list of channels, in order; the names themselves come
      from `soundio_get_channel_name`, foreign code passed in as `channelName`. */
  function ChannelNames(ids: seq<ChannelId>, channelName: ChannelId -> string): (r: seq<string>)
    ensures |r| == |ids|
    ensures forall i :: 0 <= i < |ids| ==> r[i] == channelName(ids[i])
  {
    seq(|ids|, i requires 0 <= i < |ids| => channelName(ids[i]))
  }

  /** `ChannelLayout.printName()` as written: the layout's name when it has one; otherwise
      the names of all `SOUNDIO_MAX_CHANNELS` entries of `channels`, joined by ", ", however
      few channels the layout uses. */
  function PrintName(layout: ChannelLayout, channelName: ChannelId -> string): (r: string)
    ensures layout.pointee.name.Some? ==> r == layout.pointee.name.value
    ensures layout.pointee.name.None? ==> r == Joined(ChannelNames(layout.Channels(), channelName), ", ")
    ensures layout.pointee.name.None? ==>
      |r| == TotalLength(ChannelNames(layout.Channels(), channelName)) + (MaxChannels - 1) * 2
  {
    match layout.Name()
    case Some(name) => name
    case None =>
      var names := ChannelNames(layout.Channels(), channelName);
      JoinedLength(names, ", ");
      Joined(names, ", ")
  }

  /** `printName()` as evidently intended: an unnamed layout prints the names of its first
      `channel_count` channels only, one separator between each two. */
  function PrintNameUsedChannels(layout: ChannelLayout, channelName: ChannelId -> string): (r: string)
    requires 0 <= layout.pointee.channelCount <= MaxChannels
    ensures layout.pointee.name.Some? ==> r == layout.pointee.name.value
    ensures layout.pointee.name.None? ==>
      && var used := ChannelNames(layout.Channels()[..layout.ChannelCount()], channelName);
      && |used| == layout.pointee.channelCount
      && r == Joined(used, ", ")
      && |r| == TotalLength(used) + (if used == [] then 0 else (|used| - 1) * 2)
  {
    match layout.Name()
    case Some(name) => name
    case None =>
      var names := ChannelNames(layout.Channels()[..layout.ChannelCount()], channelName);
      JoinedLength(names, ", ");
      Joined(names, ", ")
  }

  /** The two printers differ only for layouts that leave channel slots unused: a layout
      using all `SOUNDIO_MAX_CHANNELS` channels prints the same either way. */
  lemma PrintNameAgreesOnFullLayouts(layout: ChannelLayout, channelName: ChannelId -> string)
    requires layout.pointee.channelCount == MaxChannels
    ensures PrintNameUsedChannels(layout, channelName) == PrintName(layout, channelName)
  {
    assert layout.Channels()[..layout.ChannelCount()] == layout.Channels();
  }

  /** The input that shows it: an unnamed stereo layout (front left, front right, then 22
      unused slots) prints "FL, FR" as intended, but as written it prints 24 names and at
      least 46 characters of separators. */
  lemma PrintNameListsUnusedSlots()
    ensures var stereo := ChannelLayout(LayoutData(None, 2, [1, 2] + seq(MaxChannels - 2, _ => 0)));
            var channelName := (c: ChannelId) => if c == 1 then "FL" else if c == 2 then "FR" else "(Invalid Channel)";
            && PrintNameUsedChannels(stereo, channelName) == "FL, FR"
            && |PrintName(stereo, channelName)| >= 46
            && PrintName(stereo, channelName) != PrintNameUsedChannels(stereo, channelName)
  {
    var stereo := ChannelLayout(LayoutData(None, 2, [1, 2] + seq(MaxChannels - 2, _ => 0)));
    var channelName := (c: ChannelId) => if c == 1 then "FL" else if c == 2 then "FR" else "(Invalid Channel)";
    var used := ChannelNames(stereo.Channels()[..2], channelName);
    assert used == ["FL", "FR"];
    assert Joined(used, ", ") == "FL, FR";
  }
}
