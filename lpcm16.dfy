/** The audio source: which capture program to spawn, with which arguments and
    environment, and the single module-wide handle on the spawned process. */
module Lpcm16 {
  import opened Wrappers

  /** A silence duration as configured: the text handed to the capture
      program, and its value in whole milliseconds (what the hotword helper
      compares elapsed time against). */
  datatype Duration = Duration(text: string, millis: int)

  /** The options a caller hands to `start`; `None` is an option it left out. */
  datatype Supplied = Supplied(
    sampleRate: Option<int>,
    channels: Option<int>,
    threshold: Option<string>,
    thresholdStart: Option<string>,
    thresholdEnd: Option<string>,
    silence: Option<Duration>,
    verbose: Option<bool>,
    recordProgram: Option<string>,
    device: Option<string>)

  /** The options after the defaults are filled in. `threshold` is kept as
      the text of the number, so appending '%' is a string operation. */
  datatype Options = Options(
    sampleRate: int,
    channels: int,
    threshold: string,
    thresholdStart: Option<string>,
    thresholdEnd: Option<string>,
    silence: Duration,
    verbose: bool,
    recordProgram: string,
    device: Option<string>)

  const NothingSupplied := Supplied(None, None, None, None, None, None, None, None, None)

  const Defaults := Options(16000, 1, "0.5", None, None, Duration("1.0", 1000), false, "rec", None)

  /** `Object.assign(defaults, options)`: every supplied option wins, every
      other one takes its default. */
  function Merge(s: Supplied): (o: Options)
    ensures s == NothingSupplied ==> o == Defaults
    ensures s.sampleRate.Some? ==> o.sampleRate == s.sampleRate.value
    ensures s.sampleRate.None? ==> o.sampleRate == 16000
    ensures s.channels.Some? ==> o.channels == s.channels.value
    ensures s.channels.None? ==> o.channels == 1
    ensures s.threshold.Some? ==> o.threshold == s.threshold.value
    ensures s.threshold.None? ==> o.threshold == "0.5"
    ensures o.thresholdStart == s.thresholdStart && o.thresholdEnd == s.thresholdEnd
    ensures s.silence.Some? ==> o.silence == s.silence.value
    ensures s.silence.None? ==> o.silence == Duration("1.0", 1000)
    ensures s.verbose.Some? ==> o.verbose == s.verbose.value
    ensures s.verbose.None? ==> !o.verbose
    ensures s.recordProgram.Some? ==> o.recordProgram == s.recordProgram.value
    ensures s.recordProgram.None? ==> o.recordProgram == "rec"
    ensures o.device == s.device
  {
    Options(
      s.sampleRate.GetOr(Defaults.sampleRate),
      s.channels.GetOr(Defaults.channels),
      s.threshold.GetOr(Defaults.threshold),
      if s.thresholdStart.Some? then s.thresholdStart else Defaults.thresholdStart,
      if s.thresholdEnd.Some? then s.thresholdEnd else Defaults.thresholdEnd,
      s.silence.GetOr(Defaults.silence),
      s.verbose.GetOr(Defaults.verbose),
      s.recordProgram.GetOr(Defaults.recordProgram),
      s.device)
  }

  /** One command-line argument: the argument arrays mix strings and numbers. */
  datatype Arg = Text(text: string) | Number(value: int)

  /** What `start` spawns: the program, its arguments, and the `AUDIODEV`
      value added to the inherited environment, if any. */
  datatype Command = Command(program: string, args: seq<Arg>, audioDev: Option<string>)

  /** `given || threshold + '%'`: an explicit start or end threshold is used
      verbatim; otherwise the common threshold is given as a percentage. */
  function ThresholdArg(given: Option<string>, threshold: string): (t: string)
    ensures Truthy(given) ==> t == given.value
    ensures !Truthy(given) ==> |t| == |threshold| + 1 && t[..|threshold|] == threshold && t[|threshold|] == '%'
  {
    if Truthy(given) then given.value else threshold + "%"
  }

  /** The sample format block that the sox-style programs share. */
  function FormatArgs(o: Options): seq<Arg> {
    [Text("-r"), Number(o.sampleRate), Text("-c"), Number(o.channels),
     Text("-e"), Text("signed-integer"), Text("-b"), Text("16")]
  }

  /** The sox `silence` effect that ends the recording: start once sound
      rises above the start threshold for 0.1 s, stop after `silence` below
      the end threshold. */
  function SilenceTrailer(o: Options): seq<Arg> {
    [Text("silence"), Text("1"), Text("0.1"), Text(ThresholdArg(o.thresholdStart, o.threshold)),
     Text("1"), Text(o.silence.text), Text(ThresholdArg(o.thresholdEnd, o.threshold))]
  }

  /** Arguments for `sox` reading the Windows `waveaudio` default device. */
  function SoxArgs(o: Options): (args: seq<Arg>)
    ensures |args| == 20 && args[0] == Text("-q")
    ensures args[1..4] == [Text("-t"), Text("waveaudio"), Text("-d")]
    ensures args[4..12] == FormatArgs(o)
    ensures args[12] == Text("-")
    ensures args[13..] == SilenceTrailer(o)
  {
    [Text("-q"), Text("-t"), Text("waveaudio"), Text("-d")] + FormatArgs(o) + [Text("-")] + SilenceTrailer(o)
  }

  /** Arguments for `rec`, also used for any program name not in the table. */
  function RecArgs(o: Options): (args: seq<Arg>)
    ensures |args| == 19 && args[0] == Text("-q")
    ensures args[1..9] == FormatArgs(o)
    ensures args[9..12] == [Text("-t"), Text("wav"), Text("-")]
    ensures args[12..] == SilenceTrailer(o)
  {
    [Text("-q")] + FormatArgs(o) + [Text("-t"), Text("wav"), Text("-")] + SilenceTrailer(o)
  }

  /** Arguments for ALSA's `arecord`; a device is selected with `-D` in front. */
  function ArecordArgs(o: Options): (args: seq<Arg>)
    ensures Truthy(o.device) ==> |args| == 12 && args[..2] == [Text("-D"), Text(o.device.value)]
    ensures !Truthy(o.device) ==> |args| == 10 && args[0] == Text("-q")
    ensures var k := |args| - 10;
      args[k..] == [Text("-q"), Text("-r"), Number(o.sampleRate), Text("-c"), Number(o.channels),
                    Text("-t"), Text("wav"), Text("-f"), Text("S16_LE"), Text("-")]
  {
    var base := [Text("-q"),
                 Text("-r"), Number(o.sampleRate),
                 Text("-c"), Number(o.channels),
                 Text("-t"), Text("wav"),
                 Text("-f"), Text("S16_LE"),
                 Text("-")];
    if Truthy(o.device) then [Text("-D"), Text(o.device.value)] + base else base
  }

  /** Arguments for PulseAudio's `parec`; a device is selected with `--device` in front. */
  function ParecArgs(o: Options): (args: seq<Arg>)
    ensures Truthy(o.device) ==> |args| == 8 && args[..2] == [Text("--device"), Text(o.device.value)]
    ensures !Truthy(o.device) ==> |args| == 6 && args[0] == Text("--rate")
    ensures var k := |args| - 6;
      args[k..] == [Text("--rate"), Number(o.sampleRate), Text("--channels"), Number(o.channels),
                    Text("--format"), Text("s16le")]
  {
    var base := [Text("--rate"), Number(o.sampleRate),
                 Text("--channels"), Number(o.channels),
                 Text("--format"), Text("s16le")];
    if Truthy(o.device) then [Text("--device"), Text(o.device.value)] + base else base
  }

  /** `args` hands `value` to the program right after the flag `flag`. */
  predicate Passes(args: seq<Arg>, flag: string, value: int) {
    exists i :: 0 <= i < |args| - 1 && args[i] == Text(flag) && args[i + 1] == Number(value)
  }

  /** The switch over `recordProgram`, with the device added to the environment. */
  function BuildCommand(o: Options): (c: Command)
    ensures o.recordProgram == "sox" ==> c.program == "sox" && c.args == SoxArgs(o)
    ensures o.recordProgram == "arecord" ==> c.program == "arecord" && c.args == ArecordArgs(o)
    ensures o.recordProgram == "parec" ==> c.program == "parec" && c.args == ParecArgs(o)
    // any other name, "rec" among them, is run as given with rec's arguments
    ensures o.recordProgram !in {"sox", "arecord", "parec"} ==>
              c.program == o.recordProgram && c.args == RecArgs(o)
    // every program but arecord and parec stops by itself on silence
    ensures o.recordProgram !in {"arecord", "parec"} ==>
              |c.args| > 7 && c.args[|c.args| - 7..] == SilenceTrailer(o)
    ensures c.audioDev.Some? <==> Truthy(o.device)
    ensures c.audioDev.Some? ==> c.audioDev == o.device
  {
    var audioDev := if Truthy(o.device) then o.device else None;
    match o.recordProgram
    case "sox" => Command("sox", SoxArgs(o), audioDev)
    case "arecord" => Command("arecord", ArecordArgs(o), audioDev)
    case "parec" => Command("parec", ParecArgs(o), audioDev)
    case _ => Command(o.recordProgram, RecArgs(o), audioDev)
  }

  /** `args` carries `rate` and `channels` right after the flags `rateFlag`
      and `channelsFlag`, in four consecutive places from `k` on. */
  lemma FormatAt(args: seq<Arg>, k: nat, rateFlag: string, rate: int, channelsFlag: string, channels: int)
    requires k + 4 <= |args|
    requires args[k..k + 4] == [Text(rateFlag), Number(rate), Text(channelsFlag), Number(channels)]
    ensures Passes(args, rateFlag, rate) && Passes(args, channelsFlag, channels)
  {
    assert args[k] == args[k..k + 4][0] && args[k + 1] == args[k..k + 4][1];
    assert args[k + 2] == args[k..k + 4][2] && args[k + 3] == args[k..k + 4][3];
  }

  /** Whatever the program, the sample rate and the channel count reach it,
      each right after that program's own flag for it. */
  lemma EveryProgramGetsRateAndChannels(o: Options)
    ensures var c := BuildCommand(o);
      && Passes(c.args, if o.recordProgram == "parec" then "--rate" else "-r", o.sampleRate)
      && Passes(c.args, if o.recordProgram == "parec" then "--channels" else "-c", o.channels)
  {
    if o.recordProgram == "sox" {
      SoxGetsRateAndChannels(o);
    } else if o.recordProgram == "arecord" {
      ArecordGetsRateAndChannels(o);
    } else if o.recordProgram == "parec" {
      ParecGetsRateAndChannels(o);
    } else {
      RecGetsRateAndChannels(o);
    }
  }

  lemma SoxGetsRateAndChannels(o: Options)
    ensures Passes(SoxArgs(o), "-r", o.sampleRate) && Passes(SoxArgs(o), "-c", o.channels)
  {
    var args := SoxArgs(o);
    assert args[4..8] == args[4..12][..4];
    FormatAt(args, 4, "-r", o.sampleRate, "-c", o.channels);
  }

  lemma RecGetsRateAndChannels(o: Options)
    ensures Passes(RecArgs(o), "-r", o.sampleRate) && Passes(RecArgs(o), "-c", o.channels)
  {
    var args := RecArgs(o);
    assert args[1..5] == args[1..9][..4];
    FormatAt(args, 1, "-r", o.sampleRate, "-c", o.channels);
  }

  lemma ArecordGetsRateAndChannels(o: Options)
    ensures Passes(ArecordArgs(o), "-r", o.sampleRate) && Passes(ArecordArgs(o), "-c", o.channels)
  {
    var args := ArecordArgs(o);
    var k := |args| - 9;
    assert args[k..k + 4] == args[|args| - 10..][1..5];
    FormatAt(args, k, "-r", o.sampleRate, "-c", o.channels);
  }

  lemma ParecGetsRateAndChannels(o: Options)
    ensures Passes(ParecArgs(o), "--rate", o.sampleRate) && Passes(ParecArgs(o), "--channels", o.channels)
  {
    var args := ParecArgs(o);
    var k := |args| - 6;
    assert args[k..k + 4] == args[k..][..4];
    FormatAt(args, k, "--rate", o.sampleRate, "--channels", o.channels);
  }

  /** `arecord` and `parec` get no `silence` effect: they record until
      stopped. (Only a device literally named "silence" puts the word among
      their arguments.) */
  lemma NoSilenceEffect(o: Options)
    requires o.recordProgram in {"arecord", "parec"}
    requires !Truthy(o.device) || o.device.value != "silence"
    ensures Text("silence") !in BuildCommand(o).args
  {
    if o.recordProgram == "arecord" {
      NoSilenceIn(ArecordArgs(o), |ArecordArgs(o)| - 10, o.device);
    } else {
      NoSilenceIn(ParecArgs(o), |ParecArgs(o)| - 6, o.device);
    }
  }

  /** Arguments made of a device pair (or nothing) before `k` and of
      literal flags and numbers other than "silence" from `k` on. */
  lemma NoSilenceIn(args: seq<Arg>, k: int, device: Option<string>)
    requires 0 <= k <= |args|
    requires k == 0 || (k == 2 && Truthy(device) && args[1] == Text(device.value) && args[0] != Text("silence"))
    requires !Truthy(device) || device.value != "silence"
    requires forall i :: k <= i < |args| ==> args[i] != Text("silence")
    ensures Text("silence") !in args
  {
  }

  /** A spawned capture process: its id and what it runs. Its standard
      output is the audio stream `start` returns. */
  datatype Proc = Proc(pid: nat, command: Command)

  /** The module-level `cp` handle, with the kill signals sent so far and
      whether the current stream's end is reported to the caller. */
  class Capture {
    var cp: Option<Proc>
    var signalled: seq<Proc>
    var notifiesEnd: bool

    constructor ()
      ensures cp == None && signalled == [] && !notifiesEnd
    {
      cp := None;
      signalled := [];
      notifiesEnd := false;
    }

    /** `start`: drop the previous handle, spawn the command built from the
        merged options (the new process gets id `pid`), and wire the end
        callback only in verbose mode. Returns the process whose output is
        the audio stream. */
    method Start(s: Supplied, pid: nat) returns (stream: Proc)
      modifies this`cp, this`notifiesEnd
      ensures stream == Proc(pid, BuildCommand(Merge(s)))
      ensures cp == Some(stream)
      ensures notifiesEnd == Merge(s).verbose
    {
      cp := None;
      var options := Merge(s);
      var command := BuildCommand(options);
      cp := Some(Proc(pid, command));
      stream := cp.value;
      notifiesEnd := options.verbose;
    }

    /** `stop`: kill the current process and return it, or return `false`
        (here `None`) when nothing was ever started. The handle is kept. */
    method Stop() returns (r: Option<Proc>)
      modifies this`signalled
      ensures r == cp
      ensures cp.None? ==> signalled == old(signalled)
      ensures cp.Some? ==> signalled == old(signalled) + [cp.value]
    {
      if cp.None? {
        return None;
      }
      signalled := signalled + [cp.value];
      r := cp;
    }
  }
}
