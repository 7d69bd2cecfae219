/** Clients of the helper: whole command and event sequences, and what the
    host sees at the end of each. Each starts from a fresh helper. */
module Scenarios {
  import opened Wrappers
  import opened NodeHelper
  import Lpcm16

  /** A configuration with one model, no recipes and capture options `mic`. */
  function OneModel(mic: Lpcm16.Supplied): Config {
    Config([ModelSpec("alpha.umdl", "alpha", "0.5")], map[], [], mic)
  }

  /** INIT with `OneModel(mic)`, then RESUME: listening, with an empty episode. */
  method Listening(mic: Lpcm16.Supplied) returns (h: Helper)
    ensures fresh(h) && fresh(h.capture) && h.Valid()
    ensures h.config == Some(OneModel(mic)) && h.running
    ensures h.outbox == [Initialized, Start, Resumed]
    ensures h.detected == None && h.b2w == None && h.pendingWrites == 0
    ensures h.capture.notifiesEnd <==> mic.verbose == Some(true)
  {
    h := new Helper();
    h.Init(OneModel(mic), map[]);
    assert OneModel(mic).models + [] == OneModel(mic).models;
    assert h.config == Some(OneModel(mic));
    var _ := h.Resume(1);
  }

  /** RESUME twice: one START and RESUMED, then ALREADY_RESUMED; only the
      first RESUME spawns a capture process. */
  method ResumeTwice(mic: Lpcm16.Supplied) returns (sent: seq<Notification>, current: Option<Lpcm16.Proc>)
    ensures sent == [Initialized, Start, Resumed, AlreadyResumed]
    ensures current.Some? && current.value.pid == 1
  {
    var h := new Helper();
    h.Init(OneModel(mic), map[]);
    var _ := h.Resume(1);
    var _ := h.Resume(2);
    sent, current := h.outbox, h.capture.cp;
  }

  /** PAUSE twice after RESUME: PAUSED, then ALREADY_PAUSED; the capture
      process is signalled once. */
  method PauseTwice(mic: Lpcm16.Supplied) returns (sent: seq<Notification>, signalled: seq<Lpcm16.Proc>)
    ensures sent == [Initialized, Start, Resumed, Paused, AlreadyPaused]
    ensures |signalled| == 1 && signalled[0].pid == 1
  {
    var h := new Helper();
    h.Init(OneModel(mic), map[]);
    var _ := h.Resume(1);
    h.Pause();
    h.Pause();
    sent, signalled := h.outbox, h.capture.signalled;
  }

  /** RESUME with no models: RESUMED is still sent, but no START and no process. */
  method ResumeWithoutModels(mic: Lpcm16.Supplied) returns (sent: seq<Notification>, listening: bool, current: Option<Lpcm16.Proc>)
    ensures sent == [Initialized, Resumed]
    ensures !listening && current == None
  {
    var h := new Helper();
    h.Init(Config([], map[], [], mic), map[]);
    var _ := h.Resume(1);
    sent, listening, current := h.outbox, h.running, h.capture.cp;
  }

  /** RESUME before INIT throws: nothing is sent and nothing is spawned. */
  method ResumeBeforeInit() returns (thrown: bool, sent: seq<Notification>, current: Option<Lpcm16.Proc>)
    ensures thrown && sent == [] && current == None
  {
    var h := new Helper();
    thrown := h.Resume(1);
    sent, current := h.outbox, h.capture.cp;
  }

  /** Listening, then "alpha" matches and `buffer` is heard: an open
      episode whose recorder holds `buffer`. */
  method Heard(mic: Lpcm16.Supplied, buffer: seq<byte>) returns (h: Helper)
    ensures fresh(h) && fresh(h.capture) && h.Valid()
    ensures h.config == Some(OneModel(mic)) && h.running
    ensures h.outbox == [Initialized, Start, Resumed, Detect("alpha"), Sound(|buffer|)]
    ensures h.detected == Some("alpha") && h.b2w == Some(Recording(1, 16000, buffer))
    ensures h.pendingWrites == 0
    ensures h.capture.notifiesEnd <==> mic.verbose == Some(true)
  {
    h := Listening(mic);
    h.OnHotword(100, "alpha", 1, 16000);
    assert h.detected == Some("alpha") && h.b2w == Some(Recording(1, 16000, []));
    h.OnSound(200, buffer);
    assert [] + buffer == buffer;
  }

  /** "alpha", some sound, then "beta" in one episode: the label becomes
      "alpha-beta" and the one recorder holds the sound. */
  method TwoHotwordsOneRecorder(mic: Lpcm16.Supplied, buffer: seq<byte>)
    returns (sent: seq<Notification>, recorder: Option<Recording>)
    ensures sent == [Initialized, Start, Resumed, Detect("alpha"), Sound(|buffer|), Detect("alpha-beta")]
    ensures recorder == Some(Recording(1, 16000, buffer))
  {
    var h := Heard(mic, buffer);
    h.OnHotword(300, "beta", 1, 16000);
    assert h.detected.value == "alpha-beta" by {
      var joined := "alpha" + "-" + "beta";
      assert |joined| == 10;
      assert forall i :: 0 <= i < 10 ==> joined[i] == "alpha-beta"[i];
    }
    sent, recorder := h.outbox, h.b2w;
  }

  /** A short recording ended by a detector error, in verbose mode: ERROR,
      then FINISH with no file, and the recorder is dropped. */
  method ShortEpisode(mic: Lpcm16.Supplied, buffer: seq<byte>)
    returns (sent: seq<Notification>, recorder: Option<Recording>, heard: Option<string>)
    requires mic.verbose == Some(true) && |buffer| < MinAudioLength
    ensures sent == [Initialized, Start, Resumed, Detect("alpha"), Sound(|buffer|), Error("e"),
                     Finish(Detected("alpha", None))]
    ensures recorder == None && heard == None
  {
    var h := Heard(mic, buffer);
    var _ := h.OnError("e");
    assert h.capture.notifiesEnd;
    assert Finalize(h.detected, h.b2w) == Discard(Detected("alpha", None));
    h.OnCaptureEnd();
    sent, recorder, heard := h.outbox, h.b2w, h.detected;
  }

  /** A long enough recording, paused, in verbose mode: the recording is
      written, FINISH names the file, and afterwards the label is cleared
      while the recorder is still there. */
  method LongEpisode(mic: Lpcm16.Supplied, buffer: seq<byte>)
    returns (sent: seq<Notification>, saved: Option<seq<byte>>, recorder: Option<Recording>, heard: Option<string>)
    requires mic.verbose == Some(true) && |buffer| >= MinAudioLength
    ensures sent == [Initialized, Start, Resumed, Detect("alpha"), Sound(|buffer|), Paused,
                     Finish(Detected("alpha", Some(AfterRecordingFile)))]
    ensures saved == Some(buffer)
    ensures recorder.Some? && heard == None
  {
    var h := Heard(mic, buffer);
    h.Pause();
    assert h.capture.notifiesEnd;
    assert Finalize(h.detected, h.b2w) == Write(buffer);
    h.OnCaptureEnd();
    assert h.pendingWrites == 1 && h.detected == Some("alpha");
    h.OnFileWritten();
    sent, saved, recorder, heard := h.outbox, h.savedAudio, h.b2w, h.detected;
  }

  /** Without verbose mode the end of the capture stream is not wired, so
      an episode stopped by an error never sends FINISH. */
  method QuietEnd(mic: Lpcm16.Supplied, buffer: seq<byte>) returns (sent: seq<Notification>, heard: Option<string>)
    requires mic.verbose != Some(true)
    ensures sent == [Initialized, Start, Resumed, Detect("alpha"), Sound(|buffer|), Error("e")]
    ensures heard == Some("alpha")
  {
    var h := Heard(mic, buffer);
    var _ := h.OnError("e");
    assert !h.capture.notifiesEnd;
    h.OnCaptureEnd();
    sent, heard := h.outbox, h.detected;
  }

  /** The silence timeout: a silence event later than the configured
      duration after the hotword stops listening; with no duration
      configured, none ever does. */
  method SilenceTimeout(mic: Lpcm16.Supplied, later: int) returns (listening: bool, sent: seq<Notification>)
    requires later > 100
    ensures sent == [Initialized, Start, Resumed, Detect("alpha"), Silence]
    ensures listening <==> mic.silence.None? || later - 100 <= mic.silence.value.millis
  {
    var h := Listening(mic);
    h.OnHotword(100, "alpha", 1, 16000);
    var _ := h.OnSilence(later);
    listening, sent := h.running, h.outbox;
  }
}
