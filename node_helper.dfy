/** The hotword helper: recipe loading, the host commands INIT, RESUME and
    PAUSE, the four detector events, and the end of the capture stream that
    finishes an episode. */
module NodeHelper {
  import opened Wrappers
  import Lpcm16

  type byte = bv8

  /** One trained hotword model, as listed in the configuration. */
  datatype ModelSpec = ModelSpec(file: string, hotwords: string, sensitivity: string)

  /** The definition of a custom command; opaque here. */
  type CommandSpec = string

  /** The configuration received with INIT. */
  datatype Config = Config(
    models: seq<ModelSpec>,
    customCommands: map<string, CommandSpec>,
    recipes: seq<string>,
    mic: Lpcm16.Supplied)

  /** What a recipe file exports: optionally models, optionally custom commands. */
  datatype Recipe = Recipe(models: Option<seq<ModelSpec>>, customCommands: Option<map<string, CommandSpec>>)

  /** The post-trigger recorder: the detector's format at creation, and the audio appended since. */
  datatype Recording = Recording(channels: int, sampleRate: int, audio: seq<byte>)

  /** The FINISH payload: `{detected:false}` or `{detected:true, hotword, file}`. */
  datatype FinishPayload = NotDetected | Detected(hotword: string, file: Option<string>)

  /** The notifications sent to the host, with their payloads. */
  datatype Notification =
    | LoadRecipe(recipe: Recipe)
    | Initialized
    | Resumed
    | AlreadyResumed
    | Paused
    | AlreadyPaused
    | Start
    | Silence
    | Sound(size: nat)
    | Error(error: string)
    | Detect(hotword: string)
    | Finish(payload: FinishPayload)

  /** A recording shorter than this many bytes is discarded, not written. */
  const MinAudioLength := 8192

  /** Where a long enough recording is written. */
  const AfterRecordingFile := "temp/afterRecording.wav"

  // ---------------------------------------------------------------------
  // Recipes

  /** The recipes that load, in order: a name that cannot be loaded is skipped. */
  function Loaded(names: seq<string>, available: map<string, Recipe>): seq<Recipe> {
    if names == [] then []
    else
      var last := names[|names| - 1];
      Loaded(names[..|names| - 1], available) + (if last in available then [available[last]] else [])
  }

  /** At most one recipe per name loads; when every name loads they all do,
      in order; when none does, nothing is loaded. */
  lemma {:induction false} LoadedRecipes(names: seq<string>, available: map<string, Recipe>)
    ensures |Loaded(names, available)| <= |names|
    ensures (forall j :: 0 <= j < |names| ==> names[j] in available) ==>
              |Loaded(names, available)| == |names| &&
              forall j :: 0 <= j < |names| ==> Loaded(names, available)[j] == available[names[j]]
    ensures (forall j :: 0 <= j < |names| ==> names[j] !in available) ==> Loaded(names, available) == []
    decreases |names|
  {
    if names != [] {
      var init := names[..|names| - 1];
      LoadedRecipes(init, available);
      assert forall j :: 0 <= j < |init| ==> init[j] == names[j];
    }
  }

  /** Loading one more name extends the loaded recipes by at most that one. */
  lemma LoadedStep(names: seq<string>, i: nat, available: map<string, Recipe>)
    requires i < |names|
    ensures Loaded(names[..i + 1], available) ==
              Loaded(names[..i], available) + (if names[i] in available then [available[names[i]]] else [])
  {
    assert names[..i + 1][..i] == names[..i];
  }

  /** The models a recipe contributes. */
  function ModelsIn(r: Recipe): seq<ModelSpec> {
    r.models.GetOr([])
  }

  /** The custom commands a recipe contributes. */
  function CommandsIn(r: Recipe): map<string, CommandSpec> {
    r.customCommands.GetOr(map[])
  }

  /** All models of the recipes, concatenated in recipe order. */
  function ModelsOf(rs: seq<Recipe>): seq<ModelSpec> {
    if rs == [] then [] else ModelsOf(rs[..|rs| - 1]) + ModelsIn(rs[|rs| - 1])
  }

  /** `base` with each recipe's commands assigned over it, in recipe order. */
  function CommandsOf(base: map<string, CommandSpec>, rs: seq<Recipe>): map<string, CommandSpec> {
    if rs == [] then base else CommandsOf(base, rs[..|rs| - 1]) + CommandsIn(rs[|rs| - 1])
  }

  /** One LOAD_RECIPE per recipe that loaded, in order. */
  function Notices(rs: seq<Recipe>): seq<Notification> {
    if rs == [] then [] else Notices(rs[..|rs| - 1]) + [LoadRecipe(rs[|rs| - 1])]
  }

  /** The configuration after the recipes are loaded into `cfg`. */
  function WithRecipes(cfg: Config, rs: seq<Recipe>): Config {
    cfg.(models := cfg.models + ModelsOf(rs), customCommands := CommandsOf(cfg.customCommands, rs))
  }

  /** One more loaded recipe adds its models, its commands and its notice at the end. */
  lemma FoldStep(base: map<string, CommandSpec>, before: seq<Recipe>, r: Recipe)
    ensures ModelsOf(before + [r]) == ModelsOf(before) + ModelsIn(r)
    ensures CommandsOf(base, before + [r]) == CommandsOf(base, before) + CommandsIn(r)
    ensures Notices(before + [r]) == Notices(before) + [LoadRecipe(r)]
  {
    assert (before + [r])[..|before|] == before;
  }

  /** Folding one more recipe into a configuration appends its models and
      assigns its commands over the ones already there. */
  lemma WithOneMore(cfg: Config, before: seq<Recipe>, r: Recipe)
    ensures var w := WithRecipes(cfg, before);
      WithRecipes(cfg, before + [r]) == w.(models := w.models + ModelsIn(r), customCommands := w.customCommands + CommandsIn(r))
    ensures Notices(before + [r]) == Notices(before) + [LoadRecipe(r)]
  {
    FoldStep(cfg.customCommands, before, r);
    assert cfg.models + (ModelsOf(before) + ModelsIn(r)) == cfg.models + ModelsOf(before) + ModelsIn(r);
  }

  /** Loading recipes one after the other concatenates their models. */
  lemma {:induction false} ModelsOfAppend(a: seq<Recipe>, b: seq<Recipe>)
    ensures ModelsOf(a + b) == ModelsOf(a) + ModelsOf(b)
    decreases |b|
  {
    if b == [] {
      assert a + b == a;
    } else {
      var b' := b[..|b| - 1];
      assert (a + b)[..|a + b| - 1] == a + b';
      ModelsOfAppend(a, b');
    }
  }

  /** The first recipe's models come first, then the rest in order. */
  lemma ModelsInRecipeOrder(rs: seq<Recipe>)
    requires rs != []
    ensures ModelsOf(rs) == ModelsIn(rs[0]) + ModelsOf(rs[1..])
  {
    assert rs == [rs[0]] + rs[1..];
    ModelsOfAppend([rs[0]], rs[1..]);
    assert [rs[0]][..0] == [];
  }

  /** A command key takes its value from the last recipe that defines it. */
  lemma {:induction false} LastRecipeWins(base: map<string, CommandSpec>, rs: seq<Recipe>, k: string, i: nat)
    requires i < |rs| && k in CommandsIn(rs[i])
    requires forall j :: i < j < |rs| ==> k !in CommandsIn(rs[j])
    ensures k in CommandsOf(base, rs) && CommandsOf(base, rs)[k] == CommandsIn(rs[i])[k]
    decreases |rs|
  {
    if i < |rs| - 1 {
      LastRecipeWins(base, rs[..|rs| - 1], k, i);
    }
  }

  /** A command key no recipe defines keeps its value from the configuration, or stays absent. */
  lemma {:induction false} UntouchedCommand(base: map<string, CommandSpec>, rs: seq<Recipe>, k: string)
    requires forall j :: 0 <= j < |rs| ==> k !in CommandsIn(rs[j])
    ensures k in CommandsOf(base, rs) <==> k in base
    ensures k in base ==> CommandsOf(base, rs)[k] == base[k]
    decreases |rs|
  {
    if rs != [] {
      UntouchedCommand(base, rs[..|rs| - 1], k);
    }
  }

  // ---------------------------------------------------------------------
  // Labels, silence, finalizing

  /** The label after a hotword matches: joined to an open label with '-',
      or the new hotword alone when no (truthy) label is open. */
  function JoinLabel(detected: Option<string>, hotword: string): (joined: string)
    ensures |joined| >= |hotword| && joined[|joined| - |hotword|..] == hotword
    ensures Truthy(detected) ==>
              |joined| == |detected.value| + 1 + |hotword| &&
              joined[..|detected.value|] == detected.value && joined[|detected.value|] == '-'
    ensures !Truthy(detected) ==> joined == hotword
  {
    if Truthy(detected) then detected.value + "-" + hotword else hotword
  }

  /** The label an episode holds after the hotwords `hs` matched in order. */
  function EpisodeLabel(hs: seq<string>): Option<string> {
    if hs == [] then None else Some(JoinLabel(EpisodeLabel(hs[..|hs| - 1]), hs[|hs| - 1]))
  }

  /** `hs` joined with '-' (defined from the front). */
  function Dashed(hs: seq<string>): string
    requires hs != []
  {
    if |hs| == 1 then hs[0] else hs[0] + "-" + Dashed(hs[1..])
  }

  lemma {:induction false} DashedSnoc(hs: seq<string>, h: string)
    requires hs != []
    ensures Dashed(hs + [h]) == Dashed(hs) + "-" + h
    decreases |hs|
  {
    if |hs| == 1 {
      assert (hs + [h])[1..] == [h];
    } else {
      assert (hs + [h])[1..] == hs[1..] + [h];
      DashedSnoc(hs[1..], h);
    }
  }

  /** Hotwords that match within one episode opened by a non-empty name
      are reported as all of them joined with '-', in order (later empty
      names included). */
  lemma {:induction false} EpisodeJoinsAll(hs: seq<string>)
    requires hs != [] && hs[0] != ""
    ensures EpisodeLabel(hs) == Some(Dashed(hs))
    decreases |hs|
  {
    var init, last := hs[..|hs| - 1], hs[|hs| - 1];
    assert hs == init + [last];
    if init != [] {
      EpisodeJoinsAll(init);
      DashedPrefix(init);
      assert init[0] == hs[0] != "";
      JoinedStep(init, last);
    } else {
      assert hs == [hs[0]];
    }
  }

  /** One more hotword after an open, fully joined label. */
  lemma JoinedStep(init: seq<string>, last: string)
    requires init != [] && EpisodeLabel(init) == Some(Dashed(init)) && Dashed(init) != ""
    ensures EpisodeLabel(init + [last]) == Some(Dashed(init + [last]))
  {
    assert (init + [last])[..|init|] == init;
    DashedSnoc(init, last);
  }

  lemma {:induction false} DashedPrefix(hs: seq<string>)
    requires hs != []
    ensures |Dashed(hs)| >= |hs[0]| && Dashed(hs)[..|hs[0]|] == hs[0]
    decreases |hs|
  {
    if |hs| > 1 {
      DashedPrefix(hs[1..]);
    }
  }

  /** Hotwords with empty names that open an episode leave a falsy label,
      so the next hotword starts the label afresh (and, in the helper, a
      fresh recorder). */
  lemma LeadingEmptyHotwordsDropped(hs: seq<string>, h: string)
    requires forall i :: 0 <= i < |hs| ==> hs[i] == ""
    ensures !Truthy(EpisodeLabel(hs))
    ensures EpisodeLabel(hs + [h]) == Some(h)
  {
    EmptyNamesLeaveEmptyLabel(hs);
    assert (hs + [h])[..|hs|] == hs;
  }

  /** Only empty names so far: no label, or the empty one. */
  lemma {:induction false} EmptyNamesLeaveEmptyLabel(hs: seq<string>)
    requires forall i :: 0 <= i < |hs| ==> hs[i] == ""
    ensures EpisodeLabel(hs) == if hs == [] then None else Some("")
    decreases |hs|
  {
    if hs != [] {
      var init := hs[..|hs| - 1];
      EmptyNamesLeaveEmptyLabel(init);
    }
  }

  /** Once a label is open, an empty name is not dropped: it leaves a
      doubled '-' in the label. */
  lemma EmptyHotwordInsideEpisode()
    ensures EpisodeLabel(["alpha", "", "beta"]) == Some("alpha--beta")
  {
    var hs := ["alpha", "", "beta"];
    assert hs[..2] == ["alpha", ""] && hs[..2][..1] == ["alpha"] && ["alpha"][..0] == [];
    assert EpisodeLabel(["alpha"]) == Some("alpha");
    assert EpisodeLabel(["alpha", ""]) == Some("alpha" + "-" + "");
    var joined := "alpha" + "-" + "" + "-" + "beta";
    assert EpisodeLabel(hs) == Some(joined);
    assert |joined| == 11;
    assert forall i :: 0 <= i < 11 ==> joined[i] == "alpha--beta"[i];
    assert joined == "alpha--beta";
  }

  /** `now - silenceTimer > silence * 1000`: the silence timeout has passed.
      An absent duration compares as NaN, so it never passes. */
  predicate SilenceExpired(now: int, lastActivity: int, silence: Option<Lpcm16.Duration>) {
    silence.Some? && now - lastActivity > silence.value.millis
  }

  /** The payload `finish(hotword, file)` sends. */
  function FinishPayloadOf(hotword: Option<string>, file: Option<string>): (p: FinishPayload)
    ensures p.Detected? <==> Truthy(hotword)
    ensures p.Detected? ==> p.hotword == hotword.value && p.file == file
  {
    if Truthy(hotword) then Detected(hotword.value, file) else NotDetected
  }

  /** What the end of the capture stream does with an episode. */
  datatype Finale =
    | Report(payload: FinishPayload)   // finish now; the recorder is left as it is
    | Discard(payload: FinishPayload)  // drop the too-short recorder, then finish
    | Write(audio: seq<byte>)          // write the recording; finish when the write completes

  /** The three-way decision against the minimum recording length. */
  function Finalize(detected: Option<string>, b2w: Option<Recording>): (f: Finale)
    ensures f.Write? <==> Truthy(detected) && b2w.Some? && |b2w.value.audio| >= MinAudioLength
    ensures f.Write? ==> f.audio == b2w.value.audio
    ensures f.Discard? <==> Truthy(detected) && b2w.Some? && |b2w.value.audio| < MinAudioLength
    ensures !f.Write? ==> f.payload == if Truthy(detected) then Detected(detected.value, None) else NotDetected
  {
    if Truthy(detected) then
      if b2w.Some? then
        if |b2w.value.audio| < MinAudioLength then Discard(FinishPayloadOf(detected, None))
        else Write(b2w.value.audio)
      else Report(FinishPayloadOf(detected, None))
    else Report(FinishPayloadOf(None, None))
  }

  // ---------------------------------------------------------------------
  // The helper

  class Helper {
    /** `None` until INIT: the empty `{}` configuration. */
    var config: Option<Config>
    var running: bool
    var detected: Option<string>
    var b2w: Option<Recording>
    /** The audio stream of the capture process, while listening. */
    var mic: Option<Lpcm16.Proc>
    /** The time of the last hotword or post-trigger sound, in milliseconds. */
    var silenceTimer: int
    /** The recording last handed to the writer for AfterRecordingFile. */
    var savedAudio: Option<seq<byte>>
    /** Writes issued whose completion callback has not run yet. */
    var pendingWrites: nat
    /** Every notification sent to the host, in order. */
    var outbox: seq<Notification>
    /** The audio source module's state. */
    const capture: Lpcm16.Capture

    /** The listening flag and the stream agree, the stream is the source's
        current process, and an open label always has a recorder. */
    ghost predicate Valid()
      reads this, capture
    {
      && (running <==> mic.Some?)
      && (mic.Some? ==> capture.cp == mic)
      && (running ==> config.Some?)
      && (Truthy(detected) ==> b2w.Some?)
    }

    /** `start`. */
    constructor ()
      ensures Valid() && fresh(capture)
      ensures config == None && !running && detected == None && b2w == None && mic == None
      ensures silenceTimer == 0 && savedAudio == None && pendingWrites == 0 && outbox == []
      ensures capture.cp == None && capture.signalled == [] && !capture.notifiesEnd
    {
      config := None;
      running := false;
      detected := None;
      b2w := None;
      mic := None;
      silenceTimer := 0;
      savedAudio := None;
      pendingWrites := 0;
      outbox := [];
      capture := new Lpcm16.Capture();
    }

    /** `loadRecipes`: fold every recipe that loads into the configuration,
        announcing each one. */
    method LoadRecipes(available: map<string, Recipe>)
      requires config.Some?
      modifies this`config, this`outbox
      ensures config == Some(WithRecipes(old(config).value, Loaded(old(config).value.recipes, available)))
      ensures outbox == old(outbox) + Notices(Loaded(old(config).value.recipes, available))
    {
      var recipes := config.value.recipes;
      ghost var cfg0 := config.value;
      ghost var done: seq<Recipe> := [];
      var i := 0;
      assert cfg0.models + [] == cfg0.models;
      while i < |recipes|
        invariant 0 <= i <= |recipes|
        invariant done == Loaded(recipes[..i], available)
        invariant config == Some(WithRecipes(cfg0, done))
        invariant outbox == old(outbox) + Notices(done)
      {
        LoadedStep(recipes, i, available);
        var name := recipes[i];
        if name in available {
          var p := available[name];
          WithOneMore(cfg0, done, p);
          if p.models.Some? {
            config := Some(config.value.(models := config.value.models + p.models.value));
          } else {
            assert config.value.models + ModelsIn(p) == config.value.models;
          }
          if p.customCommands.Some? {
            config := Some(config.value.(customCommands := config.value.customCommands + p.customCommands.value));
          } else {
            assert config.value.customCommands + CommandsIn(p) == config.value.customCommands;
          }
          outbox := outbox + [LoadRecipe(p)];
          done := done + [p];
        } else {
          assert done + [] == done;
        }
        i := i + 1;
      }
      assert recipes[..i] == recipes;
    }

    /** INIT: take the configuration, load the recipes, then answer INITIALIZED. */
    method Init(payload: Config, available: map<string, Recipe>)
      requires Valid()
      modifies this`config, this`outbox
      ensures Valid()
      ensures config == Some(WithRecipes(payload, Loaded(payload.recipes, available)))
      ensures outbox == old(outbox) + Notices(Loaded(payload.recipes, available)) + [Initialized]
    {
      config := Some(payload);
      LoadRecipes(available);
      outbox := outbox + [Initialized];
    }

    /** `startListening`: start the capture program; the new process gets id `pid`. */
    method StartListening(pid: nat)
      requires config.Some?
      modifies this`running, this`mic, capture`cp, capture`notifiesEnd
      ensures running
      ensures mic == Some(Lpcm16.Proc(pid, Lpcm16.BuildCommand(Lpcm16.Merge(config.value.mic))))
      ensures capture.cp == mic
      ensures capture.notifiesEnd == Lpcm16.Merge(config.value.mic).verbose
    {
      running := true;
      var stream := capture.Start(config.value.mic, pid);
      mic := Some(stream);
    }

    /** `activate`: clear the episode, and unless there are no models (or no
        configuration, which throws) announce START and start listening. */
    method Activate(pid: nat) returns (thrown: bool)
      requires Valid() && !running
      modifies this`running, this`mic, this`detected, this`b2w, this`silenceTimer, this`outbox
      modifies capture`cp, capture`notifiesEnd
      ensures Valid()
      ensures detected == None && b2w == None
      ensures thrown <==> config.None?
      ensures config.None? || |config.value.models| == 0 ==>
                !running && mic == None && outbox == old(outbox) && silenceTimer == old(silenceTimer) &&
                capture.cp == old(capture.cp) && capture.notifiesEnd == old(capture.notifiesEnd)
      ensures config.Some? && |config.value.models| > 0 ==>
                running && outbox == old(outbox) + [Start] && silenceTimer == 0 &&
                mic == Some(Lpcm16.Proc(pid, Lpcm16.BuildCommand(Lpcm16.Merge(config.value.mic)))) &&
                capture.cp == mic && capture.notifiesEnd == Lpcm16.Merge(config.value.mic).verbose
    {
      b2w := None;
      detected := None;
      if config.None? {
        return true;
      }
      if |config.value.models| == 0 {
        return false;
      }
      outbox := outbox + [Start];
      silenceTimer := 0;
      StartListening(pid);
      assert Valid();
      thrown := false;
    }

    /** RESUME: activate when idle and answer RESUMED (also when there were
        no models to load); answer ALREADY_RESUMED otherwise. */
    method Resume(pid: nat) returns (thrown: bool)
      requires Valid()
      modifies this`running, this`mic, this`detected, this`b2w, this`silenceTimer, this`outbox
      modifies capture`cp, capture`notifiesEnd
      ensures Valid()
      ensures old(running) ==>
                !thrown && running && outbox == old(outbox) + [AlreadyResumed] &&
                mic == old(mic) && detected == old(detected) && b2w == old(b2w) &&
                silenceTimer == old(silenceTimer) &&
                capture.cp == old(capture.cp) && capture.notifiesEnd == old(capture.notifiesEnd)
      ensures !old(running) ==> detected == None && b2w == None && (thrown <==> config.None?)
      ensures !old(running) && config.None? ==>
                !running && mic == None && outbox == old(outbox) && silenceTimer == old(silenceTimer) &&
                capture.cp == old(capture.cp) && capture.notifiesEnd == old(capture.notifiesEnd)
      ensures !old(running) && config.Some? && |config.value.models| == 0 ==>
                !running && mic == None && outbox == old(outbox) + [Resumed] &&
                silenceTimer == old(silenceTimer) &&
                capture.cp == old(capture.cp) && capture.notifiesEnd == old(capture.notifiesEnd)
      ensures !old(running) && config.Some? && |config.value.models| > 0 ==>
                running && outbox == old(outbox) + [Start, Resumed] && silenceTimer == 0 &&
                mic == Some(Lpcm16.Proc(pid, Lpcm16.BuildCommand(Lpcm16.Merge(config.value.mic)))) &&
                capture.cp == mic && capture.notifiesEnd == Lpcm16.Merge(config.value.mic).verbose
    {
      if !running {
        thrown := Activate(pid);
        if !thrown {
          outbox := outbox + [Resumed];
        }
      } else {
        outbox := outbox + [AlreadyResumed];
        thrown := false;
      }
    }

    /** `stopListening`: clear the listening flag, drop the stream and stop
        the capture process. With no stream, `this.mic.unpipe` throws before
        anything else happens. */
    method StopListening() returns (thrown: bool)
      modifies this`running, this`mic, capture`signalled
      ensures !running && mic == None
      ensures thrown <==> old(mic).None?
      ensures old(mic).None? ==> capture.signalled == old(capture.signalled)
      ensures old(mic).Some? ==> capture.signalled == old(capture.signalled) + (if capture.cp.Some? then [capture.cp.value] else [])
    {
      running := false;
      if mic.None? {
        return true;
      }
      mic := None;
      var _ := capture.Stop();
      thrown := false;
    }

    /** PAUSE: stop listening when running and answer PAUSED; answer
        ALREADY_PAUSED otherwise. The open episode, if any, is kept. */
    method Pause()
      requires Valid()
      modifies this`running, this`mic, this`outbox, capture`signalled
      ensures Valid()
      ensures old(running) ==>
                !running && mic == None && outbox == old(outbox) + [Paused] &&
                capture.signalled == old(capture.signalled) + [old(mic).value]
      ensures !old(running) ==>
                !running && mic == old(mic) && outbox == old(outbox) + [AlreadyPaused] &&
                capture.signalled == old(capture.signalled)
    {
      if running {
        var thrown := StopListening();
        outbox := outbox + [Paused];
      } else {
        outbox := outbox + [AlreadyPaused];
      }
    }

    /** Detector `silence` at time `now`: always reported; stops listening
        when a recorder exists and the silence timeout has passed. */
    method OnSilence(now: int) returns (thrown: bool)
      requires Valid() && config.Some?
      modifies this`running, this`mic, this`outbox, capture`signalled
      ensures Valid()
      ensures outbox == old(outbox) + [Silence]
      ensures var stop := old(b2w).Some? && SilenceExpired(now, silenceTimer, config.value.mic.silence);
        && (stop ==> !running && mic == None && (thrown <==> old(mic).None?) &&
                     capture.signalled == old(capture.signalled) + (if old(mic).Some? then [old(mic).value] else []))
        && (!stop ==> !thrown && running == old(running) && mic == old(mic) &&
                      capture.signalled == old(capture.signalled))
    {
      outbox := outbox + [Silence];
      thrown := false;
      if b2w.Some? {
        if SilenceExpired(now, silenceTimer, config.value.mic.silence) {
          thrown := StopListening();
        }
      }
    }

    /** Detector `sound` with `buffer` at time `now`: always reported with its
        size; with a recorder, the buffer is appended and the timer restarts. */
    method OnSound(now: int, buffer: seq<byte>)
      requires Valid()
      modifies this`b2w, this`silenceTimer, this`outbox
      ensures Valid()
      ensures outbox == old(outbox) + [Sound(|buffer|)]
      ensures old(b2w).Some? ==>
                silenceTimer == now &&
                b2w == Some(old(b2w).value.(audio := old(b2w).value.audio + buffer))
      ensures old(b2w).None? ==> b2w == None && silenceTimer == old(silenceTimer)
    {
      outbox := outbox + [Sound(|buffer|)];
      if b2w.Some? {
        silenceTimer := now;
        b2w := Some(b2w.value.(audio := b2w.value.audio + buffer));
      }
    }

    /** Detector `error`: reported, then listening stops whatever the episode. */
    method OnError(err: string) returns (thrown: bool)
      requires Valid()
      modifies this`running, this`mic, this`outbox, capture`signalled
      ensures Valid()
      ensures outbox == old(outbox) + [Error(err)]
      ensures !running && mic == None && (thrown <==> old(mic).None?)
      ensures capture.signalled == old(capture.signalled) + (if old(mic).Some? then [old(mic).value] else [])
    {
      outbox := outbox + [Error(err)];
      thrown := StopListening();
    }

    /** Detector `hotword` named `hotword` at time `now`; `channels` and
        `sampleRate` are the detector's. The first match of an episode
        creates the recorder, later ones extend the label. */
    method OnHotword(now: int, hotword: string, channels: int, sampleRate: int)
      requires Valid()
      modifies this`detected, this`b2w, this`silenceTimer, this`outbox
      ensures Valid()
      ensures silenceTimer == now
      ensures detected == Some(JoinLabel(old(detected), hotword))
      ensures Truthy(old(detected)) ==> b2w == old(b2w)
      ensures !Truthy(old(detected)) ==> b2w == Some(Recording(channels, sampleRate, []))
      ensures outbox == old(outbox) + [Detect(detected.value)]
    {
      silenceTimer := now;
      if !Truthy(detected) {
        b2w := Some(Recording(channels, sampleRate, []));
      }
      detected := Some(JoinLabel(detected, hotword));
      outbox := outbox + [Detect(detected.value)];
    }

    /** `finish`: report the episode and clear the label (not the recorder). */
    method FinishEpisode(hotword: Option<string>, file: Option<string>)
      modifies this`detected, this`outbox
      ensures detected == None
      ensures outbox == old(outbox) + [Finish(FinishPayloadOf(hotword, file))]
    {
      var payload := FinishPayloadOf(hotword, file);
      detected := None;
      outbox := outbox + [Finish(payload)];
    }

    /** The capture stream ended. Only in verbose mode is the callback wired;
        it then finalizes the episode as `Finalize` decides. */
    method OnCaptureEnd()
      requires Valid()
      modifies this`detected, this`b2w, this`outbox, this`savedAudio, this`pendingWrites
      ensures Valid()
      ensures !capture.notifiesEnd ==>
                detected == old(detected) && b2w == old(b2w) && outbox == old(outbox) &&
                savedAudio == old(savedAudio) && pendingWrites == old(pendingWrites)
      ensures capture.notifiesEnd ==>
                var f := Finalize(old(detected), old(b2w));
                if f.Write? then
                  detected == old(detected) && b2w == old(b2w) && outbox == old(outbox) &&
                  savedAudio == Some(f.audio) && pendingWrites == old(pendingWrites) + 1
                else
                  detected == None && outbox == old(outbox) + [Finish(f.payload)] &&
                  b2w == (if f.Discard? then None else old(b2w)) &&
                  savedAudio == old(savedAudio) && pendingWrites == old(pendingWrites)
    {
      if !capture.notifiesEnd {
        return;
      }
      if Truthy(detected) {
        if b2w.Some? {
          var length := |b2w.value.audio|;
          if length < MinAudioLength {
            b2w := None;
            FinishEpisode(detected, None);
          } else {
            savedAudio := Some(b2w.value.audio);
            pendingWrites := pendingWrites + 1;
          }
        } else {
          // an open label always has a recorder (Valid), so the source's
          // `finish(this.detected, null)` here cannot be reached
          assert false;
        }
      } else {
        FinishEpisode(None, None);
      }
    }

    /** A write of the recording completed: finish with the label as it is now. */
    method OnFileWritten()
      requires Valid() && pendingWrites > 0
      modifies this`detected, this`outbox, this`pendingWrites
      ensures Valid()
      ensures pendingWrites == old(pendingWrites) - 1 && detected == None
      ensures outbox == old(outbox) + [Finish(FinishPayloadOf(old(detected), Some(AfterRecordingFile)))]
    {
      pendingWrites := pendingWrites - 1;
      FinishEpisode(detected, Some(AfterRecordingFile));
    }
  }
}
