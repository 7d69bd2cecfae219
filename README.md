# MMM-Hotword: the hotword helper and its audio capture source

This project models the two core pieces of the MagicMirror hotword module.

- **The node helper** (`node_helper.js`). It takes three host commands:
  - `INIT` delivers the configuration and loads its recipes;
  - `RESUME` starts listening;
  - `PAUSE` stops listening.

  It reacts to four events of the hotword detector: `silence`, `sound`, `hotword` and `error`. A matched hotword opens an *episode*, which has:
  - a *label*: every hotword matched so far, joined with `-`;
  - a *post-trigger recorder*, which collects the audio that follows.

  When the audio capture stream ends, the episode is *finalized*:
  - a recording of at least 8192 bytes is written to `temp/afterRecording.wav`;
  - a shorter one is discarded;
  - either way, `FINISH` is sent.
- **The capture source** (`components/lpcm16.js`). `start` merges the capture options over fixed defaults. It builds the command line for one of four recording programs: `sox`, `rec` or any unknown name, `arecord` and `parec`. It spawns that command and remembers the process in a module-level handle `cp`. `stop` kills the remembered process.

Layout:

- `wrappers.dfy`: `Option` and JavaScript truthiness of an optional string. An absent value and `""` are both falsy.
- `lpcm16.dfy`, module `Lpcm16`. It holds:
  - the options merge, `Merge`;
  - the per-program argument table (`SoxArgs`, `RecArgs`, `ArecordArgs`, `ParecArgs`);
  - the command builder, `BuildCommand`;
  - the class `Capture`, which holds `cp`.
- `node_helper.dfy`, module `NodeHelper`. It holds:
  - the recipe fold, as pure functions `Loaded`, `ModelsOf`, `CommandsOf` and `WithRecipes`, with their lemmas;
  - the label rule, `JoinLabel`, and the finalize decision, `Finalize`;
  - the class `Helper`. It has one method per command and per event, and every notification it sends is appended to `outbox`.
- `scenarios.dfy`, module `Scenarios`: whole command and event sequences run against a fresh `Helper`, with the notifications they produce.

How the model represents things:

- **Time.** It is passed in as an integer `now`, in milliseconds.
- **Process ids.** They are passed in as `pid`.
- **Failure paths.** The source has paths where a property of `null`/`undefined` is read and a `TypeError` ends the handler. Each of these is modelled as a boolean result `thrown`, with the state as far as the handler got.
- **The capture stream's end.** It becomes the method `OnCaptureEnd`.
- **The asynchronous file write.** The write is split in two:
  - `OnCaptureEnd` issues it, which counts it in `pendingWrites`;
  - `OnFileWritten` is the write's completion callback.
- **The `verbose` option.** Whether the end of the stream is reported to the helper at all is `Capture.notifiesEnd`. It equals the merged `verbose` option.

Behaviours of the code that a reader might not expect:

- **The recorder can outlive the label.** `finish` clears the label but not the recorder (node_helper.js:207). One might expect a recorder to exist only while a label is open; it does not: after a written recording, the recorder stays and the label is cleared (`Scenarios.LongEpisode`). The invariant that does hold is the converse: an open (truthy) label always has a recorder. It is part of `Helper.Valid`, and it is why the "label but no recorder" branch of the end callback (node_helper.js:182-184) is unreachable.
- **`RESUMED` without activation.** `RESUMED` is sent after an activation that stopped because there are no models. In that case nothing is started. The episode is still cleared.
- **`RESUME` before `INIT`.** It throws while reading `this.config.models.length`, so no `RESUMED` is sent.
- **Finalizing needs `verbose`.** The episode is finalized only through the end callback, and `start` wires that callback only when `verbose` is set. Without `verbose`, an episode never sends `FINISH` (`Scenarios.QuietEnd`).
- **The silence timeout reads the raw option.** The timeout uses `this.config.mic.silence` as given in the configuration, not the merged option. If the option is absent, `undefined * 1000` is `NaN`, and the timeout never expires.

## Model

| member | source | states |
|---|---|---|
| Lpcm16.Merge | components/lpcm16.js:16-28 | each option takes the supplied value when there is one, otherwise its default (16000 Hz, 1 channel, threshold 0.5, silence "1.0" (1000 ms), not verbose, program `rec`, no start/end threshold, no device); supplying nothing yields exactly the defaults |
| Lpcm16.ThresholdArg | components/lpcm16.js:47-48 | a truthy explicit threshold is used verbatim; otherwise the result is the general threshold followed by exactly one `%` |
| Lpcm16.SoxArgs | components/lpcm16.js:35-50 | 20 arguments: `-q -t waveaudio -d`, then the shared format block `-r <rate> -c <channels> -e signed-integer -b 16`, then `-`, then the silence trailer |
| Lpcm16.RecArgs | components/lpcm16.js:51-66 | 19 arguments: `-q`, the shared format block, `-t wav -`, then the silence trailer |
| Lpcm16.ArecordArgs | components/lpcm16.js:68-81 | with a device the 12 arguments begin `-D <device>`, without one the 10 begin `-q`; either way they end with `-q -r <rate> -c <channels> -t wav -f S16_LE -` |
| Lpcm16.ParecArgs | components/lpcm16.js:82-92 | with a device the 8 arguments begin `--device <device>`, without one the 6 begin `--rate`; either way they end with `--rate <rate> --channels <channels> --format s16le` |
| Lpcm16.BuildCommand | components/lpcm16.js:31-99 | `sox`, `arecord` and `parec` run with their own argument lists; any other program name runs as given with `rec`'s arguments; every program but `arecord` and `parec` ends with the silence trailer; `AUDIODEV` is set exactly when the device is truthy, and to that device |
| Lpcm16.EveryProgramGetsRateAndChannels | components/lpcm16.js:35-92 | whatever the program, the sample rate follows its rate flag (`--rate` for parec, `-r` otherwise) and the channel count follows its channel flag |
| Lpcm16.SoxGetsRateAndChannels | components/lpcm16.js:41-42 | sox's arguments pass the rate after `-r` and the channels after `-c` |
| Lpcm16.RecGetsRateAndChannels | components/lpcm16.js:56-57 | rec's arguments pass the rate after `-r` and the channels after `-c` |
| Lpcm16.ArecordGetsRateAndChannels | components/lpcm16.js:72-73 | arecord's arguments pass the rate after `-r` and the channels after `-c`, with or without a device |
| Lpcm16.ParecGetsRateAndChannels | components/lpcm16.js:85-86 | parec's arguments pass the rate after `--rate` and the channels after `--channels`, with or without a device |
| Lpcm16.NoSilenceEffect | components/lpcm16.js:68-92 | `arecord` and `parec` get no `silence` effect among their arguments (unless the device itself is named "silence") |
| Lpcm16.Capture.constructor | components/lpcm16.js:10 | no process yet, nothing killed, no end callback |
| Lpcm16.Capture.Start | components/lpcm16.js:13-117 | the previous handle is discarded and replaced by the new process, which runs the command built from the merged options; the end callback is wired exactly when the merged `verbose` is set |
| Lpcm16.Capture.Stop | components/lpcm16.js:120-128 | with no process it returns nothing and kills nothing; otherwise it kills the current process once and returns that same process |
| NodeHelper.LoadedStep | node_helper.js:40-53 | one more recipe name adds its recipe when it loads and nothing when it fails |
| NodeHelper.LoadedRecipes | node_helper.js:39-54 | at most one recipe per name loads; when every name loads, all load in order; when none does, nothing is loaded |
| NodeHelper.FoldStep | node_helper.js:43-49 | one more loaded recipe appends its models, assigns its commands over the current ones and adds one LOAD_RECIPE |
| NodeHelper.WithOneMore | node_helper.js:43-47 | folding one more recipe into a configuration changes only its models (appended) and commands (assigned over) |
| NodeHelper.ModelsOfAppend | node_helper.js:43-45 | loading two batches of recipes one after the other concatenates their models |
| NodeHelper.ModelsInRecipeOrder | node_helper.js:43-45 | the first recipe's models come first, followed by the rest in recipe order |
| NodeHelper.LastRecipeWins | node_helper.js:46-48 | a command key takes its value from the last recipe that defines it |
| NodeHelper.UntouchedCommand | node_helper.js:46-48 | a command key no recipe defines keeps its configured value, or stays absent |
| NodeHelper.JoinLabel | node_helper.js:143 | an open (truthy) label is extended with `-` and the new hotword; otherwise the label is just the new hotword; the label always ends with the new hotword |
| NodeHelper.EpisodeJoinsAll | node_helper.js:135-145 | hotwords matched within one episode opened by a non-empty name give the label of all of them joined with `-`, in order, later empty names included (each leaves a doubled `-`) |
| NodeHelper.JoinedStep | node_helper.js:143 | one more hotword after an open, fully joined label keeps the label fully joined |
| NodeHelper.DashedSnoc | node_helper.js:143 | joining one more name with `-` at the end of a joined list |
| NodeHelper.DashedPrefix | node_helper.js:143 | a joined list begins with its first name |
| NodeHelper.LeadingEmptyHotwordsDropped | node_helper.js:137-143 | any run of empty names that opens an episode leaves a falsy label, so the next hotword starts the label afresh (and `OnHotword` then creates a fresh recorder, losing the audio appended since the empty match) |
| NodeHelper.EmptyNamesLeaveEmptyLabel | node_helper.js:143 | after only empty names the label is absent (no match yet) or the empty string |
| NodeHelper.EmptyHotwordInsideEpisode | node_helper.js:143 | once a label is open an empty name is kept: "alpha", "", "beta" give the label "alpha--beta" |
| NodeHelper.FinishPayloadOf | node_helper.js:200-206 | the payload reports a detection exactly when the hotword is truthy, and then carries that hotword and the given file |
| NodeHelper.Finalize | node_helper.js:168-187 | the recording is written exactly when a label is open and the recorder holds at least 8192 bytes; it is discarded exactly when a label is open and the recorder holds fewer; otherwise (and for a discard) FINISH reports the label with no file, or no detection when no label is open |
| NodeHelper.Helper.constructor | node_helper.js:20-30 | nothing configured, not running, no label, no recorder, no stream, nothing sent |
| NodeHelper.Helper.LoadRecipes | node_helper.js:32-56 | the configuration becomes the given one with every loadable recipe folded in, in order, and one LOAD_RECIPE is sent per loaded recipe |
| NodeHelper.Helper.Init | node_helper.js:58-69 | the configuration is replaced by the payload with its recipes folded in; INITIALIZED is sent once, after all LOAD_RECIPE notifications |
| NodeHelper.Helper.StartListening | node_helper.js:163-166 | running; the stream is a new capture process for the configured options, and the capture source's handle is that process |
| NodeHelper.Helper.Activate | node_helper.js:89-110 | the label and recorder are cleared; it throws exactly when there is no configuration; with no models nothing else changes; otherwise START is sent, the silence timer restarts at 0 and listening starts |
| NodeHelper.Helper.Resume | node_helper.js:70-77 | when running: only ALREADY_RESUMED, nothing else changes; when idle: the episode is cleared, RESUMED follows an activation that did not throw (also with no models, which starts nothing), and START precedes it when there are models |
| NodeHelper.Helper.StopListening | node_helper.js:155-161 | not running and no stream afterwards; it throws exactly when there was no stream, and otherwise the current capture process is killed |
| NodeHelper.Helper.Pause | node_helper.js:78-85 | when running: listening stops, the stream's process is killed, PAUSED is sent; when not running: only ALREADY_PAUSED, nothing else changes; the episode is kept either way |
| NodeHelper.Helper.OnSilence | node_helper.js:112-120 | SILENCE is always sent; listening stops exactly when a recorder exists and more than the configured silence has passed since the timer; otherwise nothing else changes |
| NodeHelper.Helper.OnSound | node_helper.js:121-128 | SOUND with the buffer's size is always sent; with a recorder the buffer is appended to it and the timer restarts at `now`; without one nothing else changes |
| NodeHelper.Helper.OnError | node_helper.js:129-134 | ERROR is sent, then listening stops whatever the episode |
| NodeHelper.Helper.OnHotword | node_helper.js:135-147 | the timer restarts at `now`; a new empty recorder with the detector's format is created only when no label is open; the label becomes the joined label and DETECT carries it |
| NodeHelper.Helper.FinishEpisode | node_helper.js:200-210 | the label is cleared (the recorder is not) and FINISH is sent with the payload for the given hotword and file |
| NodeHelper.Helper.OnCaptureEnd | node_helper.js:166-188 | without the end callback nothing happens; otherwise the episode is handled as `Finalize` decides: a write is issued and the label kept, or the recorder is dropped (too short) and FINISH sent, or FINISH sent with the recorder left as it is |
| NodeHelper.Helper.OnFileWritten | node_helper.js:178-180 | one pending write completes; FINISH names `temp/afterRecording.wav` with the label as it is at that moment, and the label is cleared |
| Scenarios.Listening | node_helper.js:58-77 | INIT then RESUME with one model: INITIALIZED, START, RESUMED; listening with no episode |
| Scenarios.ResumeTwice | node_helper.js:70-77 | a second RESUME answers ALREADY_RESUMED and spawns no second process |
| Scenarios.PauseTwice | node_helper.js:78-85 | a second PAUSE answers ALREADY_PAUSED; the process is killed once |
| Scenarios.ResumeWithoutModels | node_helper.js:89-97 | with no models RESUME still answers RESUMED, without START, and nothing is listening |
| Scenarios.ResumeBeforeInit | node_helper.js:89-97 | RESUME before INIT throws: nothing is sent, nothing is spawned |
| Scenarios.Heard | node_helper.js:121-147 | after "alpha" and a sound, the label is "alpha" and the recorder holds exactly that sound |
| Scenarios.TwoHotwordsOneRecorder | node_helper.js:135-147 | "alpha" then "beta" in one episode: DETECT "alpha" then DETECT "alpha-beta", one recorder holding the sound in between |
| Scenarios.ShortEpisode | node_helper.js:168-176 | a recording under 8192 bytes ended by an error: FINISH with the label and no file; recorder and label cleared |
| Scenarios.LongEpisode | node_helper.js:176-180 | a recording of at least 8192 bytes: it is written, FINISH names the file, the label is cleared but the recorder stays |
| Scenarios.QuietEnd | components/lpcm16.js:103-116 | without `verbose` the end of the stream is not reported, so no FINISH is sent and the label stays open |
| Scenarios.SilenceTimeout | node_helper.js:112-120 | a silence event after a hotword stops listening exactly when a silence duration is configured and more than it has passed |

## Left out

- Process spawning, the child's stdout stream, `pipe`/`unpipe` and `kill` are not modelled as I/O. A process is an id with the command it runs. The stream is present or absent. A kill is recorded in `Capture.signalled`.
- The snowboy `Detector` and `Models` are native code and are not part of this model. Their events are method calls with given arguments, and `numChannels()`/`sampleRate()` are parameters of `OnHotword`. The hotword's index and buffer are unused by the source and are not parameters. The model-file path resolution and the detector options (audio gain, front end) are left out.
- `components/b2w.js` is not part of this model. The recorder is its format plus the bytes appended. `getAudioLength` is taken to be the number of bytes. WAV encoding and `writeFile` are not modelled beyond the write being issued and its completion callback.
- `Date.now` is replaced by the parameter `now`.
- Console logging and timing are left out.
- The socket transport is left out. Notifications are appended to `outbox`. The `LOAD_RECIPE` payload is the recipe itself, not its `JSON.stringify` text with functions serialised.
- `require` of recipe files is left out. Recipes are given as a map from name to recipe, and a name missing from the map is a recipe that fails to load. A `models` value that is not an array, or a `customCommands` value that is not an object, is represented as that field being absent. The source skips such a field in the same way.
- `path.resolve` is left out. The file in FINISH is the relative `temp/afterRecording.wav`, as the source sends it.
- Floating point is left out. The silence duration is a `Duration` holding both the text given to the program and its value in whole milliseconds, and thresholds are strings.
- The `compress` default and the `data` logging listener are not modelled, because the source does not use them for anything else.
- The commented-out end-of-stream wiring is left out.
- An option supplied explicitly as `undefined` or `null` is not modelled. `Object.assign` copies such a value over its default: `threshold: null` gives `null%`, `sampleRate: null` leaves `-r` without its value once the arguments are joined into the shell command line, and `recordProgram: null` makes `spawn` throw. In `Supplied`, `None` means the option was left out and the default applies.
- A configuration without `recipes` or without `models` arrays, or without `mic`, is not modelled. `Config` always has all three. Without `mic`, `start` runs on the defaults, but once a recorder exists the silence handler throws reading `this.config.mic.silence`; the model's `OnSilence` instead treats an all-`None` `mic` as a timeout that never expires.
- Late events from a detector or a capture stream of an earlier activation are not modelled. Each activation's handlers close over their own `silenceTimer`, which is modelled as the single field `silenceTimer` reset by each activation. Likewise `Capture.notifiesEnd` is one flag for the current stream, not one per stream: if an earlier verbose stream ends after a quiet one has started, the source still runs that stream's end callback, while `OnCaptureEnd` does nothing.
- Quoting of the arguments when they are joined into a shell command line (`shell: true`) is left out.
- Failure of `spawn` itself is left out.
