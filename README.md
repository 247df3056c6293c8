# CARLA driving-session recorder: a verified model

This project models the dataset-creation scripts of a CARLA driving setup in Dafny:

- **`record_driving_session.py`**. `CarlaRecorder` records manual drives, one session at a time. The model covers:
  - the `R` toggle and the sequential session counter;
  - resuming the counter from an existing output folder;
  - the frame buffer, which fills only while recording;
  - the per-tick vehicle control and the action log;
  - what one save writes: three numbered files, the frames in order, the metadata and the silent audio length;
  - the save guard on exit and the closing summary.
- **`simple_drive.py`**. The keyboard controller is a class whose state changes every tick:
  - pedals ramp up while held;
  - a steering cache is clamped and rounded;
  - `Q` flips the gear.
  The camera manager alternates between two views.
- **`config.py`**: the hardware preset table and `validate_config`'s issue list.
- **`setup_validation.py`**: the decisions of the nine environment checks, the tiers of the summary report, `main`'s result and the exit code.

Modules:

| file | module | content |
|---|---|---|
| `common.dfy` | `Common` | `Option`, keys and events, Python's `round(x, n)`, `find`/`split`/`in` |
| `recording_names.dfy` | `RecordingNames` | `int()`/`str()` on ASCII, the session file names, the folder scan |
| `recorder.dfy` | `RecordDrivingSession` | `class Recorder<F>` and the session scenarios |
| `simple_drive.dfy` | `SimpleDrive` | `class KeyboardControl`, `class CameraManager` |
| `config.dfy` | `Config` | presets and `validate_config` |
| `setup_validation.dfy` | `SetupValidation` | the checks, the report, `main` and the exit code |

Most of the external world becomes parameters or outputs:

- Camera frames are opaque values of a type parameter `F`.
- The events of a tick, the held keys and the current time are parameters.
- A save returns a `SessionFiles` value: the three names, the frames handed to the video writer, the metadata and the number of audio samples.
- The folder listing is a sequence of names. A folder that does not exist is `None`.
- The machine probes of the validator are fields of an `Environment`.

Python floats are exact `real`s. `round` is rounding half to even of the exact value. `int(text)` is Python's grammar on ASCII:
- surrounding white space;
- an optional sign;
- digits with single underscores between them.

The recorder and the validator use different thresholds:
- `validate_config` flags more than 100 NPCs.
- `check_config_settings` warns above 60.

So the shipped defaults (50 + 30) pass the first check and draw a warning from the second (`ShippedConfigWarnsOnlyNpcs`). The exit summary lists the three names of every session number from 1 to the counter. That includes sessions that wrote nothing (`EmptySessionWritesNothing`) and sessions from earlier runs.

The recorder's fields are also a value, `RecorderState`. Each step of the game loop is a function on it: `Buffered` (frames that arrived), `AfterToggle` (`R`), `AfterEvent`, `AfterEvents` (the event loop up to QUIT or ESC), `Logged` (the action record), `AfterInput` (one `_parse_input`), `AfterTick` and `AfterRun`. The matching `...Writes` functions give the sessions saved on the way. Every state-changing method of `Recorder` states its new state as one of these functions of its old state, and the lemmas about the functions state what a run of the recorder does.

## Model

| member | source | states |
|---|---|---|
| `Common.RoundedUnits` | PythonAPI/examples/simple_drive.py:145 | the integer nearest to x·10ⁿ, within one half; on a tie, the even neighbour (Python's round-half-even) |
| `Common.RoundTenthsWithin` | PythonAPI/examples/simple_drive.py:144-145 | rounding to tenths keeps a value inside a range whose ends are whole tenths, and moves it by at most 0.05 |
| `RecordingNames.ParseInt` | PythonAPI/examples/record_driving_session.py:185 | a parse succeeds only on non-empty stripped text made of digits, signs and underscores; a negative result needs a leading `-`; a plain run of digits, with or without `-`, reads as its decimal value |
| `RecordingNames.ParseIntAccepts` | PythonAPI/examples/record_driving_session.py:185 | `int` skips white space around the text, reads leading zeros (`"07"` is 7) and single underscores between digits |
| `RecordingNames.ParseIntSigned` | PythonAPI/examples/record_driving_session.py:185 | a leading `+` or `-` is the sign of the value |
| `RecordingNames.ParseIntRejects` | PythonAPI/examples/record_driving_session.py:185-188 | doubled or leading underscores, a decimal point, a letter and the empty text raise, so the name is skipped |
| `RecordingNames.ParseIntOfIntToString` | PythonAPI/examples/record_driving_session.py:185 | `int(str(n)) == n` for every integer n, negative ones included |
| `RecordingNames.IsVideoName` | PythonAPI/examples/record_driving_session.py:179 | a name the listing filter keeps is long enough to hold the prefix and `.mp4` apart: the two cannot overlap |
| `RecordingNames.NumberField` | PythonAPI/examples/record_driving_session.py:185 | a number is read only from a name that contains `recording_drive-`; otherwise `split(...)[1]` raises |
| `RecordingNames.NumberFieldBetween` | PythonAPI/examples/record_driving_session.py:185 | for a field d without `r` or `.`, the number field of `recording_drive-` + d + `.mp4` + rest is `int(d)` whatever rest is, a second prefix included: `recording_drive-3.mp4recording_drive-9.mp4` reads as 3 |
| `RecordingNames.RecordingNumber` | PythonAPI/examples/record_driving_session.py:179-188 | a number is found only for a name the filter keeps and that contains the prefix |
| `RecordingNames.RecordingNumberBetween` | PythonAPI/examples/record_driving_session.py:179-188 | `recording_drive-` + d + `.mp4` + rest is kept by the filter and numbered `int(d)`: `recording_drive-07.mp4` is 7, `recording_drive-3.mp4.mp4` is 3, `recording_drive-x.mp4` is skipped |
| `RecordingNames.RecordingNumberOfVideoName` | PythonAPI/examples/record_driving_session.py:179-185 | the name `recording_drive-N.mp4` passes the listing filter, and the split/parse reads back exactly N |
| `RecordingNames.SessionFileNamesNeverCollide` | PythonAPI/examples/record_driving_session.py:332-335 | the three names of a session differ pairwise; two sessions with different numbers share no name |
| `RecordingNames.MaxOf` | PythonAPI/examples/record_driving_session.py:191 | `max(numbers)` is an element of the list and at least every element |
| `RecordingNames.ScanRecordings` | PythonAPI/examples/record_driving_session.py:174-192 | no number (`None`) iff no listed name both passes the filter and parses; otherwise the largest number carried by any name; names that do not parse are skipped |
| `RecordingNames.ResumeAfterConsecutiveSessions` | PythonAPI/examples/record_driving_session.py:179-192 | a folder whose videos are `recording_drive-1.mp4` … `recording_drive-k.mp4`, other files allowed, resumes the counter at k |
| `RecordDrivingSession.DeriveControl` | PythonAPI/examples/record_driving_session.py:241-265 | the successive field assignments give `ControlFor(keys)`, the one rule the recorder applies and logs: W throttle 1.0; S brake 1.0 whatever the throttle; X reverse with throttle 0.8 over W, and no reverse without X; A steer −0.5; D 0.5 over A; SPACE hand brake; everything else zero |
| `RecordDrivingSession.ControlIgnoresOtherKeys` | PythonAPI/examples/record_driving_session.py:241-265 | keys other than W, S, X, A, D and SPACE never change the control |
| `RecordDrivingSession.EventsSaved` | PythonAPI/examples/record_driving_session.py:196-239 | over a queue of events, the sessions saved have strictly increasing numbers, each under its own names and with frames, and lie between the counter before and after |
| `RecordDrivingSession.RunSaved` | PythonAPI/examples/record_driving_session.py:406-410 | the same over a whole run of ticks |
| `RecordDrivingSession.RunControlsPerTick` | PythonAPI/examples/record_driving_session.py:406-409 | the controls a run applies are, in order, the controls of the ticks' held keys, none of those ticks ended the loop, and there is one per tick up to the tick that ends it, which applies none |
| `RecordDrivingSession.EventsWithoutToggle` | PythonAPI/examples/record_driving_session.py:196-239 | a queue without `R` changes at most the camera view and saves nothing |
| `RecordDrivingSession.InputLogsOnce` | PythonAPI/examples/record_driving_session.py:194-302 | a call of `_parse_input` without `R` keeps the flag, counter, start time and frames, and appends exactly one action record when recording and not ended, none otherwise |
| `RecordDrivingSession.TickBuffersFrames` | PythonAPI/examples/record_driving_session.py:406-410 | a tick without `R` appends the frames that arrived exactly when recording, saves nothing and logs at most one action |
| `RecordDrivingSession.OneSessionRun` | PythonAPI/examples/record_driving_session.py:203-300 | `R` on one tick opens session count + 1 and logs its first action; `R` on the next saves the frames that arrived in between with that one action, or nothing if none arrived; the exit path then writes nothing |
| `RecordDrivingSession.DistinctFileNames` | PythonAPI/examples/record_driving_session.py:332-335 | writes with increasing session numbers under their own names share no video, actions or audio name, and no name is used for two kinds of file |
| `RecordDrivingSession.SessionOutput` | PythonAPI/examples/record_driving_session.py:318-387 | nothing is written iff the frame buffer is empty. Otherwise: the three names carry the session number; the frames are written in buffer order; frames written = frames buffered; session id, frame and action counts come from the buffers; 20 fps; 800 silent samples per frame |
| `RecordDrivingSession.SummaryListing` | PythonAPI/examples/record_driving_session.py:304-316 | 3·N names for a counter N > 0 (none otherwise); entry 3i, 3i+1, 3i+2 are the video, actions and audio names of session i+1 |
| `RecordDrivingSession.Recorder.constructor` | PythonAPI/examples/record_driving_session.py:27-43 | not recording, empty buffers, first-person view; the counter is the largest recording number in the folder, or 0 when the folder is missing or holds none |
| `RecordDrivingSession.Recorder.CameraCallback` | PythonAPI/examples/record_driving_session.py:67-79 | a frame is appended, and `frames_captured` counts it, only while recording; otherwise nothing changes. The new state is `Buffered` of the old one with that frame |
| `RecordDrivingSession.Recorder.SaveCurrentSession` | PythonAPI/examples/record_driving_session.py:318-387 | its frame loop writes exactly what `SessionOutput` describes for the current counter, buffers and start time; it changes no field |
| `RecordDrivingSession.Recorder.ToggleRecording` | PythonAPI/examples/record_driving_session.py:203-229 | start: counter + 1, flag set, start time = now, both buffers and the frame count emptied, nothing written. Stop: flag cleared, buffers kept, the session saved. The new state is `AfterToggle` of the old one |
| `RecordDrivingSession.Recorder.ToggleCameraView` | PythonAPI/examples/record_driving_session.py:231-239 | switches between the first- and third-person views |
| `RecordDrivingSession.Recorder.LogAction` | PythonAPI/examples/record_driving_session.py:269-300 | while recording with a start time, exactly one record is appended (timestamp rounded to 3 places, the control's fields); otherwise none |
| `RecordDrivingSession.Recorder.HandleKeyDown` | PythonAPI/examples/record_driving_session.py:199-239 | `R` flips the flag; starting adds one to the counter, sets the start time and empties both buffers; stopping keeps the buffers and start time. `C` switches the view. Any key but `R` leaves the frames, actions, frame count and start time as they were. At most one session is written: exactly when `R` stops a recording that has frames, and it is `SessionOutput` of that session. The whole new state is `AfterEvent` of the old one |
| `RecordDrivingSession.Recorder.HandleEvent` | PythonAPI/examples/record_driving_session.py:196-239 | an event that does not end the loop: the new state is `AfterEvent`, the writes are `EventWrites` |
| `RecordDrivingSession.Recorder.HandleEvents` | PythonAPI/examples/record_driving_session.py:196-239 | the event loop: ended iff some event is QUIT or ESC pressed; the new state and the writes are those of the events in order up to that one (`AfterEvents`, `EventsWrites`) |
| `RecordDrivingSession.Recorder.ParseInput` | PythonAPI/examples/record_driving_session.py:194-302 | returns False iff some event is QUIT or ESC pressed; otherwise the control is applied and, when recording, logged last. The sessions written on the way have strictly increasing numbers, never the one still open, and all lie between the counter before and after. The new state is `AfterInput` of the old state, the events, the keys and the time. Without `R`: flag, counter and frames kept, nothing written, and the actions grow by exactly one record iff recording and not ended |
| `RecordDrivingSession.Recorder.Tick` | PythonAPI/examples/record_driving_session.py:406-410 | one loop pass: the delivered frames, then the input; the same guarantees as `ParseInput`, with the control `ControlFor(keys)` applied iff the tick does not end the loop. The new state is `AfterTick`; without `R` the frames become the old frames plus, when recording, the ones that arrived |
| `RecordDrivingSession.Recorder.DriveTicks` | PythonAPI/examples/record_driving_session.py:406-410 | the `while` loop over the ticks, up to the one whose input ends it: the new state is `AfterRun`, the writes `RunWrites`, saved within the counter as above; the controls applied are `RunControls(ticks)`, one per tick that does not end the loop |
| `RecordDrivingSession.Recorder.FinalSummary` | PythonAPI/examples/record_driving_session.py:304-316 | lists exactly `SummaryListing` of the counter |
| `RecordDrivingSession.Recorder.Finish` | PythonAPI/examples/record_driving_session.py:411-416 | the open session is saved on exit iff the flag is still set and frames are buffered; the summary follows |
| `RecordDrivingSession.Recorder.GameLoop` | PythonAPI/examples/record_driving_session.py:389-417 | over a whole run: each write has frames and its own session's names; session numbers strictly increase; no two files written share a name; the summary lists the final counter. The new state is `AfterRun`; the writes are `RunWrites` followed by the exit save `ExitWrites`; the controls applied are `RunControls(ticks)` |
| `RecordDrivingSession.FirstNewSession` | PythonAPI/examples/record_driving_session.py:174-210 | with `recording_drive-1..k.mp4` in the folder, the first session recorded is number k + 1 |
| `RecordDrivingSession.StoppedSessionSavedOnce` | PythonAPI/examples/record_driving_session.py:203-415 | start, one frame, stop, exit: the stop writes session 1 with that frame; the exit writes nothing more |
| `RecordDrivingSession.EmptySessionWritesNothing` | PythonAPI/examples/record_driving_session.py:304-322 | a session with no frames writes nothing on stop or on exit, but its names still appear in the exit summary |
| `SimpleDrive.Ramp` | PythonAPI/examples/simple_drive.py:118-127 | a released pedal is 0; a held pedal never exceeds 1.0 and grows strictly until it reaches 1.0 |
| `SimpleDrive.RampFromRestValue` | PythonAPI/examples/simple_drive.py:118-127 | a pedal held for n ticks from rest is min(n·step, 1.0) |
| `SimpleDrive.FullPedalTicks` | PythonAPI/examples/simple_drive.py:118-127 | in exact arithmetic, full throttle is reached on tick 10 and not before; full brake on tick 5 |
| `SimpleDrive.NextSteerCache` | PythonAPI/examples/simple_drive.py:130-142 | left with the cache > 0 resets it to 0, otherwise subtracts the increment; right mirrors this; left wins when both are held; neither centres the wheel. Left never moves the cache right of itself or of 0, and right mirrors that |
| `SimpleDrive.ClampSteer` | PythonAPI/examples/simple_drive.py:144 | the result lies in [−0.7, 0.7]; values inside are unchanged |
| `SimpleDrive.SteerOutputBounds` | PythonAPI/examples/simple_drive.py:144-145 | the steer sent is a whole number of tenths in [−0.7, 0.7], within 0.05 of the cache |
| `SimpleDrive.SteerHeldLeftValue` | PythonAPI/examples/simple_drive.py:130-144 | holding left for n ticks from the centre gives −min(n·increment, 0.7) |
| `SimpleDrive.NextGear` | PythonAPI/examples/simple_drive.py:149-151 | without Q the gear stays; Q gives gear 1 when in reverse and −1 otherwise |
| `SimpleDrive.KeysParsedInRange` | PythonAPI/examples/simple_drive.py:116-151 | a tick of key parsing keeps pedals in [0, 1], cache and steer in [−0.7, 0.7], and reverse == (gear < 0) |
| `SimpleDrive.ReleasedKeysRest` | PythonAPI/examples/simple_drive.py:116-151 | with no key held, throttle, brake, cache, steer and hand brake return to rest; the gear stays |
| `SimpleDrive.CameraManager.constructor` | PythonAPI/examples/simple_drive.py:27-33 | starts at view 0, the third-person view |
| `SimpleDrive.CameraManager.ToggleCamera` | PythonAPI/examples/simple_drive.py:52-54 | the index becomes (i + 1) mod 2 |
| `SimpleDrive.ToggleAlternates` | PythonAPI/examples/simple_drive.py:54 | a switch always changes the view, and two switches restore it |
| `SimpleDrive.KeyboardControl.constructor` | PythonAPI/examples/simple_drive.py:95-97 | an all-zero control in gear 0, with the cache centred |
| `SimpleDrive.KeyboardControl.ParseVehicleKeys` | PythonAPI/examples/simple_drive.py:116-151 | the new control and cache are exactly the ramp, steering, clamp, rounding, hand-brake and gear rules above; the range invariant is kept |
| `SimpleDrive.KeyboardControl.ParseEvents` | PythonAPI/examples/simple_drive.py:100-114 | quit iff some event is QUIT or ESC released. The camera moves once per TAB released before that event. A quitting tick leaves the control untouched; any other tick parses the keys and applies the control |
| `Config.PresetTable` | PythonAPI/examples/config.py:170-197 | a preset has exactly the six keys, with the given values |
| `Config.HardwarePreset` | PythonAPI/examples/config.py:167-199 | `high_end`, `gtx_1650` and `low_end` give their fixed tables, all with the same six keys; any other name gives the empty mapping |
| `Config.ValidateConfig` | PythonAPI/examples/config.py:205-221 | each issue appears iff its threshold is strictly exceeded (W·H > 1920·1080, NPCs > 100, FPS > 30); each at most once, in that order; the length is the number exceeded; empty iff none |
| `Config.ApplyPreset` | PythonAPI/examples/config.py:167-221 | hypothetical: nothing in the script applies a preset. A preset's settings stay within the resolution and frame-rate limits of `validate_config`; only `high_end` exceeds the NPC limit; window and frame rate are positive |
| `Config.DefaultsAreClean` | PythonAPI/examples/config.py:23-43 | the shipped 1280×720, 50 + 30 NPCs, 20 FPS give no issue |
| `Config.HighEndFlagsOnlyNpcs` | PythonAPI/examples/config.py:170-221 | `high_end` sits exactly at 1920×1080 and 30 FPS and is flagged only for its 80 + 50 NPCs |
| `Config.SmallPresetsAreClean` | PythonAPI/examples/config.py:180-221 | `gtx_1650` and `low_end` give no issue |
| `SetupValidation.PythonVersionVerdict` | PythonAPI/examples/setup_validation.py:51-68 | success iff 3.12; passing iff major 3 and minor ≥ 10, so 2.x and 3.0–3.9 fail |
| `SetupValidation.VirtualEnvironmentVerdict` | PythonAPI/examples/setup_validation.py:70-89 | passes iff `real_prefix` exists, or `base_prefix` exists and differs from `prefix`. Without a warning iff, in addition, the prefix contains `carla_env` |
| `SetupValidation.CarlaEnvRecommended` | PythonAPI/examples/setup_validation.py:74-85 | a virtual environment whose path has `carla_env` in it gets the success verdict |
| `SetupValidation.CheckRequiredPackages` | PythonAPI/examples/setup_validation.py:91-127 | true iff all five packages import; the missing ones are reported in order |
| `SetupValidation.CarlaConnects` | PythonAPI/examples/setup_validation.py:129-160 | a missing `carla` package (ImportError) fails the check, a client that raises fails it, and it passes when both succeed |
| `SetupValidation.MinimalTestPasses` | PythonAPI/examples/setup_validation.py:296-330 | a failed import of `carla`, `pygame` or `numpy`, a client that raises, or no spawn point fails the test; it passes otherwise |
| `SetupValidation.SlowServerPassesOnlyMinimalTest` | PythonAPI/examples/setup_validation.py:137-149 | the two server probes are separate: one that answers within the minimal test's 10 s but not within the connection check's 5 s fails the connection check and passes the minimal test |
| `SetupValidation.AgreeingProbesConnectFirst` | PythonAPI/examples/setup_validation.py:309-318 | only when both probes get the same answer does a passing minimal test imply a passing connection check |
| `SetupValidation.CheckFileStructure` | PythonAPI/examples/setup_validation.py:162-197 | true iff all five files exist; missing directories are reported but never affect the result |
| `SetupValidation.DiskSpaceVerdict` | PythonAPI/examples/setup_validation.py:233-256 | success iff more than 50 GB free; fail iff 10 GB or less; warning (still passing) in between or when the probe raises |
| `SetupValidation.DiskSpaceMonotonic` | PythonAPI/examples/setup_validation.py:244-253 | more free space never gives a worse verdict |
| `SetupValidation.ReadSettings` | PythonAPI/examples/setup_validation.py:266-270 | a `config` module without the attributes reads as the shipped defaults |
| `SetupValidation.CheckConfigSettings` | PythonAPI/examples/setup_validation.py:258-294 | passes iff `config` imports. Warnings iff W·H > 1280·720, NPCs > 60 and FPS > 25, with absent attributes taken as 1280/720/20/50/30 |
| `SetupValidation.ShippedConfigWarnsOnlyNpcs` | PythonAPI/examples/setup_validation.py:266-287 | the shipped settings, and a module with none of them, pass with exactly the NPC warning; `validate_config` does not flag the same NPC count |
| `SetupValidation.CountPassed` | PythonAPI/examples/setup_validation.py:336 | at most the number of results; equal to it iff every result is true |
| `SetupValidation.CountPassedIsMultiplicity` | PythonAPI/examples/setup_validation.py:336-337 | `sum` of the booleans is the number of `True` results; total minus it is the number of `False` ones |
| `SetupValidation.ReportTierOf` | PythonAPI/examples/setup_validation.py:345-352 | all passed iff no result is false; most passed iff one or two failed; several issues iff more than two failed |
| `SetupValidation.RunChecks` | PythonAPI/examples/setup_validation.py:360-370 | each of the nine results, in order, in terms of the machine's state |
| `SetupValidation.Validate` | PythonAPI/examples/setup_validation.py:354-375 | the nine results as above; `main` is true iff every check passed, iff the report is in the all-passed tier |
| `SetupValidation.ExitCode` | PythonAPI/examples/setup_validation.py:377-386 | exit 0 iff `main` returned True; 1 on False, on an exception and on an interrupt |
| `SetupValidation.RunValidation` | PythonAPI/examples/setup_validation.py:377-380 | the process exits with 0 exactly when all nine conditions on the machine hold |

## Left out

- The simulator is not modelled: `carla.Client`, spawning the player vehicle and NPCs, sensor set-up, `set_transform`, `_cleanup` and `World.restart`. These are foreign calls. `CameraManager.toggle_camera` keeps only its index update; the sensor destroy and respawn are left out.
- pygame is left out: the display, surfaces, `flip`, `_parse_image` and the clock's `tick_busy_loop(20)` pacing. Events and held keys are inputs. Frames arrive as an input sequence before each tick's input.
- The numpy BGRA-to-BGR slicing is left out; frames are opaque values.
- File writing is left out: the cv2 `VideoWriter`, `wave`, `json.dump`, `os.makedirs` and `os.listdir`. A save returns what it would write rather than writing it.
- Recorder.ToggleRecording: its `except` clause is left out (it clears the flag after a failed save). Writes never fail in the model, because the writers are not modelled.
- Clocks are parameters, read once per tick. A session started during a tick logs that tick's action at timestamp 0. The source reads `time.time()` twice, so its timestamp there is a few microseconds.
- The `absolute_time` text is left out. The metadata's start-time text (`strftime`) is the raw start time, or `None` when the start time is falsy.
- Console output is left out: progress lines, the action-noise filter (lines 286-295 only print; every action is logged) and the ANSI colour helpers.
- FullPedalTicks: stated in exact arithmetic. CARLA stores the control fields as 32-bit floats, and the stored throttle reaches exactly 1.0 on tick 10, as in the exact model; the intermediate values are the 32-bit roundings (0.10000000149011612 after one tick), not the tenths.
- RecordDrivingSession.DeriveControl: throttle 0.8 under `X` is the exact 0.8. CARLA stores it as a 32-bit float, so the recorder logs 0.800000011920929 (record_driving_session.py:253, 279); `ActionOf` records 0.8. The other values (0, ±0.5, 1.0) are exact in 32 bits.
- RecordDrivingSession.Recorder.CameraCallback: the simulator calls `_camera_callback` on its sensor thread (record_driving_session.py:64, 67-79); the model runs it only between ticks, in order. This misses two interleavings. A frame that arrives on start between the buffer clear and the reset of the frame count (lines 213-215) leaves `frames_captured == 0` beside a buffer of one frame, so `Valid`'s `framesCaptured == |frames|` can fail in the source. On the exit save (lines 413-415) the flag is still set, so frames can be appended while the write loop runs; the frames written, the `total_frames` metadata and the audio length can then disagree, where `SessionOutput` states them equal.
- SessionOutput: stated in exact arithmetic, audioSamples = 800·frames. `int(n / 20.0 * 16000)` in doubles falls one short of 800·n for some n; n = 323 is one.
- Common.RoundedUnits: rounding is stated on the exact real value of the argument, not on its binary double.
- RecordingNames.ParseInt: Python's `int()` also accepts non-ASCII digits and white space; the model is ASCII only.
- SetupValidation.CheckRequiredPackages: an import that raises something other than `ImportError` escapes the check and ends the script. The model has only "installed" and "not installed".
- `check_carla_connection`, `check_output_folder` and `run_minimal_test` talk to the simulator and the file system. `check_carla_connection` is the `carla` import and a "server answers within 5 s" input (line 138). `run_minimal_test` is the three imports, its own "server answers within 10 s" input (line 310) and a spawn-point count. The two probes run at different times with different timeouts, so the two server inputs are independent and can disagree; which calls the server answers (`get_map`, `get_actors`, `get_blueprint_library`, `get_spawn_points`) is not separated further; its blueprint lookup (line 315) is taken to succeed. `check_output_folder` is a single "usable" input, and its folder name lookup is left out.
- SetupValidation.CheckConfigSettings: attributes are integers, so its generic `except Exception` (a non-numeric attribute) is not modelled.
- Behaviour the code does not have, and the model does not add:
  - an idempotent end-of-session (only the `recording` flag prevents a second save, and calling the save twice would rewrite the files);
  - the hand brake overriding the pedals;
  - a reverse toggle in the recorder (`X` is held there; the toggle exists only in `simple_drive.py` as `Q`);
  - a 50 ms action timer (one record per loop tick);
  - logging when no key is held (a record is appended every tick while recording, whatever the keys);
  - atomic temporary-file writes, and keeping the buffers for a retry after a failed write.
