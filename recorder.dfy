/**
 * The recording session of `CarlaRecorder`: the `recording` flag, the
 * sequential session counter, the frame and action buffers, the `R` toggle,
 * the camera callback, the per-tick control and action record, the save
 * step and the save guard on exit.
 *
 * The simulator, pygame, the clock and the file writers are at the edges:
 * a camera frame is an opaque value of type `F`, the events and held keys of
 * a tick and the current time are parameters, the control handed to
 * `apply_control` is returned, and what the writers would put on disk is
 * returned as a `SessionFiles` value.
 */
module RecordDrivingSession {
  import opened Common
  import opened RecordingNames

  const FrameRate: nat := 20
  const AudioSampleRate: nat := 16000

  datatype CameraView = FirstPerson | ThirdPerson

  function OtherView(v: CameraView): CameraView {
    if v == FirstPerson then ThirdPerson else FirstPerson
  }

  /** The fields of `carla.VehicleControl` the recorder sets. */
  datatype Control = Control(throttle: real, steer: real, brake: real, handBrake: bool, reverse: bool)

  /** The keys the per-tick control looks at. */
  const ControlKeys: set<Key> := {KeyW, KeyS, KeyX, KeyA, KeyD, KeySpace}

  /**
   * The control of a tick for the held keys: `W` throttle 1.0, `S` brake 1.0
   * whatever the throttle, `X` reverse with throttle 0.8 over `W` (and no
   * reverse without it), `A` steer -0.5, `D` steer 0.5 over `A`, `SPACE`
   * hand brake, everything else zero.
   */
  function ControlFor(keys: set<Key>): Control {
    Control(if KeyX in keys then 0.8 else if KeyW in keys then 1.0 else 0.0,
            if KeyD in keys then 0.5 else if KeyA in keys then -0.5 else 0.0,
            if KeyS in keys then 1.0 else 0.0,
            KeySpace in keys, KeyX in keys)
  }

  /** Keys outside `ControlKeys` never change the control. */
  lemma ControlIgnoresOtherKeys(keys: set<Key>)
    ensures ControlFor(keys) == ControlFor(keys * ControlKeys)
  {
    assert (KeyW in keys) == (KeyW in keys * ControlKeys);
    assert (KeyS in keys) == (KeyS in keys * ControlKeys);
    assert (KeyX in keys) == (KeyX in keys * ControlKeys);
    assert (KeyA in keys) == (KeyA in keys * ControlKeys);
    assert (KeyD in keys) == (KeyD in keys * ControlKeys);
    assert (KeySpace in keys) == (KeySpace in keys * ControlKeys);
  }

  /** The control struct built by successive field assignments on a zero control, as `_parse_input` builds it. */
  method DeriveControl(keys: set<Key>) returns (c: Control)
    ensures c == ControlFor(keys)
  {
    c := Control(0.0, 0.0, 0.0, false, false);
    if KeyW in keys {
      c := c.(throttle := 1.0);
    }
    if KeyS in keys {
      c := c.(brake := 1.0);
    }
    if KeyX in keys {
      c := c.(reverse := true);
      c := c.(throttle := 0.8);
    } else {
      c := c.(reverse := false);
    }
    if KeyA in keys {
      c := c.(steer := -0.5);
    }
    if KeyD in keys {
      c := c.(steer := 0.5);
    }
    if KeySpace in keys {
      c := c.(handBrake := true);
    }
  }

  /** One entry of `player_actions` (the human-readable `absolute_time` is left out). */
  datatype ActionRecord = ActionRecord(timestamp: real, steer: real, throttle: real, brake: real, reverse: bool, handBrake: bool)

  /** The record of control `c` at time `now`: seconds since `start` rounded to 3 places. */
  function ActionOf(c: Control, now: real, start: real): ActionRecord {
    ActionRecord(RoundHalfEven(now - start, 1000), c.steer, c.throttle, c.brake, c.reverse, c.handBrake)
  }

  /** The JSON document of a session, without its `actions` array's formatting. */
  datatype Metadata = Metadata(
    sessionId: int,
    totalDuration: real,
    frameRate: nat,
    totalFrames: nat,
    totalActions: nat,
    recordingStartTime: Option<real>,
    actions: seq<ActionRecord>)

  /** What one save writes: three file names, the frames given to the video writer, the metadata and the silent audio length. */
  datatype SessionFiles<F> = SessionFiles(
    videoName: string,
    actionsName: string,
    audioName: string,
    video: seq<F>,
    framesWritten: nat,
    metadata: Metadata,
    audioSamples: nat)

  /**
   * What `_save_current_session` writes for session `count`: nothing at all
   * for an empty frame buffer; otherwise the three numbered files, the
   * frames in buffer order, counts of frames and actions, 20 frames per
   * second, and 16000 samples per second of video (800 per frame).
   */
  function SessionOutput<F>(count: int, frames: seq<F>, actions: seq<ActionRecord>, start: Option<real>): (out: Option<SessionFiles<F>>)
    ensures out.None? <==> frames == []
    ensures out.Some? ==>
      && out.value.videoName == VideoName(count)
      && out.value.actionsName == ActionsName(count)
      && out.value.audioName == AudioName(count)
      && out.value.video == frames
      && out.value.framesWritten == |frames|
      && out.value.metadata.sessionId == count
      && out.value.metadata.totalFrames == |frames|
      && out.value.metadata.totalActions == |actions|
      && out.value.metadata.frameRate == 20
      && out.value.metadata.actions == actions
      && out.value.audioSamples == 800 * |frames|
  {
    if frames == [] then None
    else
      var duration := |frames| as real / FrameRate as real;
      assert duration * AudioSampleRate as real == (800 * |frames|) as real;
      Some(SessionFiles(
        VideoName(count), ActionsName(count), AudioName(count),
        frames, |frames|,
        Metadata(count, duration, FrameRate, |frames|, |actions|,
                 if start.Some? && start.value != 0.0 then start else None, actions),
        800 * |frames|))
  }

  /** The names `_final_summary` lists: the three files of every session 1..count. */
  function SummaryListing(count: int): (names: seq<string>)
    decreases count
    ensures |names| == if count > 0 then 3 * count else 0
    ensures forall i :: 0 <= i < count ==>
      names[3 * i] == VideoName(i + 1) && names[3 * i + 1] == ActionsName(i + 1) && names[3 * i + 2] == AudioName(i + 1)
  {
    if count <= 0 then []
    else SummaryListing(count - 1) + [VideoName(count), ActionsName(count), AudioName(count)]
  }

  /** Session ids of successive writes grow strictly. */
  predicate IdsIncreasing<F>(written: seq<SessionFiles<F>>) {
    forall i, j :: 0 <= i < j < |written| ==> written[i].metadata.sessionId < written[j].metadata.sessionId
  }

  /**
   * The writes made while the counter went from `count0` to `count` (and the
   * flag from `recording0` to `recording`): strictly increasing session ids,
   * none below the session then open, none above the counter, and none for
   * the session still being recorded.
   */
  predicate SavedWithin<F>(count0: int, recording0: bool, written: seq<SessionFiles<F>>, count: int, recording: bool) {
    && count >= count0
    && (count == count0 && recording ==> recording0)
    && IdsIncreasing(written)
    && (forall i :: 0 <= i < |written| ==>
          (if recording0 then count0 else count0 + 1) <= written[i].metadata.sessionId <= count)
    && (recording ==> forall i :: 0 <= i < |written| ==> written[i].metadata.sessionId < count)
  }

  /** No two files of a run share a name. */
  predicate DistinctFiles<F>(written: seq<SessionFiles<F>>) {
    && (forall i, j :: 0 <= i < j < |written| ==>
          && written[i].videoName != written[j].videoName
          && written[i].actionsName != written[j].actionsName
          && written[i].audioName != written[j].audioName)
    && (forall i, j :: 0 <= i < |written| && 0 <= j < |written| ==>
          && written[i].videoName != written[j].actionsName
          && written[i].videoName != written[j].audioName
          && written[i].actionsName != written[j].audioName)
  }

  /** Writes with increasing session ids under their own names never reuse a file name. */
  lemma DistinctFileNames<F>(written: seq<SessionFiles<F>>)
    requires IdsIncreasing(written)
    requires forall i :: 0 <= i < |written| ==> NonEmptyNamedWrite(written[i])
    ensures DistinctFiles(written)
  {
    forall i, j | 0 <= i < |written| && 0 <= j < |written|
      ensures i < j ==> && written[i].videoName != written[j].videoName
                        && written[i].actionsName != written[j].actionsName
                        && written[i].audioName != written[j].audioName
      ensures && written[i].videoName != written[j].actionsName
              && written[i].videoName != written[j].audioName
              && written[i].actionsName != written[j].audioName
    {
      SessionFileNamesNeverCollide(written[i].metadata.sessionId, written[j].metadata.sessionId);
    }
  }

  /** Two stretches of a run, one after the other, make one stretch. */
  lemma SavedWithinTrans<F>(c0: int, r0: bool, w0: seq<SessionFiles<F>>, c1: int, r1: bool,
                            w1: seq<SessionFiles<F>>, c2: int, r2: bool)
    requires SavedWithin(c0, r0, w0, c1, r1) && SavedWithin(c1, r1, w1, c2, r2)
    ensures SavedWithin(c0, r0, w0 + w1, c2, r2)
  {
    var w := w0 + w1;
    forall i, j | 0 <= i < j < |w| ensures w[i].metadata.sessionId < w[j].metadata.sessionId {
      if j >= |w0| && i < |w0| {
        assert w[j] == w1[j - |w0|];
        assert w[i] == w0[i];
      }
    }
    forall i | 0 <= i < |w|
      ensures (if r0 then c0 else c0 + 1) <= w[i].metadata.sessionId <= c2
      ensures r2 ==> w[i].metadata.sessionId < c2
    {
      if i < |w0| {
        assert w[i] == w0[i];
      } else {
        assert w[i] == w1[i - |w0|];
      }
    }
  }

  /** A write that put frames on disk, under the three names of its own session number. */
  predicate NonEmptyNamedWrite<F>(w: SessionFiles<F>) {
    && w.framesWritten > 0
    && w.videoName == VideoName(w.metadata.sessionId)
    && w.actionsName == ActionsName(w.metadata.sessionId)
    && w.audioName == AudioName(w.metadata.sessionId)
  }

  /** An event that makes `_parse_input` return False. */
  predicate EndsRecorder(e: Event) {
    e == Quit || e == KeyDown(KeyEscape)
  }

  /** What reaches the recorder between two loop ticks and during one. */
  datatype TickInput<F> = TickInput(arrived: seq<F>, events: seq<Event>, keys: set<Key>, now: real)

  // ---------------------------------------------------------------------
  // The recorder's fields as a value, and what each step does to them
  // ---------------------------------------------------------------------

  /** The fields of `CarlaRecorder` that the loop changes. */
  datatype RecorderState<F> = RecorderState(
    recording: bool,
    count: int,
    captured: nat,
    start: Option<real>,
    view: CameraView,
    frames: seq<F>,
    actions: seq<ActionRecord>)

  /** `frames_captured` counts the frames buffered since the last start; a recording has a start time. */
  predicate ValidState<F>(s: RecorderState<F>) {
    s.captured == |s.frames| && (s.recording ==> s.start.Some?)
  }

  /** Frames delivered by the camera: buffered and counted only while recording. */
  function Buffered<F>(s: RecorderState<F>, arrived: seq<F>): RecorderState<F> {
    if s.recording then s.(frames := s.frames + arrived, captured := s.captured + |arrived|) else s
  }

  /**
   * The `R` key: a start opens session `count + 1` with empty buffers and
   * the start time `now`; a stop clears the flag and keeps everything else.
   */
  function AfterToggle<F>(s: RecorderState<F>, now: real): RecorderState<F> {
    if s.recording then s.(recording := false)
    else s.(recording := true, count := s.count + 1, start := Some(now), frames := [], actions := [], captured := 0)
  }

  /** What the `R` key writes: on a stop, the open session unless it has no frames; on a start, nothing. */
  function ToggleWrites<F>(s: RecorderState<F>): seq<SessionFiles<F>> {
    if s.recording && s.frames != [] then [SessionOutput(s.count, s.frames, s.actions, s.start).value] else []
  }

  /** One event of the loop in `_parse_input` that does not end it. */
  function AfterEvent<F>(s: RecorderState<F>, e: Event, now: real): RecorderState<F> {
    if e == KeyDown(KeyR) then AfterToggle(s, now)
    else if e == KeyDown(KeyC) then s.(view := OtherView(s.view))
    else s
  }

  function EventWrites<F>(s: RecorderState<F>, e: Event): seq<SessionFiles<F>> {
    if e == KeyDown(KeyR) then ToggleWrites(s) else []
  }

  /** Some event of the queue makes `_parse_input` return False. */
  predicate EndsInput(events: seq<Event>) {
    exists i :: 0 <= i < |events| && EndsRecorder(events[i])
  }

  /** The events in order, up to the first one that ends the loop. */
  function AfterEvents<F>(s: RecorderState<F>, events: seq<Event>, now: real): RecorderState<F>
    decreases |events|
  {
    if events == [] || EndsRecorder(events[0]) then s
    else AfterEvents(AfterEvent(s, events[0], now), events[1..], now)
  }

  /** The sessions saved by those events, in order. */
  function EventsWrites<F>(s: RecorderState<F>, events: seq<Event>, now: real): seq<SessionFiles<F>>
    decreases |events|
  {
    if events == [] || EndsRecorder(events[0]) then []
    else EventWrites(s, events[0]) + EventsWrites(AfterEvent(s, events[0], now), events[1..], now)
  }

  /** One event of the queue that does not end the loop, taken off the front. */
  lemma EventsStep<F>(s: RecorderState<F>, events: seq<Event>, i: nat, now: real)
    requires i < |events| && !EndsRecorder(events[i])
    ensures AfterEvents(s, events[i..], now) == AfterEvents(AfterEvent(s, events[i], now), events[i + 1..], now)
    ensures EventsWrites(s, events[i..], now) == EventWrites(s, events[i]) + EventsWrites(AfterEvent(s, events[i], now), events[i + 1..], now)
  {
    assert events[i..][0] == events[i] && events[i..][1..] == events[i + 1..];
  }

  /** No event so far ended the loop, nor does the next one. */
  lemma NotEndedStep(events: seq<Event>, i: nat)
    requires i < |events| && !EndsInput(events[..i]) && !EndsRecorder(events[i])
    ensures !EndsInput(events[..i + 1])
  {
    var before, after := events[..i], events[..i + 1];
    forall j | 0 <= j < |after|
      ensures !EndsRecorder(after[j])
    {
      if j < i {
        assert after[j] == before[j];
      }
    }
  }

  /** The event that ends the loop leaves the rest of the queue unhandled. */
  lemma EventsStop<F>(s: RecorderState<F>, events: seq<Event>, i: nat, now: real)
    requires i < |events| && EndsRecorder(events[i])
    ensures AfterEvents(s, events[i..], now) == s && EventsWrites(s, events[i..], now) == []
    ensures EndsInput(events)
  {
    assert events[i..][0] == events[i];
  }

  /** The action log of a tick: one record while recording with a start time, none otherwise. */
  function Logged<F>(s: RecorderState<F>, c: Control, now: real): RecorderState<F> {
    if s.recording && s.start.Some? then s.(actions := s.actions + [ActionOf(c, now, s.start.value)]) else s
  }

  /** A whole call of `_parse_input`: the events, then, unless one ended the loop, the tick's control logged. */
  function AfterInput<F>(s: RecorderState<F>, events: seq<Event>, keys: set<Key>, now: real): RecorderState<F> {
    var handled := AfterEvents(s, events, now);
    if EndsInput(events) then handled else Logged(handled, ControlFor(keys), now)
  }

  /** One pass of the game loop: the frames that arrived, then `_parse_input`. */
  function AfterTick<F>(s: RecorderState<F>, tick: TickInput<F>): RecorderState<F> {
    AfterInput(Buffered(s, tick.arrived), tick.events, tick.keys, tick.now)
  }

  function TickWrites<F>(s: RecorderState<F>, tick: TickInput<F>): seq<SessionFiles<F>> {
    EventsWrites(Buffered(s, tick.arrived), tick.events, tick.now)
  }

  /** The loop of `game_loop`: ticks in order, up to the one whose input ends it. */
  function AfterRun<F>(s: RecorderState<F>, ticks: seq<TickInput<F>>): RecorderState<F>
    decreases |ticks|
  {
    if ticks == [] then s
    else if EndsInput(ticks[0].events) then AfterTick(s, ticks[0])
    else AfterRun(AfterTick(s, ticks[0]), ticks[1..])
  }

  function RunWrites<F>(s: RecorderState<F>, ticks: seq<TickInput<F>>): seq<SessionFiles<F>>
    decreases |ticks|
  {
    if ticks == [] then []
    else TickWrites(s, ticks[0]) + (if EndsInput(ticks[0].events) then [] else RunWrites(AfterTick(s, ticks[0]), ticks[1..]))
  }

  /** The controls `game_loop` applies: one per tick, up to the tick whose input ends the loop, which applies none. */
  function RunControls<F>(ticks: seq<TickInput<F>>): seq<Control>
    decreases |ticks|
  {
    if ticks == [] || EndsInput(ticks[0].events) then []
    else [ControlFor(ticks[0].keys)] + RunControls(ticks[1..])
  }

  /**
   * The k-th control applied is the control of the k-th tick's held keys,
   * none of those ticks ended the loop, and fewer controls than ticks means
   * the next tick ended it.
   */
  lemma {:induction false} RunControlsPerTick<F>(ticks: seq<TickInput<F>>)
    decreases |ticks|
    ensures |RunControls(ticks)| <= |ticks|
    ensures forall k :: 0 <= k < |RunControls(ticks)| ==>
      RunControls(ticks)[k] == ControlFor(ticks[k].keys) && !EndsInput(ticks[k].events)
    ensures |RunControls(ticks)| < |ticks| ==> EndsInput(ticks[|RunControls(ticks)|].events)
  {
    if ticks != [] && !EndsInput(ticks[0].events) {
      RunControlsPerTick(ticks[1..]);
      var rest := RunControls(ticks[1..]);
      assert RunControls(ticks) == [ControlFor(ticks[0].keys)] + rest;
      forall k | 1 <= k < |RunControls(ticks)|
        ensures RunControls(ticks)[k] == ControlFor(ticks[k].keys) && !EndsInput(ticks[k].events)
      {
        assert RunControls(ticks)[k] == rest[k - 1] && ticks[1..][k - 1] == ticks[k];
      }
      if |rest| < |ticks[1..]| {
        assert ticks[1..][|rest|] == ticks[|rest| + 1];
      }
    }
  }

  /** One tick's control, taken off the front of the run. */
  lemma RunControlsStep<F>(ticks: seq<TickInput<F>>, t: nat)
    requires t < |ticks|
    ensures EndsInput(ticks[t].events) ==> RunControls(ticks[t..]) == []
    ensures !EndsInput(ticks[t].events) ==> RunControls(ticks[t..]) == [ControlFor(ticks[t].keys)] + RunControls(ticks[t + 1..])
  {
    assert ticks[t..][0] == ticks[t] && ticks[t..][1..] == ticks[t + 1..];
  }

  /** One tick of the run, taken off the front. */
  lemma RunStep<F>(s: RecorderState<F>, ticks: seq<TickInput<F>>, t: nat)
    requires t < |ticks|
    ensures EndsInput(ticks[t].events) ==>
      AfterRun(s, ticks[t..]) == AfterTick(s, ticks[t]) && RunWrites(s, ticks[t..]) == TickWrites(s, ticks[t])
    ensures !EndsInput(ticks[t].events) ==>
      && AfterRun(s, ticks[t..]) == AfterRun(AfterTick(s, ticks[t]), ticks[t + 1..])
      && RunWrites(s, ticks[t..]) == TickWrites(s, ticks[t]) + RunWrites(AfterTick(s, ticks[t]), ticks[t + 1..])
  {
    assert ticks[t..][0] == ticks[t] && ticks[t..][1..] == ticks[t + 1..];
  }

  /** The run so far, one tick further, when that tick does not end the loop: what `DriveTicks` keeps across it. */
  lemma RunContinues<F>(s0: RecorderState<F>, ticks: seq<TickInput<F>>, t: nat, s: RecorderState<F>,
                        written: seq<SessionFiles<F>>)
    requires t < |ticks| && !EndsInput(ticks[t].events)
    requires AfterRun(s, ticks[t..]) == AfterRun(s0, ticks)
    requires written + RunWrites(s, ticks[t..]) == RunWrites(s0, ticks)
    ensures AfterRun(AfterTick(s, ticks[t]), ticks[t + 1..]) == AfterRun(s0, ticks)
    ensures written + TickWrites(s, ticks[t]) + RunWrites(AfterTick(s, ticks[t]), ticks[t + 1..]) == RunWrites(s0, ticks)
  {
    RunStep(s, ticks, t);
    var tw := TickWrites(s, ticks[t]);
    var rw := RunWrites(AfterTick(s, ticks[t]), ticks[t + 1..]);
    assert written + tw + rw == written + (tw + rw);
  }

  /** The tick that ends the loop completes the run. */
  lemma RunEnds<F>(s0: RecorderState<F>, ticks: seq<TickInput<F>>, t: nat, s: RecorderState<F>,
                   written: seq<SessionFiles<F>>)
    requires t < |ticks| && EndsInput(ticks[t].events)
    requires AfterRun(s, ticks[t..]) == AfterRun(s0, ticks)
    requires written + RunWrites(s, ticks[t..]) == RunWrites(s0, ticks)
    ensures AfterTick(s, ticks[t]) == AfterRun(s0, ticks) && written + TickWrites(s, ticks[t]) == RunWrites(s0, ticks)
  {
    RunStep(s, ticks, t);
  }

  /** What one event writes is saved within the counter and flag it leaves. */
  lemma EventSaved<F>(s: RecorderState<F>, e: Event, now: real)
    ensures SavedWithin(s.count, s.recording, EventWrites(s, e), AfterEvent(s, e, now).count, AfterEvent(s, e, now).recording)
    ensures forall i :: 0 <= i < |EventWrites(s, e)| ==> NonEmptyNamedWrite(EventWrites(s, e)[i])
  {
  }

  /** The writes of a queue of events increase in session id, each written under its own number. */
  lemma {:induction false} EventsSaved<F>(s: RecorderState<F>, events: seq<Event>, now: real)
    decreases |events|
    ensures SavedWithin(s.count, s.recording, EventsWrites(s, events, now),
                        AfterEvents(s, events, now).count, AfterEvents(s, events, now).recording)
    ensures forall i :: 0 <= i < |EventsWrites(s, events, now)| ==> NonEmptyNamedWrite(EventsWrites(s, events, now)[i])
  {
    if events != [] && !EndsRecorder(events[0]) {
      var next := AfterEvent(s, events[0], now);
      EventSaved(s, events[0], now);
      EventsSaved(next, events[1..], now);
      var last := AfterEvents(next, events[1..], now);
      SavedWithinTrans(s.count, s.recording, EventWrites(s, events[0]), next.count, next.recording,
                       EventsWrites(next, events[1..], now), last.count, last.recording);
      NamedWritesAppend(EventWrites(s, events[0]), EventsWrites(next, events[1..], now));
    }
  }

  /** Every write of a whole run is saved within the counter and flag the run leaves. */
  lemma {:induction false} RunSaved<F>(s: RecorderState<F>, ticks: seq<TickInput<F>>)
    decreases |ticks|
    ensures SavedWithin(s.count, s.recording, RunWrites(s, ticks), AfterRun(s, ticks).count, AfterRun(s, ticks).recording)
    ensures forall i :: 0 <= i < |RunWrites(s, ticks)| ==> NonEmptyNamedWrite(RunWrites(s, ticks)[i])
  {
    if ticks != [] {
      var tick := ticks[0];
      var next := AfterTick(s, tick);
      EventsSaved(Buffered(s, tick.arrived), tick.events, tick.now);
      if !EndsInput(tick.events) {
        RunSaved(next, ticks[1..]);
        var last := AfterRun(next, ticks[1..]);
        SavedWithinTrans(s.count, s.recording, TickWrites(s, tick), next.count, next.recording,
                         RunWrites(next, ticks[1..]), last.count, last.recording);
        NamedWritesAppend(TickWrites(s, tick), RunWrites(next, ticks[1..]));
      }
    }
  }

  lemma NamedWritesAppend<F>(w0: seq<SessionFiles<F>>, w1: seq<SessionFiles<F>>)
    requires forall i :: 0 <= i < |w0| ==> NonEmptyNamedWrite(w0[i])
    requires forall i :: 0 <= i < |w1| ==> NonEmptyNamedWrite(w1[i])
    ensures forall i :: 0 <= i < |w0 + w1| ==> NonEmptyNamedWrite((w0 + w1)[i])
  {
    forall i | 0 <= i < |w0 + w1| ensures NonEmptyNamedWrite((w0 + w1)[i]) {
      if i < |w0| {
        assert (w0 + w1)[i] == w0[i];
      } else {
        assert (w0 + w1)[i] == w1[i - |w0|];
      }
    }
  }

  /** No event of the queue presses `R`. */
  predicate NoToggle(events: seq<Event>) {
    forall i :: 0 <= i < |events| ==> events[i] != KeyDown(KeyR)
  }

  /** Without `R`, the events change at most the camera view, and save nothing. */
  lemma {:induction false} EventsWithoutToggle<F>(s: RecorderState<F>, events: seq<Event>, now: real)
    requires NoToggle(events)
    decreases |events|
    ensures AfterEvents(s, events, now) == s.(view := AfterEvents(s, events, now).view)
    ensures EventsWrites(s, events, now) == []
  {
    if events != [] && !EndsRecorder(events[0]) {
      assert events[0] != KeyDown(KeyR);
      assert NoToggle(events[1..]) by {
        forall i | 0 <= i < |events[1..]| ensures events[1..][i] != KeyDown(KeyR) {
          assert events[1..][i] == events[i + 1];
        }
      }
      EventsWithoutToggle(AfterEvent(s, events[0], now), events[1..], now);
    }
  }

  /**
   * A call of `_parse_input` without `R`: the flag, counter, start time and
   * frame buffer stay, and the action log grows by exactly one record when
   * recording and the loop was not ended, by none otherwise.
   */
  lemma InputLogsOnce<F>(s: RecorderState<F>, events: seq<Event>, keys: set<Key>, now: real)
    requires ValidState(s) && NoToggle(events)
    ensures var r := AfterInput(s, events, keys, now);
      && r.recording == s.recording && r.count == s.count && r.start == s.start
      && r.frames == s.frames && r.captured == s.captured
      && r.actions == s.actions + (if s.recording && !EndsInput(events) then [ActionOf(ControlFor(keys), now, s.start.value)] else [])
    ensures ValidState(AfterInput(s, events, keys, now))
  {
    EventsWithoutToggle(s, events, now);
  }

  /**
   * A tick without `R`: the frames that arrived are appended to the buffer
   * exactly when recording, nothing is saved, and at most one action is logged.
   */
  lemma TickBuffersFrames<F>(s: RecorderState<F>, tick: TickInput<F>)
    requires ValidState(s) && NoToggle(tick.events)
    ensures AfterTick(s, tick).frames == s.frames + (if s.recording then tick.arrived else [])
    ensures AfterTick(s, tick).recording == s.recording && AfterTick(s, tick).count == s.count
    ensures AfterTick(s, tick).actions == s.actions +
      (if s.recording && !EndsInput(tick.events) then [ActionOf(ControlFor(tick.keys), tick.now, s.start.value)] else [])
    ensures ValidState(AfterTick(s, tick))
    ensures TickWrites(s, tick) == []
  {
    var b := Buffered(s, tick.arrived);
    InputLogsOnce(b, tick.events, tick.keys, tick.now);
    EventsWithoutToggle(b, tick.events, tick.now);
  }

  /**
   * A session from start to stop: `R` on one tick opens session `count + 1`
   * and logs its first action; the frames of the next tick are buffered and
   * that tick's `R` saves them with that one action, unless no frame
   * arrived. The session is then closed, so the exit path writes nothing more.
   */
  lemma OneSessionRun<F>(s: RecorderState<F>, start: TickInput<F>, stop: TickInput<F>)
    requires ValidState(s) && !s.recording
    requires start.events == [KeyDown(KeyR)] && stop.events == [KeyDown(KeyR)]
    ensures var begun := AfterTick(s, start);
      && begun.recording && begun.count == s.count + 1 && begun.start == Some(start.now)
      && begun.frames == [] && begun.actions == [ActionOf(ControlFor(start.keys), start.now, start.now)]
    ensures RunWrites(s, [start, stop]) ==
      if stop.arrived == [] then []
      else [SessionOutput(s.count + 1, stop.arrived, [ActionOf(ControlFor(start.keys), start.now, start.now)], Some(start.now)).value]
    ensures !AfterRun(s, [start, stop]).recording && ExitWrites(AfterRun(s, [start, stop])) == []
  {
    var ticks := [start, stop];
    assert !EndsInput(start.events) && !EndsInput(stop.events);
    assert ticks[1..] == [stop];
    var begun := AfterTick(s, start);
    assert AfterEvents(s, start.events, start.now) == AfterToggle(s, start.now);
    assert EventsWrites(s, start.events, start.now) == [];
    var buffered := Buffered(begun, stop.arrived);
    assert AfterEvents(buffered, stop.events, stop.now) == AfterToggle(buffered, stop.now);
    assert EventsWrites(buffered, stop.events, stop.now) == ToggleWrites(buffered);
    assert buffered.frames == stop.arrived;
    var closed := AfterTick(begun, stop);
    assert AfterRun(begun, [stop]) == closed && RunWrites(begun, [stop]) == ToggleWrites(buffered) + [];
    assert AfterRun(s, ticks) == closed && RunWrites(s, ticks) == [] + RunWrites(begun, [stop]);
  }

  /** The save of the `finally` block: the open session, if it has frames. */
  function ExitWrites<F>(s: RecorderState<F>): seq<SessionFiles<F>> {
    if s.recording && s.frames != [] then [SessionOutput(s.count, s.frames, s.actions, s.start).value] else []
  }

  class Recorder<F> {
    var recording: bool
    var recordingCount: int
    var framesCaptured: nat
    var recordingStartTime: Option<real>
    var cameraView: CameraView
    var frames: seq<F>
    var actions: seq<ActionRecord>

    /** The fields as a `RecorderState`. */
    ghost function State(): RecorderState<F>
      reads this
    {
      RecorderState(recording, recordingCount, framesCaptured, recordingStartTime, cameraView, frames, actions)
    }

    /** `frames_captured` counts the frames buffered since the last start; a recording has a start time. */
    ghost predicate Valid()
      reads this
    {
      ValidState(State())
    }

    /** `__init__` with `_load_existing_recordings`; `None` is a missing output folder. */
    constructor (listing: Option<seq<string>>)
      ensures Valid()
      ensures !recording && framesCaptured == 0 && recordingStartTime == None
      ensures cameraView == FirstPerson && frames == [] && actions == []
      ensures if listing.Some? && !NoRecordingNumber(listing.value)
              then IsLatestRecording(listing.value, recordingCount)
              else recordingCount == 0
    {
      frames := [];
      actions := [];
      recording := false;
      framesCaptured := 0;
      recordingCount := 0;
      recordingStartTime := None;
      cameraView := FirstPerson;
      if listing.Some? {
        var found := ScanRecordings(listing.value);
        if found.Some? {
          recordingCount := found.value;
        }
      }
    }

    /** `_camera_callback`: a frame is buffered only while recording. */
    method CameraCallback(frame: F)
      requires Valid()
      modifies this`frames, this`framesCaptured
      ensures Valid()
      ensures recording ==> frames == old(frames) + [frame] && framesCaptured == old(framesCaptured) + 1
      ensures !recording ==> frames == old(frames) && framesCaptured == old(framesCaptured)
      ensures State() == Buffered(old(State()), [frame])
    {
      if recording {
        frames := frames + [frame];
        framesCaptured := framesCaptured + 1;
      }
    }

    /** `_save_current_session`: writes the frames one by one and changes no field. */
    method SaveCurrentSession() returns (written: Option<SessionFiles<F>>)
      ensures written == SessionOutput(recordingCount, frames, actions, recordingStartTime)
    {
      if |frames| == 0 {
        return None;
      }
      var video: seq<F> := [];
      var framesWritten: nat := 0;
      for i := 0 to |frames|
        invariant video == frames[..i]
        invariant framesWritten == i
      {
        video := video + [frames[i]];
        framesWritten := framesWritten + 1;
      }
      assert video == frames;
      var duration := |frames| as real / FrameRate as real;
      var startText := if recordingStartTime.Some? && recordingStartTime.value != 0.0 then recordingStartTime else None;
      var metadata := Metadata(recordingCount, duration, FrameRate, |frames|, |actions|, startText, actions);
      var numSamples := 800 * |frames|;
      assert numSamples as real == duration * AudioSampleRate as real;
      written := Some(SessionFiles(
        VideoName(recordingCount), ActionsName(recordingCount), AudioName(recordingCount),
        video, framesWritten, metadata, numSamples));
    }

    /**
     * The `R` key. Starting bumps the counter, sets the flag and the start
     * time and empties both buffers; stopping clears the flag first and then
     * saves, leaving the buffers as they are.
     */
    method ToggleRecording(now: real) returns (written: Option<SessionFiles<F>>)
      requires Valid()
      modifies this
      ensures Valid() && cameraView == old(cameraView)
      ensures !old(recording) ==>
        && recording && recordingCount == old(recordingCount) + 1 && recordingStartTime == Some(now)
        && frames == [] && actions == [] && framesCaptured == 0 && written.None?
      ensures old(recording) ==>
        && !recording && recordingCount == old(recordingCount) && recordingStartTime == old(recordingStartTime)
        && frames == old(frames) && actions == old(actions) && framesCaptured == old(framesCaptured)
        && written == SessionOutput(recordingCount, frames, actions, recordingStartTime)
      ensures State() == AfterToggle(old(State()), now)
      ensures (if written.Some? then [written.value] else []) == ToggleWrites(old(State()))
    {
      if !recording {
        recordingCount := recordingCount + 1;
        recording := true;
        recordingStartTime := Some(now);
        frames := [];
        actions := [];
        framesCaptured := 0;
        written := None;
      } else {
        recording := false;
        written := SaveCurrentSession();
      }
    }

    /** The `C` key: switch between the two camera views. */
    method ToggleCameraView()
      modifies this`cameraView
      ensures cameraView == OtherView(old(cameraView))
    {
      if cameraView == FirstPerson {
        cameraView := ThirdPerson;
      } else {
        cameraView := FirstPerson;
      }
    }

    /** The action logging of a tick: exactly one record while recording, none otherwise. */
    method LogAction(c: Control, now: real)
      requires Valid()
      modifies this`actions
      ensures Valid()
      ensures recording && recordingStartTime.Some? ==> actions == old(actions) + [ActionOf(c, now, recordingStartTime.value)]
      ensures !(recording && recordingStartTime.Some?) ==> actions == old(actions)
      ensures State() == Logged(old(State()), c, now)
    {
      if recording && recordingStartTime.Some? {
        var actionData := ActionOf(c, now, recordingStartTime.value);
        actions := actions + [actionData];
      }
    }

    /**
     * One key press of the event loop other than ESC: `R` toggles the
     * recording (saving the session when it stops), `C` switches the view,
     * and any other key changes nothing.
     */
    method HandleKeyDown(key: Key, now: real) returns (written: seq<SessionFiles<F>>)
      requires Valid()
      modifies this
      ensures Valid()
      ensures recording == (if key == KeyR then !old(recording) else old(recording))
      ensures recordingCount == (if key == KeyR && !old(recording) then old(recordingCount) + 1 else old(recordingCount))
      ensures cameraView == (if key == KeyC then OtherView(old(cameraView)) else old(cameraView))
      ensures written != [] <==> key == KeyR && old(recording) && old(frames) != []
      ensures |written| <= 1
      ensures written != [] ==> Some(written[0]) == SessionOutput(recordingCount, frames, actions, recordingStartTime)
      ensures SavedWithin(old(recordingCount), old(recording), written, recordingCount, recording)
      ensures forall i :: 0 <= i < |written| ==> NonEmptyNamedWrite(written[i])
      ensures key != KeyR ==>
        && frames == old(frames) && actions == old(actions) && framesCaptured == old(framesCaptured)
        && recordingStartTime == old(recordingStartTime) && written == []
      ensures key == KeyR && !old(recording) ==> frames == [] && actions == [] && recordingStartTime == Some(now)
      ensures key == KeyR && old(recording) ==>
        frames == old(frames) && actions == old(actions) && recordingStartTime == old(recordingStartTime)
      ensures State() == AfterEvent(old(State()), KeyDown(key), now)
      ensures written == EventWrites(old(State()), KeyDown(key))
    {
      written := [];
      if key == KeyR {
        var saved := ToggleRecording(now);
        if saved.Some? {
          written := [saved.value];
        }
      }
      if key == KeyC {
        ToggleCameraView();
      }
    }

    /**
     * `_parse_input`: handles the events in order until one ends the loop,
     * then derives and applies the control and logs it.
     */
    method ParseInput(events: seq<Event>, keys: set<Key>, now: real)
      returns (running: bool, applied: Option<Control>, written: seq<SessionFiles<F>>)
      requires Valid()
      modifies this
      ensures Valid()
      ensures running <==> forall i :: 0 <= i < |events| ==> !EndsRecorder(events[i])
      ensures running ==> applied == Some(ControlFor(keys))
      ensures !running ==> applied.None?
      ensures running && recording ==>
        |actions| > 0 && actions[|actions| - 1] == ActionOf(applied.value, now, recordingStartTime.value)
      ensures SavedWithin(old(recordingCount), old(recording), written, recordingCount, recording)
      ensures forall i :: 0 <= i < |written| ==> NonEmptyNamedWrite(written[i])
      ensures State() == AfterInput(old(State()), events, keys, now)
      ensures written == EventsWrites(old(State()), events, now)
      ensures NoToggle(events) ==>
        && recording == old(recording) && recordingCount == old(recordingCount) && frames == old(frames)
        && actions == old(actions) + (if recording && running then [ActionOf(applied.value, now, recordingStartTime.value)] else [])
        && written == []
    {
      ghost var s0 := State();
      var ended;
      ended, written := HandleEvents(events, now);
      EventsSaved(s0, events, now);
      if NoToggle(events) {
        InputLogsOnce(s0, events, keys, now);
        EventsWithoutToggle(s0, events, now);
      }
      if ended {
        return false, None, written;
      }
      var control := DeriveControl(keys);
      LogAction(control, now);
      running, applied := true, Some(control);
    }

    /** One event of the queue that does not end the loop: key presses are handled, the rest ignored. */
    method HandleEvent(event: Event, now: real) returns (written: seq<SessionFiles<F>>)
      requires Valid() && !EndsRecorder(event)
      modifies this
      ensures Valid()
      ensures State() == AfterEvent(old(State()), event, now)
      ensures written == EventWrites(old(State()), event)
    {
      written := [];
      if event.KeyDown? {
        written := HandleKeyDown(event.key, now);
      }
    }

    /**
     * The event loop of `_parse_input`: the events in order until the first
     * one that makes it return False, reported as `ended`.
     */
    method HandleEvents(events: seq<Event>, now: real) returns (ended: bool, written: seq<SessionFiles<F>>)
      requires Valid()
      modifies this
      ensures Valid()
      ensures ended <==> EndsInput(events)
      ensures State() == AfterEvents(old(State()), events, now)
      ensures written == EventsWrites(old(State()), events, now)
    {
      written := [];
      ghost var s0 := State();
      for i := 0 to |events|
        invariant Valid()
        invariant !EndsInput(events[..i])
        invariant AfterEvents(State(), events[i..], now) == AfterEvents(s0, events, now)
        invariant written + EventsWrites(State(), events[i..], now) == EventsWrites(s0, events, now)
      {
        var event := events[i];
        if event == Quit || event == KeyDown(KeyEscape) {
          EventsStop(State(), events, i, now);
          assert written + [] == written;
          return true, written;
        }
        NotEndedStep(events, i);
        EventsStep(State(), events, i, now);
        var saved := HandleEvent(event, now);
        written := written + saved;
      }
      assert events[|events|..] == [] && events[..|events|] == events;
      assert written + [] == written;
      ended := false;
    }

    /** The files listed by `_final_summary`. */
    method FinalSummary() returns (names: seq<string>)
      ensures names == SummaryListing(recordingCount)
    {
      names := [];
      if recordingCount > 0 {
        for i := 1 to recordingCount + 1
          invariant names == SummaryListing(i - 1)
        {
          names := names + [VideoName(i), ActionsName(i), AudioName(i)];
        }
      }
    }

    /**
     * The `finally` block of `game_loop`: the open session is saved only if
     * the flag is still set and frames were buffered, so a session already
     * saved by `R` is never written a second time.
     */
    method Finish() returns (written: Option<SessionFiles<F>>, summary: seq<string>)
      requires Valid()
      ensures written.Some? <==> recording && frames != []
      ensures written.Some? ==> written == SessionOutput(recordingCount, frames, actions, recordingStartTime)
      ensures summary == SummaryListing(recordingCount)
    {
      written := None;
      if recording && |frames| > 0 {
        written := SaveCurrentSession();
      }
      summary := FinalSummary();
    }

    /**
     * `game_loop` after spawning: the ticks of `DriveTicks`, then the exit
     * path. No two writes of a run share a session number or a file name.
     */
    method GameLoop(ticks: seq<TickInput<F>>)
      returns (applied: seq<Control>, written: seq<SessionFiles<F>>, summary: seq<string>)
      requires Valid()
      modifies this
      ensures Valid()
      ensures SavedWithin(old(recordingCount), old(recording), written, recordingCount, false)
      ensures forall i :: 0 <= i < |written| ==> NonEmptyNamedWrite(written[i])
      ensures DistinctFiles(written)
      ensures summary == SummaryListing(recordingCount)
      ensures applied == RunControls(ticks)
      ensures State() == AfterRun(old(State()), ticks)
      ensures written == RunWrites(old(State()), ticks) + ExitWrites(State())
    {
      ghost var count0, recording0 := recordingCount, recording;
      applied, written := DriveTicks(ticks);
      var last;
      last, summary := Finish();
      var final: seq<SessionFiles<F>> := if last.Some? then [last.value] else [];
      assert final == ExitWrites(State());
      assert SavedWithin(recordingCount, recording, final, recordingCount, false);
      SavedWithinTrans(count0, recording0, written, recordingCount, recording, final, recordingCount, false);
      written := written + final;
      DistinctFileNames(written);
    }

    /**
     * The `while running` loop of `game_loop`: each tick first buffers the
     * frames the camera delivered, then parses the input; the loop stops
     * when `_parse_input` returns False or the input runs out.
     */
    method DriveTicks(ticks: seq<TickInput<F>>) returns (applied: seq<Control>, written: seq<SessionFiles<F>>)
      requires Valid()
      modifies this
      ensures Valid()
      ensures SavedWithin(old(recordingCount), old(recording), written, recordingCount, recording)
      ensures forall i :: 0 <= i < |written| ==> NonEmptyNamedWrite(written[i])
      ensures applied == RunControls(ticks)
      ensures State() == AfterRun(old(State()), ticks)
      ensures written == RunWrites(old(State()), ticks)
    {
      applied := [];
      written := [];
      ghost var s0 := State();
      var running := true;
      var t := 0;
      while running && t < |ticks|
        invariant 0 <= t <= |ticks|
        invariant Valid()
        invariant running ==> AfterRun(State(), ticks[t..]) == AfterRun(s0, ticks)
        invariant running ==> written + RunWrites(State(), ticks[t..]) == RunWrites(s0, ticks)
        invariant !running ==> State() == AfterRun(s0, ticks) && written == RunWrites(s0, ticks)
        invariant running ==> applied + RunControls(ticks[t..]) == RunControls(ticks)
        invariant !running ==> applied == RunControls(ticks)
      {
        ghost var sT, writtenT := State(), written;
        var control, saves;
        running, control, saves := Tick(ticks[t]);
        if running {
          RunContinues(s0, ticks, t, sT, writtenT);
        } else {
          RunEnds(s0, ticks, t, sT, writtenT);
        }
        written := written + saves;
        RunControlsStep(ticks, t);
        if control.Some? {
          assert applied + [control.value] + RunControls(ticks[t + 1..]) == applied + ([control.value] + RunControls(ticks[t + 1..]));
          applied := applied + [control.value];
        } else {
          assert applied + [] == applied;
        }
        t := t + 1;
      }
      assert running ==> ticks[t..] == [] && applied + [] == applied;
      assert State() == AfterRun(s0, ticks) && written == RunWrites(s0, ticks);
      RunSaved(s0, ticks);
    }

    /** One pass of the `while running` body: the frames that arrived, then `_parse_input`. */
    method Tick(tick: TickInput<F>) returns (running: bool, applied: Option<Control>, written: seq<SessionFiles<F>>)
      requires Valid()
      modifies this
      ensures Valid()
      ensures running <==> forall i :: 0 <= i < |tick.events| ==> !EndsRecorder(tick.events[i])
      ensures running <==> !EndsInput(tick.events)
      ensures running ==> applied == Some(ControlFor(tick.keys))
      ensures !running ==> applied.None?
      ensures SavedWithin(old(recordingCount), old(recording), written, recordingCount, recording)
      ensures forall i :: 0 <= i < |written| ==> NonEmptyNamedWrite(written[i])
      ensures State() == AfterTick(old(State()), tick)
      ensures written == TickWrites(old(State()), tick)
      ensures NoToggle(tick.events) ==>
        frames == old(frames) + (if old(recording) then tick.arrived else []) && written == []
    {
      ghost var countA, recordingA := recordingCount, recording;
      ghost var s0 := State();
      for k := 0 to |tick.arrived|
        invariant Valid()
        invariant recordingCount == countA && recording == recordingA
        invariant State() == Buffered(s0, tick.arrived[..k])
      {
        assert tick.arrived[..k + 1] == tick.arrived[..k] + [tick.arrived[k]];
        CameraCallback(tick.arrived[k]);
      }
      assert tick.arrived[..|tick.arrived|] == tick.arrived;
      running, applied, written := ParseInput(tick.events, tick.keys, tick.now);
      if NoToggle(tick.events) {
        TickBuffersFrames(s0, tick);
      }
    }
  }

  /**
   * Existing files `recording_drive-1.mp4` .. `recording_drive-k.mp4`: the
   * first session recorded after start-up is number `k + 1`.
   */
  method FirstNewSession(names: seq<string>, k: int, now: real) returns (session: int)
    requires k >= 1 && VideoName(k) in names
    requires forall j :: 0 <= j < |names| && IsVideoName(names[j]) ==>
               exists i :: 1 <= i <= k && names[j] == VideoName(i)
    ensures session == k + 1
  {
    var recorder := new Recorder<int>(Some(names));
    ResumeAfterConsecutiveSessions(names, k);
    var _ := recorder.ToggleRecording(now);
    session := recorder.recordingCount;
  }

  /** Start, one frame, stop, exit: the session is written by the stop and not again on exit. */
  method StoppedSessionSavedOnce<F>(start: real, frame: F, stop: real)
    returns (onStop: Option<SessionFiles<F>>, onExit: Option<SessionFiles<F>>)
    ensures onStop.Some? && onStop.value.framesWritten == 1 && onStop.value.video == [frame]
    ensures onStop.value.metadata.sessionId == 1 && onStop.value.videoName == VideoName(1)
    ensures onExit.None?
  {
    var recorder := new Recorder<F>(None);
    var _ := recorder.ToggleRecording(start);
    recorder.CameraCallback(frame);
    onStop := recorder.ToggleRecording(stop);
    var summary;
    onExit, summary := recorder.Finish();
  }

  /**
   * Start and stop with no frame in between, or exit during such a session:
   * no file is written, yet the exit summary still lists the three files of
   * that session number.
   */
  method EmptySessionWritesNothing<F>(start: real, stop: real)
    returns (onStop: Option<SessionFiles<F>>, onExit: Option<SessionFiles<F>>, listed: seq<string>)
    ensures onStop.None? && onExit.None?
    ensures listed == [VideoName(1), ActionsName(1), AudioName(1)]
  {
    var first := new Recorder<F>(None);
    var _ := first.ToggleRecording(start);
    onStop := first.ToggleRecording(stop);
    var nothing;
    nothing, listed := first.Finish();
    var second := new Recorder<F>(None);
    var _ := second.ToggleRecording(start);
    var summary;
    onExit, summary := second.Finish();
  }
}
