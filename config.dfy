/**
 * The dataset-creation settings of `config.py`: the default constants the
 * checks look at, the hardware preset table and the configuration check.
 * The module-level constants `validate_config` reads are passed in as a
 * `Settings` value, so the check can be applied to any settings, the
 * defaults and the presets among them.
 */
module Config {

  const WindowWidth: nat := 1280
  const WindowHeight: nat := 720
  const FrameRate: nat := 20
  const NumNpcVehicles: nat := 50
  const NumNpcPedestrians: nat := 30
  const CameraFov: nat := 110

  /** The settings `validate_config` reads. */
  datatype Settings = Settings(windowWidth: int, windowHeight: int, frameRate: int, npcVehicles: int, npcPedestrians: int)

  const Defaults := Settings(WindowWidth, WindowHeight, FrameRate, NumNpcVehicles, NumNpcPedestrians)

  // ---------------------------------------------------------------------
  // Hardware presets
  // ---------------------------------------------------------------------

  const PresetNames: set<string> := {"high_end", "gtx_1650", "low_end"}

  /** The six settings every preset defines. */
  const PresetKeys: set<string> :=
    {"WINDOW_WIDTH", "WINDOW_HEIGHT", "FRAME_RATE", "NUM_NPC_VEHICLES", "NUM_NPC_PEDESTRIANS", "CAMERA_FOV"}

  function PresetTable(width: int, height: int, fps: int, vehicles: int, pedestrians: int, fov: int): (m: map<string, int>)
    ensures m.Keys == PresetKeys
    ensures m["WINDOW_WIDTH"] == width && m["WINDOW_HEIGHT"] == height && m["FRAME_RATE"] == fps
    ensures m["NUM_NPC_VEHICLES"] == vehicles && m["NUM_NPC_PEDESTRIANS"] == pedestrians && m["CAMERA_FOV"] == fov
  {
    map["WINDOW_WIDTH" := width, "WINDOW_HEIGHT" := height, "FRAME_RATE" := fps,
        "NUM_NPC_VEHICLES" := vehicles, "NUM_NPC_PEDESTRIANS" := pedestrians, "CAMERA_FOV" := fov]
  }

  /**
   * `get_hardware_preset`: a known name gives its table, with the same six
   * keys for every preset; any other name gives the empty mapping.
   */
  function HardwarePreset(name: string): (preset: map<string, int>)
    ensures name in PresetNames ==> preset.Keys == PresetKeys
    ensures name !in PresetNames ==> preset == map[]
    ensures name == "high_end" ==> preset == PresetTable(1920, 1080, 30, 80, 50, 120)
    ensures name == "gtx_1650" ==> preset == PresetTable(1024, 768, 15, 25, 15, 90)
    ensures name == "low_end" ==> preset == PresetTable(800, 600, 12, 15, 8, 80)
  {
    if name == "high_end" then PresetTable(1920, 1080, 30, 80, 50, 120)
    else if name == "gtx_1650" then PresetTable(1024, 768, 15, 25, 15, 90)
    else if name == "low_end" then PresetTable(800, 600, 12, 15, 8, 80)
    else map[]
  }

  /**
   * The settings a preset would put in place of the defaults (nothing in
   * the script applies one). Every preset stays within the resolution and
   * frame-rate limits of `validate_config`, only `high_end` exceeds the
   * NPC limit, and every preset has a positive window and frame rate.
   */
  function ApplyPreset(name: string): (s: Settings)
    requires name in PresetNames
    ensures !ResolutionTooHigh(s) && !FrameRateTooHigh(s)
    ensures TooManyNpcs(s) <==> name == "high_end"
    ensures s.windowWidth > 0 && s.windowHeight > 0 && s.frameRate > 0
  {
    var p := HardwarePreset(name);
    Settings(p["WINDOW_WIDTH"], p["WINDOW_HEIGHT"], p["FRAME_RATE"], p["NUM_NPC_VEHICLES"], p["NUM_NPC_PEDESTRIANS"])
  }

  // ---------------------------------------------------------------------
  // validate_config
  // ---------------------------------------------------------------------

  const ResolutionIssue := "High resolution may cause performance issues"
  const NpcIssue := "High NPC count may cause performance issues"
  const FrameRateIssue := "Frame rate above 30 may be unnecessary for dataset creation"

  predicate ResolutionTooHigh(s: Settings) { s.windowWidth * s.windowHeight > 1920 * 1080 }
  predicate TooManyNpcs(s: Settings) { s.npcVehicles + s.npcPedestrians > 100 }
  predicate FrameRateTooHigh(s: Settings) { s.frameRate > 30 }

  /** The place of an issue in the report: resolution, then NPC count, then frame rate. */
  function IssueRank(issue: string): int {
    if issue == ResolutionIssue then 0
    else if issue == NpcIssue then 1
    else if issue == FrameRateIssue then 2
    else 3
  }

  /**
   * `validate_config`: each issue is reported exactly when its threshold is
   * strictly exceeded, at most once, in the fixed order, so there are
   * at most three.
   */
  method ValidateConfig(s: Settings) returns (issues: seq<string>)
    ensures ResolutionIssue in issues <==> ResolutionTooHigh(s)
    ensures NpcIssue in issues <==> TooManyNpcs(s)
    ensures FrameRateIssue in issues <==> FrameRateTooHigh(s)
    ensures forall i :: 0 <= i < |issues| ==> issues[i] in {ResolutionIssue, NpcIssue, FrameRateIssue}
    ensures forall i, j :: 0 <= i < j < |issues| ==> IssueRank(issues[i]) < IssueRank(issues[j])
    ensures |issues| == (if ResolutionTooHigh(s) then 1 else 0) + (if TooManyNpcs(s) then 1 else 0) + (if FrameRateTooHigh(s) then 1 else 0)
    ensures issues == [] <==> !ResolutionTooHigh(s) && !TooManyNpcs(s) && !FrameRateTooHigh(s)
  {
    issues := [];
    if s.windowWidth * s.windowHeight > 1920 * 1080 {
      issues := issues + [ResolutionIssue];
    }
    if s.npcVehicles + s.npcPedestrians > 100 {
      issues := issues + [NpcIssue];
    }
    if s.frameRate > 30 {
      issues := issues + [FrameRateIssue];
    }
  }

  /** The shipped defaults raise no issue. */
  method DefaultsAreClean() returns (issues: seq<string>)
    ensures issues == []
  {
    issues := ValidateConfig(Defaults);
  }

  /**
   * The thresholds are strict: the `high_end` preset sits exactly at
   * 1920x1080 and 30 FPS and is flagged only for its 80 + 50 NPCs.
   */
  method HighEndFlagsOnlyNpcs() returns (issues: seq<string>)
    ensures issues == [NpcIssue]
  {
    issues := ValidateConfig(ApplyPreset("high_end"));
    assert issues[0] in issues;
  }

  /** The two smaller presets raise no issue. */
  method SmallPresetsAreClean() returns (gtx: seq<string>, low: seq<string>)
    ensures gtx == [] && low == []
  {
    gtx := ValidateConfig(ApplyPreset("gtx_1650"));
    low := ValidateConfig(ApplyPreset("low_end"));
  }
}
