/**
 * The environment validator of `setup_validation.py`: the nine checks'
 * decisions, the summary tiers of the report and the process exit code.
 *
 * Every probe of the machine is an input collected in `Environment`: the
 * interpreter version, the `sys` prefixes, the importable packages, the
 * paths that exist, the free bytes of the disk (or `None` when the probe
 * raises), the attributes of the `config` module (or `None` when it does
 * not import), whether the simulator answers and how many spawn points its
 * map has, and whether the output folder can be used.
 */
module SetupValidation {
  import opened Common
  import Config

  /** A check's outcome: a success line, a warning line, or an error line. Only `Fail` makes it return False. */
  datatype Verdict = Pass | Warn | Fail {
    predicate Passes() { this != Fail }
  }

  // ---------------------------------------------------------------------
  // Interpreter and virtual environment
  // ---------------------------------------------------------------------

  /** `check_python_version`: 3.12 is the success case; other 3.10+ minors only warn. */
  function PythonVersionVerdict(major: int, minor: int): (v: Verdict)
    ensures v == Pass <==> major == 3 && minor == 12
    ensures v.Passes() <==> major == 3 && minor >= 10
  {
    if major == 3 && minor == 12 then Pass
    else if major == 3 && minor >= 10 then Warn
    else Fail
  }

  /** The `in_venv` test: `sys.real_prefix` exists, or `sys.base_prefix` exists and differs from `sys.prefix`. */
  predicate InVirtualEnvironment(hasRealPrefix: bool, basePrefix: Option<string>, prefix: string) {
    hasRealPrefix || (basePrefix.Some? && basePrefix.value != prefix)
  }

  /** `check_virtual_environment`: any virtual environment passes; one whose path contains `carla_env` without a warning. */
  function VirtualEnvironmentVerdict(hasRealPrefix: bool, basePrefix: Option<string>, prefix: string): (v: Verdict)
    ensures v.Passes() <==> InVirtualEnvironment(hasRealPrefix, basePrefix, prefix)
    ensures v == Pass <==> InVirtualEnvironment(hasRealPrefix, basePrefix, prefix) && Contains(prefix, "carla_env")
  {
    if InVirtualEnvironment(hasRealPrefix, basePrefix, prefix) then
      (if Contains(prefix, "carla_env") then Pass else Warn)
    else Fail
  }

  /** A virtual environment under a `carla_env` directory is the recommended one. */
  lemma CarlaEnvRecommended(basePrefix: string, parent: string, rest: string)
    requires basePrefix != parent + "carla_env" + rest
    ensures VirtualEnvironmentVerdict(false, Some(basePrefix), parent + "carla_env" + rest) == Pass
  {
    ContainsInfix(parent, "carla_env", rest);
  }

  // ---------------------------------------------------------------------
  // Packages and files
  // ---------------------------------------------------------------------

  const RequiredPackages: seq<string> := ["carla", "pygame", "cv2", "numpy", "PIL"]
  const ExpectedFiles: seq<string> := ["record_driving_session.py", "config.py", "requirements.txt", "README.md", "CARLA_Setup_Guide.md"]
  const ExpectedFolders: seq<string> := ["docs", "examples", "configs"]

  /** `xs` with the elements that are in `present` dropped, order kept. */
  function Absent(xs: seq<string>, present: set<string>): (r: seq<string>)
    ensures forall x :: x in r <==> x in xs && x !in present
    ensures |r| <= |xs|
  {
    if xs == [] then []
    else if xs[|xs| - 1] in present then Absent(xs[..|xs| - 1], present)
    else Absent(xs[..|xs| - 1], present) + [xs[|xs| - 1]]
  }

  /** One more element of `xs` scanned. */
  lemma AbsentSnoc(xs: seq<string>, i: int, present: set<string>)
    requires 0 <= i < |xs|
    ensures Absent(xs[..i + 1], present) == Absent(xs[..i], present) + (if xs[i] in present then [] else [xs[i]])
  {
    assert xs[..i + 1][..i] == xs[..i];
  }

  /**
   * `check_required_packages`: every package whose import fails is
   * reported in order, and the check passes iff none fails.
   */
  method CheckRequiredPackages(installed: set<string>) returns (allPackagesOk: bool, missing: seq<string>)
    ensures allPackagesOk <==> forall i :: 0 <= i < |RequiredPackages| ==> RequiredPackages[i] in installed
    ensures missing == Absent(RequiredPackages, installed)
  {
    allPackagesOk := true;
    missing := [];
    for i := 0 to |RequiredPackages|
      invariant allPackagesOk <==> forall j :: 0 <= j < i ==> RequiredPackages[j] in installed
      invariant missing == Absent(RequiredPackages[..i], installed)
    {
      var package := RequiredPackages[i];
      AbsentSnoc(RequiredPackages, i, installed);
      if package !in installed {
        missing := missing + [package];
        allPackagesOk := false;
      }
    }
    assert RequiredPackages[..|RequiredPackages|] == RequiredPackages;
  }

  /**
   * `check_file_structure`: a missing file is an error and fails the check;
   * a missing directory is only warned about and never fails it.
   */
  method CheckFileStructure(existing: set<string>) returns (allFilesOk: bool, missingFiles: seq<string>, missingFolders: seq<string>)
    ensures allFilesOk <==> forall i :: 0 <= i < |ExpectedFiles| ==> ExpectedFiles[i] in existing
    ensures missingFiles == Absent(ExpectedFiles, existing)
    ensures missingFolders == Absent(ExpectedFolders, existing)
  {
    allFilesOk := true;
    missingFiles := [];
    for i := 0 to |ExpectedFiles|
      invariant allFilesOk <==> forall j :: 0 <= j < i ==> ExpectedFiles[j] in existing
      invariant missingFiles == Absent(ExpectedFiles[..i], existing)
    {
      var filename := ExpectedFiles[i];
      AbsentSnoc(ExpectedFiles, i, existing);
      if filename !in existing {
        missingFiles := missingFiles + [filename];
        allFilesOk := false;
      }
    }
    assert ExpectedFiles[..|ExpectedFiles|] == ExpectedFiles;
    missingFolders := [];
    for i := 0 to |ExpectedFolders|
      invariant missingFolders == Absent(ExpectedFolders[..i], existing)
    {
      var foldername := ExpectedFolders[i];
      AbsentSnoc(ExpectedFolders, i, existing);
      if foldername !in existing {
        missingFolders := missingFolders + [foldername];
      }
    }
    assert ExpectedFolders[..|ExpectedFolders|] == ExpectedFolders;
  }

  // ---------------------------------------------------------------------
  // Disk space
  // ---------------------------------------------------------------------

  /** `1024**3`: one GB as the script counts it. */
  const GiB: nat := 1073741824

  /**
   * `check_disk_space` on the free byte count (a failing probe is `None`):
   * more than 50 GB passes, more than 10 GB warns, less fails, and a probe
   * that raises passes with a warning. The float quotient by `1024**3` is
   * rounded to nearest, yet comparing it with 10 and 50 is exact: a byte
   * count above 50 GiB puts the exact quotient at least 2^-30 above 50, far
   * more than half a unit in the last place there, so comparing bytes is
   * the script's comparison.
   */
  function DiskSpaceVerdict(freeBytes: Option<nat>): (v: Verdict)
    ensures v == Pass <==> freeBytes.Some? && freeBytes.value > 50 * GiB
    ensures v == Fail <==> freeBytes.Some? && freeBytes.value <= 10 * GiB
    ensures freeBytes.None? ==> v == Warn
  {
    match freeBytes
    case None => Warn
    case Some(free) =>
      if free > 50 * GiB then Pass
      else if free > 10 * GiB then Warn
      else Fail
  }

  function VerdictRank(v: Verdict): nat {
    match v
    case Fail => 0
    case Warn => 1
    case Pass => 2
  }

  /** More free space never gives a worse verdict. */
  lemma DiskSpaceMonotonic(a: nat, b: nat)
    requires a <= b
    ensures VerdictRank(DiskSpaceVerdict(Some(a))) <= VerdictRank(DiskSpaceVerdict(Some(b)))
  {
  }

  // ---------------------------------------------------------------------
  // Configuration settings
  // ---------------------------------------------------------------------

  const ResolutionWarning := "High resolution - may impact performance on GTX 1650"
  const NpcWarning := "High NPC count - may impact performance"
  const FpsWarning := "High FPS target - may be difficult to achieve"

  /** `getattr(config, key, default)` */
  function Setting(attributes: map<string, int>, key: string, default: int): int {
    if key in attributes then attributes[key] else default
  }

  /** The settings `check_config_settings` reads, with its defaults for absent attributes. */
  function ReadSettings(attributes: map<string, int>): (s: Config.Settings)
    ensures attributes == map[] ==> s == Config.Defaults
  {
    Config.Settings(
      Setting(attributes, "WINDOW_WIDTH", 1280),
      Setting(attributes, "WINDOW_HEIGHT", 720),
      Setting(attributes, "FRAME_RATE", 20),
      Setting(attributes, "NUM_NPC_VEHICLES", 50),
      Setting(attributes, "NUM_NPC_PEDESTRIANS", 30))
  }

  /** A check's result with the warnings it printed. */
  datatype Check = Check(passed: bool, warnings: seq<string>)

  /**
   * `check_config_settings`: passes whenever `config` imports (`None` when
   * it does not); its thresholds only produce warnings, in order.
   */
  function CheckConfigSettings(config: Option<map<string, int>>): (c: Check)
    ensures c.passed <==> config.Some?
    ensures config.None? ==> c.warnings == []
    ensures config.Some? ==>
      var s := ReadSettings(config.value);
      && (ResolutionWarning in c.warnings <==> s.windowWidth * s.windowHeight > 1280 * 720)
      && (NpcWarning in c.warnings <==> s.npcVehicles + s.npcPedestrians > 60)
      && (FpsWarning in c.warnings <==> s.frameRate > 25)
      && |c.warnings| <= 3
  {
    match config
    case None => Check(false, [])
    case Some(attributes) =>
      var s := ReadSettings(attributes);
      Check(true,
        (if s.windowWidth * s.windowHeight > 1280 * 720 then [ResolutionWarning] else [])
        + (if s.npcVehicles + s.npcPedestrians > 60 then [NpcWarning] else [])
        + (if s.frameRate > 25 then [FpsWarning] else []))
  }

  /** The attributes of the shipped `config` module that the check reads. */
  const ShippedConfig: map<string, int> := map[
    "WINDOW_WIDTH" := Config.WindowWidth, "WINDOW_HEIGHT" := Config.WindowHeight,
    "FRAME_RATE" := Config.FrameRate, "NUM_NPC_VEHICLES" := Config.NumNpcVehicles,
    "NUM_NPC_PEDESTRIANS" := Config.NumNpcPedestrians]

  /**
   * The shipped settings, and a `config` module that sets none of them,
   * pass with exactly one warning: 50 + 30 NPCs exceed this check's 60,
   * although `validate_config` accepts them.
   */
  lemma ShippedConfigWarnsOnlyNpcs()
    ensures CheckConfigSettings(Some(ShippedConfig)) == Check(true, [NpcWarning])
    ensures CheckConfigSettings(Some(map[])) == Check(true, [NpcWarning])
    ensures !Config.TooManyNpcs(ReadSettings(ShippedConfig))
  {
    assert ReadSettings(ShippedConfig) == Config.Defaults;
  }

  // ---------------------------------------------------------------------
  // Report, main and exit code
  // ---------------------------------------------------------------------

  /** The keys of `results`, in insertion order. */
  const CheckNames: seq<string> := [
    "Python Version", "Virtual Environment", "Required Packages", "CARLA Connection",
    "File Structure", "Output Folder", "Disk Space", "Configuration", "Basic Functionality"]

  /** `sum(results.values())` */
  function CountPassed(results: seq<bool>): (n: nat)
    ensures n <= |results|
    ensures n == |results| <==> forall i :: 0 <= i < |results| ==> results[i]
  {
    if results == [] then 0
    else CountPassed(results[..|results| - 1]) + (if results[|results| - 1] then 1 else 0)
  }

  /** The sum of the booleans is the number of `True` results. */
  lemma {:induction false} CountPassedIsMultiplicity(results: seq<bool>)
    ensures CountPassed(results) == multiset(results)[true]
    ensures |results| - CountPassed(results) == multiset(results)[false]
  {
    if results != [] {
      var init := results[..|results| - 1];
      CountPassedIsMultiplicity(init);
      assert results == init + [results[|results| - 1]];
      assert multiset(results) == multiset(init) + multiset{results[|results| - 1]};
    }
  }

  datatype ReportTier = AllPassed | MostPassed | SeveralIssues

  /** `generate_report`'s tier: all passed, at most two failed, or more. */
  function ReportTierOf(results: seq<bool>): (tier: ReportTier)
    ensures tier == AllPassed <==> false !in results
    ensures tier == MostPassed <==> 1 <= multiset(results)[false] <= 2
    ensures tier == SeveralIssues <==> multiset(results)[false] > 2
  {
    CountPassedIsMultiplicity(results);
    var passed := CountPassed(results);
    var total := |results|;
    if passed == total then AllPassed
    else if passed >= total - 2 then MostPassed
    else SeveralIssues
  }

  /** What the probes of the machine report. */
  datatype Environment = Environment(
    major: int,
    minor: int,
    hasRealPrefix: bool,
    basePrefix: Option<string>,
    prefix: string,
    installed: set<string>,
    connectionAnswers: bool,
    testServerAnswers: bool,
    spawnPoints: nat,
    existing: set<string>,
    outputFolderUsable: bool,
    freeBytes: Option<nat>,
    config: Option<map<string, int>>)

  /**
   * `check_carla_connection`: the import of `carla` raising ImportError
   * fails it, any exception from the client it probes with a 5 s timeout
   * fails it, and it passes when both succeed.
   */
  predicate CarlaConnects(env: Environment): (ok: bool)
    ensures "carla" !in env.installed ==> !ok
    ensures !env.connectionAnswers ==> !ok
    ensures "carla" in env.installed && env.connectionAnswers ==> ok
  {
    "carla" in env.installed && env.connectionAnswers
  }

  /**
   * `run_minimal_test`: a failed import of `carla`, `pygame` or `numpy` or
   * an exception from its own client (a second probe, with a 10 s timeout)
   * fails it, an empty spawn point list fails
   * it, and it passes otherwise.
   */
  predicate MinimalTestPasses(env: Environment): (ok: bool)
    ensures !({"carla", "pygame", "numpy"} <= env.installed) ==> !ok
    ensures !env.testServerAnswers ==> !ok
    ensures env.spawnPoints == 0 ==> !ok
    ensures {"carla", "pygame", "numpy"} <= env.installed && env.testServerAnswers && env.spawnPoints > 0 ==> ok
  {
    {"carla", "pygame", "numpy"} <= env.installed && env.testServerAnswers && env.spawnPoints > 0
  }

  /**
   * The two probes are separate: a server that answers within 10 s but not
   * within 5 s fails the connection check and still passes the minimal test.
   */
  lemma SlowServerPassesOnlyMinimalTest(env: Environment)
    requires {"carla", "pygame", "numpy"} <= env.installed && env.spawnPoints > 0
    requires !env.connectionAnswers && env.testServerAnswers
    ensures MinimalTestPasses(env) && !CarlaConnects(env)
  {
  }

  /** When both probes get the same answer, the minimal test passing implies the connection check passing. */
  lemma AgreeingProbesConnectFirst(env: Environment)
    requires env.connectionAnswers == env.testServerAnswers
    ensures MinimalTestPasses(env) ==> CarlaConnects(env)
  {
  }

  /** The `results` dictionary of `main`, one field per key. */
  datatype Results = Results(
    pythonVersion: bool,
    virtualEnvironment: bool,
    requiredPackages: bool,
    carlaConnection: bool,
    fileStructure: bool,
    outputFolder: bool,
    diskSpace: bool,
    configuration: bool,
    basicFunctionality: bool)
  {
    /** `results.values()`, in the order of `CheckNames`. */
    function Values(): (vs: seq<bool>)
      ensures |vs| == |CheckNames|
    {
      [pythonVersion, virtualEnvironment, requiredPackages, carlaConnection, fileStructure,
       outputFolder, diskSpace, configuration, basicFunctionality]
    }
  }

  /** Every check returned True. */
  predicate AllChecksPassed(r: Results) {
    r.pythonVersion && r.virtualEnvironment && r.requiredPackages && r.carlaConnection && r.fileStructure
    && r.outputFolder && r.diskSpace && r.configuration && r.basicFunctionality
  }

  /** `all(results.values())` is the conjunction of the nine checks. */
  lemma NoFailureIffAllPassed(r: Results)
    ensures false !in r.Values() <==> AllChecksPassed(r)
  {
  }

  /**
   * The nine checks of `main`, run in order: what each result says about
   * the machine.
   */
  method RunChecks(env: Environment) returns (results: Results)
    ensures results.pythonVersion <==> env.major == 3 && env.minor >= 10
    ensures results.virtualEnvironment <==> InVirtualEnvironment(env.hasRealPrefix, env.basePrefix, env.prefix)
    ensures results.requiredPackages <==> forall i :: 0 <= i < |RequiredPackages| ==> RequiredPackages[i] in env.installed
    ensures results.carlaConnection <==> CarlaConnects(env)
    ensures results.fileStructure <==> forall i :: 0 <= i < |ExpectedFiles| ==> ExpectedFiles[i] in env.existing
    ensures results.outputFolder <==> env.outputFolderUsable
    ensures results.diskSpace <==> env.freeBytes.None? || env.freeBytes.value > 10 * GiB
    ensures results.configuration <==> env.config.Some?
    ensures results.basicFunctionality <==> MinimalTestPasses(env)
  {
    var python := PythonVersionVerdict(env.major, env.minor).Passes();
    var venv := VirtualEnvironmentVerdict(env.hasRealPrefix, env.basePrefix, env.prefix).Passes();
    var packages, missingPackages := CheckRequiredPackages(env.installed);
    var connection := CarlaConnects(env);
    var files, missingFiles, missingFolders := CheckFileStructure(env.existing);
    var output := env.outputFolderUsable;
    var disk := DiskSpaceVerdict(env.freeBytes).Passes();
    var configuration := CheckConfigSettings(env.config).passed;
    var minimal := MinimalTestPasses(env);
    results := Results(python, venv, packages, connection, files, output, disk, configuration, minimal);
  }

  /**
   * `main`: runs the checks, reports, and succeeds iff every check returned
   * True, which is exactly the "all passed" tier.
   */
  method Validate(env: Environment) returns (success: bool, results: Results, tier: ReportTier)
    ensures results.pythonVersion <==> env.major == 3 && env.minor >= 10
    ensures results.virtualEnvironment <==> InVirtualEnvironment(env.hasRealPrefix, env.basePrefix, env.prefix)
    ensures results.requiredPackages <==> forall i :: 0 <= i < |RequiredPackages| ==> RequiredPackages[i] in env.installed
    ensures results.carlaConnection <==> CarlaConnects(env)
    ensures results.fileStructure <==> forall i :: 0 <= i < |ExpectedFiles| ==> ExpectedFiles[i] in env.existing
    ensures results.outputFolder <==> env.outputFolderUsable
    ensures results.diskSpace <==> env.freeBytes.None? || env.freeBytes.value > 10 * GiB
    ensures results.configuration <==> env.config.Some?
    ensures results.basicFunctionality <==> MinimalTestPasses(env)
    ensures tier == ReportTierOf(results.Values())
    ensures success <==> AllChecksPassed(results)
    ensures success <==> tier == AllPassed
  {
    results := RunChecks(env);
    NoFailureIffAllPassed(results);
    tier := ReportTierOf(results.Values());
    success := false !in results.Values();
  }

  /** `sys.exit(0 if success else 1)`; `None` is an exception or an interrupt out of `main`. */
  function ExitCode(outcome: Option<bool>): (code: int)
    ensures code == 0 || code == 1
    ensures code == 0 <==> outcome == Some(true)
  {
    match outcome
    case Some(true) => 0
    case _ => 1
  }

  /** The process exits with 0 exactly when every check passed. */
  method RunValidation(env: Environment) returns (code: int)
    ensures code == 0 <==>
      && env.major == 3 && env.minor >= 10
      && InVirtualEnvironment(env.hasRealPrefix, env.basePrefix, env.prefix)
      && (forall i :: 0 <= i < |RequiredPackages| ==> RequiredPackages[i] in env.installed)
      && CarlaConnects(env)
      && (forall i :: 0 <= i < |ExpectedFiles| ==> ExpectedFiles[i] in env.existing)
      && env.outputFolderUsable
      && (env.freeBytes.None? || env.freeBytes.value > 10 * GiB)
      && env.config.Some?
      && MinimalTestPasses(env)
  {
    var success, results, tier := Validate(env);
    code := ExitCode(Some(success));
  }
}
