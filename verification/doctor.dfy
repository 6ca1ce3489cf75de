/** The `doctor` subcommand: a fixed, ordered registry of tools, each with an
    optional platform flag and a list of extra checks, walked in order to
    fill a four-column report table. Every check is a verdict rule over one
    observation of the host (a return code, captured output, a file), and
    the host's answers are inputs, gathered in `Host`. An exception raised by
    a check is not caught: it ends the run with the rows added so far. */
module Doctor {
  import opened Results
  import opened Text
  import opened Tables
  import Versions
  import Paths
  import Constants
  import Decimal

  /** The glyph in the Result column. */
  datatype Verdict = Success | Fail

  /** One report row: Target, Condition, Result, Details. */
  datatype Row = Row(subject: string, condition: string, verdict: Verdict, detail: string)

  /** What a finished subprocess reports. */
  datatype Completed = Completed(returncode: int, stdout: string, stderr: string)

  /** The value stored under a key of a JSON object, as far as `is None` can tell. */
  datatype JsonValue = JsonNull | JsonNonNull

  /** A file on the host: absent, present but not decodable as JSON, or a JSON object. */
  datatype FileState = Absent | Malformed | JsonObject(fields: map<string, JsonValue>)

  /** Everything the doctor observes of the host. */
  datatype Host = Host(
    system: string,                                   // platform.system()
    run: seq<string> -> Result<Completed, PyError>,   // subprocess.run of an argument vector
    shell: string -> Completed,                       // subprocess.run of a shell command line
    fs: Paths.Path -> FileState,                      // what each file holds
    layout: Paths.Layout,                             // the paths derived at start-up (see Initialized)
    projectName: string)                              // GCP_PROJECT_NAME (see Initialized)

  /** What the modules compute at import, before `run()`: the paths, from
      the environment and the home directory, and `GCP_PROJECT_NAME`, from
      the two configuration documents. */
  predicate Initialized(host: Host, env: map<string, string>, home: Paths.Path, resolve: string -> Paths.Path,
                        common: Constants.Document<Constants.CommonJson>,
                        config: Constants.Document<Constants.ConfigJson>) {
    && host.layout == Paths.ComputeLayout(env, home, resolve)
    && Constants.GcpProjectName(common, config) == Ok(host.projectName)
  }

  /** Importing the doctor module: the host it will observe, with the paths
      and `GCP_PROJECT_NAME` computed at import by the lookup as written.
      When that lookup raises, the import fails with that exception and no
      check runs; it raises whenever common.json does not decode. The host
      it builds agrees with the corrected lookup as well. */
  function Startup(system: string, run: seq<string> -> Result<Completed, PyError>, shell: string -> Completed,
                   fs: Paths.Path -> FileState, env: map<string, string>, home: Paths.Path,
                   resolve: string -> Paths.Path, common: Constants.Document<Constants.CommonJson>,
                   config: Constants.Document<Constants.ConfigJson>): (r: Result<Host, PyError>)
    ensures r.Err? <==> Constants.GcpProjectNameAsWritten(common, config).Err?
    ensures r.Err? ==> r.error == Constants.GcpProjectNameAsWritten(common, config).error
    ensures r.Ok? <==> common.Decoded?
    ensures r.Ok? ==> Initialized(r.value, env, home, resolve, common, config)
    ensures r.Ok? ==> r.value.system == system && r.value.run == run && r.value.shell == shell && r.value.fs == fs
  {
    var name :- Constants.GcpProjectNameAsWritten(common, config);
    Ok(Host(system, run, shell, fs, Paths.ComputeLayout(env, home, resolve), name))
  }

  // The Condition column of each check.
  const INSTALLED := "インストール済か"
  const VERSION_MET := "バージョン要件を満たしているか"
  const GITHUB_REACHABLE := "Githubに接続可能か"
  const LOGGED_IN := "ログイン済か"
  const PROCESS_RUNNING := "プロセス起動済か"
  const REGISTRY_LINKED := "Artifact Registry 連携済か"
  const CREDENTIALS_SET := "デフォルト認証情報が設定済か"
  const API_ENABLED := "Resource Manager API が有効化済か"

  // The remediation hints in the Details column of failing rows.
  const NOT_LOGGED_IN_HINT := "ログインしていません。gh auth login を実行して Github ホストにログインしてください。"
  const DAEMON_HINT := "プロセスの起動が確認できません。Docker daemon プロセスを起動してください。"
  const REGISTRY_HINT := "Artifact Registry の連携が未設定です。gcloud auth configure-docker を実行してください。"

  /** `MESSAGE_CREDENTIAL_NOT_SET`, built around the personal project name,
      which the hint names. */
  function CredentialNotSetMessage(project: string): (r: string)
    ensures Contains(r, project)
  {
    var before := "デフォルト認証情報が未設定です。以下のコマンドを実行して認証を完了してください。\n"
      + "gcloud config set account <your-name@visasq.com>\n"
      + "gcloud config set project ";
    var after := "\ngcloud auth application-default login\n";
    ContainsSplice(before, project, after);
    before + project + after
  }

  /** `MESSAGE_RESOURCE_MGR_API_NOT_ENABLED`, built around the personal
      project name, which the hint names. */
  function ResourceManagerNotEnabledMessage(project: string): (r: string)
    ensures Contains(r, project)
  {
    var before := "Cloud Resource Manager API 有効化が未実施です。Cloud Resource Manager API を有効にしてください。\n"
      + "gcloud services enable --project ";
    var after := " cloudresourcemanager.googleapis.com\n";
    ContainsSplice(before, project, after);
    before + project + after
  }

  // The phrases the SSH and gh checks look for in standard error.
  const SSH_SUCCESS_PHRASE := "You've successfully authenticated"
  const NOT_LOGGED_IN_PHRASE := "You are not logged into any GitHub hosts."

  // The shell commands the checks run.
  const SSH_TEST_COMMAND := "ssh -o 'ConnectTimeout 5' -T git@github.com"
  const GH_AUTH_STATUS_COMMAND := "gh auth status"
  const SERVICES_COMMAND := "gcloud services list --enabled | grep -q cloudresourcemanager.googleapis.com"

  /** The process probe of `check_docker_daemon`, which depends on the platform. */
  function DaemonProbeCommand(macos: bool): (r: string)
    ensures macos ==> r == "pgrep com.docker.backend"
    ensures !macos ==> r == "pgrep -f dockerd"
  {
    if macos then "pgrep com.docker.backend" else "pgrep -f dockerd"
  }

  /** `VERSION_COMMAND_MAPPING`: the shell pipeline that prints each tool's version. */
  const VERSION_COMMAND_MAPPING: map<string, string> := map[
    "gh" := "gh version | grep version | awk '{ print $3; }'",
    "docker" := "docker --version | awk '{ print $3; }' | tr -d ','",
    "docker compose" := "docker compose version | awk '{ print $4; }' | sed -e 's/-.*$//g' -e 's/v//g'",
    "mutagen" := "mutagen --version | awk '{ print $3; }'",
    "gcloud" := "gcloud --version | grep SDK | awk '{ print $4; }'"
  ]

  // ---------------------------------------------------------------------
  // Verdict rules, one per check, over the observation each check makes.
  // ---------------------------------------------------------------------

  /** `command_exists(command)` given the result of `command -v command`:
      installed exactly when the probe exits 0, with the probe's stripped
      output as detail; an empty detail otherwise. */
  function CommandExistsRow(command: string, probe: Completed): (r: Row)
    ensures r.subject == command && r.condition == INSTALLED
    ensures r.verdict == Success <==> probe.returncode == 0
    ensures r.verdict == Success ==> r.detail == Strip(probe.stdout)
    ensures r.verdict == Fail ==> r.detail == ""
  {
    if probe.returncode == 0 then Row(command, INSTALLED, Success, Strip(probe.stdout))
    else Row(command, INSTALLED, Fail, "")
  }

  /** `execute_command(command)` given what the command did:
      `check_output` raises when it exits non-zero, and the output is stripped. */
  function CheckOutput(c: Completed): (r: Result<string, PyError>)
    ensures r.Err? <==> c.returncode != 0
    ensures r.Err? ==> r.error == CalledProcessError(c.returncode)
    ensures r.Ok? ==> r.value == Strip(c.stdout) && IsTrimmed(r.value)
  {
    if c.returncode != 0 then Err(CalledProcessError(c.returncode)) else Ok(Strip(c.stdout))
  }

  /** `version_satisfied` once the current version text is known: both
      texts are parsed (the current one first), and the check passes exactly
      when the current release is at least the required one. Both verdicts
      show the current version and the requirement. */
  function VersionSatisfiedRow(command: string, required: string, current: string): (r: Result<Row, PyError>)
    ensures r.Err? <==> Versions.Parse(current).Err? || Versions.Parse(required).Err?
    ensures r.Err? ==> r.error == InvalidVersion(if Versions.Parse(current).Err? then current else required)
    ensures r.Ok? ==> r.value.subject == command && r.value.condition == VERSION_MET
    ensures r.Ok? ==> r.value.detail == current + " >=" + required
    ensures r.Ok? ==>
      (r.value.verdict == Success <==>
         Versions.AtLeast(Versions.Parse(current).value, Versions.Parse(required).value))
  {
    var cur :- Versions.Parse(current);
    var req :- Versions.Parse(required);
    if Versions.AtLeast(cur, req) then Ok(Row(command, VERSION_MET, Success, current + " >=" + required))
    else Ok(Row(command, VERSION_MET, Fail, current + " >=" + required))
  }

  /** `check_ssh_access_on_github` given the SSH probe: passes exactly when
      the stripped standard error contains the success phrase, and shows that
      stripped message either way. */
  function SshAccessRow(probe: Completed): (r: Row)
    ensures r.subject == "ssh" && r.condition == GITHUB_REACHABLE
    ensures r.verdict == Success <==> Contains(Strip(probe.stderr), SSH_SUCCESS_PHRASE)
    ensures r.detail == Strip(probe.stderr)
  {
    var message := Strip(probe.stderr);
    if Contains(message, SSH_SUCCESS_PHRASE) then Row("ssh", GITHUB_REACHABLE, Success, message)
    else Row("ssh", GITHUB_REACHABLE, Fail, message)
  }

  /** `check_gh_auth_login` given `gh auth status`: fails only when standard
      error says no host is logged in; passes with an empty detail otherwise,
      whatever the return code. */
  function GhAuthLoginRow(probe: Completed): (r: Row)
    ensures r.subject == "gh" && r.condition == LOGGED_IN
    ensures r.verdict == Fail <==> Contains(probe.stderr, NOT_LOGGED_IN_PHRASE)
    ensures r.verdict == Success ==> r.detail == ""
    ensures r.verdict == Fail ==> r.detail == NOT_LOGGED_IN_HINT
  {
    if Contains(probe.stderr, NOT_LOGGED_IN_PHRASE) then Row("gh", LOGGED_IN, Fail, NOT_LOGGED_IN_HINT)
    else Row("gh", LOGGED_IN, Success, "")
  }

  /** `check_docker_daemon` given the process probe: passes exactly when it exits 0. */
  function DockerDaemonRow(probe: Completed): (r: Row)
    ensures r.subject == "Docker daemon" && r.condition == PROCESS_RUNNING
    ensures r.verdict == Success <==> probe.returncode == 0
    ensures r.detail == (if r.verdict == Success then "" else DAEMON_HINT)
  {
    if probe.returncode == 0 then Row("Docker daemon", PROCESS_RUNNING, Success, "")
    else Row("Docker daemon", PROCESS_RUNNING, Fail, DAEMON_HINT)
  }

  /** `credHelpers` is present and not null. */
  predicate HasCredHelpers(fields: map<string, JsonValue>) {
    "credHelpers" in fields && fields["credHelpers"] != JsonNull
  }

  /** `check_configure_docker` given the Docker configuration file: fails when
      the file is absent or its `credHelpers` is missing or null, passes with
      the file's path otherwise; a file that does not decode raises. */
  function ConfigureDockerRow(file: FileState, path: Paths.Path): (r: Result<Row, PyError>)
    ensures r.Err? <==> file.Malformed?
    ensures r.Err? ==> r.error == JsonDecodeError
    ensures r.Ok? ==> r.value.subject == "Google Cloud" && r.value.condition == REGISTRY_LINKED
    ensures r.Ok? ==> (r.value.verdict == Success <==> file.JsonObject? && HasCredHelpers(file.fields))
    ensures r.Ok? ==> r.value.detail == (if r.value.verdict == Success then Paths.Render(path) else REGISTRY_HINT)
  {
    match file
    case Absent => Ok(Row("Google Cloud", REGISTRY_LINKED, Fail, REGISTRY_HINT))
    case Malformed => Err(JsonDecodeError)
    case JsonObject(fields) =>
      if !HasCredHelpers(fields) then Ok(Row("Google Cloud", REGISTRY_LINKED, Fail, REGISTRY_HINT))
      else Ok(Row("Google Cloud", REGISTRY_LINKED, Success, Paths.Render(path)))
  }

  /** `check_application_credentials` given the credentials file: passes
      exactly when it exists, showing its path; otherwise the hint names the
      personal project. */
  function ApplicationCredentialsRow(file: FileState, path: Paths.Path, project: string): (r: Row)
    ensures r.subject == "Google Cloud" && r.condition == CREDENTIALS_SET
    ensures r.verdict == Success <==> !file.Absent?
    ensures r.detail == (if r.verdict == Success then Paths.Render(path) else CredentialNotSetMessage(project))
  {
    if file.Absent? then Row("Google Cloud", CREDENTIALS_SET, Fail, CredentialNotSetMessage(project))
    else Row("Google Cloud", CREDENTIALS_SET, Success, Paths.Render(path))
  }

  /** `check_cloud_resource_manager_enabled` given the services pipeline:
      passes exactly when it exits 0. */
  function ResourceManagerRow(probe: Completed, project: string): (r: Row)
    ensures r.subject == "Google Cloud" && r.condition == API_ENABLED
    ensures r.verdict == Success <==> probe.returncode == 0
    ensures r.detail == (if r.verdict == Success then "" else ResourceManagerNotEnabledMessage(project))
  {
    if probe.returncode == 0 then Row("Google Cloud", API_ENABLED, Success, "")
    else Row("Google Cloud", API_ENABLED, Fail, ResourceManagerNotEnabledMessage(project))
  }

  // ---------------------------------------------------------------------
  // The checks as the host runs them.
  // ---------------------------------------------------------------------

  /** `command_exists(command)`: `command -v command` is run as an argument
      vector, which raises when there is no executable to run. */
  function CommandExists(command: string, host: Host): (r: Result<Row, PyError>)
    ensures r.Err? <==> host.run(["command", "-v", command]).Err?
    ensures r.Err? ==> r.error == host.run(["command", "-v", command]).error
    ensures r.Ok? ==> r.value == CommandExistsRow(command, host.run(["command", "-v", command]).value)
  {
    var probe :- host.run(["command", "-v", command]);
    Ok(CommandExistsRow(command, probe))
  }

  /** `current_version(command)`: a command with no version pipeline raises
      `KeyError`; otherwise the pipeline's stripped output. */
  function CurrentVersion(command: string, host: Host): (r: Result<string, PyError>)
    ensures command !in VERSION_COMMAND_MAPPING ==> r == Err(KeyError(command))
    ensures command in VERSION_COMMAND_MAPPING ==> r == CheckOutput(host.shell(VERSION_COMMAND_MAPPING[command]))
  {
    if command !in VERSION_COMMAND_MAPPING then Err(KeyError(command))
    else CheckOutput(host.shell(VERSION_COMMAND_MAPPING[command]))
  }

  /** `version_satisfied(command, required)`. */
  function VersionSatisfied(command: string, required: string, host: Host): (r: Result<Row, PyError>)
    ensures command !in VERSION_COMMAND_MAPPING ==> r == Err(KeyError(command))
    ensures CurrentVersion(command, host).Err? ==> r == Err(CurrentVersion(command, host).error)
    ensures CurrentVersion(command, host).Ok? ==> r == VersionSatisfiedRow(command, required, CurrentVersion(command, host).value)
    ensures r.Err? ==> r.error.KeyError? || r.error.CalledProcessError? || r.error.InvalidVersion?
  {
    var current :- CurrentVersion(command, host);
    VersionSatisfiedRow(command, required, current)
  }

  /** The check functions the registry refers to. */
  datatype CheckFunc =
    | CheckSshAccessOnGithub
    | VersionSatisfiedFunc
    | CheckGhAuthLogin
    | CheckDockerDaemon
    | CheckConfigureDocker
    | CheckApplicationCredentials
    | CheckCloudResourceManagerEnabled

  /** An extra check: a function and its argument tuple, or none. */
  datatype Invocation = Invocation(func: CheckFunc, args: Option<seq<string>>)

  /** `func()`: every check but `version_satisfied` takes no argument;
      that one, called without its two, raises `TypeError`. */
  function CallWithoutArgs(func: CheckFunc, host: Host): (r: Result<Row, PyError>)
    ensures r == Err(TypeError) <==> func == VersionSatisfiedFunc
    ensures r.Err? ==> r.error == TypeError || (func == CheckConfigureDocker && r.error == JsonDecodeError)
  {
    var docker := host.layout.dockerConfigJson;
    var adc := host.layout.gcloudAdcJson;
    match func
    case VersionSatisfiedFunc => Err(TypeError)
    case CheckSshAccessOnGithub => Ok(SshAccessRow(host.shell(SSH_TEST_COMMAND)))
    case CheckGhAuthLogin => Ok(GhAuthLoginRow(host.shell(GH_AUTH_STATUS_COMMAND)))
    case CheckDockerDaemon => Ok(DockerDaemonRow(host.shell(DaemonProbeCommand(Constants.IsMacos(host.system)))))
    case CheckConfigureDocker => ConfigureDockerRow(host.fs(docker), docker)
    case CheckApplicationCredentials => Ok(ApplicationCredentialsRow(host.fs(adc), adc, host.projectName))
    case CheckCloudResourceManagerEnabled => Ok(ResourceManagerRow(host.shell(SERVICES_COMMAND), host.projectName))
  }

  /** `func(*args)`: only `version_satisfied` takes arguments, exactly two;
      any other call raises `TypeError`. */
  function CallWithArgs(func: CheckFunc, args: seq<string>, host: Host): (r: Result<Row, PyError>)
    ensures !(func == VersionSatisfiedFunc && |args| == 2) ==> r == Err(TypeError)
    ensures func == VersionSatisfiedFunc && |args| == 2 ==>
              r == VersionSatisfied(args[0], args[1], host) && r != Err(TypeError)
  {
    if func == VersionSatisfiedFunc && |args| == 2 then VersionSatisfied(args[0], args[1], host)
    else Err(TypeError)
  }

  /** `func(*args) if args else func()`: the tuple is unpacked when it is
      given and not empty; the function is called with no argument otherwise. */
  function Invoke(call: Invocation, host: Host): (r: Result<Row, PyError>)
    ensures call.args.Some? && call.args.value != [] ==> r == CallWithArgs(call.func, call.args.value, host)
    ensures call.args.None? || call.args.value == [] ==> r == CallWithoutArgs(call.func, host)
    ensures r == Err(TypeError) <==>
      if call.func == VersionSatisfiedFunc then !(call.args.Some? && |call.args.value| == 2)
      else call.args.Some? && call.args.value != []
  {
    if call.args.Some? && |call.args.value| > 0 then CallWithArgs(call.func, call.args.value, host)
    else CallWithoutArgs(call.func, host)
  }

  // ---------------------------------------------------------------------
  // The registry and what a run does with it.
  // ---------------------------------------------------------------------

  /** One registry entry: the tool, its `platform` flag if it has one, and
      its `extra` checks (none when the key is absent). */
  datatype Entry = Entry(tool: string, platform: Option<bool>, extras: seq<Invocation>)

  /** `platform is None or platform`. */
  predicate Applies(e: Entry) {
    e.platform.None? || e.platform.value
  }

  function NoArgs(func: CheckFunc): Invocation {
    Invocation(func, None)
  }

  function VersionAtLeast(command: string, minimum: string): Invocation {
    Invocation(VersionSatisfiedFunc, Some([command, minimum]))
  }

  /** `TOOL_TEST_CONFIG_MAPPING`, in its declared order; `macos` is `MACOS`. */
  function Registry(macos: bool): (r: seq<Entry>)
    ensures |r| == 12
    ensures forall k :: 0 <= k < |r| ==> (r[k].platform.Some? <==> k < 2)
    ensures forall k :: 0 <= k < 2 ==> r[k].platform == Some(macos) && r[k].extras == []
  {
    PlatformEntries(macos) + SharedEntries()
  }

  /** The first two entries, the only ones with a `platform` flag. */
  function PlatformEntries(macos: bool): (r: seq<Entry>)
    ensures |r| == 2 && r[0].tool == "xcode-select" && r[1].tool == "brew"
    ensures forall k :: 0 <= k < |r| ==> r[k].platform == Some(macos) && r[k].extras == []
  {
    [
      Entry("xcode-select", Some(macos), []),
      Entry("brew", Some(macos), [])
    ]
  }

  /** The remaining ten entries, which apply on every platform. */
  function SharedEntries(): (r: seq<Entry>)
    ensures |r| == 10
    ensures forall k :: 0 <= k < |r| ==> r[k].platform.None?
  {
    [
      Entry("make", None, []),
      Entry("ssh", None, [NoArgs(CheckSshAccessOnGithub)]),
      Entry("jq", None, []),
      Entry("pgrep", None, []),
      Entry("peco", None, []),
      Entry("pipx", None, []),
      Entry("gh", None, [VersionAtLeast("gh", "2.0.0"), NoArgs(CheckGhAuthLogin)]),
      Entry("docker", None, [
        VersionAtLeast("docker", "20.10.7"),
        VersionAtLeast("docker compose", "1.29.2"),
        NoArgs(CheckDockerDaemon)]),
      Entry("mutagen", None, [VersionAtLeast("mutagen", "0.13.0")]),
      Entry("gcloud", None, [
        VersionAtLeast("gcloud", "379.0.0"),
        NoArgs(CheckConfigureDocker),
        NoArgs(CheckApplicationCredentials),
        NoArgs(CheckCloudResourceManagerEnabled)])
    ]
  }

  /** One check a run performs: the existence probe of a tool or an extra. */
  datatype Step = ExistenceCheck(tool: string) | ExtraCheck(call: Invocation)

  function ExtraSteps(extras: seq<Invocation>): seq<Step> {
    seq(|extras|, j requires 0 <= j < |extras| => ExtraCheck(extras[j]))
  }

  /** The checks of one entry, in order: the existence probe if the entry
      applies on this platform, then every extra in list order, whether or not
      it applies. */
  function EntrySteps(e: Entry): seq<Step> {
    (if Applies(e) then [ExistenceCheck(e.tool)] else []) + ExtraSteps(e.extras)
  }

  /** An entry's steps: the existence probe first exactly when the entry
      applies, then one step per extra, in list order. */
  lemma EntryStepsShape(e: Entry)
    ensures |EntrySteps(e)| == (if Applies(e) then 1 else 0) + |e.extras|
    ensures Applies(e) ==> EntrySteps(e)[0] == ExistenceCheck(e.tool)
    ensures forall j :: 0 <= j < |e.extras| ==>
              EntrySteps(e)[(if Applies(e) then 1 else 0) + j] == ExtraCheck(e.extras[j])
  {
  }

  /** Every check a run performs, in order, if none raises. */
  function Plan(entries: seq<Entry>): seq<Step> {
    if |entries| == 0 then [] else EntrySteps(entries[0]) + Plan(entries[1..])
  }

  /** One check, run against the host. */
  function ExecuteStep(step: Step, host: Host): Result<Row, PyError> {
    match step
    case ExistenceCheck(tool) => CommandExists(tool, host)
    case ExtraCheck(call) => Invoke(call, host)
  }

  /** The checks as one function of the step, for a given host. */
  function Checker(host: Host): Step -> Result<Row, PyError> {
    step => ExecuteStep(step, host)
  }

  /** The rows a run adds, and the exception that ended it, if any. */
  datatype Report = Report(rows: seq<Row>, failure: Option<PyError>)

  /** One more check: nothing happens once an exception has been raised;
      otherwise its row is added, or its exception ends the run. */
  function Absorb(done: Report, outcome: Result<Row, PyError>): Report {
    if done.failure.Some? then done
    else match outcome
      case Ok(row) => Report(done.rows + [row], None)
      case Err(e) => Report(done.rows, Some(e))
  }

  /** Absorbing an outcome keeps the rows so far and adds at most the
      outcome's row; the run goes on exactly while no exception has been
      raised, and after one nothing changes. */
  lemma AbsorbKeepsRows(done: Report, outcome: Result<Row, PyError>)
    ensures var r := Absorb(done, outcome);
      && (done.failure.Some? ==> r == done)
      && |done.rows| <= |r.rows| <= |done.rows| + 1 && r.rows[..|done.rows|] == done.rows
      && (r.failure.None? <==> done.failure.None? && outcome.Ok?)
      && (|r.rows| > |done.rows| ==> outcome.Ok? && r.rows[|done.rows|] == outcome.value)
      && (done.failure.None? && outcome.Err? ==> r.failure == Some(outcome.error))
  {
  }

  /** The steps run in order by `check`, their outcomes absorbed from an
      empty table. */
  function Fold(steps: seq<Step>, check: Step -> Result<Row, PyError>): (r: Report)
    ensures |r.rows| <= |steps|
    ensures r.failure.None? ==> |r.rows| == |steps|
    decreases |steps|
  {
    if |steps| == 0 then Report([], None)
    else Absorb(Fold(steps[..|steps| - 1], check), check(steps[|steps| - 1]))
  }

  /** Runs the steps in order; the first exception stops the run. */
  function Execute(steps: seq<Step>, host: Host): (r: Report)
    ensures r.failure.None? ==> |r.rows| == |steps|
    ensures r.failure.Some? ==> |r.rows| < |steps| && ExecuteStep(steps[|r.rows|], host) == Err(r.failure.value)
    ensures forall k :: 0 <= k < |r.rows| ==> ExecuteStep(steps[k], host) == Ok(r.rows[k])
  {
    FoldOutcomes(steps, Checker(host));
    Fold(steps, Checker(host))
  }

  // ---------------------------------------------------------------------
  // The run itself.
  // ---------------------------------------------------------------------

  const REPORT_COLUMNS := [
    Column("Target", Left), Column("Condition", Left), Column("Result", Left), Column("Details", Left)
  ]

  /** `run()`: creates the "Doctor result" table with its four columns and
      fills it by walking the registry. */
  method Run(host: Host) returns (table: Table<Row>, failure: Option<PyError>)
    ensures fresh(table)
    ensures table.frame == Titled("Doctor result") && table.columns == REPORT_COLUMNS
    ensures Report(table.rows, failure) == Execute(Plan(Registry(Constants.IsMacos(host.system))), host)
  {
    table := new Table(Titled("Doctor result"));
    table.AddColumn(Column("Target", Left));
    table.AddColumn(Column("Condition", Left));
    table.AddColumn(Column("Result", Left));
    table.AddColumn(Column("Details", Left));
    failure := Walk(table, Registry(Constants.IsMacos(host.system)), Checker(host));
  }

  /** The loop of `run()`: for each entry in order, the existence row when
      the tool applies on this platform, then one row per extra check, each
      obtained from `check` (for a run, `Checker(host)`: `command_exists(tool)`
      and `func(*args) if args else func()`). The rows are exactly those the
      fold of the plan's outcomes gives, and so is the exception that ends the
      walk early, if any. */
  method Walk(table: Table<Row>, entries: seq<Entry>, check: Step -> Result<Row, PyError>)
    returns (failure: Option<PyError>)
    requires table.rows == []
    modifies table
    ensures table.columns == old(table.columns)
    ensures Report(table.rows, failure) == Fold(Plan(entries), check)
  {
    ghost var done: seq<Step> := [];
    var i := 0;
    while i < |entries|
      invariant 0 <= i <= |entries|
      invariant table.columns == old(table.columns)
      invariant done + Plan(entries[i..]) == Plan(entries)
      invariant Fold(done, check) == Report(table.rows, None)
    {
      PlanUnroll(entries, i);
      ghost var rest := Plan(entries[i + 1..]);
      Regroup(done, EntrySteps(entries[i]), rest, []);
      failure, done := VisitEntry(table, entries[i], check, done, rest);
      if failure.Some? {
        return;
      }
      i := i + 1;
    }
    assert entries[i..] == [];
    assert done == done + [] == Plan(entries);
    failure := None;
  }

  /** One iteration of the loop of `run()`: the existence row when the tool
      applies on this platform, then its extra checks. `done` are the steps
      already run and `rest` the steps planned after this entry. */
  method VisitEntry(table: Table<Row>, entry: Entry, check: Step -> Result<Row, PyError>,
                    ghost done: seq<Step>, ghost rest: seq<Step>)
    returns (failure: Option<PyError>, ghost done': seq<Step>)
    requires Fold(done, check) == Report(table.rows, None)
    modifies table
    ensures table.columns == old(table.columns)
    ensures failure.None? ==> done' == done + EntrySteps(entry)
    ensures failure.None? ==> Fold(done', check) == Report(table.rows, None)
    ensures failure.Some? ==> Fold(done + EntrySteps(entry) + rest, check) == Report(table.rows, failure)
  {
    done' := done;
    ghost var extras := ExtraSteps(entry.extras);
    ghost var start := done;
    if entry.platform.None? || entry.platform.value {
      var result := check(ExistenceCheck(entry.tool));
      FoldSnoc(done, ExistenceCheck(entry.tool), check);
      done' := done + [ExistenceCheck(entry.tool)];
      start := done';
      Regroup(done, [ExistenceCheck(entry.tool)], extras, rest);
      if result.Err? {
        failure := Some(result.error);
        Finish(done', extras + rest, check);
        assert EntrySteps(entry) == [ExistenceCheck(entry.tool)] + extras;
        return;
      }
      table.AddRow(result.value);
    } else {
      assert EntrySteps(entry) == extras;
    }
    failure, done' := VisitExtras(table, entry.extras, check, start, rest);
  }

  /** The inner loop of `run()`: `func(*args) if args else func()` for each
      extra check in order, one row each. */
  method VisitExtras(table: Table<Row>, extras: seq<Invocation>, check: Step -> Result<Row, PyError>,
                     ghost done: seq<Step>, ghost rest: seq<Step>)
    returns (failure: Option<PyError>, ghost done': seq<Step>)
    requires Fold(done, check) == Report(table.rows, None)
    modifies table
    ensures table.columns == old(table.columns)
    ensures failure.None? ==> done' == done + ExtraSteps(extras)
    ensures failure.None? ==> Fold(done', check) == Report(table.rows, None)
    ensures failure.Some? ==> Fold(done + ExtraSteps(extras) + rest, check) == Report(table.rows, failure)
  {
    done' := done;
    var j := 0;
    while j < |extras|
      invariant 0 <= j <= |extras|
      invariant table.columns == old(table.columns)
      invariant done' == done + ExtraSteps(extras[..j])
      invariant Fold(done', check) == Report(table.rows, None)
    {
      var result := check(ExtraCheck(extras[j]));
      FoldSnoc(done', ExtraCheck(extras[j]), check);
      ExtraStepsSplit(extras, j);
      done' := done' + [ExtraCheck(extras[j])];
      if result.Err? {
        failure := Some(result.error);
        assert done + ExtraSteps(extras) + rest == done' + (ExtraSteps(extras[j + 1..]) + rest);
        Finish(done', ExtraSteps(extras[j + 1..]) + rest, check);
        return;
      }
      table.AddRow(result.value);
      j := j + 1;
    }
    assert extras[..j] == extras;
    failure := None;
  }

  // ---------------------------------------------------------------------
  // Lemmas about plans and their execution.
  // ---------------------------------------------------------------------

  /** The plan of the entries from `i` on starts with entry `i`'s steps. */
  lemma PlanUnroll(entries: seq<Entry>, i: nat)
    requires i < |entries|
    ensures Plan(entries[i..]) == EntrySteps(entries[i]) + Plan(entries[i + 1..])
  {
    assert entries[i..][1..] == entries[i + 1..];
  }

  /** The extras up to `j` inclusive, and from `j` on. */
  lemma ExtraStepsSplit(extras: seq<Invocation>, j: nat)
    requires j < |extras|
    ensures ExtraSteps(extras[..j + 1]) == ExtraSteps(extras[..j]) + [ExtraCheck(extras[j])]
    ensures ExtraSteps(extras) == ExtraSteps(extras[..j + 1]) + ExtraSteps(extras[j + 1..])
  {
  }

  /** Running one more step absorbs its outcome. */
  lemma FoldSnoc(done: seq<Step>, step: Step, check: Step -> Result<Row, PyError>)
    ensures Fold(done + [step], check) == Absorb(Fold(done, check), check(step))
  {
    var s := done + [step];
    assert s[..|s| - 1] == done;
  }

  lemma Regroup(a: seq<Step>, b: seq<Step>, c: seq<Step>, d: seq<Step>)
    ensures a + (b + c) == (a + b) + c
    ensures a + (b + c) + d == (a + b) + (c + d)
  {
  }

  /** Once a step has raised, the steps still pending change nothing. */
  lemma Finish(done: seq<Step>, todo: seq<Step>, check: Step -> Result<Row, PyError>)
    requires Fold(done, check).failure.Some?
    ensures Fold(done + todo, check) == Fold(done, check)
  {
    FoldAfterFailure(done, todo, check);
  }

  /** Once a check has raised, later outcomes change nothing. */
  lemma {:induction false} FoldAfterFailure(s: seq<Step>, t: seq<Step>, check: Step -> Result<Row, PyError>)
    requires Fold(s, check).failure.Some?
    ensures Fold(s + t, check) == Fold(s, check)
    decreases |t|
  {
    if |t| == 0 {
      assert s + t == s;
    } else {
      var u := s + t;
      assert u[..|u| - 1] == s + t[..|t| - 1];
      FoldAfterFailure(s, t[..|t| - 1], check);
    }
  }

  /** The plan of a concatenation is the concatenation of the plans. */
  lemma {:induction false} PlanAppend(a: seq<Entry>, b: seq<Entry>)
    ensures Plan(a + b) == Plan(a) + Plan(b)
    decreases |a|
  {
    if |a| == 0 {
      assert a + b == b;
    } else {
      assert (a + b)[0] == a[0];
      assert (a + b)[1..] == a[1..] + b;
      PlanAppend(a[1..], b);
    }
  }

  /** Registry order is run order: the plan is the plan of the entries before
      `k`, then entry `k`'s steps, then the plan of the entries after it. */
  lemma PlanAround(entries: seq<Entry>, k: nat)
    requires k < |entries|
    ensures Plan(entries) == Plan(entries[..k]) + EntrySteps(entries[k]) + Plan(entries[k + 1..])
  {
    SplitAt(entries, k + 1);
    PlanAppend(entries[..k + 1], entries[k + 1..]);
    PlanPrefix(entries, k);
  }

  lemma SplitAt<T>(s: seq<T>, i: nat)
    requires i <= |s|
    ensures s[..i] + s[i..] == s
  {
  }

  lemma PlanPrefix(entries: seq<Entry>, i: nat)
    requires i < |entries|
    ensures Plan(entries[..i + 1]) == Plan(entries[..i]) + EntrySteps(entries[i])
  {
    assert entries[..i + 1] == entries[..i] + [entries[i]];
    PlanAppend(entries[..i], [entries[i]]);
    assert Plan([entries[i]]) == EntrySteps(entries[i]) + Plan([]);
  }

  /** Each row of a run is the row of the step at its position, and an
      exception that ends the run is the one raised by the step just after
      the last row. */
  lemma {:induction false} FoldOutcomes(steps: seq<Step>, check: Step -> Result<Row, PyError>)
    ensures forall k :: 0 <= k < |Fold(steps, check).rows| ==> check(steps[k]) == Ok(Fold(steps, check).rows[k])
    ensures Fold(steps, check).failure.Some? ==>
              |Fold(steps, check).rows| < |steps|
              && check(steps[|Fold(steps, check).rows|]) == Err(Fold(steps, check).failure.value)
    decreases |steps|
  {
    if |steps| > 0 {
      var init := steps[..|steps| - 1];
      FoldOutcomes(init, check);
      var before := Fold(init, check);
      assert forall k :: 0 <= k < |before.rows| ==> steps[k] == init[k];
    }
  }

  /** When no check raises, the run adds exactly one row per step, each
      the row that step's check produced, in order. */
  lemma {:induction false} FoldAllSucceed(steps: seq<Step>, check: Step -> Result<Row, PyError>)
    requires forall k :: 0 <= k < |steps| ==> check(steps[k]).Ok?
    ensures Fold(steps, check).failure.None?
    ensures |Fold(steps, check).rows| == |steps|
    ensures forall k :: 0 <= k < |steps| ==> Fold(steps, check).rows[k] == check(steps[k]).value
    decreases |steps|
  {
    if |steps| > 0 {
      FoldAllSucceed(steps[..|steps| - 1], check);
    }
  }

  /** When step `k` is the first to raise, the run keeps the rows of the
      steps before it and ends with its exception: the remaining checks
      never run. */
  lemma {:induction false} FoldFirstFailure(steps: seq<Step>, k: nat, check: Step -> Result<Row, PyError>)
    requires k < |steps|
    requires forall j :: 0 <= j < k ==> check(steps[j]).Ok?
    requires check(steps[k]).Err?
    ensures Fold(steps, check).failure == Some(check(steps[k]).error)
    ensures |Fold(steps, check).rows| == k
    ensures forall j :: 0 <= j < k ==> Fold(steps, check).rows[j] == check(steps[j]).value
    decreases |steps|
  {
    if k == |steps| - 1 {
      FoldAllSucceed(steps[..k], check);
    } else {
      FoldFirstFailure(steps[..|steps| - 1], k, check);
    }
  }

  /** The number of entries that get an existence row. */
  function ApplicableCount(entries: seq<Entry>): nat {
    if |entries| == 0 then 0 else (if Applies(entries[0]) then 1 else 0) + ApplicableCount(entries[1..])
  }

  /** The total length of the entries' extra lists. */
  function ExtrasCount(entries: seq<Entry>): nat {
    if |entries| == 0 then 0 else |entries[0].extras| + ExtrasCount(entries[1..])
  }

  /** A run without exceptions has one row per applicable tool plus one per extra check. */
  lemma {:induction false} PlanLength(entries: seq<Entry>)
    ensures |Plan(entries)| == ApplicableCount(entries) + ExtrasCount(entries)
  {
    if |entries| > 0 {
      PlanLength(entries[1..]);
    }
  }

  /** A tool's existence probe is planned exactly when some entry for it
      applies on this platform. */
  lemma {:induction false} ExistencePlannedIff(entries: seq<Entry>, tool: string)
    ensures ExistenceCheck(tool) in Plan(entries) <==>
            exists k :: 0 <= k < |entries| && entries[k].tool == tool && Applies(entries[k])
  {
    if |entries| > 0 {
      ExistencePlannedIff(entries[1..], tool);
      var head := EntrySteps(entries[0]);
      assert ExistenceCheck(tool) in head <==> Applies(entries[0]) && entries[0].tool == tool;
      if exists k :: 1 <= k < |entries| && entries[k].tool == tool && Applies(entries[k]) {
        var k :| 1 <= k < |entries| && entries[k].tool == tool && Applies(entries[k]);
        assert entries[1..][k - 1] == entries[k];
      }
      if exists k :: 0 <= k < |entries| - 1 && entries[1..][k].tool == tool && Applies(entries[1..][k]) {
        var k :| 0 <= k < |entries| - 1 && entries[1..][k].tool == tool && Applies(entries[1..][k]);
        assert entries[k + 1] == entries[1..][k];
      }
    }
  }

  /** Every extra check is planned, whether or not its tool applies on this
      platform: the extras are not nested under the platform test. */
  lemma ExtrasAlwaysPlanned(entries: seq<Entry>, k: nat, j: nat)
    requires k < |entries| && j < |entries[k].extras|
    ensures ExtraCheck(entries[k].extras[j]) in Plan(entries)
  {
    PlanAround(entries, k);
    var steps := EntrySteps(entries[k]);
    assert steps[|steps| - |entries[k].extras| + j] == ExtraCheck(entries[k].extras[j]);
  }

  /** Off macOS the run performs exactly the macOS checks minus the first
      two, the existence probes of `xcode-select` and `brew`. */
  lemma PlatformGating()
    ensures Plan(Registry(true))[..2] == [ExistenceCheck("xcode-select"), ExistenceCheck("brew")]
    ensures Plan(Registry(false)) == Plan(Registry(true))[2..]
  {
    GatedPlans(PlatformEntries(true), PlatformEntries(false), SharedEntries());
  }

  /** Two gated pairs that differ only in their flag, before the same entries. */
  lemma GatedPlans(on: seq<Entry>, off: seq<Entry>, shared: seq<Entry>)
    requires |on| == 2 && on[0].platform == Some(true) && on[1].platform == Some(true)
    requires on[0].extras == [] && on[1].extras == []
    requires |off| == 2 && off[0].platform == Some(false) && off[1].platform == Some(false)
    requires off[0].extras == [] && off[1].extras == []
    ensures |Plan(on + shared)| >= 2
    ensures Plan(on + shared)[..2] == [ExistenceCheck(on[0].tool), ExistenceCheck(on[1].tool)]
    ensures Plan(off + shared) == Plan(on + shared)[2..]
  {
    GatedPlanOn(on, shared);
    GatedPlanOff(off, shared);
    assert Plan(on + shared)[2..] == Plan(shared);
  }

  lemma GatedPlanOn(on: seq<Entry>, shared: seq<Entry>)
    requires |on| == 2 && on[0].platform == Some(true) && on[1].platform == Some(true)
    requires on[0].extras == [] && on[1].extras == []
    ensures Plan(on + shared) == [ExistenceCheck(on[0].tool), ExistenceCheck(on[1].tool)] + Plan(shared)
  {
    PlanAppend(on, shared);
    GatedPair(on, true);
  }

  lemma GatedPlanOff(off: seq<Entry>, shared: seq<Entry>)
    requires |off| == 2 && off[0].platform == Some(false) && off[1].platform == Some(false)
    requires off[0].extras == [] && off[1].extras == []
    ensures Plan(off + shared) == Plan(shared)
  {
    PlanAppend(off, shared);
    GatedPair(off, false);
  }

  /** Two entries with a platform flag and no extras plan their two
      existence probes exactly when the flag is set. */
  lemma GatedPair(pair: seq<Entry>, flag: bool)
    requires |pair| == 2 && pair[0].platform == Some(flag) && pair[1].platform == Some(flag)
    requires pair[0].extras == [] && pair[1].extras == []
    ensures Plan(pair) == (if flag then [ExistenceCheck(pair[0].tool), ExistenceCheck(pair[1].tool)] else [])
  {
    var a, b := pair[0], pair[1];
    assert ExtraSteps([]) == [];
    assert EntrySteps(a) == (if flag then [ExistenceCheck(a.tool)] else []);
    assert EntrySteps(b) == (if flag then [ExistenceCheck(b.tool)] else []);
    assert pair[1..] == [b] && [b][1..] == [];
    assert Plan([b]) == EntrySteps(b);
  }

  /** The ten entries every platform shares each get an existence probe. */
  lemma SharedEntriesApply()
    ensures ApplicableCount(SharedEntries()) == 10
  {
    var r := SharedEntries();
    assert r[10..] == [];
    assert r[9..][1..] == r[10..];
    assert ApplicableCount(r[9..]) == 1;
    assert r[8..][1..] == r[9..];
    assert ApplicableCount(r[8..]) == 2;
    assert r[7..][1..] == r[8..];
    assert ApplicableCount(r[7..]) == 3;
    assert r[6..][1..] == r[7..];
    assert ApplicableCount(r[6..]) == 4;
    assert r[5..][1..] == r[6..];
    assert ApplicableCount(r[5..]) == 5;
    assert r[4..][1..] == r[5..];
    assert ApplicableCount(r[4..]) == 6;
    assert r[3..][1..] == r[4..];
    assert ApplicableCount(r[3..]) == 7;
    assert r[2..][1..] == r[3..];
    assert ApplicableCount(r[2..]) == 8;
    assert r[1..][1..] == r[2..];
    assert ApplicableCount(r[1..]) == 9;
    assert r[0..][1..] == r[1..];
    assert ApplicableCount(r[0..]) == 10;
    assert r[0..] == r;
  }

  /** The registry lists 11 extra checks, all among the shared entries. */
  lemma SharedEntriesExtras()
    ensures ExtrasCount(SharedEntries()) == 11
  {
    var r := SharedEntries();
    assert r[10..] == [];
    assert r[9..][1..] == r[10..];
    assert ExtrasCount(r[9..]) == 4;
    assert r[8..][1..] == r[9..];
    assert ExtrasCount(r[8..]) == 5;
    assert r[7..][1..] == r[8..];
    assert ExtrasCount(r[7..]) == 8;
    assert r[6..][1..] == r[7..];
    assert ExtrasCount(r[6..]) == 10;
    assert r[5..][1..] == r[6..];
    assert ExtrasCount(r[5..]) == 10;
    assert r[4..][1..] == r[5..];
    assert ExtrasCount(r[4..]) == 10;
    assert r[3..][1..] == r[4..];
    assert ExtrasCount(r[3..]) == 10;
    assert r[2..][1..] == r[3..];
    assert ExtrasCount(r[2..]) == 10;
    assert r[1..][1..] == r[2..];
    assert ExtrasCount(r[1..]) == 11;
    assert r[0..][1..] == r[1..];
    assert ExtrasCount(r[0..]) == 11;
    assert r[0..] == r;
  }

  lemma {:induction false} CountsAppend(a: seq<Entry>, b: seq<Entry>)
    ensures ApplicableCount(a + b) == ApplicableCount(a) + ApplicableCount(b)
    ensures ExtrasCount(a + b) == ExtrasCount(a) + ExtrasCount(b)
    decreases |a|
  {
    if |a| == 0 {
      assert a + b == b;
    } else {
      assert (a + b)[0] == a[0];
      assert (a + b)[1..] == a[1..] + b;
      CountsAppend(a[1..], b);
    }
  }

  /** The registry has 12 entries, 10 of them for every platform, and 11
      extra checks. */
  lemma RegistryCounts(macos: bool)
    ensures ApplicableCount(Registry(macos)) == (if macos then 12 else 10)
    ensures ExtrasCount(Registry(macos)) == 11
  {
    SharedEntriesApply();
    SharedEntriesExtras();
    PairThenRestCounts(PlatformEntries(macos), SharedEntries(), macos);
  }

  /** Two gated entries without extras ahead of entries with known counts. */
  lemma PairThenRestCounts(pair: seq<Entry>, rest: seq<Entry>, flag: bool)
    requires |pair| == 2 && forall k :: 0 <= k < 2 ==> pair[k].platform == Some(flag) && pair[k].extras == []
    requires ApplicableCount(rest) == 10 && ExtrasCount(rest) == 11
    ensures ApplicableCount(pair + rest) == (if flag then 12 else 10)
    ensures ExtrasCount(pair + rest) == 11
  {
    GatedPairCounts(pair, flag);
    CountsAppend(pair, rest);
  }

  /** Two entries gated on the same flag, without extras. */
  lemma GatedPairCounts(pair: seq<Entry>, flag: bool)
    requires |pair| == 2 && pair[0].platform == Some(flag) && pair[1].platform == Some(flag)
    requires pair[0].extras == [] && pair[1].extras == []
    ensures ApplicableCount(pair) == (if flag then 2 else 0)
    ensures ExtrasCount(pair) == 0
  {
    assert pair[1..][0] == pair[1];
    assert pair[1..][1..] == [];
    assert ApplicableCount(pair[1..]) == (if flag then 1 else 0);
    assert ExtrasCount(pair[1..]) == 0;
  }

  /** A run without exceptions adds 23 rows on macOS and 21 elsewhere. */
  lemma RegistryPlanLength(macos: bool)
    ensures |Plan(Registry(macos))| == (if macos then 23 else 21)
  {
    PlanLength(Registry(macos));
    RegistryCounts(macos);
  }

  /** An extra the registry can call without a `TypeError` or `KeyError`:
      either a check that takes no argument, called with none, or
      `version_satisfied` with a tool that has a version pipeline and a
      minimum that parses. */
  predicate WellFormed(call: Invocation) {
    if call.func == VersionSatisfiedFunc then
      && call.args.Some? && |call.args.value| == 2
      && call.args.value[0] in VERSION_COMMAND_MAPPING
      && Versions.Parse(call.args.value[1]).Ok?
    else call.args.None?
  }

  /** A well-formed extra only fails because of what it observes: a command
      that exits non-zero, a version string that does not parse, or a
      configuration file that does not decode. */
  lemma WellFormedFailsOnlyOnObservation(call: Invocation, host: Host)
    requires WellFormed(call)
    ensures var r := Invoke(call, host);
      r.Err? ==> r.error.CalledProcessError? || r.error.InvalidVersion? || r.error == JsonDecodeError
    ensures var r := Invoke(call, host);
      r.Err? && r.error.InvalidVersion? ==>
        && call.func == VersionSatisfiedFunc
        && CurrentVersion(call.args.value[0], host).Ok?
        && r.error == InvalidVersion(CurrentVersion(call.args.value[0], host).value)
  {
    if call.func == VersionSatisfiedFunc {
      var command, required := call.args.value[0], call.args.value[1];
      var current := CurrentVersion(command, host);
      if current.Ok? && Versions.Parse(current.value).Err? {
        if current.value == required {
          assert false;
        }
      }
    }
  }

  /** Every extra of an entry is well formed. */
  predicate ExtrasWellFormed(e: Entry) {
    forall j :: 0 <= j < |e.extras| ==> WellFormed(e.extras[j])
  }

  /** Every extra the registry lists is well formed: each version check
      names a tool with a version pipeline and a minimum that parses, and
      every other check is called with no argument. So a run can only end
      early because of what the host reports. */
  lemma RegistryExtrasWellFormed(macos: bool)
    ensures forall k, j | 0 <= k < |Registry(macos)| && 0 <= j < |Registry(macos)[k].extras| ::
              WellFormed(Registry(macos)[k].extras[j])
  {
    SharedExtrasWellFormed();
    var r := Registry(macos);
    forall k, j | 0 <= k < |r| && 0 <= j < |r[k].extras|
      ensures WellFormed(r[k].extras[j])
    {
      assert r[k] == SharedEntries()[k - 2];
      assert ExtrasWellFormed(SharedEntries()[k - 2]);
    }
  }

  /** The extras of the ten shared entries, entry by entry. */
  lemma SharedExtrasWellFormed()
    ensures forall i :: 0 <= i < |SharedEntries()| ==> ExtrasWellFormed(SharedEntries()[i])
  {
    var r := SharedEntries();
    assert ExtrasWellFormed(r[0]) && ExtrasWellFormed(r[1]) && ExtrasWellFormed(r[2]);
    assert ExtrasWellFormed(r[3]) && ExtrasWellFormed(r[4]) && ExtrasWellFormed(r[5]);
    SharedExtrasWellFormedAt(6);
    SharedExtrasWellFormedAt(7);
    SharedExtrasWellFormedAt(8);
    SharedExtrasWellFormedAt(9);
  }

  lemma SharedExtrasWellFormedAt(i: nat)
    requires 6 <= i < 10
    ensures ExtrasWellFormed(SharedEntries()[i])
  {
    if i == 6 {
      GhExtrasWellFormed();
    } else if i == 7 {
      DockerExtrasWellFormed();
    } else if i == 8 {
      MutagenExtrasWellFormed();
    } else {
      GcloudExtrasWellFormed();
    }
  }

  lemma GhExtrasWellFormed()
    ensures ExtrasWellFormed(SharedEntries()[6])
  {
    GhMinimumParses();
    VersionCheckWellFormed("gh", "2.0.0", [2, 0, 0]);
    var e := SharedEntries()[6];
    assert e.extras == [VersionAtLeast("gh", "2.0.0"), NoArgs(CheckGhAuthLogin)];
    ExtrasOfTwo(e, e.extras[0], e.extras[1]);
  }

  lemma DockerExtrasWellFormed()
    ensures ExtrasWellFormed(SharedEntries()[7])
  {
    var e := SharedEntries()[7];
    assert e.extras == [VersionAtLeast("docker", "20.10.7"), VersionAtLeast("docker compose", "1.29.2"),
                        NoArgs(CheckDockerDaemon)];
    DockerVersionWellFormed();
    ComposeVersionWellFormed();
    ExtrasOfThree(e, e.extras[0], e.extras[1], e.extras[2]);
  }

  lemma DockerVersionWellFormed()
    ensures WellFormed(VersionAtLeast("docker", "20.10.7"))
  {
    DockerMinimumParses();
    VersionCheckWellFormed("docker", "20.10.7", [20, 10, 7]);
  }

  lemma ComposeVersionWellFormed()
    ensures WellFormed(VersionAtLeast("docker compose", "1.29.2"))
  {
    ComposeMinimumParses();
    VersionCheckWellFormed("docker compose", "1.29.2", [1, 29, 2]);
  }

  lemma MutagenExtrasWellFormed()
    ensures ExtrasWellFormed(SharedEntries()[8])
  {
    MutagenMinimumParses();
    VersionCheckWellFormed("mutagen", "0.13.0", [0, 13, 0]);
    var e := SharedEntries()[8];
    assert e.extras == [VersionAtLeast("mutagen", "0.13.0")];
    ExtrasOfOne(e, e.extras[0]);
  }

  lemma GcloudExtrasWellFormed()
    ensures ExtrasWellFormed(SharedEntries()[9])
  {
    GcloudMinimumParses();
    VersionCheckWellFormed("gcloud", "379.0.0", [379, 0, 0]);
    var e := SharedEntries()[9];
    assert e.extras == [VersionAtLeast("gcloud", "379.0.0"), NoArgs(CheckConfigureDocker),
                        NoArgs(CheckApplicationCredentials), NoArgs(CheckCloudResourceManagerEnabled)];
    ExtrasOfFour(e, e.extras[0], e.extras[1], e.extras[2], e.extras[3]);
  }

  lemma ExtrasOfOne(e: Entry, a: Invocation)
    requires e.extras == [a] && WellFormed(a)
    ensures ExtrasWellFormed(e)
  {
  }

  lemma ExtrasOfTwo(e: Entry, a: Invocation, b: Invocation)
    requires e.extras == [a, b] && WellFormed(a) && WellFormed(b)
    ensures ExtrasWellFormed(e)
  {
  }

  lemma ExtrasOfThree(e: Entry, a: Invocation, b: Invocation, c: Invocation)
    requires e.extras == [a, b, c] && WellFormed(a) && WellFormed(b) && WellFormed(c)
    ensures ExtrasWellFormed(e)
  {
  }

  lemma ExtrasOfFour(e: Entry, a: Invocation, b: Invocation, c: Invocation, d: Invocation)
    requires e.extras == [a, b, c, d] && WellFormed(a) && WellFormed(b) && WellFormed(c) && WellFormed(d)
    ensures ExtrasWellFormed(e)
  {
  }

  lemma VersionCheckWellFormed(command: string, minimum: string, release: Versions.Release)
    requires command in VERSION_COMMAND_MAPPING && Versions.Parse(minimum) == Ok(release)
    ensures WellFormed(VersionAtLeast(command, minimum))
  {
  }

  /** The five minimum versions of the registry parse to the releases they spell. */
  lemma RequiredMinimumsParse()
    ensures Versions.Parse("2.0.0") == Ok([2, 0, 0])
    ensures Versions.Parse("20.10.7") == Ok([20, 10, 7])
    ensures Versions.Parse("1.29.2") == Ok([1, 29, 2])
    ensures Versions.Parse("0.13.0") == Ok([0, 13, 0])
    ensures Versions.Parse("379.0.0") == Ok([379, 0, 0])
  {
    GhMinimumParses();
    DockerMinimumParses();
    ComposeMinimumParses();
    MutagenMinimumParses();
    GcloudMinimumParses();
  }

  lemma GhMinimumParses()
    ensures Versions.Parse("2.0.0") == Ok([2, 0, 0])
  {
    Versions.ParseThree(2, 0, 0, "2", "0", "0");
    assert "2" + "." + "0" + "." + "0" == "2.0.0";
  }

  lemma DockerMinimumParses()
    ensures Versions.Parse("20.10.7") == Ok([20, 10, 7])
  {
    assert Decimal.NatToString(20) == "20" && Decimal.NatToString(10) == "10";
    Versions.ParseThree(20, 10, 7, "20", "10", "7");
    assert "20" + "." + "10" + "." + "7" == "20.10.7";
  }

  lemma ComposeMinimumParses()
    ensures Versions.Parse("1.29.2") == Ok([1, 29, 2])
  {
    assert Decimal.NatToString(29) == "29";
    Versions.ParseThree(1, 29, 2, "1", "29", "2");
    assert "1" + "." + "29" + "." + "2" == "1.29.2";
  }

  lemma MutagenMinimumParses()
    ensures Versions.Parse("0.13.0") == Ok([0, 13, 0])
  {
    assert Decimal.NatToString(13) == "13";
    Versions.ParseThree(0, 13, 0, "0", "13", "0");
    assert "0" + "." + "13" + "." + "0" == "0.13.0";
  }

  lemma GcloudMinimumParses()
    ensures Versions.Parse("379.0.0") == Ok([379, 0, 0])
  {
    assert Decimal.NatToString(37) == "37" && Decimal.NatToString(379) == "379";
    Versions.ParseThree(379, 0, 0, "379", "0", "0");
    assert "379" + "." + "0" + "." + "0" == "379.0.0";
  }

  // ---------------------------------------------------------------------
  // Scenarios.
  // ---------------------------------------------------------------------

  /** A tool that `command -v` does not find gets a failing row with an empty detail. */
  lemma MissingToolRow(probe: Completed)
    requires probe.returncode != 0
    ensures CommandExistsRow("jq", probe) == Row("jq", INSTALLED, Fail, "")
  {
  }

  /** A version equal to the requirement passes; one below it fails. */
  lemma VersionBoundary(command: string, required: string, current: string)
    requires Versions.Parse(required).Ok? && Versions.Parse(current).Ok?
    ensures VersionSatisfiedRow(command, required, required).Ok?
    ensures VersionSatisfiedRow(command, required, required).value.verdict == Success
    ensures Versions.Compare(Versions.Parse(current).value, Versions.Parse(required).value) < 0 ==>
              VersionSatisfiedRow(command, required, current).value.verdict == Fail
  {
    Versions.CompareReflexive(Versions.Parse(required).value);
  }

  /** SSH passes exactly when the success phrase occurs anywhere in standard
      error: stripping cannot cut into a phrase with no white space at its ends. */
  lemma SshVerdictIgnoresStripping(probe: Completed)
    ensures SshAccessRow(probe).verdict == Success <==> Contains(probe.stderr, SSH_SUCCESS_PHRASE)
  {
    ContainsStripped(probe.stderr, SSH_SUCCESS_PHRASE);
  }

  // ---------------------------------------------------------------------
  // The checks on a host the import initialised.
  // ---------------------------------------------------------------------

  /** With neither configuration file present the import fails: no check runs. */
  lemma NoConfigurationNoRun(system: string, run: seq<string> -> Result<Completed, PyError>,
                             shell: string -> Completed, fs: Paths.Path -> FileState,
                             env: map<string, string>, home: Paths.Path, resolve: string -> Paths.Path)
    ensures Startup(system, run, shell, fs, env, home, resolve, Constants.Missing, Constants.Missing)
         == Err(FileNotFoundError)
  {
  }

  /** With only a config.json, even one whose development list names a
      project, the import raises AttributeError("projectName"). */
  lemma ConfigOnlyImportFails(system: string, run: seq<string> -> Result<Completed, PyError>,
                              shell: string -> Completed, fs: Paths.Path -> FileState,
                              env: map<string, string>, home: Paths.Path, resolve: string -> Paths.Path)
    ensures var detail := Constants.ConfigGcpProjectDetail("my-project", "my-restricted", "asia-northeast1", true);
      var stage := Constants.ConfigGcpProjects([detail]);
      var config := Constants.ConfigJson(Some(Constants.ConfigGcp(stage, stage, stage)));
      Startup(system, run, shell, fs, env, home, resolve, Constants.Missing, Constants.Decoded(config))
        == Err(AttributeError("projectName"))
  {
    Constants.ProjectNameCounterexample();
  }

  /** On a host the import initialised from a decoded common.json, the
      credentials check reads root/gcloud/application_default_credentials.json
      under the configuration root, and its hint names the development
      project of common.json. */
  lemma InitializedCredentialsCheck(host: Host, env: map<string, string>, home: Paths.Path,
                                    resolve: string -> Paths.Path,
                                    c: Constants.CommonJson, config: Constants.Document<Constants.ConfigJson>)
    requires Initialized(host, env, home, resolve, Constants.Decoded(c), config)
    ensures var adc := host.layout.gcloudAdcJson;
      && adc.segments == Paths.DefaultConfigRoot(env, home, resolve).segments
                         + ["gcloud", "application_default_credentials.json"]
      && Invoke(NoArgs(CheckApplicationCredentials), host)
         == Ok(ApplicationCredentialsRow(host.fs(adc), adc, c.gcp.dev.project))
  {
  }

  /** On an initialised host the Docker registry check reads
      home/.docker/config.json. */
  lemma InitializedDockerCheck(host: Host, env: map<string, string>, home: Paths.Path,
                               resolve: string -> Paths.Path,
                               common: Constants.Document<Constants.CommonJson>,
                               config: Constants.Document<Constants.ConfigJson>)
    requires Initialized(host, env, home, resolve, common, config)
    ensures var docker := host.layout.dockerConfigJson;
      && docker.segments == home.segments + [".docker", "config.json"]
      && Invoke(NoArgs(CheckConfigureDocker), host) == ConfigureDockerRow(host.fs(docker), docker)
  {
  }
}
