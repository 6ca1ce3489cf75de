# Verified model of the `example` CLI's doctor, terminal UI, constants and paths

This project models, in Dafny, the deterministic core of the `example`
command-line tool:

- **`example doctor`** (`example/doctor.py`). A fixed, ordered registry of
  developer tools (`TOOL_TEST_CONFIG_MAPPING`) is walked in order.
  - Each tool gets an existence row when its `platform` flag is absent or
    true.
  - Each tool's extra checks then run in list order.
  - Every row goes into the four-column "Doctor result" table.
  - Each check is a verdict rule over one observation of the host: a return
    code, a captured output, a file, or a version string.
  - An exception raised by a check is not caught: it ends the run with the
    rows added so far.
- **The terminal UI helpers** (`example/termui.py`):
  - verbosity gating of `echo` and its `info`/`warn`/`deprecated`/`error`
    wrappers;
  - `set_verbosity` on the `UI` object;
  - header-prefix parsing and the column and row building of
    `display_columns`;
  - the spinner choice of `open_spinner` and the progress switch of
    `make_progress`;
  - `confirm` and `ask`.
- **Constants** (`example/constants.py`): the platform tests and the lookup
  of the personal Google Cloud project name. The lookup reads common.json
  first. As written, its config.json fallback reads the JSON key
  `projectName` on the decoded project detail, whose attribute is
  `project_name`, so it raises AttributeError (see "## Findings"). The rest
  of the model uses the corrected lookup, which reads `project_name`.
- **Paths** (`example/paths.py`): the configuration root (`XDG_CONFIG_HOME`
  or home/.config) and every path derived from it or from the home
  directory.

The host's answers are inputs, gathered in the `Doctor.Host` record:
- the result of running an argument vector and of running a shell command
  line;
- the state of each file;
- the platform name, the derived paths and the personal project name.

`Doctor.Startup` builds the host as importing the doctor module does: it
computes the paths from the environment and the home directory, and
`GCP_PROJECT_NAME` from the two configuration documents with the lookup as
written. When the lookup raises, the import fails and no check runs, which
is the case whenever common.json does not decode. `Doctor.Initialized`
states what a host built this way satisfies; it holds with the corrected
lookup too, since the two agree when common.json decodes.

`Doctor.Run` is an imperative method. It creates a `Tables.Table` and fills
it through the `Walk`/`VisitEntry`/`VisitExtras` loops. Its postcondition
says that the table's rows, and the exception that ended the run, are
exactly `Execute(Plan(Registry(macos)), host)`:
- `Plan` lists the checks a run performs, in order;
- `Execute` runs them left to right and stops at the first exception.

The lemmas about `Plan` and `Fold` then give:
- registry order;
- platform gating;
- extras that are not gated;
- the row count (23 on macOS, 21 elsewhere);
- the "first exception ends the run" behaviour.

Version comparison follows the release-segment ordering of PEP 440 ("Final
releases"): numeric component by component, with the shorter release padded
with zeros. `Versions.CompareIsTupleOrderOfCanonical` shows this padded
comparison equals the tuple comparison of the releases with their trailing
zeros removed.

## Model

| member | source | states |
|---|---|---|
| Doctor.CommandExistsRow | example/doctor.py:47-50 | subject is the tool and condition "installed" in both branches; success exactly when the probe exits 0, then detail is the stripped stdout; otherwise fail with an empty detail |
| Doctor.CommandExists | example/doctor.py:34-50 | runs `command -v tool` as an argument vector: an error from starting it is raised, otherwise the existence row of what it returned |
| Doctor.CheckOutput | example/doctor.py:56-61 | raises CalledProcessError(returncode) exactly when the command exits non-zero; otherwise the stripped output, which has no white space at either end |
| Doctor.CurrentVersion | example/doctor.py:64-76 | a tool without a version pipeline raises KeyError(tool); otherwise the result of running its pipeline through `execute_command` |
| Doctor.VersionSatisfied | example/doctor.py:79-98 | KeyError for a tool without a version pipeline; the error of fetching the current version is raised; otherwise the verdict row on the fetched text; the only errors are KeyError, CalledProcessError and InvalidVersion |
| Doctor.VersionSatisfiedRow | example/doctor.py:82-98 | raises InvalidVersion exactly when the current or the required text does not parse (the current one is parsed first); otherwise success exactly when parsed current >= parsed required, and both verdicts show "current >=required" |
| Doctor.SshAccessRow | example/doctor.py:113-117 | success exactly when the stripped stderr contains "You've successfully authenticated"; the detail is that stripped message in both branches |
| Doctor.GhAuthLoginRow | example/doctor.py:132-140 | fails exactly when stderr contains "You are not logged into any GitHub hosts.", with the login hint; otherwise success with an empty detail, whatever the return code |
| Doctor.DockerDaemonRow | example/doctor.py:146-166 | success exactly when the process probe exits 0; the daemon hint otherwise |
| Doctor.DaemonProbeCommand | example/doctor.py:146-149 | the probe is `pgrep com.docker.backend` on macOS and `pgrep -f dockerd` elsewhere |
| Doctor.ConfigureDockerRow | example/doctor.py:172-192 | fails with the configure-docker hint when the file is absent or `credHelpers` is missing or null; success with the file's path otherwise; an undecodable file raises JSONDecodeError |
| Doctor.ApplicationCredentialsRow | example/doctor.py:205-218 | success exactly when the credentials file exists, showing its path; otherwise the hint built around the project name |
| Doctor.ResourceManagerRow | example/doctor.py:240-248 | success exactly when the services pipeline exits 0; otherwise the enable-the-API hint built around the project name |
| Doctor.ResourceManagerNotEnabledMessage | example/doctor.py:221-223 | the enable-the-API hint contains the personal project name |
| Doctor.Invoke | example/doctor.py:339 | the argument tuple is unpacked when it is given and not empty; the function is called with no argument otherwise; the call raises TypeError exactly when `version_satisfied` does not get two arguments or another check gets any |
| Doctor.CallWithoutArgs | example/doctor.py:339 | `func()` raises TypeError exactly for `version_satisfied`; otherwise the only exception is JSONDecodeError from the Docker configuration check |
| Doctor.CallWithArgs | example/doctor.py:339 | `func(*args)` is `version_satisfied` of the two arguments when it gets exactly two; every other call raises TypeError |
| Doctor.Registry | example/doctor.py:255-294 | twelve entries; exactly the first two have a platform flag, which is `MACOS`, and they have no extras |
| Doctor.PlatformEntries | example/doctor.py:256-257 | xcode-select then brew, both flagged with `MACOS` and without extras |
| Doctor.SharedEntries | example/doctor.py:258-293 | the ten entries from make to gcloud, none with a platform flag |
| Doctor.AbsorbKeepsRows | example/doctor.py:333-339 | one more check keeps the rows so far and adds at most its own row; the run goes on exactly while no exception has been raised, its exception ends the run, and after one nothing changes |
| Doctor.Fold | example/doctor.py:327-339 | a run adds at most one row per step, and exactly one per step when no exception is raised |
| Doctor.FoldOutcomes | example/doctor.py:327-339 | each row is the row of the step at its position, and an exception that ends the run is the one raised by the step right after the last row |
| Doctor.Execute | example/doctor.py:327-339 | running the steps on the host: row k is the row of step k; without an exception every step adds its row; an exception is raised by the step right after the last row |
| Doctor.Run | example/doctor.py:314-339 | a fresh table titled "Doctor result" with the Target, Condition, Result and Details columns; its rows and the exception that ended the run are those of executing the registry's plan on this host |
| Doctor.Walk | example/doctor.py:327-339 | the loop over the registry adds exactly the rows the in-order fold of the plan gives, stops at the same exception, and leaves the columns unchanged |
| Doctor.VisitEntry | example/doctor.py:330-339 | one registry entry: the existence row when the entry applies, then its extras; the rows so far are always the fold of the steps done so far |
| Doctor.VisitExtras | example/doctor.py:336-339 | the extras of one entry, in list order, one row each; the first exception ends the loop with the fold of all steps |
| Doctor.EntryStepsShape | example/doctor.py:330-339 | an entry's steps are its existence check first, exactly when it applies, then one step per extra in list order |
| Doctor.PlanUnroll | example/doctor.py:327 | the plan from entry i on is entry i's steps followed by the plan of the entries after it |
| Doctor.PlanAppend | example/doctor.py:327 | the plan of two consecutive runs of entries is the concatenation of their plans |
| Doctor.PlanAround | example/doctor.py:327-339 | registry order is run order: everything planned for entries before k comes before entry k's steps, and everything for later entries after them |
| Doctor.FoldAfterFailure | example/doctor.py:339 | once a check has raised, later checks change neither the rows nor the exception |
| Doctor.FoldAllSucceed | example/doctor.py:327-339 | when no check raises, the run adds exactly one row per step, each the row of that step's check, in order |
| Doctor.FoldFirstFailure | example/doctor.py:327-339 | when step k is the first to raise, the run keeps exactly the rows of the steps before k and ends with step k's exception |
| Doctor.PlanLength | example/doctor.py:327-339 | the rows of a run without exceptions number the applicable tools plus the total length of the extra lists |
| Doctor.ExistencePlannedIff | example/doctor.py:330-333 | an existence row is planned for a tool exactly when some entry for it has its platform flag absent or true |
| Doctor.ExtrasAlwaysPlanned | example/doctor.py:336-339 | every extra check is planned, whatever the entry's platform flag |
| Doctor.PlatformGating | example/doctor.py:330-333 | on macOS the plan starts with the existence checks of xcode-select and brew; elsewhere it is the macOS plan without those two |
| Doctor.CountsAppend | example/doctor.py:255-294 | applicable tools and extras are counted additively over consecutive entries |
| Doctor.RegistryCounts | example/doctor.py:255-294 | the registry has 12 applicable tools on macOS and 10 elsewhere, and 11 extra checks |
| Doctor.RegistryPlanLength | example/doctor.py:255-294 | a run without exceptions adds 23 rows on macOS and 21 elsewhere |
| Doctor.WellFormedFailsOnlyOnObservation | example/doctor.py:56-84 | an extra called with the right arguments can only raise CalledProcessError, JSONDecodeError, or InvalidVersion of the current version text the tool reported |
| Doctor.RegistryExtrasWellFormed | example/doctor.py:255-294 | on either platform, every extra of every registry entry is called with the right arguments: each version check names a tool with a version pipeline and a minimum that parses, and every other check gets no argument |
| Doctor.RequiredMinimumsParse | example/doctor.py:270-288 | the five required minimums parse to the releases they spell |
| Doctor.MissingToolRow | example/doctor.py:49-50 | a tool that `command -v` does not find gets a failing "installed" row with an empty detail |
| Doctor.VersionBoundary | example/doctor.py:85-98 | a current version equal to the requirement passes; one below it fails |
| Doctor.SshVerdictIgnoresStripping | example/doctor.py:113-114 | the SSH verdict is the same as testing the unstripped stderr for the success phrase |
| Doctor.Startup | example/doctor.py:29-30 | importing the doctor module fails exactly when `GCP_PROJECT_NAME`, looked up as written, raises, with that exception, so it succeeds exactly when common.json decodes; the host then has the paths computed at import and the looked-up project name |
| Doctor.NoConfigurationNoRun | example/constants.py:49-56 | with neither configuration file present the import raises FileNotFoundError, so no check runs |
| Doctor.ConfigOnlyImportFails | example/constants.py:53-56 | with no common.json and a config.json whose development list names a project, the import raises AttributeError("projectName") |
| Doctor.InitializedCredentialsCheck | example/doctor.py:195-218 | on an initialised host the credentials check reads root/gcloud/application_default_credentials.json and its hint names the development project of common.json |
| Doctor.InitializedDockerCheck | example/doctor.py:172-179 | on an initialised host the Docker registry check reads home/.docker/config.json |
| Doctor.CredentialNotSetMessage | example/doctor.py:195-199 | the credentials hint contains the personal project name |
| Tables.Table.constructor | example/doctor.py:320 | a new table has its frame, no columns and no rows |
| Tables.Table.AddColumn | example/doctor.py:321-324 | one more column at the right; rows unchanged |
| Tables.Table.AddRow | example/doctor.py:333 | one more row at the bottom; columns unchanged |
| Text.LeadingSpaces | example/doctor.py:48 | the length of the longest all-white-space prefix |
| Text.TrailingSpaces | example/doctor.py:48 | the length of the longest all-white-space suffix |
| Text.Strip | example/doctor.py:61 | `str.strip()`: a slice of the input with only white space around it and none at its own ends |
| Text.StripIdempotent | example/doctor.py:113 | stripping twice strips nothing more |
| Text.StripTrimmed | example/doctor.py:61 | a string with no white space at its ends is its own strip |
| Text.ContainsIff | example/doctor.py:114 | `needle in hay` holds exactly when the needle occurs at some index |
| Text.ContainsSplice | example/doctor.py:195-198 | a string built around a needle contains it |
| Text.OccursInTrimmed | example/doctor.py:113-114 | an occurrence of a trimmed needle in the stripped text is an occurrence in the original text, shifted by the leading white space, and conversely |
| Text.ContainsStripped | example/doctor.py:113-114 | a needle with no white space at its ends occurs in the stripped text exactly when it occurs in the original |
| Versions.Split | example/doctor.py:83-84 | `split(".")` gives at least one piece and no piece holds a dot |
| Versions.ParseParts | example/doctor.py:83-84 | the pieces read exactly when every piece is a non-empty run of digits; the release then has one component per piece, the decimal value of that piece |
| Versions.Parse | example/doctor.py:83-84 | a text parses exactly when every dot-separated piece is a non-empty run of digits; component k is the decimal value of piece k, and there is at least one; any other text raises InvalidVersion of that text |
| Versions.SplitJoin | example/doctor.py:83-84 | splitting a dot-join of dot-free pieces gives the pieces back |
| Versions.ParsePartsNumerals | example/doctor.py:83-84 | the decimal numerals of a release read back as that release |
| Versions.ParseFormat | example/doctor.py:83-84 | parsing the printed form of a release gives that release back |
| Versions.JoinSplit | example/doctor.py:83-84 | joining the pieces of `split(".")` with dots gives the text back |
| Versions.ParseExamples | example/doctor.py:83-84 | "" and "1..2" (an empty piece) and "1.a" (a letter) raise InvalidVersion; "01.2" parses to [1, 2] |
| Versions.Compare | example/doctor.py:85 | the three-way comparison is -1, 0 or 1 |
| Versions.CompareReflexive | example/doctor.py:85 | every release compares equal to itself |
| Versions.CompareAntisymmetric | example/doctor.py:85 | swapping the operands negates the comparison |
| Versions.CompareTransitive | example/doctor.py:85 | the order is transitive |
| Versions.CompareTrailingZero | example/doctor.py:85 | a trailing zero component does not change the comparison ("1.0" equals "1") |
| Versions.Canonical | example/doctor.py:85 | the canonical release has no trailing zero |
| Versions.CompareCanonical | example/doctor.py:85 | comparing with trailing zeros removed gives the same answer |
| Versions.CompareTupleNoTrailingZero | example/doctor.py:85 | on releases without trailing zeros the padded comparison is Python's tuple comparison |
| Versions.CompareIsTupleOrderOfCanonical | example/doctor.py:85 | the padded comparison equals the tuple comparison of both releases with their trailing zeros removed |
| Versions.AtLeast | example/doctor.py:85 | `cur >= req` holds exactly when the tuple of `cur` without trailing zeros is at least that of `req` |
| Versions.ParseThree | example/doctor.py:270-288 | the text "x.y.z" of three numerals parses to [x, y, z] |
| Versions.NumericNotTextual | example/doctor.py:85 | components compare as numbers: 2.10.0 is newer than 2.9.0, and 20.10.7 is at least 9.9.9 |
| Decimal.NatToString | example/termui.py:86 | `str(n)` of a natural number is a non-empty run of digits without a leading zero, and "0" for zero |
| Decimal.DigitsValueNatToString | example/termui.py:86 | reading back `str(n)` gives n |
| Decimal.ParseIntToString | example/termui.py:86 | `int(str(i)) == i` for every integer, negative ones included |
| Decimal.IntToString | example/termui.py:86 | `str(i)` starts with a minus sign exactly for a negative integer, followed by a non-empty run of digits |
| TermUI.ToVerbosity | example/termui.py:161-162 | `Verbosity(v)` succeeds exactly for -1, 0, 1 and 2 and keeps the value; any other integer raises ValueError |
| TermUI.Confirm | example/termui.py:74-78 | without an interactive terminal, the default (False unless given) is returned without asking; otherwise the answer |
| TermUI.Ask | example/termui.py:81-88 | no type or `str` returns the text answer; `int` returns `str` of the integer answer, which reads back as that integer; any other type raises ValueError |
| TermUI.ParseHeader | example/termui.py:194-201 | an empty title raises IndexError; any other title gives a column |
| TermUI.ParseHeaderInverse | example/termui.py:194-201 | '^' centres and '>' right-justifies with the marker dropped, anything else is left-justified unchanged: a parsed title writes back as itself, and every expressible column is what its own title parses to |
| TermUI.DisplayColumns | example/termui.py:188-209 | with a header: a rounded table with one column per title, each the title's parse, raising IndexError on an empty title; without one: a grid with one plain column per cell of the first row, raising IndexError when there are no rows; then all rows in order |
| TermUI.UI.constructor | example/termui.py:152-159 | a new UI has the given verbosity (NORMAL by default) |
| TermUI.UI.SetVerbosity | example/termui.py:161-162 | stores `Verbosity(v)` exactly when v is in -1..2; otherwise raises ValueError and keeps the old verbosity |
| TermUI.UI.Echo | example/termui.py:171-186 | prints exactly when the UI's verbosity reaches the threshold (QUIET unless given), to standard error exactly when `err` is set |
| TermUI.UI.Info | example/termui.py:222-224 | an "INFO:" line on standard error, printed exactly when the verbosity reaches the threshold (NORMAL unless given) |
| TermUI.UI.Deprecated | example/termui.py:226-228 | a "DEPRECATED:" line on standard error, printed exactly when the verbosity reaches the threshold (NORMAL unless given) |
| TermUI.UI.Warn | example/termui.py:230-232 | a "WARNING:" line on standard error, printed exactly when the verbosity reaches the threshold (NORMAL unless given) |
| TermUI.UI.Error | example/termui.py:234-236 | an "ERROR:" line on standard error, printed exactly when the verbosity reaches the threshold (QUIET unless given) |
| TermUI.UI.OpenSpinner | example/termui.py:211-216 | the dummy spinner exactly when the verbosity is DETAIL or above or the terminal is not interactive; rich's status with the title otherwise |
| TermUI.UI.ProgressDisabled | example/termui.py:218-220 | the progress display is disabled exactly when the verbosity is DETAIL or above |
| TermUI.DefaultThresholds | example/termui.py:222-236 | with default thresholds an error prints at every verbosity; info, warnings and deprecations print exactly when the UI is not QUIET |
| TermUI.EchoMonotone | example/termui.py:181 | raising the verbosity never hides a message that was shown |
| Constants.PlatformsExclusive | example/constants.py:24-31 | `is_macos` holds exactly for "Darwin" and `is_linux` exactly for "Linux", so never both |
| Constants.IsMacos | example/constants.py:24-26 | `is_macos()` is never true on Linux |
| Constants.IsLinux | example/constants.py:29-31 | `is_linux()` is never true on macOS |
| Constants.CommonStage | example/constants.py:48 | `getattr(gcp, stage).project` succeeds exactly for dev, stg and prod |
| Constants.ConfigStage | example/constants.py:53 | `getattr(gcp, stage).projects` succeeds exactly for dev, stg and prod |
| Constants.DetailText | example/constants.py:53 | reading an attribute of a project detail succeeds exactly for `project_name`, `restricted_project_name` and `region`; any other name raises AttributeError of that name |
| Constants.LookupProjectName | example/constants.py:41-53 | succeeds only for dev, stg and prod, and for exactly those when common.json decodes; with neither file it raises FileNotFoundError |
| Constants.GetGcpProjectNameAsWritten | example/constants.py:41-53 | as written, a name is only ever returned from a decoded common.json, for a known stage |
| Constants.GetGcpProjectName | example/constants.py:41-53 | with the corrected attribute: succeeds only for a known stage and only when one of the files decodes; when common.json decodes, exactly for the known stages |
| Constants.GcpProjectName | example/constants.py:56 | with the corrected lookup, `GCP_PROJECT_NAME` is the development project of common.json when it decodes; with neither file it raises FileNotFoundError |
| Constants.GcpProjectNameAsWritten | example/constants.py:53-56 | `GCP_PROJECT_NAME` as the import computes it: a name exactly when common.json decodes, its development project; with neither file FileNotFoundError |
| Constants.CommonJsonWins | example/constants.py:44-48 | when common.json decodes, the result is its project for the stage, whatever config.json holds |
| Constants.ConfigJsonFallback | example/constants.py:49-53 | with the corrected attribute `project_name`: without common.json, the name of the first project of the stage in config.json; an empty list raises IndexError and a null `gcp` raises AttributeError |
| Constants.ConfigFallbackNeverSucceeds | example/constants.py:49-53 | as written, only a decoded common.json yields a name; where the corrected lookup falls back to config.json and succeeds, the lookup as written raises AttributeError("projectName"); where the corrected lookup raises, both raise the same exception |
| Constants.ProjectNameCounterexample | example/constants.py:53 | a config.json whose development list holds "my-project": the corrected lookup gives "my-project", the lookup as written raises AttributeError("projectName") |
| Constants.OnlyKnownStagesSucceed | example/constants.py:44-53 | any stage other than dev, stg or prod fails, whatever the files hold |
| Constants.NoFilesFails | example/constants.py:49-51 | with neither file present, opening config.json raises FileNotFoundError |
| Constants.DefaultLookupIsDev | example/constants.py:41-56 | with the corrected lookup, `GCP_PROJECT_NAME` is the development project of common.json, or else the first development project of config.json |
| Paths.Join | example/paths.py:33-41 | `p / name` appends one component and keeps the others |
| Paths.Render | example/doctor.py:217 | `str(path)` of an absolute path starts with "/" and ends with "/" followed by the last component, when there is one |
| Paths.GetExpandedEnviron | example/paths.py:22-26 | None exactly when the variable is unset; otherwise the expanded, resolved path of its value |
| Paths.DefaultConfigRoot | example/paths.py:29-31 | the resolved `XDG_CONFIG_HOME` whenever it is set, even to the empty string; home/.config only when it is unset |
| Paths.ConfigRootVersusXdg | example/paths.py:29-31 | agrees with the XDG Base Directory Specification when the variable is unset or an absolute path; a relative value, the empty one included, is resolved by the program, where the specification ignores it and uses home/.config |
| Paths.ComputeLayout | example/paths.py:29-41 | the root, root/example/common.json, root/example/config.json, home/.docker/config.json and root/gcloud/application_default_credentials.json |
| Paths.ExampleFilesAreSiblings | example/paths.py:33-35 | common.json and config.json are distinct files in root/example |
| Paths.DockerConfigIgnoresEnvironment | example/paths.py:37-38 | the Docker configuration path depends on the home directory only, not on `XDG_CONFIG_HOME` |
| Paths.AdcFollowsXdg | example/paths.py:40-41 | the credentials file lies under the `XDG_CONFIG_HOME` override when it is set |

## Left out

- Running subprocesses and shell pipelines is not modelled. Each check's observation is an input: `Host.run` gives the result of an argument vector and `Host.shell` the result of a shell command line.
- `command_exists` runs `command -v` as an argument vector, not through a shell. Whether that raises FileNotFoundError depends on the host, so `Host.run` may return the error.
- Reading files and decoding JSON and `dataclasses_json` documents are not modelled. A file is `Absent`, `Malformed` or a JSON object with the fields the checks read. common.json keeps the declared fields of its model; of config.json only `gcp` is kept, since nothing else in it is read.
- Doctor.ConfigureDockerRow: a Docker configuration that decodes to a JSON value other than an object would raise AttributeError at `config.get`. The model treats any such file as `Malformed`, which raises JSONDecodeError.
- The environment, `Path.home()`, `expanduser()`/`resolve()` and `platform.system()` become parameters. `Path.absolute()` of a resolved path is its rendering.
- Versions.Parse: only release-only versions (dotted non-negative integers) are accepted. Every other text raises InvalidVersion, although `packaging` also accepts epochs, pre-, post-, dev- and local segments, a leading "v" and surrounding white space. Every minimum in the registry is a dotted integer.
- Rich rendering is not modelled: `Live`, table styling and padding, `Theme`, console capture in `style`, markup tags and the Emoji glyph choice. Verdicts are `Success`/`Fail`, and message texts drop their markup.
- `Emoji`, `SPINNER` and `is_legacy_windows` only pick glyphs and spinner styles. They are not modelled.
- `beat` and `time.sleep` only pace the display and have no behavioural effect.
- The warnings filter and the `ExitStack` context that `set_verbosity` enters at QUIET are not modelled. The model keeps only the stored verbosity.
- `set_theme`, `echo`'s `crop`/`overflow` defaults and the printing itself are not modelled. `Echo` returns the emission it would print.
- `is_interactive` reads `os.environment`, which does not exist, so in the source it always raises AttributeError. The model takes "interactive" as a boolean input of `TermUI.Confirm` and `TermUI.UI.OpenSpinner`.
- TermUI.UI.OpenSpinner: `DummySpinner()` is called without its required `text` argument, which would raise TypeError in the source. The model returns the dummy spinner in that branch.
- TermUI.Ask: the prompts' own re-asking on invalid input is not modelled. The text and integer answers are inputs.
- TermUI.DisplayColumns: the table is returned instead of being printed. Rich pads a short row and adds columns for a long one; the model keeps each row as given.
- The staging and production project constants are kept as values. No operation uses them.
- Doctor.Walk: the registry walk takes its checks as a function argument, and `Run` passes `Checker(host)`. The loop's proof therefore does not depend on the checks' bodies.
- Constants.GcpProjectName: this is the corrected lookup, which the lemmas about the fallback use. `GCP_PROJECT_NAME` as written is `Constants.GcpProjectNameAsWritten`, which raises AttributeError("projectName") whenever common.json is absent and config.json lists a development project; `Doctor.Startup` uses that one.
- Constants.GetGcpProjectName: the two configuration documents are inputs of the lookup. They are not tied to the `Host.fs` states of the files the doctor checks.
- Constants.CommonStage: a stage naming some other attribute of the decoded object (`__class__`, `to_json`) passes `getattr` and then fails at `.project` with AttributeError of that attribute. The model raises AttributeError of the stage name for every unknown stage; Constants.ConfigStage does the same for `.projects`.
- Doctor.Plan and Doctor.Absorb carry no contract of their own. Their properties are stated by `Doctor.PlanLength`, `Doctor.PlanUnroll`, `Doctor.PlanAround`, `Doctor.EntryStepsShape` and `Doctor.AbsorbKeepsRows`.

## Findings

| source | as written | input that shows it | evidently intended | confidence | as-written member | corrected member |
|---|---|---|---|---|---|---|
| example/constants.py:53 | the config.json branch reads `.projectName` on the decoded project detail, whose attribute is `project_name` (example/models/config.py:49-50); `LetterCase.CAMEL` renames only the JSON keys. Since `GCP_PROJECT_NAME` is computed at import (example/constants.py:56), importing the doctor module fails whenever common.json is absent | no common.json, and a config.json whose development list holds one project named "my-project" (Constants.ProjectNameCounterexample) | the first project's name, "my-project" | not executed | Constants.GetGcpProjectNameAsWritten | Constants.GetGcpProjectName |
