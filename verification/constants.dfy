/** Platform tests and the lookup of the personal Google Cloud project name.
    The host's `platform.system()` name and the state of the two JSON files
    are inputs. */
module Constants {
  import opened Results

  /** `is_macos()`: never true on Linux. */
  predicate IsMacos(system: string)
    ensures IsMacos(system) ==> system != "Linux"
  {
    system == "Darwin"
  }

  /** `is_linux()`: never true on macOS. */
  predicate IsLinux(system: string)
    ensures IsLinux(system) ==> system != "Darwin"
  {
    system == "Linux"
  }

  /** The two platform flags are never both set. */
  lemma PlatformsExclusive(system: string)
    ensures !(IsMacos(system) && IsLinux(system))
    ensures IsMacos(system) <==> system == "Darwin"
    ensures IsLinux(system) <==> system == "Linux"
  {
  }

  /** common.json: `gcp.<stage>` holds one project name per stage. The fields
      are the declared attributes of the `dataclasses_json` models, in this
      project's camel case. */
  datatype CommonGcpProject = CommonGcpProject(project: string, restrictedProject: string)
  datatype CommonGcp = CommonGcp(dev: CommonGcpProject, stg: CommonGcpProject, prod: CommonGcpProject)
  datatype CommonJson = CommonJson(email: string, workspacePath: string, gcp: CommonGcp)

  /** config.json: `gcp.<stage>.projects` lists the projects of each stage;
      `gcp` itself may be null. Of the document only `gcp` is kept: the
      account, workspaces and Slack settings are never read. A project
      detail's Python attributes are `project_name`, `restricted_project_name`,
      `region` and `activate`; `LetterCase.CAMEL` renames only the JSON keys
      (`projectName`, ...), not the attributes. */
  datatype ConfigGcpProjectDetail =
    ConfigGcpProjectDetail(projectName: string, restrictedProjectName: string, region: string, activate: bool)
  datatype ConfigGcpProjects = ConfigGcpProjects(projects: seq<ConfigGcpProjectDetail>)
  datatype ConfigGcp = ConfigGcp(dev: ConfigGcpProjects, stg: ConfigGcpProjects, prod: ConfigGcpProjects)
  datatype ConfigJson = ConfigJson(gcp: Option<ConfigGcp>)

  /** What reading a JSON configuration file yields: the file is absent, its
      contents do not decode to the expected structure, or the decoded value. */
  datatype Document<T> = Missing | Undecodable | Decoded(value: T)

  /** The stage names for which `getattr(gcp, stage).project` (or `.projects`)
      succeeds. */
  predicate IsStage(stage: string) {
    stage == "dev" || stage == "stg" || stage == "prod"
  }

  /** The stage `get_gcp_project_name` uses when none is given. */
  const DEFAULT_STAGE := "dev"

  /** `getattr(common.gcp, stage)` followed by `.project`: the stage's
      project; for any other name the lookup fails with `AttributeError`. */
  function CommonStage(gcp: CommonGcp, stage: string): (r: Result<CommonGcpProject, PyError>)
    ensures r.Ok? <==> IsStage(stage)
  {
    match stage
    case "dev" => Ok(gcp.dev)
    case "stg" => Ok(gcp.stg)
    case "prod" => Ok(gcp.prod)
    case _ => Err(AttributeError(stage))
  }

  /** `getattr(config.gcp, stage)` followed by `.projects`: the stage's
      projects; for any other name the lookup fails with `AttributeError`. */
  function ConfigStage(gcp: ConfigGcp, stage: string): (r: Result<ConfigGcpProjects, PyError>)
    ensures r.Ok? <==> IsStage(stage)
  {
    match stage
    case "dev" => Ok(gcp.dev)
    case "stg" => Ok(gcp.stg)
    case "prod" => Ok(gcp.prod)
    case _ => Err(AttributeError(stage))
  }

  /** `getattr(detail, name)` for the text attributes of a project detail;
      a name the detail has no attribute for raises `AttributeError`. The
      boolean `activate` is never read as text. */
  function DetailText(d: ConfigGcpProjectDetail, name: string): (r: Result<string, PyError>)
    requires name != "activate"
    ensures r.Ok? <==> name == "project_name" || name == "restricted_project_name" || name == "region"
    ensures r.Err? ==> r.error == AttributeError(name)
  {
    match name
    case "project_name" => Ok(d.projectName)
    case "restricted_project_name" => Ok(d.restrictedProjectName)
    case "region" => Ok(d.region)
    case _ => Err(AttributeError(name))
  }

  /** The body of `get_gcp_project_name(stage)`, with the attribute the
      config.json branch reads on the first project as a parameter: the
      project of the stage in common.json when that file exists; otherwise
      that attribute of the first project of the stage in config.json. */
  function LookupProjectName(stage: string, attribute: string,
                             common: Document<CommonJson>, config: Document<ConfigJson>)
    : (r: Result<string, PyError>)
    requires attribute != "activate"
    ensures r.Ok? ==> IsStage(stage)
    ensures common.Decoded? ==> (r.Ok? <==> IsStage(stage))
    ensures common.Missing? && config.Missing? ==> r == Err(FileNotFoundError)
  {
    match common
    case Undecodable => Err(JsonDecodeError)
    case Decoded(c) =>
      var project :- CommonStage(c.gcp, stage);
      Ok(project.project)
    case Missing =>
      match config
      case Missing => Err(FileNotFoundError)
      case Undecodable => Err(JsonDecodeError)
      case Decoded(c) =>
        if c.gcp.None? then Err(AttributeError(stage))
        else
          var projects :- ConfigStage(c.gcp.value, stage);
          if |projects.projects| == 0 then Err(IndexError)
          else DetailText(projects.projects[0], attribute)
  }

  /** `get_gcp_project_name(stage)` as written: the config.json branch reads
      `projectName`, the JSON key, which is not an attribute of the decoded
      detail. */
  function GetGcpProjectNameAsWritten(stage: string, common: Document<CommonJson>, config: Document<ConfigJson>)
    : (r: Result<string, PyError>)
    ensures r.Ok? ==> common.Decoded? && IsStage(stage)
  {
    LookupProjectName(stage, "projectName", common, config)
  }

  /** `get_gcp_project_name(stage)` with the config.json branch reading the
      declared attribute `project_name`: the project of the stage in
      common.json when that file exists; otherwise the name of the first
      project of the stage in config.json. */
  function GetGcpProjectName(stage: string, common: Document<CommonJson>, config: Document<ConfigJson>)
    : (r: Result<string, PyError>)
    ensures r.Ok? ==> IsStage(stage)
    ensures r.Ok? ==> common.Decoded? || config.Decoded?
    ensures common.Decoded? ==> (r.Ok? <==> IsStage(stage))
  {
    LookupProjectName(stage, "project_name", common, config)
  }

  /** `GCP_PROJECT_NAME` as the import computes it, with the lookup as
      written: only a decoded common.json yields a name, so without one the
      import raises. */
  function GcpProjectNameAsWritten(common: Document<CommonJson>, config: Document<ConfigJson>)
    : (r: Result<string, PyError>)
    ensures r.Ok? <==> common.Decoded?
    ensures common.Decoded? ==> r == Ok(common.value.gcp.dev.project)
    ensures common.Missing? && config.Missing? ==> r == Err(FileNotFoundError)
  {
    ConfigFallbackNeverSucceeds(DEFAULT_STAGE, common, config);
    GetGcpProjectNameAsWritten(DEFAULT_STAGE, common, config)
  }

  /** `GCP_PROJECT_NAME` with the corrected lookup: the default stage. */
  function GcpProjectName(common: Document<CommonJson>, config: Document<ConfigJson>): (r: Result<string, PyError>)
    ensures common.Decoded? ==> r == Ok(common.value.gcp.dev.project)
    ensures common.Missing? && config.Missing? ==> r == Err(FileNotFoundError)
  {
    GetGcpProjectName(DEFAULT_STAGE, common, config)
  }

  /** When common.json exists and decodes, the answer is its project for the
      stage, whatever config.json holds: that file is not read. */
  lemma CommonJsonWins(stage: string, c: CommonJson, config1: Document<ConfigJson>, config2: Document<ConfigJson>)
    requires IsStage(stage)
    ensures GetGcpProjectName(stage, Decoded(c), config1) == GetGcpProjectName(stage, Decoded(c), config2)
    ensures GetGcpProjectName(stage, Decoded(c), config1).Ok?
    ensures GetGcpProjectName(stage, Decoded(c), config1).value
         == (if stage == "dev" then c.gcp.dev else if stage == "stg" then c.gcp.stg else c.gcp.prod).project
  {
  }

  /** Without common.json the answer is the first project listed for the stage
      in config.json; an empty list or a null `gcp` is an error, never a default. */
  lemma ConfigJsonFallback(stage: string, c: ConfigJson)
    requires IsStage(stage)
    ensures var r := GetGcpProjectName(stage, Missing, Decoded(c));
      && (c.gcp.None? ==> r == Err(AttributeError(stage)))
      && (c.gcp.Some? ==>
            var ps := ConfigStage(c.gcp.value, stage).value.projects;
            && (|ps| == 0 ==> r == Err(IndexError))
            && (|ps| > 0 ==> r == Ok(ps[0].projectName)))
  {
  }

  /** As written, the config.json fallback never yields a name: it fails as
      the corrected lookup does on a null `gcp` or an empty list, and with
      `AttributeError("projectName")` where the corrected one succeeds. */
  lemma ConfigFallbackNeverSucceeds(stage: string, common: Document<CommonJson>, config: Document<ConfigJson>)
    ensures GetGcpProjectNameAsWritten(stage, common, config).Ok? ==> common.Decoded?
    ensures GetGcpProjectName(stage, common, config).Ok? && !common.Decoded? ==>
              GetGcpProjectNameAsWritten(stage, common, config) == Err(AttributeError("projectName"))
    ensures GetGcpProjectName(stage, common, config).Err? ==>
              GetGcpProjectNameAsWritten(stage, common, config) == GetGcpProjectName(stage, common, config)
  {
  }

  /** A config.json whose development list holds one project: the corrected
      lookup returns its name, the lookup as written raises. */
  lemma ProjectNameCounterexample()
    ensures var detail := ConfigGcpProjectDetail("my-project", "my-restricted", "asia-northeast1", true);
      var stage := ConfigGcpProjects([detail]);
      var config := ConfigJson(Some(ConfigGcp(stage, stage, stage)));
      && GcpProjectName(Missing, Decoded(config)) == Ok("my-project")
      && GetGcpProjectNameAsWritten(DEFAULT_STAGE, Missing, Decoded(config)) == Err(AttributeError("projectName"))
  {
  }

  /** Only the three stage names can succeed: any other stage fails in every
      branch, whatever the files hold. */
  lemma OnlyKnownStagesSucceed(stage: string, common: Document<CommonJson>, config: Document<ConfigJson>)
    ensures GetGcpProjectName(stage, common, config).Ok? ==> IsStage(stage)
  {
  }

  /** With neither file present the lookup fails when `open` finds no config.json. */
  lemma NoFilesFails(stage: string)
    ensures GetGcpProjectName(stage, Missing, Missing) == Err(FileNotFoundError)
  {
  }

  /** `GCP_PROJECT_NAME`, with the corrected lookup, is the development
      project: of common.json when it decodes, otherwise of the first
      development project in config.json. */
  lemma DefaultLookupIsDev(common: CommonJson, config: ConfigJson)
    ensures GcpProjectName(Decoded(common), Decoded(config)) == Ok(common.gcp.dev.project)
    ensures config.gcp.Some? && |config.gcp.value.dev.projects| > 0 ==>
              GcpProjectName(Missing, Decoded(config)) == Ok(config.gcp.value.dev.projects[0].projectName)
  {
  }

  /** The staging and production projects, fixed in the source. */
  const GCP_PROJECT_STG := CommonGcpProject("service-vis-asq-v2-stg", "vis-asq-restricted-stg")
  const GCP_PROJECT_PROD := CommonGcpProject("service-vis-asq-v2-prod", "vis-asq-restricted-prod")
}
