/** Where the CLI looks for its configuration files. The environment, the
    home directory and `Path(value).expanduser().resolve()` are inputs: the
    layout is computed once, from them, when the program starts. */
module Paths {
  import opened Results

  /** An absolute path as its sequence of components: "/home/u/.config" is
      ["home", "u", ".config"]. */
  datatype Path = Path(segments: seq<string>)

  /** `p / name`. */
  function Join(p: Path, name: string): (r: Path)
    ensures |r.segments| == |p.segments| + 1
    ensures r.segments[..|p.segments|] == p.segments && r.segments[|p.segments|] == name
  {
    Path(p.segments + [name])
  }

  /** The directory a path lies in. */
  function Parent(p: Path): Path {
    if |p.segments| == 0 then p else Path(p.segments[..|p.segments| - 1])
  }

  /** `str(p)` for an absolute path: it starts at the root, with a '/' before
      each component. */
  function Render(p: Path): (r: string)
    ensures |r| > 0 && r[0] == '/'
    ensures |r| >= |p.segments|
    ensures |p.segments| > 0 ==>
              var last := p.segments[|p.segments| - 1];
              |r| > |last| && r[|r| - |last| - 1..] == "/" + last
    decreases |p.segments|
  {
    if |p.segments| == 0 then "/"
    else if |p.segments| == 1 then "/" + p.segments[0]
    else Render(Path(p.segments[..|p.segments| - 1])) + "/" + p.segments[|p.segments| - 1]
  }

  const XDG_CONFIG_HOME := "XDG_CONFIG_HOME"

  /** `get_expanded_environ(name)`: `None` when the variable is not set;
      otherwise its value expanded and made absolute by `resolve`. */
  function GetExpandedEnviron(env: map<string, string>, name: string, resolve: string -> Path): (r: Option<Path>)
    ensures r.None? <==> name !in env
    ensures name in env ==> r == Some(resolve(env[name]))
  {
    if name in env then Some(resolve(env[name])) else None
  }

  /** `DEFAULT_CONFIG_ROOT`: the expanded `XDG_CONFIG_HOME` when the variable
      is set, even to the empty string (a `Path` is never false), and
      home/.config only when it is not set. */
  function DefaultConfigRoot(env: map<string, string>, home: Path, resolve: string -> Path): (r: Path)
    ensures XDG_CONFIG_HOME in env ==> r == resolve(env[XDG_CONFIG_HOME])
    ensures XDG_CONFIG_HOME !in env ==> r == Join(home, ".config")
  {
    match GetExpandedEnviron(env, XDG_CONFIG_HOME, resolve)
    case Some(p) => p
    case None => Join(home, ".config")
  }

  /** An absolute path as written in the environment: it starts with '/'. */
  predicate IsAbsolute(value: string) {
    |value| > 0 && value[0] == '/'
  }

  /** The configuration directory the XDG Base Directory Specification
      ("Environment variables") prescribes: `$XDG_CONFIG_HOME` when it is set
      to an absolute path, `$HOME/.config` otherwise; a relative path, the
      empty one included, is invalid there and ignored. */
  function XdgConfigHome(env: map<string, string>, home: Path, resolve: string -> Path): Path {
    if XDG_CONFIG_HOME in env && IsAbsolute(env[XDG_CONFIG_HOME]) then resolve(env[XDG_CONFIG_HOME])
    else Join(home, ".config")
  }

  /** The root chosen agrees with the XDG rule except when the variable is set
      to a path that is not absolute ("", "cfg", "~/cfg"): the program then
      uses `resolve` of it (against the working directory, or the home
      directory after `expanduser`), where the XDG rule ignores the variable
      and falls back to home/.config. */
  lemma ConfigRootVersusXdg(env: map<string, string>, home: Path, resolve: string -> Path)
    ensures XDG_CONFIG_HOME !in env || IsAbsolute(env[XDG_CONFIG_HOME]) ==>
              DefaultConfigRoot(env, home, resolve) == XdgConfigHome(env, home, resolve)
    ensures XDG_CONFIG_HOME in env && !IsAbsolute(env[XDG_CONFIG_HOME]) ==>
              && DefaultConfigRoot(env, home, resolve) == resolve(env[XDG_CONFIG_HOME])
              && XdgConfigHome(env, home, resolve) == Join(home, ".config")
  {
  }

  /** Every path the program derives at start-up. */
  datatype Layout = Layout(
    configRoot: Path,          // DEFAULT_CONFIG_ROOT
    exampleConfigHome: Path,   // EXAMPLE_CONFIG_HOME
    exampleCommonJson: Path,   // EXAMPLE_COMMON_JSON
    exampleConfigJson: Path,   // EXAMPLE_CONFIG_JSON
    dockerConfigHome: Path,    // DOCKER_CONFIG_HOME
    dockerConfigJson: Path,    // DOCKER_CONFIG_JSON
    gcloudConfigHome: Path,    // GCLOUD_CONFIG_HOME
    gcloudAdcJson: Path)       // GCLOUD_ADC_JSON

  function ComputeLayout(env: map<string, string>, home: Path, resolve: string -> Path): (l: Layout)
    ensures l.configRoot == DefaultConfigRoot(env, home, resolve)
    ensures l.exampleCommonJson.segments == l.configRoot.segments + ["example", "common.json"]
    ensures l.exampleConfigJson.segments == l.configRoot.segments + ["example", "config.json"]
    ensures l.dockerConfigJson.segments == home.segments + [".docker", "config.json"]
    ensures l.gcloudAdcJson.segments == l.configRoot.segments + ["gcloud", "application_default_credentials.json"]
  {
    var root := DefaultConfigRoot(env, home, resolve);
    var exampleHome := Join(root, "example");
    var dockerHome := Join(home, ".docker");
    var gcloudHome := Join(root, "gcloud");
    Layout(
      root,
      exampleHome, Join(exampleHome, "common.json"), Join(exampleHome, "config.json"),
      dockerHome, Join(dockerHome, "config.json"),
      gcloudHome, Join(gcloudHome, "application_default_credentials.json"))
  }

  /** common.json and config.json are two different files in the same
      directory, root/example. */
  lemma ExampleFilesAreSiblings(env: map<string, string>, home: Path, resolve: string -> Path)
    ensures var l := ComputeLayout(env, home, resolve);
      && l.exampleCommonJson != l.exampleConfigJson
      && Parent(l.exampleCommonJson) == l.exampleConfigHome
      && Parent(l.exampleConfigJson) == l.exampleConfigHome
  {
    var l := ComputeLayout(env, home, resolve);
    var n := |l.exampleConfigHome.segments|;
    assert l.exampleCommonJson.segments[n] == "common.json";
    assert l.exampleConfigJson.segments[n] == "config.json";
  }

  /** The Docker configuration file is always home/.docker/config.json: two
      environments that differ in anything, XDG_CONFIG_HOME included, give
      the same file. */
  lemma DockerConfigIgnoresEnvironment(
    env1: map<string, string>, resolve1: string -> Path,
    env2: map<string, string>, resolve2: string -> Path, home: Path)
    ensures ComputeLayout(env1, home, resolve1).dockerConfigJson
         == ComputeLayout(env2, home, resolve2).dockerConfigJson
  {
  }

  /** The gcloud application-default credentials file follows the
      XDG_CONFIG_HOME override. */
  lemma AdcFollowsXdg(env: map<string, string>, home: Path, resolve: string -> Path)
    requires XDG_CONFIG_HOME in env
    ensures ComputeLayout(env, home, resolve).gcloudAdcJson.segments
         == resolve(env[XDG_CONFIG_HOME]).segments + ["gcloud", "application_default_credentials.json"]
  {
  }
}
