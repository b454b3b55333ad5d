/**
  Where the configuration directory is: `GRAVEL_CONFIG_PATH` as it is, else `gravel` in
  the XDG configuration home, which is `XDG_CONFIG_HOME` or `.config` in the home
  directory. The environment is a map from variable names to values; the platform is a
  parameter.

  A `PathBuf` is its starting string and the relative components joined onto it, so
  `join` of a relative name appends that name.
*/
module Paths {

  /** The compilation target that `#[cfg(unix)]` and `#[cfg(windows)]` select. */
  datatype Os = Unix | Windows

  type Env = map<string, string>

  /** A `PathBuf` made from a string and then extended with relative components. */
  datatype Path = Path(root: string, components: seq<string>)

  const APP_NAME: string := "gravel"

  /** `PathBuf::from`. */
  function PathFrom(s: string): (p: Path)
    ensures p.root == s && p.components == []
  {
    Path(s, [])
  }

  /** `PathBuf::join` of a relative name: adds the name as the last component. */
  function JoinPath(p: Path, name: string): (q: Path)
    ensures q.root == p.root && q.components == p.components + [name]
  {
    Path(p.root, p.components + [name])
  }

  /** The variable holding the home directory on the platform. */
  function HomeVar(os: Os): string
  {
    match os
    case Unix => "HOME"
    case Windows => "USERPROFILE"
  }

  /** `get_home` does not panic: the platform's home variable is set. */
  predicate HasHome(os: Os, env: Env)
  {
    HomeVar(os) in env
  }

  /** `get_home`: the value of `HOME`, or `USERPROFILE` on Windows; unset panics. */
  function GetHome(os: Os, env: Env): (p: Path)
    requires HasHome(os, env)
    ensures p == PathFrom(env[HomeVar(os)])
  {
    PathFrom(env[HomeVar(os)])
  }

  /** `get_xdg_config_home` does not panic. */
  predicate HasXdgConfigHome(os: Os, env: Env)
  {
    "XDG_CONFIG_HOME" in env || HasHome(os, env)
  }

  /** `get_xdg_config_home`: `XDG_CONFIG_HOME` when set, else `.config` in the home directory. */
  function GetXdgConfigHome(os: Os, env: Env): (p: Path)
    requires HasXdgConfigHome(os, env)
    ensures "XDG_CONFIG_HOME" in env ==> p == PathFrom(env["XDG_CONFIG_HOME"])
    ensures "XDG_CONFIG_HOME" !in env ==> p == Path(env[HomeVar(os)], [".config"])
  {
    if "XDG_CONFIG_HOME" in env then PathFrom(env["XDG_CONFIG_HOME"])
    else JoinPath(GetHome(os, env), ".config")
  }

  /** `get_gravel_config_dir` does not panic. */
  predicate HasConfigDir(os: Os, env: Env)
  {
    "GRAVEL_CONFIG_PATH" in env || HasXdgConfigHome(os, env)
  }

  /** `get_gravel_config_dir`: `GRAVEL_CONFIG_PATH` when set, else `gravel` in the XDG configuration home. */
  function GetGravelConfigDir(os: Os, env: Env): (p: Path)
    requires HasConfigDir(os, env)
    ensures "GRAVEL_CONFIG_PATH" in env ==> p == PathFrom(env["GRAVEL_CONFIG_PATH"])
    ensures "GRAVEL_CONFIG_PATH" !in env ==> p == JoinPath(GetXdgConfigHome(os, env), APP_NAME)
  {
    if "GRAVEL_CONFIG_PATH" in env then PathFrom(env["GRAVEL_CONFIG_PATH"])
    else JoinPath(GetXdgConfigHome(os, env), APP_NAME)
  }

  /** The three cases of the configuration directory, in order of precedence. */
  lemma ConfigDirCases(os: Os, env: Env)
    requires HasConfigDir(os, env)
    ensures "GRAVEL_CONFIG_PATH" in env ==> GetGravelConfigDir(os, env) == Path(env["GRAVEL_CONFIG_PATH"], [])
    ensures "GRAVEL_CONFIG_PATH" !in env && "XDG_CONFIG_HOME" in env
        ==> GetGravelConfigDir(os, env) == Path(env["XDG_CONFIG_HOME"], ["gravel"])
    ensures "GRAVEL_CONFIG_PATH" !in env && "XDG_CONFIG_HOME" !in env
        ==> GetGravelConfigDir(os, env) == Path(env[HomeVar(os)], [".config", "gravel"])
  {
  }

  /** An explicit path is taken as it is: no other variable matters then. */
  lemma ExplicitPathWins(os1: Os, env1: Env, os2: Os, env2: Env)
    requires "GRAVEL_CONFIG_PATH" in env1 && "GRAVEL_CONFIG_PATH" in env2
    requires env1["GRAVEL_CONFIG_PATH"] == env2["GRAVEL_CONFIG_PATH"]
    ensures GetGravelConfigDir(os1, env1) == GetGravelConfigDir(os2, env2)
  {
  }

  /** The result is the explicit path exactly when `GRAVEL_CONFIG_PATH` is set; otherwise it ends in `gravel`. */
  lemma ConfigDirEndsInAppName(os: Os, env: Env)
    requires HasConfigDir(os, env)
    ensures GetGravelConfigDir(os, env).components == [] <==> "GRAVEL_CONFIG_PATH" in env
    ensures "GRAVEL_CONFIG_PATH" !in env ==> GetGravelConfigDir(os, env).components[|GetGravelConfigDir(os, env).components| - 1] == APP_NAME
  {
  }

  /** On Windows `HOME` is never read, and on Unix `USERPROFILE` is never read. */
  lemma OtherHomeIgnored(os: Os, env: Env, value: string)
    requires HasConfigDir(os, env)
    ensures var other := if os.Unix? then "USERPROFILE" else "HOME";
      GetGravelConfigDir(os, env[other := value]) == GetGravelConfigDir(os, env)
  {
    var other := if os.Unix? then "USERPROFILE" else "HOME";
    var env' := env[other := value];
    assert "GRAVEL_CONFIG_PATH" in env' <==> "GRAVEL_CONFIG_PATH" in env;
    assert "XDG_CONFIG_HOME" in env' <==> "XDG_CONFIG_HOME" in env;
    assert HomeVar(os) in env' <==> HomeVar(os) in env;
  }
}
