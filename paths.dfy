/**
 * Where the four locations come from: an environment variable when it holds
 * something other than white space, otherwise the platform (XDG) default,
 * otherwise a literal fallback. Tilde expansion is a parameter.
 */
module PathResolution {
  import opened Wrappers
  import opened Text
  import opened FileSystem

  /** The resolved locations of both scopes. */
  datatype Paths = Paths(
    userSources: Path,
    userInstallDir: Path,
    systemSources: Path,
    systemInstallDir: Path)

  const USER_SOURCES_VAR := "MCP_USER_SOURCES_PATH"
  const USER_INSTALL_VAR := "MCP_USER_INSTALL_DIR"
  const SYSTEM_SOURCES_VAR := "MCP_SYSTEM_SOURCES_PATH"
  const SYSTEM_INSTALL_VAR := "MCP_SYSTEM_INSTALL_DIR"

  /** Whether the variable is set to something that is not only white space. */
  predicate Overrides(env: map<string, string>, name: string) {
    name in env && Trim(env[name]) != ""
  }

  /**
   * One location. `env` maps the variables that are set (and valid Unicode)
   * to their values; `expandTilde` stands for `shellexpand::tilde`.
   */
  function ResolvePath(env: map<string, string>, name: string, xdgDefault: Option<Path>,
                       fallback: string, expandTilde: string -> Path): (r: Path)
    ensures Overrides(env, name) ==> r == expandTilde(Trim(env[name]))
    ensures !Overrides(env, name) && xdgDefault.Some? ==> r == xdgDefault.value
    ensures !Overrides(env, name) && xdgDefault.None? ==> r == expandTilde(fallback)
  {
    if name in env && Trim(env[name]) != "" then expandTilde(Trim(env[name]))
    else match xdgDefault
      case Some(p) => p
      case None => expandTilde(fallback)
  }

  function MapJoin(dir: Option<Path>, name: string): Option<Path> {
    match dir
    case Some(d) => Some(Join(d, name))
    case None => None
  }

  /**
   * `Paths::resolve`. `configDir` and `dataLocalDir` are what the platform
   * reports for the user's configuration and local data directories.
   */
  function Resolve(env: map<string, string>, configDir: Option<Path>, dataLocalDir: Option<Path>,
                   expandTilde: string -> Path): (p: Paths)
    ensures !Overrides(env, SYSTEM_SOURCES_VAR) ==> p.systemSources == "/etc/mcp/sources.list"
    ensures !Overrides(env, SYSTEM_INSTALL_VAR) ==> p.systemInstallDir == "/usr/share/mcp/installed/"
    ensures !Overrides(env, USER_SOURCES_VAR) && configDir.None?
            ==> p.userSources == expandTilde("~/.config/mcp/sources.list")
    ensures !Overrides(env, USER_INSTALL_VAR) && dataLocalDir.None?
            ==> p.userInstallDir == expandTilde("~/.local/share/mcp/installed/")
    ensures !Overrides(env, USER_SOURCES_VAR) && configDir.Some?
            ==> p.userSources == Join(configDir.value, "mcp/sources.list")
    ensures !Overrides(env, USER_INSTALL_VAR) && dataLocalDir.Some?
            ==> p.userInstallDir == Join(dataLocalDir.value, "mcp/installed")
    ensures Overrides(env, USER_INSTALL_VAR) ==> p.userInstallDir == expandTilde(Trim(env[USER_INSTALL_VAR]))
    ensures Overrides(env, SYSTEM_INSTALL_VAR) ==> p.systemInstallDir == expandTilde(Trim(env[SYSTEM_INSTALL_VAR]))
  {
    Paths(
      ResolvePath(env, USER_SOURCES_VAR, MapJoin(configDir, "mcp/sources.list"), "~/.config/mcp/sources.list", expandTilde),
      ResolvePath(env, USER_INSTALL_VAR, MapJoin(dataLocalDir, "mcp/installed"), "~/.local/share/mcp/installed/", expandTilde),
      ResolvePath(env, SYSTEM_SOURCES_VAR, Some("/etc/mcp/sources.list"), "/etc/mcp/sources.list", expandTilde),
      ResolvePath(env, SYSTEM_INSTALL_VAR, Some("/usr/share/mcp/installed/"), "/usr/share/mcp/installed/", expandTilde))
  }

  /** Each location depends only on its own variable: two environments that agree on it give the same location. */
  lemma FieldsUseOwnVariable(env1: map<string, string>, env2: map<string, string>, configDir: Option<Path>,
                             dataLocalDir: Option<Path>, expandTilde: string -> Path)
    ensures var p1, p2 := Resolve(env1, configDir, dataLocalDir, expandTilde), Resolve(env2, configDir, dataLocalDir, expandTilde);
      && (Overrides(env1, USER_SOURCES_VAR) == Overrides(env2, USER_SOURCES_VAR)
          && (Overrides(env1, USER_SOURCES_VAR) ==> Trim(env1[USER_SOURCES_VAR]) == Trim(env2[USER_SOURCES_VAR]))
          ==> p1.userSources == p2.userSources)
      && (Overrides(env1, USER_INSTALL_VAR) == Overrides(env2, USER_INSTALL_VAR)
          && (Overrides(env1, USER_INSTALL_VAR) ==> Trim(env1[USER_INSTALL_VAR]) == Trim(env2[USER_INSTALL_VAR]))
          ==> p1.userInstallDir == p2.userInstallDir)
      && (Overrides(env1, SYSTEM_SOURCES_VAR) == Overrides(env2, SYSTEM_SOURCES_VAR)
          && (Overrides(env1, SYSTEM_SOURCES_VAR) ==> Trim(env1[SYSTEM_SOURCES_VAR]) == Trim(env2[SYSTEM_SOURCES_VAR]))
          ==> p1.systemSources == p2.systemSources)
      && (Overrides(env1, SYSTEM_INSTALL_VAR) == Overrides(env2, SYSTEM_INSTALL_VAR)
          && (Overrides(env1, SYSTEM_INSTALL_VAR) ==> Trim(env1[SYSTEM_INSTALL_VAR]) == Trim(env2[SYSTEM_INSTALL_VAR]))
          ==> p1.systemInstallDir == p2.systemInstallDir)
  {
  }
}
