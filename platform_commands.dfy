/** The platform commands exposed to the front end. Each is a platform guard
    around a call into `PlatformUtils`, or a mapping of its result. Paths are
    rendered as strings by `to_string_lossy`, which is the identity here. */
module PlatformCommands {
  import opened Common
  import opened PlatformUtils

  /** The JSON object built by `get_platform_info`. */
  datatype PlatformInfo = PlatformInfo(
    os: string, arch: string, family: string,
    antigravityAvailable: bool, antigravityPaths: seq<Path>,
    configDir: Option<Path>, dataDir: Option<Path>, homeDir: Option<Path>)

  /** `std::env::consts::OS`. */
  function OsName(os: Os): string
  {
    match os
    case Windows => "windows"
    case MacOS => "macos"
    case Linux => "linux"
    case OtherOs(name) => name
  }

  /** The reported OS name identifies the OS the model behaves as. */
  lemma OsNameIdentifiesOs(a: Os, b: Os)
    requires WellNamedOs(a) && WellNamedOs(b)
    requires OsName(a) == OsName(b)
    ensures a == b
  {
  }

  /** `get_platform_info`. */
  function GetPlatformInfo(env: Env): (info: PlatformInfo)
    ensures info.os == OsName(env.os) && info.arch == env.arch && info.family == env.family
    ensures info.antigravityAvailable <==>
      AntigravityDbPath(env).Some? && PathExists(env.fs, AntigravityDbPath(env).value)
    ensures AntigravityDbPath(env).Some? ==>
      |info.antigravityPaths| > 0 && info.antigravityPaths[0] == AntigravityDbPath(env).value
    ensures info.antigravityPaths == AllAntigravityDbPaths(env)
    ensures info.configDir == env.configDir && info.dataDir == env.dataDir && info.homeDir == env.homeDir
  {
    AllDbPathsShape(env);
    PlatformInfo(
      OsName(env.os), env.arch, env.family,
      IsAntigravityAvailable(env), AllAntigravityDbPaths(env),
      env.configDir, env.dataDir, env.homeDir)
  }

  /** The `find_antigravity_installations` command: the discovery list, in order. */
  function FindAntigravityInstallations(env: Env): (paths: seq<Path>)
    ensures paths == PlatformUtils.FindAntigravityInstallations(env)
  {
    var found := PlatformUtils.FindAntigravityInstallations(env);
    seq(|found|, k requires 0 <= k < |found| => found[k])
  }

  /** `validate_antigravity_path`: `path/state.vscdb` exists and is a regular file. */
  function ValidateAntigravityPath(fs: FileSystem, path: Path): (valid: bool)
    ensures valid <==> path + [DbFileName] in fs.files
  {
    var dbPath := path + [DbFileName];
    PathExists(fs, dbPath) && IsFile(fs, dbPath)
  }

  /** On a well-formed file system a directory named `state.vscdb` does not
      validate, although it exists. */
  lemma ValidateRejectsDirectory(fs: FileSystem, path: Path)
    requires WellFormed(fs)
    requires path + [DbFileName] in fs.dirs
    ensures PathExists(fs, path + [DbFileName])
    ensures !ValidateAntigravityPath(fs, path)
  {
    assert path + [DbFileName] !in fs.files;
  }

  /** On a well-formed file system a regular file is not a valid data
      directory: nothing can exist below it. */
  lemma ValidateRejectsFile(fs: FileSystem, path: Path)
    requires WellFormed(fs)
    requires path in fs.files
    ensures !ValidateAntigravityPath(fs, path)
  {
    var db := path + [DbFileName];
    assert db[..|path|] == path && |path| < |db|;
  }

  /** A `state.vscdb` one level deeper has no influence: adding it to the
      file system leaves the answer for `path` unchanged. */
  lemma ValidateIgnoresDeeperDatabase(fs: FileSystem, path: Path, sub: string)
    ensures ValidateAntigravityPath(fs.(files := fs.files + {path + [sub, DbFileName]}), path) ==
            ValidateAntigravityPath(fs, path)
  {
    assert |path + [sub, DbFileName]| != |path + [DbFileName]|;
  }

  /** The data directory validates exactly when the target app is available
      and its database path is a regular file, not a directory. */
  lemma DataDirValidationVsAvailability(env: Env)
    requires AntigravityDataDir(env).Some?
    ensures ValidateAntigravityPath(env.fs, AntigravityDataDir(env).value) ==> IsAntigravityAvailable(env)
    ensures IsAntigravityAvailable(env) && !ValidateAntigravityPath(env.fs, AntigravityDataDir(env).value) <==>
      AntigravityDbPath(env).value in env.fs.dirs && AntigravityDbPath(env).value !in env.fs.files
  {
  }

  /** `is_antigravity_running`. */
  function IsAntigravityRunning(env: Env): (running: bool)
    ensures env.os != Windows ==> !running
    ensures running <==> (env.os == Windows &&
      exists i :: 0 <= i < |env.processes| && RunsAntigravity(env.processes[i], env.fs))
  {
    if env.os != Windows then false else IsAntigravityProcessRunning(env)
  }

  /** `resolve_antigravity_path`: None without resolving off Windows; on
      Windows the resolver's result. */
  method ResolveAntigravityPath(env: Env, store: ConfigStore) returns (r: Result<Option<Path>, string>)
    modifies store
    ensures r.Ok?
    ensures env.os != Windows ==> r.value == None && store.file == old(store.file)
    ensures env.os == Windows ==> r.value == ResolvedAntigravityExe(env, store.dirCreatable, old(store.file))
    ensures env.os == Windows ==>
      store.file ==
        (if r.value.Some? && LoadPersistedAntigravityPath(env.os, store.dirCreatable, old(store.file), env.fs).None? &&
            store.dirCreatable && store.writable
         then Stored(AgentConfig(r.value))
         else old(store.file))
  {
    if env.os != Windows {
      return Ok(None);
    }
    var resolved := ResolveAntigravityExeWindows(env, store);
    r := Ok(resolved);
  }

  /** `save_antigravity_path`: Ok without persisting off Windows; on Windows
      the persist result unchanged. */
  method SaveAntigravityPath(env: Env, store: ConfigStore, path: Path) returns (r: Result<(), ConfigError>)
    modifies store
    ensures env.os != Windows ==> r == Ok(()) && store.file == old(store.file)
    ensures env.os == Windows && path !in env.fs.files ==> r == Err(InvalidExePath) && store.file == old(store.file)
    ensures env.os == Windows && path in env.fs.files ==>
      r == SaveResult(store.dirCreatable, store.writable) &&
      store.file == (if r.Ok? then Stored(AgentConfig(Some(path))) else old(store.file))
  {
    if env.os != Windows {
      return Ok(());
    }
    r := store.PersistAntigravityPath(env.os, env.fs, path);
  }
}
