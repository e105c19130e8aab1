/** Discovery of the Antigravity installation: its data directory and state
    database, candidate install roots, the persisted executable path on
    Windows, running processes, and termination by name. The real
    environment is an `Env` value: the OS kind, the optional well-known
    directories, the file system and the process table. */
module PlatformUtils {
  import opened Common

  /** `std::env::consts::OS`. `OtherOs` stands for every other value of that
      constant, so its name is never "windows", "macos" or "linux"
      (`WellNamedOs`). */
  datatype Os = Windows | MacOS | Linux | OtherOs(name: string)

  predicate WellNamedOs(os: Os)
  {
    os.OtherOs? ==> os.name != "windows" && os.name != "macos" && os.name != "linux"
  }

  const AppName: string := "Antigravity"
  const DbFileName: string := "state.vscdb"
  const ExeName: string := "Antigravity.exe"
  const GlobalStorageSuffix: Path := [AppName, "User", "globalStorage"]

  /** Regular files, directories, and the entry names `read_dir` yields for
      each directory it can open (a directory missing from `listing` cannot
      be read). */
  datatype FileSystem = FileSystem(files: set<Path>, dirs: set<Path>, listing: map<Path, seq<string>>)

  /** One entry of the process table: its name and, when known, its executable. */
  datatype Process = Process(name: string, exe: Option<Path>)

  datatype Env = Env(
    os: Os, arch: string, family: string,
    configDir: Option<Path>, dataDir: Option<Path>,
    homeDir: Option<Path>, dataLocalDir: Option<Path>,
    fs: FileSystem, processes: seq<Process>)

  /** `Path::exists`. */
  predicate PathExists(fs: FileSystem, p: Path)
  {
    p in fs.files || p in fs.dirs
  }

  /** `Path::is_file`. */
  predicate IsFile(fs: FileSystem, p: Path)
  {
    p in fs.files
  }

  /** On a real file system no path is both a regular file and a directory,
      and nothing exists below a regular file. */
  ghost predicate WellFormed(fs: FileSystem)
  {
    fs.files !! fs.dirs &&
    forall f, q :: f in fs.files && PathExists(fs, q) && |f| < |q| ==> q[..|f|] != f
  }

  /** `validate_antigravity_exe`: the path is a regular file. */
  predicate ValidateAntigravityExe(fs: FileSystem, p: Path)
  {
    IsFile(fs, p)
  }

  // ---------------------------------------------------------------------
  // Data directory and database path

  function GlobalStorageUnder(base: Option<Path>): Option<Path>
  {
    match base
    case None => None
    case Some(b) => Some(b + GlobalStorageSuffix)
  }

  /** `get_antigravity_data_dir`. */
  function AntigravityDataDir(env: Env): Option<Path>
  {
    match env.os
    case Windows => GlobalStorageUnder(env.configDir)
    case Linux =>
      if env.configDir.Some? then GlobalStorageUnder(env.configDir) else GlobalStorageUnder(env.dataDir)
    case MacOS => GlobalStorageUnder(env.dataDir)
    case OtherOs(_) => GlobalStorageUnder(env.dataDir)
  }

  /** Which base directory each OS uses, and when the data directory is absent. */
  lemma DataDirSelection(env: Env)
    ensures env.os == Windows ==>
      (AntigravityDataDir(env).Some? <==> env.configDir.Some?) &&
      (env.configDir.Some? ==> AntigravityDataDir(env) == Some(env.configDir.value + GlobalStorageSuffix))
    ensures env.os == Linux ==>
      (AntigravityDataDir(env).Some? <==> env.configDir.Some? || env.dataDir.Some?) &&
      (env.configDir.Some? ==> AntigravityDataDir(env) == Some(env.configDir.value + GlobalStorageSuffix)) &&
      (env.configDir.None? && env.dataDir.Some? ==>
         AntigravityDataDir(env) == Some(env.dataDir.value + GlobalStorageSuffix))
    ensures env.os != Windows && env.os != Linux ==>
      (AntigravityDataDir(env).Some? <==> env.dataDir.Some?) &&
      (env.dataDir.Some? ==> AntigravityDataDir(env) == Some(env.dataDir.value + GlobalStorageSuffix))
  {
  }

  /** `get_antigravity_db_path`. */
  function AntigravityDbPath(env: Env): Option<Path>
  {
    match AntigravityDataDir(env)
    case None => None
    case Some(dir) => Some(dir + [DbFileName])
  }

  /** The database path is defined exactly when the data directory is; it is
      the file `state.vscdb` directly inside the data directory. */
  lemma DbPathShape(env: Env)
    ensures AntigravityDbPath(env).Some? <==> AntigravityDataDir(env).Some?
    ensures AntigravityDbPath(env).Some? ==>
      var p := AntigravityDbPath(env).value;
      |p| > 0 && FileName(p) == DbFileName && Parent(p) == AntigravityDataDir(env).value
  {
  }

  /** `is_antigravity_available`: the database path exists (as a file or a directory). */
  function IsAntigravityAvailable(env: Env): (r: bool)
    ensures AntigravityDbPath(env).None? ==> !r
    ensures r <==> AntigravityDataDir(env).Some? && PathExists(env.fs, AntigravityDataDir(env).value + [DbFileName])
  {
    match AntigravityDbPath(env)
    case None => false
    case Some(p) => PathExists(env.fs, p)
  }

  // ---------------------------------------------------------------------
  // Candidate locations

  /** `find_antigravity_installations`: the data dir, then the config dir, each
      joined with the app name. */
  function FindAntigravityInstallations(env: Env): seq<Path>
  {
    (if env.dataDir.Some? then [env.dataDir.value + [AppName]] else []) +
    (if env.configDir.Some? then [env.configDir.value + [AppName]] else [])
  }

  /** One root per defined directory, each ending in the app name, the
      data-dir root first and the config-dir root last. */
  lemma InstallationsShape(env: Env)
    ensures var r := FindAntigravityInstallations(env);
      |r| == (if env.dataDir.Some? then 1 else 0) + (if env.configDir.Some? then 1 else 0) &&
      (forall k :: 0 <= k < |r| ==> |r[k]| > 0 && FileName(r[k]) == AppName) &&
      (env.dataDir.Some? ==> r[0] == env.dataDir.value + [AppName]) &&
      (env.configDir.Some? ==> r[|r| - 1] == env.configDir.value + [AppName])
  {
  }

  const HomeProgramsExe: Path := ["AppData", "Local", "Programs", "Antigravity", ExeName]
  const HomeRoamingProgramsExe: Path := ["AppData", "Roaming", "Local", "Programs", "Antigravity", ExeName]
  const LocalProgramsExe: Path := ["Programs", "Antigravity", ExeName]
  const ProgramFilesExe: Path := ["C:", "Program Files", "Antigravity", ExeName]
  const ProgramFilesX86Exe: Path := ["C:", "Program Files (x86)", "Antigravity", ExeName]

  /** `get_antigravity_windows_paths`: home-relative locations, then the
      local-data location, then the two system-wide Program Files locations. */
  function GetAntigravityWindowsPaths(env: Env): seq<Path>
  {
    (if env.homeDir.Some?
     then [env.homeDir.value + HomeProgramsExe, env.homeDir.value + HomeRoamingProgramsExe]
     else []) +
    (if env.dataLocalDir.Some? then [env.dataLocalDir.value + LocalProgramsExe] else []) +
    [ProgramFilesExe, ProgramFilesX86Exe]
  }

  /** Two home-relative candidates when the home dir is known, one local-data
      candidate when that dir is known, and always the two Program Files
      candidates last; every candidate names `Antigravity.exe`. */
  lemma WindowsPathsShape(env: Env)
    ensures var r := GetAntigravityWindowsPaths(env);
      |r| == (if env.homeDir.Some? then 2 else 0) + (if env.dataLocalDir.Some? then 1 else 0) + 2 &&
      (forall k :: 0 <= k < |r| ==> |r[k]| > 0 && FileName(r[k]) == ExeName) &&
      r[|r| - 2..] == [ProgramFilesExe, ProgramFilesX86Exe] &&
      (env.homeDir.Some? ==>
         r[..2] == [env.homeDir.value + HomeProgramsExe, env.homeDir.value + HomeRoamingProgramsExe]) &&
      (env.dataLocalDir.Some? ==> r[|r| - 3] == env.dataLocalDir.value + LocalProgramsExe)
  {
  }

  // ---------------------------------------------------------------------
  // The persisted executable path

  /** The one field of `AgentConfig` (`antigravityPath` in JSON). */
  datatype AgentConfig = AgentConfig(antigravityPath: Option<Path>)

  const DefaultAgentConfig: AgentConfig := AgentConfig(None)

  /** The state of `config.json` as `load_agent_config` finds it. */
  datatype ConfigFile = Missing | Unreadable | Malformed | Stored(config: AgentConfig)

  datatype ConfigError = CreateDirFailed | ReadFailed | ParseFailed | WriteFailed | InvalidExePath

  /** `load_agent_config`; `dirCreatable` says whether `create_dir_all` of the
      companion's config directory succeeds. */
  function LoadAgentConfig(dirCreatable: bool, file: ConfigFile): (r: Result<AgentConfig, ConfigError>)
    ensures r.Ok? <==> dirCreatable && (file.Missing? || file.Stored?)
    ensures r.Ok? ==> r.value == (if file.Stored? then file.config else DefaultAgentConfig)
    ensures !dirCreatable ==> r == Err(CreateDirFailed)
  {
    if !dirCreatable then Err(CreateDirFailed)
    else match file
      case Missing => Ok(DefaultAgentConfig)
      case Unreadable => Err(ReadFailed)
      case Malformed => Err(ParseFailed)
      case Stored(c) => Ok(c)
  }

  /** `load_persisted_antigravity_path`: the stored path, only on Windows and
      only while it is still a regular file; any load error gives None. */
  function LoadPersistedAntigravityPath(os: Os, dirCreatable: bool, file: ConfigFile, fs: FileSystem): (r: Option<Path>)
    ensures r.Some? <==>
      os == Windows && dirCreatable && file.Stored? &&
      file.config.antigravityPath.Some? && file.config.antigravityPath.value in fs.files
    ensures r.Some? ==> r == file.config.antigravityPath
  {
    if os != Windows then None
    else match LoadAgentConfig(dirCreatable, file)
      case Err(_) => None
      case Ok(cfg) =>
        if cfg.antigravityPath.Some? && ValidateAntigravityExe(fs, cfg.antigravityPath.value)
        then cfg.antigravityPath else None
  }

  /** What `save_agent_config` returns for the given I/O outcomes. */
  function SaveResult(dirCreatable: bool, writable: bool): Result<(), ConfigError>
  {
    if !dirCreatable then Err(CreateDirFailed)
    else if !writable then Err(WriteFailed)
    else Ok(())
  }

  /** A path written by a successful persist reads back exactly. */
  lemma PersistedPathReadsBack(fs: FileSystem, path: Path)
    requires path in fs.files
    ensures LoadPersistedAntigravityPath(Windows, true, Stored(AgentConfig(Some(path))), fs) == Some(path)
  {
  }

  /** The companion's `config.json`. `dirCreatable` and `writable` fix whether
      creating its directory and writing it succeed; a failed write leaves
      the file as it was. */
  class ConfigStore {
    var file: ConfigFile
    const dirCreatable: bool
    const writable: bool

    constructor (file: ConfigFile, dirCreatable: bool, writable: bool)
      ensures this.file == file && this.dirCreatable == dirCreatable && this.writable == writable
    {
      this.file := file;
      this.dirCreatable := dirCreatable;
      this.writable := writable;
    }

    /** `save_agent_config`: overwrite the whole file. */
    method SaveAgentConfig(config: AgentConfig) returns (r: Result<(), ConfigError>)
      modifies this
      ensures r == SaveResult(dirCreatable, writable)
      ensures file == (if r.Ok? then Stored(config) else old(file))
    {
      if !dirCreatable {
        return Err(CreateDirFailed);
      }
      if !writable {
        return Err(WriteFailed);
      }
      file := Stored(config);
      r := Ok(());
    }

    /** `persist_antigravity_path`: a no-op on other OSes; otherwise validate,
        load (or start from the default), set the path, and save. */
    method PersistAntigravityPath(os: Os, fs: FileSystem, path: Path) returns (r: Result<(), ConfigError>)
      modifies this
      ensures os != Windows ==> r == Ok(()) && file == old(file)
      ensures os == Windows && !ValidateAntigravityExe(fs, path) ==>
        r == Err(InvalidExePath) && file == old(file)
      ensures os == Windows && ValidateAntigravityExe(fs, path) ==>
        r == SaveResult(dirCreatable, writable) &&
        file == (if r.Ok? then Stored(AgentConfig(Some(path))) else old(file))
    {
      if os != Windows {
        return Ok(());
      }
      if !ValidateAntigravityExe(fs, path) {
        return Err(InvalidExePath);
      }
      var config := match LoadAgentConfig(dirCreatable, file)
        case Ok(c) => c
        case Err(_) => DefaultAgentConfig;
      config := config.(antigravityPath := Some(path));
      r := SaveAgentConfig(config);
    }
  }

  // ---------------------------------------------------------------------
  // Running processes

  const WindowsProcessNames: seq<string> := [ExeName, AppName]

  /** The process has a name containing `pattern` and a validating executable `p`. */
  predicate Yields(proc: Process, pattern: string, fs: FileSystem, p: Path)
  {
    Contains(proc.name, pattern) && proc.exe == Some(p) && ValidateAntigravityExe(fs, p)
  }

  /** One `processes_by_name(pattern)` pass of `find_running_antigravity_exes`,
      in process-table order. */
  function MatchingExes(procs: seq<Process>, pattern: string, fs: FileSystem): (r: seq<Path>)
    ensures forall k :: 0 <= k < |r| ==> r[k] in fs.files
    decreases |procs|
  {
    if procs == [] then []
    else
      var last := procs[|procs| - 1];
      MatchingExes(procs[..|procs| - 1], pattern, fs) +
      (if Contains(last.name, pattern) && last.exe.Some? && ValidateAntigravityExe(fs, last.exe.value)
       then [last.exe.value] else [])
  }

  lemma {:induction false} MatchingExesMembers(procs: seq<Process>, pattern: string, fs: FileSystem, p: Path)
    ensures p in MatchingExes(procs, pattern, fs) <==> exists i :: 0 <= i < |procs| && Yields(procs[i], pattern, fs, p)
    decreases |procs|
  {
    if procs != [] {
      var n := |procs|;
      var init := procs[..n - 1];
      MatchingExesMembers(init, pattern, fs, p);
      if p in MatchingExes(procs, pattern, fs) {
        if p in MatchingExes(init, pattern, fs) {
          var i :| 0 <= i < |init| && Yields(init[i], pattern, fs, p);
          assert procs[i] == init[i];
        } else {
          assert Yields(procs[n - 1], pattern, fs, p);
        }
      }
      if exists i :: 0 <= i < n && Yields(procs[i], pattern, fs, p) {
        var i :| 0 <= i < n && Yields(procs[i], pattern, fs, p);
        if i < n - 1 {
          assert init[i] == procs[i];
        }
      }
    }
  }

  /** The result of `find_running_antigravity_exes`: empty off Windows, else the
      `Antigravity.exe` pass followed by the `Antigravity` pass. */
  function RunningAntigravityExes(env: Env): (r: seq<Path>)
    ensures forall k :: 0 <= k < |r| ==> r[k] in env.fs.files
  {
    if env.os != Windows then []
    else MatchingExes(env.processes, ExeName, env.fs) + MatchingExes(env.processes, AppName, env.fs)
  }

  /** The process counts as Antigravity for `is_antigravity_process_running`. */
  predicate RunsAntigravity(proc: Process, fs: FileSystem)
  {
    Contains(proc.name, AppName) && proc.exe.Some? && ValidateAntigravityExe(fs, proc.exe.value)
  }

  lemma ExeNameExtendsAppName()
    ensures ExeName == AppName + ".exe"
  {
  }

  lemma RunningNonEmptyIff(env: Env)
    ensures RunningAntigravityExes(env) != [] <==>
      env.os == Windows && exists i :: 0 <= i < |env.processes| && RunsAntigravity(env.processes[i], env.fs)
  {
    if env.os == Windows {
      var procs, fs := env.processes, env.fs;
      if RunningAntigravityExes(env) != [] {
        var p := RunningAntigravityExes(env)[0];
        if p in MatchingExes(procs, ExeName, fs) {
          MatchingExesMembers(procs, ExeName, fs, p);
          var i :| 0 <= i < |procs| && Yields(procs[i], ExeName, fs, p);
          ExeNameExtendsAppName();
          ContainsPrefixOfPattern(procs[i].name, AppName, ".exe");
          assert RunsAntigravity(procs[i], fs);
        } else {
          MatchingExesMembers(procs, AppName, fs, p);
          var i :| 0 <= i < |procs| && Yields(procs[i], AppName, fs, p);
          assert RunsAntigravity(procs[i], fs);
        }
      }
      if exists i :: 0 <= i < |procs| && RunsAntigravity(procs[i], fs) {
        var i :| 0 <= i < |procs| && RunsAntigravity(procs[i], fs);
        MatchingExesMembers(procs, AppName, fs, procs[i].exe.value);
        assert procs[i].exe.value in MatchingExes(procs, AppName, fs);
      }
    }
  }

  /** A process whose name contains `Antigravity.exe` matches both patterns, so
      its executable is reported at least twice. */
  lemma {:induction false} ExeNameProcessReportedTwice(env: Env, i: nat)
    requires env.os == Windows && i < |env.processes|
    requires Contains(env.processes[i].name, ExeName)
    requires env.processes[i].exe.Some? && env.processes[i].exe.value in env.fs.files
    ensures multiset(RunningAntigravityExes(env))[env.processes[i].exe.value] >= 2
  {
    var procs, fs, p := env.processes, env.fs, env.processes[i].exe.value;
    assert Yields(procs[i], ExeName, fs, p);
    MatchingExesMembers(procs, ExeName, fs, p);
    ExeNameExtendsAppName();
    ContainsPrefixOfPattern(procs[i].name, AppName, ".exe");
    assert Yields(procs[i], AppName, fs, p);
    MatchingExesMembers(procs, AppName, fs, p);
    var a, b := MatchingExes(procs, ExeName, fs), MatchingExes(procs, AppName, fs);
    assert multiset(a + b) == multiset(a) + multiset(b);
    assert p in multiset(a) && p in multiset(b);
  }

  /** `find_running_antigravity_exes`. */
  method FindRunningAntigravityExes(env: Env) returns (paths: seq<Path>)
    ensures paths == RunningAntigravityExes(env)
  {
    if env.os != Windows {
      return [];
    }
    var procs, fs := env.processes, env.fs;
    paths := [];
    var i := 0;
    while i < |procs|
      invariant 0 <= i <= |procs|
      invariant paths == MatchingExes(procs[..i], ExeName, fs)
    {
      var proc := procs[i];
      if proc.exe.Some? && Contains(proc.name, ExeName) && ValidateAntigravityExe(fs, proc.exe.value) {
        paths := paths + [proc.exe.value];
      }
      assert procs[..i + 1][..i] == procs[..i];
      i := i + 1;
    }
    assert procs[..i] == procs;
    var first := paths;
    i := 0;
    while i < |procs|
      invariant 0 <= i <= |procs|
      invariant paths == first + MatchingExes(procs[..i], AppName, fs)
    {
      var proc := procs[i];
      if proc.exe.Some? && Contains(proc.name, AppName) && ValidateAntigravityExe(fs, proc.exe.value) {
        paths := paths + [proc.exe.value];
      }
      assert procs[..i + 1][..i] == procs[..i];
      i := i + 1;
    }
    assert procs[..i] == procs;
  }

  /** `is_antigravity_process_running`. */
  function IsAntigravityProcessRunning(env: Env): (r: bool)
    ensures r <==> (env.os == Windows &&
      exists i :: 0 <= i < |env.processes| && RunsAntigravity(env.processes[i], env.fs))
  {
    RunningNonEmptyIff(env);
    env.os == Windows && RunningAntigravityExes(env) != []
  }

  // ---------------------------------------------------------------------
  // Resolving the executable on Windows

  /** The index of the first regular file in `paths`, or `|paths|` if none. */
  function FirstValidIndex(paths: seq<Path>, fs: FileSystem): (k: nat)
    ensures k <= |paths|
    ensures forall j :: 0 <= j < k ==> paths[j] !in fs.files
    ensures k < |paths| ==> paths[k] in fs.files
    decreases |paths|
  {
    if paths == [] then 0
    else if ValidateAntigravityExe(fs, paths[0]) then 0
    else 1 + FirstValidIndex(paths[1..], fs)
  }

  /** What `resolve_antigravity_exe_windows` returns, given the config file as
      it is when the call starts. */
  function ResolvedAntigravityExe(env: Env, dirCreatable: bool, file: ConfigFile): (r: Option<Path>)
    ensures r.Some? ==> env.os == Windows && r.value in env.fs.files
  {
    if env.os != Windows then None
    else
      var persisted := LoadPersistedAntigravityPath(env.os, dirCreatable, file, env.fs);
      if persisted.Some? then persisted
      else
        var candidates := GetAntigravityWindowsPaths(env);
        var k := FirstValidIndex(candidates, env.fs);
        if k < |candidates| then Some(candidates[k])
        else
          var running := RunningAntigravityExes(env);
          if running != [] then Some(running[0]) else None
  }

  /** Resolution finds nothing exactly when: not on Windows, or there is no
      valid persisted path, no candidate location is a regular file, and no
      running Antigravity process has a validating executable. */
  lemma ResolvedNoneIff(env: Env, dirCreatable: bool, file: ConfigFile)
    ensures ResolvedAntigravityExe(env, dirCreatable, file).None? <==>
      env.os != Windows ||
      (LoadPersistedAntigravityPath(env.os, dirCreatable, file, env.fs).None? &&
       (forall j :: 0 <= j < |GetAntigravityWindowsPaths(env)| ==> GetAntigravityWindowsPaths(env)[j] !in env.fs.files) &&
       (forall i :: 0 <= i < |env.processes| ==> !RunsAntigravity(env.processes[i], env.fs)))
  {
    RunningNonEmptyIff(env);
  }

  /** Once a resolved path has been persisted, resolving again returns the same
      path (from the persisted step). */
  lemma ResolutionStableAfterPersist(env: Env, file: ConfigFile, p: Path)
    requires ResolvedAntigravityExe(env, true, file) == Some(p)
    ensures ResolvedAntigravityExe(env, true, Stored(AgentConfig(Some(p)))) == Some(p)
  {
  }

  /** A valid persisted path wins over every other source. */
  lemma PersistedPathTakesPrecedence(env: Env, dirCreatable: bool, file: ConfigFile)
    requires env.os == Windows
    requires LoadPersistedAntigravityPath(env.os, dirCreatable, file, env.fs).Some?
    ensures ResolvedAntigravityExe(env, dirCreatable, file) == LoadPersistedAntigravityPath(env.os, dirCreatable, file, env.fs)
  {
  }

  /** `resolve_antigravity_exe_windows`. A path found at the candidate or
      running-process step is persisted; a failure to persist is ignored. */
  method ResolveAntigravityExeWindows(env: Env, store: ConfigStore) returns (r: Option<Path>)
    modifies store
    ensures r == ResolvedAntigravityExe(env, store.dirCreatable, old(store.file))
    ensures store.file ==
      (if r.Some? && LoadPersistedAntigravityPath(env.os, store.dirCreatable, old(store.file), env.fs).None? &&
          store.dirCreatable && store.writable
       then Stored(AgentConfig(r)) else old(store.file))
  {
    if env.os != Windows {
      return None;
    }
    var persisted := LoadPersistedAntigravityPath(env.os, store.dirCreatable, store.file, env.fs);
    if persisted.Some? {
      return persisted;
    }
    var candidates := GetAntigravityWindowsPaths(env);
    var i := 0;
    while i < |candidates|
      invariant 0 <= i <= |candidates|
      invariant forall j :: 0 <= j < i ==> candidates[j] !in env.fs.files
      invariant store.file == old(store.file)
    {
      if ValidateAntigravityExe(env.fs, candidates[i]) {
        assert FirstValidIndex(candidates, env.fs) == i;
        var persistResult := store.PersistAntigravityPath(env.os, env.fs, candidates[i]);
        return Some(candidates[i]);
      }
      i := i + 1;
    }
    assert FirstValidIndex(candidates, env.fs) == |candidates|;
    var running := FindRunningAntigravityExes(env);
    if |running| > 0 {
      var persistResult := store.PersistAntigravityPath(env.os, env.fs, running[0]);
      return Some(running[0]);
    }
    return None;
  }

  // ---------------------------------------------------------------------
  // All database paths

  /** The entries of one directory listing that are regular files named
      `state.vscdb`, in listing order. */
  function DbFilesInListing(dir: Path, names: seq<string>, fs: FileSystem): seq<Path>
    decreases |names|
  {
    if names == [] then []
    else
      var path := dir + [names[|names| - 1]];
      DbFilesInListing(dir, names[..|names| - 1], fs) +
      (if IsFile(fs, path) && FileName(path) == DbFileName then [path] else [])
  }

  /** Each entry kept from a listing is the regular file `dir/state.vscdb`. */
  lemma {:induction false} DbFilesInListingSound(dir: Path, names: seq<string>, fs: FileSystem)
    ensures forall p :: p in DbFilesInListing(dir, names, fs) ==> p == dir + [DbFileName] && p in fs.files
    decreases |names|
  {
    if names != [] {
      DbFilesInListingSound(dir, names[..|names| - 1], fs);
    }
  }

  /** The scan of one install directory: skipped when it does not exist or
      cannot be read. */
  function ScanInstallDir(dir: Path, fs: FileSystem): seq<Path>
  {
    if PathExists(fs, dir) && dir in fs.listing then DbFilesInListing(dir, fs.listing[dir], fs) else []
  }

  /** The scans of the install roots, concatenated in list order. */
  function DbFilesInInstallDirs(dirs: seq<Path>, fs: FileSystem): seq<Path>
    decreases |dirs|
  {
    if dirs == [] then []
    else DbFilesInInstallDirs(dirs[..|dirs| - 1], fs) + ScanInstallDir(dirs[|dirs| - 1], fs)
  }

  /** A database path found by scanning one of `dirs`: a regular file named
      `state.vscdb` directly inside an existing root of `dirs`. */
  predicate FoundInRoots(p: Path, dirs: seq<Path>, fs: FileSystem)
  {
    |p| > 0 && FileName(p) == DbFileName && p in fs.files &&
    Parent(p) in dirs && PathExists(fs, Parent(p)) && Parent(p) in fs.listing
  }

  lemma {:induction false} DbFilesInInstallDirsSound(dirs: seq<Path>, fs: FileSystem)
    ensures forall p :: p in DbFilesInInstallDirs(dirs, fs) ==> FoundInRoots(p, dirs, fs)
    decreases |dirs|
  {
    if dirs != [] {
      var init, dir := dirs[..|dirs| - 1], dirs[|dirs| - 1];
      DbFilesInInstallDirsSound(init, fs);
      var head, scan := DbFilesInInstallDirs(init, fs), ScanInstallDir(dir, fs);
      forall p | p in head + scan
        ensures FoundInRoots(p, dirs, fs)
      {
        if p in head {
          assert FoundInRoots(p, init, fs);
          var i :| 0 <= i < |init| && init[i] == Parent(p);
          assert dirs[i] == Parent(p);
        } else {
          assert PathExists(fs, dir) && dir in fs.listing;
          DbFilesInListingSound(dir, fs.listing[dir], fs);
          assert p == dir + [DbFileName];
          assert Parent(p) == dir;
        }
      }
    }
  }

  lemma {:induction false} DbFilesInInstallDirsAppend(a: seq<Path>, b: seq<Path>, fs: FileSystem)
    ensures DbFilesInInstallDirs(a + b, fs) == DbFilesInInstallDirs(a, fs) + DbFilesInInstallDirs(b, fs)
    decreases |b|
  {
    if b == [] {
      assert a + b == a;
    } else {
      var b' := b[..|b| - 1];
      assert (a + b)[..|a + b| - 1] == a + b';
      assert (a + b)[|a + b| - 1] == b[|b| - 1];
      DbFilesInInstallDirsAppend(a, b', fs);
    }
  }

  /** `get_all_antigravity_db_paths`, as a value. */
  function AllAntigravityDbPaths(env: Env): seq<Path>
  {
    var main := AntigravityDbPath(env);
    (if main.Some? then [main.value] else []) + DbFilesInInstallDirs(FindAntigravityInstallations(env), env.fs)
  }

  /** The main database path comes first when defined; every further entry is
      a regular file named `state.vscdb` directly inside an existing install root. */
  lemma AllDbPathsShape(env: Env)
    ensures AntigravityDbPath(env).Some? ==>
      |AllAntigravityDbPaths(env)| > 0 && AllAntigravityDbPaths(env)[0] == AntigravityDbPath(env).value
    ensures var start := if AntigravityDbPath(env).Some? then 1 else 0;
      start <= |AllAntigravityDbPaths(env)| &&
      forall p :: p in AllAntigravityDbPaths(env)[start..] ==> FoundInRoots(p, FindAntigravityInstallations(env), env.fs)
  {
    var main := AntigravityDbPath(env);
    var rest := DbFilesInInstallDirs(FindAntigravityInstallations(env), env.fs);
    DbFilesInInstallDirsSound(FindAntigravityInstallations(env), env.fs);
    var start := if main.Some? then 1 else 0;
    assert AllAntigravityDbPaths(env)[start..] == rest;
  }

  /** The further entries come from the data-dir root first, then the
      config-dir root, each in its own listing order. */
  lemma AllDbPathsOrder(env: Env)
    ensures AllAntigravityDbPaths(env) ==
      (if AntigravityDbPath(env).Some? then [AntigravityDbPath(env).value] else []) +
      (if env.dataDir.Some? then ScanInstallDir(env.dataDir.value + [AppName], env.fs) else []) +
      (if env.configDir.Some? then ScanInstallDir(env.configDir.value + [AppName], env.fs) else [])
  {
    var d: seq<Path> := if env.dataDir.Some? then [env.dataDir.value + [AppName]] else [];
    var c: seq<Path> := if env.configDir.Some? then [env.configDir.value + [AppName]] else [];
    assert FindAntigravityInstallations(env) == d + c;
    DbFilesInInstallDirsAppend(d, c, env.fs);
    if env.dataDir.Some? {
      assert d[..0] == [];
    }
    if env.configDir.Some? {
      assert c[..0] == [];
    }
  }

  /** When the data dir and the config dir coincide, both install roots are
      the same directory, so each database found there is reported twice. */
  lemma DbReportedTwiceWhenRootsCoincide(env: Env)
    requires env.dataDir.Some? && env.configDir == env.dataDir
    requires var dir := env.dataDir.value + [AppName];
      PathExists(env.fs, dir) && dir in env.fs.listing &&
      DbFileName in env.fs.listing[dir] && dir + [DbFileName] in env.fs.files
    ensures multiset(AllAntigravityDbPaths(env))[env.dataDir.value + [AppName, DbFileName]] >= 2
  {
    var dir := env.dataDir.value + [AppName];
    var p := dir + [DbFileName];
    assert p == env.dataDir.value + [AppName, DbFileName];
    AllDbPathsOrder(env);
    DbFilesInListingComplete(dir, env.fs.listing[dir], env.fs);
    var main: seq<Path> := if AntigravityDbPath(env).Some? then [AntigravityDbPath(env).value] else [];
    var scan := ScanInstallDir(dir, env.fs);
    assert AllAntigravityDbPaths(env) == main + scan + scan;
    assert multiset(main + scan + scan) == multiset(main) + multiset(scan) + multiset(scan);
    assert multiset(scan)[p] >= 1;
  }

  lemma {:induction false} DbFilesInListingComplete(dir: Path, names: seq<string>, fs: FileSystem)
    requires DbFileName in names && dir + [DbFileName] in fs.files
    ensures dir + [DbFileName] in DbFilesInListing(dir, names, fs)
    decreases |names|
  {
    var n := |names|;
    if names[n - 1] != DbFileName {
      assert DbFileName in names[..n - 1] by {
        var i :| 0 <= i < n && names[i] == DbFileName;
        assert names[..n - 1][i] == DbFileName;
      }
      DbFilesInListingComplete(dir, names[..n - 1], fs);
    }
  }

  /** Every readable, existing install root that lists a regular `state.vscdb`
      contributes it. */
  lemma AllDbPathsComplete(env: Env, dir: Path)
    requires dir in FindAntigravityInstallations(env)
    requires PathExists(env.fs, dir) && dir in env.fs.listing
    requires DbFileName in env.fs.listing[dir] && dir + [DbFileName] in env.fs.files
    ensures dir + [DbFileName] in AllAntigravityDbPaths(env)
  {
    AllDbPathsOrder(env);
    DbFilesInListingComplete(dir, env.fs.listing[dir], env.fs);
  }

  /** The inner loop of `get_all_antigravity_db_paths` over one directory listing. */
  method CollectDbFiles(dir: Path, names: seq<string>, fs: FileSystem) returns (found: seq<Path>)
    ensures found == DbFilesInListing(dir, names, fs)
  {
    found := [];
    var j := 0;
    while j < |names|
      invariant 0 <= j <= |names|
      invariant found == DbFilesInListing(dir, names[..j], fs)
    {
      var path := dir + [names[j]];
      if IsFile(fs, path) && FileName(path) == DbFileName {
        found := found + [path];
      }
      assert names[..j + 1][..j] == names[..j];
      j := j + 1;
    }
    assert names[..j] == names;
  }

  /** One iteration of the outer loop of `get_all_antigravity_db_paths`. */
  lemma DbFilesInInstallDirsStep(dirs: seq<Path>, i: nat, fs: FileSystem, acc: seq<Path>, prefix: seq<Path>, found: seq<Path>)
    requires i < |dirs|
    requires acc == prefix + DbFilesInInstallDirs(dirs[..i], fs)
    requires found == ScanInstallDir(dirs[i], fs)
    ensures acc + found == prefix + DbFilesInInstallDirs(dirs[..i + 1], fs)
  {
    assert dirs[..i + 1][..i] == dirs[..i];
    var done := DbFilesInInstallDirs(dirs[..i], fs);
    assert DbFilesInInstallDirs(dirs[..i + 1], fs) == done + found;
    assert (prefix + done) + found == prefix + (done + found);
  }

  /** `get_all_antigravity_db_paths`. */
  method GetAllAntigravityDbPaths(env: Env) returns (dbPaths: seq<Path>)
    ensures dbPaths == AllAntigravityDbPaths(env)
  {
    var fs := env.fs;
    dbPaths := [];
    var main := AntigravityDbPath(env);
    if main.Some? {
      dbPaths := dbPaths + [main.value];
    }
    ghost var prefix := dbPaths;
    var installDirs := FindAntigravityInstallations(env);
    var i := 0;
    while i < |installDirs|
      invariant 0 <= i <= |installDirs|
      invariant dbPaths == prefix + DbFilesInInstallDirs(installDirs[..i], fs)
    {
      var dir := installDirs[i];
      var found: seq<Path> := [];
      if PathExists(fs, dir) && dir in fs.listing {
        found := CollectDbFiles(dir, fs.listing[dir], fs);
      }
      assert found == ScanInstallDir(dir, fs);
      DbFilesInInstallDirsStep(installDirs, i, fs, dbPaths, prefix, found);
      dbPaths := dbPaths + found;
      i := i + 1;
    }
    assert installDirs[..i] == installDirs;
  }

  // ---------------------------------------------------------------------
  // Killing processes

  /** What running `taskkill /F /IM p` or `pkill -f p` did. */
  datatype CommandOutcome = SpawnError | Failed | Succeeded

  datatype KillTool = Taskkill | Pkill

  /** `NoAttempt` stands for the initial empty `last_error`, reachable only with
      an empty pattern list. */
  datatype KillError = SpawnFailed(tool: KillTool) | PatternFailed(pattern: string) | NoAttempt | UnsupportedOs

  const UnixKillPatterns: seq<string> := [AppName, "antigravity"]

  /** The pattern loop of `kill_antigravity_processes`; `Ok(p)` names the pattern
      whose command succeeded. */
  function TryKillPatterns(tool: KillTool, patterns: seq<string>, run: string -> CommandOutcome, lastError: KillError): (r: Result<string, KillError>)
    ensures r.Ok? ==> r.value in patterns && run(r.value) == Succeeded
    ensures patterns == [] ==> r == Err(lastError)
    ensures lastError != UnsupportedOs ==> r != Err(UnsupportedOs)
    decreases |patterns|
  {
    if patterns == [] then Err(lastError)
    else match run(patterns[0])
      case SpawnError => Err(SpawnFailed(tool))
      case Succeeded => Ok(patterns[0])
      case Failed => TryKillPatterns(tool, patterns[1..], run, PatternFailed(patterns[0]))
  }

  /** The first pattern whose command did not simply fail decides the result,
      and no later pattern is consulted. */
  lemma {:induction false} TryKillDecidedAt(tool: KillTool, patterns: seq<string>, run: string -> CommandOutcome, lastError: KillError, k: nat)
    requires k < |patterns|
    requires forall j :: 0 <= j < k ==> run(patterns[j]) == Failed
    requires run(patterns[k]) != Failed
    ensures TryKillPatterns(tool, patterns, run, lastError) ==
      if run(patterns[k]) == Succeeded then Ok(patterns[k]) else Err(SpawnFailed(tool))
    decreases k
  {
    if k > 0 {
      assert run(patterns[0]) == Failed;
      TryKillDecidedAt(tool, patterns[1..], run, PatternFailed(patterns[0]), k - 1);
    }
  }

  /** When every pattern fails, the error names the last pattern. */
  lemma {:induction false} TryKillAllFail(tool: KillTool, patterns: seq<string>, run: string -> CommandOutcome, lastError: KillError)
    requires |patterns| > 0
    requires forall j :: 0 <= j < |patterns| ==> run(patterns[j]) == Failed
    ensures TryKillPatterns(tool, patterns, run, lastError) == Err(PatternFailed(patterns[|patterns| - 1]))
    decreases |patterns|
  {
    assert run(patterns[0]) == Failed;
    if |patterns| > 1 {
      TryKillAllFail(tool, patterns[1..], run, PatternFailed(patterns[0]));
    }
  }

  /** `kill_antigravity_processes` as a value of the OS and the command oracle. */
  function KillOutcome(os: Os, run: string -> CommandOutcome): (r: Result<string, KillError>)
    ensures os.OtherOs? <==> r == Err(UnsupportedOs)
    ensures os == Windows && r.Ok? ==> r.value in WindowsProcessNames
    ensures (os == MacOS || os == Linux) && r.Ok? ==> r.value in UnixKillPatterns
  {
    match os
    case Windows => TryKillPatterns(Taskkill, WindowsProcessNames, run, NoAttempt)
    case MacOS => TryKillPatterns(Pkill, UnixKillPatterns, run, NoAttempt)
    case Linux => TryKillPatterns(Pkill, UnixKillPatterns, run, NoAttempt)
    case OtherOs(_) => Err(UnsupportedOs)
  }

  /** With "Antigravity.exe" failing and "Antigravity" succeeding, Windows reports
      success for "Antigravity"; with both failing, the error names "Antigravity". */
  lemma KillFallbackOnWindows(run: string -> CommandOutcome)
    requires run(ExeName) == Failed
    ensures run(AppName) == Succeeded ==> KillOutcome(Windows, run) == Ok(AppName)
    ensures run(AppName) == Failed ==> KillOutcome(Windows, run) == Err(PatternFailed(AppName))
    ensures run(AppName) == SpawnError ==> KillOutcome(Windows, run) == Err(SpawnFailed(Taskkill))
  {
    if run(AppName) == Failed {
      TryKillAllFail(Taskkill, WindowsProcessNames, run, NoAttempt);
    } else {
      TryKillDecidedAt(Taskkill, WindowsProcessNames, run, NoAttempt, 1);
    }
  }

  /** `kill_antigravity_processes`. */
  method KillAntigravityProcesses(os: Os, run: string -> CommandOutcome) returns (r: Result<string, KillError>)
    ensures r == KillOutcome(os, run)
  {
    var tool: KillTool;
    var patterns: seq<string>;
    match os {
      case Windows =>
        tool, patterns := Taskkill, WindowsProcessNames;
      case MacOS =>
        tool, patterns := Pkill, UnixKillPatterns;
      case Linux =>
        tool, patterns := Pkill, UnixKillPatterns;
      case OtherOs(_) =>
        return Err(UnsupportedOs);
    }
    var lastError := NoAttempt;
    var i := 0;
    while i < |patterns|
      invariant 0 <= i <= |patterns|
      invariant KillOutcome(os, run) == TryKillPatterns(tool, patterns[i..], run, lastError)
    {
      var outcome := run(patterns[i]);
      if outcome == SpawnError {
        return Err(SpawnFailed(tool));
      }
      if outcome == Succeeded {
        return Ok(patterns[i]);
      }
      lastError := PatternFailed(patterns[i]);
      assert patterns[i..][1..] == patterns[i + 1..];
      i := i + 1;
    }
    return Err(lastError);
  }
}
