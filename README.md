# Antigravity Agent platform core, modelled in Dafny

This project models the platform layer of the Antigravity Agent desktop
application. The application is a Tauri desktop companion to the separately installed Antigravity editor. The layer:

- finds the editor's data directory and its `state.vscdb` database on each OS;
- lists candidate installation directories and collects every database file found in them;
- remembers the editor's executable path (Windows only) in the agent's
  `config.json`, and finds that path again from the persisted value, the well-known install
  locations or the running processes;
- kills the editor's processes with `taskkill` or `pkill`;
- runs the tray manager that decides whether closing the main window hides it;
- gates window-state saves with a restore flag and a one-second debounce;
- exposes the platform commands to the front end.

The environment is passed in as values. `PlatformUtils.Env` holds the OS, the
directory lookups of the `dirs` crate, a file system and the process table. A
`FileSystem` is:

- a set of regular files;
- a set of directories;
- a directory listing, in which a directory missing from the map cannot be read.

A path is its sequence of components. `join` is concatenation, and
`to_string_lossy` is the identity. The agent's configuration file is a value
`Missing | Unreadable | Malformed | Stored(config)`, held by the
`ConfigStore` class. Two flags stand for the two I/O outcomes the code depends on:

- whether the config directory can be created;
- whether the file can be written.

External commands are an oracle from pattern to outcome. Window and tray calls
into the GUI toolkit are represented only by their outcomes.

Modules: `Common` (Option, Result, paths, substring containment),
`PlatformUtils`, `SystemTray`, `WindowEvents`, `PlatformCommands`. Loops in
the source are verified methods. Each is proved equal to a specification function, and the
properties are lemmas about that function.

`WindowEvents.DebounceTimeline` is a worked example on one concrete
timeline. A save during the restore is dropped. After the flag is cleared,
saves at 5000 ms and 6100 ms are accepted and one at 5200 ms is dropped.

## Model

| member | source | states |
|---|---|---|
| PlatformUtils.AntigravityDataDir | src-tauri/src/platform_utils.rs:11-39 | reference definition of the data dir, one branch per OS; its properties are those of `DataDirSelection` |
| PlatformUtils.DataDirSelection | src-tauri/src/platform_utils.rs:11-39 | the data dir is `base/Antigravity/User/globalStorage`. The base is the config dir on Windows; on Linux the config dir, falling back to the data dir; the data dir elsewhere. The result is None exactly when the chosen bases are missing |
| PlatformUtils.AntigravityDbPath | src-tauri/src/platform_utils.rs:111-113 | reference definition of the database path: the data dir joined with `state.vscdb`; its properties are those of `DbPathShape` |
| PlatformUtils.DbPathShape | src-tauri/src/platform_utils.rs:111-113 | the database path exists iff the data dir does; its file name is `state.vscdb` and its parent is the data dir |
| PlatformUtils.IsAntigravityAvailable | src-tauri/src/platform_utils.rs:116-120 | true iff there is a data dir and `dir/state.vscdb` exists as a file or directory; false when there is no database path |
| PlatformUtils.FindAntigravityInstallations | src-tauri/src/platform_utils.rs:123-137 | reference definition of the install-dir candidates; its properties are those of `InstallationsShape` |
| PlatformUtils.InstallationsShape | src-tauri/src/platform_utils.rs:123-137 | the candidates are `data_dir/Antigravity` then `config_dir/Antigravity`, each present iff its base is, with nothing else and in that order |
| PlatformUtils.GetAntigravityWindowsPaths | src-tauri/src/platform_utils.rs:140-166 | reference definition of the Windows executable candidates; its properties are those of `WindowsPathsShape` |
| PlatformUtils.WindowsPathsShape | src-tauri/src/platform_utils.rs:140-166 | the Windows candidates are the two home-relative paths (iff there is a home), then the local-data path (iff there is a local-data dir), then the two fixed Program Files paths; every candidate ends in `Antigravity.exe` |
| PlatformUtils.ValidateAntigravityExe | src-tauri/src/platform_utils.rs:79-81 | an executable path is valid iff it is a regular file (`IsFile`); a missing path is not, nor, on a `WellFormed` file system (no path both file and directory), a directory |
| PlatformUtils.SaveResult | src-tauri/src/platform_utils.rs:72-77 | reference outcome of a save: the create-dir error when the config dir cannot be created, else the write error when the file cannot be written, else Ok |
| PlatformUtils.LoadAgentConfig | src-tauri/src/platform_utils.rs:41-70 | loading succeeds iff the config dir can be created and the file is missing or parses. A missing file yields the default config and a stored one its contents. A failure to create the dir is reported as that error |
| PlatformUtils.LoadPersistedAntigravityPath | src-tauri/src/platform_utils.rs:83-94 | a persisted path is returned iff on Windows, the config loads, it holds a path, and that path is a regular file; the result is the stored path |
| PlatformUtils.PersistedPathReadsBack | src-tauri/src/platform_utils.rs:83-108 | a valid executable path written to the config is read back unchanged |
| PlatformUtils.ConfigStore.SaveAgentConfig | src-tauri/src/platform_utils.rs:72-77 | the result is the create-dir/write outcome; on success the file holds exactly the given config, on failure it is unchanged |
| PlatformUtils.ConfigStore.PersistAntigravityPath | src-tauri/src/platform_utils.rs:96-108 | off Windows: Ok and nothing written. An invalid exe path gives an error and nothing is written. Otherwise the save outcome is returned, and on success the file holds exactly that path |
| PlatformUtils.MatchingExes | src-tauri/src/platform_utils.rs:177-184 | every path a name pass reports is a regular file |
| PlatformUtils.MatchingExesMembers | src-tauri/src/platform_utils.rs:177-193 | a path is reported by a name pass iff some process whose name contains the pattern has that path as a valid executable |
| PlatformUtils.RunningAntigravityExes | src-tauri/src/platform_utils.rs:168-196 | every reported running executable is a regular file |
| PlatformUtils.RunningNonEmptyIff | src-tauri/src/platform_utils.rs:168-196 | the running list is non-empty iff on Windows some process whose name contains `Antigravity` has an existing executable file |
| PlatformUtils.ExeNameProcessReportedTwice | src-tauri/src/platform_utils.rs:177-193 | a process named like `Antigravity.exe` matches both passes, so its executable is reported at least twice |
| PlatformUtils.FindRunningAntigravityExes | src-tauri/src/platform_utils.rs:168-196 | the two loops compute exactly the specified running list, first pass then second pass, in process order |
| PlatformUtils.IsAntigravityProcessRunning | src-tauri/src/platform_utils.rs:222-228 | true iff on Windows some process whose name contains `Antigravity` has an executable that is a regular file |
| PlatformUtils.FirstValidIndex | src-tauri/src/platform_utils.rs:207-212 | the index of the first candidate that is a regular file; all earlier ones are not; the length when none is |
| PlatformUtils.ResolvedAntigravityExe | src-tauri/src/platform_utils.rs:198-220 | a resolved executable exists only on Windows and is always a regular file |
| PlatformUtils.ResolvedNoneIff | src-tauri/src/platform_utils.rs:198-220 | resolution fails iff off Windows, or there is no valid persisted path, no valid candidate and no running executable |
| PlatformUtils.PersistedPathTakesPrecedence | src-tauri/src/platform_utils.rs:203-205 | a valid persisted path wins over the candidates and the running processes |
| PlatformUtils.ResolutionStableAfterPersist | src-tauri/src/platform_utils.rs:198-220 | after the resolved path is persisted, resolving again gives the same path |
| PlatformUtils.ResolveAntigravityExeWindows | src-tauri/src/platform_utils.rs:198-220 | the method returns the specified resolution. The config is rewritten to the found path exactly when it came from a candidate or a running process and the write succeeds; otherwise the file is unchanged |
| PlatformUtils.DbFilesInListing | src-tauri/src/platform_utils.rs:244-250 | reference definition of one directory's finds: the listed entries that are regular files named `state.vscdb`, in listing order; its properties are those of `DbFilesInListingSound` and `DbFilesInListingComplete` |
| PlatformUtils.DbFilesInListingSound | src-tauri/src/platform_utils.rs:244-250 | every path collected from one directory listing is `dir/state.vscdb` and is a regular file |
| PlatformUtils.DbFilesInListingComplete | src-tauri/src/platform_utils.rs:244-250 | a listed `state.vscdb` that is a regular file is collected |
| PlatformUtils.ScanInstallDir | src-tauri/src/platform_utils.rs:241-243 | reference definition of one install dir's scan: its listing's finds when it exists and can be read, else nothing |
| PlatformUtils.DbFilesInInstallDirs | src-tauri/src/platform_utils.rs:240-253 | reference definition of the scans of all install dirs, concatenated in order; its properties are those of `DbFilesInInstallDirsSound` and `DbFilesInInstallDirsAppend` |
| PlatformUtils.DbFilesInInstallDirsSound | src-tauri/src/platform_utils.rs:240-253 | every path collected from the install dirs is `root/state.vscdb` for an existing, readable root, and is a regular file |
| PlatformUtils.DbFilesInInstallDirsAppend | src-tauri/src/platform_utils.rs:240-253 | scanning `a + b` is scanning `a` followed by scanning `b` |
| PlatformUtils.AllAntigravityDbPaths | src-tauri/src/platform_utils.rs:231-256 | reference definition of the database list: the main path, then the scans of the install dirs; its properties are those of `AllDbPathsShape`, `AllDbPathsOrder` and `AllDbPathsComplete` |
| PlatformUtils.AllDbPathsShape | src-tauri/src/platform_utils.rs:231-256 | the main database path, when defined, comes first; every later path was found under an install dir |
| PlatformUtils.AllDbPathsOrder | src-tauri/src/platform_utils.rs:231-256 | the list is the main path, then the finds under `data_dir/Antigravity`, then those under `config_dir/Antigravity` |
| PlatformUtils.DbReportedTwiceWhenRootsCoincide | src-tauri/src/platform_utils.rs:127-134 | when the data dir and the config dir are the same, as `dirs` gives on Windows and macOS, a database found under that root is reported at least twice |
| PlatformUtils.AllDbPathsComplete | src-tauri/src/platform_utils.rs:231-256 | a `state.vscdb` file inside a readable install dir appears in the list |
| PlatformUtils.CollectDbFiles | src-tauri/src/platform_utils.rs:244-250 | the inner loop collects exactly the specified finds of one listing |
| PlatformUtils.DbFilesInInstallDirsStep | src-tauri/src/platform_utils.rs:240-253 | one outer iteration extends the result by the finds of the next install dir |
| PlatformUtils.GetAllAntigravityDbPaths | src-tauri/src/platform_utils.rs:231-256 | the method computes exactly the specified list |
| PlatformUtils.TryKillPatterns | src-tauri/src/platform_utils.rs:264-283 | a success names a pattern of the list whose command succeeded; an empty list returns the last error; no unsupported-OS error arises here |
| PlatformUtils.TryKillDecidedAt | src-tauri/src/platform_utils.rs:266-281 | when the first k commands fail and the k-th does not, its outcome decides: success names it, a spawn error aborts with that tool |
| PlatformUtils.TryKillAllFail | src-tauri/src/platform_utils.rs:264-283 | when every command fails, the error names the last pattern tried |
| PlatformUtils.KillOutcome | src-tauri/src/platform_utils.rs:259-311 | an unsupported-OS error exactly on other systems; a success names one of that OS's process names or patterns |
| PlatformUtils.KillFallbackOnWindows | src-tauri/src/platform_utils.rs:263-283 | after `taskkill /IM Antigravity.exe` fails, the outcome is that of `Antigravity` |
| PlatformUtils.KillAntigravityProcesses | src-tauri/src/platform_utils.rs:259-311 | the loop computes exactly the specified outcome |
| WindowEvents.Elapsed | src-tauri/src/window_event_handler.rs:80 | the time since `since`: `since + e == now` when `now` is not earlier, and zero otherwise, as `Instant::elapsed` saturates |
| WindowEvents.Admits | src-tauri/src/window_event_handler.rs:70-84 | a resize or move saves iff not restoring and at least 1000 ms have passed since the last save |
| WindowEvents.CaptureWindowState | src-tauri/src/window_event_handler.rs:159-178 | a snapshot exists iff position, size and maximized flag were all read; it carries them, with the tray flag set |
| WindowEvents.SaveGate.constructor | src-tauri/src/window_event_handler.rs:16-17 | a new gate is restoring, with the last save time set to now |
| WindowEvents.SaveGate.ClearRestoring | src-tauri/src/window_event_handler.rs:50-53 | clears the flag and keeps the gate invariant |
| WindowEvents.SaveGate.AttemptSave | src-tauri/src/window_event_handler.rs:64-114 | decides by `Admits`, records now as the last save exactly when accepted, and keeps accepted saves at least 1000 ms apart with none while restoring |
| WindowEvents.SaveGate.HandleEvent | src-tauri/src/window_event_handler.rs:61-153 | resize and move go through the gate, and an accepted save is appended to the log of accepted saves. Close hides to the tray iff a manager exists and is enabled, and otherwise saves and closes; it never touches the gate. Other events do nothing |
| SystemTray.TrayManager.constructor | src-tauri/src/system_tray.rs:23-29 | a new manager is disabled, with no handle and no icon |
| SystemTray.TrayManager.Enable | src-tauri/src/system_tray.rs:146-150 | sets the flag, returns Ok, and keeps handle and icon |
| SystemTray.TrayManager.Disable | src-tauri/src/system_tray.rs:153-161 | clears the flag, drops the icon, returns Ok, and keeps the handle |
| SystemTray.TrayManager.IsEnabled | src-tauri/src/system_tray.rs:164-166 | reports the flag |
| SystemTray.TrayManager.MinimizeToTray | src-tauri/src/system_tray.rs:169-183 | disabled: an error. Enabled: fails iff there is a handle and the hide call failed |
| SystemTray.TrayManager.RestoreFromTray | src-tauri/src/system_tray.rs:186-197 | fails iff there is a handle and show or focus failed; the flag is not consulted |
| SystemTray.TrayRegistry.GetGlobal | src-tauri/src/system_tray.rs:141-143 | the installed manager, or null before initialisation; it reads the registry only |
| SystemTray.TrayRegistry.InitializeGlobal | src-tauri/src/system_tray.rs:32-138 | does nothing if a manager exists. A menu build failure installs nothing. Otherwise it installs a fresh disabled manager holding the handle, with the icon only if it was built |
| PlatformCommands.OsName | src-tauri/src/commands/platform_commands.rs:9 | reference definition of `std::env::consts::OS`: `windows`, `macos`, `linux`, or the other system's own name; its property is `OsNameIdentifiesOs` |
| PlatformCommands.OsNameIdentifiesOs | src-tauri/src/commands/platform_commands.rs:9 | the OS name reported by `std::env::consts::OS` determines the OS kind the model behaves as |
| PlatformCommands.GetPlatformInfo | src-tauri/src/commands/platform_commands.rs:6-26 | reports OS, arch and family; availability iff the database path exists; the full database list, with the main path first; and the three directories |
| PlatformCommands.FindAntigravityInstallations | src-tauri/src/commands/platform_commands.rs:28-36 | the discovery list, element for element |
| PlatformCommands.ValidateAntigravityPath | src-tauri/src/commands/platform_commands.rs:38-44 | true iff `path/state.vscdb` is a regular file |
| PlatformCommands.ValidateRejectsDirectory | src-tauri/src/commands/platform_commands.rs:38-44 | on a file system where no path is both file and directory, a `state.vscdb` directory exists but does not validate |
| PlatformCommands.ValidateRejectsFile | src-tauri/src/commands/platform_commands.rs:38-44 | on a `WellFormed` file system (nothing exists below a regular file) a path that is a regular file does not validate |
| PlatformCommands.ValidateIgnoresDeeperDatabase | src-tauri/src/commands/platform_commands.rs:38-44 | adding a `state.vscdb` one level deeper does not change whether a path validates |
| PlatformCommands.DataDirValidationVsAvailability | src-tauri/src/commands/platform_commands.rs:38-44 | validating the data dir implies availability. Available but not validating happens iff the database path is a directory only |
| PlatformCommands.IsAntigravityRunning | src-tauri/src/commands/platform_commands.rs:68-76 | false off Windows; on Windows true iff some matching process has an existing executable |
| PlatformCommands.ResolveAntigravityPath | src-tauri/src/commands/platform_commands.rs:46-55 | always Ok. Off Windows: None, with the config untouched. On Windows: the resolver's result, and the config is rewritten to the resolved path exactly when there was no valid persisted path, a path was found and the write succeeds; otherwise it is unchanged |
| PlatformCommands.SaveAntigravityPath | src-tauri/src/commands/platform_commands.rs:57-66 | off Windows: Ok, with nothing written. On Windows: an invalid path errors and writes nothing, otherwise the save outcome, with the path stored on success |

## Left out

- File-system, environment and process-table access. The results of `dirs::*`, `Path::exists`/`is_file`, `read_dir`, `sysinfo` and the OS constant are fields of `Env`. The agent's `config.json` is the separate `ConfigStore`, not part of `FileSystem`.
- `ensure_config_dir`'s fallback to `.` when there is no config dir is not modelled. Only whether the directory can be created matters.
- `serde_json`: a config file is modelled as its parsed value. `AgentConfig` has one field, `antigravityPath`, so a rewrite drops any other JSON keys the file held.
- Serialization of `AgentConfig` is taken never to fail. A failed write leaves the file as it was; torn writes are not modelled.
- Error and success messages are not modelled, nor is the stderr text they embed. Errors are enum values that record only which step failed and, for kill errors, the pattern or tool.
- In the `sysinfo` crate, `processes_by_name` is modelled as substring containment on the process name, and the process table's order is taken as given.
- The running-process `for` loop in `resolve_antigravity_exe_windows` returns on its first iteration. It is modelled as a test that the list is non-empty.
- `entries.flatten()` skips directory entries that fail to read. The model's listings contain only readable entries.
- Tauri calls (window show/hide/focus/position/size, menus, icon loading, `prevent_close`, `app.exit`) and the tray menu's event handler are not modelled. A window call is represented by its outcome, and the icon build by an optional icon.
- Async tasks, `sleep` and the `Mutex`es: spawned tasks run one after another, and the 500 ms sleep followed by clearing the flag is the single step `ClearRestoring`.
- The restore task (src-tauri/src/window_event_handler.rs:22-54) is modelled only by its last step, `ClearRestoring`. Loading the state with `load_window_state` (in `window_state_manager`, which is not part of this model) is not modelled, nor is applying it with `set_position`/`set_size`/`maximize`. Saving with `save_window_state` is represented by an `EventEffect`.
- The spawned save task's outcome, and the hide followed by `minimize_to_tray` after a close, are represented by `EventEffect` values.
- `GetPlatformInfo` and `OsName`: the model does not enforce that an `OtherOs` name is none of `windows`, `macos` or `linux`; the predicate `WellNamedOs` states it. `OsNameIdentifiesOs` relies on it.
- Window geometry, which is `f64` in the stored record, is modelled as integers.
- The front-end commands always return `Ok` except `save_antigravity_path`. The model keeps that `Result`, with an enum error in place of a string.
