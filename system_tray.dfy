/** The system-tray manager: an enabled flag, the application handle and the
    tray icon, plus the process-wide slot that holds the one manager. Menus,
    icon images and the window calls themselves are outside the model; a
    window call is represented only by its outcome. */
module SystemTray {
  import opened Common

  /** Opaque handles owned by the GUI host. */
  datatype AppHandle = AppHandle(id: nat)
  datatype TrayIcon = TrayIcon(id: nat)

  /** What looking up the main window and calling it (hide, or show and focus) did. */
  datatype WindowCall = NoMainWindow | CallSucceeded | CallFailed

  datatype TrayError = TrayDisabled | WindowCallFailed | MenuBuildFailed

  /** `SystemTrayManager`. */
  class TrayManager {
    var isEnabled: bool
    var appHandle: Option<AppHandle>
    var trayIcon: Option<TrayIcon>

    /** `SystemTrayManager::new`. */
    constructor ()
      ensures !isEnabled && appHandle == None && trayIcon == None
    {
      isEnabled := false;
      appHandle := None;
      trayIcon := None;
    }

    /** `enable`: set the flag; nothing else changes. */
    method Enable() returns (r: Result<(), TrayError>)
      modifies this
      ensures r == Ok(())
      ensures isEnabled
      ensures appHandle == old(appHandle) && trayIcon == old(trayIcon)
    {
      isEnabled := true;
      r := Ok(());
    }

    /** `disable`: clear the flag and drop the tray icon; the app handle stays. */
    method Disable() returns (r: Result<(), TrayError>)
      modifies this
      ensures r == Ok(())
      ensures !isEnabled && trayIcon == None
      ensures appHandle == old(appHandle)
    {
      isEnabled := false;
      trayIcon := None;
      r := Ok(());
    }

    /** `is_enabled`: report the flag without changing anything. */
    method IsEnabled() returns (enabled: bool)
      ensures enabled == isEnabled
    {
      enabled := isEnabled;
    }

    /** `minimize_to_tray`: refuse while disabled; otherwise hide the main
        window when there is an app handle and a main window. */
    method MinimizeToTray(hideCall: WindowCall) returns (r: Result<(), TrayError>)
      ensures !isEnabled ==> r == Err(TrayDisabled)
      ensures isEnabled ==> (r.Err? <==> appHandle.Some? && hideCall == CallFailed)
      ensures r.Err? ==> r.error == (if isEnabled then WindowCallFailed else TrayDisabled)
    {
      if !isEnabled {
        return Err(TrayDisabled);
      }
      if appHandle.Some? && hideCall == CallFailed {
        return Err(WindowCallFailed);
      }
      r := Ok(());
    }

    /** `restore_from_tray`: show and focus the main window, whatever the flag. */
    method RestoreFromTray(showAndFocus: WindowCall) returns (r: Result<(), TrayError>)
      ensures r.Err? <==> appHandle.Some? && showAndFocus == CallFailed
      ensures r.Err? ==> r.error == WindowCallFailed
      ensures appHandle.None? ==> r == Ok(())
    {
      if appHandle.Some? && showAndFocus == CallFailed {
        return Err(WindowCallFailed);
      }
      r := Ok(());
    }
  }

  /** The process-wide `SYSTEM_TRAY_MANAGER` slot. */
  class TrayRegistry {
    var manager: TrayManager?

    constructor ()
      ensures manager == null
    {
      manager := null;
    }

    /** `get_global`. */
    function GetGlobal(): TrayManager?
      reads this
    {
      manager
    }

    /** `initialize_global`: return at once when a manager is installed;
        otherwise build one holding the app handle. A failure while building
        the menu aborts without installing anything; a tray icon that fails to
        build is only logged, and the manager is installed without it. */
    method InitializeGlobal(app: AppHandle, menuBuilds: bool, builtIcon: Option<TrayIcon>) returns (r: Result<(), TrayError>)
      modifies this
      ensures old(manager) != null ==> r == Ok(()) && manager == old(manager)
      ensures old(manager) == null && !menuBuilds ==> r == Err(MenuBuildFailed) && manager == null
      ensures old(manager) == null && menuBuilds ==>
        r == Ok(()) && manager != null && fresh(manager) &&
        !manager.isEnabled && manager.appHandle == Some(app) && manager.trayIcon == builtIcon
    {
      if manager != null {
        return Ok(());
      }
      var m := new TrayManager();
      m.appHandle := Some(app);
      if !menuBuilds {
        return Err(MenuBuildFailed);
      }
      if builtIcon.Some? {
        m.trayIcon := builtIcon;
      }
      manager := m;
      r := Ok(());
    }
  }
}
