/** The window-state save gate wired into the main window's events: a
    `restoring` flag that suppresses saves during the start-up restore, and
    the time of the last accepted save, which debounces resize and move
    events. Time is a count of milliseconds; the 500 ms settle delay of the
    restore task is the explicit `ClearRestoring` step; the spawned tasks run
    one after another. */
module WindowEvents {
  import opened Common
  import SystemTray

  /** Saves closer together than this are dropped. */
  const DebounceMs: nat := 1000

  /** The delay after which the restore task clears `restoring`. */
  const RestoreSettleMs: nat := 500

  /** `Instant::elapsed`, which is zero when `now` is not after `since`. */
  function Elapsed(since: nat, now: nat): (e: nat)
    ensures since <= now ==> since + e == now
    ensures now < since ==> e == 0
  {
    if now >= since then now - since else 0
  }

  /** The gate's decision for one resize or move event. */
  function Admits(restoring: bool, lastSaveTime: nat, now: nat): (ok: bool)
    ensures ok <==> !restoring && lastSaveTime + DebounceMs <= now
  {
    !restoring && Elapsed(lastSaveTime, now) >= DebounceMs
  }

  datatype Position = Position(x: int, y: int)
  datatype Size = Size(width: nat, height: nat)

  /** The record handed to the window-state store. */
  datatype WindowState = WindowState(x: int, y: int, width: nat, height: nat, maximized: bool, systemTrayEnabled: bool)

  /** `save_current_window_state`: a snapshot exists only when the outer
      position, the outer size and the maximized flag were all read. */
  function CaptureWindowState(position: Option<Position>, size: Option<Size>, maximized: Option<bool>): (r: Option<WindowState>)
    ensures r.Some? <==> position.Some? && size.Some? && maximized.Some?
    ensures r.Some? ==>
      Position(r.value.x, r.value.y) == position.value &&
      Size(r.value.width, r.value.height) == size.value &&
      r.value.maximized == maximized.value &&
      r.value.systemTrayEnabled
  {
    match (position, size, maximized)
    case (Some(p), Some(s), Some(m)) => Some(WindowState(p.x, p.y, s.width, s.height, m, true))
    case _ => None
  }

  datatype WindowEvent = Resized | Moved | CloseRequested | OtherEvent

  /** What handling one event leads to. `HideToTray` prevents the close and
      hides the window to the tray; `SaveAndClose` saves the state and lets the
      window close. */
  datatype EventEffect = NoEffect | SaveSnapshot | HideToTray | SaveAndClose

  /** The shared `is_restoring` and `last_save_time` of `init_window_event_handler`.
      `acceptedSaves` records the times at which the gate let a save through. */
  class SaveGate {
    var restoring: bool
    var lastSaveTime: nat
    ghost const createdAt: nat
    ghost var acceptedSaves: seq<nat>

    /** No save is accepted while restoring; accepted saves are at least
        `DebounceMs` apart and the first is at least `DebounceMs` after
        construction; `lastSaveTime` is the latest of them. */
    ghost predicate Valid()
      reads this
    {
      (restoring ==> acceptedSaves == []) &&
      (acceptedSaves == [] ==> lastSaveTime == createdAt) &&
      (acceptedSaves != [] ==>
         lastSaveTime == acceptedSaves[|acceptedSaves| - 1] && createdAt + DebounceMs <= acceptedSaves[0]) &&
      (forall i, j :: 0 <= i < j < |acceptedSaves| ==> acceptedSaves[i] + DebounceMs <= acceptedSaves[j])
    }

    constructor (now: nat)
      ensures Valid()
      ensures restoring && lastSaveTime == now
      ensures createdAt == now && acceptedSaves == []
    {
      restoring := true;
      lastSaveTime := now;
      createdAt := now;
      acceptedSaves := [];
    }

    /** The restore task's last step: it runs `RestoreSettleMs` after the saved
        state was applied (the sleep itself is not modelled). */
    method ClearRestoring()
      requires Valid()
      modifies this
      ensures Valid()
      ensures !restoring
      ensures lastSaveTime == old(lastSaveTime) && acceptedSaves == old(acceptedSaves)
    {
      restoring := false;
    }

    /** The restoring check and the debounce of the Resized and Moved branches. */
    method AttemptSave(now: nat) returns (save: bool)
      requires Valid()
      modifies this
      ensures Valid()
      ensures save == Admits(old(restoring), old(lastSaveTime), now)
      ensures restoring == old(restoring)
      ensures lastSaveTime == (if save then now else old(lastSaveTime))
      ensures acceptedSaves == (if save then old(acceptedSaves) + [now] else old(acceptedSaves))
    {
      if restoring {
        return false;
      }
      if Elapsed(lastSaveTime, now) < DebounceMs {
        return false;
      }
      ghost var before := acceptedSaves;
      assert forall i :: 0 <= i < |before| ==> before[i] + DebounceMs <= now by {
        forall i | 0 <= i < |before|
          ensures before[i] + DebounceMs <= now
        {
          if i < |before| - 1 {
            assert before[i] + DebounceMs <= before[|before| - 1];
          }
        }
      }
      lastSaveTime := now;
      acceptedSaves := acceptedSaves + [now];
      save := true;
    }

    /** The window-event callback. Resized and Moved go through the gate;
        CloseRequested consults the tray manager and never touches the gate. */
    method HandleEvent(event: WindowEvent, now: nat, tray: SystemTray.TrayRegistry) returns (effect: EventEffect)
      requires Valid()
      modifies this
      ensures Valid()
      ensures restoring == old(restoring)
      ensures (event == Resized || event == Moved) ==>
        (effect == SaveSnapshot || effect == NoEffect) &&
        (effect == SaveSnapshot <==> Admits(old(restoring), old(lastSaveTime), now)) &&
        lastSaveTime == (if effect == SaveSnapshot then now else old(lastSaveTime)) &&
        acceptedSaves == (if effect == SaveSnapshot then old(acceptedSaves) + [now] else old(acceptedSaves))
      ensures event == CloseRequested ==>
        effect == (if tray.manager != null && tray.manager.isEnabled then HideToTray else SaveAndClose)
      ensures (event == CloseRequested || event == OtherEvent) ==>
        lastSaveTime == old(lastSaveTime) && acceptedSaves == old(acceptedSaves)
      ensures event == OtherEvent ==> effect == NoEffect
    {
      match event {
        case Resized =>
          var save := AttemptSave(now);
          effect := if save then SaveSnapshot else NoEffect;
        case Moved =>
          var save := AttemptSave(now);
          effect := if save then SaveSnapshot else NoEffect;
        case CloseRequested =>
          var manager := tray.GetGlobal();
          if manager != null {
            var enabled := manager.IsEnabled();
            if enabled {
              return HideToTray;
            }
          }
          effect := SaveAndClose;
        case OtherEvent =>
          effect := NoEffect;
      }
    }
  }

  /** The debounce on a concrete timeline: saves 200 ms apart give (true,
      false), a third 1100 ms after the first is accepted, and nothing is
      accepted before the restore flag is cleared. */
  method DebounceTimeline()
  {
    var gate := new SaveGate(0);
    var early := gate.AttemptSave(5000);
    assert !early;
    gate.ClearRestoring();
    var first := gate.AttemptSave(5000);
    var second := gate.AttemptSave(5200);
    var third := gate.AttemptSave(6100);
    assert first && !second && third;
  }
}
