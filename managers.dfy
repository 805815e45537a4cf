/**
 * The `Managers` object: five boolean observables fed by broadcasts and
 * activity resumes, and, when dialogs are enabled, the dialog presenter
 * re-evaluated after every such event.
 */
module AndroidManagers {
  import opened Wrappers
  import opened Device
  import opened Broadcasts
  import opened LiveData
  import opened Settings
  import opened Presenter

  class Managers {
    /** `isDialog`: whether the dialog presenter is enabled. */
    const isDialog: bool
    /** The weakly held activity; `None` once it has been collected (or was never given). */
    var activity: Option<ActivityId>

    const liveAirplane: LiveFlag
    const liveIsNetwork: LiveFlag
    const liveIsLocation: LiveFlag
    const liveIsBluetooth: LiveFlag
    const liveIsLocationPermission: LiveFlag

    var dialogs: map<Manager, Dialog>
    var dialogSettings: map<Manager, DialogSettings>
    /** Every hook run on a dialog, in order. */
    ghost var hookLog: seq<HookRun>

    /** The presenter's state as a value. */
    ghost function Presented(): Tables
      reads this
    {
      Tables(dialogs, dialogSettings, hookLog)
    }

    /** An observable whose observers were never sent the same value twice in a row. */
    ghost predicate Deduplicated(f: LiveFlag)
      reads f
    {
      f.Valid() && NoRepeats(f.emitted)
    }

    /** The five observables are distinct objects, each deduplicated. */
    ghost predicate FlagsValid()
      reads liveAirplane, liveIsNetwork, liveIsLocation, liveIsBluetooth, liveIsLocationPermission
    {
      && liveAirplane != liveIsNetwork && liveAirplane != liveIsLocation && liveAirplane != liveIsBluetooth
      && liveAirplane != liveIsLocationPermission
      && liveIsNetwork != liveIsLocation && liveIsNetwork != liveIsBluetooth && liveIsNetwork != liveIsLocationPermission
      && liveIsLocation != liveIsBluetooth && liveIsLocation != liveIsLocationPermission
      && liveIsBluetooth != liveIsLocationPermission
      && Deduplicated(liveAirplane) && Deduplicated(liveIsNetwork) && Deduplicated(liveIsLocation)
      && Deduplicated(liveIsBluetooth) && Deduplicated(liveIsLocationPermission)
    }

    ghost predicate Valid()
      reads this, liveAirplane, liveIsNetwork, liveIsLocation, liveIsBluetooth, liveIsLocationPermission
    {
      FlagsValid() && WellFormed(Presented())
    }

    /**
     * `Managers(activity, isDialog)`: each observable is seeded from its
     * getter; no dialog and no settings exist yet.
     */
    constructor (activity: Option<ActivityId>, isDialog: bool, d: DeviceState)
      ensures Valid()
      ensures this.activity == activity && this.isDialog == isDialog
      ensures var q := Query(activity, d);
              && liveAirplane.emitted == [q.airplaneMode]
              && liveIsNetwork.emitted == [q.networkConnected]
              && liveIsLocation.emitted == [q.locationEnabled]
              && liveIsBluetooth.emitted == [q.bluetoothEnabled]
              && liveIsLocationPermission.emitted == [q.permissionGranted]
      ensures dialogs == map[] && dialogSettings == map[] && hookLog == []
      ensures fresh(liveAirplane) && fresh(liveIsNetwork) && fresh(liveIsLocation)
      ensures fresh(liveIsBluetooth) && fresh(liveIsLocationPermission)
    {
      var q := Query(activity, d);
      this.isDialog := isDialog;
      this.activity := activity;
      liveAirplane := new LiveFlag(q.airplaneMode);
      liveIsNetwork := new LiveFlag(q.networkConnected);
      liveIsLocation := new LiveFlag(q.locationEnabled);
      liveIsBluetooth := new LiveFlag(q.bluetoothEnabled);
      liveIsLocationPermission := new LiveFlag(q.permissionGranted);
      dialogs := map[];
      dialogSettings := map[];
      hookLog := [];
    }

    /** The weak reference to the activity is cleared by the garbage collector. */
    method ActivityCollected()
      modifies this`activity
      ensures activity == None
    {
      activity := None;
    }

    /** `onAirplaneBroadcast`. */
    method OnAirplaneBroadcast(intent: Intent)
      requires Valid()
      modifies liveAirplane
      ensures Valid()
      ensures liveAirplane.value == DecodeAirplane(intent)
      ensures liveAirplane.emitted == GuardedWrite(old(liveAirplane.emitted), DecodeAirplane(intent))
    {
      var isEnabled := DecodeAirplane(intent);
      if isEnabled != liveAirplane.value {
        liveAirplane.Set(isEnabled);
      }
    }

    /** `onNetworkBroadcast`. */
    method OnNetworkBroadcast(intent: Intent, d: DeviceState)
      requires Valid()
      modifies liveIsNetwork
      ensures Valid()
      ensures liveIsNetwork.value == DecodeNetwork(activity, intent, d)
      ensures liveIsNetwork.emitted == GuardedWrite(old(liveIsNetwork.emitted), DecodeNetwork(activity, intent, d))
    {
      var isConnected := DecodeNetwork(activity, intent, d);
      if isConnected != liveIsNetwork.value {
        liveIsNetwork.Set(isConnected);
      }
    }

    /** `onLocationBroadcast`: the intent is ignored. */
    method OnLocationBroadcast(d: DeviceState)
      requires Valid()
      modifies liveIsLocation
      ensures Valid()
      ensures liveIsLocation.value == DecodeLocation(activity, d)
      ensures liveIsLocation.emitted == GuardedWrite(old(liveIsLocation.emitted), DecodeLocation(activity, d))
    {
      var isEnabled := DecodeLocation(activity, d);
      if isEnabled != liveIsLocation.value {
        liveIsLocation.Set(isEnabled);
      }
    }

    /** `onBluetoothBroadcast`. */
    method OnBluetoothBroadcast(intent: Intent)
      requires Valid()
      modifies liveIsBluetooth
      ensures Valid()
      ensures liveIsBluetooth.value == DecodeBluetooth(intent)
      ensures liveIsBluetooth.emitted == GuardedWrite(old(liveIsBluetooth.emitted), DecodeBluetooth(intent))
    {
      var isEnabled := DecodeBluetooth(intent);
      if isEnabled != liveIsBluetooth.value {
        liveIsBluetooth.Set(isEnabled);
      }
    }

    /**
     * `broadcastReceiver.onReceive`: the matching handler (if any) runs,
     * then, with dialogs enabled, a refresh follows whatever the intent was.
     */
    method OnReceive(intent: Option<Intent>, d: DeviceState)
      requires Valid()
      modifies this`dialogs, this`dialogSettings, this`hookLog
      modifies liveAirplane, liveIsNetwork, liveIsLocation, liveIsBluetooth
      ensures Valid()
      ensures liveAirplane.emitted ==
                if Dispatch(intent) == Some(Airplane)
                then GuardedWrite(old(liveAirplane.emitted), DecodeAirplane(intent.value))
                else old(liveAirplane.emitted)
      ensures liveIsNetwork.emitted ==
                if Dispatch(intent) == Some(Network)
                then GuardedWrite(old(liveIsNetwork.emitted), DecodeNetwork(activity, intent.value, d))
                else old(liveIsNetwork.emitted)
      ensures liveIsLocation.emitted ==
                if Dispatch(intent) == Some(Location)
                then GuardedWrite(old(liveIsLocation.emitted), DecodeLocation(activity, d))
                else old(liveIsLocation.emitted)
      ensures liveIsBluetooth.emitted ==
                if Dispatch(intent) == Some(Bluetooth)
                then GuardedWrite(old(liveIsBluetooth.emitted), DecodeBluetooth(intent.value))
                else old(liveIsBluetooth.emitted)
      ensures Presented() == if isDialog then Refresh(old(Presented()), activity, d) else old(Presented())
    {
      match Dispatch(intent) {
        case Some(Airplane) => OnAirplaneBroadcast(intent.value);
        case Some(Network) => OnNetworkBroadcast(intent.value, d);
        case Some(Location) => OnLocationBroadcast(d);
        case Some(Bluetooth) => OnBluetoothBroadcast(intent.value);
        case None =>
      }
      if isDialog {
        RefreshDialogs(d);
      }
    }

    /**
     * `onActivityResumed`: for the library's own activity the permission
     * is re-read and written if it changed, and dialogs are refreshed.
     */
    method OnActivityResumed(resumed: ActivityId, d: DeviceState)
      requires Valid()
      modifies this`dialogs, this`dialogSettings, this`hookLog, liveIsLocationPermission
      ensures Valid()
      ensures activity == Some(resumed) ==>
                && liveIsLocationPermission.emitted == GuardedWrite(old(liveIsLocationPermission.emitted), d.permissionGranted)
                && Presented() == if isDialog then Refresh(old(Presented()), activity, d) else old(Presented())
      ensures activity != Some(resumed) ==>
                && liveIsLocationPermission.emitted == old(liveIsLocationPermission.emitted)
                && Presented() == old(Presented())
    {
      if activity == Some(resumed) {
        var isLocationPermissionGranted := Query(activity, d).permissionGranted;
        if isLocationPermissionGranted != liveIsLocationPermission.value {
          liveIsLocationPermission.Set(isLocationPermissionGranted);
        }
        if isDialog {
          RefreshDialogs(d);
        }
      }
    }

    /** `setDialogSettings`: the manager's settings are replaced by freshly created ones. */
    method SetDialogSettings(
      m: Manager, message: Option<string>, button: Option<string>, layout: Option<int>,
      actions: seq<(int, Action)>, onShow: Option<int>)
      requires Valid()
      modifies this`dialogSettings
      ensures Valid()
      ensures dialogSettings == old(dialogSettings)[m := CreateDialogSettings(m, layout, message, button, Some(ToMap(actions)), onShow)]
    {
      dialogSettings := dialogSettings[m := CreateDialogSettings(m, layout, message, button, Some(ToMap(actions)), onShow)];
    }

    /** `requireDialogSettings`: the stored settings, created from the defaults and stored on first use. */
    method RequireDialogSettings(m: Manager) returns (s: DialogSettings)
      requires Valid()
      modifies this`dialogSettings
      ensures Valid()
      ensures Presented() == Require(old(Presented()), m)
      ensures m in dialogSettings && s == dialogSettings[m]
      ensures m in old(dialogSettings) ==> s == old(dialogSettings)[m]
    {
      if m in dialogSettings {
        s := dialogSettings[m];
      } else {
        s := CreateDialogSettings(m, None, None, None, None, None);
        dialogSettings := dialogSettings[m := s];
      }
    }

    /** `showDialog(manager, onShow)`. */
    method ShowDialog(m: Manager, onShow: Option<Hook>)
      requires Valid()
      modifies this`dialogs, this`dialogSettings, this`hookLog
      ensures Valid()
      ensures Presented() == Show(old(Presented()), m, onShow, activity)
    {
      ShowKeepsWellFormed(Presented(), m, onShow, activity);
      var settings := RequireDialogSettings(m);
      if m in dialogs && dialogs[m].showing {
        dialogs := dialogs[m := RunHook(dialogs[m], onShow)];
        hookLog := hookLog + Log(m, onShow);
      } else if activity.Some? {
        // createDialog, then showFullScreen: the hooks run on the shown dialog
        var dialog := Dialog(settings, true, map[]);
        dialog := RunHook(dialog, onShow);
        dialog := RunHook(dialog, SettingsHook(settings));
        dialogs := dialogs[m := dialog];
        hookLog := hookLog + Log(m, onShow) + Log(m, SettingsHook(settings));
      }
    }

    /** `cancelDialog`. */
    method CancelDialog(m: Manager)
      requires Valid()
      modifies this`dialogs
      ensures Valid()
      ensures Presented() == Cancel(old(Presented()), m)
    {
      dialogs := dialogs - {m};
    }

    /** The dialog of `m` is dismissed without going through `cancelDialog`. */
    method OnDialogDismissed(m: Manager)
      requires Valid()
      modifies this`dialogs
      ensures Valid()
      ensures Presented() == Dismiss(old(Presented()), m)
    {
      if m in dialogs {
        dialogs := dialogs[m := dialogs[m].(showing := false)];
      }
    }

    /** `showLocationDialog`: its hook sets each button's enabled state from the state read first. */
    method ShowLocationDialog(d: DeviceState)
      requires Valid()
      modifies this`dialogs, this`dialogSettings, this`hookLog
      ensures Valid()
      ensures Presented() == Show(old(Presented()), Location, Some(LocationHook(Query(activity, d))), activity)
    {
      var isEnabled := Query(activity, d).locationEnabled;
      var isPermission := Query(activity, d).permissionGranted;
      ShowDialog(Location, Some(LocationButtons(!isEnabled, !isPermission)));
    }

    /** `refreshDialogs`. */
    method RefreshDialogs(d: DeviceState)
      requires Valid()
      modifies this`dialogs, this`dialogSettings, this`hookLog
      ensures Valid()
      ensures Presented() == Refresh(old(Presented()), activity, d)
    {
      var q := Query(activity, d);
      if q.airplaneMode {
        ShowDialog(Airplane, None);
      } else {
        CancelDialog(Airplane);
        ghost var t1 := Presented();
        if !q.networkConnected {
          ShowDialog(Network, None);
        } else {
          CancelDialog(Network);
        }
        ghost var t2 := Presented();
        assert t2 == Toggle(t1, Network, !q.networkConnected, None, activity);
        if LocationBad(q) {
          ShowLocationDialog(d);
        } else {
          CancelDialog(Location);
        }
        ghost var t3 := Presented();
        assert t3 == Toggle(t2, Location, LocationBad(q), Some(LocationHook(q)), activity);
        if !q.bluetoothEnabled {
          ShowDialog(Bluetooth, None);
        } else {
          CancelDialog(Bluetooth);
        }
        assert Presented() == Toggle(t3, Bluetooth, !q.bluetoothEnabled, None, activity);
      }
    }
  }
}
