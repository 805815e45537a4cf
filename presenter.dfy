/**
 * The dialog presenter as values: the `dialogs` table (at most one dialog
 * per manager), the lazily filled `dialogSettings` table, and the
 * `showDialog` / `cancelDialog` / `refreshDialogs` policy over them.
 */
module Presenter {
  import opened Wrappers
  import opened Device
  import opened Settings

  /** A post-show hook run on a dialog. */
  datatype Hook =
      /** The lambda `showLocationDialog` passes: the enabled state of its two buttons. */
    | LocationButtons(settingsButtonEnabled: bool, permissionButtonEnabled: bool)
      /** A caller's `onShow` from the dialog settings; what it does to the views is not modelled. */
    | CallerHook(id: int)

  /**
   * An `AlertDialog` held in the table: the settings it was built from
   * (layout, bound texts and click actions), whether it is showing, and
   * the enabled flag hooks have set on its buttons.
   */
  datatype Dialog = Dialog(settings: DialogSettings, showing: bool, enabled: map<int, bool>)

  /** One invocation of a hook, on the dialog of `manager`. */
  datatype HookRun = HookRun(manager: Manager, hook: Hook)

  /** `dialogs`, `dialogSettings`, and the log of hook invocations. */
  datatype Tables = Tables(dialogs: map<Manager, Dialog>, settings: map<Manager, DialogSettings>, hooks: seq<HookRun>)

  /**
   * Every entry belongs to the manager it is filed under, and a dialog
   * only exists for a manager whose settings were required.
   */
  predicate WellFormed(t: Tables) {
    && t.dialogs.Keys <= t.settings.Keys
    && (forall m :: m in t.settings ==> t.settings[m].manager == m)
    && (forall m :: m in t.dialogs ==> t.dialogs[m].settings.manager == m)
  }

  /** `dialog?.isShowing == true`. */
  predicate Showing(t: Tables, m: Manager) {
    m in t.dialogs && t.dialogs[m].showing
  }

  /** Two tables hold the same entry for `k` (both absent, or both present and equal). */
  predicate SameEntry(t: Tables, r: Tables, k: Manager) {
    (k in r.dialogs <==> k in t.dialogs) && (k in t.dialogs ==> r.dialogs[k] == t.dialogs[k])
  }

  /** The effect of a hook, if there is one, on the dialog's views. */
  function RunHook(d: Dialog, h: Option<Hook>): (r: Dialog)
    ensures r.settings == d.settings && r.showing == d.showing
    ensures !(h.Some? && h.value.LocationButtons?) ==> r == d
    ensures h.Some? && h.value.LocationButtons? ==>
              && IdDialogLocationButton in r.enabled
              && r.enabled[IdDialogLocationButton] == h.value.settingsButtonEnabled
              && IdDialogLocationPermissions in r.enabled
              && r.enabled[IdDialogLocationPermissions] == h.value.permissionButtonEnabled
              && r.enabled.Keys == d.enabled.Keys + {IdDialogLocationButton, IdDialogLocationPermissions}
              && forall id :: id in d.enabled && id != IdDialogLocationButton && id != IdDialogLocationPermissions ==>
                   id in r.enabled && r.enabled[id] == d.enabled[id]
  {
    match h
    case Some(LocationButtons(a, b)) =>
      d.(enabled := d.enabled[IdDialogLocationButton := a][IdDialogLocationPermissions := b])
    case _ => d
  }

  /** The log entry for running a hook, if there is one. */
  function Log(m: Manager, h: Option<Hook>): seq<HookRun> {
    if h.Some? then [HookRun(m, h.value)] else []
  }

  /** The caller's post-show hook of a settings value. */
  function SettingsHook(s: DialogSettings): Option<Hook> {
    if s.onShow.Some? then Some(CallerHook(s.onShow.value)) else None
  }

  /** `requireDialogSettings`: stores the defaults on first use; afterwards the table is left alone. */
  function Require(t: Tables, m: Manager): (r: Tables)
    ensures m in r.settings
    ensures m in t.settings ==> r == t
    ensures m !in t.settings ==> r.settings[m] == DefaultSettings(m)
    ensures forall k :: k in t.settings ==> k in r.settings && r.settings[k] == t.settings[k]
    ensures r.settings.Keys == t.settings.Keys + {m}
    ensures r.dialogs == t.dialogs && r.hooks == t.hooks
  {
    if m in t.settings then t else t.(settings := t.settings[m := DefaultSettings(m)])
  }

  /**
   * `showDialog(manager, onShow)`: the settings are required first; a
   * showing dialog only gets `onShow` run on it; without an activity
   * nothing more happens; otherwise a new dialog is built from the
   * settings and shown, and `onShow` then the settings' own hook run on it.
   */
  function Show(t: Tables, m: Manager, onShow: Option<Hook>, activity: Option<ActivityId>): (r: Tables)
    ensures r.settings == Require(t, m).settings
    ensures forall k :: k != m ==> SameEntry(t, r, k)
    ensures Showing(t, m) || activity.Some? ==> Showing(r, m)
    ensures Showing(t, m) ==> r.dialogs[m].settings == t.dialogs[m].settings
    ensures !Showing(t, m) && activity.None? ==> r.dialogs == t.dialogs
    ensures !Showing(t, m) && activity.Some? ==> r.dialogs[m].settings == r.settings[m]
  {
    var t1 := Require(t, m);
    if Showing(t1, m) then
      t1.(dialogs := t1.dialogs[m := RunHook(t1.dialogs[m], onShow)], hooks := t1.hooks + Log(m, onShow))
    else if activity.None? then
      t1
    else
      var s := t1.settings[m];
      var dialog := RunHook(RunHook(Dialog(s, true, map[]), onShow), SettingsHook(s));
      t1.(dialogs := t1.dialogs[m := dialog], hooks := t1.hooks + Log(m, onShow) + Log(m, SettingsHook(s)))
  }

  /** `cancelDialog`: removes the manager's entry and no other. */
  function Cancel(t: Tables, m: Manager): (r: Tables)
    ensures m !in r.dialogs
    ensures forall k :: k != m ==> SameEntry(t, r, k)
    ensures r.settings == t.settings && r.hooks == t.hooks
  {
    t.(dialogs := t.dialogs - {m})
  }

  /**
   * A shown dialog stops showing (one of its click actions, or the
   * platform, dismissed it); its entry stays in the table.
   */
  function Dismiss(t: Tables, m: Manager): (r: Tables)
    ensures !Showing(r, m)
    ensures m in r.dialogs <==> m in t.dialogs
    ensures m in t.dialogs ==> r.dialogs[m].settings == t.dialogs[m].settings
    ensures forall k :: k != m ==> SameEntry(t, r, k)
    ensures r.settings == t.settings && r.hooks == t.hooks
  {
    if m in t.dialogs then t.(dialogs := t.dialogs[m := t.dialogs[m].(showing := false)]) else t
  }

  /**
   * `showDialog` on a dismissed dialog builds and shows a new one from the
   * stored settings: its buttons start with no enabled state set, and
   * both hooks run again.
   */
  lemma ShowAfterDismiss(t: Tables, m: Manager, activity: Option<ActivityId>)
    requires activity.Some? && m in t.settings
    ensures var r := Show(Dismiss(t, m), m, None, activity);
            && Showing(r, m)
            && r.dialogs[m] == RunHook(Dialog(t.settings[m], true, map[]), SettingsHook(t.settings[m]))
            && r.hooks == t.hooks + Log(m, SettingsHook(t.settings[m]))
  {
  }

  /** The hook `showLocationDialog` passes: a button is enabled iff its condition does not hold. */
  function LocationHook(q: DeviceState): (h: Hook)
    ensures h.LocationButtons?
    ensures h.settingsButtonEnabled <==> !q.locationEnabled
    ensures h.permissionButtonEnabled <==> !q.permissionGranted
  {
    LocationButtons(!q.locationEnabled, !q.permissionGranted)
  }

  /** The location dialog is wanted when location is off or the permission is missing. */
  predicate LocationBad(q: DeviceState) {
    !q.locationEnabled || !q.permissionGranted
  }

  /** One `if (bad) showX() else hideX()` line of `refreshDialogs`. */
  function Toggle(t: Tables, m: Manager, bad: bool, onShow: Option<Hook>, activity: Option<ActivityId>): (r: Tables)
    ensures forall k :: k != m ==> SameEntry(t, r, k)
    ensures !bad ==> m !in r.dialogs && r.settings == t.settings
    ensures bad ==> r.settings == Require(t, m).settings
  {
    if bad then Show(t, m, onShow, activity) else Cancel(t, m)
  }

  /** `refreshDialogs`, over one reading of the device state. */
  function Refresh(t: Tables, activity: Option<ActivityId>, d: DeviceState): (r: Tables)
    ensures forall k :: k in t.settings ==> k in r.settings && r.settings[k] == t.settings[k]
    ensures Query(activity, d).airplaneMode ==> forall k :: k != Airplane ==> SameEntry(t, r, k)
    ensures !Query(activity, d).airplaneMode ==> Airplane !in r.dialogs
  {
    var q := Query(activity, d);
    if q.airplaneMode then
      Show(t, Airplane, None, activity)
    else
      var t1 := Cancel(t, Airplane);
      var t2 := Toggle(t1, Network, !q.networkConnected, None, activity);
      var t3 := Toggle(t2, Location, LocationBad(q), Some(LocationHook(q)), activity);
      Toggle(t3, Bluetooth, !q.bluetoothEnabled, None, activity)
  }

  /**
   * The hooks a `showDialog` call runs: on a showing dialog only the
   * `onShow` argument (the settings' own hook is not run again); on a new
   * dialog the argument and then the settings' hook; none without an
   * activity.
   */
  lemma ShowHookLog(t: Tables, m: Manager, onShow: Option<Hook>, activity: Option<ActivityId>)
    ensures var r := Show(t, m, onShow, activity);
            && (Showing(t, m) ==> r.hooks == t.hooks + Log(m, onShow))
            && (!Showing(t, m) && activity.None? ==> r.hooks == t.hooks)
            && (!Showing(t, m) && activity.Some? ==>
                  r.hooks == t.hooks + Log(m, onShow) + Log(m, SettingsHook(r.settings[m])))
  {
  }

  /**
   * `showDialog` on a showing dialog: no entry comes or goes, no settings
   * are stored, and only the hook argument acts on the dialog; with no
   * hook, or a caller hook, the tables are as they were.
   */
  lemma ShowWhileShowing(t: Tables, m: Manager, onShow: Option<Hook>, activity: Option<ActivityId>)
    requires WellFormed(t) && Showing(t, m)
    ensures var r := Show(t, m, onShow, activity);
            && r.settings == t.settings
            && r.dialogs.Keys == t.dialogs.Keys
            && r.dialogs[m] == RunHook(t.dialogs[m], onShow)
            && (onShow.None? || onShow.value.CallerHook? ==> r.dialogs == t.dialogs)
  {
  }

  /** `showDialog` and `cancelDialog` keep the tables well formed. */
  lemma ToggleKeepsWellFormed(t: Tables, m: Manager, bad: bool, onShow: Option<Hook>, activity: Option<ActivityId>)
    requires WellFormed(t)
    ensures WellFormed(Toggle(t, m, bad, onShow, activity))
  {
    if bad {
      ShowKeepsWellFormed(t, m, onShow, activity);
    }
  }

  /** `showDialog` keeps the tables well formed. */
  lemma ShowKeepsWellFormed(t: Tables, m: Manager, onShow: Option<Hook>, activity: Option<ActivityId>)
    requires WellFormed(t)
    ensures WellFormed(Show(t, m, onShow, activity))
  {
    var r := Show(t, m, onShow, activity);
    var t1 := Require(t, m);
    assert WellFormed(t1);
    forall k | k in r.dialogs ensures k in r.settings && r.dialogs[k].settings.manager == k {
      if k != m {
        assert SameEntry(t, r, k);
      }
    }
  }

  /** `refreshDialogs` keeps the tables well formed. */
  lemma RefreshKeepsWellFormed(t: Tables, activity: Option<ActivityId>, d: DeviceState)
    requires WellFormed(t)
    ensures WellFormed(Refresh(t, activity, d))
  {
    var q := Query(activity, d);
    if q.airplaneMode {
      ToggleKeepsWellFormed(t, Airplane, true, None, activity);
      assert Refresh(t, activity, d) == Toggle(t, Airplane, true, None, activity);
    } else {
      var t1 := Cancel(t, Airplane);
      var t2 := Toggle(t1, Network, !q.networkConnected, None, activity);
      ToggleKeepsWellFormed(t1, Network, !q.networkConnected, None, activity);
      var t3 := Toggle(t2, Location, LocationBad(q), Some(LocationHook(q)), activity);
      ToggleKeepsWellFormed(t2, Location, LocationBad(q), Some(LocationHook(q)), activity);
      ToggleKeepsWellFormed(t3, Bluetooth, !q.bluetoothEnabled, None, activity);
    }
  }

  /**
   * With airplane mode on only the Airplane dialog is shown; the Network,
   * Location and Bluetooth entries are left exactly as they were, so a
   * showing Network dialog stays showing beside it.
   */
  lemma RefreshAirplaneOn(t: Tables, activity: Option<ActivityId>, d: DeviceState)
    requires activity.Some? && d.airplaneMode
    ensures var r := Refresh(t, activity, d);
            && Showing(r, Airplane)
            && SameEntry(t, r, Network) && SameEntry(t, r, Location) && SameEntry(t, r, Bluetooth)
  {
  }

  /** With an activity, a toggled entry is present, and showing, exactly when it is bad. */
  lemma ToggleWithActivity(t: Tables, m: Manager, bad: bool, onShow: Option<Hook>, activity: Option<ActivityId>)
    requires activity.Some?
    ensures var r := Toggle(t, m, bad, onShow, activity);
            && (m in r.dialogs <==> bad)
            && (m in r.dialogs ==> r.dialogs[m].showing)
            && forall k :: k != m ==> SameEntry(t, r, k)
  {
  }

  /** The facts `RefreshAirplaneOff` chains, over any tables that satisfy them. */
  lemma ChainOff(t1: Tables, t2: Tables, t3: Tables, r: Tables, bn: bool, bl: bool, bb: bool)
    requires Airplane !in t1.dialogs
    requires (Network in t2.dialogs <==> bn) && (Network in t2.dialogs ==> t2.dialogs[Network].showing)
    requires forall k :: k != Network ==> SameEntry(t1, t2, k)
    requires (Location in t3.dialogs <==> bl) && (Location in t3.dialogs ==> t3.dialogs[Location].showing)
    requires forall k :: k != Location ==> SameEntry(t2, t3, k)
    requires (Bluetooth in r.dialogs <==> bb) && (Bluetooth in r.dialogs ==> r.dialogs[Bluetooth].showing)
    requires forall k :: k != Bluetooth ==> SameEntry(t3, r, k)
    ensures Airplane !in r.dialogs
    ensures (Network in r.dialogs <==> bn) && (Location in r.dialogs <==> bl) && (Bluetooth in r.dialogs <==> bb)
    ensures forall k :: k in r.dialogs ==> r.dialogs[k].showing
  {
    assert SameEntry(t1, t2, Airplane) && SameEntry(t2, t3, Airplane) && SameEntry(t3, r, Airplane);
    assert SameEntry(t2, t3, Network) && SameEntry(t3, r, Network);
    assert SameEntry(t3, r, Location);
    forall k | k in r.dialogs ensures r.dialogs[k].showing {
      match k
      case Airplane =>
      case Network =>
      case Location =>
      case Bluetooth =>
    }
  }

  /**
   * With airplane mode off the Airplane dialog is gone, and each of the
   * other three is showing exactly when its service is "bad".
   */
  lemma RefreshAirplaneOff(t: Tables, activity: Option<ActivityId>, d: DeviceState)
    requires activity.Some? && !d.airplaneMode
    ensures var r := Refresh(t, activity, d);
            && Airplane !in r.dialogs
            && (Network in r.dialogs <==> !d.networkConnected)
            && (Location in r.dialogs <==> LocationBad(d))
            && (Bluetooth in r.dialogs <==> !d.bluetoothEnabled)
            && (forall k :: k in r.dialogs ==> r.dialogs[k].showing)
  {
    var q := Query(activity, d);
    assert q == d;
    var t1 := Cancel(t, Airplane);
    var t2 := Toggle(t1, Network, !q.networkConnected, None, activity);
    ToggleWithActivity(t1, Network, !q.networkConnected, None, activity);
    var t3 := Toggle(t2, Location, LocationBad(q), Some(LocationHook(q)), activity);
    ToggleWithActivity(t2, Location, LocationBad(q), Some(LocationHook(q)), activity);
    var r := Toggle(t3, Bluetooth, !q.bluetoothEnabled, None, activity);
    ToggleWithActivity(t3, Bluetooth, !q.bluetoothEnabled, None, activity);
    ChainOff(t1, t2, t3, r, !q.networkConnected, LocationBad(q), !q.bluetoothEnabled);
    assert r == Refresh(t, activity, d);
  }

  /** After showing the location dialog its buttons reflect the device state that was read. */
  lemma LocationButtonsFollowState(t: Tables, activity: Option<ActivityId>, d: DeviceState)
    requires activity.Some? || Showing(t, Location)
    ensures var q := Query(activity, d);
            var r := Show(t, Location, Some(LocationHook(q)), activity);
            && Showing(r, Location)
            && IdDialogLocationButton in r.dialogs[Location].enabled
            && IdDialogLocationPermissions in r.dialogs[Location].enabled
            && (r.dialogs[Location].enabled[IdDialogLocationButton] <==> !q.locationEnabled)
            && (r.dialogs[Location].enabled[IdDialogLocationPermissions] <==> !q.permissionGranted)
  {
  }

  /**
   * Toggling `m` again with the same inputs would change nothing: a bad
   * entry has its settings stored, and is either a showing dialog that
   * the hook leaves as it is, or absent with no activity to show it on;
   * a good entry is absent.
   */
  predicate Settled(u: Tables, m: Manager, bad: bool, onShow: Option<Hook>, activity: Option<ActivityId>) {
    if bad then
      && m in u.settings
      && (Showing(u, m) ==> RunHook(u.dialogs[m], onShow) == u.dialogs[m])
      && (!Showing(u, m) ==> activity.None?)
    else
      m !in u.dialogs
  }

  /** The hooks `refreshDialogs` passes are idempotent, also after a caller hook ran. */
  lemma HookSettles(x: Dialog, h: Option<Hook>, caller: Option<Hook>)
    requires h.None? || h.value.LocationButtons?
    requires caller.None? || caller.value.CallerHook?
    ensures RunHook(RunHook(RunHook(x, h), caller), h) == RunHook(RunHook(x, h), caller)
  {
    if h.Some? {
      var y := RunHook(x, h);
      assert RunHook(y, h).enabled == y.enabled;
    }
  }

  /** After one toggle the entry is settled. */
  lemma ToggleSettles(t: Tables, m: Manager, bad: bool, onShow: Option<Hook>, activity: Option<ActivityId>)
    requires onShow.None? || onShow.value.LocationButtons?
    ensures Settled(Toggle(t, m, bad, onShow, activity), m, bad, onShow, activity)
  {
    if bad {
      var t1 := Require(t, m);
      if Showing(t1, m) {
        HookSettles(t1.dialogs[m], onShow, None);
      } else if activity.Some? {
        var s := t1.settings[m];
        HookSettles(Dialog(s, true, map[]), onShow, SettingsHook(s));
      }
    }
  }

  /** Whether an entry is settled depends on that entry and its stored settings only. */
  lemma SettledFrame(u: Tables, v: Tables, m: Manager, bad: bool, onShow: Option<Hook>, activity: Option<ActivityId>)
    requires Settled(u, m, bad, onShow, activity)
    requires SameEntry(u, v, m) && (m in u.settings ==> m in v.settings)
    ensures Settled(v, m, bad, onShow, activity)
  {
  }

  /** Toggling a settled entry changes neither table. */
  lemma SettledToggleStable(u: Tables, m: Manager, bad: bool, onShow: Option<Hook>, activity: Option<ActivityId>)
    requires Settled(u, m, bad, onShow, activity)
    ensures var r := Toggle(u, m, bad, onShow, activity);
            r.dialogs == u.dialogs && r.settings == u.settings
  {
    if !bad {
      assert u.dialogs - {m} == u.dialogs;
    }
  }

  /** The first pass of `refreshDialogs` with airplane mode off leaves every entry settled. */
  lemma FirstPassSettles(t: Tables, activity: Option<ActivityId>, d: DeviceState)
    requires !Query(activity, d).airplaneMode
    ensures var q := Query(activity, d);
            var r := Refresh(t, activity, d);
            && Airplane !in r.dialogs
            && Settled(r, Network, !q.networkConnected, None, activity)
            && Settled(r, Location, LocationBad(q), Some(LocationHook(q)), activity)
            && Settled(r, Bluetooth, !q.bluetoothEnabled, None, activity)
  {
    var q := Query(activity, d);
    var bn, bl, bb := !q.networkConnected, LocationBad(q), !q.bluetoothEnabled;
    var hl := Some(LocationHook(q));
    var t1 := Cancel(t, Airplane);
    var t2 := Toggle(t1, Network, bn, None, activity);
    ToggleSettles(t1, Network, bn, None, activity);
    var t3 := Toggle(t2, Location, bl, hl, activity);
    ToggleSettles(t2, Location, bl, hl, activity);
    SettledFrame(t2, t3, Network, bn, None, activity);
    var r := Toggle(t3, Bluetooth, bb, None, activity);
    ToggleSettles(t3, Bluetooth, bb, None, activity);
    SettledFrame(t3, r, Network, bn, None, activity);
    SettledFrame(t3, r, Location, bl, hl, activity);
    assert SameEntry(t1, t2, Airplane) && SameEntry(t2, t3, Airplane) && SameEntry(t3, r, Airplane);
    assert r == Refresh(t, activity, d);
  }

  /** A pass of `refreshDialogs` with airplane mode off over settled entries changes neither table. */
  lemma SettledPassStable(u: Tables, activity: Option<ActivityId>, d: DeviceState)
    requires !Query(activity, d).airplaneMode
    requires var q := Query(activity, d);
             && Airplane !in u.dialogs
             && Settled(u, Network, !q.networkConnected, None, activity)
             && Settled(u, Location, LocationBad(q), Some(LocationHook(q)), activity)
             && Settled(u, Bluetooth, !q.bluetoothEnabled, None, activity)
    ensures var r := Refresh(u, activity, d);
            r.dialogs == u.dialogs && r.settings == u.settings
  {
    var q := Query(activity, d);
    var bn, bl, bb := !q.networkConnected, LocationBad(q), !q.bluetoothEnabled;
    var hl := Some(LocationHook(q));
    var u1 := Cancel(u, Airplane);
    assert u1.dialogs == u.dialogs;
    var u2 := Toggle(u1, Network, bn, None, activity);
    SettledToggleStable(u1, Network, bn, None, activity);
    var u3 := Toggle(u2, Location, bl, hl, activity);
    SettledToggleStable(u2, Location, bl, hl, activity);
    var r := Toggle(u3, Bluetooth, bb, None, activity);
    SettledToggleStable(u3, Bluetooth, bb, None, activity);
    assert r == Refresh(u, activity, d);
  }

  /**
   * `refreshDialogs` is idempotent: a second pass over the same device
   * state leaves both tables as the first pass left them (only hooks run
   * again).
   */
  lemma RefreshIdempotent(t: Tables, activity: Option<ActivityId>, d: DeviceState)
    ensures var r1 := Refresh(t, activity, d);
            var r2 := Refresh(r1, activity, d);
            r2.dialogs == r1.dialogs && r2.settings == r1.settings
  {
    var r1 := Refresh(t, activity, d);
    if Query(activity, d).airplaneMode {
      ToggleSettles(t, Airplane, true, None, activity);
      assert r1 == Toggle(t, Airplane, true, None, activity);
      SettledToggleStable(r1, Airplane, true, None, activity);
      assert Refresh(r1, activity, d) == Toggle(r1, Airplane, true, None, activity);
    } else {
      FirstPassSettles(t, activity, d);
      SettledPassStable(r1, activity, d);
    }
  }

  /** Without an activity a toggle never brings a dialog up; it may only run a hook on one that is showing. */
  lemma ToggleWithoutActivity(t: Tables, m: Manager, bad: bool, onShow: Option<Hook>)
    ensures var r := Toggle(t, m, bad, onShow, None);
            && (forall k :: k != m ==> SameEntry(t, r, k))
            && (bad ==> (m in r.dialogs <==> m in t.dialogs))
            && (!bad ==> m !in r.dialogs)
            && (m in r.dialogs ==> r.dialogs[m].showing == t.dialogs[m].showing &&
                                   r.dialogs[m].settings == t.dialogs[m].settings)
  {
  }

  /** Each table of the chain keeps the entries of the one before, up to `step`. */
  predicate KeepsEntries(t: Tables, r: Tables, step: Manager) {
    && (forall k :: k != step ==> SameEntry(t, r, k))
    && (step in r.dialogs <==> step in t.dialogs)
    && (step in r.dialogs ==> r.dialogs[step].showing == t.dialogs[step].showing &&
                              r.dialogs[step].settings == t.dialogs[step].settings)
  }

  /** The facts `RefreshWithoutActivity` chains, over any tables that satisfy them. */
  lemma ChainWithoutActivity(t: Tables, t1: Tables, t2: Tables, t3: Tables, r: Tables)
    requires t1.dialogs == t.dialogs - {Airplane}
    requires KeepsEntries(t1, t2, Network) && KeepsEntries(t2, t3, Location) && KeepsEntries(t3, r, Bluetooth)
    ensures r.dialogs.Keys == t.dialogs.Keys - {Airplane}
    ensures forall k :: k in r.dialogs ==>
              r.dialogs[k].showing == t.dialogs[k].showing && r.dialogs[k].settings == t.dialogs[k].settings
  {
    forall k ensures k in r.dialogs <==> k in t.dialogs && k != Airplane {
      match k
      case Airplane =>
        assert SameEntry(t1, t2, k) && SameEntry(t2, t3, k) && SameEntry(t3, r, k);
      case Network =>
        assert SameEntry(t2, t3, k) && SameEntry(t3, r, k);
      case Location =>
        assert SameEntry(t1, t2, k) && SameEntry(t3, r, k);
      case Bluetooth =>
        assert SameEntry(t1, t2, k) && SameEntry(t2, t3, k);
    }
    forall k | k in r.dialogs
      ensures r.dialogs[k].showing == t.dialogs[k].showing && r.dialogs[k].settings == t.dialogs[k].settings
    {
      match k
      case Airplane =>
      case Network =>
        assert SameEntry(t2, t3, k) && SameEntry(t3, r, k);
      case Location =>
        assert SameEntry(t1, t2, k) && SameEntry(t3, r, k);
      case Bluetooth =>
        assert SameEntry(t1, t2, k) && SameEntry(t2, t3, k);
    }
  }

  /** Without an activity a bad toggle never brings a dialog up; it may only run a hook on a showing one. */
  lemma ShowWithoutActivity(t: Tables, m: Manager, onShow: Option<Hook>)
    ensures KeepsEntries(t, Toggle(t, m, true, onShow, None), m)
  {
  }

  /**
   * Once the activity is gone every query reads false, so a refresh drops
   * the Airplane entry and brings up no dialog: the other entries stay,
   * each as showing as it was and built from the same settings.
   */
  lemma RefreshWithoutActivity(t: Tables, d: DeviceState)
    ensures var r := Refresh(t, None, d);
            && r.dialogs.Keys == t.dialogs.Keys - {Airplane}
            && forall k :: k in r.dialogs ==>
                 r.dialogs[k].showing == t.dialogs[k].showing && r.dialogs[k].settings == t.dialogs[k].settings
  {
    var q := Query(None, d);
    var t1 := Cancel(t, Airplane);
    var t2 := Toggle(t1, Network, true, None, None);
    ShowWithoutActivity(t1, Network, None);
    var t3 := Toggle(t2, Location, true, Some(LocationHook(q)), None);
    ShowWithoutActivity(t2, Location, Some(LocationHook(q)));
    var r := Toggle(t3, Bluetooth, true, None, None);
    ShowWithoutActivity(t3, Bluetooth, None);
    assert r == Refresh(t, None, d);
    ChainWithoutActivity(t, t1, t2, t3, r);
  }

  /**
   * Airplane mode off, network down, location on and permitted, Bluetooth
   * off: a refresh leaves exactly the Network and Bluetooth dialogs.
   */
  lemma RefreshNetworkAndBluetoothDown(t: Tables, activity: Option<ActivityId>)
    requires activity.Some?
    ensures Refresh(t, activity, DeviceState(false, false, true, false, true)).dialogs.Keys == {Network, Bluetooth}
  {
    var d := DeviceState(false, false, true, false, true);
    RefreshAirplaneOff(t, activity, d);
    var r := Refresh(t, activity, d);
    forall k ensures k in r.dialogs <==> k == Network || k == Bluetooth {
      match k
      case Airplane =>
      case Network =>
      case Location =>
      case Bluetooth =>
    }
  }

  /** `cancelDialog` twice is `cancelDialog` once, and without an entry it changes nothing. */
  lemma CancelIdempotent(t: Tables, m: Manager)
    ensures Cancel(Cancel(t, m), m) == Cancel(t, m)
    ensures m !in t.dialogs ==> Cancel(t, m) == t
  {
    assert (t.dialogs - {m}) - {m} == t.dialogs - {m};
    if m !in t.dialogs {
      assert t.dialogs - {m} == t.dialogs;
    }
  }
}
