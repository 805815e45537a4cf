# AndroidManagers, modelled in Dafny

AndroidManagers is a Kotlin library for Android. Its `Managers` object
watches four device services: airplane mode, network connectivity,
location and Bluetooth. It also watches the fine-location permission.

- It exposes each of the five as a boolean `LiveData` observable.
- It writes an observable only when a broadcast or an activity resume
  decodes a value that differs from the current one.
- When built with `isDialog`, it keeps at most one full-screen dialog per
  service:
  - It shows the dialog while the service is in a bad state and hides it
    once the state recovers.
  - Airplane mode takes priority over the other three.
  - The location dialog enables its two buttons from the state it read.
- Each dialog's settings come from a built-in table:
  - The table holds a layout, a text control, a button and the button's
    action.
  - Caller-supplied settings are merged over that table.
  - Settings are created on first use and cached.

The model has seven modules. Each lives in its own file.

- `Wrappers` (`wrappers.dfy`): `Option`.
- `Device` (`device.dfy`):
  - the `Manager` enum, with each manager's intent action and layout;
  - the resource ids;
  - `DeviceState`, one reading of the system services;
  - `Query`: the getters, which all read false once the weakly held
    activity is gone.
- `Broadcasts` (`broadcasts.dfy`): intents with their extras, the four
  decoders and the receiver's dispatch on the action.
- `LiveData` (`livedata.dfy`):
  - the class `LiveFlag`, an observable with a ghost history of the values
    its observers were sent;
  - `GuardedWrite`, the change-guarded write, as a function on that
    history.
- `Settings` (`settings.dfy`): the remediation `Action` tokens,
  `DialogSettings`, the built-in tables, `toMap` and `createDialogSettings`.
- `Presenter` (`presenter.dfy`):
  - the `dialogs` and `dialogSettings` tables as one value, `Tables`;
  - `requireDialogSettings`, `showDialog`, `cancelDialog` and
    `refreshDialogs` as functions on that value;
  - the lemmas about them.
- `AndroidManagers` (`managers.dfy`): the class `Managers`.
  - It has the five observables, the two mutable tables and the weakly held
    activity.
  - Its methods follow the Kotlin code statement by statement.
  - Each method's postcondition ties the new state to the `Presenter`,
    `Broadcasts` and `LiveData` functions.
  - The class invariant keeps every observable free of repeated emissions
    and keeps the tables well formed.

Inputs that come from Android are parameters:

- The system services' answers are a `DeviceState` argument.
- The activity is an `Option<ActivityId>` field, which `ActivityCollected`
  clears.
- Closures become the opaque `Action` tokens and `Hook` values.

## Model

| member | source | states |
|---|---|---|
| Device.ManagerForAction | AndroidManagers/src/main/java/com/dm6801/androidmanagers/Managers.kt:51-56 | the manager whose intent-filter action equals the given action, and none exactly when no manager's does |
| Device.Query | AndroidManagers/src/main/java/com/dm6801/androidmanagers/Managers.kt:66-80 | with the activity reachable the getters (and `isLocationPermissionGranted` at line 99) answer what the services report; once it is gone every getter reads false |
| Broadcasts.Dispatch | AndroidManagers/src/main/java/com/dm6801/androidmanagers/Managers.kt:110-116 | a possibly null intent reaches the handler whose action it carries, and no handler when its action matches none |
| Broadcasts.DecodeAirplane | AndroidManagers/src/main/java/com/dm6801/androidmanagers/Managers.kt:139 | airplane mode reads on iff the "state" extra is present and is boolean true; a missing extra reads off |
| Broadcasts.DecodeNetwork | AndroidManagers/src/main/java/com/dm6801/androidmanagers/Managers.kt:145-148 | the payload's network info when the service is reachable and the payload has one; otherwise the fresh query; false without the activity |
| Broadcasts.DecodeLocation | AndroidManagers/src/main/java/com/dm6801/androidmanagers/Managers.kt:155-156 | the intent is ignored; enabled iff the activity is reachable and location is enabled |
| Broadcasts.DecodeBluetooth | AndroidManagers/src/main/java/com/dm6801/androidmanagers/Managers.kt:163-164 | on iff the state extra is present and equals STATE_ON (12); a missing extra defaults to ERROR and reads off |
| LiveData.GuardedWrite | AndroidManagers/src/main/java/com/dm6801/androidmanagers/Managers.kt:140-141 | observers receive the value only if it differs from the current one; the last value sent is the new value; no immediate repeat is ever introduced |
| LiveData.Replay | AndroidManagers/src/main/java/com/dm6801/androidmanagers/Managers.kt:138-168 | after any run of guarded writes the earlier history is kept, the current value is the last written one, and the history still has no repeats |
| LiveData.ReplayEmitsOnlyChanges | AndroidManagers/src/main/java/com/dm6801/androidmanagers/Managers.kt:138-168 | observers receive exactly one value per write that changed the current value |
| LiveData.LiveFlag.constructor | AndroidManagers/src/main/java/com/dm6801/androidmanagers/Managers.kt:82-85 | a `MutableLiveData` starts with its initial value as the only value sent |
| LiveData.LiveFlag.Set | AndroidManagers/src/main/java/com/dm6801/androidmanagers/Utilities.kt:12-21 | `set` stores the value and sends it to observers unconditionally |
| Settings.DialogSettings.Layout | AndroidManagers/src/main/java/com/dm6801/androidmanagers/Managers.kt:389 | the effective layout is the one given to the constructor, else the manager's own layout |
| Settings.DefaultActions | AndroidManagers/src/main/java/com/dm6801/androidmanagers/Managers.kt:405-433 | the Airplane, Network and Bluetooth buttons open the airplane settings, open the network settings and request Bluetooth, each as its only default; the location dialog binds its button to the location settings and its permission button to the permission request |
| Settings.ToMap | AndroidManagers/src/main/java/com/dm6801/androidmanagers/Managers.kt:210 | the ids of `actions.toMap()` are exactly the ids among the caller's pairs |
| Settings.ToMapLastWins | AndroidManagers/src/main/java/com/dm6801/androidmanagers/Managers.kt:210 | for an id given twice, the later pair's action is the one kept |
| Settings.CreateDialogSettings | AndroidManagers/src/main/java/com/dm6801/androidmanagers/Managers.kt:381-445 | caller actions win on a shared id; defaults the caller did not give keep their built-in action; nothing else is bound; the layout is the caller's, else the manager's; message and label are bound, to the manager's text and button ids, exactly when given |
| Settings.DefaultSettings | AndroidManagers/src/main/java/com/dm6801/androidmanagers/Managers.kt:217 | the settings created on first use carry the manager's layout and built-in actions and bind no message, label or hook |
| Settings.CustomNetworkActions | AndroidManagers/src/main/java/com/dm6801/androidmanagers/Managers.kt:412-416 | a caller action on the network button replaces the built-in one, and an action on another id is added beside it |
| Settings.LocationHasTwoButtons | AndroidManagers/src/main/java/com/dm6801/androidmanagers/Managers.kt:418-426 | the location dialog binds its settings button and its permission button to their two built-in actions, and nothing else |
| Presenter.RunHook | AndroidManagers/src/main/java/com/dm6801/androidmanagers/Managers.kt:340-349 | the location hook sets the enabled flag of the settings button and of the permission button and leaves every other control, the settings and the showing state alone; any other hook leaves the modelled dialog unchanged |
| Presenter.LocationHook | AndroidManagers/src/main/java/com/dm6801/androidmanagers/Managers.kt:337-348 | the settings button is enabled iff location is off, the permission button iff the permission is not granted |
| Presenter.Require | AndroidManagers/src/main/java/com/dm6801/androidmanagers/Managers.kt:215-219 | stored settings are returned and left alone; missing ones are stored from the defaults; the dialogs are untouched |
| Presenter.Show | AndroidManagers/src/main/java/com/dm6801/androidmanagers/Managers.kt:221-247 | settings are required first. Other managers' entries are untouched. A showing dialog keeps its settings. Without an activity no dialog comes up. Otherwise the manager's dialog is showing, built from its stored settings |
| Presenter.Toggle | AndroidManagers/src/main/java/com/dm6801/androidmanagers/Managers.kt:258-263 | one show-or-hide line touches only its manager's entry: hiding removes it and keeps the settings, showing stores the manager's settings as `requireDialogSettings` does |
| Presenter.Refresh | AndroidManagers/src/main/java/com/dm6801/androidmanagers/Managers.kt:254-265 | a refresh never drops or overwrites stored settings; with airplane mode on the Network, Location and Bluetooth entries are untouched; with it off no Airplane dialog remains |
| Presenter.ShowHookLog | AndroidManagers/src/main/java/com/dm6801/androidmanagers/Managers.kt:227-245 | on a showing dialog only the `onShow` argument runs; on a new dialog the argument runs and then the settings' own hook; without an activity no hook runs |
| Presenter.ShowWhileShowing | AndroidManagers/src/main/java/com/dm6801/androidmanagers/Managers.kt:226-230 | on a showing dialog no entry comes or goes and no settings are stored; only the hook acts on the dialog, and with no location hook the tables are unchanged |
| Presenter.Dismiss | AndroidManagers/src/main/java/com/dm6801/androidmanagers/Managers.kt:227 | a dismissed dialog is no longer showing but keeps its entry and settings; nothing else changes |
| Presenter.ShowAfterDismiss | AndroidManagers/src/main/java/com/dm6801/androidmanagers/Managers.kt:226-245 | a dismissed dialog is replaced by a fresh one built from the stored settings, and the settings' hook runs again |
| Presenter.Cancel | AndroidManagers/src/main/java/com/dm6801/androidmanagers/Managers.kt:249-252 | the manager's entry is removed and no other entry, setting or hook changes |
| Presenter.CancelIdempotent | AndroidManagers/src/main/java/com/dm6801/androidmanagers/Managers.kt:249-252 | cancelling twice is cancelling once; cancelling a manager with no entry changes nothing |
| Presenter.ShowKeepsWellFormed | AndroidManagers/src/main/java/com/dm6801/androidmanagers/Managers.kt:221-247 | after `showDialog` every dialog still belongs to its manager and has stored settings |
| Presenter.ToggleKeepsWellFormed | AndroidManagers/src/main/java/com/dm6801/androidmanagers/Managers.kt:258-263 | each show-or-hide line of `refreshDialogs` keeps the tables well formed |
| Presenter.RefreshKeepsWellFormed | AndroidManagers/src/main/java/com/dm6801/androidmanagers/Managers.kt:254-265 | `refreshDialogs` keeps the tables well formed |
| Presenter.RefreshAirplaneOn | AndroidManagers/src/main/java/com/dm6801/androidmanagers/Managers.kt:255 | with airplane mode on the Airplane dialog is showing; the Network, Location and Bluetooth entries are exactly as they were |
| Presenter.ToggleWithActivity | AndroidManagers/src/main/java/com/dm6801/androidmanagers/Managers.kt:258-263 | with an activity a toggled entry is present iff its condition is bad, is then showing, and no other entry changes |
| Presenter.ChainOff | AndroidManagers/src/main/java/com/dm6801/androidmanagers/Managers.kt:257-263 | chaining the hide-airplane line and the three toggles leaves no Airplane entry and each other entry present iff bad, all showing |
| Presenter.RefreshAirplaneOff | AndroidManagers/src/main/java/com/dm6801/androidmanagers/Managers.kt:256-264 | with airplane mode off there is no Airplane dialog. Network, Location and Bluetooth are present, and showing, iff the network is down, location is off or unpermitted, and Bluetooth is off, respectively |
| Presenter.RefreshNetworkAndBluetoothDown | AndroidManagers/src/main/java/com/dm6801/androidmanagers/Managers.kt:256-264 | network down, location on and permitted, Bluetooth off: exactly the Network and Bluetooth dialogs remain |
| Presenter.LocationButtonsFollowState | AndroidManagers/src/main/java/com/dm6801/androidmanagers/Managers.kt:334-350 | the location dialog's settings button is enabled iff location is off, and its permission button iff the permission is not granted, as read before the call |
| Presenter.HookSettles | AndroidManagers/src/main/java/com/dm6801/androidmanagers/Managers.kt:340-349 | running the location hook again, also after a caller hook, changes nothing |
| Presenter.ToggleSettles | AndroidManagers/src/main/java/com/dm6801/androidmanagers/Managers.kt:258-263 | after one show-or-hide line its entry is settled: doing the line again would change nothing |
| Presenter.SettledFrame | AndroidManagers/src/main/java/com/dm6801/androidmanagers/Managers.kt:258-263 | whether an entry is settled depends only on that entry and its stored settings |
| Presenter.SettledToggleStable | AndroidManagers/src/main/java/com/dm6801/androidmanagers/Managers.kt:258-263 | a show-or-hide line on a settled entry changes neither table |
| Presenter.FirstPassSettles | AndroidManagers/src/main/java/com/dm6801/androidmanagers/Managers.kt:256-264 | one pass with airplane mode off leaves no Airplane entry and the other three settled |
| Presenter.SettledPassStable | AndroidManagers/src/main/java/com/dm6801/androidmanagers/Managers.kt:256-264 | a pass over settled entries changes neither table |
| Presenter.RefreshIdempotent | AndroidManagers/src/main/java/com/dm6801/androidmanagers/Managers.kt:254-265 | a second `refreshDialogs` over the same device state leaves both tables as the first left them |
| Presenter.ToggleWithoutActivity | AndroidManagers/src/main/java/com/dm6801/androidmanagers/Managers.kt:231 | without an activity a show-or-hide line brings up no dialog; only a showing dialog can have a hook run on it |
| Presenter.ShowWithoutActivity | AndroidManagers/src/main/java/com/dm6801/androidmanagers/Managers.kt:226-231 | without an activity `showDialog` keeps every entry's presence, showing state and settings |
| Presenter.ChainWithoutActivity | AndroidManagers/src/main/java/com/dm6801/androidmanagers/Managers.kt:257-263 | chaining the hide-airplane line and three entry-keeping toggles drops only the Airplane entry |
| Presenter.RefreshWithoutActivity | AndroidManagers/src/main/java/com/dm6801/androidmanagers/Managers.kt:254-265 | once the activity is gone every query reads false: a refresh drops the Airplane entry and brings up no dialog, and the rest keep their showing state and settings |
| AndroidManagers.Managers.constructor | AndroidManagers/src/main/java/com/dm6801/androidmanagers/Managers.kt:28-100 | each observable is a newly allocated `MutableLiveData` that starts from its getter's value; both tables start empty |
| AndroidManagers.Managers.ActivityCollected | AndroidManagers/src/main/java/com/dm6801/androidmanagers/Managers.kt:58-59 | the weak reference, once cleared, reads as no activity |
| AndroidManagers.Managers.OnAirplaneBroadcast | AndroidManagers/src/main/java/com/dm6801/androidmanagers/Managers.kt:138-142 | the airplane observable holds the decoded value, and its history grows by a guarded write only |
| AndroidManagers.Managers.OnNetworkBroadcast | AndroidManagers/src/main/java/com/dm6801/androidmanagers/Managers.kt:144-152 | the network observable holds the decoded value, and its history grows by a guarded write only |
| AndroidManagers.Managers.OnLocationBroadcast | AndroidManagers/src/main/java/com/dm6801/androidmanagers/Managers.kt:154-160 | the location observable holds the queried value, and its history grows by a guarded write only |
| AndroidManagers.Managers.OnBluetoothBroadcast | AndroidManagers/src/main/java/com/dm6801/androidmanagers/Managers.kt:162-168 | the Bluetooth observable holds the decoded value, and its history grows by a guarded write only |
| AndroidManagers.Managers.OnReceive | AndroidManagers/src/main/java/com/dm6801/androidmanagers/Managers.kt:109-118 | only the dispatched manager's observable gets a guarded write. With dialogs enabled the tables then become `Refresh` of the old ones whatever the intent was; otherwise they are unchanged |
| AndroidManagers.Managers.OnActivityResumed | AndroidManagers/src/main/java/com/dm6801/androidmanagers/Managers.kt:87-97 | for the library's own activity the permission observable gets a guarded write and, with dialogs enabled, the tables are refreshed; any other activity changes nothing |
| AndroidManagers.Managers.SetDialogSettings | AndroidManagers/src/main/java/com/dm6801/androidmanagers/Managers.kt:197-213 | the manager's settings entry is overwritten with settings created from the arguments and the caller's pairs |
| AndroidManagers.Managers.RequireDialogSettings | AndroidManagers/src/main/java/com/dm6801/androidmanagers/Managers.kt:215-219 | returns the stored settings, storing the defaults first when there are none |
| AndroidManagers.Managers.ShowDialog | AndroidManagers/src/main/java/com/dm6801/androidmanagers/Managers.kt:221-247 | the tables become `Show` of the old ones |
| AndroidManagers.Managers.CancelDialog | AndroidManagers/src/main/java/com/dm6801/androidmanagers/Managers.kt:249-252 | the tables become `Cancel` of the old ones |
| AndroidManagers.Managers.OnDialogDismissed | AndroidManagers/src/main/java/com/dm6801/androidmanagers/Managers.kt:227 | the tables become `Dismiss` of the old ones |
| AndroidManagers.Managers.ShowLocationDialog | AndroidManagers/src/main/java/com/dm6801/androidmanagers/Managers.kt:334-350 | shows the Location dialog with the button hook built from the location and permission state read first |
| AndroidManagers.Managers.RefreshDialogs | AndroidManagers/src/main/java/com/dm6801/androidmanagers/Managers.kt:254-265 | the tables become `Refresh` of the old ones, over one reading of the device state |

## Left out

- Threading: `LiveData.set` picks `setValue` on the main thread and
  `postValue` elsewhere. The model writes synchronously. Its exception
  swallowing is not modelled.
- Registration of the broadcast receiver and of the lifecycle callbacks
  (`Managers.kt:121-136`). This is platform plumbing wrapped in `catch`.
- The system services are one `DeviceState` argument per call; the model
  does not read them itself.
  - Each getter in `refreshDialogs` re-queries the services, so the
    Kotlin code could see the state change mid-refresh. The model reads one
    snapshot.
- `ConnectivityManagerCompat.getNetworkInfoFromBroadcast` is reduced to an
  optional connected flag carried in the intent. Its lookup of the network
  by the broadcast's network type is not modelled.
- Running the remediation actions (`startActivity`, `requestPermissions`).
  They are tokens that are bound to controls but never run.
- Dialog construction and display:
  - `AlertDialog` building and `showFullScreen`'s window size and gravity
    are left out.
  - The `findViewById` lookups are assumed to find their controls.
  - The text bound to labels and messages, the click listeners and the
    0.5/1.0 alpha values are left out. A dialog keeps its settings and an
    enabled flag per button.
- Presenter.Show: the label, message and action bindings and both hooks of
  a newly built dialog are applied as soon as it is shown. In the library
  they run in the show listener that `showFullScreen` installs
  (`Utilities.kt:36-44`), which Android delivers after `showDialog` has
  returned. So when events queue up before that delivery, the order of
  hook runs and the final button state can differ from the model. Only
  the hook re-run on a dialog already showing (`Managers.kt:228`) is
  immediate in both.
- AndroidManagers.Managers.ShowDialog: the same deferral is not modelled.
  The new dialog's bindings and hooks take effect within the call.
- AndroidManagers.Managers.ShowLocationDialog: the same deferral is not
  modelled. The button hook of a newly built location dialog takes effect
  within the call.
- A caller's `onShow` hook is logged by its id. What it does to the views is
  not modelled.
- The public wrappers `setAirplaneDialog`, `setNetworkDialog`,
  `setLocationDialog` and `setBluetoothDialog` are left out. So are the
  private `showX`/`hideX` one-liners other than `showLocationDialog`
  (`Managers.kt:284-290`, `309-315`, `352-354`, `373-379`; the setters are
  `267-282`, `292-307`, `317-332`, `356-371`). Each only
  forwards to `SetDialogSettings`, `ShowDialog` or `CancelDialog` with a
  fixed manager, and `RefreshDialogs` makes those calls directly.
- The resource ids (`R.layout.*`, `R.id.*`) are represented by distinct
  constants, not the compiler-assigned values.
- `OnDialogDismissed` stands for a dialog that stops showing without
  `cancelDialog`, for example when a caller's click action dismisses it.
  The library itself never does this.

## Notes on the source

- With airplane mode on, `refreshDialogs` only shows the Airplane dialog. It
  does not hide a Network, Location or Bluetooth dialog that is already
  up. The model follows the code.
- When a dialog is already showing, `showDialog` runs only its `onShow`
  argument, not the settings' own hook.
- Without an activity, `showDialog` still stores the default settings,
  because `requireDialogSettings` runs before the activity check.
