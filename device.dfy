/**
 * The four watched services, the broadcast actions they react to, the
 * resource identifiers their dialogs use, and the device state the
 * library reads through Android system services.
 */
module Device {
  import opened Wrappers

  /** The `Manager` enum: one entry per watched service. */
  datatype Manager = Airplane | Network | Location | Bluetooth

  /** A host activity, compared by identity; the library holds it through a weak reference. */
  type ActivityId = nat

  // The broadcast actions of the Android platform that the enum entries carry.
  const ActionAirplaneModeChanged: string := "android.intent.action.AIRPLANE_MODE"
  const ConnectivityAction: string := "android.net.conn.CONNECTIVITY_CHANGE"
  const LocationModeChangedAction: string := "android.location.MODE_CHANGED"
  const BluetoothStateChangedAction: string := "android.bluetooth.adapter.action.STATE_CHANGED"

  /** `Manager.intentFilterAction`. */
  function IntentFilterAction(m: Manager): string {
    match m
    case Airplane => ActionAirplaneModeChanged
    case Network => ConnectivityAction
    case Location => LocationModeChangedAction
    case Bluetooth => BluetoothStateChangedAction
  }

  /**
   * The `when (intent?.action)` dispatch of the broadcast receiver: the
   * manager whose action equals `action`, if any.
   */
  function ManagerForAction(action: string): (r: Option<Manager>)
    ensures forall m :: r == Some(m) <==> action == IntentFilterAction(m)
  {
    if action == IntentFilterAction(Airplane) then Some(Airplane)
    else if action == IntentFilterAction(Network) then Some(Network)
    else if action == IntentFilterAction(Location) then Some(Location)
    else if action == IntentFilterAction(Bluetooth) then Some(Bluetooth)
    else None
  }

  // Resource identifiers (`R.layout.*`, `R.id.*`). The Android resource
  // compiler assigns the real values; these stand for them, and the model
  // relies only on their being distinct.
  const LayoutDialogAirplane: int := 0x7f0c_0001
  const LayoutDialogNetwork: int := 0x7f0c_0002
  const LayoutDialogLocation: int := 0x7f0c_0003
  const LayoutDialogBluetooth: int := 0x7f0c_0004

  const IdDialogAirplaneText: int := 0x7f08_0001
  const IdDialogAirplaneButton: int := 0x7f08_0002
  const IdDialogNetworkText: int := 0x7f08_0003
  const IdDialogNetworkButton: int := 0x7f08_0004
  const IdDialogLocationText: int := 0x7f08_0005
  const IdDialogLocationButton: int := 0x7f08_0006
  const IdDialogLocationPermissions: int := 0x7f08_0007
  const IdDialogBluetoothText: int := 0x7f08_0008
  const IdDialogBluetoothButton: int := 0x7f08_0009

  /** `Manager.dialogLayout`. */
  function DialogLayout(m: Manager): int {
    match m
    case Airplane => LayoutDialogAirplane
    case Network => LayoutDialogNetwork
    case Location => LayoutDialogLocation
    case Bluetooth => LayoutDialogBluetooth
  }

  /**
   * What the system services answer while the activity can be reached:
   * the airplane-mode setting, `activeNetworkInfo.isConnected`, whether
   * location is enabled, whether the Bluetooth adapter is enabled, and
   * whether the fine-location permission is granted.
   */
  datatype DeviceState = DeviceState(
    airplaneMode: bool,
    networkConnected: bool,
    locationEnabled: bool,
    bluetoothEnabled: bool,
    permissionGranted: bool)

  /**
   * The getters `isAirplane`, `isNetworkConnected`, `isLocationEnabled`,
   * `isBluetoothEnabled` and `isLocationPermissionGranted` together: each is
   * `… == true` over a chain that starts at the weakly held activity, so
   * every one of them is false once the activity is gone.
   */
  function Query(activity: Option<ActivityId>, d: DeviceState): (r: DeviceState)
    ensures activity.Some? ==> r == d
    ensures activity.None? ==>
              !r.airplaneMode && !r.networkConnected && !r.locationEnabled && !r.bluetoothEnabled && !r.permissionGranted
  {
    if activity.Some? then d else DeviceState(false, false, false, false, false)
  }
}
