/**
 * Broadcast intents and how each handler decodes a new flag value from one.
 */
module Broadcasts {
  import opened Wrappers
  import opened Device

  /** An intent extra, by the type it was stored with. */
  datatype Extra =
    | BooleanExtra(b: bool)
    | IntExtra(i: int)
      /** The network info of a connectivity broadcast, reduced to its `isConnected`. */
    | NetworkInfoExtra(isConnected: bool)

  datatype Intent = Intent(action: Option<string>, extras: map<string, Extra>)

  /** The extra key of the airplane-mode broadcast. */
  const ExtraAirplaneState: string := "state"
  /** `BluetoothAdapter.EXTRA_STATE`. */
  const ExtraBluetoothState: string := "android.bluetooth.adapter.extra.STATE"
  /** `ConnectivityManager.EXTRA_NETWORK_INFO`. */
  const ExtraNetworkInfo: string := "networkInfo"
  /** `BluetoothAdapter.STATE_ON`. */
  const BluetoothStateOn: int := 12
  /** `BluetoothAdapter.ERROR`, which is `Integer.MIN_VALUE`. */
  const BluetoothError: int := -0x8000_0000

  /** `Intent.getBooleanExtra`: the stored boolean, else `default` (absent or of another type). */
  function GetBooleanExtra(intent: Intent, key: string, default: bool): bool {
    if key in intent.extras && intent.extras[key].BooleanExtra? then intent.extras[key].b else default
  }

  /** `Intent.getIntExtra`: the stored integer, else `default` (absent or of another type). */
  function GetIntExtra(intent: Intent, key: string, default: int): int {
    if key in intent.extras && intent.extras[key].IntExtra? then intent.extras[key].i else default
  }

  /** `onAirplaneBroadcast`'s decoding: the "state" extra, defaulting to false. */
  function DecodeAirplane(intent: Intent): (on: bool)
    ensures on <==> ExtraAirplaneState in intent.extras && intent.extras[ExtraAirplaneState] == BooleanExtra(true)
  {
    GetBooleanExtra(intent, ExtraAirplaneState, false)
  }

  /** `onBluetoothBroadcast`'s decoding: on iff the state extra is `STATE_ON`. */
  function DecodeBluetooth(intent: Intent): (on: bool)
    ensures on <==> ExtraBluetoothState in intent.extras && intent.extras[ExtraBluetoothState] == IntExtra(BluetoothStateOn)
  {
    GetIntExtra(intent, ExtraBluetoothState, BluetoothError) == BluetoothStateOn
  }

  /** `ConnectivityManagerCompat.getNetworkInfoFromBroadcast`, reduced to the connected flag it yields. */
  function NetworkInfoFromBroadcast(intent: Intent): Option<bool> {
    if ExtraNetworkInfo in intent.extras && intent.extras[ExtraNetworkInfo].NetworkInfoExtra?
    then Some(intent.extras[ExtraNetworkInfo].isConnected)
    else None
  }

  /**
   * `onNetworkBroadcast`'s decoding: the payload's network info when the
   * connectivity service is reachable and the payload has one, otherwise a
   * fresh `isNetworkConnected` query.
   */
  function DecodeNetwork(activity: Option<ActivityId>, intent: Intent, d: DeviceState): (connected: bool)
    ensures activity.None? ==> !connected
    ensures activity.Some? && NetworkInfoFromBroadcast(intent).Some? ==> connected == NetworkInfoFromBroadcast(intent).value
    ensures activity.Some? && NetworkInfoFromBroadcast(intent).None? ==> connected == d.networkConnected
  {
    var info := if activity.Some? then NetworkInfoFromBroadcast(intent) else None;
    info.GetOr(Query(activity, d).networkConnected)
  }

  /** `onLocationBroadcast`'s decoding ignores the intent and queries the location service. */
  function DecodeLocation(activity: Option<ActivityId>, d: DeviceState): (enabled: bool)
    ensures enabled <==> activity.Some? && d.locationEnabled
  {
    Query(activity, d).locationEnabled
  }

  /** The manager a possibly null intent is dispatched to (`intent?.action`). */
  function Dispatch(intent: Option<Intent>): (r: Option<Manager>)
    ensures r.Some? ==> intent.Some? && intent.value.action == Some(IntentFilterAction(r.value))
    ensures intent.Some? && intent.value.action.Some? && r.None? ==>
              forall m :: intent.value.action.value != IntentFilterAction(m)
  {
    if intent.Some? && intent.value.action.Some? then ManagerForAction(intent.value.action.value) else None
  }
}
