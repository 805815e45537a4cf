/**
 * Per-manager dialog settings: the built-in control-id to action table,
 * the caller's overrides merged over it, the message and label bindings,
 * and the effective layout.
 */
module Settings {
  import opened Wrappers
  import opened Device

  /**
   * Remediation actions bound to dialog controls. The built-in ones stand
   * for the library's own functions; `Custom(n)` is a caller-supplied one.
   * None of them is ever executed by the model.
   */
  datatype Action =
    | OpenAirplaneSettings
    | OpenNetworkSettings
    | OpenLocationSettings
    | RequestLocationPermissions
    | RequestBluetooth
    | Custom(n: int)

  /**
   * `DialogSettings`: `givenLayout` is the constructor's `_layout`, the
   * message is bound to one text control, the labels to controls by id,
   * the actions to clickable controls by id, and `onShow` names the
   * caller's post-show hook.
   */
  datatype DialogSettings = DialogSettings(
    manager: Manager,
    givenLayout: Option<int>,
    message: Option<(int, string)>,
    labels: Option<map<int, string>>,
    actions: map<int, Action>,
    onShow: Option<int>)
  {
    /** `DialogSettings.layout`: the given layout, else the manager's own. */
    function Layout(): (r: int)
      ensures givenLayout.Some? ==> r == givenLayout.value
      ensures givenLayout.None? ==> r == DialogLayout(manager)
    {
      givenLayout.GetOr(DialogLayout(manager))
    }
  }

  /** The text control the message is bound to in each manager's layout. */
  function TextId(m: Manager): int {
    match m
    case Airplane => IdDialogAirplaneText
    case Network => IdDialogNetworkText
    case Location => IdDialogLocationText
    case Bluetooth => IdDialogBluetoothText
  }

  /** The button whose label the `button` text replaces in each manager's layout. */
  function ButtonId(m: Manager): int {
    match m
    case Airplane => IdDialogAirplaneButton
    case Network => IdDialogNetworkButton
    case Location => IdDialogLocationButton
    case Bluetooth => IdDialogBluetoothButton
  }

  /**
   * The layout `createDialogSettings` picks for each manager. The library
   * spells this table out a second time beside `Manager.dialogLayout`
   * (`DialogLayout`); it is kept separate here in the same way.
   */
  function DefaultLayout(m: Manager): int {
    match m
    case Airplane => LayoutDialogAirplane
    case Network => LayoutDialogNetwork
    case Location => LayoutDialogLocation
    case Bluetooth => LayoutDialogBluetooth
  }

  /** The built-in control-id to action table of each manager. */
  function DefaultActions(m: Manager): (r: map<int, Action>)
    ensures ButtonId(m) in r
    ensures forall id :: id in r ==> !r[id].Custom?
    ensures m != Location ==> r.Keys == {ButtonId(m)}
    ensures m == Location ==> r.Keys == {ButtonId(m), IdDialogLocationPermissions}
    ensures m == Airplane ==> r[ButtonId(m)] == OpenAirplaneSettings
    ensures m == Network ==> r[ButtonId(m)] == OpenNetworkSettings
    ensures m == Location ==> r[ButtonId(m)] == OpenLocationSettings && r[IdDialogLocationPermissions] == RequestLocationPermissions
    ensures m == Bluetooth ==> r[ButtonId(m)] == RequestBluetooth
  {
    match m
    case Airplane => map[ButtonId(m) := OpenAirplaneSettings]
    case Network => map[ButtonId(m) := OpenNetworkSettings]
    case Location => map[ButtonId(m) := OpenLocationSettings, IdDialogLocationPermissions := RequestLocationPermissions]
    case Bluetooth => map[ButtonId(m) := RequestBluetooth]
  }

  /**
   * `actions.toMap()` over the caller's vararg pairs: every id that occurs
   * is a key (its value is the action of the last occurrence, see
   * `ToMapLastWins`).
   */
  function ToMap(pairs: seq<(int, Action)>): (r: map<int, Action>)
    ensures forall id :: id in r <==> exists k :: 0 <= k < |pairs| && pairs[k].0 == id
    decreases |pairs|
  {
    if pairs == [] then map[]
    else
      var r := map[pairs[0].0 := pairs[0].1] + ToMap(pairs[1..]);
      r
  }

  /** Under `toMap`, a later pair with the same id replaces an earlier one. */
  lemma {:induction false} ToMapLastWins(pairs: seq<(int, Action)>, k: nat)
    requires k < |pairs|
    requires forall j :: k < j < |pairs| ==> pairs[j].0 != pairs[k].0
    ensures pairs[k].0 in ToMap(pairs) && ToMap(pairs)[pairs[k].0] == pairs[k].1
    decreases k
  {
    var rest := pairs[1..];
    if k > 0 {
      forall j | k - 1 < j < |rest| ensures rest[j].0 != rest[k - 1].0 {
        assert rest[j] == pairs[j + 1];
      }
      ToMapLastWins(rest, k - 1);
    }
  }

  /**
   * `createDialogSettings`: caller actions are merged over the defaults
   * with `putAll`, the layout falls back to the manager's, and the message
   * and label are bound only when given.
   */
  function CreateDialogSettings(
    m: Manager,
    layout: Option<int>,
    message: Option<string>,
    button: Option<string>,
    actions: Option<map<int, Action>>,
    onShow: Option<int>): (r: DialogSettings)
    ensures r.manager == m && r.onShow == onShow
    ensures r.Layout() == (if layout.Some? then layout.value else DialogLayout(m))
    ensures r.message.Some? <==> message.Some?
    ensures message.Some? ==> r.message.value == (TextId(m), message.value)
    ensures r.labels.Some? <==> button.Some?
    ensures button.Some? ==> r.labels.value.Keys == {ButtonId(m)} && r.labels.value[ButtonId(m)] == button.value
    // the caller's entries win on a shared key
    ensures actions.Some? ==> forall id :: id in actions.value ==> id in r.actions && r.actions[id] == actions.value[id]
    // defaults the caller did not supply keep their built-in action
    ensures forall id :: id in DefaultActions(m) && !(actions.Some? && id in actions.value) ==>
              id in r.actions && r.actions[id] == DefaultActions(m)[id]
    // nothing else is bound
    ensures forall id :: id in r.actions ==> id in DefaultActions(m) || (actions.Some? && id in actions.value)
  {
    var merged := if actions.Some? then DefaultActions(m) + actions.value else DefaultActions(m);
    DialogSettings(
      m,
      Some(layout.GetOr(DefaultLayout(m))),
      if message.Some? then Some((TextId(m), message.value)) else None,
      if button.Some? then Some(map[ButtonId(m) := button.value]) else None,
      merged,
      onShow)
  }

  /** The settings `requireDialogSettings` creates on first use. */
  function DefaultSettings(m: Manager): (r: DialogSettings)
    ensures r.manager == m && r.Layout() == DialogLayout(m)
    ensures r.actions == DefaultActions(m)
    ensures r.message.None? && r.labels.None? && r.onShow.None?
  {
    CreateDialogSettings(m, None, None, None, None, None)
  }

  /**
   * Replacing the network button's action and adding an action on another
   * id: the caller's action wins on the default id and both are bound.
   */
  lemma CustomNetworkActions(custom: int, extraId: int, extra: int)
    requires extraId != IdDialogNetworkButton
    ensures var s := CreateDialogSettings(Network, None, None, None,
                       Some(ToMap([(IdDialogNetworkButton, Custom(custom)), (extraId, Custom(extra))])), None);
            s.actions == map[IdDialogNetworkButton := Custom(custom), extraId := Custom(extra)]
  {
    var pairs := [(IdDialogNetworkButton, Custom(custom)), (extraId, Custom(extra))];
    var given := ToMap(pairs);
    assert given == map[IdDialogNetworkButton := Custom(custom), extraId := Custom(extra)] by {
      assert pairs[1..][1..] == [];
      assert ToMap(pairs[1..]) == map[extraId := Custom(extra)];
      assert given == map[IdDialogNetworkButton := Custom(custom)] + map[extraId := Custom(extra)];
    }
  }

  /** The location dialog binds two distinct controls to two distinct built-in actions. */
  lemma LocationHasTwoButtons()
    ensures DefaultActions(Location).Keys == {IdDialogLocationButton, IdDialogLocationPermissions}
    ensures DefaultActions(Location)[IdDialogLocationButton] == OpenLocationSettings
    ensures DefaultActions(Location)[IdDialogLocationPermissions] == RequestLocationPermissions
  {
  }
}
