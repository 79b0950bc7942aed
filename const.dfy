/** The constant tables of the integration: scan-interval bounds, the name prefix of
    the Bluetooth modules, the device-type enumeration and the encodings of the DC-DC
    charger's battery type and maximum charging current. */
module Const {

  /** Scan interval bounds, in seconds. */
  const DefaultScanInterval: nat := 60
  const MinScanInterval: nat := 10
  const MaxScanInterval: nat := 600

  /** The name prefix that BT-1 and BT-2 modules advertise with. */
  const RenogyBtPrefix: string := "BT-TH-"

  /** The prefixes of every Renogy device family (controllers, batteries, ...). */
  const RenogyDevicePrefixes: seq<string> := ["BT-TH-", "RNGRBP", "BTRIC", "RBT"]

  /** The configuration key that holds the device type. */
  const ConfDeviceType: string := "device_type"

  datatype DeviceType = Controller | Battery | Inverter | Dcc {
    /** The enumeration member's value. */
    function Value(): string {
      match this
      case Controller => "controller"
      case Battery => "battery"
      case Inverter => "inverter"
      case Dcc => "dcc"
    }
  }

  /** The members of DeviceType in declaration order. */
  const DeviceTypeMembers: seq<DeviceType> := [Controller, Battery, Inverter, Dcc]

  /** `[e.value for e in DeviceType]` */
  const DeviceTypes: seq<string> :=
    seq(|DeviceTypeMembers|, i requires 0 <= i < |DeviceTypeMembers| => DeviceTypeMembers[i].Value())

  const DefaultDeviceType: string := Controller.Value()

  /** The device types that have their own sensor taxonomy. */
  const SupportedDeviceTypes: seq<string> := [Controller.Value(), Dcc.Value(), Battery.Value()]

  /** The DC-DC charger's battery-type codes, in the dictionary's insertion order. */
  const DccBatteryTypeItems: seq<(int, string)> :=
    [(0, "custom"), (1, "open"), (2, "sealed"), (3, "gel"), (4, "lithium")]

  /** A dictionary built from its items in order: a later item overrides an earlier one. */
  function ItemsToMap<K, V>(items: seq<(K, V)>): (m: map<K, V>)
    ensures m.Keys == set i | 0 <= i < |items| :: items[i].0
  {
    if items == [] then map[]
    else
      var init := items[..|items| - 1];
      var last := items[|items| - 1];
      assert forall i :: 0 <= i < |init| ==> init[i] == items[i];
      ItemsToMap(init)[last.0 := last.1]
  }

  /** `{v: k for k, v in items}`: later items override earlier ones, as in Python. */
  function InvertItems<K, V>(items: seq<(K, V)>): (m: map<V, K>)
    ensures m.Keys == set i | 0 <= i < |items| :: items[i].1
  {
    if items == [] then map[]
    else
      var init := items[..|items| - 1];
      var last := items[|items| - 1];
      assert forall i :: 0 <= i < |init| ==> init[i] == items[i];
      InvertItems(init)[last.1 := last.0]
  }

  /** No key occurs twice among the items. */
  predicate DistinctKeys<K(==), V>(items: seq<(K, V)>) {
    forall i, j :: 0 <= i < j < |items| ==> items[i].0 != items[j].0
  }

  /** No value occurs twice among the items. */
  predicate DistinctValues<K, V(==)>(items: seq<(K, V)>) {
    forall i, j :: 0 <= i < j < |items| ==> items[i].1 != items[j].1
  }

  /** With distinct keys, the dictionary maps each item's key to that item's value. */
  lemma {:induction false} ItemsToMapAt<K, V>(items: seq<(K, V)>, i: nat)
    requires DistinctKeys(items) && i < |items|
    ensures items[i].0 in ItemsToMap(items) && ItemsToMap(items)[items[i].0] == items[i].1
  {
    var init := items[..|items| - 1];
    if i < |items| - 1 {
      assert DistinctKeys(init) by {
        forall a, b | 0 <= a < b < |init| ensures init[a].0 != init[b].0 {
          assert init[a] == items[a] && init[b] == items[b];
        }
      }
      ItemsToMapAt(init, i);
      assert init[i] == items[i];
    }
  }

  /** With distinct values, the inverted dictionary maps each item's value to its key. */
  lemma {:induction false} InvertItemsAt<K, V>(items: seq<(K, V)>, i: nat)
    requires DistinctValues(items) && i < |items|
    ensures items[i].1 in InvertItems(items) && InvertItems(items)[items[i].1] == items[i].0
  {
    var init := items[..|items| - 1];
    if i < |items| - 1 {
      assert DistinctValues(init) by {
        forall a, b | 0 <= a < b < |init| ensures init[a].1 != init[b].1 {
          assert init[a] == items[a] && init[b] == items[b];
        }
      }
      InvertItemsAt(init, i);
      assert init[i] == items[i];
    }
  }

  /** `DCC_BATTERY_TYPES`: code to battery-type name. */
  const DccBatteryTypes: map<int, string> := ItemsToMap(DccBatteryTypeItems)

  /** `DCC_BATTERY_TYPE_VALUES`: battery-type name to code. */
  const DccBatteryTypeValues: map<string, int> := InvertItems(DccBatteryTypeItems)

  /** Maximum charging current options, in amps. */
  const DccMaxCurrentOptions: seq<int> := [10, 20, 30, 40, 50, 60]

  /** Amps to the centiamps the device stores. */
  const DccMaxCurrentToDevice: map<int, int> := map amp | amp in DccMaxCurrentOptions :: amp * 100

  /** The scan-interval default lies within its bounds. */
  lemma ScanIntervalBounds()
    ensures 0 < MinScanInterval <= DefaultScanInterval <= MaxScanInterval
  {
  }

  /** DEVICE_TYPES lists the four enumeration values in declaration order, each once,
      and every member of the enumeration is listed. */
  lemma DeviceTypesInDeclarationOrder()
    ensures DeviceTypes == ["controller", "battery", "inverter", "dcc"]
    ensures forall t: DeviceType :: t in DeviceTypeMembers
    ensures forall i, j :: 0 <= i < j < |DeviceTypes| ==> DeviceTypes[i] != DeviceTypes[j]
  {
    forall t: DeviceType ensures t in DeviceTypeMembers {
      match t
      case Controller => assert t == DeviceTypeMembers[0];
      case Battery => assert t == DeviceTypeMembers[1];
      case Inverter => assert t == DeviceTypeMembers[2];
      case Dcc => assert t == DeviceTypeMembers[3];
    }
  }

  /** The default device type is the controller and is one of DEVICE_TYPES. */
  lemma DefaultDeviceTypeIsListed()
    ensures DefaultDeviceType == "controller" && DefaultDeviceType in DeviceTypes
  {
    DeviceTypesInDeclarationOrder();
  }

  /** The supported device types are device types, and the inverter is not among them. */
  lemma SupportedDeviceTypesExcludeInverter()
    ensures forall t :: t in SupportedDeviceTypes ==> t in DeviceTypes
    ensures Inverter.Value() !in SupportedDeviceTypes
    ensures forall t :: t in DeviceTypes && t != Inverter.Value() ==> t in SupportedDeviceTypes
  {
    DeviceTypesInDeclarationOrder();
  }

  /** DCC_BATTERY_TYPES holds exactly the five codes of its definition. */
  lemma DccBatteryTypesTable()
    ensures DccBatteryTypes == map[0 := "custom", 1 := "open", 2 := "sealed", 3 := "gel", 4 := "lithium"]
  {
    var items := DccBatteryTypeItems;
    assert DistinctKeys(items);
    ItemsToMapAt(items, 0);
    ItemsToMapAt(items, 1);
    ItemsToMapAt(items, 2);
    ItemsToMapAt(items, 3);
    ItemsToMapAt(items, 4);
    assert DccBatteryTypes.Keys == {0, 1, 2, 3, 4};
  }

  /** DCC_BATTERY_TYPE_VALUES holds exactly the five names, each with its code. */
  lemma DccBatteryTypeValuesTable()
    ensures DccBatteryTypeValues == map["custom" := 0, "open" := 1, "sealed" := 2, "gel" := 3, "lithium" := 4]
  {
    var items := DccBatteryTypeItems;
    assert DistinctValues(items);
    InvertItemsAt(items, 0);
    InvertItemsAt(items, 1);
    InvertItemsAt(items, 2);
    InvertItemsAt(items, 3);
    InvertItemsAt(items, 4);
    assert DccBatteryTypeValues.Keys == {"custom", "open", "sealed", "gel", "lithium"};
  }

  /** The battery-type name map is keyed by exactly the names the code map yields. */
  lemma DccBatteryTypeNames()
    ensures DccBatteryTypes.Keys == {0, 1, 2, 3, 4}
    ensures DccBatteryTypeValues.Keys == DccBatteryTypes.Values
  {
    DccBatteryTypesTable();
    DccBatteryTypeValuesTable();
    var m := map[0 := "custom", 1 := "open", 2 := "sealed", 3 := "gel", 4 := "lithium"];
    assert m.Values == {"custom", "open", "sealed", "gel", "lithium"} by {
      assert m[0] == "custom" && m[1] == "open" && m[2] == "sealed" && m[3] == "gel" && m[4] == "lithium";
    }
  }

  /** Code to name and back returns the code. */
  lemma DccBatteryTypeRoundTrip(c: int)
    requires c in DccBatteryTypes
    ensures DccBatteryTypes[c] in DccBatteryTypeValues && DccBatteryTypeValues[DccBatteryTypes[c]] == c
  {
    DccBatteryTypesTable();
    DccBatteryTypeValuesTable();
  }

  /** Name to code and back returns the name. */
  lemma DccBatteryTypeValueRoundTrip(n: string)
    requires n in DccBatteryTypeValues
    ensures DccBatteryTypeValues[n] in DccBatteryTypes && DccBatteryTypes[DccBatteryTypeValues[n]] == n
  {
    DccBatteryTypesTable();
    DccBatteryTypeValuesTable();
  }

  /** Each maximum-current option, and nothing else, maps to its value in centiamps. */
  lemma DccMaxCurrentInCentiamps()
    ensures DccMaxCurrentToDevice.Keys == {10, 20, 30, 40, 50, 60}
    ensures forall amp :: amp in DccMaxCurrentToDevice ==> DccMaxCurrentToDevice[amp] == amp * 100
    ensures DccMaxCurrentToDevice[40] == 4000
  {
  }
}
