# Renogy BLE sensor mapping, modelled in Dafny

This project models the sensor layer of the Renogy Bluetooth integration for Home Assistant. That layer sits between a decoded telemetry dictionary and the value each sensor entity publishes. It covers:

- the **descriptor catalog**: the static sensor tables of the charge controller, the DC-DC charger (DCC) and the LFP battery, plus the two generated groups of 16 indexed sensors (cell voltages and temperatures);
- the **device-type taxonomy** `SENSORS_BY_DEVICE_TYPE`. Each device type maps to an ordered list of named categories, and any unknown type falls back to the controller's list;
- the **entity factory**. It builds one entity per descriptor, category by category. Each entity is bound to a device when one is given, otherwise to the coordinator's address;
- the **setup rule**. Setup waits for at most ten checks, stopping at the first name with the `BT-TH-` prefix. A final test then decides between device-bound and coordinator-only entities;
- the **entity state machine** `RenogyBLESensor`:
  - the cached value;
  - the one-way rebinding from "no device" to "device", which recomputes the unique id and the label;
  - the availability test;
  - the coordinator-update handler;
- the **value pipeline**. It picks the snapshot (the device's parsed data if non-empty, else the coordinator's), runs the descriptor's extractor, and coerces values of the voltage, current, temperature and power classes to a number. A number is accepted within [-1000, 10000], bounds included, and the accepted value is cached;
- the constant tables of `const.py`:
  - the device-type enumeration and its default;
  - the supported device types;
  - the battery-type code map and its inverse;
  - the amps-to-centiamps map;
  - the scan-interval bounds.

## Files and modules

| file | module | contents |
|---|---|---|
| strings.dfy | Strings | `startswith`, the decimal rendering of integers, distinctness and disjointness of key lists |
| values.dfy | Values | `Option`, the scalar `Value` (number or text), `float()` coercion on decimal text |
| const.dfy | Const | the constants and dictionaries of `const.py` |
| descriptors.dfy | Descriptors | the descriptor record and its three extractor strategies |
| catalog.dfy | Catalog | the sensor tables, the two generators, the taxonomy and its proved shape |
| pipeline.dfy | Pipeline | snapshot choice, extraction, validation |
| sensor.dfy | Sensor | the `Device`, `Coordinator` and `RenogyBLESensor` classes |
| setup.dfy | Setup | device-type lookup, the wait loop, the binding decision, the factory loops |

Modelling choices:

- **Extractors.** A descriptor's `value_fn` closure is one of three strategies:
  - `Direct(k)` is `data.get(k)`;
  - `Indexed(p, i)` is `data.get(p + str(i))`, with `i` bound when the descriptor is generated;
  - `KiloScaled(k)` is the `/1000` of "Power Generation Total".
- **Snapshots.** A snapshot is a `map<string, Value>`. A key mapped to `None` is modelled as an absent key. A missing snapshot is modelled as an empty one, which the source treats the same way.
- **Classes.** The entity, the device and the coordinator are classes, because the entity keeps a reference to a device whose fields change in place.
- **The wait loop.** It is a `while` loop over a poll oracle `poll(k)`: the device name the coordinator holds at check `k`.
- **Timestamps.** The update time is a parameter.

## Model

| member | source | states |
|---|---|---|
| Const.ScanIntervalBounds | custom_components/renogy/const.py:11-13 | 0 < MIN (10) <= DEFAULT (60) <= MAX (600) |
| Const.DeviceTypesInDeclarationOrder | custom_components/renogy/const.py:30-38 | DEVICE_TYPES is exactly ["controller", "battery", "inverter", "dcc"], every enum member is listed, no value occurs twice |
| Const.DefaultDeviceTypeIsListed | custom_components/renogy/const.py:38-39 | the default device type is "controller" and is one of DEVICE_TYPES |
| Const.SupportedDeviceTypesExcludeInverter | custom_components/renogy/const.py:42-46 | every supported type is a device type; "inverter" is the only device type not supported |
| Const.ItemsToMap | custom_components/renogy/const.py:75-81 | the dictionary's keys are exactly the item keys |
| Const.ItemsToMapAt | custom_components/renogy/const.py:75-81 | with distinct keys, each item's key maps to that item's value |
| Const.InvertItems | custom_components/renogy/const.py:84 | the inverted dictionary's keys are exactly the item values |
| Const.InvertItemsAt | custom_components/renogy/const.py:84 | with distinct values, each item's value maps back to its key |
| Const.DccBatteryTypesTable | custom_components/renogy/const.py:75-81 | DCC_BATTERY_TYPES is the five codes 0..4 with names custom, open, sealed, gel, lithium |
| Const.DccBatteryTypeValuesTable | custom_components/renogy/const.py:84 | DCC_BATTERY_TYPE_VALUES is the five names, each with its code |
| Const.DccBatteryTypeNames | custom_components/renogy/const.py:75-84 | the inverse map's keys are exactly the names the code map yields |
| Const.DccBatteryTypeRoundTrip | custom_components/renogy/const.py:75-84 | for every code c, looking up the name of c and then the code of that name gives c |
| Const.DccBatteryTypeValueRoundTrip | custom_components/renogy/const.py:75-84 | for every name n, looking up the code of n and then the name of that code gives n |
| Const.DccMaxCurrentInCentiamps | custom_components/renogy/const.py:88-91 | the keys are exactly the six options and each maps to amp * 100 (40 to 4000) |
| Strings.NatToStringRoundTrip | custom_components/renogy/sensor.py:702 | `str(i)` is a non-empty digit string that reads back as i |
| Strings.NatToStringInjective | custom_components/renogy/sensor.py:702 | different indices render differently |
| Strings.PrefixesExclusive | custom_components/renogy/sensor.py:790-794 | a name cannot start with two prefixes whose first characters differ |
| Strings.DistinctConcat | custom_components/renogy/sensor.py:746 | concatenating two duplicate-free, mutually disjoint key lists gives a duplicate-free list |
| Values.IndexOfDot | custom_components/renogy/sensor.py:1032 | finds the first '.' of the text, or reports that it has none |
| Values.NonNumericTextRejected | custom_components/renogy/sensor.py:1031-1047 | the model's decimal coercion `ParseNumber` rejects text holding a character other than an ASCII digit, a sign or a point |
| Values.ParseIntToString | custom_components/renogy/sensor.py:1032 | the decimal text of an integer coerces back to that integer, as `float()` does |
| Descriptors.ExtractReadsOnlyItsKey | custom_components/renogy/sensor.py:710 | snapshots that agree on the extractor's key give the same result |
| Descriptors.IndexedReadsOwnIndex | custom_components/renogy/sensor.py:710 | an indexed extractor finds a value in a one-key snapshot exactly when that key is its own index's |
| Catalog.CreateCellVoltageSensors | custom_components/renogy/sensor.py:698-713 | the loop builds exactly BATTERY_LFP_CELL_VOLTAGE_SENSORS |
| Catalog.CreateTemperatureSensors | custom_components/renogy/sensor.py:716-731 | the loop builds exactly BATTERY_LFP_TEMPERATURE_SENSORS |
| Catalog.CellVoltageSensorsUpToAt | custom_components/renogy/sensor.py:701-712 | position i of a generated group is descriptor i |
| Catalog.IndexedSensorsReadOwnSlot | custom_components/renogy/sensor.py:698-731 | 16 slots; slot i has key prefix + str(i) and label "Cell {i+1} Voltage" / "Temperature {i+1}"; its extractor reads its own key and finds a value in a one-key snapshot exactly when that key is slot i's |
| Catalog.IndexedKeysDiffer | custom_components/renogy/sensor.py:698-731 | distinct slots get distinct keys |
| Catalog.CellVoltageSensorsKeysDistinct | custom_components/renogy/sensor.py:698-713 | no two cell-voltage descriptors share a key |
| Catalog.TemperatureSensorsKeysDistinct | custom_components/renogy/sensor.py:716-731 | no two temperature descriptors share a key |
| Catalog.CellVoltageSensorsKeysPrefixed | custom_components/renogy/sensor.py:702 | every cell-voltage key starts with "cell_voltage_" |
| Catalog.TemperatureSensorsKeysPrefixed | custom_components/renogy/sensor.py:720 | every temperature key starts with "temperature_" |
| Catalog.Keys | custom_components/renogy/sensor.py:142-743 | the key list has one entry per descriptor, in order |
| Catalog.KeysConcat | custom_components/renogy/sensor.py:601-608 | the keys of concatenated tables are the concatenated keys, and reading one's own key is preserved |
| Catalog.ControllerKeysDistinct | custom_components/renogy/sensor.py:142-332 | ALL_SENSORS holds no key twice and every extractor reads its own key |
| Catalog.DccKeysDistinct | custom_components/renogy/sensor.py:336-608 | DCC_ALL_SENSORS holds no key twice and every extractor reads its own key |
| Catalog.BatteryKeysDistinct | custom_components/renogy/sensor.py:615-743 | BATTERY_LFP_ALL_SENSORS holds no key twice and every extractor reads its own key |
| Catalog.BatteryLfpSensorsAvoidPrefixes | custom_components/renogy/sensor.py:615-695 | no static battery key starts with a generated group's prefix |
| Catalog.GroupsFlatten | custom_components/renogy/sensor.py:738-770 | walking each device type's categories in order visits exactly its combined table |
| Catalog.SensorGroupsCases | custom_components/renogy/sensor.py:847-850 | "dcc" gives the DCC groups, "battery" the battery groups, every other string the controller groups |
| Catalog.SensorGroupsFallback | custom_components/renogy/sensor.py:749-770 | the taxonomy has an entry for exactly the supported types; any other type gets the default type's groups |
| Catalog.TaxonomyShape | custom_components/renogy/sensor.py:749-770 | every device type gets a non-empty list of non-empty categories, none named twice |
| Catalog.CategoriesDistinct | custom_components/renogy/sensor.py:749-770 | no device type names a category twice |
| Catalog.GroupSizes | custom_components/renogy/sensor.py:749-770 | every category holds at least three descriptors |
| Catalog.TaxonomyKeysDistinct | custom_components/renogy/sensor.py:847-858 | whatever the device type, no key repeats across its categories and every extractor reads its own key |
| Catalog.TaxonomyCategories | custom_components/renogy/sensor.py:749-770 | the category names of each device type, in dictionary order |
| Catalog.TaxonomySizes | custom_components/renogy/sensor.py:601-746 | 23 controller descriptors, 32 DCC descriptors, 42 battery descriptors |
| Catalog.EntriesFlatten | custom_components/renogy/sensor.py:853-858 | the (category, descriptor) entries pair the flattened descriptors, one for one and in order, with a category name of the groups |
| Catalog.EntriesAt | custom_components/renogy/sensor.py:853-858 | descriptor k of category i is the entry right after all descriptors of the earlier categories, tagged with category i's name |
| Catalog.PowerGenerationTotalScaled | custom_components/renogy/sensor.py:246-256 | Power Generation Total is in kWh: the raw number / 1000, Absent when the key is missing, Failed on text |
| Pipeline.SelectData | custom_components/renogy/sensor.py:1008-1018 | the device's parsed data when non-empty, else the coordinator's; empty exactly when both are |
| Pipeline.Validate | custom_components/renogy/sensor.py:1024-1047 | a non-numeric class passes the value through; a numeric class gives a value iff the model's coercion `Coerce` yields a number and that number is within range; any result is admissible |
| Pipeline.Evaluate | custom_components/renogy/sensor.py:1017-1054 | no value for empty data, a missing key or a raising extractor; on non-empty data a present extracted value gives exactly what validation makes of it; any value is an extracted value that validation accepted, so it is admissible |
| Pipeline.EvaluateReadsOnlyItsKey | custom_components/renogy/sensor.py:1022 | on any two snapshots, empty ones included, a sensor's value depends only on the one key its extractor reads |
| Pipeline.RangeBoundaries | custom_components/renogy/sensor.py:1034 | numeric values are accepted exactly within [-1000, 10000]; both bounds pass, values just beyond fail |
| Pipeline.NonNumericTextRejected | custom_components/renogy/sensor.py:1031-1047 | on a numeric sensor, text that `Coerce` cannot read (a character other than an ASCII digit, a sign or a point) yields no value, not an error |
| Pipeline.NumericTextAccepted | custom_components/renogy/sensor.py:1031-1034 | an in-range integer sent as text is published as that number |
| Pipeline.NumericTextOutOfRange | custom_components/renogy/sensor.py:1031-1040 | an out-of-range integer sent as text yields no value |
| Pipeline.ValidateIdempotent | custom_components/renogy/sensor.py:1024-1050 | validating an accepted value again changes nothing |
| Pipeline.KiloScaledEvaluate | custom_components/renogy/sensor.py:252-256 | on any snapshot, a kilo-scaled sensor publishes number / 1000, nothing when the key is missing (so nothing on an empty snapshot), nothing on text |
| Sensor.UniqueIdInjective | custom_components/renogy/sensor.py:912-929 | at one address, different keys give different unique ids |
| Sensor.RenogyBLESensor.constructor | custom_components/renogy/sensor.py:890-942 | no cache and no update time; with a device, id `{device.address}_{key}` and label `{device.name} {name}`; without one, id `{coordinator.address}_{key}` and label `Renogy {name}` |
| Sensor.RenogyBLESensor.CurrentDevice | custom_components/renogy/sensor.py:944-978 | returns the bound device; an unbound sensor binds to the coordinator's device if there is one, taking its id and label; a bound sensor never changes |
| Sensor.RenogyBLESensor.Available | custom_components/renogy/sensor.py:980-999 | true iff the last update succeeded, a bound device reports itself available, and the device's or coordinator's data is non-empty |
| Sensor.RenogyBLESensor.NativeValue | custom_components/renogy/sensor.py:1001-1054 | a cached value is returned without touching any field; otherwise the sensor may bind, the value is the pipeline's result on the current snapshot and is cached; a rejected value is never stored |
| Sensor.RenogyBLESensor.HandleCoordinatorUpdate | custom_components/renogy/sensor.py:1056-1083 | the cache is recomputed from the current snapshot, the sensor binds if still unbound, the update time is stamped, the entity invariant holds |
| Setup.ConfiguredTaxonomy | custom_components/renogy/sensor.py:785-850 | an unconfigured or unsupported type gets the controller's groups; the taxonomy is never empty |
| Setup.NeedsWaitIffUnconfirmed | custom_components/renogy/sensor.py:790-794 | the wait starts exactly when there is no device whose name has the BT prefix |
| Setup.BindsDeviceIffNamed | custom_components/renogy/sensor.py:818-821 | entities are bound exactly when a device exists whose name does not start with "Unknown"; a confirmed name always binds |
| Setup.AwaitRealName | custom_components/renogy/sensor.py:790-815 | waits only for an unconfirmed name, makes at most ten checks, stops at the first confirmed one, and reports the name the last check saw |
| Setup.CreateGroupEntities | custom_components/renogy/sensor.py:853-858 | one new entity per (category, descriptor) entry, in category-then-descriptor order, each tagged with its category, with no cache; bound to a device, each carries the label `{device.name} {name}` |
| Setup.UniqueIdsDistinct | custom_components/renogy/sensor.py:853-858 | entities built for a taxonomy without repeated keys have pairwise distinct unique ids |
| Setup.CreateEntitiesHelper | custom_components/renogy/sensor.py:838-860 | one new entity per descriptor of the resolved taxonomy, in order, tagged with its category; bound entities carry the device's label; unique ids pairwise distinct |
| Setup.CreateCoordinatorEntities | custom_components/renogy/sensor.py:863-870 | unbound entities with ids from the coordinator's address and generic labels |
| Setup.CreateDeviceEntities | custom_components/renogy/sensor.py:873-881 | entities bound to the device, with ids `{device.address}_{key}` and labels `{device.name} {name}` |
| Setup.CreateSetupEntities | custom_components/renogy/sensor.py:817-828 | device-bound entities (with the device's ids and labels) exactly when the binding test passes, else coordinator-only ones; never an empty list |
| Setup.TaxonomyNonEmpty | custom_components/renogy/sensor.py:847-858 | every device type yields at least one descriptor |

## Left out

- **Home Assistant plumbing.** `PassiveBluetoothCoordinatorEntity`, `async_add_entities`, `async_write_ha_state` and the `DeviceInfo` registry records, including `device_model` and `capitalize()`, are not modelled (sensor.py:906-940, 954-975). Only the unique-id and label strings are kept.
- **The refresh and the sleeps of the wait.** `async_request_refresh` and `asyncio.sleep` are asynchronous I/O, so `AwaitRealName` reads the device name from a poll oracle. How the coordinator's state comes to hold the polled name is not modelled, and `CreateSetupEntities` takes that state as given.
- **The empty-list check before `async_add_entities`** (sensor.py:831-835) is not modelled. `CreateSetupEntities` proves the list is never empty, so that branch is dead.
- **The timestamp.** `datetime.now()` is a parameter of `HandleCoordinatorUpdate`.
- **`extra_state_attributes`** (sensor.py:1085-1103) is display metadata and is not modelled.
- **Logging.** It is a side effect only.
- **BLE discovery and decoding.** The `ble` module is not part of this model; snapshots are given.
- **`DCCRegister`** (const.py:50-71) holds Modbus write addresses with no behaviour here.
- **`RENOGY_DEVICE_PREFIXES` and `CONF_DEVICE_TYPE`** are declared as constants. No property is stated about them beyond their values.
- **`Values.ParseNumber`** models `float()` only for an optional sign, ASCII digits and at most one point. Python's `float()` also accepts surrounding whitespace, exponents (`"1e3"`), underscores (`"1_000"`), non-ASCII decimal digits (`"١٢"`), `inf` and `nan`. The model rejects all of these, so a numeric sensor publishes nothing where the source may publish a number.
- **`Pipeline.Validate`** does not model NaN. `float("nan")` passes the range test in the source, because comparisons with NaN are false, so the source caches and publishes NaN; the model publishes nothing.
- **Float rounding.** Numbers are exact reals, so float rounding is not modelled.
- **`Descriptors.Extract`** divides by 1000 exactly on reals.
- **Dictionary values that are `None`** are identified with absent keys. The source can in principle hold a key mapped to `None`.
- **Truthiness.** A device object is assumed to be truthy, as it is when it defines no `__bool__` or `__len__`.
- **`value_fn` is always present.** Every descriptor in the catalog defines one, so a descriptor without one is not modelled (sensor.py:1021).
- **`Pipeline.Evaluate`** maps an extractor that finds `None` to "no value". When that happens, the source caches `None`, which leaves the state exactly as if no value were cached.

## Notes

Each of the two setup tests holds a clause that never decides it:

- In the test that starts the wait (sensor.py:790-794), the `startswith("Unknown")` clause is redundant. A name with the BT prefix cannot start with "Unknown", so the test reduces to "no device, or a name without the prefix".
- In the binding test (sensor.py:818-821), the prefix clause is redundant. The test reduces to "a device whose name does not start with Unknown".

`Setup.NeedsWaitIffUnconfirmed` and `Setup.BindsDeviceIffNamed` state these reductions. Both clauses are redundant code, not defects, so they are not listed as findings.
