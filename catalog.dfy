/** The sensor descriptor catalog and the device-type taxonomy: the static
    descriptor tables, the two generated groups of 16 indexed sensors, the
    category grouping per device type with its controller fallback. */
module Catalog {
  import opened Values
  import opened Strings
  import opened Descriptors
  import Const

  // Snapshot keys
  const KeyBatteryVoltage: string := "battery_voltage"
  const KeyBatteryCurrent: string := "battery_current"
  const KeyBatteryPercentage: string := "battery_percentage"
  const KeyBatteryTemperature: string := "battery_temperature"
  const KeyBatteryType: string := "battery_type"
  const KeyChargingAmpHoursToday: string := "charging_amp_hours_today"
  const KeyDischargingAmpHoursToday: string := "discharging_amp_hours_today"
  const KeyChargingStatus: string := "charging_status"
  const KeyPvVoltage: string := "pv_voltage"
  const KeyPvCurrent: string := "pv_current"
  const KeyPvPower: string := "pv_power"
  const KeyMaxChargingPowerToday: string := "max_charging_power_today"
  const KeyPowerGenerationToday: string := "power_generation_today"
  const KeyPowerGenerationTotal: string := "power_generation_total"
  const KeyLoadVoltage: string := "load_voltage"
  const KeyLoadCurrent: string := "load_current"
  const KeyLoadPower: string := "load_power"
  const KeyLoadStatus: string := "load_status"
  const KeyPowerConsumptionToday: string := "power_consumption_today"
  const KeyControllerTemperature: string := "controller_temperature"
  const KeyDeviceId: string := "device_id"
  const KeyModel: string := "model"
  const KeyMaxDischargingPowerToday: string := "max_discharging_power_today"
  const KeyBatterySoc: string := "battery_soc"
  const KeyTotalChargingCurrent: string := "total_charging_current"
  const KeyAlternatorVoltage: string := "alternator_voltage"
  const KeyAlternatorCurrent: string := "alternator_current"
  const KeyAlternatorPower: string := "alternator_power"
  const KeySolarVoltage: string := "solar_voltage"
  const KeySolarCurrent: string := "solar_current"
  const KeySolarPower: string := "solar_power"
  const KeyDailyMinBatteryVoltage: string := "daily_min_battery_voltage"
  const KeyDailyMaxBatteryVoltage: string := "daily_max_battery_voltage"
  const KeyDailyMaxChargingCurrent: string := "daily_max_charging_current"
  const KeyDailyMaxChargingPower: string := "daily_max_charging_power"
  const KeyDailyChargingAh: string := "daily_charging_ah"
  const KeyDailyPowerGeneration: string := "daily_power_generation"
  const KeyTotalOperatingDays: string := "total_operating_days"
  const KeyTotalOverdischargeCount: string := "total_overdischarge_count"
  const KeyTotalFullChargeCount: string := "total_full_charge_count"
  const KeyTotalChargingAh: string := "total_charging_ah"
  const KeyTotalPowerGeneration: string := "total_power_generation"
  const KeyDccChargingStatus: string := "charging_status"
  const KeyChargingMode: string := "charging_mode"
  const KeyOutputPower: string := "output_power"
  const KeyIgnitionStatus: string := "ignition_status"
  const KeyFaultHigh: string := "fault_high"
  const KeyFaultLow: string := "fault_low"
  const KeySystemVoltage: string := "system_voltage"
  const KeyOvervoltageThreshold: string := "overvoltage_threshold"
  const KeyChargingLimitVoltage: string := "charging_limit_voltage"
  const KeyEqualizationVoltage: string := "equalization_voltage"
  const KeyBoostVoltage: string := "boost_voltage"
  const KeyFloatVoltage: string := "float_voltage"
  const KeyBoostReturnVoltage: string := "boost_return_voltage"
  const KeyOverdischargeReturnVoltage: string := "overdischarge_return_voltage"
  const KeyUndervoltageWarning: string := "undervoltage_warning"
  const KeyOverdischargeVoltage: string := "overdischarge_voltage"
  const KeyDischargeLimitVoltage: string := "discharge_limit_voltage"
  const KeyOverdischargeDelay: string := "overdischarge_delay"
  const KeyEqualizationTime: string := "equalization_time"
  const KeyBoostTime: string := "boost_time"
  const KeyEqualizationInterval: string := "equalization_interval"
  const KeyTemperatureCompensation: string := "temperature_compensation"
  const KeyReverseChargingVoltage: string := "reverse_charging_voltage"
  const KeySolarCutoffCurrent: string := "solar_cutoff_current"
  const KeyVoltage: string := "voltage"
  const KeyCurrent: string := "current"
  const KeySoc: string := "soc"
  const KeyPower: string := "power"
  const KeyCapacity: string := "capacity"
  const KeyRemainingCharge: string := "remaining_charge"
  const KeyCellCount: string := "cell_count"
  const KeySensorCount: string := "sensor_count"
  const KeyCellVoltagePrefix: string := "cell_voltage_"
  const KeyTemperaturePrefix: string := "temperature_"

  /** BATTERY_SENSORS */
  const BatterySensors: seq<Descriptor> := [
    Descriptor(key := KeyBatteryVoltage, name := "Battery Voltage", unit := Some(Volt), deviceClass := Some(Voltage), stateClass := Some(Measurement), extractor := Direct(KeyBatteryVoltage)),
    Descriptor(key := KeyBatteryCurrent, name := "Battery Current", unit := Some(Ampere), deviceClass := Some(Current), stateClass := Some(Measurement), extractor := Direct(KeyBatteryCurrent)),
    Descriptor(key := KeyBatteryPercentage, name := "Battery Percentage", unit := Some(Percent), deviceClass := Some(Battery), stateClass := Some(Measurement), extractor := Direct(KeyBatteryPercentage)),
    Descriptor(key := KeyBatteryTemperature, name := "Battery Temperature", unit := Some(Celsius), deviceClass := Some(Temperature), stateClass := Some(Measurement), extractor := Direct(KeyBatteryTemperature)),
    Descriptor(key := KeyBatteryType, name := "Battery Type", extractor := Direct(KeyBatteryType)),
    Descriptor(key := KeyChargingAmpHoursToday, name := "Charging Amp Hours Today", unit := Some(AmpHour), stateClass := Some(TotalIncreasing), extractor := Direct(KeyChargingAmpHoursToday)),
    Descriptor(key := KeyDischargingAmpHoursToday, name := "Discharging Amp Hours Today", unit := Some(AmpHour), stateClass := Some(TotalIncreasing), extractor := Direct(KeyDischargingAmpHoursToday)),
    Descriptor(key := KeyChargingStatus, name := "Charging Status", extractor := Direct(KeyChargingStatus))
  ]

  /** PV_SENSORS */
  const PvSensors: seq<Descriptor> := [
    Descriptor(key := KeyPvVoltage, name := "PV Voltage", unit := Some(Volt), deviceClass := Some(Voltage), stateClass := Some(Measurement), extractor := Direct(KeyPvVoltage)),
    Descriptor(key := KeyPvCurrent, name := "PV Current", unit := Some(Ampere), deviceClass := Some(Current), stateClass := Some(Measurement), extractor := Direct(KeyPvCurrent)),
    Descriptor(key := KeyPvPower, name := "PV Power", unit := Some(Watt), deviceClass := Some(Power), stateClass := Some(Measurement), extractor := Direct(KeyPvPower)),
    Descriptor(key := KeyMaxChargingPowerToday, name := "Max Charging Power Today", unit := Some(Watt), deviceClass := Some(Power), stateClass := Some(Measurement), extractor := Direct(KeyMaxChargingPowerToday)),
    Descriptor(key := KeyPowerGenerationToday, name := "Power Generation Today", unit := Some(WattHour), deviceClass := Some(Energy), stateClass := Some(TotalIncreasing), extractor := Direct(KeyPowerGenerationToday)),
    Descriptor(key := KeyPowerGenerationTotal, name := "Power Generation Total", unit := Some(KiloWattHour), deviceClass := Some(Energy), stateClass := Some(TotalIncreasing), extractor := KiloScaled(KeyPowerGenerationTotal))
  ]

  /** LOAD_SENSORS */
  const LoadSensors: seq<Descriptor> := [
    Descriptor(key := KeyLoadVoltage, name := "Load Voltage", unit := Some(Volt), deviceClass := Some(Voltage), stateClass := Some(Measurement), extractor := Direct(KeyLoadVoltage)),
    Descriptor(key := KeyLoadCurrent, name := "Load Current", unit := Some(Ampere), deviceClass := Some(Current), stateClass := Some(Measurement), extractor := Direct(KeyLoadCurrent)),
    Descriptor(key := KeyLoadPower, name := "Load Power", unit := Some(Watt), deviceClass := Some(Power), stateClass := Some(Measurement), extractor := Direct(KeyLoadPower)),
    Descriptor(key := KeyLoadStatus, name := "Load Status", extractor := Direct(KeyLoadStatus)),
    Descriptor(key := KeyPowerConsumptionToday, name := "Power Consumption Today", unit := Some(WattHour), deviceClass := Some(Energy), stateClass := Some(TotalIncreasing), extractor := Direct(KeyPowerConsumptionToday))
  ]

  /** CONTROLLER_SENSORS */
  const ControllerSensors: seq<Descriptor> := [
    Descriptor(key := KeyControllerTemperature, name := "Controller Temperature", unit := Some(Celsius), deviceClass := Some(Temperature), stateClass := Some(Measurement), extractor := Direct(KeyControllerTemperature)),
    Descriptor(key := KeyDeviceId, name := "Device ID", entityCategory := Some(Diagnostic), extractor := Direct(KeyDeviceId)),
    Descriptor(key := KeyModel, name := "Model", entityCategory := Some(Diagnostic), extractor := Direct(KeyModel)),
    Descriptor(key := KeyMaxDischargingPowerToday, name := "Max Discharging Power Today", unit := Some(Watt), deviceClass := Some(Power), stateClass := Some(Measurement), extractor := Direct(KeyMaxDischargingPowerToday))
  ]

  /** DCC_BATTERY_SENSORS */
  const DccBatterySensors: seq<Descriptor> := [
    Descriptor(key := KeyBatterySoc, name := "House Battery SOC", unit := Some(Percent), deviceClass := Some(Battery), stateClass := Some(Measurement), extractor := Direct(KeyBatterySoc)),
    Descriptor(key := KeyBatteryVoltage, name := "House Battery Voltage", unit := Some(Volt), deviceClass := Some(Voltage), stateClass := Some(Measurement), extractor := Direct(KeyBatteryVoltage)),
    Descriptor(key := KeyTotalChargingCurrent, name := "Total Charging Current", unit := Some(Ampere), deviceClass := Some(Current), stateClass := Some(Measurement), extractor := Direct(KeyTotalChargingCurrent)),
    Descriptor(key := KeyBatteryType, name := "Battery Type", extractor := Direct(KeyBatteryType)),
    Descriptor(key := KeyControllerTemperature, name := "Controller Temperature", unit := Some(Celsius), deviceClass := Some(Temperature), stateClass := Some(Measurement), extractor := Direct(KeyControllerTemperature)),
    Descriptor(key := KeyBatteryTemperature, name := "Battery Temperature", unit := Some(Celsius), deviceClass := Some(Temperature), stateClass := Some(Measurement), extractor := Direct(KeyBatteryTemperature))
  ]

  /** DCC_ALTERNATOR_SENSORS */
  const DccAlternatorSensors: seq<Descriptor> := [
    Descriptor(key := KeyAlternatorVoltage, name := "Alternator Voltage", unit := Some(Volt), deviceClass := Some(Voltage), stateClass := Some(Measurement), extractor := Direct(KeyAlternatorVoltage)),
    Descriptor(key := KeyAlternatorCurrent, name := "Alternator Current", unit := Some(Ampere), deviceClass := Some(Current), stateClass := Some(Measurement), extractor := Direct(KeyAlternatorCurrent)),
    Descriptor(key := KeyAlternatorPower, name := "Alternator Power", unit := Some(Watt), deviceClass := Some(Power), stateClass := Some(Measurement), extractor := Direct(KeyAlternatorPower))
  ]

  /** DCC_SOLAR_SENSORS */
  const DccSolarSensors: seq<Descriptor> := [
    Descriptor(key := KeySolarVoltage, name := "Solar Voltage", unit := Some(Volt), deviceClass := Some(Voltage), stateClass := Some(Measurement), extractor := Direct(KeySolarVoltage)),
    Descriptor(key := KeySolarCurrent, name := "Solar Current", unit := Some(Ampere), deviceClass := Some(Current), stateClass := Some(Measurement), extractor := Direct(KeySolarCurrent)),
    Descriptor(key := KeySolarPower, name := "Solar Power", unit := Some(Watt), deviceClass := Some(Power), stateClass := Some(Measurement), extractor := Direct(KeySolarPower))
  ]

  /** DCC_STATUS_SENSORS */
  const DccStatusSensors: seq<Descriptor> := [
    Descriptor(key := KeyDccChargingStatus, name := "Charging Status", extractor := Direct(KeyDccChargingStatus)),
    Descriptor(key := KeyChargingMode, name := "Charging Mode", extractor := Direct(KeyChargingMode)),
    Descriptor(key := KeyOutputPower, name := "Output Power", unit := Some(Watt), deviceClass := Some(Power), stateClass := Some(Measurement), extractor := Direct(KeyOutputPower)),
    Descriptor(key := KeyIgnitionStatus, name := "Ignition Status", extractor := Direct(KeyIgnitionStatus))
  ]

  /** DCC_STATISTICS_SENSORS */
  const DccStatisticsSensors: seq<Descriptor> := [
    Descriptor(key := KeyDailyMinBatteryVoltage, name := "Daily Min Battery Voltage", unit := Some(Volt), deviceClass := Some(Voltage), stateClass := Some(Measurement), extractor := Direct(KeyDailyMinBatteryVoltage)),
    Descriptor(key := KeyDailyMaxBatteryVoltage, name := "Daily Max Battery Voltage", unit := Some(Volt), deviceClass := Some(Voltage), stateClass := Some(Measurement), extractor := Direct(KeyDailyMaxBatteryVoltage)),
    Descriptor(key := KeyDailyMaxChargingCurrent, name := "Daily Max Charging Current", unit := Some(Ampere), deviceClass := Some(Current), stateClass := Some(Measurement), extractor := Direct(KeyDailyMaxChargingCurrent)),
    Descriptor(key := KeyDailyMaxChargingPower, name := "Daily Max Charging Power", unit := Some(Watt), deviceClass := Some(Power), stateClass := Some(Measurement), extractor := Direct(KeyDailyMaxChargingPower)),
    Descriptor(key := KeyDailyChargingAh, name := "Daily Charging Ah", unit := Some(AmpHour), stateClass := Some(TotalIncreasing), extractor := Direct(KeyDailyChargingAh)),
    Descriptor(key := KeyDailyPowerGeneration, name := "Daily Power Generation", unit := Some(KiloWattHour), deviceClass := Some(Energy), stateClass := Some(TotalIncreasing), extractor := Direct(KeyDailyPowerGeneration)),
    Descriptor(key := KeyTotalOperatingDays, name := "Total Operating Days", unit := Some(Days), stateClass := Some(TotalIncreasing), extractor := Direct(KeyTotalOperatingDays)),
    Descriptor(key := KeyTotalChargingAh, name := "Total Charging Ah", unit := Some(AmpHour), stateClass := Some(TotalIncreasing), extractor := Direct(KeyTotalChargingAh)),
    Descriptor(key := KeyTotalPowerGeneration, name := "Total Power Generation", unit := Some(KiloWattHour), deviceClass := Some(Energy), stateClass := Some(TotalIncreasing), extractor := Direct(KeyTotalPowerGeneration)),
    Descriptor(key := KeyTotalOverdischargeCount, name := "Total Overdischarge Count", stateClass := Some(TotalIncreasing), entityCategory := Some(Diagnostic), extractor := Direct(KeyTotalOverdischargeCount)),
    Descriptor(key := KeyTotalFullChargeCount, name := "Total Full Charge Count", stateClass := Some(TotalIncreasing), entityCategory := Some(Diagnostic), extractor := Direct(KeyTotalFullChargeCount))
  ]

  /** DCC_DIAGNOSTIC_SENSORS */
  const DccDiagnosticSensors: seq<Descriptor> := [
    Descriptor(key := KeyDeviceId, name := "Device ID", entityCategory := Some(Diagnostic), extractor := Direct(KeyDeviceId)),
    Descriptor(key := KeyModel, name := "Model", entityCategory := Some(Diagnostic), extractor := Direct(KeyModel)),
    Descriptor(key := KeySystemVoltage, name := "System Voltage", unit := Some(Volt), deviceClass := Some(Voltage), entityCategory := Some(Diagnostic), extractor := Direct(KeySystemVoltage)),
    Descriptor(key := KeyFaultHigh, name := "Fault Code High", entityCategory := Some(Diagnostic), extractor := Direct(KeyFaultHigh)),
    Descriptor(key := KeyFaultLow, name := "Fault Code Low", entityCategory := Some(Diagnostic), extractor := Direct(KeyFaultLow))
  ]

  /** BATTERY_LFP_MAIN_SENSORS */
  const BatteryLfpMainSensors: seq<Descriptor> := [
    Descriptor(key := KeyVoltage, name := "Battery Voltage", unit := Some(Volt), deviceClass := Some(Voltage), stateClass := Some(Measurement), extractor := Direct(KeyVoltage)),
    Descriptor(key := KeyCurrent, name := "Battery Current", unit := Some(Ampere), deviceClass := Some(Current), stateClass := Some(Measurement), extractor := Direct(KeyCurrent)),
    Descriptor(key := KeySoc, name := "State of Charge", unit := Some(Percent), deviceClass := Some(Battery), stateClass := Some(Measurement), extractor := Direct(KeySoc)),
    Descriptor(key := KeyPower, name := "Battery Power", unit := Some(Watt), deviceClass := Some(Power), stateClass := Some(Measurement), extractor := Direct(KeyPower)),
    Descriptor(key := KeyCapacity, name := "Battery Capacity", unit := Some(AmpHour), stateClass := Some(Measurement), extractor := Direct(KeyCapacity)),
    Descriptor(key := KeyRemainingCharge, name := "Remaining Charge", unit := Some(AmpHour), stateClass := Some(Measurement), extractor := Direct(KeyRemainingCharge))
  ]

  /** BATTERY_LFP_DIAGNOSTIC_SENSORS */
  const BatteryLfpDiagnosticSensors: seq<Descriptor> := [
    Descriptor(key := KeyDeviceId, name := "Device ID", entityCategory := Some(Diagnostic), extractor := Direct(KeyDeviceId)),
    Descriptor(key := KeyModel, name := "Model", entityCategory := Some(Diagnostic), extractor := Direct(KeyModel)),
    Descriptor(key := KeyCellCount, name := "Cell Count", entityCategory := Some(Diagnostic), extractor := Direct(KeyCellCount)),
    Descriptor(key := KeySensorCount, name := "Temperature Sensor Count", entityCategory := Some(Diagnostic), extractor := Direct(KeySensorCount))
  ]


  /** Number of slots the indexed generators produce, whatever the battery reports. */
  const IndexedSlots: nat := 16

  /** Descriptor i of the cell-voltage group. */
  function CellVoltageDescriptor(i: nat): Descriptor {
    Descriptor(key := KeyCellVoltagePrefix + NatToString(i), name := "Cell " + NatToString(i + 1) + " Voltage",
               unit := Some(Volt), deviceClass := Some(Voltage), stateClass := Some(Measurement),
               extractor := Indexed(KeyCellVoltagePrefix, i))
  }

  /** Descriptor i of the temperature group. */
  function TemperatureDescriptor(i: nat): Descriptor {
    Descriptor(key := KeyTemperaturePrefix + NatToString(i), name := "Temperature " + NatToString(i + 1),
               unit := Some(Celsius), deviceClass := Some(Temperature), stateClass := Some(Measurement),
               extractor := Indexed(KeyTemperaturePrefix, i))
  }

  /** `_create_cell_voltage_sensors()`: one descriptor per slot, slot i in position i. */
  method CreateCellVoltageSensors() returns (sensors: seq<Descriptor>)
    ensures sensors == BatteryLfpCellVoltageSensors
  {
    sensors := [];
    for i := 0 to IndexedSlots
      invariant sensors == CellVoltageSensorsUpTo(i)
    {
      var key := KeyCellVoltagePrefix + NatToString(i);
      sensors := sensors + [Descriptor(key := key, name := "Cell " + NatToString(i + 1) + " Voltage",
                                       unit := Some(Volt), deviceClass := Some(Voltage),
                                       stateClass := Some(Measurement),
                                       extractor := Indexed(KeyCellVoltagePrefix, i))];
    }
  }

  /** `_create_temperature_sensors()`: one descriptor per slot, slot i in position i. */
  method CreateTemperatureSensors() returns (sensors: seq<Descriptor>)
    ensures sensors == BatteryLfpTemperatureSensors
  {
    sensors := [];
    for i := 0 to IndexedSlots
      invariant sensors == TemperatureSensorsUpTo(i)
    {
      var key := KeyTemperaturePrefix + NatToString(i);
      sensors := sensors + [Descriptor(key := key, name := "Temperature " + NatToString(i + 1),
                                       unit := Some(Celsius), deviceClass := Some(Temperature),
                                       stateClass := Some(Measurement),
                                       extractor := Indexed(KeyTemperaturePrefix, i))];
    }
  }

  /** The cell-voltage descriptors of slots 0 .. n-1. */
  function CellVoltageSensorsUpTo(n: nat): (s: seq<Descriptor>)
    ensures |s| == n
  {
    if n == 0 then [] else CellVoltageSensorsUpTo(n - 1) + [CellVoltageDescriptor(n - 1)]
  }

  /** The temperature descriptors of slots 0 .. n-1. */
  function TemperatureSensorsUpTo(n: nat): (s: seq<Descriptor>)
    ensures |s| == n
  {
    if n == 0 then [] else TemperatureSensorsUpTo(n - 1) + [TemperatureDescriptor(n - 1)]
  }

  /** BATTERY_LFP_CELL_VOLTAGE_SENSORS */
  const BatteryLfpCellVoltageSensors: seq<Descriptor> := CellVoltageSensorsUpTo(IndexedSlots)

  /** BATTERY_LFP_TEMPERATURE_SENSORS */
  const BatteryLfpTemperatureSensors: seq<Descriptor> := TemperatureSensorsUpTo(IndexedSlots)

  /** ALL_SENSORS, the controller's descriptors */
  const AllSensors: seq<Descriptor> := BatterySensors + PvSensors + LoadSensors + ControllerSensors

  /** DCC_ALL_SENSORS */
  const DccAllSensors: seq<Descriptor> :=
    DccBatterySensors + DccAlternatorSensors + DccSolarSensors + DccStatusSensors
    + DccStatisticsSensors + DccDiagnosticSensors

  /** BATTERY_LFP_ALL_SENSORS */
  const BatteryLfpAllSensors: seq<Descriptor> :=
    BatteryLfpMainSensors + BatteryLfpCellVoltageSensors + BatteryLfpTemperatureSensors
    + BatteryLfpDiagnosticSensors

  /** A named category and its descriptors, in order. */
  datatype Group = Group(category: string, sensors: seq<Descriptor>)

  /** The controller's categories. */
  const ControllerGroups: seq<Group> := [
    Group("Battery", BatterySensors),
    Group("PV", PvSensors),
    Group("Load", LoadSensors),
    Group("Controller", ControllerSensors)]

  /** The DC-DC charger's categories. */
  const DccGroups: seq<Group> := [
    Group("Battery", DccBatterySensors),
    Group("Alternator", DccAlternatorSensors),
    Group("Solar", DccSolarSensors),
    Group("Status", DccStatusSensors),
    Group("Statistics", DccStatisticsSensors),
    Group("Diagnostic", DccDiagnosticSensors)]

  /** The battery's categories. */
  const BatteryGroups: seq<Group> := [
    Group("Main", BatteryLfpMainSensors),
    Group("Cell Voltages", BatteryLfpCellVoltageSensors),
    Group("Temperatures", BatteryLfpTemperatureSensors),
    Group("Diagnostic", BatteryLfpDiagnosticSensors)]

  /** SENSORS_BY_DEVICE_TYPE */
  const SensorsByDeviceType: map<string, seq<Group>> := map[
    Const.DeviceType.Controller.Value() := ControllerGroups,
    Const.DeviceType.Dcc.Value() := DccGroups,
    Const.DeviceType.Battery.Value() := BatteryGroups]

  /** The category groups for a device type, falling back to the controller's. */
  function SensorGroups(deviceType: string): seq<Group> {
    if deviceType in SensorsByDeviceType then SensorsByDeviceType[deviceType]
    else SensorsByDeviceType[Const.DeviceType.Controller.Value()]
  }

  /** The descriptors of the groups, category after category. */
  function Flatten(groups: seq<Group>): seq<Descriptor> {
    if groups == [] then [] else Flatten(groups[..|groups| - 1]) + groups[|groups| - 1].sensors
  }

  /** A group's descriptors, each tagged with the group's category name. */
  function Tagged(g: Group): seq<(string, Descriptor)> {
    seq(|g.sensors|, k requires 0 <= k < |g.sensors| => (g.category, g.sensors[k]))
  }

  /** The category names of the groups, in order. */
  function Categories(groups: seq<Group>): seq<string> {
    seq(|groups|, i requires 0 <= i < |groups| => groups[i].category)
  }

  /** The (category, descriptor) pairs of the groups, category after category. */
  function Entries(groups: seq<Group>): seq<(string, Descriptor)> {
    if groups == [] then [] else Entries(groups[..|groups| - 1]) + Tagged(groups[|groups| - 1])
  }

  /** The slot indices a generated group is built from, in order. */
  lemma {:induction false} CellVoltageSensorsUpToAt(n: nat, i: nat)
    requires i < n
    ensures CellVoltageSensorsUpTo(n)[i] == CellVoltageDescriptor(i)
  {
    if i < n - 1 {
      CellVoltageSensorsUpToAt(n - 1, i);
    }
  }

  lemma {:induction false} TemperatureSensorsUpToAt(n: nat, i: nat)
    requires i < n
    ensures TemperatureSensorsUpTo(n)[i] == TemperatureDescriptor(i)
  {
    if i < n - 1 {
      TemperatureSensorsUpToAt(n - 1, i);
    }
  }

  /** Slot i of each generated group has key prefix + str(i) and label "... {i + 1} ...";
      its extractor reads its own key, and on a snapshot holding only the key of slot j it
      finds a value exactly when j == i: no two slots share a key. */
  lemma IndexedSensorsReadOwnSlot(i: nat, j: nat, v: Value)
    requires i < IndexedSlots && j < IndexedSlots
    ensures |BatteryLfpCellVoltageSensors| == IndexedSlots
    ensures BatteryLfpCellVoltageSensors[i].key == KeyCellVoltagePrefix + NatToString(i)
    ensures BatteryLfpCellVoltageSensors[i].name == "Cell " + NatToString(i + 1) + " Voltage"
    ensures ReadKey(BatteryLfpCellVoltageSensors[i].extractor) == BatteryLfpCellVoltageSensors[i].key
    ensures Extract(BatteryLfpCellVoltageSensors[i].extractor, map[BatteryLfpCellVoltageSensors[j].key := v])
      == if i == j then Present(v) else Absent
    ensures |BatteryLfpTemperatureSensors| == IndexedSlots
    ensures BatteryLfpTemperatureSensors[i].key == KeyTemperaturePrefix + NatToString(i)
    ensures BatteryLfpTemperatureSensors[i].name == "Temperature " + NatToString(i + 1)
    ensures ReadKey(BatteryLfpTemperatureSensors[i].extractor) == BatteryLfpTemperatureSensors[i].key
    ensures Extract(BatteryLfpTemperatureSensors[i].extractor, map[BatteryLfpTemperatureSensors[j].key := v])
      == if i == j then Present(v) else Absent
  {
    CellVoltageSensorsUpToAt(IndexedSlots, i);
    CellVoltageSensorsUpToAt(IndexedSlots, j);
    TemperatureSensorsUpToAt(IndexedSlots, i);
    TemperatureSensorsUpToAt(IndexedSlots, j);
    IndexedReadsOwnIndex(KeyCellVoltagePrefix, i, j, v);
    IndexedReadsOwnIndex(KeyTemperaturePrefix, i, j, v);
  }

  /** The keys of the descriptors, in order. */
  function Keys(s: seq<Descriptor>): (r: seq<string>)
    ensures |r| == |s| && forall i :: 0 <= i < |s| ==> r[i] == s[i].key
  {
    if s == [] then [] else [s[0].key] + Keys(s[1..])
  }

  /** No two descriptors share a key. */
  predicate DistinctKeys(s: seq<Descriptor>) {
    Distinct(Keys(s))
  }

  /** Every descriptor's extractor reads the descriptor's own key. */
  predicate ReadsOwnKeys(s: seq<Descriptor>) {
    forall i :: 0 <= i < |s| ==> ReadKey(s[i].extractor) == s[i].key
  }

  lemma KeysConcat(a: seq<Descriptor>, b: seq<Descriptor>)
    ensures Keys(a + b) == Keys(a) + Keys(b)
    ensures ReadsOwnKeys(a) && ReadsOwnKeys(b) ==> ReadsOwnKeys(a + b)
  {
    assert forall i :: 0 <= i < |a| ==> (a + b)[i] == a[i];
    assert forall i :: |a| <= i < |a| + |b| ==> (a + b)[i] == b[i - |a|];
  }

  // The keys of each static table, and the facts about them that the taxonomy relies on.

  const BatterySensorKeys: seq<string> := ["battery_voltage", "battery_current", "battery_percentage", "battery_temperature", "battery_type", "charging_amp_hours_today", "discharging_amp_hours_today", "charging_status"]

  lemma BatterySensorsKeyList()
    ensures Keys(BatterySensors) == BatterySensorKeys
  {
  }

  lemma BatterySensorsKeysDistinct()
    ensures Distinct(BatterySensorKeys)
  {
  }

  lemma BatterySensorsReadOwnKeys()
    ensures ReadsOwnKeys(BatterySensors)
  {
  }

  const PvSensorKeys: seq<string> := ["pv_voltage", "pv_current", "pv_power", "max_charging_power_today", "power_generation_today", "power_generation_total"]

  lemma PvSensorsKeyList()
    ensures Keys(PvSensors) == PvSensorKeys
  {
  }

  lemma PvSensorsKeysDistinct()
    ensures Distinct(PvSensorKeys)
  {
  }

  lemma PvSensorsReadOwnKeys()
    ensures ReadsOwnKeys(PvSensors)
  {
  }

  const LoadSensorKeys: seq<string> := ["load_voltage", "load_current", "load_power", "load_status", "power_consumption_today"]

  lemma LoadSensorsKeyList()
    ensures Keys(LoadSensors) == LoadSensorKeys
  {
  }

  lemma LoadSensorsKeysDistinct()
    ensures Distinct(LoadSensorKeys)
  {
  }

  lemma LoadSensorsReadOwnKeys()
    ensures ReadsOwnKeys(LoadSensors)
  {
  }

  const ControllerSensorKeys: seq<string> := ["controller_temperature", "device_id", "model", "max_discharging_power_today"]

  lemma ControllerSensorsKeyList()
    ensures Keys(ControllerSensors) == ControllerSensorKeys
  {
  }

  lemma ControllerSensorsKeysDistinct()
    ensures Distinct(ControllerSensorKeys)
  {
  }

  lemma ControllerSensorsReadOwnKeys()
    ensures ReadsOwnKeys(ControllerSensors)
  {
  }

  const DccBatterySensorKeys: seq<string> := ["battery_soc", "battery_voltage", "total_charging_current", "battery_type", "controller_temperature", "battery_temperature"]

  lemma DccBatterySensorsKeyList()
    ensures Keys(DccBatterySensors) == DccBatterySensorKeys
  {
  }

  lemma DccBatterySensorsKeysDistinct()
    ensures Distinct(DccBatterySensorKeys)
  {
  }

  lemma DccBatterySensorsReadOwnKeys()
    ensures ReadsOwnKeys(DccBatterySensors)
  {
  }

  const DccAlternatorSensorKeys: seq<string> := ["alternator_voltage", "alternator_current", "alternator_power"]

  lemma DccAlternatorSensorsKeyList()
    ensures Keys(DccAlternatorSensors) == DccAlternatorSensorKeys
  {
  }

  lemma DccAlternatorSensorsKeysDistinct()
    ensures Distinct(DccAlternatorSensorKeys)
  {
  }

  lemma DccAlternatorSensorsReadOwnKeys()
    ensures ReadsOwnKeys(DccAlternatorSensors)
  {
  }

  const DccSolarSensorKeys: seq<string> := ["solar_voltage", "solar_current", "solar_power"]

  lemma DccSolarSensorsKeyList()
    ensures Keys(DccSolarSensors) == DccSolarSensorKeys
  {
  }

  lemma DccSolarSensorsKeysDistinct()
    ensures Distinct(DccSolarSensorKeys)
  {
  }

  lemma DccSolarSensorsReadOwnKeys()
    ensures ReadsOwnKeys(DccSolarSensors)
  {
  }

  const DccStatusSensorKeys: seq<string> := ["charging_status", "charging_mode", "output_power", "ignition_status"]

  lemma DccStatusSensorsKeyList()
    ensures Keys(DccStatusSensors) == DccStatusSensorKeys
  {
  }

  lemma DccStatusSensorsKeysDistinct()
    ensures Distinct(DccStatusSensorKeys)
  {
  }

  lemma DccStatusSensorsReadOwnKeys()
    ensures ReadsOwnKeys(DccStatusSensors)
  {
  }

  const DccStatisticsSensorKeys: seq<string> := ["daily_min_battery_voltage", "daily_max_battery_voltage", "daily_max_charging_current", "daily_max_charging_power", "daily_charging_ah", "daily_power_generation", "total_operating_days", "total_charging_ah", "total_power_generation", "total_overdischarge_count", "total_full_charge_count"]

  lemma DccStatisticsSensorsKeyList()
    ensures Keys(DccStatisticsSensors) == DccStatisticsSensorKeys
  {
  }

  lemma DccStatisticsSensorsKeysDistinct()
    ensures Distinct(DccStatisticsSensorKeys)
  {
  }

  lemma DccStatisticsSensorsReadOwnKeys()
    ensures ReadsOwnKeys(DccStatisticsSensors)
  {
  }

  const DccDiagnosticSensorKeys: seq<string> := ["device_id", "model", "system_voltage", "fault_high", "fault_low"]

  lemma DccDiagnosticSensorsKeyList()
    ensures Keys(DccDiagnosticSensors) == DccDiagnosticSensorKeys
  {
  }

  lemma DccDiagnosticSensorsKeysDistinct()
    ensures Distinct(DccDiagnosticSensorKeys)
  {
  }

  lemma DccDiagnosticSensorsReadOwnKeys()
    ensures ReadsOwnKeys(DccDiagnosticSensors)
  {
  }

  const BatteryLfpMainSensorKeys: seq<string> := ["voltage", "current", "soc", "power", "capacity", "remaining_charge"]

  lemma BatteryLfpMainSensorsKeyList()
    ensures Keys(BatteryLfpMainSensors) == BatteryLfpMainSensorKeys
  {
  }

  lemma BatteryLfpMainSensorsKeysDistinct()
    ensures Distinct(BatteryLfpMainSensorKeys)
  {
  }

  lemma BatteryLfpMainSensorsReadOwnKeys()
    ensures ReadsOwnKeys(BatteryLfpMainSensors)
  {
  }

  const BatteryLfpDiagnosticSensorKeys: seq<string> := ["device_id", "model", "cell_count", "sensor_count"]

  lemma BatteryLfpDiagnosticSensorsKeyList()
    ensures Keys(BatteryLfpDiagnosticSensors) == BatteryLfpDiagnosticSensorKeys
  {
  }

  lemma BatteryLfpDiagnosticSensorsKeysDistinct()
    ensures Distinct(BatteryLfpDiagnosticSensorKeys)
  {
  }

  lemma BatteryLfpDiagnosticSensorsReadOwnKeys()
    ensures ReadsOwnKeys(BatteryLfpDiagnosticSensors)
  {
  }

  lemma BatteryPvDisjoint()
    ensures Disjoint(BatterySensorKeys, PvSensorKeys)
  {
  }

  lemma BatteryLoadDisjoint()
    ensures Disjoint(BatterySensorKeys, LoadSensorKeys)
  {
  }

  lemma BatteryControllerDisjoint()
    ensures Disjoint(BatterySensorKeys, ControllerSensorKeys)
  {
  }

  lemma PvLoadDisjoint()
    ensures Disjoint(PvSensorKeys, LoadSensorKeys)
  {
  }

  lemma PvControllerDisjoint()
    ensures Disjoint(PvSensorKeys, ControllerSensorKeys)
  {
  }

  lemma LoadControllerDisjoint()
    ensures Disjoint(LoadSensorKeys, ControllerSensorKeys)
  {
  }

  lemma DccBatteryDccAlternatorDisjoint()
    ensures Disjoint(DccBatterySensorKeys, DccAlternatorSensorKeys)
  {
  }

  lemma DccBatteryDccSolarDisjoint()
    ensures Disjoint(DccBatterySensorKeys, DccSolarSensorKeys)
  {
  }

  lemma DccBatteryDccStatusDisjoint()
    ensures Disjoint(DccBatterySensorKeys, DccStatusSensorKeys)
  {
  }

  lemma DccBatteryDccStatisticsDisjoint()
    ensures Disjoint(DccBatterySensorKeys, DccStatisticsSensorKeys)
  {
  }

  lemma DccBatteryDccDiagnosticDisjoint()
    ensures Disjoint(DccBatterySensorKeys, DccDiagnosticSensorKeys)
  {
  }

  lemma DccAlternatorDccSolarDisjoint()
    ensures Disjoint(DccAlternatorSensorKeys, DccSolarSensorKeys)
  {
  }

  lemma DccAlternatorDccStatusDisjoint()
    ensures Disjoint(DccAlternatorSensorKeys, DccStatusSensorKeys)
  {
  }

  lemma DccAlternatorDccStatisticsDisjoint()
    ensures Disjoint(DccAlternatorSensorKeys, DccStatisticsSensorKeys)
  {
  }

  lemma DccAlternatorDccDiagnosticDisjoint()
    ensures Disjoint(DccAlternatorSensorKeys, DccDiagnosticSensorKeys)
  {
  }

  lemma DccSolarDccStatusDisjoint()
    ensures Disjoint(DccSolarSensorKeys, DccStatusSensorKeys)
  {
  }

  lemma DccSolarDccStatisticsDisjoint()
    ensures Disjoint(DccSolarSensorKeys, DccStatisticsSensorKeys)
  {
  }

  lemma DccSolarDccDiagnosticDisjoint()
    ensures Disjoint(DccSolarSensorKeys, DccDiagnosticSensorKeys)
  {
  }

  lemma DccStatusDccStatisticsDisjoint()
    ensures Disjoint(DccStatusSensorKeys, DccStatisticsSensorKeys)
  {
  }

  lemma DccStatusDccDiagnosticDisjoint()
    ensures Disjoint(DccStatusSensorKeys, DccDiagnosticSensorKeys)
  {
  }

  lemma DccStatisticsDccDiagnosticDisjoint()
    ensures Disjoint(DccStatisticsSensorKeys, DccDiagnosticSensorKeys)
  {
  }

  lemma BatteryLfpMainBatteryLfpDiagnosticDisjoint()
    ensures Disjoint(BatteryLfpMainSensorKeys, BatteryLfpDiagnosticSensorKeys)
  {
  }

  /** Slot i of the generated groups is descriptor i, whose key extends its group's prefix. */
  lemma IndexedSensorsAt(i: nat)
    requires i < IndexedSlots
    ensures BatteryLfpCellVoltageSensors[i] == CellVoltageDescriptor(i)
    ensures BatteryLfpTemperatureSensors[i] == TemperatureDescriptor(i)
    ensures StartsWith(BatteryLfpCellVoltageSensors[i].key, KeyCellVoltagePrefix)
    ensures StartsWith(BatteryLfpTemperatureSensors[i].key, KeyTemperaturePrefix)
  {
    CellVoltageSensorsUpToAt(IndexedSlots, i);
    TemperatureSensorsUpToAt(IndexedSlots, i);
    ConcatStartsWith(KeyCellVoltagePrefix, NatToString(i));
    ConcatStartsWith(KeyTemperaturePrefix, NatToString(i));
  }

  /** No two descriptors of the generated cell-voltage group share a key. */
  lemma CellVoltageSensorsKeysDistinct()
    ensures DistinctKeys(BatteryLfpCellVoltageSensors)
  {
    var s := BatteryLfpCellVoltageSensors;
    forall i, j | 0 <= i < j < IndexedSlots ensures s[i].key != s[j].key {
      IndexedKeysDiffer(i, j);
    }
  }

  /** Each generated cell-voltage descriptor's extractor reads the descriptor's own key. */
  lemma CellVoltageSensorsReadOwnKeys()
    ensures ReadsOwnKeys(BatteryLfpCellVoltageSensors)
  {
    var s := BatteryLfpCellVoltageSensors;
    forall i | 0 <= i < IndexedSlots ensures s[i] == CellVoltageDescriptor(i) {
      IndexedSensorsAt(i);
    }
  }

  /** Every key of the generated cell-voltage group starts with the group's prefix. */
  lemma CellVoltageSensorsKeysPrefixed()
    ensures forall k :: k in Keys(BatteryLfpCellVoltageSensors) ==> StartsWith(k, KeyCellVoltagePrefix)
  {
    var s := BatteryLfpCellVoltageSensors;
    forall i | 0 <= i < IndexedSlots ensures StartsWith(s[i].key, KeyCellVoltagePrefix) {
      IndexedSensorsAt(i);
    }
  }

  /** No two descriptors of the generated temperature group share a key. */
  lemma TemperatureSensorsKeysDistinct()
    ensures DistinctKeys(BatteryLfpTemperatureSensors)
  {
    var s := BatteryLfpTemperatureSensors;
    forall i, j | 0 <= i < j < IndexedSlots ensures s[i].key != s[j].key {
      IndexedKeysDiffer(i, j);
    }
  }

  /** Each generated temperature descriptor's extractor reads the descriptor's own key. */
  lemma TemperatureSensorsReadOwnKeys()
    ensures ReadsOwnKeys(BatteryLfpTemperatureSensors)
  {
    var s := BatteryLfpTemperatureSensors;
    forall i | 0 <= i < IndexedSlots ensures s[i] == TemperatureDescriptor(i) {
      IndexedSensorsAt(i);
    }
  }

  /** Every key of the generated temperature group starts with the group's prefix. */
  lemma TemperatureSensorsKeysPrefixed()
    ensures forall k :: k in Keys(BatteryLfpTemperatureSensors) ==> StartsWith(k, KeyTemperaturePrefix)
  {
    var s := BatteryLfpTemperatureSensors;
    forall i | 0 <= i < IndexedSlots ensures StartsWith(s[i].key, KeyTemperaturePrefix) {
      IndexedSensorsAt(i);
    }
  }

  /** Distinct slots of a generated group have distinct keys. */
  lemma IndexedKeysDiffer(i: nat, j: nat)
    requires i < j < IndexedSlots
    ensures BatteryLfpCellVoltageSensors[i].key != BatteryLfpCellVoltageSensors[j].key
    ensures BatteryLfpTemperatureSensors[i].key != BatteryLfpTemperatureSensors[j].key
  {
    IndexedSensorsAt(i);
    IndexedSensorsAt(j);
    var si, sj := NatToString(i), NatToString(j);
    if KeyCellVoltagePrefix + si == KeyCellVoltagePrefix + sj {
      PrefixCancel(KeyCellVoltagePrefix, si, sj);
      NatToStringInjective(i, j);
    }
    if KeyTemperaturePrefix + si == KeyTemperaturePrefix + sj {
      PrefixCancel(KeyTemperaturePrefix, si, sj);
      NatToStringInjective(i, j);
    }
  }

  /** The controller's catalog holds no key twice, and each extractor reads its own key. */
  lemma ControllerKeysDistinct()
    ensures DistinctKeys(AllSensors) && ReadsOwnKeys(AllSensors)
  {
    BatterySensorsKeyList();
    BatterySensorsKeysDistinct();
    BatterySensorsReadOwnKeys();
    PvSensorsKeyList();
    PvSensorsKeysDistinct();
    PvSensorsReadOwnKeys();
    LoadSensorsKeyList();
    LoadSensorsKeysDistinct();
    LoadSensorsReadOwnKeys();
    ControllerSensorsKeyList();
    ControllerSensorsKeysDistinct();
    ControllerSensorsReadOwnKeys();
    BatteryPvDisjoint();
    BatteryLoadDisjoint();
    BatteryControllerDisjoint();
    PvLoadDisjoint();
    PvControllerDisjoint();
    LoadControllerDisjoint();
    KeysConcat(BatterySensors, PvSensors);
    KeysConcat(BatterySensors + PvSensors, LoadSensors);
    KeysConcat(BatterySensors + PvSensors + LoadSensors, ControllerSensors);
    Distinct4(Keys(BatterySensors), Keys(PvSensors), Keys(LoadSensors), Keys(ControllerSensors));
  }

  /** The DC-DC charger's catalog holds no key twice, and each extractor reads its own key. */
  lemma DccKeysDistinct()
    ensures DistinctKeys(DccAllSensors) && ReadsOwnKeys(DccAllSensors)
  {
    DccBatterySensorsKeyList();
    DccBatterySensorsKeysDistinct();
    DccBatterySensorsReadOwnKeys();
    DccAlternatorSensorsKeyList();
    DccAlternatorSensorsKeysDistinct();
    DccAlternatorSensorsReadOwnKeys();
    DccSolarSensorsKeyList();
    DccSolarSensorsKeysDistinct();
    DccSolarSensorsReadOwnKeys();
    DccStatusSensorsKeyList();
    DccStatusSensorsKeysDistinct();
    DccStatusSensorsReadOwnKeys();
    DccStatisticsSensorsKeyList();
    DccStatisticsSensorsKeysDistinct();
    DccStatisticsSensorsReadOwnKeys();
    DccDiagnosticSensorsKeyList();
    DccDiagnosticSensorsKeysDistinct();
    DccDiagnosticSensorsReadOwnKeys();
    DccBatteryDccAlternatorDisjoint();
    DccBatteryDccSolarDisjoint();
    DccBatteryDccStatusDisjoint();
    DccBatteryDccStatisticsDisjoint();
    DccBatteryDccDiagnosticDisjoint();
    DccAlternatorDccSolarDisjoint();
    DccAlternatorDccStatusDisjoint();
    DccAlternatorDccStatisticsDisjoint();
    DccAlternatorDccDiagnosticDisjoint();
    DccSolarDccStatusDisjoint();
    DccSolarDccStatisticsDisjoint();
    DccSolarDccDiagnosticDisjoint();
    DccStatusDccStatisticsDisjoint();
    DccStatusDccDiagnosticDisjoint();
    DccStatisticsDccDiagnosticDisjoint();
    KeysConcat(DccBatterySensors, DccAlternatorSensors);
    KeysConcat(DccBatterySensors + DccAlternatorSensors, DccSolarSensors);
    KeysConcat(DccBatterySensors + DccAlternatorSensors + DccSolarSensors, DccStatusSensors);
    KeysConcat(DccBatterySensors + DccAlternatorSensors + DccSolarSensors + DccStatusSensors, DccStatisticsSensors);
    KeysConcat(DccBatterySensors + DccAlternatorSensors + DccSolarSensors + DccStatusSensors + DccStatisticsSensors, DccDiagnosticSensors);
    Distinct6(Keys(DccBatterySensors), Keys(DccAlternatorSensors), Keys(DccSolarSensors), Keys(DccStatusSensors), Keys(DccStatisticsSensors), Keys(DccDiagnosticSensors));
  }

  /** The battery's catalog holds no key twice, and each extractor reads its own key. */
  lemma BatteryKeysDistinct()
    ensures DistinctKeys(BatteryLfpAllSensors) && ReadsOwnKeys(BatteryLfpAllSensors)
  {
    BatteryLfpMainSensorsKeyList();
    BatteryLfpMainSensorsKeysDistinct();
    BatteryLfpMainSensorsReadOwnKeys();
    BatteryLfpDiagnosticSensorsKeyList();
    BatteryLfpDiagnosticSensorsKeysDistinct();
    BatteryLfpDiagnosticSensorsReadOwnKeys();
    BatteryLfpMainBatteryLfpDiagnosticDisjoint();
    CellVoltageSensorsKeysDistinct();
    CellVoltageSensorsReadOwnKeys();
    CellVoltageSensorsKeysPrefixed();
    TemperatureSensorsKeysDistinct();
    TemperatureSensorsReadOwnKeys();
    TemperatureSensorsKeysPrefixed();
    var main, cells, temps, diag := Keys(BatteryLfpMainSensors), Keys(BatteryLfpCellVoltageSensors),
      Keys(BatteryLfpTemperatureSensors), Keys(BatteryLfpDiagnosticSensors);
    forall k | k in temps ensures !StartsWith(k, KeyCellVoltagePrefix) {
      PrefixesExclusive(k, KeyTemperaturePrefix, KeyCellVoltagePrefix);
    }
    BatteryLfpSensorsAvoidPrefixes();
    DisjointByPrefix(main, cells, KeyCellVoltagePrefix);
    DisjointByPrefix(main, temps, KeyTemperaturePrefix);
    DisjointByPrefix(temps, cells, KeyCellVoltagePrefix);
    DisjointByPrefix(diag, cells, KeyCellVoltagePrefix);
    DisjointByPrefix(diag, temps, KeyTemperaturePrefix);
    KeysConcat(BatteryLfpMainSensors, BatteryLfpCellVoltageSensors);
    KeysConcat(BatteryLfpMainSensors + BatteryLfpCellVoltageSensors, BatteryLfpTemperatureSensors);
    KeysConcat(BatteryLfpMainSensors + BatteryLfpCellVoltageSensors + BatteryLfpTemperatureSensors,
               BatteryLfpDiagnosticSensors);
    Distinct4(main, cells, temps, diag);
  }

  /** No static battery key starts with a generated group's prefix. */
  lemma BatteryLfpSensorsAvoidPrefixes()
    ensures forall k :: k in BatteryLfpMainSensorKeys ==> !StartsWith(k, KeyCellVoltagePrefix) && !StartsWith(k, KeyTemperaturePrefix)
    ensures forall k :: k in BatteryLfpDiagnosticSensorKeys ==> !StartsWith(k, KeyCellVoltagePrefix) && !StartsWith(k, KeyTemperaturePrefix)
  {
    forall k | k in BatteryLfpMainSensorKeys + BatteryLfpDiagnosticSensorKeys
      ensures !StartsWith(k, KeyCellVoltagePrefix) && !StartsWith(k, KeyTemperaturePrefix)
    {
      NotStartsWith(k, KeyCellVoltagePrefix);
      NotStartsWith(k, KeyTemperaturePrefix);
    }
  }

  lemma FlattenSnoc(gs: seq<Group>, g: Group)
    ensures Flatten(gs + [g]) == Flatten(gs) + g.sensors
  {
    assert (gs + [g])[..|gs|] == gs;
  }

  lemma Flatten4(g0: Group, g1: Group, g2: Group, g3: Group)
    ensures Flatten([g0, g1, g2, g3]) == g0.sensors + g1.sensors + g2.sensors + g3.sensors
  {
    FlattenSnoc([], g0);
    assert [] + [g0] == [g0];
    FlattenSnoc([g0], g1);
    assert [g0] + [g1] == [g0, g1];
    FlattenSnoc([g0, g1], g2);
    assert [g0, g1] + [g2] == [g0, g1, g2];
    FlattenSnoc([g0, g1, g2], g3);
    assert [g0, g1, g2] + [g3] == [g0, g1, g2, g3];
  }

  lemma Flatten6(g0: Group, g1: Group, g2: Group, g3: Group, g4: Group, g5: Group)
    ensures Flatten([g0, g1, g2, g3, g4, g5])
         == g0.sensors + g1.sensors + g2.sensors + g3.sensors + g4.sensors + g5.sensors
  {
    Flatten4(g0, g1, g2, g3);
    FlattenSnoc([g0, g1, g2, g3], g4);
    assert [g0, g1, g2, g3] + [g4] == [g0, g1, g2, g3, g4];
    FlattenSnoc([g0, g1, g2, g3, g4], g5);
    assert [g0, g1, g2, g3, g4] + [g5] == [g0, g1, g2, g3, g4, g5];
  }

  /** Walking a device type's categories in order visits exactly its combined catalog, in order. */
  lemma GroupsFlatten()
    ensures Flatten(ControllerGroups) == AllSensors
    ensures Flatten(DccGroups) == DccAllSensors
    ensures Flatten(BatteryGroups) == BatteryLfpAllSensors
  {
    var c, d, b := ControllerGroups, DccGroups, BatteryGroups;
    Flatten4(c[0], c[1], c[2], c[3]);
    Flatten6(d[0], d[1], d[2], d[3], d[4], d[5]);
    Flatten4(b[0], b[1], b[2], b[3]);
  }

  /** The groups each device type string selects: the DC-DC charger's and the battery's
      for their own type strings, the controller's for every other string. */
  lemma SensorGroupsCases(deviceType: string)
    ensures SensorGroups(deviceType) ==
      if deviceType == "dcc" then DccGroups
      else if deviceType == "battery" then BatteryGroups
      else ControllerGroups
  {
  }

  /** SENSORS_BY_DEVICE_TYPE has an entry for exactly the supported device types; every
      other type string, the inverter's included, gets the default type's groups. */
  lemma SensorGroupsFallback(deviceType: string)
    ensures SensorsByDeviceType.Keys == set t | t in Const.SupportedDeviceTypes
    ensures deviceType !in Const.SupportedDeviceTypes ==>
      SensorGroups(deviceType) == SensorGroups(Const.DefaultDeviceType)
  {
    SensorGroupsCases(deviceType);
  }

  /** Whatever the device type, its taxonomy is non-empty and no category is empty or
      named twice. */
  lemma TaxonomyShape(deviceType: string)
    ensures |SensorGroups(deviceType)| > 0
    ensures forall i :: 0 <= i < |SensorGroups(deviceType)| ==> |SensorGroups(deviceType)[i].sensors| > 0
    ensures Distinct(Categories(SensorGroups(deviceType)))
  {
    SensorGroupsCases(deviceType);
    var gs := SensorGroups(deviceType);
    CategoriesDistinct();
    forall i | 0 <= i < |gs| ensures |gs[i].sensors| > 0 {
      GroupSizes(gs, i);
    }
  }

  /** No device type names a category twice. */
  lemma CategoriesDistinct()
    ensures Distinct(Categories(ControllerGroups))
    ensures Distinct(Categories(DccGroups))
    ensures Distinct(Categories(BatteryGroups))
  {
    TaxonomyCategories();
    ControllerCategoriesDistinct();
    DccCategoriesDistinct();
    BatteryCategoriesDistinct();
  }

  lemma ControllerCategoriesDistinct()
    ensures Distinct(["Battery", "PV", "Load", "Controller"])
  {
  }

  lemma DccCategoriesDistinct()
    ensures Distinct(["Battery", "Alternator", "Solar", "Status", "Statistics", "Diagnostic"])
  {
  }

  lemma BatteryCategoriesDistinct()
    ensures Distinct(["Main", "Cell Voltages", "Temperatures", "Diagnostic"])
  {
  }

  /** Number of descriptors in each category of each device type. */
  lemma GroupSizes(gs: seq<Group>, i: nat)
    requires gs == ControllerGroups || gs == DccGroups || gs == BatteryGroups
    requires i < |gs|
    ensures |gs[i].sensors| >= 3
  {
  }

  /** Whatever the device type, no key occurs twice across its categories, and each
      extractor reads its own key. */
  lemma TaxonomyKeysDistinct(deviceType: string)
    ensures DistinctKeys(Flatten(SensorGroups(deviceType)))
    ensures ReadsOwnKeys(Flatten(SensorGroups(deviceType)))
  {
    SensorGroupsCases(deviceType);
    GroupsFlatten();
    if deviceType == "dcc" {
      DccKeysDistinct();
    } else if deviceType == "battery" {
      BatteryKeysDistinct();
    } else {
      ControllerKeysDistinct();
    }
  }

  /** The category names in the order the taxonomy lists them. */
  lemma TaxonomyCategories()
    ensures Categories(ControllerGroups) == ["Battery", "PV", "Load", "Controller"]
    ensures Categories(DccGroups) == ["Battery", "Alternator", "Solar", "Status", "Statistics", "Diagnostic"]
    ensures Categories(BatteryGroups) == ["Main", "Cell Voltages", "Temperatures", "Diagnostic"]
  {
  }

  /** The number of descriptors per device type: 23 for the controller, 32 for the DC-DC
      charger, 42 for the battery. */
  lemma TaxonomySizes()
    ensures |Flatten(ControllerGroups)| == 23
    ensures |Flatten(DccGroups)| == 32
    ensures |Flatten(BatteryGroups)| == 42
  {
    GroupsFlatten();
  }

  lemma EntriesSnoc(gs: seq<Group>, g: Group)
    ensures Entries(gs + [g]) == Entries(gs) + Tagged(g)
  {
    assert (gs + [g])[..|gs|] == gs;
  }

  /** The entries pair the flattened descriptors, one for one and in order, with the
      name of the category each came from. */
  lemma {:induction false} EntriesFlatten(gs: seq<Group>)
    ensures |Entries(gs)| == |Flatten(gs)|
    ensures forall k :: 0 <= k < |Entries(gs)| ==> Entries(gs)[k].1 == Flatten(gs)[k]
    ensures forall k :: 0 <= k < |Entries(gs)| ==> Entries(gs)[k].0 in Categories(gs)
  {
    if gs != [] {
      var init, last := gs[..|gs| - 1], gs[|gs| - 1];
      EntriesFlatten(init);
      assert gs == init + [last];
      assert Categories(gs) == Categories(init) + [last.category];
      var e, f := Entries(gs), Flatten(gs);
      forall k | 0 <= k < |e| ensures e[k].1 == f[k] && e[k].0 in Categories(gs) {
        if k < |Entries(init)| {
          assert e[k] == Entries(init)[k];
          assert f[k] == Flatten(init)[k];
        } else {
          assert e[k] == Tagged(last)[k - |Entries(init)|];
          assert f[k] == last.sensors[k - |Flatten(init)|];
        }
      }
    }
  }

  /** Descriptor k of category i is the entry just after the descriptors of the categories
      before i, tagged with category i's name. */
  lemma {:induction false} EntriesAt(gs: seq<Group>, i: nat, k: nat)
    requires i < |gs| && k < |gs[i].sensors|
    ensures |Flatten(gs[..i])| + k < |Entries(gs)|
    ensures Entries(gs)[|Flatten(gs[..i])| + k] == (gs[i].category, gs[i].sensors[k])
  {
    var init, last := gs[..|gs| - 1], gs[|gs| - 1];
    EntriesFlatten(init);
    assert Entries(gs) == Entries(init) + Tagged(last);
    if i < |gs| - 1 {
      assert init[..i] == gs[..i] && init[i] == gs[i];
      EntriesAt(init, i, k);
    } else {
      assert gs[..i] == init;
    }
  }

  /** "Power Generation Total" is reported in kWh: the raw counter divided by 1000,
      nothing when the counter is missing, and a failure when it holds text. */
  lemma PowerGenerationTotalScaled(data: Snapshot)
    ensures PvSensors[5].key == KeyPowerGenerationTotal && PvSensors[5].unit == Some(KiloWattHour)
    ensures Extract(PvSensors[5].extractor, data) ==
      if KeyPowerGenerationTotal !in data then Absent
      else match data[KeyPowerGenerationTotal]
        case Num(x) => Present(Num(x / 1000.0))
        case Text(_) => Failed
  {
  }
}
