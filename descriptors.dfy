/** Sensor descriptors: the immutable description of one sensor (key, label, unit,
    device class, state class, entity category) and the rule that extracts its raw
    value from a telemetry snapshot. The rule is one of three strategies instead of
    an arbitrary closure. */
module Descriptors {
  import opened Values
  import opened Strings

  /** A decoded telemetry snapshot: key to scalar. A key the decoder did not fill is absent. */
  type Snapshot = map<string, Value>

  /** The units of measurement the catalog uses. */
  datatype Unit = Volt | Ampere | Percent | Celsius | Watt | WattHour | KiloWattHour | AmpHour | Days

  /** The host's sensor device classes that the catalog uses (Battery is a charge level in percent). */
  datatype DeviceClass = Voltage | Current | Battery | Temperature | Power | Energy

  /** How the host treats successive readings. */
  datatype StateClass = Measurement | TotalIncreasing

  /** Entity categories: only the diagnostic one occurs. */
  datatype EntityCategory = Diagnostic

  /** How a value is taken from the snapshot:
      Direct(k)      `data.get(k)`;
      Indexed(p, i)  `data.get(k)` with k = p + str(i) bound when the descriptor is generated;
      KiloScaled(k)  `None if data.get(k) is None else data.get(k) / 1000`. */
  datatype Extractor = Direct(key: string) | Indexed(prefix: string, index: nat) | KiloScaled(key: string)

  datatype Descriptor = Descriptor(
    key: string,
    name: string,
    unit: Option<Unit> := None,
    deviceClass: Option<DeviceClass> := None,
    stateClass: Option<StateClass> := None,
    entityCategory: Option<EntityCategory> := None,
    extractor: Extractor)

  /** What an extractor produced: nothing, a value, or an exception it raised. */
  datatype Extracted = Absent | Present(value: Value) | Failed

  /** The one snapshot key an extractor consults. */
  function ReadKey(e: Extractor): string {
    match e
    case Direct(k) => k
    case Indexed(p, i) => p + NatToString(i)
    case KiloScaled(k) => k
  }

  /** Run an extractor on a snapshot. Dividing text by 1000 raises TypeError (Failed). */
  function Extract(e: Extractor, data: Snapshot): (r: Extracted)
    ensures ReadKey(e) !in data <==> r == Absent
    ensures !e.KiloScaled? && ReadKey(e) in data ==> r == Present(data[ReadKey(e)])
    ensures e.KiloScaled? && ReadKey(e) in data ==>
      r == match data[ReadKey(e)] { case Num(x) => Present(Num(x / 1000.0)) case Text(_) => Failed }
  {
    var k := ReadKey(e);
    if k !in data then Absent
    else match e
      case Direct(_) => Present(data[k])
      case Indexed(_, _) => Present(data[k])
      case KiloScaled(_) =>
        match data[k]
        case Num(x) => Present(Num(x / 1000.0))
        case Text(_) => Failed
  }

  /** An extractor reads nothing but its own key: snapshots that agree there give the same result. */
  lemma ExtractReadsOnlyItsKey(e: Extractor, d1: Snapshot, d2: Snapshot)
    requires ReadKey(e) in d1 <==> ReadKey(e) in d2
    requires ReadKey(e) in d1 ==> d1[ReadKey(e)] == d2[ReadKey(e)]
    ensures Extract(e, d1) == Extract(e, d2)
  {
  }

  /** Every extractor finds nothing in an empty snapshot. */
  lemma ExtractEmpty(e: Extractor)
    ensures Extract(e, map[]) == Absent
  {
  }

  /** An indexed extractor reads key p + str(i) and no other index's key: on a snapshot
      holding only the key of index j it finds a value exactly when j == i. */
  lemma IndexedReadsOwnIndex(p: string, i: nat, j: nat, v: Value)
    ensures Extract(Indexed(p, i), map[p + NatToString(j) := v]) ==
      if i == j then Present(v) else Absent
  {
    if p + NatToString(i) == p + NatToString(j) {
      PrefixCancel(p, NatToString(i), NatToString(j));
      NatToStringInjective(i, j);
    }
  }
}
