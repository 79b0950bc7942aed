/** The sensor entity: one per descriptor, bound to the coordinator and, once one is
    known, to the device object it reports for. It caches its last published value,
    rebinds its unique id and label when the coordinator learns the device, and reads
    the device's parsed data before the coordinator's. */
module Sensor {
  import opened Values
  import opened Descriptors
  import opened Pipeline

  /** The part of a BLE device object the sensor reads. */
  class Device {
    const address: string
    var name: string
    var isAvailable: bool
    /** The decoded telemetry; empty when nothing has been parsed. */
    var parsedData: Snapshot

    constructor (address: string, name: string, isAvailable: bool, parsedData: Snapshot)
      ensures this.address == address && this.name == name
      ensures this.isAvailable == isAvailable && this.parsedData == parsedData
    {
      this.address := address;
      this.name := name;
      this.isAvailable := isAvailable;
      this.parsedData := parsedData;
    }
  }

  /** The part of the polling coordinator the sensor reads. */
  class Coordinator {
    const address: string
    /** The device the coordinator has found, if any. */
    var device: Device?
    /** The coordinator's own copy of the telemetry; empty when there is none. */
    var data: Snapshot
    var lastUpdateSuccess: bool

    constructor (address: string, device: Device?, data: Snapshot, lastUpdateSuccess: bool)
      ensures this.address == address && this.device == device
      ensures this.data == data && this.lastUpdateSuccess == lastUpdateSuccess
    {
      this.address := address;
      this.device := device;
      this.data := data;
      this.lastUpdateSuccess := lastUpdateSuccess;
    }
  }

  /** `f"{address}_{key}"` */
  function UniqueId(address: string, key: string): string {
    address + "_" + key
  }

  /** The label of a sensor bound to a device. */
  function BoundName(deviceName: string, d: Descriptor): string {
    deviceName + " " + d.name
  }

  /** The label of a sensor bound to no device yet. */
  function UnboundName(d: Descriptor): string {
    "Renogy " + d.name
  }

  /** `UniqueId` keeps keys apart: at one address, distinct keys give distinct ids. */
  lemma UniqueIdInjective(address: string, k1: string, k2: string)
    requires UniqueId(address, k1) == UniqueId(address, k2)
    ensures k1 == k2
  {
    assert k1 == UniqueId(address, k1)[|address| + 1..];
    assert k2 == UniqueId(address, k2)[|address| + 1..];
  }

  class RenogyBLESensor {
    const coordinator: Coordinator
    const description: Descriptor
    const category: Option<string>
    const deviceType: string
    /** The bound device; null until the sensor learns one. */
    var device: Device?
    /** The cached published value; None means "compute on the next read". */
    var nativeValue: Option<Value>
    var uniqueId: string
    var name: string
    /** Time of the last coordinator update, as supplied by the caller. */
    var lastUpdated: Option<nat>

    /** The address the unique id is built from: the bound device's, else the coordinator's. */
    function BindingAddress(): string
      reads this
    {
      if device != null then device.address else coordinator.address
    }

    /** The entity invariant: the unique id names the binding address and the key, an
        unbound sensor carries the generic label, and a cached value is admissible. */
    ghost predicate Valid()
      reads this
    {
      && uniqueId == UniqueId(BindingAddress(), description.key)
      && (device == null ==> name == UnboundName(description))
      && (nativeValue.Some? ==> Admissible(description, nativeValue.value))
    }

    /** The snapshot the sensor reads in the current state. */
    function Data(): Snapshot
      reads this, device, coordinator
    {
      SelectData(if device != null then Some(device.parsedData) else None, coordinator.data)
    }

    /** The rebinding step taken when the sensor's device is read: an unbound sensor whose
        coordinator has found a device binds to it and takes its address and name; in
        every other case the binding is unchanged. */
    twostate predicate Rebound()
      reads this, coordinator, coordinator.device
    {
      if old(device) == null && coordinator.device != null then
        && device == coordinator.device
        && uniqueId == UniqueId(coordinator.device.address, description.key)
        && name == BoundName(coordinator.device.name, description)
      else
        && device == old(device)
        && uniqueId == old(uniqueId)
        && name == old(name)
    }

    constructor (coordinator: Coordinator, device: Device?, description: Descriptor,
                 category: Option<string>, deviceType: string)
      ensures this.coordinator == coordinator && this.device == device
      ensures this.description == description && this.category == category
      ensures this.deviceType == deviceType
      ensures nativeValue == None && lastUpdated == None
      ensures device != null ==> uniqueId == UniqueId(device.address, description.key)
      ensures device != null ==> name == BoundName(device.name, description)
      ensures device == null ==> uniqueId == UniqueId(coordinator.address, description.key)
      ensures device == null ==> name == UnboundName(description)
      ensures Valid()
    {
      this.coordinator := coordinator;
      this.description := description;
      this.category := category;
      this.deviceType := deviceType;
      this.device := device;
      nativeValue := None;
      if device != null {
        uniqueId := UniqueId(device.address, description.key);
        name := BoundName(device.name, description);
      } else {
        uniqueId := UniqueId(coordinator.address, description.key);
        name := UnboundName(description);
      }
      lastUpdated := None;
    }

    /** The `device` property: the bound device, or the coordinator's, bound on the way. */
    method CurrentDevice() returns (d: Device?)
      requires Valid()
      modifies this
      ensures Valid() && Rebound()
      ensures d == device
      ensures nativeValue == old(nativeValue) && lastUpdated == old(lastUpdated)
    {
      if device != null {
        return device;
      }
      if coordinator.device != null {
        device := coordinator.device;
        uniqueId := UniqueId(device.address, description.key);
        name := BoundName(device.name, description);
      }
      return device;
    }

    /** The `available` property. */
    function Available(): (r: bool)
      reads this, device, coordinator
      ensures r <==> && coordinator.lastUpdateSuccess
                     && (device != null ==> device.isAvailable)
                     && Data() != map[]
    {
      if !coordinator.lastUpdateSuccess then false
      else if device != null && !device.isAvailable then false
      else if device != null && device.parsedData != map[] then true
      else coordinator.data != map[]
    }

    /** The `native_value` property: the cached value when there is one; otherwise the
        device is read (which may bind it), the snapshot chosen, the value extracted and
        validated, and an accepted value cached. */
    method NativeValue() returns (r: Option<Value>)
      requires Valid()
      modifies this
      ensures Valid()
      ensures old(nativeValue).Some? ==> r == old(nativeValue) && unchanged(this)
      ensures old(nativeValue).None? ==> Rebound() && r == Evaluate(description, Data()) && nativeValue == r
      ensures lastUpdated == old(lastUpdated)
      ensures r.Some? ==> Admissible(description, r.value)
    {
      if nativeValue.Some? {
        return nativeValue;
      }
      var dev := CurrentDevice();
      var data: Snapshot := map[];
      if dev != null && dev.parsedData != map[] {
        data := dev.parsedData;
      } else if coordinator.data != map[] {
        data := coordinator.data;
      }
      if data == map[] {
        return None;
      }
      var extracted := Extract(description.extractor, data);
      match extracted {
        case Absent =>
          r := None;
        case Failed =>
          return None;
        case Present(v) =>
          r := Some(v);
          if IsNumericClass(description.deviceClass) {
            match Coerce(v) {
              case None =>
                return None;
              case Some(x) =>
                if x < MinReading || x > MaxReading {
                  return None;
                }
                r := Some(Num(x));
            }
          }
      }
      nativeValue := r;
    }

    /** `_handle_coordinator_update`: drop the cache, bind to the coordinator's device if
        still unbound, stamp the update time and recompute the value. */
    method HandleCoordinatorUpdate(now: nat)
      requires Valid()
      modifies this
      ensures Valid() && Rebound()
      ensures lastUpdated == Some(now)
      ensures nativeValue == Evaluate(description, Data())
    {
      nativeValue := None;
      if device == null && coordinator.device != null {
        device := coordinator.device;
        uniqueId := UniqueId(device.address, description.key);
        name := BoundName(device.name, description);
      }
      lastUpdated := Some(now);
      var _ := NativeValue();
    }
  }
}
