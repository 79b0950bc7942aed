/** Entity creation at setup: the device type from the configuration, the wait for a
    confirmed device name, the choice between device-bound and coordinator-only
    entities, and the construction of one entity per descriptor of the device type's
    taxonomy, category by category. */
module Setup {
  import opened Values
  import opened Strings
  import opened Descriptors
  import opened Catalog
  import opened Sensor
  import Const

  /** `config_entry.data.get(CONF_DEVICE_TYPE, DEFAULT_DEVICE_TYPE)` */
  function ConfiguredDeviceType(config: map<string, string>): (r: string)
    ensures Const.ConfDeviceType in config ==> r == config[Const.ConfDeviceType]
    ensures Const.ConfDeviceType !in config ==> r == Const.DefaultDeviceType
  {
    if Const.ConfDeviceType in config then config[Const.ConfDeviceType] else Const.DefaultDeviceType
  }

  /** A configuration without a device type gets the controller's taxonomy, and so does
      one naming a type without a taxonomy of its own. */
  lemma ConfiguredTaxonomy(config: map<string, string>)
    ensures ConfiguredDeviceType(config) !in Const.SupportedDeviceTypes ==>
      SensorGroups(ConfiguredDeviceType(config)) == ControllerGroups
    ensures |Flatten(SensorGroups(ConfiguredDeviceType(config)))| > 0
  {
    var t := ConfiguredDeviceType(config);
    SensorGroupsCases(t);
    TaxonomySizes();
  }

  // ---------------------------------------------------------------------------
  // Waiting for a real device name

  /** Number of one-second checks made while waiting. */
  const WaitChecks: nat := 10

  /** The device name of a coordinator's device, if it has one. */
  function DeviceName(d: Device?): Option<string>
    reads d
  {
    if d == null then None else Some(d.name)
  }

  /** A real name: the coordinator has a device whose name carries the BT module prefix. */
  predicate Confirmed(name: Option<string>) {
    name.Some? && StartsWith(name.value, Const.RenogyBtPrefix)
  }

  /** The test that starts the wait, as the source writes it. */
  predicate NeedsWait(name: Option<string>) {
    name.None? || StartsWith(name.value, "Unknown") || !StartsWith(name.value, Const.RenogyBtPrefix)
  }

  /** The test that decides for device-bound entities, as the source writes it. */
  predicate BindsDevice(name: Option<string>) {
    name.Some? && (StartsWith(name.value, Const.RenogyBtPrefix) || !StartsWith(name.value, "Unknown"))
  }

  /** The wait starts exactly when the name is not confirmed: the "Unknown" clause never
      decides, since a name with the BT prefix cannot start with "Unknown". */
  lemma NeedsWaitIffUnconfirmed(name: Option<string>)
    ensures NeedsWait(name) <==> !Confirmed(name)
  {
    if Confirmed(name) {
      PrefixesExclusive(name.value, Const.RenogyBtPrefix, "Unknown");
    }
  }

  /** Entities are bound to the device exactly when it exists and its name does not start
      with "Unknown"; so a confirmed name always binds, and a generic name that is not a
      placeholder binds too. */
  lemma BindsDeviceIffNamed(name: Option<string>)
    ensures BindsDevice(name) <==> name.Some? && !StartsWith(name.value, "Unknown")
    ensures Confirmed(name) ==> BindsDevice(name)
  {
    if Confirmed(name) {
      PrefixesExclusive(name.value, Const.RenogyBtPrefix, "Unknown");
    }
  }

  /** The wait of the setup. `initial` is the coordinator's device name on entry and
      `poll(k)` its device name at check k, after k + 1 seconds. The wait runs only for an
      unconfirmed name, makes at most ten checks and stops at the first confirmed one;
      `final` is the name the binding decision then sees. */
  method AwaitRealName(initial: Option<string>, poll: nat -> Option<string>)
    returns (waited: bool, checks: nat, found: bool, final: Option<string>)
    ensures waited <==> !Confirmed(initial)
    ensures !waited ==> checks == 0 && !found && final == initial
    ensures waited ==> 1 <= checks <= WaitChecks && final == poll(checks - 1)
    ensures found <==> waited && Confirmed(final)
    ensures waited && !found ==> checks == WaitChecks
    ensures forall k :: 0 <= k < checks - 1 ==> !Confirmed(poll(k))
  {
    NeedsWaitIffUnconfirmed(initial);
    waited := NeedsWait(initial);
    checks, found, final := 0, false, initial;
    if waited {
      while checks < WaitChecks && !found
        invariant checks <= WaitChecks
        invariant checks == 0 ==> !found
        invariant checks > 0 ==> final == poll(checks - 1) && (found <==> Confirmed(final))
        invariant forall k :: 0 <= k < checks - 1 ==> !Confirmed(poll(k))
        invariant checks > 0 && !found ==> !Confirmed(poll(checks - 1))
      {
        final := poll(checks);
        checks := checks + 1;
        found := Confirmed(final);
      }
    }
  }

  // ---------------------------------------------------------------------------
  // Entity construction

  /** Entity e was built for the given (category, descriptor) entry; bound to a device, it
      carries the device's label. */
  ghost predicate BuiltFor(e: RenogyBLESensor, entry: (string, Descriptor),
                           coordinator: Coordinator, device: Device?, deviceType: string)
    reads e, device
  {
    && e.Valid()
    && (device != null ==> e.name == BoundName(device.name, entry.1))
    && e.coordinator == coordinator && e.device == device && e.deviceType == deviceType
    && e.description == entry.1 && e.category == Some(entry.0)
    && e.nativeValue == None && e.lastUpdated == None
  }

  /** The entities are one per entry of the groups, in the groups' order. */
  ghost predicate BuiltForGroups(entities: seq<RenogyBLESensor>, groups: seq<Group>,
                                 coordinator: Coordinator, device: Device?, deviceType: string)
    reads entities, device
  {
    var entries := Entries(groups);
    && |entities| == |entries|
    && forall k :: 0 <= k < |entities| ==> BuiltFor(entities[k], entries[k], coordinator, device, deviceType)
  }

  /** The entities are one per entry of the device type's taxonomy, in the taxonomy's order. */
  ghost predicate BuiltForTaxonomy(entities: seq<RenogyBLESensor>, coordinator: Coordinator,
                                   device: Device?, deviceType: string)
    reads entities, device
  {
    BuiltForGroups(entities, SensorGroups(deviceType), coordinator, device, deviceType)
  }

  /** No two entities share a unique id. */
  ghost predicate DistinctUniqueIds(entities: seq<RenogyBLESensor>)
    reads entities
  {
    forall i, j :: 0 <= i < j < |entities| ==> entities[i].uniqueId != entities[j].uniqueId
  }

  /** `create_entities_helper`: one new entity per descriptor of the device type's
      taxonomy, category by category; no two share a unique id. */
  method CreateEntitiesHelper(coordinator: Coordinator, device: Device?, deviceType: string)
    returns (entities: seq<RenogyBLESensor>)
    ensures BuiltForTaxonomy(entities, coordinator, device, deviceType)
    ensures DistinctUniqueIds(entities)
    ensures forall k :: 0 <= k < |entities| ==> fresh(entities[k])
    ensures forall i, j :: 0 <= i < j < |entities| ==> entities[i] != entities[j]
  {
    var groups := SensorGroups(deviceType);
    entities := CreateGroupEntities(coordinator, device, groups, deviceType);
    TaxonomyKeysDistinct(deviceType);
    UniqueIdsDistinct(entities, groups, coordinator, device, deviceType);
  }

  /** The two loops of `create_entities_helper`: for each category in order, one new
      entity per descriptor in order, tagged with the category's name. */
  method CreateGroupEntities(coordinator: Coordinator, device: Device?, groups: seq<Group>, deviceType: string)
    returns (entities: seq<RenogyBLESensor>)
    ensures BuiltForGroups(entities, groups, coordinator, device, deviceType)
    ensures forall k :: 0 <= k < |entities| ==> fresh(entities[k])
    ensures forall i, j :: 0 <= i < j < |entities| ==> entities[i] != entities[j]
  {
    entities := [];
    ghost var built: seq<(string, Descriptor)> := [];
    var gi := 0;
    while gi < |groups|
      invariant gi <= |groups|
      invariant built == Entries(groups[..gi])
      invariant |entities| == |built|
      invariant forall k :: 0 <= k < |entities| ==> fresh(entities[k])
      invariant forall k :: 0 <= k < |entities| ==> BuiltFor(entities[k], built[k], coordinator, device, deviceType)
      invariant forall i, j :: 0 <= i < j < |entities| ==> entities[i] != entities[j]
    {
      var g := groups[gi];
      for si := 0 to |g.sensors|
        invariant built == Entries(groups[..gi]) + Tagged(g)[..si]
        invariant |entities| == |built|
        invariant forall k :: 0 <= k < |entities| ==> fresh(entities[k])
        invariant forall k :: 0 <= k < |entities| ==> BuiltFor(entities[k], built[k], coordinator, device, deviceType)
        invariant forall i, j :: 0 <= i < j < |entities| ==> entities[i] != entities[j]
      {
        var sensor := new RenogyBLESensor(coordinator, device, g.sensors[si], Some(g.category), deviceType);
        entities := entities + [sensor];
        assert Tagged(g)[..si + 1] == Tagged(g)[..si] + [(g.category, g.sensors[si])];
        built := built + [(g.category, g.sensors[si])];
      }
      assert groups[..gi + 1] == groups[..gi] + [g];
      EntriesSnoc(groups[..gi], g);
      assert Tagged(g)[..|g.sensors|] == Tagged(g);
      gi := gi + 1;
    }
    assert groups[..gi] == groups;
  }

  /** Entities built for groups without a repeated key carry pairwise distinct unique ids:
      they share one binding address. */
  lemma UniqueIdsDistinct(entities: seq<RenogyBLESensor>, groups: seq<Group>, coordinator: Coordinator,
                          device: Device?, deviceType: string)
    requires BuiltForGroups(entities, groups, coordinator, device, deviceType)
    requires DistinctKeys(Flatten(groups))
    ensures DistinctUniqueIds(entities)
  {
    var entries := Entries(groups);
    EntriesFlatten(groups);
    var address := if device != null then device.address else coordinator.address;
    forall i, j | 0 <= i < j < |entities| ensures entities[i].uniqueId != entities[j].uniqueId {
      assert BuiltFor(entities[i], entries[i], coordinator, device, deviceType);
      assert BuiltFor(entities[j], entries[j], coordinator, device, deviceType);
      var ki, kj := Flatten(groups)[i].key, Flatten(groups)[j].key;
      assert Keys(Flatten(groups))[i] == ki && Keys(Flatten(groups))[j] == kj;
      if entities[i].uniqueId == entities[j].uniqueId {
        UniqueIdInjective(address, ki, kj);
      }
    }
  }

  /** `create_coordinator_entities`: entities bound to no device, with generic labels and
      ids built from the coordinator's address. */
  method CreateCoordinatorEntities(coordinator: Coordinator, deviceType: string)
    returns (entities: seq<RenogyBLESensor>)
    ensures BuiltForTaxonomy(entities, coordinator, null, deviceType)
    ensures DistinctUniqueIds(entities)
    ensures forall k :: 0 <= k < |entities| ==> fresh(entities[k])
    ensures forall k :: 0 <= k < |entities| ==>
      entities[k].uniqueId == UniqueId(coordinator.address, entities[k].description.key) &&
      entities[k].name == UnboundName(entities[k].description)
  {
    entities := CreateEntitiesHelper(coordinator, null, deviceType);
    forall k | 0 <= k < |entities|
      ensures entities[k].uniqueId == UniqueId(coordinator.address, entities[k].description.key)
    {
      assert BuiltFor(entities[k], Entries(SensorGroups(deviceType))[k], coordinator, null, deviceType);
    }
  }

  /** `create_device_entities`: entities bound to the device, with ids built from its address. */
  method CreateDeviceEntities(coordinator: Coordinator, device: Device, deviceType: string)
    returns (entities: seq<RenogyBLESensor>)
    ensures BuiltForTaxonomy(entities, coordinator, device, deviceType)
    ensures DistinctUniqueIds(entities)
    ensures forall k :: 0 <= k < |entities| ==> fresh(entities[k])
    ensures forall k :: 0 <= k < |entities| ==>
      entities[k].uniqueId == UniqueId(device.address, entities[k].description.key) &&
      entities[k].name == BoundName(device.name, entities[k].description)
  {
    entities := CreateEntitiesHelper(coordinator, device, deviceType);
    forall k | 0 <= k < |entities|
      ensures entities[k].uniqueId == UniqueId(device.address, entities[k].description.key)
      ensures entities[k].name == BoundName(device.name, entities[k].description)
    {
      assert BuiltFor(entities[k], Entries(SensorGroups(deviceType))[k], coordinator, device, deviceType);
    }
  }

  /** The creation step of `async_setup_entry`, on the coordinator's state after the wait:
      device-bound entities when the coordinator's device has a name that is not a
      placeholder, coordinator-only entities otherwise. */
  method CreateSetupEntities(coordinator: Coordinator, deviceType: string)
    returns (bound: bool, entities: seq<RenogyBLESensor>)
    ensures bound <==> BindsDevice(DeviceName(coordinator.device))
    ensures BuiltForTaxonomy(entities, coordinator, if bound then coordinator.device else null, deviceType)
    ensures DistinctUniqueIds(entities)
    ensures forall k :: 0 <= k < |entities| ==> fresh(entities[k])
    ensures |entities| > 0
  {
    bound := coordinator.device != null &&
      (StartsWith(coordinator.device.name, Const.RenogyBtPrefix) || !StartsWith(coordinator.device.name, "Unknown"));
    if bound {
      entities := CreateDeviceEntities(coordinator, coordinator.device, deviceType);
    } else {
      entities := CreateCoordinatorEntities(coordinator, deviceType);
    }
    EntriesFlatten(SensorGroups(deviceType));
    TaxonomyNonEmpty(deviceType);
  }

  lemma TaxonomyNonEmpty(deviceType: string)
    ensures |Flatten(SensorGroups(deviceType))| > 0
  {
    SensorGroupsCases(deviceType);
    TaxonomySizes();
  }
}
