/** The source catalog and target resolution over the device directory. */
module TargetResolution {
  import opened Wrappers
  import opened Collections
  import opened DeviceTypes
  import R = DeviceRegistry

  datatype SourceKind = DeviceSource | HostApp | ControlCenter

  datatype Source = Source(id: string, kind: SourceKind, device: Option<DeviceId>, enabled: bool)

  datatype Target =
    | ByLabel(dcdwLabel: string)
    | ByDevice(device: DeviceId)
    | BySchoolAndLabel(schoolName: string, schoolLabel: string)

  datatype Refusal =
    | InvalidTarget
    | PermissionDenied
    | SourceDeviceOffline
    | TargetAmbiguous
    | TargetNotFound
    | UnsupportedDeviceType

  // ---------------------------------------------------------------- the catalog

  datatype LoadRefusal = EmptySource | MissingDevice | DeviceMismatch | UnexpectedDevice | DuplicateSource

  /** A device source stands for the device of the same id; the others for none. */
  predicate WellFormed(source: Source) {
    source.id != "" && (if source.kind.DeviceSource? then source.device == Some(source.id) else source.device.None?)
  }

  ghost predicate Loadable(sources: seq<Source>) {
    && (forall k :: 0 <= k < |sources| ==> WellFormed(sources[k]))
    && (forall k, l :: 0 <= k < l < |sources| ==> sources[k].id != sources[l].id)
  }

  class SourceCatalog {
    var sources: map<string, Source>

    ghost predicate Valid()
      reads this
    {
      forall id :: id in sources ==> sources[id].id == id && WellFormed(sources[id])
    }

    constructor ()
      ensures Valid() && sources == map[]
    {
      sources := map[];
    }

    /** Loads exactly the well-formed lists without repeated ids; a refused list changes nothing. */
    method Load(list: seq<Source>) returns (result: Result<(), LoadRefusal>)
      requires Valid()
      modifies this
      ensures Valid()
      ensures result.Success? <==> Loadable(list)
      ensures if result.Failure? then sources == old(sources)
              else (forall id :: id in sources <==> exists k :: 0 <= k < |list| && list[k].id == id) &&
                   (forall k :: 0 <= k < |list| ==> list[k].id in sources && sources[list[k].id] == list[k])
    {
      var loaded: map<string, Source> := map[];
      var i := 0;
      while i < |list|
        invariant 0 <= i <= |list| && sources == old(sources)
        invariant Loadable(list[..i])
        invariant forall id :: id in loaded <==> exists k :: 0 <= k < i && list[k].id == id
        invariant forall k :: 0 <= k < i ==> list[k].id in loaded && loaded[list[k].id] == list[k]
      {
        var source := list[i];
        if source.id == "" {
          return Failure(EmptySource);
        }
        if source.kind.DeviceSource? {
          if source.device.None? {
            return Failure(MissingDevice);
          }
          if source.device.value != source.id {
            return Failure(DeviceMismatch);
          }
        } else if source.device.Some? {
          return Failure(UnexpectedDevice);
        }
        if source.id in loaded {
          return Failure(DuplicateSource);
        }
        loaded := loaded[source.id := source];
        i := i + 1;
      }
      assert list[..i] == list;
      sources := loaded;
      return Success(());
    }

    function Find(id: string): (found: Option<Source>)
      reads this
      ensures found.Some? <==> id in sources
    {
      if id in sources then Some(sources[id]) else None
    }
  }

  // ---------------------------------------------------------------- targets

  function ResolveConfig(source: Source, target: Target, devices: R.Registry): Result<DeviceId, Refusal> {
    var found: Result<Option<DeviceRecord>, Refusal> :=
      if source.kind.DeviceSource? then
        if !target.ByLabel? || source.device.None? then Failure(InvalidTarget)
        else
          match R.Find(devices, source.device.value)
          case None => Failure(PermissionDenied)
          case Some(own) =>
            if !own.status.Online? then Failure(SourceDeviceOffline)
            else Success(R.FindBySchoolAndLabel(devices, own.schoolId, target.dcdwLabel))
      else
        match target
        case ByDevice(device) => Success(R.Find(devices, device))
        case BySchoolAndLabel(schoolName, dcdwLabel) =>
          if R.IsAmbiguous(devices, schoolName, dcdwLabel) then Failure(TargetAmbiguous)
          else Success(R.FindBySchoolNameAndLabel(devices, schoolName, dcdwLabel))
        case ByLabel(_) => Failure(InvalidTarget);
    match found
    case Failure(refusal) => Failure(refusal)
    case Success(None) => Failure(TargetNotFound)
    case Success(Some(record)) => Success(record.device)
  }

  function ResolveControl(source: Source, target: Target, devices: R.Registry): Result<DeviceId, Refusal> {
    match ResolveConfig(source, target, devices)
    case Failure(refusal) => Failure(refusal)
    case Success(device) =>
      var record := R.Find(devices, device);
      if record.Some? && record.value.deviceType.FlightController? then Failure(UnsupportedDeviceType)
      else Success(device)
  }

  /** What the source is allowed to address, said on the records alone. */
  predicate Addresses(source: Source, target: Target, records: map<DeviceId, DeviceRecord>, device: DeviceId) {
    device in records &&
    match target
    case ByLabel(dcdwLabel) =>
      source.kind.DeviceSource? && source.device.Some? && source.device.value in records &&
      records[source.device.value].status.Online? &&
      records[source.device.value].schoolId == records[device].schoolId && records[device].dcdwLabel == Some(dcdwLabel)
    case ByDevice(wanted) => !source.kind.DeviceSource? && device == wanted
    case BySchoolAndLabel(schoolName, dcdwLabel) =>
      !source.kind.DeviceSource? && records[device].schoolName == schoolName && records[device].dcdwLabel == Some(dcdwLabel)
  }

  /** A target resolves to a device exactly when that device is the only one the source addresses. */
  lemma ResolvesToTheOnlyOne(source: Source, target: Target, devices: R.Registry, device: DeviceId)
    requires R.Coherent(devices)
    ensures ResolveConfig(source, target, devices) == Success(device) <==>
              Addresses(source, target, devices.records, device) &&
              forall other :: Addresses(source, target, devices.records, other) ==> other == device
  {
    match target
    case ByLabel(dcdwLabel) =>
      if source.device.Some? && source.device.value in devices.records {
        R.RoleLookupIsScan(devices, devices.records[source.device.value].schoolId, dcdwLabel);
      }
    case ByDevice(wanted) =>
    case BySchoolAndLabel(schoolName, dcdwLabel) =>
      if !source.kind.DeviceSource? {
        NamedTarget(source, schoolName, dcdwLabel, devices, device);
      }
  }

  lemma NamedTarget(source: Source, schoolName: string, dcdwLabel: string, devices: R.Registry, device: DeviceId)
    requires R.Coherent(devices) && !source.kind.DeviceSource?
    ensures var target := BySchoolAndLabel(schoolName, dcdwLabel);
            ResolveConfig(source, target, devices) == Success(device) <==>
              Addresses(source, target, devices.records, device) &&
              forall other :: Addresses(source, target, devices.records, other) ==> other == device
  {
    R.NameLookupIsScan(devices, schoolName, dcdwLabel);
    var target := BySchoolAndLabel(schoolName, dcdwLabel);
    var holders := R.Holders(devices, schoolName, dcdwLabel);
    forall d ensures Addresses(source, target, devices.records, d) <==> d in holders {
    }
    if |holders| == 1 {
      var only :| only in holders;
      assert holders == {only} by {
        assert |holders - {only}| == 0;
      }
      assert R.FindBySchoolNameAndLabel(devices, schoolName, dcdwLabel) == Some(devices.records[only]);
    } else if device in holders {
      assert holders != {device};
    }
  }

  /** An ambiguous name is reported exactly when the source addresses two devices. */
  lemma AmbiguousMeansTwo(source: Source, target: Target, devices: R.Registry)
    requires R.Coherent(devices)
    ensures ResolveConfig(source, target, devices) == Failure(TargetAmbiguous) <==>
              exists a, b :: a != b && Addresses(source, target, devices.records, a) &&
                             Addresses(source, target, devices.records, b)
  {
    if target.BySchoolAndLabel? && !source.kind.DeviceSource? {
      R.NameLookupIsScan(devices, target.schoolName, target.schoolLabel);
      var holders := R.Holders(devices, target.schoolName, target.schoolLabel);
      forall d ensures Addresses(source, target, devices.records, d) <==> d in holders {
      }
      if |holders| > 1 {
        var a :| a in holders;
        var b :| b in holders - {a} by {
          assert |holders - {a}| == |holders| - 1;
        }
        assert a != b && Addresses(source, target, devices.records, a) && Addresses(source, target, devices.records, b);
      }
      if a, b :| a != b && Addresses(source, target, devices.records, a) && Addresses(source, target, devices.records, b) {
        assert {a, b} <= holders;
        SubsetSize({a, b}, holders);
      }
    } else {
      forall a, b | Addresses(source, target, devices.records, a) && Addresses(source, target, devices.records, b)
        ensures a == b
      {
        AddressedByLabel(source, target, devices, a, b);
      }
    }
  }

  lemma AddressedByLabel(source: Source, target: Target, devices: R.Registry, a: DeviceId, b: DeviceId)
    requires R.Coherent(devices) && !(target.BySchoolAndLabel? && !source.kind.DeviceSource?)
    requires Addresses(source, target, devices.records, a) && Addresses(source, target, devices.records, b)
    ensures a == b
  {
    if target.ByLabel? {
      assert R.RoleOf(devices.records[a]) == R.RoleOf(devices.records[b]);
    }
  }

  /** Control commands reach the same device, unless it is a flight controller. */
  lemma ControlResolvesBoxesOnly(source: Source, target: Target, devices: R.Registry, device: DeviceId)
    requires R.Coherent(devices)
    ensures ResolveControl(source, target, devices) == Success(device) <==>
              ResolveConfig(source, target, devices) == Success(device) &&
              !devices.records[device].deviceType.FlightController?
    ensures ResolveConfig(source, target, devices) == Success(device) ==> device in devices.records
  {
    ResolvesToTheOnlyOne(source, target, devices, device);
  }
}
