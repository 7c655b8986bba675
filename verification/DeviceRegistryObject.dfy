/** The device directory as an object: three maps changed together. */
module DeviceRegistryObject {
  import opened Wrappers
  import opened Collections
  import opened DeviceTypes
  import R = DeviceRegistry

  class DeviceRegistry {
    var records: map<DeviceId, DeviceRecord>
    var roles: map<R.RoleKey, DeviceId>
    var named: map<R.NamedKey, seq<DeviceId>>

    function State(): R.Registry
      reads this
    {
      R.Registry(records, roles, named)
    }

    /** The indexes are exactly the inverse of the labelled records. */
    ghost predicate Valid()
      reads this
    {
      R.Coherent(State())
    }

    constructor ()
      ensures Valid() && State() == R.Empty()
    {
      records, roles, named := map[], map[], map[];
    }

    method AddNamedRole(record: DeviceRecord)
      modifies this`named
      ensures named == R.AddNamedRole(old(named), record)
    {
      if record.dcdwLabel.None? {
        return;
      }
      var key := (record.schoolName, record.dcdwLabel.value);
      var ids := if key in named then named[key] else [];
      named := named[key := ids + [record.device]];
    }

    method RemoveNamedRole(record: DeviceRecord)
      modifies this`named
      ensures named == R.RemoveNamedRole(old(named), record)
    {
      if record.dcdwLabel.None? {
        return;
      }
      var key := (record.schoolName, record.dcdwLabel.value);
      if key !in named {
        return;
      }
      var ids := R.Without(named[key], record.device);
      named := named[key := ids];
      if ids == [] {
        named := named - {key};
      }
    }

    /** The maps are built aside and swapped in at the end: a failed load changes nothing. */
    method Load(snapshot: seq<DeviceRecord>) returns (result: Result<(), R.Refusal>)
      requires Valid()
      modifies this
      ensures Valid()
      ensures result.Success? <==> R.Loadable(R.Empty(), snapshot)
      ensures if result.Success?
              then R.LoadFrom(R.Empty(), snapshot) == Result.Success(State()) && R.HoldsAll(State(), R.Empty(), snapshot)
              else State() == old(State()) && R.LoadFrom(R.Empty(), snapshot) == Failure(result.error)
    {
      assert R.Coherent(R.Empty());
      R.LoadKeeps(R.Empty(), snapshot);
      hide R.LoadFrom, R.Coherent, R.HoldsAll, R.Loadable;
      var newRecords: map<DeviceId, DeviceRecord> := map[];
      var newRoles: map<R.RoleKey, DeviceId> := map[];
      var newNamed: map<R.NamedKey, seq<DeviceId>> := map[];
      var i := 0;
      while i < |snapshot|
        invariant 0 <= i <= |snapshot|
        invariant R.LoadFrom(R.Empty(), snapshot) ==
                  R.LoadFrom(R.Registry(newRecords, newRoles, newNamed), snapshot[i..])
        invariant State() == old(State())
      {
        var record := snapshot[i];
        R.LoadStep(R.Registry(newRecords, newRoles, newNamed), snapshot, i);
        if record.device in newRecords {
          return Failure(R.DuplicateDevice);
        }
        if record.dcdwLabel.Some? {
          var key := (record.schoolId, record.dcdwLabel.value);
          if key in newRoles {
            return Failure(R.RoleConflict);
          }
          newRoles := newRoles[key := record.device];
          var nameKey := (record.schoolName, record.dcdwLabel.value);
          var ids := if nameKey in newNamed then newNamed[nameKey] else [];
          newNamed := newNamed[nameKey := ids + [record.device]];
        }
        newRecords := newRecords[record.device := record];
        i := i + 1;
      }
      R.LoadDone(R.Registry(newRecords, newRoles, newNamed), snapshot);
      records, roles, named := newRecords, newRoles, newNamed;
      return Result.Success(());
    }

    /** The part of a registration about the label: what it gives up, what it takes, and what is refused. */
    method ChooseLabel(registration: Registration)
      returns (diagnostics: seq<R.Diagnostic>, oldRole: Option<R.RoleKey>, newRole: Option<R.RoleKey>, dcdwLabel: Option<string>)
      requires registration.device in records
      ensures diagnostics == R.RegistrationDiagnostics(State(), registration)
      ensures (oldRole, newRole) == R.RolesMoved(State(), registration)
      ensures dcdwLabel == R.LabelAfter(State(), registration)
    {
      var record := records[registration.device];
      diagnostics, oldRole, newRole, dcdwLabel := [], None, None, record.dcdwLabel;
      if registration.schoolName.Some? && registration.schoolName.value != record.schoolName {
        diagnostics := diagnostics + [R.SchoolChangeRefused];
      }
      if registration.dcdwLabel.Some? && registration.dcdwLabel != record.dcdwLabel {
        var candidate := (record.schoolId, registration.dcdwLabel.value);
        if candidate in roles && roles[candidate] != record.device {
          diagnostics := diagnostics + [R.LabelConflictRefused];
        } else {
          if record.dcdwLabel.Some? {
            oldRole := Some((record.schoolId, record.dcdwLabel.value));
          }
          dcdwLabel := registration.dcdwLabel;
          if candidate !in roles {
            newRole := Some(candidate);
          }
        }
      }
    }

    method ApplyRegistration(registration: Registration, at: Time) returns (result: Result<R.Mutation, R.Refusal>)
      requires Valid()
      modifies this
      ensures Valid()
      ensures match R.ApplyRegistration(old(State()), registration, at)
              case Failure(refusal) => result == Failure(refusal) && State() == old(State())
              case Success((after, mutation)) => result == Result.Success(mutation) && State() == after
      ensures result.Success? ==>
                registration.device in old(records) &&
                R.IsRegisteredAs(old(records)[registration.device], registration, at, result.value)
    {
      R.RegistrationStores(State(), registration, at);
      hide R.IsRegisteredAs;
      if R.ApplyRegistration(State(), registration, at).Success? {
        R.RegistrationKeeps(State(), registration, at);
      }
      R.KeyedByDevice(State());
      hide R.Coherent, R.AskedLabel, R.Relabel, R.LabelAfter, R.RolesMoved, R.RegistrationDiagnostics;
      if registration.device !in records {
        return Failure(R.UnknownDevice);
      }
      var record := records[registration.device];
      if record.deviceType != registration.deviceType {
        return Failure(R.DeviceTypeMismatch);
      }
      R.RegistrationSplits(State(), registration, at);
      hide R.ApplyRegistration;
      var diagnostics, oldRole, newRole, dcdwLabel := ChooseLabel(registration);
      var updated := record.(dcdwLabel := dcdwLabel);
      if registration.capabilities.Some? {
        updated := updated.(capabilities := registration.capabilities);
      }
      if registration.product.Some? {
        updated := updated.(product := registration.product);
      }
      if registration.version.Some? {
        updated := updated.(version := registration.version);
      }
      updated := updated.(status := if registration.online then Online else Offline);
      if registration.online {
        updated := updated.(lastSeen := Some(at));
      }
      updated := updated.(revision := updated.revision + 1);
      assert updated == R.Registered(record, registration, dcdwLabel, at);
      hide R.Registered;
      var mutation := R.Mutation(updated, if registration.online then R.RegistrationOnline else R.RegistrationOffline,
                                 record.status != updated.status, diagnostics);
      Swap(record, updated, oldRole, newRole);
      return Result.Success(mutation);
    }

    /** The record and both indexes are exchanged together. */
    method Swap(record: DeviceRecord, updated: DeviceRecord, oldRole: Option<R.RoleKey>, newRole: Option<R.RoleKey>)
      modifies this
      ensures records == old(records)[record.device := updated]
      ensures named == var removed := if oldRole.Some? then R.RemoveNamedRole(old(named), record) else old(named);
                       if newRole.Some? then R.AddNamedRole(removed, updated) else removed
      ensures roles == var added := if newRole.Some? then old(roles)[newRole.value := record.device] else old(roles);
                       if oldRole.Some? then added - {oldRole.value} else added
    {
      if oldRole.Some? {
        RemoveNamedRole(record);
      }
      if newRole.Some? {
        roles := roles[newRole.value := record.device];
      }
      records := records[record.device := updated];
      if newRole.Some? {
        AddNamedRole(updated);
      }
      if oldRole.Some? {
        roles := roles - {oldRole.value};
      }
    }

    method ApplyTelemetry(device: DeviceId, report: Report, at: Time) returns (result: Result<R.Mutation, R.Refusal>)
      requires Valid()
      modifies this
      ensures Valid()
      ensures match R.ApplyTelemetry(old(State()), device, report, at)
              case Failure(refusal) => result == Failure(refusal) && State() == old(State())
              case Success((after, mutation)) => result == Result.Success(mutation) && State() == after
      ensures result.Success? ==> device in old(records) && R.IsReportedAs(old(records)[device], report, at, result.value)
    {
      R.TelemetryStores(State(), device, report, at);
      hide R.IsReportedAs;
      if R.ApplyTelemetry(State(), device, report, at).Success? {
        R.TelemetryKeeps(State(), device, report, at);
      }
      if device !in records {
        return Failure(R.UnknownDevice);
      }
      var record := records[device];
      assert record.device == device;
      hide R.Coherent;
      if report.deviceType.Some? && report.deviceType.value != record.deviceType {
        return Failure(R.DeviceTypeMismatch);
      }
      var updated := record.(status := Online, lastSeen := Some(at), telemetry := Some(report.payload),
                             telemetryAt := Some(at), revision := record.revision + 1);
      var diagnostics := [];
      var newRole: Option<R.RoleKey> := None;
      if record.dcdwLabel.None? && report.dcdwLabel.Some? {
        var candidate := (record.schoolId, report.dcdwLabel.value);
        if candidate in roles && roles[candidate] != record.device {
          diagnostics := [R.LabelConflictRefused];
        } else {
          updated := updated.(dcdwLabel := report.dcdwLabel);
          if candidate !in roles {
            newRole := Some(candidate);
          }
        }
      }
      var mutation := R.Mutation(updated, R.TelemetryReceived, record.status != updated.status, diagnostics);
      Swap(record, updated, None, newRole);
      return Result.Success(mutation);
    }

    method FindInactive(now: Time, timeout: nat) returns (expired: seq<DeviceId>)
      ensures NoDuplicates(expired)
      ensures forall d :: d in expired <==> d in records && R.IsInactive(records[d], now, timeout)
    {
      expired := [];
      var todo := records.Keys;
      while todo != {}
        invariant todo <= records.Keys
        invariant forall d :: d in expired <==> d in records && d !in todo && R.IsInactive(records[d], now, timeout)
        invariant NoDuplicates(expired)
        decreases todo
      {
        var device :| device in todo;
        todo := todo - {device};
        if R.IsInactive(records[device], now, timeout) {
          expired := expired + [device];
        }
      }
    }

    method Expire(device: DeviceId) returns (mutation: R.Mutation)
      requires device in records
      modifies this`records
      ensures records == old(records)[device := R.Expired(old(records)[device])]
      ensures mutation == R.ExpiryOf(old(records)[device])
    {
      var replacement := records[device].(status := Offline);
      replacement := replacement.(revision := replacement.revision + 1);
      mutation := R.Mutation(replacement, R.ActivityTimeout, true, []);
      records := records[device := replacement];
    }

    /** Every inactive device goes offline, one mutation each. */
    method ExpireInactive(now: Time, timeout: nat) returns (mutations: seq<R.Mutation>, ghost order: seq<DeviceId>)
      requires Valid()
      modifies this`records
      ensures Valid() && State() == R.ExpireInactive(old(State()), now, timeout)
      ensures R.Expires(old(State()), now, timeout, order, mutations)
    {
      R.ExpiryKeeps(State(), now, timeout);
      hide R.Coherent;
      var expired := FindInactive(now, timeout);
      order := expired;
      mutations := [];
      hide R.IsInactive, R.Expired, R.ExpiryOf, R.ExpiredSoFar, R.ExpireInactive, R.Expires;
      assert R.ExpiredSoFar(State(), records, order, mutations, 0) by {
        R.ExpireStart(State(), order);
      }
      var i := 0;
      while i < |expired|
        invariant 0 <= i <= |expired|
        invariant R.ExpiredSoFar(old(State()), records, order, mutations, i)
      {
        R.ExpireNext(old(State()), records, order, mutations, i);
        var mutation := Expire(expired[i]);
        mutations := mutations + [mutation];
        i := i + 1;
      }
      R.ExpireDone(old(State()), now, timeout, records, order, mutations);
    }

    method AddProvisioned(record: DeviceRecord) returns (result: Result<(), R.Refusal>)
      requires Valid()
      modifies this
      ensures Valid()
      ensures match R.AddProvisioned(old(State()), record)
              case Failure(refusal) => result == Failure(refusal) && State() == old(State())
              case Success(after) => result == Result.Success(()) && State() == after
    {
      R.LoadOneKeeps(State(), record);
      hide R.Coherent;
      if record.device in records {
        return Failure(R.DuplicateDevice);
      }
      if record.dcdwLabel.Some? {
        var key := (record.schoolId, record.dcdwLabel.value);
        if key in roles {
          return Failure(R.RoleConflict);
        }
        roles := roles[key := record.device];
      }
      records := records[record.device := record];
      AddNamedRole(record);
      return Result.Success(());
    }

    function Find(device: DeviceId): (found: Option<DeviceRecord>)
      reads this
      ensures found == R.Find(State(), device)
    {
      if device in records then Some(records[device]) else None
    }

    /** The only device of the school with that label. */
    function FindBySchoolAndLabel(schoolId: int, dcdwLabel: string): (found: Option<DeviceRecord>)
      requires Valid()
      reads this
      ensures forall d :: d in records ==>
                (found == Some(records[d]) <==> R.RoleOf(records[d]) == Some((schoolId, dcdwLabel)))
      ensures found.None? <==> forall d :: d in records ==> R.RoleOf(records[d]) != Some((schoolId, dcdwLabel))
    {
      R.RoleLookupIsScan(State(), schoolId, dcdwLabel);
      if (schoolId, dcdwLabel) in roles then Find(roles[(schoolId, dcdwLabel)]) else None
    }

    /** The device with that label in schools of that name, when a scan of all records finds exactly one. */
    function FindBySchoolNameAndLabel(schoolName: string, dcdwLabel: string): (found: Option<DeviceRecord>)
      requires Valid()
      reads this
      ensures found.Some? <==> |R.Holders(State(), schoolName, dcdwLabel)| == 1
      ensures forall d :: d in records ==>
                (found == Some(records[d]) <==> R.Holders(State(), schoolName, dcdwLabel) == {d})
    {
      R.NameLookupIsScan(State(), schoolName, dcdwLabel);
      var key := (schoolName, dcdwLabel);
      if key !in named || |named[key]| != 1 then None else Find(named[key][0])
    }

    predicate IsSchoolNameAndLabelAmbiguous(schoolName: string, dcdwLabel: string)
      requires Valid()
      reads this
      ensures IsSchoolNameAndLabelAmbiguous(schoolName, dcdwLabel) <==> |R.Holders(State(), schoolName, dcdwLabel)| > 1
    {
      R.NameLookupIsScan(State(), schoolName, dcdwLabel);
      (schoolName, dcdwLabel) in named && |named[(schoolName, dcdwLabel)]| > 1
    }
  }
}
