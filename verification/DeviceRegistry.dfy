/**
 The device directory: records by device id, and two indexes by label. One index is keyed by school
 id and names the only holder; the other is keyed by school name and lists all holders.
 */
module DeviceRegistry {
  import opened Wrappers
  import opened Collections
  import opened DeviceTypes

  type RoleKey = (int, string)
  type NamedKey = (string, string)

  datatype Registry = Registry(
    records: map<DeviceId, DeviceRecord>,
    roles: map<RoleKey, DeviceId>,
    named: map<NamedKey, seq<DeviceId>>)

  datatype Reason =
    | RegistrationOnline
    | RegistrationOffline
    | TelemetryReceived
    | ActivityTimeout
    | Recovery

  /** A part of a request that was refused while the rest was applied. */
  datatype Diagnostic = SchoolChangeRefused | LabelConflictRefused

  datatype Mutation = Mutation(
    record: DeviceRecord,
    reason: Reason,
    statusChanged: bool,
    diagnostics: seq<Diagnostic>)

  datatype Refusal =
    | UnknownDevice
    | DeviceTypeMismatch
    | DuplicateDevice
    | RoleConflict

  // ---------------------------------------------------------------- what the indexes stand for

  function RoleOf(record: DeviceRecord): Option<RoleKey> {
    if record.dcdwLabel.Some? then Some((record.schoolId, record.dcdwLabel.value)) else None
  }

  function NamedRoleOf(record: DeviceRecord): Option<NamedKey> {
    if record.dcdwLabel.Some? then Some((record.schoolName, record.dcdwLabel.value)) else None
  }

  predicate Holds(records: map<DeviceId, DeviceRecord>, id: DeviceId, key: NamedKey) {
    id in records && NamedRoleOf(records[id]) == Some(key)
  }

  ghost predicate RolesExact(records: map<DeviceId, DeviceRecord>, roles: map<RoleKey, DeviceId>) {
    && (forall d :: d in records && RoleOf(records[d]).Some? ==>
          RoleOf(records[d]).value in roles && roles[RoleOf(records[d]).value] == d)
    && (forall k :: k in roles ==> roles[k] in records && RoleOf(records[roles[k]]) == Some(k))
  }

  ghost predicate NamedEntryExact(records: map<DeviceId, DeviceRecord>, key: NamedKey, ids: seq<DeviceId>) {
    ids != [] && NoDuplicates(ids) && forall d :: d in ids <==> Holds(records, d, key)
  }

  ghost predicate NamedExact(records: map<DeviceId, DeviceRecord>, named: map<NamedKey, seq<DeviceId>>) {
    && (forall k :: k in named ==> NamedEntryExact(records, k, named[k]))
    && (forall d :: d in records && NamedRoleOf(records[d]).Some? ==> NamedRoleOf(records[d]).value in named)
  }

  /** Both indexes are exactly the inverse of the labelled records. */
  ghost predicate Coherent(r: Registry) {
    && (forall d :: d in r.records ==> r.records[d].device == d)
    && RolesExact(r.records, r.roles)
    && NamedExact(r.records, r.named)
  }

  // ---------------------------------------------------------------- index updates

  function Without(ids: seq<DeviceId>, id: DeviceId): (rest: seq<DeviceId>)
    ensures forall d :: d in rest <==> d in ids && d != id
  {
    if ids == [] then []
    else if ids[0] == id then Without(ids[1..], id)
    else [ids[0]] + Without(ids[1..], id)
  }

  function AddNamedRole(named: map<NamedKey, seq<DeviceId>>, record: DeviceRecord): map<NamedKey, seq<DeviceId>> {
    if record.dcdwLabel.None? then named
    else
      var key := (record.schoolName, record.dcdwLabel.value);
      named[key := (if key in named then named[key] else []) + [record.device]]
  }

  function RemoveNamedRole(named: map<NamedKey, seq<DeviceId>>, record: DeviceRecord): map<NamedKey, seq<DeviceId>> {
    if record.dcdwLabel.None? || (record.schoolName, record.dcdwLabel.value) !in named then named
    else
      var key := (record.schoolName, record.dcdwLabel.value);
      var rest := Without(named[key], record.device);
      if rest == [] then named - {key} else named[key := rest]
  }

  // ---------------------------------------------------------------- operations

  function Empty(): Registry {
    Registry(map[], map[], map[])
  }

  /** One record of a snapshot added to the maps under construction. */
  function LoadOne(r: Registry, record: DeviceRecord): Result<Registry, Refusal> {
    if record.device in r.records then Failure(DuplicateDevice)
    else if record.dcdwLabel.Some? && (record.schoolId, record.dcdwLabel.value) in r.roles then Failure(RoleConflict)
    else
      Success(Registry(
        r.records[record.device := record],
        if record.dcdwLabel.Some? then r.roles[(record.schoolId, record.dcdwLabel.value) := record.device] else r.roles,
        AddNamedRole(r.named, record)))
  }

  function LoadFrom(r: Registry, records: seq<DeviceRecord>): Result<Registry, Refusal>
    decreases records
  {
    if records == [] then Success(r)
    else
      match LoadOne(r, records[0])
      case Failure(refusal) => Failure(refusal)
      case Success(next) => LoadFrom(next, records[1..])
  }

  function AddProvisioned(r: Registry, record: DeviceRecord): Result<Registry, Refusal> {
    LoadOne(r, record)
  }

  function Registered(record: DeviceRecord, registration: Registration, dcdwLabel: Option<string>, at: Time): DeviceRecord {
    record.(dcdwLabel := dcdwLabel,
            capabilities := if registration.capabilities.Some? then registration.capabilities else record.capabilities,
            product := if registration.product.Some? then registration.product else record.product,
            version := if registration.version.Some? then registration.version else record.version,
            status := if registration.online then Online else Offline,
            lastSeen := if registration.online then Some(at) else record.lastSeen,
            revision := record.revision + 1)
  }

  /** Whether the registration asks for another label, and whether another device of the school holds it. */
  function AskedLabel(r: Registry, registration: Registration): (Option<string>, bool)
    requires registration.device in r.records
  {
    var record := r.records[registration.device];
    if registration.dcdwLabel.None? || registration.dcdwLabel == record.dcdwLabel then (None, false)
    else
      var key := (record.schoolId, registration.dcdwLabel.value);
      if key in r.roles && r.roles[key] != record.device then (None, true) else (registration.dcdwLabel, false)
  }

  function ApplyRegistration(r: Registry, registration: Registration, at: Time): Result<(Registry, Mutation), Refusal> {
    if registration.device !in r.records then Failure(UnknownDevice)
    else if r.records[registration.device].deviceType != registration.deviceType then Failure(DeviceTypeMismatch)
    else
      var record := r.records[registration.device];
      var (asked, conflict) := AskedLabel(r, registration);
      var updated := Registered(record, registration, if asked.Some? then asked else record.dcdwLabel, at);
      var diagnostics :=
        (if registration.schoolName.Some? && registration.schoolName.value != record.schoolName
         then [SchoolChangeRefused] else []) +
        (if conflict then [LabelConflictRefused] else []);
      var mutation := Mutation(updated, if registration.online then RegistrationOnline else RegistrationOffline,
                               record.status != updated.status, diagnostics);
      Success((Relabel(r, record, updated, asked), mutation))
  }

  /** The parts a registration is put together from: what was refused, the roles given up and taken, the label after it. */
  function RegistrationDiagnostics(r: Registry, registration: Registration): seq<Diagnostic>
    requires registration.device in r.records
  {
    (if registration.schoolName.Some? && registration.schoolName.value != r.records[registration.device].schoolName
     then [SchoolChangeRefused] else []) +
    (if AskedLabel(r, registration).1 then [LabelConflictRefused] else [])
  }

  function RolesMoved(r: Registry, registration: Registration): (Option<RoleKey>, Option<RoleKey>)
    requires registration.device in r.records
  {
    var record := r.records[registration.device];
    var asked := AskedLabel(r, registration).0;
    (if asked.Some? then RoleOf(record) else None,
     if asked.Some? && (record.schoolId, asked.value) !in r.roles then Some((record.schoolId, asked.value)) else None)
  }

  function LabelAfter(r: Registry, registration: Registration): Option<string>
    requires registration.device in r.records
  {
    var asked := AskedLabel(r, registration).0;
    if asked.Some? then asked else r.records[registration.device].dcdwLabel
  }

  /** The registry after its record and both indexes were exchanged. */
  function Exchanged(r: Registry, record: DeviceRecord, updated: DeviceRecord, oldRole: Option<RoleKey>,
                     newRole: Option<RoleKey>): Registry {
    var named := if oldRole.Some? then RemoveNamedRole(r.named, record) else r.named;
    var roles := if newRole.Some? then r.roles[newRole.value := record.device] else r.roles;
    Registry(r.records[record.device := updated],
             if oldRole.Some? then roles - {oldRole.value} else roles,
             if newRole.Some? then AddNamedRole(named, updated) else named)
  }

  /** Stores `updated` for `record`; `asked` is the label it takes over, if any. */
  function Relabel(r: Registry, record: DeviceRecord, updated: DeviceRecord, asked: Option<string>): Registry {
    Exchanged(r, record, updated,
              if asked.Some? then RoleOf(record) else None,
              if asked.Some? && (record.schoolId, asked.value) !in r.roles then Some((record.schoolId, asked.value)) else None)
  }

  lemma RegistrationSplits(r: Registry, registration: Registration, at: Time)
    requires registration.device in r.records
    requires r.records[registration.device].deviceType == registration.deviceType
    ensures var record := r.records[registration.device];
            var updated := Registered(record, registration, LabelAfter(r, registration), at);
            var (oldRole, newRole) := RolesMoved(r, registration);
            ApplyRegistration(r, registration, at) ==
              Success((Exchanged(r, record, updated, oldRole, newRole),
                       Mutation(updated, if registration.online then RegistrationOnline else RegistrationOffline,
                                record.status != updated.status, RegistrationDiagnostics(r, registration))))
  {
  }

  function ApplyTelemetry(r: Registry, device: DeviceId, report: Report, at: Time):
    Result<(Registry, Mutation), Refusal>
  {
    if device !in r.records then Failure(UnknownDevice)
    else if report.deviceType.Some? && report.deviceType.value != r.records[device].deviceType then
      Failure(DeviceTypeMismatch)
    else
      var record := r.records[device];
      var wants := record.dcdwLabel.None? && report.dcdwLabel.Some?;
      var conflict := wants && (record.schoolId, report.dcdwLabel.value) in r.roles &&
                      r.roles[(record.schoolId, report.dcdwLabel.value)] != record.device;
      var asked := if wants && !conflict then report.dcdwLabel else None;
      var updated := record.(status := Online, lastSeen := Some(at), telemetry := Some(report.payload),
                             telemetryAt := Some(at), revision := record.revision + 1,
                             dcdwLabel := if asked.Some? then asked else record.dcdwLabel);
      var mutation := Mutation(updated, TelemetryReceived, record.status != updated.status,
                               if conflict then [LabelConflictRefused] else []);
      Success((Relabel(r, record, updated, asked), mutation))
  }

  predicate IsInactive(record: DeviceRecord, now: Time, timeout: nat) {
    record.status.Online? && record.lastSeen.Some? && now - record.lastSeen.value >= timeout
  }

  function Expired(record: DeviceRecord): DeviceRecord {
    record.(status := Offline, revision := record.revision + 1)
  }

  function ExpiryOf(record: DeviceRecord): Mutation {
    Mutation(Expired(record), ActivityTimeout, true, [])
  }

  function ExpireInactive(r: Registry, now: Time, timeout: nat): Registry {
    r.(records := map d | d in r.records ::
         if IsInactive(r.records[d], now, timeout) then Expired(r.records[d]) else r.records[d])
  }

  /** One mutation for each inactive device, in the order of `order`. */
  ghost predicate Expires(r: Registry, now: Time, timeout: nat, order: seq<DeviceId>, mutations: seq<Mutation>) {
    && NoDuplicates(order) && |mutations| == |order|
    && (forall d :: d in order <==> d in r.records && IsInactive(r.records[d], now, timeout))
    && (forall k :: 0 <= k < |order| ==> mutations[k] == ExpiryOf(r.records[order[k]]))
  }

  /** The first `count` of the devices to expire are done. */
  ghost predicate ExpiredSoFar(r: Registry, records: map<DeviceId, DeviceRecord>, order: seq<DeviceId>,
                               mutations: seq<Mutation>, count: nat) {
    && count <= |order| && |mutations| == count && records.Keys == r.records.Keys
    && (forall k :: 0 <= k < |order| ==> order[k] in r.records)
    && (forall k :: 0 <= k < count ==>
          mutations[k] == ExpiryOf(r.records[order[k]]) && records[order[k]] == Expired(r.records[order[k]]))
    && (forall k :: count <= k < |order| ==> records[order[k]] == r.records[order[k]])
    && (forall d :: d in records && d !in order ==> records[d] == r.records[d])
  }

  lemma ExpireStart(r: Registry, order: seq<DeviceId>)
    requires forall d :: d in order ==> d in r.records
    ensures ExpiredSoFar(r, r.records, order, [], 0)
  {
  }

  lemma ExpireNext(r: Registry, records: map<DeviceId, DeviceRecord>, order: seq<DeviceId>, mutations: seq<Mutation>,
                   count: nat)
    requires ExpiredSoFar(r, records, order, mutations, count) && count < |order| && NoDuplicates(order)
    ensures order[count] in records && records[order[count]] == r.records[order[count]]
    ensures ExpiredSoFar(r, records[order[count] := Expired(records[order[count]])], order,
                         mutations + [ExpiryOf(records[order[count]])], count + 1)
  {
    hide Expired, ExpiryOf;
  }

  lemma ExpireDone(r: Registry, now: Time, timeout: nat, records: map<DeviceId, DeviceRecord>, order: seq<DeviceId>,
                   mutations: seq<Mutation>)
    requires ExpiredSoFar(r, records, order, mutations, |order|) && NoDuplicates(order)
    requires forall d :: d in order <==> d in r.records && IsInactive(r.records[d], now, timeout)
    ensures ExpireInactive(r, now, timeout) == r.(records := records) && Expires(r, now, timeout, order, mutations)
  {
    hide Expired, ExpiryOf;
  }

  // ---------------------------------------------------------------- queries

  function Find(r: Registry, device: DeviceId): Option<DeviceRecord> {
    if device in r.records then Some(r.records[device]) else None
  }

  function FindBySchoolAndLabel(r: Registry, schoolId: int, dcdwLabel: string): Option<DeviceRecord> {
    if (schoolId, dcdwLabel) in r.roles then Find(r, r.roles[(schoolId, dcdwLabel)]) else None
  }

  function FindBySchoolNameAndLabel(r: Registry, schoolName: string, dcdwLabel: string): Option<DeviceRecord> {
    var key := (schoolName, dcdwLabel);
    if key !in r.named || |r.named[key]| != 1 then None else Find(r, r.named[key][0])
  }

  predicate IsAmbiguous(r: Registry, schoolName: string, dcdwLabel: string) {
    (schoolName, dcdwLabel) in r.named && |r.named[(schoolName, dcdwLabel)]| > 1
  }

  // ---------------------------------------------------------------- every operation keeps the indexes exact

  lemma WithoutFacts(ids: seq<DeviceId>, id: DeviceId)
    requires NoDuplicates(ids)
    ensures NoDuplicates(Without(ids, id))
  {
    if ids != [] {
      WithoutFacts(ids[1..], id);
      assert ids[0] !in ids[1..];
      assert ids[0] !in Without(ids[1..], id);
    }
  }

  lemma AddNamedExact(records: map<DeviceId, DeviceRecord>, named: map<NamedKey, seq<DeviceId>>, record: DeviceRecord)
    requires NamedExact(records, named) && record.device !in records
    ensures NamedExact(records[record.device := record], AddNamedRole(named, record))
  {
    var (after, index) := (records[record.device := record], AddNamedRole(named, record));
    forall k | k in index ensures NamedEntryExact(after, k, index[k]) {
      assert k in named ==> NamedEntryExact(records, k, named[k]) && !Holds(records, record.device, k);
      forall d ensures d in index[k] <==> Holds(after, d, k) {
        assert Holds(records, d, k) ==> k in named;
      }
      assert k in named ==> record.device !in named[k];
    }
  }

  lemma RemoveNamedExact(records: map<DeviceId, DeviceRecord>, named: map<NamedKey, seq<DeviceId>>, id: DeviceId)
    requires NamedExact(records, named) && id in records && records[id].device == id
    ensures NamedExact(records - {id}, RemoveNamedRole(named, records[id]))
  {
    var (after, index) := (records - {id}, RemoveNamedRole(named, records[id]));
    forall k | k in index ensures NamedEntryExact(after, k, index[k]) {
      assert NamedEntryExact(records, k, named[k]);
      WithoutFacts(named[k], id);
      forall d ensures d in index[k] <==> Holds(after, d, k) {
        assert d in named[k] <==> Holds(records, d, k);
      }
    }
    forall d | d in after && NamedRoleOf(after[d]).Some? ensures NamedRoleOf(after[d]).value in index {
      var k := NamedRoleOf(records[d]).value;
      assert k in named && d in named[k];
      assert d in Without(named[k], id);
    }
  }

  lemma SameRolesExact(r: Registry, id: DeviceId, updated: DeviceRecord)
    requires Coherent(r) && id in r.records && updated.device == id
    requires RoleOf(updated) == RoleOf(r.records[id]) && NamedRoleOf(updated) == NamedRoleOf(r.records[id])
    ensures Coherent(r.(records := r.records[id := updated]))
  {
    var after := r.records[id := updated];
    forall k | k in r.named ensures NamedEntryExact(after, k, r.named[k]) {
      assert NamedEntryExact(r.records, k, r.named[k]);
      forall d ensures d in r.named[k] <==> Holds(after, d, k) {
        assert d in r.named[k] <==> Holds(r.records, d, k);
      }
    }
  }

  lemma RelabelExact(r: Registry, updated: DeviceRecord, asked: Option<string>)
    requires Coherent(r) && updated.device in r.records
    requires var record := r.records[updated.device];
             && updated.schoolId == record.schoolId && updated.schoolName == record.schoolName
             && updated.dcdwLabel == (if asked.Some? then asked else record.dcdwLabel)
             && (asked.Some? ==> asked != record.dcdwLabel)
             && (asked.Some? && (record.schoolId, asked.value) in r.roles ==>
                   r.roles[(record.schoolId, asked.value)] == record.device)
    ensures Coherent(Relabel(r, r.records[updated.device], updated, asked))
  {
    var id := updated.device;
    var record := r.records[id];
    if asked.None? {
      SameRolesExact(r, id, updated);
    } else {
      assert (record.schoolId, asked.value) !in r.roles;
      RemoveNamedExact(r.records, r.named, id);
      var removed := RemoveNamedRole(r.named, record);
      if record.dcdwLabel.None? {
        assert removed == r.named;
      }
      AddNamedExact(r.records - {id}, removed, updated);
      assert (r.records - {id})[id := updated] == r.records[id := updated];
    }
  }

  lemma LoadOneKeeps(r: Registry, record: DeviceRecord)
    requires Coherent(r)
    ensures LoadOne(r, record).Success? ==> Coherent(LoadOne(r, record).value)
    ensures LoadOne(r, record).Success? <==>
              record.device !in r.records &&
              forall d :: d in r.records && record.dcdwLabel.Some? ==> RoleOf(r.records[d]) != RoleOf(record)
  {
    if LoadOne(r, record).Success? {
      AddNamedExact(r.records, r.named, record);
    }
  }

  /** Two devices one directory can hold. */
  predicate Compatible(a: DeviceRecord, b: DeviceRecord) {
    a.device != b.device && (RoleOf(a).Some? ==> RoleOf(a) != RoleOf(b))
  }

  ghost predicate Loadable(r: Registry, records: seq<DeviceRecord>) {
    && (forall d, k :: d in r.records && 0 <= k < |records| ==> Compatible(r.records[d], records[k]))
    && (forall k, l :: 0 <= k < l < |records| ==> Compatible(records[k], records[l]))
  }

  /** The records of `r` and all of `records`, and nothing else. */
  ghost predicate HoldsAll(after: Registry, r: Registry, records: seq<DeviceRecord>) {
    && (forall d :: d in r.records ==> d in after.records && after.records[d] == r.records[d])
    && (forall k :: 0 <= k < |records| ==>
          records[k].device in after.records && after.records[records[k].device] == records[k])
    && (forall d :: d in after.records ==> d in r.records || after.records[d] in records)
  }

  /** A snapshot loads exactly when no device id and no label of a school occurs twice, and yields an exact index. */
  lemma {:induction false} LoadKeeps(r: Registry, records: seq<DeviceRecord>)
    requires Coherent(r)
    ensures LoadFrom(r, records).Success? <==> Loadable(r, records)
    ensures LoadFrom(r, records).Success? ==>
              Coherent(LoadFrom(r, records).value) && HoldsAll(LoadFrom(r, records).value, r, records)
    decreases records
  {
    hide Coherent;
    if records != [] {
      LoadOneKeeps(r, records[0]);
      LoadSplits(r, records);
      if LoadOne(r, records[0]).Success? {
        var next := LoadOne(r, records[0]).value;
        LoadKeeps(next, records[1..]);
        if LoadFrom(r, records).Success? {
          HoldsAllSplits(LoadFrom(r, records).value, r, next, records);
        }
      }
    }
  }

  lemma KeyedByDevice(r: Registry)
    requires Coherent(r)
    ensures forall d :: d in r.records ==> r.records[d].device == d
  {
  }

  lemma LoadStep(r: Registry, snapshot: seq<DeviceRecord>, i: nat)
    requires i < |snapshot|
    ensures LoadFrom(r, snapshot[i..]) ==
            match LoadOne(r, snapshot[i])
            case Failure(refusal) => Failure(refusal)
            case Success(next) => LoadFrom(next, snapshot[i + 1..])
  {
    assert snapshot[i..][1..] == snapshot[i + 1..];
  }

  lemma LoadDone(r: Registry, snapshot: seq<DeviceRecord>)
    ensures LoadFrom(r, snapshot[|snapshot|..]) == Success(r)
  {
  }

  lemma LoadSplits(r: Registry, records: seq<DeviceRecord>)
    requires |records| > 0 && Coherent(r)
    ensures Loadable(r, records) ==> LoadOne(r, records[0]).Success?
    ensures LoadOne(r, records[0]).Success? ==>
              (Loadable(r, records) <==> Loadable(LoadOne(r, records[0]).value, records[1..]))
  {
    hide RolesExact, NamedExact;
    LoadOneKeeps(r, records[0]);
    forall d | d in r.records && Loadable(r, records) ensures d != records[0].device {
      assert Compatible(r.records[d], records[0]);
    }
    if LoadOne(r, records[0]).Success? {
      var next := LoadOne(r, records[0]).value;
      var rest := records[1..];
      if Loadable(next, rest) {
        forall d, k | d in r.records && 0 <= k < |records| ensures Compatible(r.records[d], records[k]) {
          assert d in next.records && next.records[d] == r.records[d];
          assert k > 0 ==> records[k] == rest[k - 1];
        }
        forall k, l | 0 <= k < l < |records| ensures Compatible(records[k], records[l]) {
          assert records[l] == rest[l - 1];
          assert next.records[records[0].device] == records[0];
          assert k > 0 ==> records[k] == rest[k - 1];
        }
      }
      if Loadable(r, records) {
        forall d, k | d in next.records && 0 <= k < |rest| ensures Compatible(next.records[d], rest[k]) {
          assert rest[k] == records[k + 1];
        }
      }
    }
  }

  lemma HoldsAllSplits(after: Registry, r: Registry, next: Registry, records: seq<DeviceRecord>)
    requires |records| > 0 && LoadOne(r, records[0]) == Success(next) && HoldsAll(after, next, records[1..])
    ensures HoldsAll(after, r, records)
  {
    forall k | 0 <= k < |records|
      ensures records[k].device in after.records && after.records[records[k].device] == records[k]
    {
      assert k > 0 ==> records[k] == records[1..][k - 1];
      assert records[0].device in next.records;
    }
  }

  lemma RegistrationKeeps(r: Registry, registration: Registration, at: Time)
    requires Coherent(r) && ApplyRegistration(r, registration, at).Success?
    ensures Coherent(ApplyRegistration(r, registration, at).value.0)
  {
    var updated := ApplyRegistration(r, registration, at).value.1.record;
    RelabelExact(r, updated, AskedLabel(r, registration).0);
  }

  lemma TelemetryKeeps(r: Registry, device: DeviceId, report: Report, at: Time)
    requires Coherent(r) && ApplyTelemetry(r, device, report, at).Success?
    ensures Coherent(ApplyTelemetry(r, device, report, at).value.0)
  {
    var record := r.records[device];
    var updated := ApplyTelemetry(r, device, report, at).value.1.record;
    RelabelExact(r, updated, if updated.dcdwLabel != record.dcdwLabel then report.dcdwLabel else None);
  }

  lemma ExpiryKeeps(r: Registry, now: Time, timeout: nat)
    requires Coherent(r)
    ensures Coherent(ExpireInactive(r, now, timeout))
  {
    var after := ExpireInactive(r, now, timeout);
    forall k | k in after.named ensures NamedEntryExact(after.records, k, after.named[k]) {
      assert NamedEntryExact(r.records, k, r.named[k]);
      forall d ensures d in r.named[k] <==> Holds(after.records, d, k) {
        assert d in r.named[k] <==> Holds(r.records, d, k);
      }
    }
  }

  // ---------------------------------------------------------------- the indexes answer like a scan

  /** The devices a scan of all records finds under a school name and a label. */
  function Holders(r: Registry, schoolName: string, dcdwLabel: string): set<DeviceId> {
    set d | d in r.records && Holds(r.records, d, (schoolName, dcdwLabel))
  }

  lemma {:induction false} DistinctCount(ids: seq<DeviceId>, members: set<DeviceId>)
    requires NoDuplicates(ids) && forall d :: d in ids <==> d in members
    ensures |ids| == |members|
    decreases ids
  {
    if ids == [] {
      assert members == {};
    } else {
      DistinctCount(ids[1..], members - {ids[0]});
    }
  }

  lemma HoldersAreListed(r: Registry, schoolName: string, dcdwLabel: string)
    requires Coherent(r)
    ensures var key := (schoolName, dcdwLabel);
            if key in r.named
            then |r.named[key]| == |Holders(r, schoolName, dcdwLabel)| > 0 &&
                 forall d :: d in r.named[key] <==> d in Holders(r, schoolName, dcdwLabel)
            else Holders(r, schoolName, dcdwLabel) == {}
  {
    var key := (schoolName, dcdwLabel);
    if key in r.named {
      assert NamedEntryExact(r.records, key, r.named[key]);
      DistinctCount(r.named[key], Holders(r, schoolName, dcdwLabel));
    } else {
      forall d | d in r.records ensures !Holds(r.records, d, key) {
      }
    }
  }

  /** By school name: the one device a scan finds, nothing when it finds none or several, and several is what ambiguous means. */
  lemma NameLookupIsScan(r: Registry, schoolName: string, dcdwLabel: string)
    requires Coherent(r)
    ensures var holders := Holders(r, schoolName, dcdwLabel);
            && (IsAmbiguous(r, schoolName, dcdwLabel) <==> |holders| > 1)
            && (FindBySchoolNameAndLabel(r, schoolName, dcdwLabel).Some? <==> |holders| == 1)
            && (forall d :: d in r.records ==>
                  (FindBySchoolNameAndLabel(r, schoolName, dcdwLabel) == Some(r.records[d]) <==> holders == {d}))
  {
    HoldersAreListed(r, schoolName, dcdwLabel);
    var holders := Holders(r, schoolName, dcdwLabel);
    var key := (schoolName, dcdwLabel);
    if |holders| == 1 {
      var only := r.named[key][0];
      assert only in holders;
      assert holders == {only} by {
        assert |holders - {only}| == 0;
      }
    }
  }

  /** By school id: exactly the device a scan finds, which is never more than one. */
  lemma RoleLookupIsScan(r: Registry, schoolId: int, dcdwLabel: string)
    requires Coherent(r)
    ensures FindBySchoolAndLabel(r, schoolId, dcdwLabel).None? <==>
              forall d :: d in r.records ==> RoleOf(r.records[d]) != Some((schoolId, dcdwLabel))
    ensures forall d :: d in r.records ==>
              (FindBySchoolAndLabel(r, schoolId, dcdwLabel) == Some(r.records[d]) <==>
               RoleOf(r.records[d]) == Some((schoolId, dcdwLabel)))
  {
  }

  // ---------------------------------------------------------------- what a mutation may change

  /** The groups a mutation asks to store. */
  predicate Flagged(mutation: Mutation, group: Group) {
    match group
    case Metadata => !mutation.reason.TelemetryReceived?
    case Status => !mutation.reason.TelemetryReceived? || mutation.statusChanged
    case Telemetry => mutation.reason.TelemetryReceived?
  }

  /** One revision further, nothing but the flagged groups (and `lastSeen`) changed. */
  predicate Advances(record: DeviceRecord, mutation: Mutation) {
    && mutation.record.device == record.device
    && mutation.record.revision == record.revision + 1
    && mutation.statusChanged == (mutation.record.status != record.status)
    && mutation.record.schoolId == record.schoolId && mutation.record.schoolName == record.schoolName
    && mutation.record.model == record.model && mutation.record.deviceType == record.deviceType
    && forall g: Group :: !Flagged(mutation, g) ==> ContentOf(mutation.record, g) == ContentOf(record, g)
  }

  /** Registration moves exactly its own device one revision on and stores what the mutation says. */
  lemma RegistrationAdvances(r: Registry, registration: Registration, at: Time)
    requires Coherent(r) && ApplyRegistration(r, registration, at).Success?
    ensures var (after, mutation) := ApplyRegistration(r, registration, at).value;
            && Advances(r.records[registration.device], mutation)
            && after.records == r.records[registration.device := mutation.record]
            && (LabelConflictRefused in mutation.diagnostics <==>
                  registration.dcdwLabel.Some? &&
                  exists d :: d in r.records && d != registration.device &&
                    RoleOf(r.records[d]) == Some((r.records[registration.device].schoolId, registration.dcdwLabel.value)))
            && (mutation.record.dcdwLabel ==
                  if registration.dcdwLabel.None? || LabelConflictRefused in mutation.diagnostics
                  then r.records[registration.device].dcdwLabel else registration.dcdwLabel)
  {
  }

  /** Telemetry without a label leaves the metadata alone; ParseTelemetry never supplies one. */
  lemma TelemetryAdvances(r: Registry, device: DeviceId, report: Report, at: Time)
    requires Coherent(r) && ApplyTelemetry(r, device, report, at).Success?
    ensures var (after, mutation) := ApplyTelemetry(r, device, report, at).value;
            && (Advances(r.records[device], mutation) <==> mutation.record.dcdwLabel == r.records[device].dcdwLabel)
            && (report.dcdwLabel.None? ==> Advances(r.records[device], mutation))
            && after.records == r.records[device := mutation.record]
  {
    var mutation := ApplyTelemetry(r, device, report, at).value.1;
    var record := r.records[device];
    if mutation.record.dcdwLabel != record.dcdwLabel {
      assert !Flagged(mutation, Metadata) && ContentOf(mutation.record, Metadata) != ContentOf(record, Metadata);
    }
  }

  lemma ExpiryAdvances(record: DeviceRecord, now: Time, timeout: nat)
    requires IsInactive(record, now, timeout)
    ensures Advances(record, ExpiryOf(record)) && !IsInactive(Expired(record), now, timeout)
  {
  }

  // ---------------------------------------------------------------- what a mutation stores

  /** What a registration leaves: its own words where it has some, the old ones elsewhere. */
  predicate IsRegisteredAs(before: DeviceRecord, registration: Registration, at: Time, mutation: Mutation) {
    var record := mutation.record;
    && (record.status.Online? <==> registration.online)
    && (record.lastSeen == if registration.online then Some(at) else before.lastSeen)
    && (record.capabilities == if registration.capabilities.Some? then registration.capabilities else before.capabilities)
    && (record.product == if registration.product.Some? then registration.product else before.product)
    && (record.version == if registration.version.Some? then registration.version else before.version)
    && record.telemetry == before.telemetry && record.telemetryAt == before.telemetryAt
    && (mutation.reason.RegistrationOnline? <==> registration.online)
    && (mutation.reason.RegistrationOffline? <==> !registration.online)
    && (SchoolChangeRefused in mutation.diagnostics <==>
          registration.schoolName.Some? && registration.schoolName.value != before.schoolName)
  }

  /** A registration is taken exactly from a known device of the right type, and stored as it says. */
  lemma RegistrationStores(r: Registry, registration: Registration, at: Time)
    ensures match ApplyRegistration(r, registration, at)
            case Failure(UnknownDevice) => registration.device !in r.records
            case Failure(DeviceTypeMismatch) =>
              registration.device in r.records && r.records[registration.device].deviceType != registration.deviceType
            case Failure(_) => false
            case Success((after, mutation)) =>
              && registration.device in r.records && r.records[registration.device].deviceType == registration.deviceType
              && IsRegisteredAs(r.records[registration.device], registration, at, mutation)
  {
  }

  /** What telemetry leaves: a device seen online just now, with this payload. */
  predicate IsReportedAs(before: DeviceRecord, report: Report, at: Time, mutation: Mutation) {
    var record := mutation.record;
    && record.status.Online? && record.lastSeen == Some(at)
    && record.telemetry == Some(report.payload) && record.telemetryAt == Some(at)
    && record.capabilities == before.capabilities && record.product == before.product && record.version == before.version
    && mutation.reason.TelemetryReceived? && (mutation.statusChanged <==> before.status.Offline?)
    && record.dcdwLabel == (if before.dcdwLabel.None? && LabelConflictRefused !in mutation.diagnostics then report.dcdwLabel
                            else before.dcdwLabel)
  }

  /** Telemetry is taken exactly from a known device that does not claim another type. */
  lemma TelemetryStores(r: Registry, device: DeviceId, report: Report, at: Time)
    ensures match ApplyTelemetry(r, device, report, at)
            case Failure(UnknownDevice) => device !in r.records
            case Failure(DeviceTypeMismatch) =>
              device in r.records && report.deviceType.Some? && report.deviceType.value != r.records[device].deviceType
            case Failure(_) => false
            case Success((after, mutation)) =>
              && device in r.records && (report.deviceType.Some? ==> report.deviceType.value == r.records[device].deviceType)
              && IsReportedAs(r.records[device], report, at, mutation)
  {
    hide Relabel;
  }

  /** Exactly the online devices not seen for `timeout` go offline, one revision further; all else stays. */
  lemma ExpiryStores(r: Registry, now: Time, timeout: nat, device: DeviceId)
    requires device in r.records
    ensures var (before, after) := (r.records[device], ExpireInactive(r, now, timeout).records[device]);
            if before.status.Online? && before.lastSeen.Some? && before.lastSeen.value + timeout <= now
            then after == before.(status := Offline, revision := before.revision + 1)
            else after == before
    ensures var mutation := ExpiryOf(r.records[device]);
            mutation.reason.ActivityTimeout? && mutation.record.status.Offline? && mutation.statusChanged
  {
  }
}
