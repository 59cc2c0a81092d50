/** The in-memory machine and vibration-record tables behind the REST
    endpoints: create, read, partial update and delete with a 404 on an
    unknown id. Fresh ids (`uuid4`) and clock readings (`utcnow`) are
    parameters. */
module Machines {
  import opened Common

  /** A table keyed by id, as a Python dict: the entries and their insertion order. */
  datatype Table<T> = Table(entries: map<string, T>, order: seq<string>)

  /** The order holds every key exactly once. */
  ghost predicate TableValid<T>(t: Table<T>) {
    && Distinct(t.order)
    && (forall k :: k in t.entries <==> k in t.order)
  }

  function EmptyTable<T>(): (t: Table<T>)
    ensures TableValid(t)
  {
    Table(map[], [])
  }

  /** `db[k] = v`: a new key goes to the end, an existing key keeps its place. */
  function Put<T>(t: Table<T>, k: string, v: T): (r: Table<T>)
    requires TableValid(t)
    ensures TableValid(r)
    ensures r.entries == t.entries[k := v]
    ensures k in t.entries ==> r.order == t.order
    ensures k !in t.entries ==> r.order == t.order + [k]
  {
    if k in t.order then Table(t.entries[k := v], t.order)
    else Table(t.entries[k := v], t.order + [k])
  }

  /** No element occurs twice. */
  predicate Distinct(s: seq<string>) {
    forall i, j :: 0 <= i < j < |s| ==> s[i] != s[j]
  }
  /** The order with `k` taken out, the others left in place. */
  function Without(order: seq<string>, k: string): seq<string> {
    Filter(order, (x: string) => x != k)
  }

  lemma {:induction false} WithoutDistinct(order: seq<string>, k: string)
    requires Distinct(order)
    ensures Distinct(Without(order, k))
  {
    if order != [] {
      var tail := order[1..];
      assert Distinct(tail) by {
        forall i, j | 0 <= i < j < |tail| ensures tail[i] != tail[j] {
          assert tail[i] == order[i + 1] && tail[j] == order[j + 1];
        }
      }
      WithoutDistinct(tail, k);
      var rest := Without(tail, k);
      if order[0] != k {
        assert order[0] !in tail by {
          forall j | 0 <= j < |tail| ensures tail[j] != order[0] {
            assert tail[j] == order[j + 1];
          }
        }
        assert order[0] !in rest;
        var r := [order[0]] + rest;
        assert order[1..] == tail;
        assert r == Without(order, k);
        forall i, j | 0 <= i < j < |r| ensures r[i] != r[j] {
          assert r[j] == rest[j - 1];
          if i == 0 {
            assert r[0] == order[0];
            assert rest[j - 1] in rest;
          } else {
            assert r[i] == rest[i - 1];
          }
        }
      }
    }
  }
  /** `del db[k]` */
  function Remove<T>(t: Table<T>, k: string): (r: Table<T>)
    requires TableValid(t)
    ensures TableValid(r)
    ensures r.entries == t.entries - {k}
    ensures r.order == Filter(t.order, (x: string) => x != k)
  {
    WithoutDistinct(t.order, k);
    var order := Without(t.order, k);
    assert forall x :: x in t.entries - {k} <==> x in order;
    Table(t.entries - {k}, order)
  }

  /** `list(db.values())`, in insertion order. */
  function Values<T>(t: Table<T>): (vs: seq<T>)
    requires TableValid(t)
    ensures |vs| == |t.order| && forall i :: 0 <= i < |t.order| ==> vs[i] == t.entries[t.order[i]]
  {
    seq(|t.order|, i requires 0 <= i < |t.order| => t.entries[t.order[i]])
  }

  /** The error a handler raises: `HTTPException(status_code, detail)`. */
  datatype HttpError = HttpError(statusCode: int, detail: string)

  type Timestamp = int

  /** The fields of `MachineBase`, as a create request carries them. */
  datatype MachineFields = MachineFields(
    name: string,
    machineType: string,
    manufacturer: Option<string>,
    model: Option<string>,
    serialNumber: Option<string>,
    installationDate: Option<string>,
    location: Option<string>,
    status: string,
    rpmNominal: Option<int>,
    powerKw: Option<real>,
    description: Option<string>)

  datatype Machine = Machine(id: string, fields: MachineFields, createdAt: Timestamp, updatedAt: Timestamp)

  /** One `(field, value)` pair of `machine.dict(exclude_unset=True)`. */
  datatype FieldAssignment =
    | SetName(name: string)
    | SetType(machineType: string)
    | SetManufacturer(manufacturer: Option<string>)
    | SetModel(model: Option<string>)
    | SetSerialNumber(serialNumber: Option<string>)
    | SetInstallationDate(installationDate: Option<string>)
    | SetLocation(location: Option<string>)
    | SetStatus(status: string)
    | SetRpmNominal(rpmNominal: Option<int>)
    | SetPowerKw(powerKw: Option<real>)
    | SetDescription(description: Option<string>)

  /** A partial update: `Unset` for a field the request leaves unset. */
  datatype Patch<T> = Unset | Given(value: T)

  datatype MachineUpdate = MachineUpdate(
    name: Patch<string>,
    machineType: Patch<string>,
    manufacturer: Patch<Option<string>>,
    model: Patch<Option<string>>,
    serialNumber: Patch<Option<string>>,
    installationDate: Patch<Option<string>>,
    location: Patch<Option<string>>,
    status: Patch<string>,
    rpmNominal: Patch<Option<int>>,
    powerKw: Patch<Option<real>>,
    description: Patch<Option<string>>)

  /** `machine.dict(exclude_unset=True)`: the set fields, in declaration order. */
  function UpdateData(u: MachineUpdate): seq<FieldAssignment> {
    Pieces(u, FieldCount)
  }

  /** `MachineUpdate` declares eleven fields. */
  const FieldCount: nat := 11

  /** The assignments for the first `n` declared fields. */
  function Pieces(u: MachineUpdate, n: nat): seq<FieldAssignment> {
    if n == 0 then [] else Pieces(u, n - 1) + Piece(u, n - 1)
  }

  /** The assignment for declared field `i`, if the request sets it. */
  function Piece(u: MachineUpdate, i: nat): seq<FieldAssignment> {
    match i
    case 0 => if u.name.Given? then [SetName(u.name.value)] else []
    case 1 => if u.machineType.Given? then [SetType(u.machineType.value)] else []
    case 2 => if u.manufacturer.Given? then [SetManufacturer(u.manufacturer.value)] else []
    case 3 => if u.model.Given? then [SetModel(u.model.value)] else []
    case 4 => if u.serialNumber.Given? then [SetSerialNumber(u.serialNumber.value)] else []
    case 5 => if u.installationDate.Given? then [SetInstallationDate(u.installationDate.value)] else []
    case 6 => if u.location.Given? then [SetLocation(u.location.value)] else []
    case 7 => if u.status.Given? then [SetStatus(u.status.value)] else []
    case 8 => if u.rpmNominal.Given? then [SetRpmNominal(u.rpmNominal.value)] else []
    case 9 => if u.powerKw.Given? then [SetPowerKw(u.powerKw.value)] else []
    case 10 => if u.description.Given? then [SetDescription(u.description.value)] else []
    case _ => []
  }

  /** `setattr(machine, field, value)` */
  function SetAttr(f: MachineFields, a: FieldAssignment): MachineFields {
    match a
    case SetName(v) => f.(name := v)
    case SetType(v) => f.(machineType := v)
    case SetManufacturer(v) => f.(manufacturer := v)
    case SetModel(v) => f.(model := v)
    case SetSerialNumber(v) => f.(serialNumber := v)
    case SetInstallationDate(v) => f.(installationDate := v)
    case SetLocation(v) => f.(location := v)
    case SetStatus(v) => f.(status := v)
    case SetRpmNominal(v) => f.(rpmNominal := v)
    case SetPowerKw(v) => f.(powerKw := v)
    case SetDescription(v) => f.(description := v)
  }

  /** The assignments applied one after the other. */
  function SetAll(f: MachineFields, assignments: seq<FieldAssignment>): MachineFields {
    if assignments == [] then f
    else SetAttr(SetAll(f, assignments[..|assignments| - 1]), assignments[|assignments| - 1])
  }

  lemma {:induction false} SetAllConcat(f: MachineFields, xs: seq<FieldAssignment>, ys: seq<FieldAssignment>)
    ensures SetAll(f, xs + ys) == SetAll(SetAll(f, xs), ys)
    decreases |ys|
  {
    if ys == [] {
      assert xs + ys == xs;
    } else {
      assert (xs + ys)[..|xs + ys| - 1] == xs + ys[..|ys| - 1];
      SetAllConcat(f, xs, ys[..|ys| - 1]);
    }
  }

  function Patched<T>(p: Patch<T>, current: T): T {
    if p.Given? then p.value else current
  }

  /** Applying the set fields changes exactly those fields, to the requested values. */
  lemma UpdateChangesSetFields(f: MachineFields, u: MachineUpdate)
    ensures SetAll(f, UpdateData(u)) == MachineFields(
      Patched(u.name, f.name), Patched(u.machineType, f.machineType),
      Patched(u.manufacturer, f.manufacturer), Patched(u.model, f.model),
      Patched(u.serialNumber, f.serialNumber), Patched(u.installationDate, f.installationDate),
      Patched(u.location, f.location), Patched(u.status, f.status),
      Patched(u.rpmNominal, f.rpmNominal), Patched(u.powerKw, f.powerKw),
      Patched(u.description, f.description))
  {
    PiecesApply(f, u, FieldCount);
    PatchedUpToFields(f, u, FieldCount);
  }

  /** Field `i` of `g` replaced by the request's value, if it sets one. */
  function ApplyPatch(g: MachineFields, u: MachineUpdate, i: nat): MachineFields {
    match i
    case 0 => g.(name := Patched(u.name, g.name))
    case 1 => g.(machineType := Patched(u.machineType, g.machineType))
    case 2 => g.(manufacturer := Patched(u.manufacturer, g.manufacturer))
    case 3 => g.(model := Patched(u.model, g.model))
    case 4 => g.(serialNumber := Patched(u.serialNumber, g.serialNumber))
    case 5 => g.(installationDate := Patched(u.installationDate, g.installationDate))
    case 6 => g.(location := Patched(u.location, g.location))
    case 7 => g.(status := Patched(u.status, g.status))
    case 8 => g.(rpmNominal := Patched(u.rpmNominal, g.rpmNominal))
    case 9 => g.(powerKw := Patched(u.powerKw, g.powerKw))
    case 10 => g.(description := Patched(u.description, g.description))
    case _ => g
  }

  function PatchedUpTo(f: MachineFields, u: MachineUpdate, n: nat): MachineFields {
    if n == 0 then f else ApplyPatch(PatchedUpTo(f, u, n - 1), u, n - 1)
  }

  /** After the first `n` patches, exactly the first `n` fields carry the request's values. */
  lemma {:induction false} PatchedUpToFields(f: MachineFields, u: MachineUpdate, n: nat)
    ensures PatchedUpTo(f, u, n).name == if 0 < n then Patched(u.name, f.name) else f.name
    ensures PatchedUpTo(f, u, n).machineType == if 1 < n then Patched(u.machineType, f.machineType) else f.machineType
    ensures PatchedUpTo(f, u, n).manufacturer == if 2 < n then Patched(u.manufacturer, f.manufacturer) else f.manufacturer
    ensures PatchedUpTo(f, u, n).model == if 3 < n then Patched(u.model, f.model) else f.model
    ensures PatchedUpTo(f, u, n).serialNumber == if 4 < n then Patched(u.serialNumber, f.serialNumber) else f.serialNumber
    ensures PatchedUpTo(f, u, n).installationDate == if 5 < n then Patched(u.installationDate, f.installationDate) else f.installationDate
    ensures PatchedUpTo(f, u, n).location == if 6 < n then Patched(u.location, f.location) else f.location
    ensures PatchedUpTo(f, u, n).status == if 7 < n then Patched(u.status, f.status) else f.status
    ensures PatchedUpTo(f, u, n).rpmNominal == if 8 < n then Patched(u.rpmNominal, f.rpmNominal) else f.rpmNominal
    ensures PatchedUpTo(f, u, n).powerKw == if 9 < n then Patched(u.powerKw, f.powerKw) else f.powerKw
    ensures PatchedUpTo(f, u, n).description == if 10 < n then Patched(u.description, f.description) else f.description
  {
    if n > 0 {
      PatchedUpToFields(f, u, n - 1);
    }
  }

  lemma PieceApplies(g: MachineFields, u: MachineUpdate, i: nat)
    ensures SetAll(g, Piece(u, i)) == ApplyPatch(g, u, i)
  {
    var p := Piece(u, i);
    if p != [] {
      assert p[..0] == [];
    }
  }

  lemma {:induction false} PiecesApply(f: MachineFields, u: MachineUpdate, n: nat)
    ensures SetAll(f, Pieces(u, n)) == PatchedUpTo(f, u, n)
  {
    if n > 0 {
      PiecesApply(f, u, n - 1);
      SetAllConcat(f, Pieces(u, n - 1), Piece(u, n - 1));
      PieceApplies(PatchedUpTo(f, u, n - 1), u, n - 1);
    }
  }

  /** The three machines seeded at startup. */
  const DefaultMachines: seq<MachineFields> := [
    MachineFields("Motor Pump 001", "Centrifugal Pump", Some("Grundfos"), Some("CR 32-4"), None, None,
      Some("Plant A - Section 1"), "operational", Some(1800), Some(15.0), Some("Main cooling water pump")),
    MachineFields("Compressor Unit 002", "Rotary Compressor", Some("Atlas Copco"), Some("GA 22"), None, None,
      Some("Plant A - Section 2"), "operational", Some(3600), Some(22.0), Some("Air compressor for pneumatic systems")),
    MachineFields("Fan Motor 003", "Axial Fan", Some("ABB"), Some("M3BP 160"), None, None,
      Some("Plant B - Ventilation"), "operational", Some(1450), Some(7.5), Some("Ventilation system fan"))
  ]

  /** The table after seeding its first `n` defaults. */
  function Seeded(t: Table<Machine>, ids: seq<string>, nows: seq<Timestamp>, n: nat): (r: Table<Machine>)
    requires TableValid(t) && n <= |DefaultMachines| && n <= |ids| && n <= |nows|
    ensures TableValid(r)
  {
    if n == 0 then t
    else Put(Seeded(t, ids, nows, n - 1), ids[n - 1], Machine(ids[n - 1], DefaultMachines[n - 1], nows[n - 1], nows[n - 1]))
  }

  /** `VibrationRecordBase` */
  datatype RecordFields = RecordFields(
    machineId: string,
    fileUrl: string,
    fileName: string,
    sensorPosition: Option<string>,
    axis: Option<string>,
    samplingRate: Option<int>,
    measurementDate: Option<string>)

  datatype VibrationRecord = VibrationRecord(id: string, fields: RecordFields, createdAt: Timestamp)

  /** `[r for r in records if r.machine_id == machine_id]` */
  function ForMachine(rs: seq<VibrationRecord>, machineId: string): seq<VibrationRecord> {
    Filter(rs, (x: VibrationRecord) => x.fields.machineId == machineId)
  }

  /** The machine and record tables, `machines_db` and `vibration_records_db`. */
  class Store {
    var machines: Table<Machine>
    var records: Table<VibrationRecord>

    /** Both tables well formed, each entry stored under its own id. */
    ghost predicate Valid()
      reads this
    {
      && TableValid(machines) && TableValid(records)
      && (forall k :: k in machines.entries ==> machines.entries[k].id == k)
      && (forall k :: k in records.entries ==> records.entries[k].id == k)
    }

    /** Both tables start empty. */
    constructor()
      ensures Valid()
      ensures machines.entries == map[] && records.entries == map[]
    {
      machines := EmptyTable();
      records := EmptyTable();
    }

    /** `initialize_default_machines`: seeds the three defaults, with the given
        ids and clock readings, only when the machine table is empty. */
    method InitializeDefaultMachines(ids: seq<string>, nows: seq<Timestamp>)
      requires Valid()
      requires |ids| == |DefaultMachines| && |nows| == |DefaultMachines|
      modifies this
      ensures Valid()
      ensures old(machines.entries) != map[] ==> machines == old(machines)
      ensures old(machines.entries) == map[] ==> machines == Seeded(old(machines), ids, nows, |DefaultMachines|)
      ensures records == old(records)
    {
      if machines.entries == map[] {
        for i := 0 to |DefaultMachines|
          invariant Valid()
          invariant machines == Seeded(old(machines), ids, nows, i)
          invariant records == old(records)
        {
          var machine := Machine(ids[i], DefaultMachines[i], nows[i], nows[i]);
          machines := Put(machines, ids[i], machine);
        }
      }
    }

    /** `get_machines` */
    method GetMachines() returns (ms: seq<Machine>)
      requires Valid()
      ensures ms == Values(machines)
    {
      ms := Values(machines);
    }

    /** `get_machine`: the machine stored under the id, or 404. */
    method GetMachine(machineId: string) returns (r: Result<Machine, HttpError>)
      requires Valid()
      ensures machineId in machines.entries ==> r == Ok(machines.entries[machineId])
      ensures machineId !in machines.entries ==> r == Err(HttpError(404, "Machine not found"))
    {
      if machineId !in machines.entries {
        return Err(HttpError(404, "Machine not found"));
      }
      r := Ok(machines.entries[machineId]);
    }

    /** `create_machine`: stores a new machine under the fresh id, with equal
        creation and update times; nothing else changes. */
    method CreateMachine(machine: MachineFields, freshId: string, now: Timestamp) returns (m: Machine)
      requires Valid()
      modifies this
      ensures Valid()
      ensures m == Machine(freshId, machine, now, now)
      ensures machines == Put(old(machines), freshId, m)
      ensures records == old(records)
    {
      m := Machine(freshId, machine, now, now);
      machines := Put(machines, freshId, m);
    }

    /** `update_machine`: applies the set fields one by one and refreshes the
        update time; an unknown id is a 404 and changes nothing. */
    method UpdateMachine(machineId: string, update: MachineUpdate, now: Timestamp) returns (r: Result<Machine, HttpError>)
      requires Valid()
      modifies this
      ensures Valid()
      ensures machineId !in old(machines.entries) ==>
        r == Err(HttpError(404, "Machine not found")) && machines == old(machines)
      ensures machineId in old(machines.entries) ==>
        var existing := old(machines.entries)[machineId];
        && r == Ok(Machine(existing.id, SetAll(existing.fields, UpdateData(update)), existing.createdAt, now))
        && machines == Put(old(machines), machineId, r.value)
      ensures records == old(records)
    {
      if machineId !in machines.entries {
        return Err(HttpError(404, "Machine not found"));
      }
      var existing := machines.entries[machineId];
      var updateData := UpdateData(update);
      var fields := existing.fields;
      for i := 0 to |updateData|
        invariant fields == SetAll(existing.fields, updateData[..i])
      {
        assert updateData[..i + 1][..i] == updateData[..i];
        fields := SetAttr(fields, updateData[i]);
      }
      assert updateData[..|updateData|] == updateData;
      var updated := Machine(existing.id, fields, existing.createdAt, now);
      machines := Put(machines, machineId, updated);
      r := Ok(updated);
    }

    /** `delete_machine`: removes exactly that id, or 404 with no change. */
    method DeleteMachine(machineId: string) returns (r: Result<string, HttpError>)
      requires Valid()
      modifies this
      ensures Valid()
      ensures machineId !in old(machines.entries) ==>
        r == Err(HttpError(404, "Machine not found")) && machines == old(machines)
      ensures machineId in old(machines.entries) ==>
        r == Ok("Machine deleted successfully") && machines == Remove(old(machines), machineId)
      ensures records == old(records)
    {
      if machineId !in machines.entries {
        return Err(HttpError(404, "Machine not found"));
      }
      machines := Remove(machines, machineId);
      r := Ok("Machine deleted successfully");
    }

    /** `get_vibration_records` */
    method GetVibrationRecords() returns (rs: seq<VibrationRecord>)
      requires Valid()
      ensures rs == Values(records)
    {
      rs := Values(records);
    }

    /** `get_vibration_records_by_machine`: the records of that machine, in table order. */
    method GetVibrationRecordsByMachine(machineId: string) returns (rs: seq<VibrationRecord>)
      requires Valid()
      ensures rs == ForMachine(Values(records), machineId)
      ensures forall x :: x in rs <==> x.id in records.entries && records.entries[x.id] == x && x.fields.machineId == machineId
    {
      rs := ForMachine(Values(records), machineId);
      forall x | x in rs
        ensures x.id in records.entries && records.entries[x.id] == x
      {
        var vs := Values(records);
        var i :| 0 <= i < |vs| && vs[i] == x;
        assert records.entries[records.order[i]] == x;
      }
      forall x: VibrationRecord | x.id in records.entries && records.entries[x.id] == x && x.fields.machineId == machineId
        ensures x in rs
      {
        var vs := Values(records);
        var i :| 0 <= i < |records.order| && records.order[i] == x.id;
        assert vs[i] == x;
      }
    }

    /** `create_vibration_record`: stores the new record under the fresh id. */
    method CreateVibrationRecord(record: RecordFields, freshId: string, now: Timestamp) returns (v: VibrationRecord)
      requires Valid()
      modifies this
      ensures Valid()
      ensures v == VibrationRecord(freshId, record, now)
      ensures records == Put(old(records), freshId, v)
      ensures machines == old(machines)
    {
      v := VibrationRecord(freshId, record, now);
      records := Put(records, freshId, v);
    }

    /** `delete_vibration_record`: removes exactly that record, or 404 with no change. */
    method DeleteVibrationRecord(recordId: string) returns (r: Result<string, HttpError>)
      requires Valid()
      modifies this
      ensures Valid()
      ensures recordId !in old(records.entries) ==>
        r == Err(HttpError(404, "Vibration record not found")) && records == old(records)
      ensures recordId in old(records.entries) ==>
        r == Ok("Vibration record deleted successfully") && records == Remove(old(records), recordId)
      ensures machines == old(machines)
    {
      if recordId !in records.entries {
        return Err(HttpError(404, "Vibration record not found"));
      }
      records := Remove(records, recordId);
      r := Ok("Vibration record deleted successfully");
    }
  }

  /** Seeding an empty table with distinct ids yields exactly the defaults, in
      order, each created and updated at its own clock reading. */
  lemma {:induction false} SeededDefaults(ids: seq<string>, nows: seq<Timestamp>, n: nat)
    requires n <= |DefaultMachines| && n <= |ids| && n <= |nows|
    requires Distinct(ids)
    ensures var t := Seeded(EmptyTable(), ids, nows, n);
      && t.order == ids[..n]
      && forall i :: 0 <= i < n ==> t.entries[ids[i]] == Machine(ids[i], DefaultMachines[i], nows[i], nows[i])
  {
    if n > 0 {
      SeededDefaults(ids, nows, n - 1);
      var prev := Seeded(EmptyTable(), ids, nows, n - 1);
      assert ids[n - 1] !in prev.order by {
        forall i | 0 <= i < n - 1 ensures prev.order[i] != ids[n - 1] {
          assert prev.order[i] == ids[i];
        }
      }
      assert ids[..n] == ids[..n - 1] + [ids[n - 1]];
    }
  }

  /** An update never touches the id or the creation time, and sets the update time. */
  lemma UpdateKeepsIdentity(existing: Machine, update: MachineUpdate, now: Timestamp)
    ensures var updated := Machine(existing.id, SetAll(existing.fields, UpdateData(update)), existing.createdAt, now);
      && updated.id == existing.id && updated.createdAt == existing.createdAt && updated.updatedAt == now
      && (update.name.Given? ==> updated.fields.name == update.name.value)
      && (update.name.Unset? ==> updated.fields.name == existing.fields.name)
      && (update.status.Given? ==> updated.fields.status == update.status.value)
      && (update.status.Unset? ==> updated.fields.status == existing.fields.status)
      && (update == MachineUpdate(Unset, Unset, Unset, Unset, Unset, Unset, Unset, Unset, Unset, Unset, Unset) ==>
            updated.fields == existing.fields)
  {
    UpdateChangesSetFields(existing.fields, update);
  }
}
