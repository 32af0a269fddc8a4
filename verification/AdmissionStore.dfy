/** The store objects: records changed in place under a lock, and the file-backed variant. */
module AdmissionStores {
  import opened Core
  import opened Admission

  class AdmissionStore {
    var records: seq<Record>
    const capacity: Capacity

    constructor (capacity: Capacity)
      ensures records == [] && this.capacity == capacity
    {
      this.capacity := capacity;
      records := [];
    }

    method ExpireLocked(now: int) returns (expired: seq<Record>, error: Option<string>)
      modifies this`records
      ensures Expiry(records, expired, error) == ExpireAll(old(records), now)
    {
      expired, error := [], None;
      var i := 0;
      while i < |records|
        invariant 0 <= i <= |records| && error == None
        invariant ExpireFrom(records, i, expired, now) == ExpireAll(old(records), now)
        decreases |records| - i
      {
        var r := records[i];
        if Expirable(r.state) && IsExpired(r, now) {
          var next := Advance(r, Expired, now);
          if next.Err? {
            error := Some(next.code);
            return;
          }
          records := records[i := next.value];
          expired := expired + [next.value];
        }
        i := i + 1;
      }
    }

    method Reserve(record: Record, now: int) returns (result: Result<seq<Record>>)
      modifies this`records
      ensures Outcome(records, result) == Admission.Reserve(old(records), capacity, record, now)
    {
      if record.state != Planned { return Err("record_must_be_planned"); }
      var _, error := ExpireLocked(now);
      if error.Some? { return Err(error.value); }
      if Stored(records, record.binding.id) { return Err("duplicate_admission_id"); }
      var conflict := ReservationConflict(records, capacity, record.binding);
      if conflict.Some? { return Err(conflict.value); }
      var reserved := Advance(record, Reserved, now);
      if reserved.Err? { return Err(reserved.code); }
      records := records + [reserved.value];
      result := Ok([reserved.value]);
    }

    method Transition(id: string, target: State, expected: int, now: int) returns (result: Result<seq<Record>>)
      modifies this`records
      ensures Outcome(records, result) == Admission.Transition(old(records), id, target, expected, now)
    {
      if !Stored(records, id) { return Err("admission_not_found"); }
      if !(0 <= expected <= MAX_REVISION) { return Err("invalid_admission_revision"); }
      var k := IndexOf(records, id);
      if records[k].revision != expected { return Err("stale_admission_revision"); }
      var updated := Advance(records[k], target, now);
      if updated.Err? { return Err(updated.code); }
      records := records[k := updated.value];
      result := Ok([updated.value]);
    }

    method Apply(op: Op) returns (result: Result<seq<Record>>)
      modifies this`records
      ensures Outcome(records, result) == Call(old(records), capacity, op)
    {
      match op
      case DoReserve(r, now) => result := Reserve(r, now);
      case DoTransition(id, target, expected, now) => result := Transition(id, target, expected, now);
      case DoExpire(now) =>
        var expired, error := ExpireLocked(now);
        result := if error.Some? then Err(error.value) else Ok(expired);
    }
  }

  /** The cross-process store: the state file is authoritative, memory is reloaded every time. */
  class FileAdmissionStore {
    var disk: seq<Record>
    const memory: AdmissionStore

    constructor (capacity: Capacity)
      ensures disk == [] && memory.capacity == capacity && fresh(memory)
    {
      disk := [];
      memory := new AdmissionStore(capacity);
    }

    method Mutate(op: Op) returns (result: Result<seq<Record>>)
      modifies this`disk, memory`records
      ensures Outcome(disk, result) == Admission.Mutate(old(disk), memory.capacity, op)
    {
      if |disk| > MAX_STORED { return Err("invalid_admission_state_records"); }
      memory.records := disk;
      result := memory.Apply(op);
      if result.Ok? {
        disk := memory.records;
      }
    }
  }
}
