/** The runtime adapter and journal objects whose locked sections the protocol interleaves. */
module AdmissionRuntimeObjects {
  import opened Core
  import opened Admission
  import opened CompletionJournal

  const GATES: seq<string> :=
    ["authority", "repository", "scope", "account", "model", "usage", "lease", "process", "auth", "config"]

  /** What one gate of the mapping does when asked about an admission. */
  datatype Gate = Missing | Raises | Malformed | Decides(allowed: bool, reason: string)

  type Gates = map<string, Record -> Gate>

  /** A clock reading: a time, a value that is no aware time, or an exception. */
  datatype Clock = Reads(now: int) | NoTime | Fails

  function Answer(gates: Gates, k: nat, admission: Record): Gate
    requires k < |GATES|
  {
    if GATES[k] in gates then gates[GATES[k]](admission) else Missing
  }

  function Denial(name: string, gate: Gate): Option<string> {
    match gate
    case Missing => Some("missing_" + name + "_gate")
    case Raises => Some(name + "_gate_unavailable")
    case Malformed => Some("invalid_runtime_gate_decision")
    case Decides(allowed, reason) => if allowed then None else Some(reason)
  }

  predicate Denies(gates: Gates, k: nat, admission: Record)
    requires k < |GATES|
  {
    Denial(GATES[k], Answer(gates, k, admission)).Some?
  }

  function Reason(gates: Gates, k: nat, admission: Record): string
    requires k < |GATES| && Denies(gates, k, admission)
  {
    Denial(GATES[k], Answer(gates, k, admission)).value
  }

  /** Why an admission is refused before any gate is asked. */
  function Early(admission: Record, clock: Clock): Option<string> {
    if admission.state != Revalidating then Some("invalid_admission_state")
    else
      match clock
      case Reads(now) => if IsExpired(admission, now) then Some("admission_expired") else None
      case NoTime => Some("admission_expired")
      case Fails => Some("runtime_clock_unavailable")
  }

  class ServerAdmissionRuntime {
    const gates: Gates
    var revalidated: map<string, int>
    var lastFailure: Option<string>

    constructor (gates: Gates)
      ensures this.gates == gates && revalidated == map[] && lastFailure == None
    {
      this.gates := gates;
      revalidated, lastFailure := map[], None;
    }

    method Deny(reason: string) returns (ok: bool)
      modifies this`lastFailure
      ensures !ok && lastFailure == Some(reason)
    {
      lastFailure := Some(reason);
      return false;
    }

    /** True exactly when the record is revalidating, unexpired and all ten gates allow it; otherwise
        the remembered failure is the first one in the fixed order. */
    method Revalidate(admission: Record, clock: Clock) returns (ok: bool)
      modifies this
      ensures ok <==> Early(admission, clock) == None && forall k :: 0 <= k < |GATES| ==> !Denies(gates, k, admission)
      ensures ok ==> revalidated == old(revalidated)[admission.binding.id := admission.revision] && lastFailure == None
      ensures !ok ==> revalidated == old(revalidated)
      ensures Early(admission, clock).Some? ==> lastFailure == Early(admission, clock)
      ensures !ok && Early(admission, clock) == None ==>
                exists k :: 0 <= k < |GATES| && Denies(gates, k, admission) && lastFailure == Some(Reason(gates, k, admission))
                            && forall j :: 0 <= j < k ==> !Denies(gates, j, admission)
    {
      if admission.state != Revalidating {
        ok := Deny("invalid_admission_state");
        return;
      }
      if clock.Fails? {
        ok := Deny("runtime_clock_unavailable");
        return;
      }
      if clock.NoTime? || IsExpired(admission, clock.now) {
        ok := Deny("admission_expired");
        return;
      }
      for k := 0 to |GATES|
        invariant revalidated == old(revalidated)
        invariant forall j :: 0 <= j < k ==> !Denies(gates, j, admission)
      {
        if Denies(gates, k, admission) {
          ok := Deny(Reason(gates, k, admission));
          return;
        }
      }
      revalidated := revalidated[admission.binding.id := admission.revision];
      lastFailure := None;
      ok := true;
    }

    /** `_revalidate_pool_authority`: an admission bound to a pool needs the reader's word. */
    method RevalidatePoolAuthority(bound: bool, confirmed: bool) returns (ok: bool)
      modifies this`lastFailure
      ensures ok <==> !bound || confirmed
      ensures lastFailure == if ok then old(lastFailure) else Some("pool_authority_revalidation_denied")
    {
      if !bound || confirmed {
        return true;
      }
      ok := Deny("pool_authority_revalidation_denied");
    }

    /** The check just before execution begins. */
    method RevalidateBeforeBeginExecution(admission: Record, bound: bool, confirmed: bool) returns (ok: bool)
      modifies this`lastFailure
      ensures ok <==> admission.state == Admitted && (!bound || confirmed)
      ensures lastFailure == if ok then old(lastFailure)
                             else if admission.state != Admitted then Some("invalid_admission_state")
                             else Some("pool_authority_revalidation_denied")
    {
      if admission.state != Admitted {
        ok := Deny("invalid_admission_state");
        return;
      }
      ok := RevalidatePoolAuthority(bound, confirmed);
    }

    /** First locked section of `execute`. */
    method Seen(admission: Record) returns (r: Result<int>)
      ensures r == if admission.binding.id !in revalidated || admission.revision <= revalidated[admission.binding.id]
                   then Err("runtime_not_revalidated") else Ok(revalidated[admission.binding.id])
    {
      if admission.binding.id !in revalidated || admission.revision <= revalidated[admission.binding.id] {
        return Err("runtime_not_revalidated");
      }
      r := Ok(revalidated[admission.binding.id]);
    }

    /** Second locked section of `execute`: spend the revalidation seen before, once. */
    method Spend(id: string, seen: int) returns (ok: bool)
      modifies this`revalidated
      ensures ok <==> id in old(revalidated) && old(revalidated)[id] == seen
      ensures revalidated == if ok then old(revalidated) - {id} else old(revalidated)
    {
      ok := id in revalidated && revalidated[id] == seen;
      if ok { revalidated := revalidated - {id}; }
    }
  }

  class FileCompletionJournal {
    var records: map<string, Entry>
    const digests: Digests

    constructor (digests: Digests)
      ensures records == map[] && this.digests == digests
    {
      this.digests := digests;
      records := map[];
    }

    method RecordStarted(r: Record, operation: string) returns (error: Option<string>)
      modifies this`records
      ensures var spec := Started(old(records), digests, r, operation);
              if spec.Ok? then error == None && records == spec.value
              else error == Some(spec.code) && records == old(records)
    {
      var id := r.binding.id;
      if id in records {
        var current := records[id];
        if current.revision != r.revision { return Some("completion_revision_conflict"); }
        if current.binding != digests.ofBinding(r.binding) { return Some("completion_binding_conflict"); }
        if current.completed { return Some("completion_already_recorded"); }
        if current.operation != digests.ofOperation(operation) { return Some("completion_operation_conflict"); }
        return None;
      }
      if |records| >= MAX_JOURNAL { return Some("completion_journal_full"); }
      records := records[id := Entry(r.revision, digests.ofBinding(r.binding), digests.ofOperation(operation), false)];
      error := None;
    }

    method RecordCompleted(r: Record, operation: string) returns (error: Option<string>)
      modifies this`records
      ensures var spec := Completed(old(records), digests, r, operation);
              if spec.Ok? then error == None && records == spec.value
              else error == Some(spec.code) && records == old(records)
    {
      var id := r.binding.id;
      if id !in records { return Some("completion_start_missing"); }
      var current := records[id];
      if current.revision != r.revision { return Some("completion_revision_conflict"); }
      if current.binding != digests.ofBinding(r.binding) { return Some("completion_binding_conflict"); }
      if current.operation != digests.ofOperation(operation) { return Some("completion_operation_conflict"); }
      if !current.completed {
        records := records[id := current.(completed := true)];
      }
      error := None;
    }
  }
}
