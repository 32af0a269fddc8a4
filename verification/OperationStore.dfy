/** The store object: its two documents, changed in place by locked calls. */
module OperationStores {
  import opened Core
  import opened Operations
  import opened OperationsRecords

  /** The document after a change: the changed one, or the old one if the change was refused. */
  function Settle<T>(before: T, after: Result<T>): T {
    if after.Ok? then after.value else before
  }

  /** Arguments refused before the document is read. */
  predicate ArgumentsOk(c: Change) {
    match c
    case Begin(generation) => GenerationOk(generation)
    case RecordStep(_, _, _) => true
    case Finish(state, resulting, codes) =>
      Terminal(state) && (resulting.Some? ==> GenerationOk(resulting.value)) && |codes| <= MAX_CODES
    case Resume(generation) => GenerationOk(generation)
    case Expire(generation, _) => GenerationOk(generation)
  }

  /** The document after a call: malformed arguments and then an unreadable document fail it first. */
  function Changed(env: Env, rs: seq<Record>, id: string, c: Change, now: int, me: Owner): Result<seq<Record>> {
    if !ArgumentsOk(c) then Err("control.operation_invalid")
    else if Readable(env, rs) then Apply(rs, id, c, now, me)
    else Err("control.operation_store_unavailable")
  }

  /** `_operation`: a record already written with too many codes cannot be returned. */
  function Projected(r: Record): Result<Record> {
    if |r.codes| > MAX_CODES then Err("control.operation_store_unavailable") else Ok(r)
  }

  /** What the call returns: the changed record, the first refusal, or the failure after the write. */
  function Returned(env: Env, rs: seq<Record>, id: string, c: Change, now: int, me: Owner): Result<Record> {
    var after := Changed(env, rs, id, c, now, me);
    if after.Err? then Err(after.code) else Projected(after.value[IndexOf(rs, id).value])
  }

  class AdminOperationStore {
    const env: Env
    var records: seq<Record>
    var owners: seq<Life>

    /** Opening reconciles the running records of dead owners. */
    constructor (env: Env, records: seq<Record>, owners: seq<Life>, dead: set<Owner>)
      ensures this.env == env && this.records == Reconcile(records, dead) && this.owners == owners
    {
      this.env, this.owners := env, owners;
      this.records := records;
      new;
      ReconcileRunning(dead);
    }

    method ReconcileRunning(dead: set<Owner>)
      modifies this`records
      ensures records == Reconcile(old(records), dead)
    {
      ghost var was := records;
      for k := 0 to |records|
        invariant |records| == |was|
        invariant forall i :: 0 <= i < k ==> records[i] == ReconcileOne(was[i], dead)
        invariant forall i :: k <= i < |was| ==> records[i] == was[i]
      {
        var r := records[k];
        if r.state == Running && r.owner.Process? && r.owner in dead {
          records := records[k := r.(state := Partial, codes := Reconciled, owner := NoOwner)];
        }
      }
    }

    method Begin(id: string, generation: int, now: int, me: Owner) returns (result: Result<Record>)
      modifies this`records
      ensures records == Settle(old(records), Changed(env, old(records), id, Change.Begin(generation), now, me))
      ensures result == Returned(env, old(records), id, Change.Begin(generation), now, me)
    {
      hide IndexBy, Readable;
      if !GenerationOk(generation) {
        return Err("control.operation_invalid");
      }
      if !Readable(env, records) {
        return Err("control.operation_store_unavailable");
      }
      var k := SearchBy(RecordId, records, id);
      if k.None? {
        return Err("control.operation_not_found");
      }
      var r := records[k.value];
      if r.expected != generation {
        return Err("control.plan_stale");
      }
      if r.state != Planned {
        return Err("control.operation_state_conflict");
      }
      if r.expires <= now {
        return Err("control.plan_expired");
      }
      r := r.(owner := me);
      r := r.(state := Running);
      r := r.(codes := ["control.operation_running"]);
      records := records[k.value := r];
      return Projected(r);
    }

    /** `dict.fromkeys` over the codes of the steps. */
    method CollectCodes(steps: seq<Step>) returns (codes: seq<string>)
      ensures codes == StepCodes(steps)
    {
      codes := [];
      for i := 0 to |steps|
        invariant codes == StepCodes(steps[..i])
      {
        var all := Codes(steps[..i], false);
        assert steps[..i + 1][..i] == steps[..i];
        DedupSize(all);
        if steps[i].code.Some? {
          var code := steps[i].code.value;
          assert (all + [code])[..|all|] == all;
          if code !in codes {
            codes := codes + [code];
          }
        } else {
          assert all + [] == all;
        }
      }
      assert steps[..|steps|] == steps;
    }

    method RecordStep(id: string, name: string, succeeded: bool, code: Option<string>, now: int, me: Owner)
      returns (result: Result<Record>)
      modifies this`records
      ensures records == Settle(old(records), Changed(env, old(records), id, Change.RecordStep(name, succeeded, code), now, me))
      ensures result == Returned(env, old(records), id, Change.RecordStep(name, succeeded, code), now, me)
    {
      hide IndexBy, Readable, StepCodes;
      if !Readable(env, records) {
        return Err("control.operation_store_unavailable");
      }
      var k := SearchBy(RecordId, records, id);
      if k.None? {
        return Err("control.operation_not_found");
      }
      var r := records[k.value];
      if r.state != Running {
        return Err("control.operation_state_conflict");
      }
      var i := StepIndex(r.steps, name);
      if i.None? {
        return Err("control.step_unknown");
      }
      var step := r.steps[i.value];
      if step.state != NotAttempted {
        return Err("control.step_already_recorded");
      }
      step := step.(state := if succeeded then Done else Broken);
      step := step.(code := if succeeded || code.Some? then code else Some("control.step_failed"));
      r := r.(steps := r.steps[i.value := step]);
      var codes := CollectCodes(r.steps);
      r := r.(codes := codes);
      records := records[k.value := r];
      return Projected(r);
    }

    method Finish(id: string, state: State, resulting: Option<int>, codes: seq<string>, now: int, me: Owner)
      returns (result: Result<Record>)
      modifies this`records
      ensures records == Settle(old(records), Changed(env, old(records), id, Change.Finish(state, resulting, codes), now, me))
      ensures result == Returned(env, old(records), id, Change.Finish(state, resulting, codes), now, me)
    {
      hide IndexBy, Readable, StateOk, Dedup, Codes;
      if !Terminal(state) || (resulting.Some? && !GenerationOk(resulting.value)) || |codes| > MAX_CODES {
        return Err("control.operation_invalid");
      }
      if !Readable(env, records) {
        return Err("control.operation_store_unavailable");
      }
      var k := SearchBy(RecordId, records, id);
      if k.None? {
        return Err("control.operation_not_found");
      }
      var r := records[k.value];
      if r.state != Running {
        return Err("control.operation_state_conflict");
      }
      if state == Succeeded &&
         ((exists i :: 0 <= i < |r.steps| && r.steps[i].state != Done) || resulting.None? || resulting.value < r.expected) {
        return Err("control.operation_invalid");
      }
      var final := codes;
      if codes == [] && state in {Partial, Failed, Blocked} {
        final := Dedup(Codes(r.steps, true));
      }
      r := r.(state := state, resulting := resulting, codes := final, owner := NoOwner);
      if !StateOk(r) {
        return Err("control.operation_invalid");
      }
      records := records[k.value := r];
      return Projected(r);
    }

    method ResumeHostProbe(id: string, generation: int, now: int, me: Owner) returns (result: Result<Record>)
      modifies this`records
      ensures records == Settle(old(records), Changed(env, old(records), id, Change.Resume(generation), now, me))
      ensures result == Returned(env, old(records), id, Change.Resume(generation), now, me)
    {
      hide IndexBy, Readable, StepCodes, Names;
      if !GenerationOk(generation) {
        return Err("control.operation_invalid");
      }
      if !Readable(env, records) {
        return Err("control.operation_store_unavailable");
      }
      var k := SearchBy(RecordId, records, id);
      if k.None? {
        return Err("control.operation_not_found");
      }
      var r := records[k.value];
      if !ProbeShaped(r, generation) || r.state != Partial || r.codes != Reconciled || !r.owner.NoOwner? {
        return Err("control.operation_state_conflict");
      }
      if r.expires <= now {
        return Err("control.plan_expired");
      }
      r := r.(owner := me);
      r := r.(state := Running);
      var codes := CollectCodes(r.steps);
      if codes == [] {
        codes := ["control.operation_running"];
      }
      r := r.(codes := codes);
      records := records[k.value := r];
      return Projected(r);
    }

    /** The pruning loop: the retained records, in order. */
    method PruneExpired(now: int, protected: set<string>)
      modifies this`records
      ensures records == Prune(old(records), now, protected)
    {
      var retained: seq<Record> := [];
      for i := 0 to |records|
        invariant retained == Prune(records[..i], now, protected)
      {
        assert records[..i + 1][..i] == records[..i];
        if Retained(records[i], now, protected) {
          retained := retained + [records[i]];
        }
      }
      assert records[..|records|] == records;
      records := retained;
    }

    /** The migration loop over the candidates. */
    method MigrateOwners(bs: seq<AgentBinding>, now: int) returns (refusal: Option<string>)
      modifies this`owners
      ensures owners == Settle(old(owners), Migrate(records, old(owners), bs, now))
      ensures refusal == var os := Migrate(records, old(owners), bs, now); if os.Ok? then None else Some(os.code)
    {
      hide Candidate, Settled, IndexBy, Agents;
      if Ambiguous(records, owners, bs, now) {
        return Some("control.operation_store_unavailable");
      }
      var migrated: seq<Life> := [];
      for k := 0 to |records|
        invariant Migrated(records, owners, bs, now, k) == Ok(migrated)
      {
        var r := records[k];
        if Candidate(r, owners, now) {
          var i := BindingIndex(bs, r.id);
          if i.Some? {
            var b := bs[i.value];
            var settled := Settled(r, b);
            if b.digest != r.digest || b.operation in Agents(owners + migrated) || settled.None? {
              MigrationStops(records, owners, bs, now, k + 1);
              return Some("control.operation_store_unavailable");
            }
            if |owners| + |migrated| >= MAX_OWNERS {
              MigrationStops(records, owners, bs, now, k + 1);
              return Some("control.operation_limit");
            }
            migrated := migrated + [Life(r.id, b.operation, b.host, r.expected, r.digest, settled.value)];
          }
        }
      }
      owners := owners + migrated;
      return None;
    }

    lemma {:induction false} MigrationStops(rs: seq<Record>, owners: seq<Life>, bs: seq<AgentBinding>, now: int, k: nat)
      requires k <= |rs| && Migrated(rs, owners, bs, now, k).Err?
      ensures Migrated(rs, owners, bs, now, |rs|) == Migrated(rs, owners, bs, now, k)
      decreases |rs| - k
    {
      if k < |rs| {
        MigrationStops(rs, owners, bs, now, k + 1);
      }
    }

    /** A plan that is not interrupted: migrate, prune, and return or add the plan of the key. */
    method PlanOperation(q: Request, id: string, now: int, bs: seq<AgentBinding>) returns (result: Result<Record>)
      modifies this
      ensures var os := Migrate(old(records), old(owners), bs, now);
              var ready := Readable(env, old(records)) && OwnersReadable(old(owners));
              owners == (if RequestOk(q) && ready then Settle(old(owners), os) else old(owners)) &&
              (if !RequestOk(q) then records == old(records) && result == Err("control.operation_invalid")
               else if !ready then records == old(records) && result == Err("control.operation_store_unavailable")
               else if os.Err? then records == old(records) && result == Err(os.code)
               else
                 var pruned := Prune(old(records), now, Protected(os.value));
                 var x := AddPlan(env, pruned, q, id, now);
                 records == (if x.Ok? then x.value.0 else pruned) &&
                 result == (if x.Ok? then Ok(x.value.1) else Err(x.code)))
    {
      hide Migrate, Prune, IndexBy, Readable, Answers;
      if !RequestOk(q) {
        return Err("control.operation_invalid");
      }
      if !Readable(env, records) || !OwnersReadable(owners) {
        return Err("control.operation_store_unavailable");
      }
      var refusal := MigrateOwners(bs, now);
      if refusal.Some? {
        return Err(refusal.value);
      }
      PruneExpired(now, Protected(owners));
      var k := KeyIndex(records, q.key);
      if k.Some? {
        if !Answers(env, records[k.value], q) {
          return Err("control.idempotency_conflict");
        }
        return Ok(records[k.value]);
      }
      if |records| >= MAX_RECORDS {
        return Err("control.operation_limit");
      }
      var taken := SearchBy(RecordId, records, id);
      if taken.Some? {
        return Err("control.operation_store_unavailable");
      }
      var r := Planned0(env, q, id, now);
      records := records + [r];
      return Ok(r);
    }

    method AcknowledgeHostProbeAgent(id: string, agent: string, host: string, digest: string) returns (ok: bool)
      modifies this`owners
      ensures ok <==> Readable(env, records) && OwnersReadable(old(owners)) && Acknowledge(records, old(owners), id, agent, host, digest).Ok?
      ensures owners == if ok then Acknowledge(records, old(owners), id, agent, host, digest).value else old(owners)
    {
      hide Readable, OwnersReadable;
      if !Readable(env, records) || !OwnersReadable(owners) {
        return false;
      }
      hide IndexBy, LifeShaped;
      var o := OwnerIndex(owners, id);
      if o.None? {
        return false;
      }
      var owner := owners[o.value];
      if owner.agent != agent || owner.host != host || owner.digest != digest {
        return false;
      }
      if owner.acknowledged {
        return true;
      }
      var k := SearchBy(RecordId, records, id);
      if k.None? || !LifeShaped(records[k.value], digest) || !Terminal(records[k.value].state) {
        return false;
      }
      owners := owners[o.value := owner.(acknowledged := true)];
      return true;
    }

    method ClaimHostProbeAgent(id: string, agent: string, host: string, digest: string) returns (ok: bool)
      modifies this`owners
      ensures ok <==> Readable(env, records) && OwnersReadable(old(owners)) && Claim(records, old(owners), id, agent, host, digest).Ok?
      ensures owners == if ok then Claim(records, old(owners), id, agent, host, digest).value else old(owners)
    {
      hide Readable, OwnersReadable;
      if !Readable(env, records) || !OwnersReadable(owners) {
        return false;
      }
      hide IndexBy, LifeShaped, Agents;
      var o := OwnerIndex(owners, id);
      var k := SearchBy(RecordId, records, id);
      if o.Some? {
        var owner := owners[o.value];
        if owner.agent != agent || owner.host != host || owner.digest != digest {
          return false;
        }
        if k.None? {
          return owner.acknowledged;
        }
        return LifeShaped(records[k.value], digest) && owner.expected == records[k.value].expected;
      }
      if k.None? || !LifeShaped(records[k.value], digest) || agent in Agents(owners) || |owners| >= MAX_OWNERS {
        return false;
      }
      owners := owners + [Life(id, agent, host, records[k.value].expected, digest, false)];
      return true;
    }
  }
}
