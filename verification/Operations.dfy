/**
 * The admin operation store: planned, running and finished operations in one document, and
 * a second document of lifecycle owners that protects host-probe records from pruning.
 * Times are microseconds.
 */
module Operations {
  import opened Core

  const MAX_RECORDS := 256
  const MAX_STEPS := 1000
  const MAX_CODES := 32
  const MAX_OWNERS := 1024
  const MAX_GENERATION := 0x7FFF_FFFF_FFFF_FFFF
  const LIFETIME := 900_000_000

  datatype State = Planned | Queued | Running | Partial | Succeeded | Failed | Blocked
  datatype StepState = NotAttempted | Done | Broken
  datatype Step = Step(name: string, state: StepState, code: Option<string>)
  datatype Owner = NoOwner | UnknownOwner | Process(boot: string, pid: int, ticks: int)

  datatype Record = Record(
    id: string, kind: string, state: State, expected: int, resulting: Option<int>, digest: string, created: int,
    expires: int, key: string, owner: Owner, steps: seq<Step>, codes: seq<string>)

  /** The plan digest, left uninterpreted. */
  datatype Env = Env(digest: (string, int, seq<string>) -> string)

  predicate Terminal(s: State) {
    s in {Partial, Succeeded, Failed, Blocked}
  }

  function Names(steps: seq<Step>): (r: seq<string>)
    ensures |r| == |steps| && forall i :: 0 <= i < |steps| ==> r[i] == steps[i].name
  {
    seq(|steps|, i requires 0 <= i < |steps| => steps[i].name)
  }

  predicate Distinct(s: seq<string>) {
    forall i, j :: 0 <= i < j < |s| ==> s[i] != s[j]
  }

  predicate GenerationOk(g: int) {
    0 <= g <= MAX_GENERATION
  }

  predicate StepOk(s: Step) {
    (s.state == NotAttempted ==> s.code.None?) && (s.state == Broken ==> s.code.Some?)
  }

  /** `_validate_state`. */
  predicate StateOk(r: Record) {
    && (forall i :: 0 <= i < |r.steps| ==> StepOk(r.steps[i]))
    && (r.resulting.Some? ==> r.resulting.value >= r.expected)
    && match r.state
       case Planned => r.owner.NoOwner? && r.resulting.None? && forall i :: 0 <= i < |r.steps| ==> r.steps[i].state == NotAttempted
       case Queued => r.owner.NoOwner? && r.resulting.None? && forall i :: 0 <= i < |r.steps| ==> r.steps[i].state == NotAttempted
       case Running => !r.owner.NoOwner? && r.resulting.None?
       case Succeeded => r.owner.NoOwner? && r.resulting.Some? && forall i :: 0 <= i < |r.steps| ==> r.steps[i].state == Done
       case _ => r.owner.NoOwner? && r.codes != []
  }

  /** `_validate_record`. */
  predicate RecordOk(env: Env, r: Record) {
    && GenerationOk(r.expected)
    && (r.resulting.Some? ==> GenerationOk(r.resulting.value))
    && r.expires == r.created + LIFETIME
    && 1 <= |r.steps| <= MAX_STEPS
    && Distinct(Names(r.steps))
    && r.digest == env.digest(r.kind, r.expected, Names(r.steps))
    && |r.codes| <= MAX_CODES
    && StateOk(r)
  }

  /** The reader of the operations document. */
  predicate Readable(env: Env, rs: seq<Record>) {
    && |rs| <= MAX_RECORDS
    && (forall i :: 0 <= i < |rs| ==> RecordOk(env, rs[i]))
    && (forall i, j :: 0 <= i < j < |rs| ==> rs[i].id != rs[j].id && rs[i].key != rs[j].key)
  }

  // ---- reason codes ----

  function Codes(steps: seq<Step>, brokenOnly: bool): seq<string> {
    if steps == [] then []
    else
      var last := steps[|steps| - 1];
      Codes(steps[..|steps| - 1], brokenOnly) + if last.code.Some? && (brokenOnly ==> last.state == Broken) then [last.code.value] else []
  }

  function StepCodes(steps: seq<Step>): seq<string> {
    Dedup(Codes(steps, false))
  }

  // ---- changes to one record ----

  const ProbeKind := "hosts.probe"
  const ProbeStep := "host.probe.collect"
  const Reconciled := ["control.restart_reconciled"]

  datatype Change =
    | Begin(generation: int)
    | RecordStep(name: string, succeeded: bool, code: Option<string>)
    | Finish(state: State, resulting: Option<int>, codes: seq<string>)
    | Resume(generation: int)
    | Expire(generation: int, digest: string)

  function StepName(s: Step): string { s.name }

  function StepIndex(steps: seq<Step>, name: string): Option<nat> {
    IndexBy(StepName, steps, name)
  }

  function Recorded(s: Step, succeeded: bool, code: Option<string>): Step {
    s.(state := if succeeded then Done else Broken,
       code := if succeeded || code.Some? then code else Some("control.step_failed"))
  }

  function DoRecordStep(r: Record, name: string, succeeded: bool, code: Option<string>): Result<Record> {
    if r.state != Running then Err("control.operation_state_conflict")
    else
      var i := StepIndex(r.steps, name);
      if i.None? then Err("control.step_unknown")
      else if r.steps[i.value].state != NotAttempted then Err("control.step_already_recorded")
      else
        var steps := r.steps[i.value := Recorded(r.steps[i.value], succeeded, code)];
        Ok(r.(steps := steps, codes := StepCodes(steps)))
  }

  /** The codes a finished operation carries: those given, or those of its failed steps. */
  function FinalCodes(r: Record, state: State, codes: seq<string>): seq<string> {
    if codes == [] && state in {Partial, Failed, Blocked} then Dedup(Codes(r.steps, true)) else codes
  }

  function DoFinish(r: Record, state: State, resulting: Option<int>, codes: seq<string>): Result<Record> {
    if !Terminal(state) || (resulting.Some? && !GenerationOk(resulting.value)) || |codes| > MAX_CODES then
      Err("control.operation_invalid")
    else if r.state != Running then Err("control.operation_state_conflict")
    else if state == Succeeded &&
            ((exists i :: 0 <= i < |r.steps| && r.steps[i].state != Done) || resulting.None? || resulting.value < r.expected)
    then Err("control.operation_invalid")
    else
      var done := r.(state := state, resulting := resulting, codes := FinalCodes(r, state, codes), owner := NoOwner);
      if StateOk(done) then Ok(done) else Err("control.operation_invalid")
  }

  predicate ProbeShaped(r: Record, generation: int) {
    r.kind == ProbeKind && r.expected == generation && Names(r.steps) == [ProbeStep]
  }

  function DoResume(r: Record, generation: int, now: int, me: Owner): Result<Record> {
    if !ProbeShaped(r, generation) || r.state != Partial || r.codes != Reconciled || !r.owner.NoOwner? then
      Err("control.operation_state_conflict")
    else if r.expires <= now then Err("control.plan_expired")
    else
      var codes := StepCodes(r.steps);
      Ok(r.(owner := me, state := Running, codes := if codes == [] then ["control.operation_running"] else codes))
  }

  function BrokenStep(code: string): Step {
    Step(ProbeStep, Broken, Some(code))
  }

  function BrokenCode(steps: seq<Step>): Option<string> {
    if steps == [BrokenStep("host.probe_unknown")] then Some("host.probe_unknown")
    else if steps == [BrokenStep("host.probe_failed")] then Some("host.probe_failed")
    else None
  }

  function DoExpire(r: Record, generation: int, digest: string, now: int): Result<Record> {
    var exact := ProbeShaped(r, generation) && r.digest == digest;
    var bare := r.owner.NoOwner? && r.resulting.None?;
    var broken := BrokenCode(r.steps);
    var untried := r.steps == [Step(ProbeStep, NotAttempted, None)];
    if exact && r.state == Failed && bare && broken.Some? && r.codes == [broken.value] then Ok(r)
    else if exact && r.state == Partial && bare && r.codes == Reconciled && r.steps == [Step(ProbeStep, Done, None)] && r.expires <= now
    then Ok(r)
    else
      var planned := r.state == Planned && bare && r.codes == ["control.plan_ready"] && untried;
      var reconciled := r.state == Partial && bare && r.codes == Reconciled && (untried || broken.Some?);
      if !exact || !(planned || reconciled) || r.expires > now then Err("control.operation_state_conflict")
      else
        var code := if broken.Some? then broken.value else "host.probe_unknown";
        var gone := r.(state := Failed, steps := if untried then [BrokenStep(code)] else r.steps, codes := [code]);
        if StateOk(gone) then Ok(gone) else Err("control.operation_invalid")
  }

  function DoBegin(r: Record, generation: int, now: int, me: Owner): Result<Record> {
    if r.expected != generation then Err("control.plan_stale")
    else if r.state != Planned then Err("control.operation_state_conflict")
    else if r.expires <= now then Err("control.plan_expired")
    else Ok(r.(owner := me, state := Running, codes := ["control.operation_running"]))
  }

  function Mutate(r: Record, c: Change, now: int, me: Owner): Result<Record> {
    match c
    case Begin(generation) => DoBegin(r, generation, now, me)
    case RecordStep(name, succeeded, code) => DoRecordStep(r, name, succeeded, code)
    case Finish(state, resulting, codes) => DoFinish(r, state, resulting, codes)
    case Resume(generation) => DoResume(r, generation, now, me)
    case Expire(generation, digest) => DoExpire(r, generation, digest, now)
  }

  // ---- the records document ----

  function RecordId(r: Record): string { r.id }

  function IndexOf(rs: seq<Record>, id: string): Option<nat> {
    IndexBy(RecordId, rs, id)
  }

  function Apply(rs: seq<Record>, id: string, c: Change, now: int, me: Owner): Result<seq<Record>> {
    var i := IndexOf(rs, id);
    if i.None? then Err("control.operation_not_found")
    else
      var r := Mutate(rs[i.value], c, now, me);
      if r.Err? then Err(r.code) else Ok(rs[i.value := r.value])
  }

  /** `_reconcile_running`: running records of dead owners become partial. */
  function ReconcileOne(r: Record, dead: set<Owner>): Record {
    if r.state == Running && r.owner.Process? && r.owner in dead
    then r.(state := Partial, codes := Reconciled, owner := NoOwner)
    else r
  }

  function Reconcile(rs: seq<Record>, dead: set<Owner>): seq<Record> {
    seq(|rs|, i requires 0 <= i < |rs| => ReconcileOne(rs[i], dead))
  }

  predicate Retained(r: Record, now: int, protected: set<string>) {
    r.state == Running || r.id in protected || r.expires > now
  }

  /** `_prune_expired`. */
  function Prune(rs: seq<Record>, now: int, protected: set<string>): seq<Record> {
    if rs == [] then []
    else
      var last := rs[|rs| - 1];
      Prune(rs[..|rs| - 1], now, protected) + if Retained(last, now, protected) then [last] else []
  }

  datatype Request = Request(kind: string, generation: int, key: string, steps: seq<string>)

  predicate RequestOk(q: Request) {
    GenerationOk(q.generation) && 1 <= |q.steps| <= MAX_STEPS && Distinct(q.steps)
  }

  function Planned0(env: Env, q: Request, id: string, now: int): Record {
    Record(id, q.kind, Planned, q.generation, None, env.digest(q.kind, q.generation, q.steps), now, now + LIFETIME, q.key,
           NoOwner, seq(|q.steps|, i requires 0 <= i < |q.steps| => Step(q.steps[i], NotAttempted, None)), ["control.plan_ready"])
  }

  predicate Answers(env: Env, r: Record, q: Request) {
    r.kind == q.kind && r.expected == q.generation && Names(r.steps) == q.steps &&
    r.digest == env.digest(q.kind, q.generation, q.steps)
  }

  function RecordKey(r: Record): string { r.key }

  function KeyIndex(rs: seq<Record>, key: string): Option<nat> {
    IndexBy(RecordKey, rs, key)
  }

  /** `plan` after pruning: the record of the key, or a new one under the drawn id. */
  function AddPlan(env: Env, rs: seq<Record>, q: Request, id: string, now: int): Result<(seq<Record>, Record)> {
    var k := KeyIndex(rs, q.key);
    if k.Some? then
      if Answers(env, rs[k.value], q) then Ok((rs, rs[k.value])) else Err("control.idempotency_conflict")
    else if |rs| >= MAX_RECORDS then Err("control.operation_limit")
    else if IndexOf(rs, id).Some? then Err("control.operation_store_unavailable")
    else Ok((rs + [Planned0(env, q, id, now)], Planned0(env, q, id, now)))
  }

  // ---- the lifecycle owners ----

  datatype Life = Life(operation: string, agent: string, host: string, expected: int, digest: string, acknowledged: bool)

  predicate OwnersReadable(owners: seq<Life>) {
    && |owners| <= MAX_OWNERS
    && forall i, j :: 0 <= i < j < |owners| ==> owners[i].operation != owners[j].operation && owners[i].agent != owners[j].agent
  }

  function Protected(owners: seq<Life>): set<string> {
    set i | 0 <= i < |owners| && !owners[i].acknowledged :: owners[i].operation
  }

  function Owned(owners: seq<Life>): set<string> {
    set i | 0 <= i < |owners| :: owners[i].operation
  }

  function Agents(owners: seq<Life>): set<string> {
    set i | 0 <= i < |owners| :: owners[i].agent
  }

  function LifeOperation(o: Life): string { o.operation }

  function OwnerIndex(owners: seq<Life>, id: string): Option<nat> {
    IndexBy(LifeOperation, owners, id)
  }

  /** `_require_host_probe_lifecycle_record`. */
  predicate LifeShaped(r: Record, digest: string) {
    && r.kind == ProbeKind && r.digest == digest && |r.steps| == 1 && r.steps[0].name == ProbeStep
    && var untried := r.steps[0] == Step(ProbeStep, NotAttempted, None);
       var done := r.steps[0] == Step(ProbeStep, Done, None);
       var broken := BrokenCode(r.steps);
       match r.state
       case Planned => untried && r.resulting.None? && r.codes == ["control.plan_ready"]
       case Running => (untried || done || broken.Some?) && r.resulting.None?
       case Partial => (untried || done || broken.Some?) && r.resulting.None? && r.codes == Reconciled
       case Failed => broken.Some? && r.resulting.None? && r.codes == [broken.value]
       case Succeeded => done && r.resulting == Some(r.expected + 1)
       case _ => false
  }

  function Claim(rs: seq<Record>, owners: seq<Life>, id: string, agent: string, host: string, digest: string): Result<seq<Life>> {
    var o, i := OwnerIndex(owners, id), IndexOf(rs, id);
    if o.Some? then
      var owner := owners[o.value];
      if owner.agent != agent || owner.host != host || owner.digest != digest then Err("control.operation_state_conflict")
      else if i.None? then (if owner.acknowledged then Ok(owners) else Err("control.operation_not_found"))
      else if !LifeShaped(rs[i.value], digest) then Err("control.operation_state_conflict")
      else if owner.expected != rs[i.value].expected then Err("control.operation_store_unavailable")
      else Ok(owners)
    else if i.None? then Err("control.operation_not_found")
    else if !LifeShaped(rs[i.value], digest) || agent in Agents(owners) then Err("control.operation_state_conflict")
    else if |owners| >= MAX_OWNERS then Err("control.operation_limit")
    else Ok(owners + [Life(id, agent, host, rs[i.value].expected, digest, false)])
  }

  function Acknowledge(rs: seq<Record>, owners: seq<Life>, id: string, agent: string, host: string, digest: string): Result<seq<Life>> {
    var o, i := OwnerIndex(owners, id), IndexOf(rs, id);
    if o.None? then Err("control.operation_not_found")
    else
      var owner := owners[o.value];
      if owner.agent != agent || owner.host != host || owner.digest != digest then Err("control.operation_state_conflict")
      else if owner.acknowledged then Ok(owners)
      else if i.None? then Err("control.operation_not_found")
      else if !LifeShaped(rs[i.value], digest) || !Terminal(rs[i.value].state) then Err("control.operation_state_conflict")
      else Ok(owners[o.value := owner.(acknowledged := true)])
  }

  /** What the agent store says about a probe it ran for an admin operation. */
  datatype AgentBinding = AgentBinding(
    admin: string, operation: string, host: string, digest: string, state: string, terminal: Option<string>)

  predicate Candidate(r: Record, owners: seq<Life>, now: int) {
    && r.id !in Owned(owners) && r.expires <= now
    && r.kind == ProbeKind && r.owner.NoOwner? && |r.steps| == 1 && r.steps[0].name == ProbeStep
    && var untried := r.steps[0] == Step(ProbeStep, NotAttempted, None);
       var done := r.steps[0] == Step(ProbeStep, Done, None);
       var broken := BrokenCode(r.steps);
       match r.state
       case Planned => r.resulting.None? && r.codes == ["control.plan_ready"] && r.steps[0].state == NotAttempted
       case Partial => r.resulting.None? && r.codes == Reconciled && (untried || done || broken.Some?)
       case Failed => r.resulting.None? && broken.Some? && r.codes == [broken.value]
       case Succeeded => r.codes == [] && r.resulting == Some(r.expected + 1) && r.steps[0].state == Done
       case _ => false
  }

  /** `_legacy_host_probe_binding_acknowledged`; `None` is the refusal. */
  function Settled(r: Record, b: AgentBinding): Option<bool> {
    if b.terminal.None? then (if b.state == "queued" || b.state == "leased" then Some(false) else None)
    else if r.state in {Planned, Partial} then (if b.terminal == Some("lifecycle") && b.state == "unknown" then Some(false) else None)
    else if r.state == Succeeded then (if b.terminal == Some("receipt") && b.state == "succeeded" then Some(true) else None)
    else if r.state == Failed &&
            ((b.terminal == Some("lifecycle") && b.state == "unknown") ||
             (b.terminal == Some("receipt") && b.state in {"succeeded", "failed", "unknown"}))
    then Some(true)
    else None
  }

  function BindingAdmin(b: AgentBinding): string { b.admin }

  function BindingIndex(bs: seq<AgentBinding>, id: string): Option<nat> {
    IndexBy(BindingAdmin, bs, id)
  }

  /** `_migrate_host_probe_lifecycle_locked`: the owners to add for the first k records. */
  function Migrated(rs: seq<Record>, owners: seq<Life>, bs: seq<AgentBinding>, now: int, k: nat): Result<seq<Life>>
    requires k <= |rs|
  {
    if k == 0 then Ok([])
    else
      var before := Migrated(rs, owners, bs, now, k - 1);
      var r := rs[k - 1];
      if before.Err? || !Candidate(r, owners, now) then before
      else
        var i := BindingIndex(bs, r.id);
        if i.None? then before
        else
          var b := bs[i.value];
          var settled := Settled(r, b);
          if b.digest != r.digest || b.operation in Agents(owners + before.value) || settled.None? then
            Err("control.operation_store_unavailable")
          else if |owners| + |before.value| >= MAX_OWNERS then Err("control.operation_limit")
          else Ok(before.value + [Life(r.id, b.operation, b.host, r.expected, r.digest, settled.value)])
  }

  /** Two bindings for one candidate stop the migration. */
  predicate Ambiguous(rs: seq<Record>, owners: seq<Life>, bs: seq<AgentBinding>, now: int) {
    exists i, j, k :: 0 <= i < j < |bs| && 0 <= k < |rs| && Candidate(rs[k], owners, now) && bs[i].admin == rs[k].id && bs[j].admin == rs[k].id
  }

  function Migrate(rs: seq<Record>, owners: seq<Life>, bs: seq<AgentBinding>, now: int): Result<seq<Life>> {
    if Ambiguous(rs, owners, bs, now) then Err("control.operation_store_unavailable")
    else
      var more := Migrated(rs, owners, bs, now, |rs|);
      if more.Err? then more else Ok(owners + more.value)
  }
}
