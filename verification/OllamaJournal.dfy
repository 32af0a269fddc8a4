/**
 * The durable journal document of the Ollama adapter and the locked sections that
 * rewrite it.  Each function below is one "read the document, check it, replace it"
 * critical section; `OllamaAdapter.Adapter` is the object that runs them on its stored document.
 */
module OllamaJournal {
  import opened Core

  type PlanRef = string
  type InstanceRef = string
  type Unit = string
  type Digest = string

  const MAX_RUNNING: nat := 64
  const MAX_PORT: nat := 65535

  /** Identity of one thread of one process of one boot. */
  datatype Claim = Claim(bootId: string, pid: nat, startTicks: nat, threadId: nat)

  /** Kernel identity of a started scope: pid, control group and start ticks. */
  datatype Proc = Proc(pid: nat, controlGroup: string, startTicks: nat)

  datatype PlanState = Ready | Intent
  datatype RunState = Running | Stopping

  datatype Plan = Plan(
    instance: InstanceRef, generation: nat, digest: Digest, createdAt: nat,
    state: PlanState, claim: Option<Claim>, unit: Option<Unit>, port: Option<nat>,
    queueDigest: Option<Digest>, queueGeneration: Option<nat>)

  datatype RunRecord = RunRecord(
    generation: nat, digest: Digest, unit: Unit, port: nat, proc: Proc,
    state: RunState, claim: Option<Claim>,
    queueDigest: Option<Digest>, queueGeneration: Option<nat>)

  datatype Document = Document(plans: map<PlanRef, Plan>, running: map<InstanceRef, RunRecord>)

  datatype Claimed = Claimed(document: Document, saved: Plan, created: bool)

  /** The shape `_read_locked` demands of a stored plan. */
  predicate PlanShape(p: Plan) {
    if p.state == Ready then p.unit == None && p.port == None
    else p.claim.Some? && p.unit.Some? && p.port.Some? && 1 <= p.port.value <= MAX_PORT
  }

  /** Kernel process identities are positive. */
  predicate ProcOk(p: Proc) {
    1 <= p.pid && 1 <= p.startTicks
  }

  predicate RunShape(r: RunRecord) {
    1 <= r.port <= MAX_PORT && ProcOk(r.proc)
    && (r.state == Stopping ==> r.claim.Some?)
  }

  /** The reader: every locked section starts by refusing a document outside this predicate. */
  predicate Readable(d: Document, maxPlans: nat) {
    |d.plans| <= maxPlans && |d.running| <= MAX_RUNNING
    && (forall ref :: ref in d.plans ==> PlanShape(d.plans[ref]))
    && (forall i :: i in d.running ==> RunShape(d.running[i]))
  }

  predicate Expired(p: Plan, now: nat, maxAge: nat, generation: Option<nat>) {
    p.state == Ready
    && (now - p.createdAt >= maxAge || (generation.Some? && p.generation != generation.value))
  }

  /** `_expire_plans`: only ready plans are ever dropped. */
  function Unexpired(plans: map<PlanRef, Plan>, now: nat, maxAge: nat, generation: Option<nat>): map<PlanRef, Plan> {
    map ref | ref in plans && !Expired(plans[ref], now, maxAge, generation) :: plans[ref]
  }

  function NewPlan(i: InstanceRef, generation: nat, digest: Digest, now: nat): Plan {
    Plan(i, generation, digest, now, Ready, None, None, None, None, None)
  }

  /** The locked section of `plan`. */
  function AddPlan(d: Document, maxPlans: nat, maxAge: nat, ref: PlanRef,
                   i: InstanceRef, generation: nat, digest: Digest, now: nat): Result<Document>
  {
    var kept := Unexpired(d.plans, now, maxAge, Some(generation));
    if |kept| >= maxPlans then Err("provider.plan_limit")
    else Ok(d.(plans := kept[ref := NewPlan(i, generation, digest, now)]))
  }

  /** Another plan already holds an intent for the instance. */
  predicate OtherIntent(plans: map<PlanRef, Plan>, ref: PlanRef, i: InstanceRef) {
    exists other :: other in plans && other != ref && plans[other].instance == i && plans[other].state == Intent
  }

  /**
   * The locked section of `apply`: turn a ready plan into an intent with a new unit and
   * port, or take over the intent of a dead owner keeping its unit and port.
   */
  function ClaimIntent(d: Document, maxAge: nat, ref: PlanRef, now: nat, unit: Unit, port: nat,
                       me: Claim, ownerAlive: bool): Result<Claimed>
  {
    var plans := Unexpired(d.plans, now, maxAge, None);
    if ref !in plans then Err("provider.plan_missing")
    else
      var p := plans[ref];
      if p.instance in d.running then Err("provider.instance_already_running")
      else if OtherIntent(plans, ref, p.instance) then Err("provider.instance_already_running")
      else if p.state == Intent && ownerAlive then Err("provider.instance_starting")
      else
        var saved := if p.state == Ready
                     then p.(state := Intent, claim := Some(me), unit := Some(unit), port := Some(port))
                     else p.(state := Intent, claim := Some(me));
        Ok(Claimed(Document(plans[ref := saved], d.running), saved, p.state == Ready))
  }

  function RunningFrom(saved: Plan, proc: Proc): RunRecord
    requires saved.unit.Some? && saved.port.Some?
  {
    RunRecord(saved.generation, saved.digest, saved.unit.value, saved.port.value, proc,
              Running, None, saved.queueDigest, saved.queueGeneration)
  }

  /** `_commit_running`: replace the intent by a running record if it is still exactly `saved`. */
  function CommitRunning(d: Document, ref: PlanRef, saved: Plan, proc: Proc): Result<Document>
    requires saved.unit.Some? && saved.port.Some?
  {
    if ref in d.plans && d.plans[ref] == saved then
      Ok(Document(d.plans - {ref}, d.running[saved.instance := RunningFrom(saved, proc)]))
    else Err("provider.journal_conflict")
  }

  /** `_reset_plan_intent`: back to ready if the intent is still exactly `saved`. */
  function ResetIntent(d: Document, ref: PlanRef, saved: Plan): Document {
    if ref in d.plans && d.plans[ref] == saved then
      d.(plans := d.plans[ref := saved.(state := Ready, claim := None, unit := None, port := None)])
    else d
  }

  /** The deletion that ends `_reap_absent_intents` for one plan. */
  function DropIntent(d: Document, ref: PlanRef, saved: Plan): Document {
    if ref in d.plans && d.plans[ref] == saved then d.(plans := d.plans - {ref}) else d
  }

  /** `bind_plan_precondition`. */
  function BindPrecondition(d: Document, ref: PlanRef, digest: Digest, generation: Option<nat>): Result<Document> {
    if ref !in d.plans || d.plans[ref].state != Ready then Err("provider.plan_missing")
    else
      var p := d.plans[ref];
      if p.queueDigest != None && p.queueDigest != Some(digest) then Err("provider.plan_precondition_stale")
      else if p.queueGeneration != None && p.queueGeneration != generation
      then Err("provider.resource_generation_stale")
      else Ok(d.(plans := d.plans[ref := p.(queueDigest := Some(digest), queueGeneration := generation)]))
  }

  /** The locked section of `stop`: take the stopping claim unless another live owner holds it. */
  function ClaimStop(d: Document, i: InstanceRef, generation: nat, me: Claim, ownerAlive: bool): Result<(Document, RunRecord)>
  {
    if i !in d.running then Err("provider.instance_missing")
    else
      var r := d.running[i];
      if generation < r.generation then Err("provider.generation_stale")
      else if r.state == Stopping && ownerAlive && r.claim != Some(me) then Err("provider.instance_stopping")
      else
        var saved := r.(state := Stopping, claim := Some(me));
        Ok((d.(running := d.running[i := saved]), saved))
  }

  /** Deletion of a running record that is still exactly `saved` (absent scope). */
  function DropRunning(d: Document, i: InstanceRef, saved: RunRecord): Document {
    if i in d.running && d.running[i] == saved then d.(running := d.running - {i}) else d
  }

  /** The last locked section of `stop`, after the scope was stopped. */
  function FinishStop(d: Document, i: InstanceRef, generation: nat, unit: Unit, pid: nat): Result<Document> {
    if i !in d.running || d.running[i].generation != generation || d.running[i].unit != unit
       || d.running[i].proc.pid != pid
    then Err("provider.journal_conflict")
    else Ok(d.(running := d.running - {i}))
  }

  /** `_reset_stopping`. */
  function ResetStopping(d: Document, i: InstanceRef, saved: RunRecord): Document {
    if i in d.running && d.running[i].state == Stopping && d.running[i].claim == saved.claim
       && d.running[i].unit == saved.unit && d.running[i].proc.pid == saved.proc.pid
       && d.running[i].proc.startTicks == saved.proc.startTicks
    then d.(running := d.running[i := d.running[i].(state := Running, claim := None)])
    else d
  }

  /** The generation refresh at the end of `_running_instance`. */
  function RefreshGeneration(d: Document, i: InstanceRef, saved: RunRecord, generation: nat): Document {
    if saved.generation != generation && i in d.running && d.running[i] == saved
    then d.(running := d.running[i := saved.(generation := generation)])
    else d
  }

  /** Some plan other than `ref` is starting the instance `i`. */
  ghost predicate StartedElsewhere(plans: map<PlanRef, Plan>, ref: PlanRef, i: InstanceRef) {
    exists other :: other in plans && other != ref && plans[other].state == Intent && plans[other].instance == i
  }

  /** A stored plan outlives a call at `now` exactly as an intent or as a ready plan of bounded age and fitting generation. */
  ghost predicate Lives(p: Plan, now: nat, maxAge: nat, generation: Option<nat>) {
    p.state == Intent || (now < p.createdAt + maxAge && (generation == None || generation == Some(p.generation)))
  }

  /**
   * `apply` gets its intent exactly if the plan is there, nothing runs or starts its instance, and the
   * plan is a ready one younger than the maximal age or the intent of a dead owner.
   */
  lemma ClaimExactly(d: Document, maxAge: nat, ref: PlanRef, now: nat, unit: Unit, port: nat, me: Claim, ownerAlive: bool)
    ensures ClaimIntent(d, maxAge, ref, now, unit, port, me, ownerAlive).Ok?
            <==> && ref in d.plans
                 && d.plans[ref].instance !in d.running
                 && !StartedElsewhere(d.plans, ref, d.plans[ref].instance)
                 && (if d.plans[ref].state == Ready then now - d.plans[ref].createdAt < maxAge else !ownerAlive)
  {
    var kept := Unexpired(d.plans, now, maxAge, None);
    assert forall other :: other in d.plans && d.plans[other].state == Intent ==> other in kept;
    assert ref in kept && StartedElsewhere(d.plans, ref, d.plans[ref].instance) ==> OtherIntent(kept, ref, kept[ref].instance);
  }

  /** What a refused claim answers, from the plan as it was stored. */
  lemma ClaimRefusal(d: Document, maxAge: nat, ref: PlanRef, now: nat, unit: Unit, port: nat, me: Claim, ownerAlive: bool)
    requires ClaimIntent(d, maxAge, ref, now, unit, port, me, ownerAlive).Err?
    ensures var code := ClaimIntent(d, maxAge, ref, now, unit, port, me, ownerAlive).code;
            && (code == "provider.plan_missing"
                <==> ref !in d.plans || (d.plans[ref].state == Ready && now - d.plans[ref].createdAt >= maxAge))
            && (code == "provider.instance_starting"
                <==> && ref in d.plans && d.plans[ref].state == Intent && ownerAlive
                     && d.plans[ref].instance !in d.running && !StartedElsewhere(d.plans, ref, d.plans[ref].instance))
            && code in {"provider.plan_missing", "provider.instance_starting", "provider.instance_already_running"}
  {
    var kept := Unexpired(d.plans, now, maxAge, None);
    assert forall other :: other in d.plans && d.plans[other].state == Intent ==> other in kept;
    assert ref in kept && StartedElsewhere(d.plans, ref, d.plans[ref].instance) ==> OtherIntent(kept, ref, kept[ref].instance);
  }

  /**
   * A claim keeps what was planned and drops exactly the outdated ready plans.  A ready plan gets the
   * new unit and port; a taken over intent keeps those of the owner that died.
   */
  lemma ClaimWrites(d: Document, maxAge: nat, ref: PlanRef, now: nat, unit: Unit, port: nat, me: Claim, ownerAlive: bool)
    requires ClaimIntent(d, maxAge, ref, now, unit, port, me, ownerAlive).Ok?
    ensures var r := ClaimIntent(d, maxAge, ref, now, unit, port, me, ownerAlive).value;
            && ref in d.plans && ref in r.document.plans && r.document.plans[ref] == r.saved && r.document.running == d.running
            && (forall other :: other != ref ==>
                  (other in r.document.plans <==> other in d.plans && Lives(d.plans[other], now, maxAge, None))
                  && (other in r.document.plans ==> r.document.plans[other] == d.plans[other]))
            && (r.created <==> d.plans[ref].state == Ready)
            && r.saved.state == Intent && r.saved.claim == Some(me)
            && (r.created ==> r.saved.unit == Some(unit) && r.saved.port == Some(port))
            && (!r.created ==> r.saved.unit == d.plans[ref].unit && r.saved.port == d.plans[ref].port)
            && SameOrder(d.plans[ref], r.saved)
            && r.saved.queueDigest == d.plans[ref].queueDigest && r.saved.queueGeneration == d.plans[ref].queueGeneration
  {
  }

  /** Two versions of a plan order the same thing: only the claim, unit, port, state and queue fields may differ. */
  ghost predicate SameOrder(p: Plan, q: Plan) {
    p.instance == q.instance && p.generation == q.generation && p.digest == q.digest && p.createdAt == q.createdAt
  }

  lemma UnexpiredLives(plans: map<PlanRef, Plan>, now: nat, maxAge: nat, generation: Option<nat>)
    ensures Unexpired(plans, now, maxAge, generation).Keys == set ref | ref in plans && Lives(plans[ref], now, maxAge, generation)
    ensures forall ref :: ref in Unexpired(plans, now, maxAge, generation) ==> Unexpired(plans, now, maxAge, generation)[ref] == plans[ref]
  {
  }

  /**
   * After `plan` the document holds, beside the new plan, exactly the intents and the ready plans of the
   * given generation younger than the maximal age, and it is refused exactly if those fill the document.
   */
  lemma AddPlanExactly(d: Document, maxPlans: nat, maxAge: nat, ref: PlanRef,
                       i: InstanceRef, generation: nat, digest: Digest, now: nat)
    ensures var r := AddPlan(d, maxPlans, maxAge, ref, i, generation, digest, now);
            var kept := set other | other in d.plans && Lives(d.plans[other], now, maxAge, Some(generation));
            && (r.Ok? <==> |kept| < maxPlans)
            && (r.Err? ==> r.code == "provider.plan_limit")
            && (r.Ok? ==> && r.value.running == d.running
                          && r.value.plans.Keys == kept + {ref}
                          && (forall other :: other in kept && other != ref ==> r.value.plans[other] == d.plans[other])
                          && r.value.plans[ref] == Plan(i, generation, digest, now, Ready, None, None, None, None, None))
  {
    UnexpiredLives(d.plans, now, maxAge, Some(generation));
    var after := Unexpired(d.plans, now, maxAge, Some(generation));
    hide Unexpired, Lives;
    assert |after| == |after.Keys|;
  }

  /** Resetting a claimed ready plan leaves the document as if it had never been claimed, outdated plans aside. */
  lemma ClaimThenReset(d: Document, maxAge: nat, ref: PlanRef, now: nat, unit: Unit, port: nat, me: Claim, ownerAlive: bool)
    requires ref in d.plans && d.plans[ref].state == Ready && PlanShape(d.plans[ref]) && d.plans[ref].claim == None
    requires ClaimIntent(d, maxAge, ref, now, unit, port, me, ownerAlive).Ok?
    ensures var r := ClaimIntent(d, maxAge, ref, now, unit, port, me, ownerAlive).value;
            var back := ResetIntent(r.document, ref, r.saved);
            && back.running == d.running
            && back.plans.Keys == (set other | other in d.plans && Lives(d.plans[other], now, maxAge, None))
            && forall other :: other in back.plans ==> back.plans[other] == d.plans[other]
  {
    ClaimExactly(d, maxAge, ref, now, unit, port, me, ownerAlive);
    ClaimWrites(d, maxAge, ref, now, unit, port, me, ownerAlive);
    hide ClaimIntent, StartedElsewhere;
  }

  /** `stop` is refused exactly for an unknown instance, an older generation, or a stop by another live owner. */
  lemma ClaimStopExactly(d: Document, i: InstanceRef, generation: nat, me: Claim, ownerAlive: bool)
    ensures ClaimStop(d, i, generation, me, ownerAlive).Ok?
            <==> && i in d.running && d.running[i].generation <= generation
                 && (d.running[i].state == Running || !ownerAlive || d.running[i].claim == Some(me))
  {
  }

  /** A stop that gives up leaves the document as it was before its claim. */
  lemma ClaimStopThenReset(d: Document, i: InstanceRef, generation: nat, me: Claim, ownerAlive: bool)
    requires ClaimStop(d, i, generation, me, ownerAlive).Ok?
    ensures var r := ClaimStop(d, i, generation, me, ownerAlive).value;
            var back := ResetStopping(r.0, i, r.1);
            && back == d.(running := d.running[i := d.running[i].(state := Running, claim := None)])
            && (d.running[i].state == Running && d.running[i].claim == None ==> back == d)
  {
    var r := ClaimStop(d, i, generation, me, ownerAlive).value;
    var back := ResetStopping(r.0, i, r.1);
    var cleared := d.running[i].(state := Running, claim := None);
    assert back.running == d.running[i := cleared];
    assert d.running[i] == cleared ==> back.running == d.running;
  }

  /** A stop that ran to its end, through the generation refresh, removes its record and nothing else. */
  lemma ClaimStopThenFinish(d: Document, i: InstanceRef, generation: nat, me: Claim, ownerAlive: bool)
    requires ClaimStop(d, i, generation, me, ownerAlive).Ok?
    ensures var r := ClaimStop(d, i, generation, me, ownerAlive).value;
            FinishStop(RefreshGeneration(r.0, i, r.1, generation), i, generation, d.running[i].unit, d.running[i].proc.pid)
            == Ok(Document(d.plans, d.running - {i}))
  {
    var r := ClaimStop(d, i, generation, me, ownerAlive).value;
    var refreshed := RefreshGeneration(r.0, i, r.1, generation);
    assert refreshed.running - {i} == d.running - {i};
  }

  /** A commit goes through exactly over the unchanged intent, and runs what was planned, as the process given. */
  lemma CommitExactly(d: Document, ref: PlanRef, saved: Plan, proc: Proc)
    requires saved.unit.Some? && saved.port.Some?
    ensures var r := CommitRunning(d, ref, saved, proc);
            && (r.Ok? <==> ref in d.plans && d.plans[ref] == saved)
            && (r.Ok? ==>
                  && r.value.plans.Keys == d.plans.Keys - {ref} && (forall o :: o in r.value.plans ==> r.value.plans[o] == d.plans[o])
                  && r.value.running.Keys == d.running.Keys + {saved.instance}
                  && (forall i :: i in d.running && i != saved.instance ==> r.value.running[i] == d.running[i])
                  && var run := r.value.running[saved.instance];
                     && run.generation == saved.generation && run.digest == saved.digest
                     && run.unit == saved.unit.value && run.port == saved.port.value && run.proc == proc
                     && run.state == Running && run.claim == None
                     && run.queueDigest == saved.queueDigest && run.queueGeneration == saved.queueGeneration)
  {
  }

  /** Reaping drops the entry exactly if it is still the one that was looked at, and touches no other. */
  lemma DropExactly(d: Document, ref: PlanRef, plan: Plan, i: InstanceRef, run: RunRecord)
    ensures DropIntent(d, ref, plan).running == d.running && DropRunning(d, i, run).plans == d.plans
    ensures DropIntent(d, ref, plan).plans == if ref in d.plans && d.plans[ref] == plan then d.plans - {ref} else d.plans
    ensures DropRunning(d, i, run).running == if i in d.running && d.running[i] == run then d.running - {i} else d.running
  {
  }

  /** A stop ends exactly over the record of its own process, unit and generation. */
  lemma FinishStopExactly(d: Document, i: InstanceRef, generation: nat, unit: Unit, pid: nat)
    ensures FinishStop(d, i, generation, unit, pid).Ok?
            <==> i in d.running && (d.running[i].generation, d.running[i].unit, d.running[i].proc.pid) == (generation, unit, pid)
  {
  }

  /** A bound precondition can be bound again unchanged, and never to another digest or resource generation. */
  lemma BindOnce(d: Document, ref: PlanRef, digest: Digest, generation: Option<nat>, digest': Digest, generation': Option<nat>)
    requires BindPrecondition(d, ref, digest, generation).Ok?
    ensures var bound := BindPrecondition(d, ref, digest, generation).value;
            && ref in bound.plans && SameOrder(d.plans[ref], bound.plans[ref])
            && BindPrecondition(bound, ref, digest, generation) == Ok(bound)
            && (BindPrecondition(bound, ref, digest', generation').Ok?
                <==> digest' == digest && (generation == None || generation' == generation))
  {
    var bound := BindPrecondition(d, ref, digest, generation).value;
    assert bound.plans[ref := bound.plans[ref]] == bound.plans;
  }

  /**
   * `_commit_running` writes without a count check although the reader refuses more than
   * 64 running records: the committed document is readable exactly when the instance is
   * already listed or there is room for one more.
   */
  lemma CommitReadable(d: Document, maxPlans: nat, ref: PlanRef, saved: Plan, proc: Proc)
    requires Readable(d, maxPlans) && saved.unit.Some? && saved.port.Some?
    requires ref in d.plans && d.plans[ref] == saved && saved.state == Intent
    requires ProcOk(proc)
    ensures Readable(CommitRunning(d, ref, saved, proc).value, maxPlans)
            <==> (saved.instance in d.running || |d.running| < MAX_RUNNING)
  {
    var d' := CommitRunning(d, ref, saved, proc).value;
    assert d'.running.Keys == d.running.Keys + {saved.instance};
    assert |d'.running| == |d'.running.Keys| && |d.running| == |d.running.Keys|;
    assert d'.plans.Keys == d.plans.Keys - {ref};
    assert |d'.plans| == |d'.plans.Keys| && |d.plans| == |d.plans.Keys|;
  }

  /** The other section that can grow the document, `plan`, never outgrows the reader. */
  lemma AddPlanReadable(d: Document, maxPlans: nat, maxAge: nat, ref: PlanRef,
                        i: InstanceRef, generation: nat, digest: Digest, now: nat)
    requires Readable(d, maxPlans)
    ensures var r := AddPlan(d, maxPlans, maxAge, ref, i, generation, digest, now);
            r.Ok? ==> Readable(r.value, maxPlans)
  {
    var kept := Unexpired(d.plans, now, maxAge, Some(generation));
    var grown := kept[ref := NewPlan(i, generation, digest, now)];
    assert grown.Keys == kept.Keys + {ref};
    assert |grown| == |grown.Keys| && |kept| == |kept.Keys|;
  }

}

/** The adapter object: one stored document rewritten under the store lock. */
module OllamaAdapter {
  import opened Core
  import opened OllamaJournal

  class Adapter {
    var plans: map<PlanRef, Plan>
    var running: map<InstanceRef, RunRecord>
    const maxPlans: nat
    const maxAge: nat

    ghost function Stored(): Document
      reads this
    {
      Document(plans, running)
    }

    constructor (maxPlans: nat, maxAge: nat)
      ensures Stored() == Document(map[], map[])
      ensures this.maxPlans == maxPlans && this.maxAge == maxAge
    {
      this.maxPlans, this.maxAge := maxPlans, maxAge;
      plans, running := map[], map[];
    }

    /** Delete expired plans one by one. */
    method ExpirePlans(now: nat, generation: Option<nat>)
      modifies this`plans
      ensures plans == Unexpired(old(plans), now, maxAge, generation)
    {
      var expired := set ref | ref in plans && Expired(plans[ref], now, maxAge, generation);
      var before := plans;
      ghost var all := expired;
      while expired != {}
        invariant expired <= all
        invariant all == set ref | ref in before && Expired(before[ref], now, maxAge, generation)
        invariant plans == before - (all - expired)
        decreases |expired|
      {
        var ref :| ref in expired;
        plans := plans - {ref};
        expired := expired - {ref};
      }
    }

    method AddPlan(ref: PlanRef, i: InstanceRef, generation: nat, digest: Digest, now: nat) returns (r: Result<PlanRef>)
      modifies this`plans
      ensures var spec := OllamaJournal.AddPlan(old(Stored()), maxPlans, maxAge, ref, i, generation, digest, now);
              if spec.Ok? then r == Ok(ref) && Stored() == spec.value
              else r == Err(spec.code) && Stored() == old(Stored())
    {
      var before := plans;
      ExpirePlans(now, Some(generation));
      if |plans| >= maxPlans {
        plans := before;
        return Err("provider.plan_limit");
      }
      plans := plans[ref := NewPlan(i, generation, digest, now)];
      r := Ok(ref);
    }

    method ClaimIntent(ref: PlanRef, now: nat, unit: Unit, port: nat, me: Claim, ownerAlive: bool)
      returns (r: Result<(Plan, bool)>)
      modifies this`plans
      ensures var spec := OllamaJournal.ClaimIntent(old(Stored()), maxAge, ref, now, unit, port, me, ownerAlive);
              if spec.Ok? then r == Ok((spec.value.saved, spec.value.created)) && Stored() == spec.value.document
              else r == Err(spec.code) && Stored() == old(Stored())
    {
      var before := plans;
      ExpirePlans(now, None);
      if ref !in plans { plans := before; return Err("provider.plan_missing"); }
      var p := plans[ref];
      if p.instance in running || OtherIntent(plans, ref, p.instance) {
        plans := before;
        return Err("provider.instance_already_running");
      }
      if p.state == Intent && ownerAlive { plans := before; return Err("provider.instance_starting"); }
      var created := p.state == Ready;
      if created {
        p := p.(unit := Some(unit), port := Some(port));
      }
      p := p.(state := Intent, claim := Some(me));
      plans := plans[ref := p];
      r := Ok((p, created));
    }

    method CommitRunning(ref: PlanRef, saved: Plan, proc: Proc) returns (r: Result<InstanceRef>)
      requires saved.unit.Some? && saved.port.Some?
      modifies this`plans, this`running
      ensures var spec := OllamaJournal.CommitRunning(old(Stored()), ref, saved, proc);
              if spec.Ok? then r == Ok(saved.instance) && Stored() == spec.value
              else r == Err(spec.code) && Stored() == old(Stored())
    {
      if ref !in plans || plans[ref] != saved {
        return Err("provider.journal_conflict");
      }
      plans := plans - {ref};
      running := running[saved.instance := RunningFrom(saved, proc)];
      r := Ok(saved.instance);
    }

    method ResetIntent(ref: PlanRef, saved: Plan)
      modifies this`plans
      ensures Stored() == OllamaJournal.ResetIntent(old(Stored()), ref, saved)
    {
      if ref in plans && plans[ref] == saved {
        plans := plans[ref := saved.(state := Ready, claim := None, unit := None, port := None)];
      }
    }

    method DropIntent(ref: PlanRef, saved: Plan)
      modifies this`plans
      ensures Stored() == OllamaJournal.DropIntent(old(Stored()), ref, saved)
    {
      if ref in plans && plans[ref] == saved {
        plans := plans - {ref};
      }
    }

    method ClaimStop(i: InstanceRef, generation: nat, me: Claim, ownerAlive: bool) returns (r: Result<RunRecord>)
      modifies this`running
      ensures var spec := OllamaJournal.ClaimStop(old(Stored()), i, generation, me, ownerAlive);
              if spec.Ok? then r == Ok(spec.value.1) && Stored() == spec.value.0
              else r == Err(spec.code) && Stored() == old(Stored())
    {
      if i !in running { return Err("provider.instance_missing"); }
      var saved := running[i];
      if generation < saved.generation { return Err("provider.generation_stale"); }
      if saved.state == Stopping && ownerAlive && saved.claim != Some(me) {
        return Err("provider.instance_stopping");
      }
      saved := saved.(state := Stopping, claim := Some(me));
      running := running[i := saved];
      r := Ok(saved);
    }

    method DropRunning(i: InstanceRef, saved: RunRecord)
      modifies this`running
      ensures Stored() == OllamaJournal.DropRunning(old(Stored()), i, saved)
    {
      if i in running && running[i] == saved {
        running := running - {i};
      }
    }

    method FinishStop(i: InstanceRef, generation: nat, unit: Unit, pid: nat) returns (r: Result<bool>)
      modifies this`running
      ensures var spec := OllamaJournal.FinishStop(old(Stored()), i, generation, unit, pid);
              if spec.Ok? then r == Ok(true) && Stored() == spec.value
              else r == Err(spec.code) && Stored() == old(Stored())
    {
      if i !in running || running[i].generation != generation || running[i].unit != unit
         || running[i].proc.pid != pid {
        return Err("provider.journal_conflict");
      }
      running := running - {i};
      r := Ok(true);
    }

    method ResetStopping(i: InstanceRef, saved: RunRecord)
      modifies this`running
      ensures Stored() == OllamaJournal.ResetStopping(old(Stored()), i, saved)
    {
      if i in running {
        var r := running[i];
        if r.state == Stopping && r.claim == saved.claim && r.unit == saved.unit
           && r.proc.pid == saved.proc.pid && r.proc.startTicks == saved.proc.startTicks {
          running := running[i := r.(state := Running, claim := None)];
        }
      }
    }
  }
}
