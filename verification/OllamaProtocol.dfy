/**
 * Many threads of many processes run plan, apply, stop, probe and both reapers over one
 * journal, any of them may crash anywhere, and scopes may die on their own.  A world holds
 * the durable document, the live scopes and the program counter of every live thread; a
 * step is one locked section, one external effect or one observation.  A section that finds
 * the document unreadable raises, and the thread goes on in the handler around it.
 *
 * Assumptions on the environment: a thread reported dead takes no further step, the
 * runtime reports a unit absent only when it is, and generated unit names, plan
 * references and thread identities are new.
 */
module OllamaProtocol {
  import opened Core
  import opened OllamaJournal

  datatype Scope = Scope(instance: InstanceRef, proc: Proc)

  /** What the runtime reports about a unit; errors and conflicts are `Abandon` steps. */
  datatype Observation = Absent | Exact(proc: Proc)

  datatype StartOutcome = StartedOk(proc: Proc) | FailedClean | FailedUnknown(left: Option<Proc>)

  datatype Pc =
    | Idle
    | Reaping(snapshot: map<PlanRef, Plan>)
    | ReapAbsent(snapshot: map<PlanRef, Plan>, ref: PlanRef)
    | ReapExact(snapshot: map<PlanRef, Plan>, ref: PlanRef, proc: Proc)
    | ApplyClaimed(ref: PlanRef, plan: Plan, created: bool)
    | ApplyAbsent(ref: PlanRef, plan: Plan, created: bool)
    | ApplyExact(ref: PlanRef, plan: Plan, proc: Proc)
    | ApplyStarted(ref: PlanRef, plan: Plan, proc: Proc)
    | ApplyCommitFailed(ref: PlanRef, plan: Plan)
    | ApplyReset(ref: PlanRef, plan: Plan)
    | RunReading(i: InstanceRef, saved: RunRecord)
    | RunAbsent(i: InstanceRef, saved: RunRecord)
    | StopClaimed(i: InstanceRef, saved: RunRecord, generation: nat)
    | StopReading(i: InstanceRef, saved: RunRecord, current: RunRecord, generation: nat)
    | StopAbsent(i: InstanceRef, saved: RunRecord)
    | StopReset(i: InstanceRef, saved: RunRecord)
    | StopAdopted(i: InstanceRef, current: RunRecord, generation: nat)
    | StopReady(i: InstanceRef, unit: Unit, proc: Proc, generation: nat)
    | StopDone(i: InstanceRef, unit: Unit, proc: Proc, generation: nat)
    | ProbeAdopted(i: InstanceRef, saved: RunRecord, generation: nat)

  datatype World = World(
    document: Document, live: map<Unit, Scope>,
    usedUnits: set<Unit>, usedRefs: set<PlanRef>, born: set<Claim>,
    threads: map<Claim, Pc>)

  datatype Step =
    | Spawn(t: Claim)
    | Crash(t: Claim)
    | Abandon(t: Claim)
    | ScopeDies(u: Unit)
    | MakePlan(t: Claim, ref: PlanRef, i: InstanceRef, generation: nat, digest: Digest, now: nat)
    | Bind(t: Claim, ref: PlanRef, digest: Digest, resource: Option<nat>)
    | ReapBegin(t: Claim)
    | ReapLook(t: Claim, ref: PlanRef, seen: Observation)
    | ReapDrop(t: Claim)
    | ReapCommit(t: Claim)
    | ApplyClaim(t: Claim, ref: PlanRef, now: nat, unit: Unit, port: nat, ownerAlive: bool)
    | ApplyChanged(t: Claim)
    | ApplyRecover(t: Claim, seen: Observation)
    | ApplyStart(t: Claim, outcome: StartOutcome)
    | ApplyCommit(t: Claim)
    | ApplyCommitFails(t: Claim, written: bool)
    | ApplyUndo(t: Claim)
    | ApplyResetWrite(t: Claim)
    | RunReapBegin(t: Claim, i: InstanceRef)
    | RunReapLook(t: Claim)
    | RunReapDrop(t: Claim)
    | StopClaim(t: Claim, i: InstanceRef, generation: nat, ownerAlive: bool)
    | StopReread(t: Claim)
    | StopLook(t: Claim, report: Option<Observation>)
    | StopDropAbsent(t: Claim)
    | StopResetWrite(t: Claim)
    | StopRefresh(t: Claim)
    | StopEffect(t: Claim)
    | StopFinish(t: Claim)
    | ProbeRead(t: Claim, i: InstanceRef, generation: nat, ownerAlive: bool)
    | ProbeRefresh(t: Claim)

  datatype Config = Config(maxPlans: nat, maxAge: nat)

  const Init := World(Document(map[], map[]), map[], {}, {}, {}, map[])

  // ---------------------------------------------------------------- steps

  function Goto(w: World, t: Claim, pc: Pc): World {
    w.(threads := w.threads[t := pc])
  }

  function Write(w: World, d: Document, t: Claim, pc: Pc): World {
    w.(document := d, threads := w.threads[t := pc])
  }

  /** Liveness reports never call a live thread dead. */
  predicate Truthful(w: World, claim: Option<Claim>, reportedAlive: bool) {
    claim.Some? && claim.value in w.threads ==> reportedAlive
  }

  predicate SeenTrue(w: World, unit: Unit, seen: Observation) {
    match seen
    case Absent => unit !in w.live
    case Exact(proc) => unit in w.live && w.live[unit].proc == proc
  }

  /** Steps of the environment and of the shared prologue; `None` when not enabled. */
  function DoEnvironment(w: World, s: Step): Option<World> {
    match s
    case Spawn(t) =>
      if t in w.born then None else Some(w.(born := w.born + {t}, threads := w.threads[t := Idle]))
    case Crash(t) =>
      if t in w.threads then Some(w.(threads := w.threads - {t})) else None
    case Abandon(t) =>
      if t in w.threads then Some(Goto(w, t, Idle)) else None
    case ScopeDies(u) =>
      Some(w.(live := w.live - {u}))
    case _ => None
  }

  function DoPlan(c: Config, w: World, s: Step): Option<World>
    requires s.MakePlan? || s.Bind?
  {
    if s.t !in w.threads || w.threads[s.t] != Idle then None else
    match s
    case MakePlan(t, ref, i, generation, digest, now) =>
      var r := AddPlan(w.document, c.maxPlans, c.maxAge, ref, i, generation, digest, now);
      if ref in w.usedRefs || r.Err? then None
      else Some(w.(document := r.value, usedRefs := w.usedRefs + {ref}))
    case Bind(t, ref, digest, resource) =>
      var r := BindPrecondition(w.document, ref, digest, resource);
      if r.Err? then None else Some(w.(document := r.value))
  }

  /** `_reap_absent_intents`, one plan of the snapshot at a time. */
  function DoReap(w: World, s: Step): Option<World>
    requires s.ReapBegin? || s.ReapLook? || s.ReapDrop? || s.ReapCommit?
  {
    if s.t !in w.threads then None else
    match (s, w.threads[s.t])
    case (ReapBegin(t), Idle) => Some(Goto(w, t, Reaping(w.document.plans)))
    case (ReapLook(t, ref, seen), Reaping(snap)) =>
      if ref !in snap || snap[ref].state != Intent || !PlanShape(snap[ref]) then None
      else if !Truthful(w, snap[ref].claim, false) || !SeenTrue(w, snap[ref].unit.value, seen) then None
      else Some(Goto(w, t, if seen.Absent? then ReapAbsent(snap, ref) else ReapExact(snap, ref, seen.proc)))
    case (ReapDrop(t), ReapAbsent(snap, ref)) =>
      if ref !in snap then None
      else Some(Write(w, DropIntent(w.document, ref, snap[ref]), t, Reaping(snap)))
    case (ReapCommit(t), ReapExact(snap, ref, proc)) =>
      if ref !in snap || !PlanShape(snap[ref]) || snap[ref].state != Intent then None
      else
        var r := CommitRunning(w.document, ref, snap[ref], proc);
        Some(Write(w, if r.Ok? then r.value else w.document, t, Reaping(snap)))
    case _ => None
  }

  /** `apply` from its claim to its commit, including the failure handlers. */
  function DoApply(c: Config, w: World, s: Step): Option<World>
    requires s.ApplyClaim? || s.ApplyChanged? || s.ApplyRecover? || s.ApplyStart?
  {
    if s.t !in w.threads then None else
    match (s, w.threads[s.t])
    case (ApplyClaim(t, ref, now, unit, port, ownerAlive), Idle) =>
      var r := ClaimIntent(w.document, c.maxAge, ref, now, unit, port, t, ownerAlive);
      if r.Err? || unit in w.usedUnits || !(1 <= port <= MAX_PORT) then None
      else if !Truthful(w, w.document.plans[ref].claim, ownerAlive) then None
      else Some(Write(w, r.value.document, t, ApplyClaimed(ref, r.value.saved, r.value.created))
                .(usedUnits := w.usedUnits + {unit}))
    case (ApplyChanged(t), ApplyClaimed(ref, saved, created)) =>
      Some(Goto(w, t, if created then ApplyReset(ref, saved) else Idle))
    case (ApplyChanged(t), ApplyAbsent(ref, saved, created)) =>
      Some(Goto(w, t, if created then ApplyReset(ref, saved) else Idle))
    case (ApplyRecover(t, seen), ApplyClaimed(ref, saved, created)) =>
      if saved.unit.None? || !SeenTrue(w, saved.unit.value, seen) then None
      else Some(Goto(w, t, if seen.Absent? then ApplyAbsent(ref, saved, created) else ApplyExact(ref, saved, seen.proc)))
    case (ApplyStart(t, outcome), ApplyAbsent(ref, saved, created)) =>
      if saved.unit.None? then None else
      var u := saved.unit.value;
      (match outcome
       case StartedOk(proc) =>
         if !ProcOk(proc) then None else
         Some(Goto(w, t, ApplyStarted(ref, saved, proc)).(live := w.live[u := Scope(saved.instance, proc)]))
       case FailedClean => Some(Goto(w, t, ApplyReset(ref, saved)).(live := w.live - {u}))
       case FailedUnknown(left) =>
         if left.Some? && !ProcOk(left.value) then None else
         Some(Goto(w, t, Idle).(live := if left.Some? then w.live[u := Scope(saved.instance, left.value)] else w.live)))
    case _ => None
  }

  function DoApplyEnd(w: World, s: Step): Option<World>
    requires s.ApplyCommit? || s.ApplyCommitFails? || s.ApplyUndo? || s.ApplyResetWrite?
  {
    if s.t !in w.threads then None else
    match (s, w.threads[s.t])
    case (ApplyCommit(t), ApplyExact(ref, saved, proc)) =>
      if !PlanShape(saved) || saved.state != Intent then None else
      var r := CommitRunning(w.document, ref, saved, proc);
      if r.Ok? then Some(Write(w, r.value, t, Idle)) else Some(Goto(w, t, Idle))
    case (ApplyCommit(t), ApplyStarted(ref, saved, proc)) =>
      if !PlanShape(saved) || saved.state != Intent then None else
      var r := CommitRunning(w.document, ref, saved, proc);
      if r.Ok? then Some(Write(w, r.value, t, Idle)) else Some(Goto(w, t, ApplyCommitFailed(ref, saved)))
    case (ApplyCommitFails(t, written), ApplyStarted(ref, saved, proc)) =>
      if !PlanShape(saved) || saved.state != Intent then None else
      var r := CommitRunning(w.document, ref, saved, proc);
      Some(Write(w, if written && r.Ok? then r.value else w.document, t, ApplyCommitFailed(ref, saved)))
    case (ApplyUndo(t), ApplyCommitFailed(ref, saved)) =>
      if saved.unit.None? then None
      else Some(Goto(w, t, ApplyReset(ref, saved)).(live := w.live - {saved.unit.value}))
    case (ApplyResetWrite(t), ApplyReset(ref, saved)) =>
      Some(Write(w, ResetIntent(w.document, ref, saved), t, Idle))
    case _ => None
  }

  /** `_reap_dead_running`, and the generation refresh of `probe`. */
  function DoRunning(w: World, s: Step): Option<World>
    requires s.RunReapBegin? || s.RunReapLook? || s.RunReapDrop? || s.ProbeRead? || s.ProbeRefresh?
  {
    if s.t !in w.threads then None else
    match (s, w.threads[s.t])
    case (RunReapBegin(t, i), Idle) =>
      if i !in w.document.running || w.document.running[i].state != Running then None
      else Some(Goto(w, t, RunReading(i, w.document.running[i])))
    case (RunReapLook(t), RunReading(i, saved)) =>
      if saved.unit in w.live then None else Some(Goto(w, t, RunAbsent(i, saved)))
    case (RunReapDrop(t), RunAbsent(i, saved)) =>
      Some(Write(w, DropRunning(w.document, i, saved), t, Idle))
    case (ProbeRead(t, i, generation, ownerAlive), Idle) =>
      if i !in w.document.running || generation < w.document.running[i].generation then None else
      var r := w.document.running[i];
      if r.state == Stopping && (ownerAlive || !Truthful(w, r.claim, false)) then None
      else Some(Goto(w, t, ProbeAdopted(i, r, generation)))
    case (ProbeRefresh(t), ProbeAdopted(i, saved, generation)) =>
      Some(Write(w, RefreshGeneration(w.document, i, saved, generation), t, Idle))
    case _ => None
  }

  /** `stop` up to the point where the scope has been identified. */
  function DoStop(w: World, s: Step): Option<World>
    requires s.StopClaim? || s.StopReread? || s.StopLook? || s.StopDropAbsent? || s.StopResetWrite?
  {
    if s.t !in w.threads then None else
    match (s, w.threads[s.t])
    case (StopClaim(t, i, generation, ownerAlive), Idle) =>
      var r := ClaimStop(w.document, i, generation, t, ownerAlive);
      if r.Err? || !Truthful(w, w.document.running[i].claim, ownerAlive) then None
      else Some(Write(w, r.value.0, t, StopClaimed(i, r.value.1, generation)))
    case (StopReread(t), StopClaimed(i, saved, generation)) =>
      if i !in w.document.running || generation < w.document.running[i].generation
      then Some(Goto(w, t, StopReset(i, saved)))
      else Some(Goto(w, t, StopReading(i, saved, w.document.running[i], generation)))
    case (StopLook(t, report), StopReading(i, saved, current, generation)) =>
      if report.None? then Some(Goto(w, t, StopReset(i, saved)))
      else if !SeenTrue(w, current.unit, report.value) then None
      else if report.value.Absent? then Some(Goto(w, t, StopAbsent(i, saved)))
      else if report.value.proc != current.proc then None
      else Some(Goto(w, t, StopAdopted(i, current, generation)))
    case (StopDropAbsent(t), StopAbsent(i, saved)) =>
      Some(Write(w, DropRunning(w.document, i, saved), t, Idle))
    case (StopResetWrite(t), StopReset(i, saved)) =>
      Some(Write(w, ResetStopping(w.document, i, saved), t, Idle))
    case _ => None
  }

  function DoStopEnd(w: World, s: Step): Option<World>
    requires s.StopRefresh? || s.StopEffect? || s.StopFinish?
  {
    if s.t !in w.threads then None else
    match (s, w.threads[s.t])
    case (StopRefresh(t), StopAdopted(i, current, generation)) =>
      Some(Write(w, RefreshGeneration(w.document, i, current, generation), t,
                 StopReady(i, current.unit, current.proc, generation)))
    case (StopEffect(t), StopReady(i, unit, proc, generation)) =>
      Some(Goto(w, t, StopDone(i, unit, proc, generation)).(live := w.live - {unit}))
    case (StopFinish(t), StopDone(i, unit, proc, generation)) =>
      var r := FinishStop(w.document, i, generation, unit, proc.pid);
      Some(Write(w, if r.Ok? then r.value else w.document, t, Idle))
    case _ => None
  }

  /** A step whose document, if it reads one, is readable. */
  function Section(c: Config, w: World, s: Step): Option<World> {
    if s.Spawn? || s.Crash? || s.Abandon? || s.ScopeDies? then DoEnvironment(w, s)
    else if s.MakePlan? || s.Bind? then DoPlan(c, w, s)
    else if s.ReapBegin? || s.ReapLook? || s.ReapDrop? || s.ReapCommit? then DoReap(w, s)
    else if s.ApplyClaim? || s.ApplyChanged? || s.ApplyRecover? || s.ApplyStart? then DoApply(c, w, s)
    else if s.ApplyCommit? || s.ApplyCommitFails? || s.ApplyUndo? || s.ApplyResetWrite? then DoApplyEnd(w, s)
    else if s.RunReapBegin? || s.RunReapLook? || s.RunReapDrop? || s.ProbeRead? || s.ProbeRefresh? then DoRunning(w, s)
    else if s.StopClaim? || s.StopReread? || s.StopLook? || s.StopDropAbsent? || s.StopResetWrite? then DoStop(w, s)
    else DoStopEnd(w, s)
  }

  /** Sections that begin by reading the document; a refresh reads it only for another generation. */
  predicate Reads(w: World, s: Step) {
    match s
    case MakePlan(_, _, _, _, _, _) => true
    case Bind(_, _, _, _) => true
    case ReapBegin(_) => true
    case ReapDrop(_) => true
    case ReapCommit(_) => true
    case ApplyClaim(_, _, _, _, _, _) => true
    case ApplyCommit(_) => true
    case ApplyCommitFails(_, _) => true
    case ApplyResetWrite(_) => true
    case RunReapBegin(_, _) => true
    case RunReapDrop(_) => true
    case StopClaim(_, _, _, _) => true
    case StopReread(_) => true
    case StopDropAbsent(_) => true
    case StopResetWrite(_) => true
    case StopFinish(_) => true
    case ProbeRead(_, _, _, _) => true
    case StopRefresh(t) =>
      t in w.threads && w.threads[t].StopAdopted? && w.threads[t].current.generation != w.threads[t].generation
    case ProbeRefresh(t) =>
      t in w.threads && w.threads[t].ProbeAdopted? && w.threads[t].saved.generation != w.threads[t].generation
    case _ => false
  }

  /** Where a thread goes on when the section it is at cannot read the document. */
  function Handler(s: Step, pc: Pc): Option<Pc> {
    match (s, pc)
    case (ReapDrop(_), ReapAbsent(_, _)) => Some(Idle)
    case (ReapCommit(_), ReapExact(snap, _, _)) => Some(Reaping(snap))
    case (ApplyCommit(_), ApplyExact(_, _, _)) => Some(Idle)
    case (ApplyCommit(_), ApplyStarted(ref, saved, _)) => Some(ApplyCommitFailed(ref, saved))
    case (ApplyCommitFails(_, _), ApplyStarted(ref, saved, _)) => Some(ApplyCommitFailed(ref, saved))
    case (ApplyResetWrite(_), ApplyReset(_, _)) => Some(Idle)
    case (RunReapDrop(_), RunAbsent(_, _)) => Some(Idle)
    case (StopReread(_), StopClaimed(i, saved, _)) => Some(StopReset(i, saved))
    case (StopDropAbsent(_), StopAbsent(_, _)) => Some(Idle)
    case (StopResetWrite(_), StopReset(_, _)) => Some(Idle)
    case (StopRefresh(_), StopAdopted(i, current, _)) => Some(StopReset(i, current))
    case (StopFinish(_), StopDone(_, _, _, _)) => Some(Idle)
    case (ProbeRefresh(_), ProbeAdopted(_, _, _)) => Some(Idle)
    case (_, Idle) => Some(Idle)
    case _ => None
  }

  function Raises(w: World, s: Step): Option<World>
    requires Reads(w, s)
  {
    if s.t !in w.threads then None
    else
      var pc := Handler(s, w.threads[s.t]);
      if pc.None? then None else Some(Goto(w, s.t, pc.value))
  }

  function Do(c: Config, w: World, s: Step): Option<World> {
    if Reads(w, s) && !Readable(w.document, c.maxPlans) then Raises(w, s) else Section(c, w, s)
  }

  /** The world after a schedule, or `None` if some step of it was not enabled. */
  function Run(c: Config, schedule: seq<Step>): Option<World> {
    if schedule == [] then Some(Init)
    else
      var before := Run(c, schedule[..|schedule| - 1]);
      if before.None? then None else Do(c, before.value, schedule[|schedule| - 1])
  }

  // ---------------------------------------------------------------- invariant

  ghost predicate HasIntent(d: Document, ref: PlanRef) {
    ref in d.plans && d.plans[ref].state == Intent
  }

  ghost predicate IntentNames(d: Document, ref: PlanRef, u: Unit, i: InstanceRef) {
    HasIntent(d, ref) && d.plans[ref].unit == Some(u) && d.plans[ref].instance == i
  }

  ghost predicate RunNames(d: Document, u: Unit, i: InstanceRef) {
    i in d.running && d.running[i].unit == u
  }

  ghost predicate Shaped(w: World) {
    var d := w.document;
    && (forall ref :: ref in d.plans ==> ref in w.usedRefs && PlanShape(d.plans[ref]))
    && (forall ref :: HasIntent(d, ref) ==> d.plans[ref].unit.value in w.usedUnits && d.plans[ref].claim.value in w.born)
    && (forall i :: i in d.running ==>
          d.running[i].unit in w.usedUnits
          && (d.running[i].claim.Some? ==> d.running[i].claim.value in w.born)
          && (d.running[i].state == Stopping <==> d.running[i].claim.Some?))
    && (forall t :: t in w.threads ==> t in w.born)
  }

  /** At most one entry, intent or running record, per instance and per unit. */
  ghost predicate Exclusive(d: Document) {
    && (forall r1, r2 :: HasIntent(d, r1) && HasIntent(d, r2) && r1 != r2
          ==> d.plans[r1].instance != d.plans[r2].instance && d.plans[r1].unit != d.plans[r2].unit)
    && (forall r :: HasIntent(d, r) ==> d.plans[r].instance !in d.running)
    && (forall r, i :: HasIntent(d, r) && i in d.running ==> d.plans[r].unit != Some(d.running[i].unit))
    && (forall i, j :: i in d.running && j in d.running && i != j ==> d.running[i].unit != d.running[j].unit)
  }

  /** Every live scope is named by an entry of its own instance. */
  ghost predicate Named(d: Document, live: map<Unit, Scope>) {
    forall u :: u in live ==>
      RunNames(d, u, live[u].instance) || exists ref :: IntentNames(d, ref, u, live[u].instance)
  }

  ghost predicate StillPlan(w: World, ref: PlanRef, saved: Plan) {
    ref in w.document.plans && w.document.plans[ref] == saved
  }

  ghost predicate StillRun(w: World, i: InstanceRef, saved: RunRecord) {
    i in w.document.running && w.document.running[i] == saved
  }

  /** An intent record carrying the claim of `t`. */
  ghost predicate Mine(saved: Plan, t: Claim) {
    saved.state == Intent && saved.claim == Some(t) && PlanShape(saved)
  }

  ghost predicate OwnsStop(w: World, t: Claim, i: InstanceRef, unit: Unit, proc: Proc) {
    && i in w.document.running && w.document.running[i].claim == Some(t)
    && w.document.running[i].unit == unit && w.document.running[i].proc == proc
  }

  ghost predicate Dead(w: World, claim: Option<Claim>) {
    claim.Some? && claim.value in w.born && claim.value !in w.threads
  }

  /** No intent can start the unit any more. */
  ghost predicate NoIntent(w: World, u: Unit) {
    u in w.usedUnits && forall ref :: HasIntent(w.document, ref) ==> w.document.plans[ref].unit != Some(u)
  }

  /** The unit is neither live nor startable: it never comes back. */
  ghost predicate Retired(w: World, u: Unit) {
    NoIntent(w, u) && u !in w.live
  }

  /** Intents of a snapshot were claimed by threads already born. */
  ghost predicate SnapOk(w: World, snap: map<PlanRef, Plan>) {
    forall ref :: ref in snap && snap[ref].state == Intent ==>
      PlanShape(snap[ref]) && snap[ref].claim.value in w.born
  }

  /** What each program point of a live thread knows. */
  ghost predicate PcOk(w: World, t: Claim, pc: Pc) {
    match pc
    case Idle => true
    case Reaping(snap) => SnapOk(w, snap)
    case ReapAbsent(snap, ref) =>
      SnapOk(w, snap) && ref in snap && snap[ref].state == Intent && Dead(w, snap[ref].claim)
      && (StillPlan(w, ref, snap[ref]) ==> snap[ref].unit.value !in w.live)
    case ReapExact(snap, ref, proc) =>
      SnapOk(w, snap) && ref in snap && snap[ref].state == Intent && Dead(w, snap[ref].claim)
    case ApplyClaimed(ref, saved, created) =>
      StillPlan(w, ref, saved) && Mine(saved, t) && (created ==> saved.unit.value !in w.live)
    case ApplyAbsent(ref, saved, created) => StillPlan(w, ref, saved) && Mine(saved, t) && saved.unit.value !in w.live
    case ApplyExact(ref, saved, proc) => StillPlan(w, ref, saved) && Mine(saved, t)
    case ApplyStarted(ref, saved, proc) => StillPlan(w, ref, saved) && Mine(saved, t)
    case ApplyCommitFailed(ref, saved) => Mine(saved, t)
    case ApplyReset(ref, saved) => Mine(saved, t) && (StillPlan(w, ref, saved) ==> saved.unit.value !in w.live)
    case RunReading(i, saved) => saved.claim == None && NoIntent(w, saved.unit)
    case RunAbsent(i, saved) => saved.claim == None && Retired(w, saved.unit)
    case StopClaimed(i, saved, generation) => StillRun(w, i, saved) && saved.claim == Some(t) && saved.generation <= generation
    case StopReading(i, saved, current, generation) =>
      StillRun(w, i, saved) && saved.claim == Some(t) && current == saved && saved.generation <= generation
    case StopAbsent(i, saved) => StillRun(w, i, saved) && saved.claim == Some(t) && Retired(w, saved.unit)
    case StopReset(i, saved) => StillRun(w, i, saved) && saved.claim == Some(t)
    case StopAdopted(i, current, generation) => StillRun(w, i, current) && current.claim == Some(t)
    case StopReady(i, unit, proc, generation) =>
      OwnsStop(w, t, i, unit, proc) && w.document.running[i].generation == generation
    case StopDone(i, unit, proc, generation) =>
      OwnsStop(w, t, i, unit, proc) && w.document.running[i].generation == generation && Retired(w, unit)
    case ProbeAdopted(i, saved, generation) => saved.claim.Some? ==> Dead(w, saved.claim)
  }

  /** The part of the invariant that does not mention program counters. */
  ghost predicate Sound(w: World) {
    && Shaped(w) && Exclusive(w.document) && Named(w.document, w.live)
    && (forall u :: u in w.live ==> u in w.usedUnits)
  }

  ghost predicate Inv(w: World) {
    Sound(w) && forall t :: t in w.threads ==> PcOk(w, t, w.threads[t])
  }

  // ---------------------------------------------------------------- what a step may do to others

  ghost predicate OfOther(w: World, t: Claim, claim: Option<Claim>) {
    claim.Some? && claim.value in w.threads && claim.value != t
  }

  ghost predicate SameThreads(w: World, w': World, t: Claim) {
    && (forall c :: c in w.threads && c != t ==> c in w'.threads && w'.threads[c] == w.threads[c])
    && (forall c :: c in w'.threads && c != t ==> c in w.threads)
    && (t in w.threads || t !in w.born)
    && w.born <= w'.born && w.usedUnits <= w'.usedUnits && w.usedRefs <= w'.usedRefs
  }

  /** Entries claimed by other live threads stay, and new intents are the stepping thread's own. */
  ghost predicate PlansFrame(w: World, w': World, t: Claim) {
    var d, d' := w.document, w'.document;
    && (forall ref :: HasIntent(d, ref) && OfOther(w, t, d.plans[ref].claim) ==> StillPlan(w', ref, d.plans[ref]))
    && (forall ref :: HasIntent(d', ref) ==>
          d'.plans[ref].claim == Some(t) || (HasIntent(d, ref) && d'.plans[ref] == d.plans[ref]))
    && (forall ref :: HasIntent(d', ref) ==>
          (HasIntent(d, ref) && d.plans[ref].unit == d'.plans[ref].unit)
          || (d'.plans[ref].unit.Some? && d'.plans[ref].unit.value !in w.usedUnits))
  }

  ghost predicate RunFrame(w: World, w': World, t: Claim) {
    forall i :: i in w.document.running && OfOther(w, t, w.document.running[i].claim)
      ==> StillRun(w', i, w.document.running[i])
  }

  ghost predicate StartsFrom(d: Document, ref: PlanRef, u: Unit, t: Claim) {
    HasIntent(d, ref) && d.plans[ref].unit == Some(u) && d.plans[ref].claim == Some(t)
  }

  /** Only the owner of an intent makes its unit live. */
  ghost predicate LiveFrame(w: World, w': World, t: Claim) {
    forall u :: u in w'.live && u !in w.live ==> exists ref :: StartsFrom(w.document, ref, u, t)
  }

  ghost predicate Frame(w: World, w': World, t: Claim) {
    SameThreads(w, w', t) && PlansFrame(w, w', t) && RunFrame(w, w', t) && LiveFrame(w, w', t)
  }

  lemma NoIntentStable(w: World, w': World, t: Claim, u: Unit)
    requires Sound(w) && Frame(w, w', t) && NoIntent(w, u)
    ensures NoIntent(w', u)
    ensures u !in w.live ==> u !in w'.live
  {
  }

  /** A unit named by an intent of someone else does not become live. */
  lemma OthersIntentNotStarted(w: World, w': World, t: Claim, ref: PlanRef)
    requires Sound(w) && Frame(w, w', t) && HasIntent(w.document, ref)
    requires w.document.plans[ref].claim != Some(t) && w.document.plans[ref].unit.value !in w.live
    ensures w.document.plans[ref].unit.value !in w'.live
  {
  }

  lemma FrameKeepsPlanPc(w: World, w': World, t: Claim, o: Claim, pc: Pc)
    requires Sound(w) && Frame(w, w', t) && o != t && o in w.threads && PcOk(w, o, pc)
    requires pc.Reaping? || pc.ReapAbsent? || pc.ReapExact? || pc.ApplyClaimed? || pc.ApplyAbsent?
             || pc.ApplyExact? || pc.ApplyStarted? || pc.ApplyCommitFailed? || pc.ApplyReset?
    ensures PcOk(w', o, pc)
  {
    match pc
    case ReapAbsent(snap, ref) =>
      if StillPlan(w', ref, snap[ref]) {
        assert HasIntent(w'.document, ref);
        OthersIntentNotStarted(w, w', t, ref);
      }
    case ApplyClaimed(ref, saved, created) =>
      assert HasIntent(w.document, ref);
      if created { OthersIntentNotStarted(w, w', t, ref); }
    case ApplyAbsent(ref, saved, created) =>
      assert HasIntent(w.document, ref);
      OthersIntentNotStarted(w, w', t, ref);
    case ApplyExact(ref, saved, proc) => assert HasIntent(w.document, ref);
    case ApplyStarted(ref, saved, proc) => assert HasIntent(w.document, ref);
    case ApplyReset(ref, saved) =>
      if StillPlan(w', ref, saved) {
        assert HasIntent(w'.document, ref);
        OthersIntentNotStarted(w, w', t, ref);
      }
    case _ =>
  }

  lemma FrameKeepsRunPc(w: World, w': World, t: Claim, o: Claim, pc: Pc)
    requires Sound(w) && Frame(w, w', t) && o != t && o in w.threads && PcOk(w, o, pc)
    requires pc.RunReading? || pc.RunAbsent? || pc.StopClaimed? || pc.StopReading? || pc.StopAbsent?
             || pc.StopReset? || pc.StopAdopted? || pc.StopReady? || pc.StopDone? || pc.ProbeAdopted?
    ensures PcOk(w', o, pc)
  {
    match pc
    case RunReading(i, saved) => NoIntentStable(w, w', t, saved.unit);
    case RunAbsent(i, saved) => NoIntentStable(w, w', t, saved.unit);
    case StopAbsent(i, saved) => NoIntentStable(w, w', t, saved.unit);
    case StopDone(i, unit, proc, generation) => NoIntentStable(w, w', t, unit);
    case _ =>
  }

  /** A step that respects the frame, leaves a sound world and a correct own counter keeps the invariant. */
  lemma FrameKeeps(w: World, w': World, t: Claim)
    requires Inv(w) && Frame(w, w', t) && Sound(w')
    requires t in w'.threads ==> PcOk(w', t, w'.threads[t])
    ensures Inv(w')
  {
    forall o | o in w'.threads ensures PcOk(w', o, w'.threads[o]) {
      if o != t && w.threads[o] != Idle {
        var pc := w.threads[o];
        if pc.Reaping? || pc.ReapAbsent? || pc.ReapExact? || pc.ApplyClaimed? || pc.ApplyAbsent?
             || pc.ApplyExact? || pc.ApplyStarted? || pc.ApplyCommitFailed? || pc.ApplyReset? {
          FrameKeepsPlanPc(w, w', t, o, pc);
        } else {
          FrameKeepsRunPc(w, w', t, o, pc);
        }
      }
    }
  }

  // ---------------------------------------------------------------- every locked section keeps it

  ghost predicate Kept(w: World, w': World, t: Claim) {
    Sound(w') && Frame(w, w', t)
  }

  /** A named unit stays named when its own entry survives. */
  lemma StaysNamed(w: World, w': World)
    requires Named(w.document, w.live)
    requires forall u :: u in w'.live ==> u in w.live && w'.live[u] == w.live[u]
    requires forall ref :: HasIntent(w.document, ref) && w.document.plans[ref].unit.Some? && w.document.plans[ref].unit.value in w'.live ==>
               IntentNames(w'.document, ref, w.document.plans[ref].unit.value, w.document.plans[ref].instance)
               || RunNames(w'.document, w.document.plans[ref].unit.value, w.document.plans[ref].instance)
    requires forall i :: i in w.document.running && w.document.running[i].unit in w'.live ==>
               RunNames(w'.document, w.document.running[i].unit, i)
    ensures Named(w'.document, w'.live)
  {
    forall u | u in w'.live
      ensures RunNames(w'.document, u, w'.live[u].instance) || exists ref :: IntentNames(w'.document, ref, u, w'.live[u].instance)
    {
      if !RunNames(w.document, u, w.live[u].instance) {
        var ref :| IntentNames(w.document, ref, u, w.live[u].instance);
        assert HasIntent(w.document, ref);
      }
    }
  }

  /** A write that touches ready plans only. */
  lemma SameIntentsKept(w: World, w': World, t: Claim)
    requires Sound(w) && t in w.threads && SameThreads(w, w', t) && t in w'.threads && w'.born == w.born
    requires w'.live == w.live && w'.usedUnits == w.usedUnits && w'.document.running == w.document.running
    requires forall r :: r in w'.document.plans ==> r in w'.usedRefs && PlanShape(w'.document.plans[r])
    requires forall r :: HasIntent(w'.document, r) <==> HasIntent(w.document, r)
    requires forall r :: HasIntent(w'.document, r) ==> w'.document.plans[r] == w.document.plans[r]
    ensures Kept(w, w', t)
  {
    assert Exclusive(w'.document);
    StaysNamed(w, w');
  }

  lemma AddPlanKept(c: Config, w: World, t: Claim, ref: PlanRef, i: InstanceRef, generation: nat, digest: Digest, now: nat)
    requires Sound(w) && t in w.threads && ref !in w.usedRefs
    requires AddPlan(w.document, c.maxPlans, c.maxAge, ref, i, generation, digest, now).Ok?
    ensures var d := AddPlan(w.document, c.maxPlans, c.maxAge, ref, i, generation, digest, now).value;
            Kept(w, w.(document := d, usedRefs := w.usedRefs + {ref}), t)
  {
    var d := AddPlan(w.document, c.maxPlans, c.maxAge, ref, i, generation, digest, now).value;
    SameIntentsKept(w, w.(document := d, usedRefs := w.usedRefs + {ref}), t);
  }

  lemma BindKept(w: World, t: Claim, ref: PlanRef, digest: Digest, resource: Option<nat>)
    requires Sound(w) && t in w.threads && BindPrecondition(w.document, ref, digest, resource).Ok?
    ensures Kept(w, w.(document := BindPrecondition(w.document, ref, digest, resource).value), t)
  {
    SameIntentsKept(w, w.(document := BindPrecondition(w.document, ref, digest, resource).value), t);
  }

  ghost predicate AgreeExcept(d: Document, d': Document, ref: PlanRef) {
    && (forall r :: r != ref ==> (r in d'.plans <==> r in d.plans))
    && (forall r :: r != ref && r in d'.plans ==> d'.plans[r] == d.plans[r])
  }

  /** The intent at `ref`, not held by another live thread and not live, leaves or turns ready. */
  lemma IntentGoneKept(w: World, w': World, t: Claim, ref: PlanRef)
    requires Sound(w) && t in w.threads && SameThreads(w, w', t) && w'.live == w.live && w'.usedUnits == w.usedUnits
    requires HasIntent(w.document, ref) && !OfOther(w, t, w.document.plans[ref].claim)
    requires w.document.plans[ref].unit.value !in w.live
    requires AgreeExcept(w.document, w'.document, ref) && w'.document.running == w.document.running
    requires !HasIntent(w'.document, ref) && (ref in w'.document.plans ==> PlanShape(w'.document.plans[ref]))
    requires t in w'.born
    ensures Kept(w, w', t)
  {
    var d, d' := w.document, w'.document;
    assert forall r :: HasIntent(d', r) ==> r != ref && HasIntent(d, r) && d'.plans[r] == d.plans[r];
    assert Shaped(w');
    assert Exclusive(d');
    StaysNamed(w, w');
    assert PlansFrame(w, w', t);
  }

  lemma DropIntentKept(w: World, t: Claim, ref: PlanRef, saved: Plan, pc: Pc)
    requires Sound(w) && t in w.threads && saved.state == Intent && PlanShape(saved)
    requires !OfOther(w, t, saved.claim)
    requires StillPlan(w, ref, saved) ==> saved.unit.value !in w.live
    ensures Kept(w, Write(w, DropIntent(w.document, ref, saved), t, pc), t)
  {
    if StillPlan(w, ref, saved) {
      IntentGoneKept(w, Write(w, w.document.(plans := w.document.plans - {ref}), t, pc), t, ref);
    } else {
      GotoKept(w, t, pc);
    }
  }

  lemma ResetIntentKept(w: World, t: Claim, ref: PlanRef, saved: Plan, pc: Pc)
    requires Sound(w) && t in w.threads && Mine(saved, t)
    requires StillPlan(w, ref, saved) ==> saved.unit.value !in w.live
    ensures Kept(w, Write(w, ResetIntent(w.document, ref, saved), t, pc), t)
  {
    if StillPlan(w, ref, saved) {
      IntentGoneKept(w, Write(w, ResetIntent(w.document, ref, saved), t, pc), t, ref);
    } else {
      GotoKept(w, t, pc);
    }
  }

  lemma CommitExclusive(d: Document, ref: PlanRef, saved: Plan, proc: Proc)
    requires Exclusive(d) && HasIntent(d, ref) && d.plans[ref] == saved && PlanShape(saved)
    ensures Exclusive(CommitRunning(d, ref, saved, proc).value)
  {
    var d' := CommitRunning(d, ref, saved, proc).value;
    assert forall r :: HasIntent(d', r) ==> r != ref && HasIntent(d, r) && d'.plans[r] == d.plans[r];
    assert forall i :: i in d'.running ==>
        (i == saved.instance && d'.running[i].unit == saved.unit.value) || (i in d.running && d'.running[i] == d.running[i]);
  }

  lemma CommitShaped(w: World, t: Claim, ref: PlanRef, saved: Plan, proc: Proc, pc: Pc)
    requires Shaped(w) && t in w.threads && HasIntent(w.document, ref) && w.document.plans[ref] == saved && PlanShape(saved)
    requires !OfOther(w, t, saved.claim)
    ensures var w' := Write(w, CommitRunning(w.document, ref, saved, proc).value, t, pc);
            Shaped(w') && SameThreads(w, w', t) && PlansFrame(w, w', t)
  {
    var w' := Write(w, CommitRunning(w.document, ref, saved, proc).value, t, pc);
    var d, d' := w.document, w'.document;
    assert forall r :: HasIntent(d', r) ==> r != ref && HasIntent(d, r) && d'.plans[r] == d.plans[r];
  }

  lemma CommitNamed(w: World, t: Claim, ref: PlanRef, saved: Plan, proc: Proc, pc: Pc)
    requires Named(w.document, w.live) && HasIntent(w.document, ref) && w.document.plans[ref] == saved && PlanShape(saved)
    requires saved.instance !in w.document.running
    ensures var w' := Write(w, CommitRunning(w.document, ref, saved, proc).value, t, pc);
            Named(w'.document, w'.live) && RunFrame(w, w', t) && LiveFrame(w, w', t)
  {
    var w' := Write(w, CommitRunning(w.document, ref, saved, proc).value, t, pc);
    assert RunNames(w'.document, saved.unit.value, saved.instance);
    StaysNamed(w, w');
  }

  lemma CommitKept(w: World, t: Claim, ref: PlanRef, saved: Plan, proc: Proc, pc: Pc)
    requires Sound(w) && t in w.threads && saved.state == Intent && PlanShape(saved)
    requires !OfOther(w, t, saved.claim) && StillPlan(w, ref, saved)
    ensures Kept(w, Write(w, CommitRunning(w.document, ref, saved, proc).value, t, pc), t)
  {
    assert HasIntent(w.document, ref);
    CommitExclusive(w.document, ref, saved, proc);
    CommitShaped(w, t, ref, saved, proc, pc);
    CommitNamed(w, t, ref, saved, proc, pc);
  }

  /** What `ClaimIntent` does to the set of intents: one entry at `ref`, the others untouched. */
  lemma ClaimIntents(d: Document, maxAge: nat, ref: PlanRef, now: nat, unit: Unit, port: nat, me: Claim, ownerAlive: bool)
    requires ClaimIntent(d, maxAge, ref, now, unit, port, me, ownerAlive).Ok?
    ensures var r := ClaimIntent(d, maxAge, ref, now, unit, port, me, ownerAlive).value;
            && r.document.running == d.running && r.saved.instance !in d.running
            && (forall o :: o in r.document.plans && o != ref ==> o in d.plans && r.document.plans[o] == d.plans[o])
            && (forall o :: HasIntent(d, o) && o != ref ==>
                  HasIntent(r.document, o) && r.document.plans[o] == d.plans[o] && d.plans[o].instance != r.saved.instance)
            && HasIntent(r.document, ref) && r.document.plans[ref] == r.saved && r.saved.claim == Some(me)
            && ref in d.plans && (d.plans[ref].state == Intent ==> !ownerAlive)
            && (if r.created then !HasIntent(d, ref) && r.saved.unit == Some(unit) && r.saved.port == Some(port)
                else HasIntent(d, ref) && r.saved.unit == d.plans[ref].unit && r.saved.port == d.plans[ref].port
                     && r.saved.instance == d.plans[ref].instance)
  {
    var r := ClaimIntent(d, maxAge, ref, now, unit, port, me, ownerAlive).value;
    var plans := Unexpired(d.plans, now, maxAge, None);
    forall o | HasIntent(d, o) && o != ref
      ensures HasIntent(r.document, o) && r.document.plans[o] == d.plans[o] && d.plans[o].instance != r.saved.instance
    {
      assert o in plans && !OtherIntent(plans, ref, r.saved.instance);
    }
  }

  /** One intent is added at `ref` for a free instance with a unit no other entry has. */
  lemma IntentAddedExclusive(d: Document, d': Document, ref: PlanRef)
    requires Exclusive(d) && d'.running == d.running && HasIntent(d', ref)
    requires forall o :: HasIntent(d', o) && o != ref ==> HasIntent(d, o) && d'.plans[o] == d.plans[o]
    requires forall o :: HasIntent(d', o) && o != ref ==> d'.plans[o].instance != d'.plans[ref].instance
    requires forall o :: HasIntent(d', o) && o != ref ==> d'.plans[o].unit != d'.plans[ref].unit
    requires d'.plans[ref].instance !in d.running
    requires forall i :: i in d.running ==> d'.plans[ref].unit != Some(d.running[i].unit)
    ensures Exclusive(d')
  {
  }

  lemma ClaimFramed(w: World, w': World, t: Claim, ref: PlanRef, unit: Unit)
    requires Shaped(w) && t in w.threads && SameThreads(w, w', t) && unit !in w.usedUnits && unit in w'.usedUnits
    requires w'.document.running == w.document.running && t in w'.born && ref in w.document.plans
    requires forall o :: o in w'.document.plans && o != ref ==> o in w.document.plans && w'.document.plans[o] == w.document.plans[o]
    requires forall o :: HasIntent(w.document, o) && o != ref ==> StillPlan(w', o, w.document.plans[o])
    requires HasIntent(w'.document, ref) && Mine(w'.document.plans[ref], t)
    requires HasIntent(w.document, ref) ==> !OfOther(w, t, w.document.plans[ref].claim)
    requires w'.document.plans[ref].unit == Some(unit)
             || (HasIntent(w.document, ref) && w.document.plans[ref].unit == w'.document.plans[ref].unit)
    ensures Shaped(w') && PlansFrame(w, w', t)
  {
  }

  lemma ClaimAdds(w: World, w': World, ref: PlanRef, unit: Unit)
    requires Sound(w) && unit !in w.usedUnits && w'.live == w.live
    requires w'.document.running == w.document.running && HasIntent(w'.document, ref)
    requires w'.document.plans[ref].instance !in w.document.running
    requires forall o :: HasIntent(w'.document, o) && o != ref ==> HasIntent(w.document, o) && w'.document.plans[o] == w.document.plans[o]
    requires forall o :: HasIntent(w.document, o) && o != ref ==>
               HasIntent(w'.document, o) && w'.document.plans[o] == w.document.plans[o]
               && w.document.plans[o].instance != w'.document.plans[ref].instance
    requires w'.document.plans[ref].unit == Some(unit)
             || (HasIntent(w.document, ref) && w.document.plans[ref].unit == w'.document.plans[ref].unit)
    requires HasIntent(w.document, ref) ==> w.document.plans[ref].unit == w'.document.plans[ref].unit
                                            && w.document.plans[ref].instance == w'.document.plans[ref].instance
    ensures Exclusive(w'.document) && Named(w'.document, w'.live)
  {
    IntentAddedExclusive(w.document, w'.document, ref);
    StaysNamed(w, w');
  }

  lemma ClaimIntentKept(c: Config, w: World, t: Claim, ref: PlanRef, now: nat, unit: Unit, port: nat, ownerAlive: bool)
    requires Sound(w) && t in w.threads && unit !in w.usedUnits && 1 <= port <= MAX_PORT
    requires ClaimIntent(w.document, c.maxAge, ref, now, unit, port, t, ownerAlive).Ok?
    requires Truthful(w, w.document.plans[ref].claim, ownerAlive)
    ensures var r := ClaimIntent(w.document, c.maxAge, ref, now, unit, port, t, ownerAlive).value;
            var w' := Write(w, r.document, t, ApplyClaimed(ref, r.saved, r.created)).(usedUnits := w.usedUnits + {unit});
            Kept(w, w', t) && PcOk(w', t, ApplyClaimed(ref, r.saved, r.created))
  {
    ClaimIntents(w.document, c.maxAge, ref, now, unit, port, t, ownerAlive);
    var r := ClaimIntent(w.document, c.maxAge, ref, now, unit, port, t, ownerAlive).value;
    var w' := Write(w, r.document, t, ApplyClaimed(ref, r.saved, r.created)).(usedUnits := w.usedUnits + {unit});
    assert Mine(r.saved, t);
    ClaimAdds(w, w', ref, unit);
    ClaimFramed(w, w', t, ref, unit);
  }

  /** Only the running record of `i` changes: it leaves, or keeps its unit. */
  ghost predicate RunEdit(d: Document, running: map<InstanceRef, RunRecord>, i: InstanceRef) {
    && i in d.running && (i in running ==> running[i].unit == d.running[i].unit)
    && (forall j :: j != i ==> (j in running <==> j in d.running))
    && (forall j :: j != i && j in running ==> running[j] == d.running[j])
  }

  lemma RunEditExclusive(d: Document, running: map<InstanceRef, RunRecord>, i: InstanceRef)
    requires Exclusive(d) && RunEdit(d, running, i)
    ensures Exclusive(d.(running := running))
  {
    var d' := d.(running := running);
    assert forall r :: HasIntent(d', r) <==> HasIntent(d, r);
    assert forall j :: j in running ==> j in d.running && running[j].unit == d.running[j].unit;
  }

  lemma RunEditNamed(w: World, running: map<InstanceRef, RunRecord>, i: InstanceRef, t: Claim, pc: Pc)
    requires Named(w.document, w.live) && RunEdit(w.document, running, i)
    requires i !in running ==> w.document.running[i].unit !in w.live
    requires !OfOther(w, t, w.document.running[i].claim)
    ensures var w' := Write(w, w.document.(running := running), t, pc);
            Named(w'.document, w'.live) && LiveFrame(w, w', t) && RunFrame(w, w', t)
  {
    var w' := Write(w, w.document.(running := running), t, pc);
    assert forall r :: HasIntent(w'.document, r) <==> HasIntent(w.document, r);
    StaysNamed(w, w');
  }

  lemma RunEditShaped(w: World, running: map<InstanceRef, RunRecord>, i: InstanceRef, t: Claim, pc: Pc)
    requires Shaped(w) && RunEdit(w.document, running, i) && t in w.threads
    requires i in running ==> (running[i].claim.Some? ==> running[i].claim.value in w.born)
                              && (running[i].state == Stopping <==> running[i].claim.Some?)
    ensures var w' := Write(w, w.document.(running := running), t, pc);
            Shaped(w') && SameThreads(w, w', t) && PlansFrame(w, w', t)
  {
    var w' := Write(w, w.document.(running := running), t, pc);
    assert forall r :: HasIntent(w'.document, r) <==> HasIntent(w.document, r);
  }

  lemma RunningKept(w: World, t: Claim, running: map<InstanceRef, RunRecord>, i: InstanceRef, pc: Pc)
    requires Sound(w) && t in w.threads && RunEdit(w.document, running, i)
    requires !OfOther(w, t, w.document.running[i].claim)
    requires i !in running ==> w.document.running[i].unit !in w.live
    requires i in running ==> (running[i].claim.Some? ==> running[i].claim.value in w.born)
                              && (running[i].state == Stopping <==> running[i].claim.Some?)
    ensures Kept(w, Write(w, w.document.(running := running), t, pc), t)
  {
    RunEditExclusive(w.document, running, i);
    RunEditNamed(w, running, i, t, pc);
    RunEditShaped(w, running, i, t, pc);
  }

  /** Steps that write nothing. */
  lemma GotoKept(w: World, t: Claim, pc: Pc)
    requires Sound(w) && t in w.threads
    ensures Kept(w, Goto(w, t, pc), t)
  {
  }

  lemma GotoKeeps(w: World, t: Claim, pc: Pc)
    requires Inv(w) && t in w.threads && PcOk(Goto(w, t, pc), t, pc)
    ensures Inv(Goto(w, t, pc))
  {
    GotoKept(w, t, pc);
    FrameKeeps(w, Goto(w, t, pc), t);
  }

  lemma StopsUnitKept(w: World, t: Claim, u: Unit, pc: Pc)
    requires Sound(w) && t in w.threads
    ensures Kept(w, Goto(w, t, pc).(live := w.live - {u}), t)
  {
    StaysNamed(w, Goto(w, t, pc).(live := w.live - {u}));
  }

  lemma StartsUnitKept(w: World, t: Claim, ref: PlanRef, saved: Plan, proc: Proc, pc: Pc)
    requires Sound(w) && t in w.threads && StillPlan(w, ref, saved) && Mine(saved, t)
    ensures Kept(w, Goto(w, t, pc).(live := w.live[saved.unit.value := Scope(saved.instance, proc)]), t)
  {
    var u := saved.unit.value;
    var w' := Goto(w, t, pc).(live := w.live[u := Scope(saved.instance, proc)]);
    assert HasIntent(w.document, ref) && StartsFrom(w.document, ref, u, t);
    assert IntentNames(w'.document, ref, u, saved.instance);
  }

  // ---------------------------------------------------------------- every step keeps it

  lemma EnvironmentKeeps(w: World, s: Step)
    requires Inv(w) && DoEnvironment(w, s).Some?
    ensures Inv(DoEnvironment(w, s).value)
  {
    var w' := DoEnvironment(w, s).value;
    match s
    case Spawn(t) => FrameKeeps(w, w', t);
    case Crash(t) => FrameKeeps(w, w', t);
    case Abandon(t) => GotoKeeps(w, t, Idle);
    case ScopeDies(u) =>
      StaysNamed(w, w');
      forall t | t in w'.threads ensures PcOk(w', t, w'.threads[t]) {
        assert PcOk(w, t, w.threads[t]);
      }
  }

  lemma PlanKeeps(c: Config, w: World, s: Step)
    requires Inv(w) && (s.MakePlan? || s.Bind?) && DoPlan(c, w, s).Some?
    ensures Inv(DoPlan(c, w, s).value)
  {
    var w' := DoPlan(c, w, s).value;
    assert Kept(w, w', s.t) by {
      match s
      case MakePlan(t, ref, i, generation, digest, now) => AddPlanKept(c, w, t, ref, i, generation, digest, now);
      case Bind(t, ref, digest, resource) => BindKept(w, t, ref, digest, resource);
    }
    assert w'.threads[s.t] == Idle;
    FrameKeeps(w, w', s.t);
  }

  lemma ReapKeeps(w: World, s: Step)
    requires Inv(w) && (s.ReapBegin? || s.ReapLook? || s.ReapDrop? || s.ReapCommit?) && DoReap(w, s).Some?
    ensures Inv(DoReap(w, s).value)
  {
    var w' := DoReap(w, s).value;
    assert PcOk(w, s.t, w.threads[s.t]);
    match (s, w.threads[s.t])
    case (ReapBegin(t), Idle) =>
      assert forall r :: r in w.document.plans && w.document.plans[r].state == Intent ==> HasIntent(w.document, r);
      GotoKeeps(w, t, Reaping(w.document.plans));
    case (ReapLook(t, ref, seen), Reaping(snap)) =>
      GotoKeeps(w, t, w'.threads[t]);
    case (ReapDrop(t), ReapAbsent(snap, ref)) =>
      DropIntentKept(w, t, ref, snap[ref], Reaping(snap)); FrameKeeps(w, w', t);
    case (ReapCommit(t), ReapExact(snap, ref, proc)) =>
      if StillPlan(w, ref, snap[ref]) {
        CommitKept(w, t, ref, snap[ref], proc, Reaping(snap));
      } else {
        GotoKept(w, t, Reaping(snap));
      }
      FrameKeeps(w, w', t);
  }

  lemma ApplyKeeps(c: Config, w: World, s: Step)
    requires Inv(w) && (s.ApplyClaim? || s.ApplyChanged? || s.ApplyRecover? || s.ApplyStart?) && DoApply(c, w, s).Some?
    ensures Inv(DoApply(c, w, s).value)
  {
    var w' := DoApply(c, w, s).value;
    assert PcOk(w, s.t, w.threads[s.t]);
    match (s, w.threads[s.t])
    case (ApplyClaim(t, ref, now, unit, port, ownerAlive), Idle) =>
      ClaimIntentKept(c, w, t, ref, now, unit, port, ownerAlive); FrameKeeps(w, w', t);
    case (ApplyChanged(t), _) => GotoKeeps(w, t, w'.threads[t]);
    case (ApplyRecover(t, seen), _) => GotoKeeps(w, t, w'.threads[t]);
    case (ApplyStart(t, outcome), ApplyAbsent(ref, saved, created)) =>
      match outcome {
        case StartedOk(proc) => StartsUnitKept(w, t, ref, saved, proc, w'.threads[t]);
        case FailedClean => StopsUnitKept(w, t, saved.unit.value, w'.threads[t]);
        case FailedUnknown(left) =>
          if left.Some? { StartsUnitKept(w, t, ref, saved, left.value, Idle); } else { GotoKept(w, t, Idle); }
      }
      FrameKeeps(w, w', t);
  }

  lemma ApplyEndKeeps(w: World, s: Step)
    requires Inv(w) && (s.ApplyCommit? || s.ApplyCommitFails? || s.ApplyUndo? || s.ApplyResetWrite?) && DoApplyEnd(w, s).Some?
    ensures Inv(DoApplyEnd(w, s).value)
  {
    var w' := DoApplyEnd(w, s).value;
    assert PcOk(w, s.t, w.threads[s.t]);
    match (s, w.threads[s.t])
    case (ApplyCommit(t), ApplyExact(ref, saved, proc)) => CommitKept(w, t, ref, saved, proc, Idle); FrameKeeps(w, w', t);
    case (ApplyCommit(t), ApplyStarted(ref, saved, proc)) => CommitKept(w, t, ref, saved, proc, Idle); FrameKeeps(w, w', t);
    case (ApplyCommitFails(t, written), ApplyStarted(ref, saved, proc)) =>
      if written { CommitKept(w, t, ref, saved, proc, w'.threads[t]); } else { GotoKept(w, t, w'.threads[t]); }
      FrameKeeps(w, w', t);
    case (ApplyUndo(t), ApplyCommitFailed(ref, saved)) =>
      StopsUnitKept(w, t, saved.unit.value, w'.threads[t]); FrameKeeps(w, w', t);
    case (ApplyResetWrite(t), ApplyReset(ref, saved)) =>
      ResetIntentKept(w, t, ref, saved, Idle); FrameKeeps(w, w', t);
  }

  lemma RunningKeeps(w: World, s: Step)
    requires Inv(w) && (s.RunReapBegin? || s.RunReapLook? || s.RunReapDrop? || s.ProbeRead? || s.ProbeRefresh?)
    requires DoRunning(w, s).Some?
    ensures Inv(DoRunning(w, s).value)
  {
    var w' := DoRunning(w, s).value;
    assert PcOk(w, s.t, w.threads[s.t]);
    match (s, w.threads[s.t])
    case (RunReapBegin(t, i), Idle) => GotoKeeps(w, t, w'.threads[t]);
    case (RunReapLook(t), RunReading(i, saved)) => GotoKeeps(w, t, w'.threads[t]);
    case (RunReapDrop(t), RunAbsent(i, saved)) => DropRunningKept(w, t, i, saved); FrameKeeps(w, w', t);
    case (ProbeRead(t, i, generation, ownerAlive), Idle) => GotoKeeps(w, t, w'.threads[t]);
    case (ProbeRefresh(t), ProbeAdopted(i, saved, generation)) =>
      RefreshKept(w, t, i, saved, generation, Idle); FrameKeeps(w, w', t);
  }

  lemma DropRunningKept(w: World, t: Claim, i: InstanceRef, saved: RunRecord)
    requires Sound(w) && t in w.threads && !OfOther(w, t, saved.claim)
    requires StillRun(w, i, saved) ==> saved.unit !in w.live
    ensures Kept(w, Write(w, DropRunning(w.document, i, saved), t, Idle), t)
  {
    if StillRun(w, i, saved) {
      RunningKept(w, t, w.document.running - {i}, i, Idle);
    } else {
      GotoKept(w, t, Idle);
    }
  }

  lemma RefreshKept(w: World, t: Claim, i: InstanceRef, saved: RunRecord, generation: nat, pc: Pc)
    requires Sound(w) && t in w.threads && !OfOther(w, t, saved.claim)
    ensures Kept(w, Write(w, RefreshGeneration(w.document, i, saved, generation), t, pc), t)
  {
    if StillRun(w, i, saved) && saved.generation != generation {
      RunningKept(w, t, w.document.running[i := saved.(generation := generation)], i, pc);
    } else {
      GotoKept(w, t, pc);
    }
  }

  lemma StopClaimKept(w: World, t: Claim, i: InstanceRef, generation: nat, ownerAlive: bool)
    requires Sound(w) && t in w.threads && ClaimStop(w.document, i, generation, t, ownerAlive).Ok?
    requires Truthful(w, w.document.running[i].claim, ownerAlive)
    ensures var r := ClaimStop(w.document, i, generation, t, ownerAlive).value;
            var w' := Write(w, r.0, t, StopClaimed(i, r.1, generation));
            Kept(w, w', t) && PcOk(w', t, StopClaimed(i, r.1, generation))
  {
    var r := ClaimStop(w.document, i, generation, t, ownerAlive).value;
    RunningKept(w, t, r.0.running, i, StopClaimed(i, r.1, generation));
  }

  lemma StopResetKept(w: World, t: Claim, i: InstanceRef, saved: RunRecord)
    requires Sound(w) && t in w.threads && StillRun(w, i, saved) && saved.claim == Some(t)
    ensures Kept(w, Write(w, ResetStopping(w.document, i, saved), t, Idle), t)
  {
    RunningKept(w, t, ResetStopping(w.document, i, saved).running, i, Idle);
  }

  lemma StopClaimKeeps(w: World, t: Claim, i: InstanceRef, generation: nat, ownerAlive: bool)
    requires Inv(w) && DoStop(w, StopClaim(t, i, generation, ownerAlive)).Some?
    ensures Inv(DoStop(w, StopClaim(t, i, generation, ownerAlive)).value)
  {
    hide Shaped, Exclusive, Named;
    var w' := DoStop(w, StopClaim(t, i, generation, ownerAlive)).value;
    StopClaimKept(w, t, i, generation, ownerAlive);
    FrameKeeps(w, w', t);
  }

  lemma StopRereadKeeps(w: World, t: Claim)
    requires Inv(w) && DoStop(w, StopReread(t)).Some?
    ensures Inv(DoStop(w, StopReread(t)).value)
  {
    assert PcOk(w, t, w.threads[t]);
    hide Sound;
    GotoKeeps(w, t, DoStop(w, StopReread(t)).value.threads[t]);
  }

  lemma StopLookKeeps(w: World, t: Claim, report: Option<Observation>)
    requires Inv(w) && DoStop(w, StopLook(t, report)).Some?
    ensures Inv(DoStop(w, StopLook(t, report)).value)
  {
    assert PcOk(w, t, w.threads[t]);
    GotoKeeps(w, t, DoStop(w, StopLook(t, report)).value.threads[t]);
  }

  lemma StopDropKeeps(w: World, t: Claim)
    requires Inv(w) && DoStop(w, StopDropAbsent(t)).Some?
    ensures Inv(DoStop(w, StopDropAbsent(t)).value)
  {
    assert PcOk(w, t, w.threads[t]);
    hide Shaped, Exclusive, Named;
    DropRunningKept(w, t, w.threads[t].i, w.threads[t].saved);
    FrameKeeps(w, DoStop(w, StopDropAbsent(t)).value, t);
  }

  lemma StopResetKeeps(w: World, t: Claim)
    requires Inv(w) && DoStop(w, StopResetWrite(t)).Some?
    ensures Inv(DoStop(w, StopResetWrite(t)).value)
  {
    assert PcOk(w, t, w.threads[t]);
    hide Shaped, Exclusive, Named;
    StopResetKept(w, t, w.threads[t].i, w.threads[t].saved);
    FrameKeeps(w, DoStop(w, StopResetWrite(t)).value, t);
  }

  lemma StopKeeps(w: World, s: Step)
    requires Inv(w) && (s.StopClaim? || s.StopReread? || s.StopLook? || s.StopDropAbsent? || s.StopResetWrite?)
    requires DoStop(w, s).Some?
    ensures Inv(DoStop(w, s).value)
  {
    hide Inv, DoStop;
    match s
    case StopClaim(t, i, generation, ownerAlive) => StopClaimKeeps(w, t, i, generation, ownerAlive);
    case StopReread(t) => StopRereadKeeps(w, t);
    case StopLook(t, report) => StopLookKeeps(w, t, report);
    case StopDropAbsent(t) => StopDropKeeps(w, t);
    case StopResetWrite(t) => StopResetKeeps(w, t);
  }

  lemma StopEndKeeps(w: World, s: Step)
    requires Inv(w) && (s.StopRefresh? || s.StopEffect? || s.StopFinish?) && DoStopEnd(w, s).Some?
    ensures Inv(DoStopEnd(w, s).value)
  {
    var w' := DoStopEnd(w, s).value;
    assert PcOk(w, s.t, w.threads[s.t]);
    match (s, w.threads[s.t])
    case (StopRefresh(t), StopAdopted(i, current, generation)) =>
      RefreshKept(w, t, i, current, generation, w'.threads[t]); FrameKeeps(w, w', t);
    case (StopEffect(t), StopReady(i, unit, proc, generation)) =>
      StopsUnitKept(w, t, unit, w'.threads[t]); FrameKeeps(w, w', t);
    case (StopFinish(t), StopDone(i, unit, proc, generation)) =>
      RunningKept(w, t, w.document.running - {i}, i, Idle); FrameKeeps(w, w', t);
  }

  /** An unreadable document changes nothing but the program counter. */
  lemma RaiseKeeps(w: World, s: Step)
    requires Inv(w) && Reads(w, s) && Raises(w, s).Some?
    ensures Inv(Raises(w, s).value)
  {
    hide Sound;
    assert PcOk(w, s.t, w.threads[s.t]);
    GotoKeeps(w, s.t, Handler(s, w.threads[s.t]).value);
  }

  // ---------------------------------------------------------------- main theorems

  lemma {:induction false} RunKeeps(c: Config, schedule: seq<Step>)
    requires Run(c, schedule).Some?
    ensures Inv(Run(c, schedule).value)
  {
    if schedule != [] {
      var s := schedule[|schedule| - 1];
      RunKeeps(c, schedule[..|schedule| - 1]);
      var w := Run(c, schedule[..|schedule| - 1]).value;
      if Reads(w, s) && !Readable(w.document, c.maxPlans) { RaiseKeeps(w, s); }
      else if s.Spawn? || s.Crash? || s.Abandon? || s.ScopeDies? { EnvironmentKeeps(w, s); }
      else if s.MakePlan? || s.Bind? { PlanKeeps(c, w, s); }
      else if s.ReapBegin? || s.ReapLook? || s.ReapDrop? || s.ReapCommit? { ReapKeeps(w, s); }
      else if s.ApplyClaim? || s.ApplyChanged? || s.ApplyRecover? || s.ApplyStart? { ApplyKeeps(c, w, s); }
      else if s.ApplyCommit? || s.ApplyCommitFails? || s.ApplyUndo? || s.ApplyResetWrite? { ApplyEndKeeps(w, s); }
      else if s.RunReapBegin? || s.RunReapLook? || s.RunReapDrop? || s.ProbeRead? || s.ProbeRefresh? { RunningKeeps(w, s); }
      else if s.StopClaim? || s.StopReread? || s.StopLook? || s.StopDropAbsent? || s.StopResetWrite? { StopKeeps(w, s); }
      else { StopEndKeeps(w, s); }
    }
  }

  /** The entries of the journal that concern an instance. */
  ghost function Entries(d: Document, i: InstanceRef): set<Option<PlanRef>> {
    (set ref | ref in d.plans && d.plans[ref].state == Intent && d.plans[ref].instance == i :: Some(ref))
    + (if i in d.running then {None} else {})
  }

  /** In every reachable world an instance has at most one entry among intents and running records. */
  lemma OneEntryPerInstance(c: Config, schedule: seq<Step>, i: InstanceRef)
    requires Run(c, schedule).Some?
    ensures |Entries(Run(c, schedule).value.document, i)| <= 1
  {
    RunKeeps(c, schedule);
    var d := Run(c, schedule).value.document;
    var e := Entries(d, i);
    forall a, b | a in e && b in e ensures a == b {
      assert a.Some? ==> HasIntent(d, a.value);
      assert b.Some? ==> HasIntent(d, b.value);
    }
    if e != {} {
      var a :| a in e;
      assert e == {a};
    }
  }

  /** Every started, not yet stopped scope is named by an entry of its instance. */
  lemma LiveScopesNamed(c: Config, schedule: seq<Step>, u: Unit)
    requires Run(c, schedule).Some? && u in Run(c, schedule).value.live
    ensures var w := Run(c, schedule).value;
            RunNames(w.document, u, w.live[u].instance) || exists ref :: IntentNames(w.document, ref, u, w.live[u].instance)
  {
    RunKeeps(c, schedule);
  }

  /** Two scopes of one instance are never live together, whatever crashed or was taken over. */
  lemma OneScopePerInstance(c: Config, schedule: seq<Step>, u: Unit, v: Unit)
    requires Run(c, schedule).Some?
    requires u in Run(c, schedule).value.live && v in Run(c, schedule).value.live
    requires Run(c, schedule).value.live[u].instance == Run(c, schedule).value.live[v].instance
    ensures u == v
  {
    RunKeeps(c, schedule);
  }

  /** The commit of `t` replaces its intent by the running record. */
  ghost predicate Commits(c: Config, w: World, t: Claim, ref: PlanRef, saved: Plan, proc: Proc)
    requires saved.unit.Some? && saved.port.Some?
  {
    var w' := Do(c, w, ApplyCommit(t));
    && w'.Some? && ref !in w'.value.document.plans
    && saved.instance in w'.value.document.running && w'.value.document.running[saved.instance] == RunningFrom(saved, proc)
  }

  /** The last section of a stop by `t` removes the running record. */
  ghost predicate Finishes(c: Config, w: World, t: Claim, i: InstanceRef) {
    var w' := Do(c, w, StopFinish(t));
    w'.Some? && i !in w'.value.document.running
  }

  /**
   * A live thread that started, adopted or stopped a scope never finds its entry changed under it:
   * its commit or finish succeeds if and only if the reader accepts the document.
   */
  lemma OwnersNeverConflict(c: Config, schedule: seq<Step>, t: Claim)
    requires Run(c, schedule).Some? && t in Run(c, schedule).value.threads
    ensures var w := Run(c, schedule).value;
            match w.threads[t]
            case ApplyStarted(ref, saved, proc) => PlanShape(saved) && saved.state == Intent && (Commits(c, w, t, ref, saved, proc) <==> Readable(w.document, c.maxPlans))
            case ApplyExact(ref, saved, proc) => PlanShape(saved) && saved.state == Intent && (Commits(c, w, t, ref, saved, proc) <==> Readable(w.document, c.maxPlans))
            case StopDone(i, unit, proc, generation) => Finishes(c, w, t, i) <==> Readable(w.document, c.maxPlans)
            case _ => true
  {
    RunKeeps(c, schedule);
    var w := Run(c, schedule).value;
    assert PcOk(w, t, w.threads[t]);
    hide Sound, Run, Readable;
    OwnerSucceeds(c, w, t);
  }

  lemma OwnerSucceeds(c: Config, w: World, t: Claim)
    requires t in w.threads && PcOk(w, t, w.threads[t])
    ensures match w.threads[t]
            case ApplyStarted(ref, saved, proc) => PlanShape(saved) && saved.state == Intent && (Commits(c, w, t, ref, saved, proc) <==> Readable(w.document, c.maxPlans))
            case ApplyExact(ref, saved, proc) => PlanShape(saved) && saved.state == Intent && (Commits(c, w, t, ref, saved, proc) <==> Readable(w.document, c.maxPlans))
            case StopDone(i, unit, proc, generation) => Finishes(c, w, t, i) <==> Readable(w.document, c.maxPlans)
            case _ => true
  {
    hide Readable;
  }
}
