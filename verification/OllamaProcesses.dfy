/**
 * The journal and the kernel speak of the same processes: over every run, a running record whose scope is
 * live names exactly that process, and as long as it stands it changes only in its claim and, upwards,
 * in its generation.
 */
module OllamaProcesses {
  import opened Core
  import opened OllamaJournal
  import opened OllamaProtocol

  /** The unit, if live, is this process. */
  ghost predicate Is(live: map<Unit, Scope>, unit: Unit, proc: Proc) {
    unit in live ==> live[unit].proc == proc
  }

  ghost predicate PcKnows(w: World, pc: Pc) {
    match pc
    case ApplyExact(ref, saved, proc) => saved.unit.Some? && Is(w.live, saved.unit.value, proc)
    case ApplyStarted(ref, saved, proc) => saved.unit.Some? && Is(w.live, saved.unit.value, proc)
    case ReapExact(snap, ref, proc) =>
      ref in snap && (StillPlan(w, ref, snap[ref]) && snap[ref].unit.Some? ==> Is(w.live, snap[ref].unit.value, proc))
    case StopAdopted(i, current, generation) => current.generation <= generation
    case ProbeAdopted(i, saved, generation) => saved.generation <= generation
    case _ => true
  }

  ghost predicate Known(w: World) {
    && (forall i :: i in w.document.running ==> Is(w.live, w.document.running[i].unit, w.document.running[i].proc))
    && (forall t :: t in w.threads ==> PcKnows(w, w.threads[t]))
  }

  // ---- what one step does ----

  /** The same record, but for its claim and state and a generation that may rise. */
  ghost predicate Stays(r: RunRecord, r': RunRecord) {
    && r'.unit == r.unit && r'.proc == r.proc && r'.port == r.port && r'.digest == r.digest
    && r'.queueDigest == r.queueDigest && r'.queueGeneration == r.queueGeneration && r.generation <= r'.generation
  }

  /** A new record, of an instance that had an intent for this unit, and of the process seen or started for it. */
  ghost predicate Committed(w: World, i: InstanceRef, r: RunRecord) {
    i !in w.document.running && Is(w.live, r.unit, r.proc) && exists ref :: IntentNames(w.document, ref, r.unit, i)
  }

  ghost predicate RunsMove(w: World, d': Document) {
    forall i :: i in d'.running ==>
      (i in w.document.running && Stays(w.document.running[i], d'.running[i])) || Committed(w, i, d'.running[i])
  }

  ghost predicate IntentsMove(w: World, d': Document, t: Claim) {
    forall ref :: HasIntent(d', ref) ==> StillPlan(w, ref, d'.plans[ref]) || d'.plans[ref].claim == Some(t)
  }

  ghost predicate NoneStarts(w: World, w': World) {
    forall u :: u in w'.live ==> u in w.live && w'.live[u] == w.live[u]
  }

  /** The one thread that may start a unit starts it, and nothing else happens. */
  ghost predicate Starts(w: World, w': World, t: Claim) {
    && w'.document == w.document
    && exists ref, u :: StartsFrom(w.document, ref, u, t) && forall v :: v in w'.live && v != u ==> v in w.live && w'.live[v] == w.live[v]
  }

  ghost predicate Moves(w: World, w': World, t: Claim) {
    && (t in w.threads || t !in w.born)
    && (forall o :: o in w'.threads && o != t ==> o in w.threads && w'.threads[o] == w.threads[o])
    && (t in w'.threads ==> PcKnows(w', w'.threads[t]))
    && RunsMove(w, w'.document) && IntentsMove(w, w'.document, t)
    && (NoneStarts(w, w') || Starts(w, w', t))
  }

  lemma OthersKnow(w: World, w': World, t: Claim, o: Claim)
    requires Inv(w) && Known(w) && Moves(w, w', t) && o != t && o in w'.threads
    ensures PcKnows(w', w'.threads[o])
  {
    assert PcOk(w, o, w.threads[o]) && PcKnows(w, w.threads[o]);
    match w.threads[o]
    case ApplyExact(ref, saved, proc) => assert HasIntent(w.document, ref);
    case ApplyStarted(ref, saved, proc) => assert HasIntent(w.document, ref);
    case ReapExact(snap, ref, proc) => assert StillPlan(w', ref, snap[ref]) ==> HasIntent(w'.document, ref);
    case _ =>
  }

  lemma RunsKnow(w: World, w': World, t: Claim, i: InstanceRef)
    requires Inv(w) && Known(w) && Moves(w, w', t) && i in w'.document.running
    ensures Is(w'.live, w'.document.running[i].unit, w'.document.running[i].proc)
  {
    hide PcOk, PcKnows;
    if !NoneStarts(w, w') {
      var ref, u :| StartsFrom(w.document, ref, u, t) && forall v :: v in w'.live && v != u ==> v in w.live && w'.live[v] == w.live[v];
      assert HasIntent(w.document, ref);
    }
  }

  lemma MovesKnown(w: World, w': World, t: Claim)
    requires Inv(w) && Known(w) && Moves(w, w', t)
    ensures Known(w') && RunsMove(w, w'.document)
  {
    forall o | o in w'.threads ensures PcKnows(w', w'.threads[o]) {
      if o != t {
        OthersKnow(w, w', t, o);
      }
    }
    forall i | i in w'.document.running ensures Is(w'.live, w'.document.running[i].unit, w'.document.running[i].proc) {
      RunsKnow(w, w', t, i);
    }
  }

  // ---- every step moves so ----

  lemma CommitMoves(w: World, ref: PlanRef, saved: Plan, proc: Proc, t: Claim)
    requires Inv(w) && PlanShape(saved) && saved.state == Intent && Is(w.live, saved.unit.value, proc)
    requires CommitRunning(w.document, ref, saved, proc).Ok?
    ensures var d' := CommitRunning(w.document, ref, saved, proc).value; RunsMove(w, d') && IntentsMove(w, d', t)
  {
    hide PcOk, Named, Shaped;
    assert IntentNames(w.document, ref, saved.unit.value, saved.instance);
    assert HasIntent(w.document, ref);
  }

  lemma PlanMoves(c: Config, w: World, s: Step)
    requires (s.MakePlan? || s.Bind?) && DoPlan(c, w, s).Some?
    ensures Moves(w, DoPlan(c, w, s).value, s.t)
  {
  }

  lemma DropMoves(w: World, ref: PlanRef, saved: Plan, t: Claim)
    ensures var d' := DropIntent(w.document, ref, saved); RunsMove(w, d') && IntentsMove(w, d', t)
  {
  }

  lemma ReapMoves(w: World, s: Step)
    requires Inv(w) && Known(w) && (s.ReapBegin? || s.ReapLook? || s.ReapDrop? || s.ReapCommit?) && DoReap(w, s).Some?
    ensures Moves(w, DoReap(w, s).value, s.t)
  {
    hide Moves, RunsMove, IntentsMove, Sound;
    var pc, w' := w.threads[s.t], DoReap(w, s).value;
    assert PcOk(w, s.t, pc) && PcKnows(w, pc);
    if s.ReapDrop? {
      DropMoves(w, pc.ref, pc.snapshot[pc.ref], s.t);
      WriteMoves(w, w', s.t);
    } else if s.ReapCommit? && CommitRunning(w.document, pc.ref, pc.snapshot[pc.ref], pc.proc).Ok? {
      CommitMoves(w, pc.ref, pc.snapshot[pc.ref], pc.proc, s.t);
      WriteMoves(w, w', s.t);
    } else {
      QuietMoves(w, w', s.t);
    }
  }

  lemma StartMoves(w: World, w': World, t: Claim, ref: PlanRef, u: Unit)
    requires t in w.threads && StartsFrom(w.document, ref, u, t) && w'.document == w.document
    requires t in w'.threads && w'.threads == w.threads[t := w'.threads[t]]
    requires PcKnows(w', w'.threads[t]) && forall v :: v in w'.live && v != u ==> v in w.live && w'.live[v] == w.live[v]
    ensures Moves(w, w', t)
  {
  }

  lemma ClaimMoves(c: Config, w: World, s: Step)
    requires s.ApplyClaim? && DoApply(c, w, s).Some?
    ensures Moves(w, DoApply(c, w, s).value, s.t)
  {
  }

  lemma ApplyStartMoves(c: Config, w: World, s: Step)
    requires Inv(w) && s.ApplyStart? && DoApply(c, w, s).Some?
    ensures Moves(w, DoApply(c, w, s).value, s.t)
  {
    hide Moves, Sound, ClaimIntent;
    assert PcOk(w, s.t, w.threads[s.t]);
    var pc := w.threads[s.t];
    StartMoves(w, DoApply(c, w, s).value, s.t, pc.ref, pc.plan.unit.value);
  }

  lemma ApplyMoves(c: Config, w: World, s: Step)
    requires Inv(w) && Known(w) && (s.ApplyClaim? || s.ApplyChanged? || s.ApplyRecover? || s.ApplyStart?) && DoApply(c, w, s).Some?
    ensures Moves(w, DoApply(c, w, s).value, s.t)
  {
    hide Moves, Inv, Known, ClaimIntent;
    if s.ApplyClaim? {
      ClaimMoves(c, w, s);
    } else if s.ApplyStart? {
      ApplyStartMoves(c, w, s);
    } else {
      QuietMoves(w, DoApply(c, w, s).value, s.t);
    }
  }

  /** A step that writes nothing and starts nothing. */
  lemma QuietMoves(w: World, w': World, t: Claim)
    requires t in w.threads && w'.document == w.document && t in w'.threads && w'.threads == w.threads[t := w'.threads[t]]
    requires NoneStarts(w, w') && PcKnows(w', w'.threads[t])
    ensures Moves(w, w', t)
  {
  }

  /** A step that writes the document and leaves the scopes. */
  lemma WriteMoves(w: World, w': World, t: Claim)
    requires t in w.threads && t in w'.threads && w'.threads == w.threads[t := w'.threads[t]] && w'.live == w.live
    requires RunsMove(w, w'.document) && IntentsMove(w, w'.document, t) && PcKnows(w', w'.threads[t])
    ensures Moves(w, w', t)
  {
  }

  lemma ApplyEndMoves(w: World, s: Step)
    requires Inv(w) && Known(w) && (s.ApplyCommit? || s.ApplyCommitFails? || s.ApplyUndo? || s.ApplyResetWrite?) && DoApplyEnd(w, s).Some?
    ensures Moves(w, DoApplyEnd(w, s).value, s.t)
  {
    hide Moves, RunsMove, IntentsMove, Sound;
    var pc, w' := w.threads[s.t], DoApplyEnd(w, s).value;
    assert PcOk(w, s.t, pc) && PcKnows(w, pc);
    if s.ApplyUndo? {
      QuietMoves(w, w', s.t);
    } else if s.ApplyResetWrite? {
      ResetMoves(w, pc.ref, pc.plan, s.t);
      WriteMoves(w, w', s.t);
    } else if w'.document == w.document {
      QuietMoves(w, w', s.t);
    } else {
      CommitMoves(w, pc.ref, pc.plan, pc.proc, s.t);
      WriteMoves(w, w', s.t);
    }
  }

  lemma ResetMoves(w: World, ref: PlanRef, saved: Plan, t: Claim)
    ensures var d' := ResetIntent(w.document, ref, saved); RunsMove(w, d') && IntentsMove(w, d', t)
  {
  }

  /** Only the record of `i` is written, as it was or staying, or it is removed. */
  ghost predicate OneRun(d: Document, d': Document, i: InstanceRef) {
    && d'.plans == d.plans
    && (forall j :: j in d'.running ==> j in d.running && (j == i || d'.running[j] == d.running[j]))
    && (i in d'.running ==> Stays(d.running[i], d'.running[i]))
  }

  lemma OneRunMoves(w: World, w': World, t: Claim, i: InstanceRef)
    requires t in w.threads && t in w'.threads && w'.threads == w.threads[t := w'.threads[t]] && w'.live == w.live
    requires OneRun(w.document, w'.document, i) && PcKnows(w', w'.threads[t])
    ensures Moves(w, w', t)
  {
  }

  lemma RunningMoves(w: World, s: Step)
    requires Inv(w) && Known(w) && (s.RunReapBegin? || s.RunReapLook? || s.RunReapDrop? || s.ProbeRead? || s.ProbeRefresh?)
    requires DoRunning(w, s).Some?
    ensures Moves(w, DoRunning(w, s).value, s.t)
  {
    hide Moves, Sound, PcOk;
    var pc, w' := w.threads[s.t], DoRunning(w, s).value;
    assert PcKnows(w, pc);
    if s.RunReapDrop? || s.ProbeRefresh? {
      OneRunMoves(w, w', s.t, pc.i);
    } else {
      QuietMoves(w, w', s.t);
    }
  }

  lemma StopMoves(w: World, s: Step)
    requires Inv(w) && Known(w) && (s.StopClaim? || s.StopReread? || s.StopLook? || s.StopDropAbsent? || s.StopResetWrite?)
    requires DoStop(w, s).Some?
    ensures Moves(w, DoStop(w, s).value, s.t)
  {
    hide Moves, Sound;
    var pc, w' := w.threads[s.t], DoStop(w, s).value;
    assert PcOk(w, s.t, pc);
    if s.StopClaim? {
      OneRunMoves(w, w', s.t, s.i);
    } else if s.StopDropAbsent? || s.StopResetWrite? {
      OneRunMoves(w, w', s.t, pc.i);
    } else {
      QuietMoves(w, w', s.t);
    }
  }

  lemma StopEndMoves(w: World, s: Step)
    requires Inv(w) && Known(w) && (s.StopRefresh? || s.StopEffect? || s.StopFinish?) && DoStopEnd(w, s).Some?
    ensures Moves(w, DoStopEnd(w, s).value, s.t)
  {
    hide Moves, Sound;
    var pc, w' := w.threads[s.t], DoStopEnd(w, s).value;
    assert PcOk(w, s.t, pc) && PcKnows(w, pc);
    if s.StopEffect? {
      QuietMoves(w, w', s.t);
    } else {
      OneRunMoves(w, w', s.t, pc.i);
    }
  }

  lemma RaiseMoves(w: World, s: Step)
    requires Reads(w, s) && Raises(w, s).Some?
    ensures Moves(w, Raises(w, s).value, s.t)
  {
    hide Moves;
    QuietMoves(w, Raises(w, s).value, s.t);
  }

  lemma EnvironmentMoves(w: World, s: Step)
    requires Inv(w) && Known(w) && (s.Spawn? || s.Crash? || s.Abandon?) && DoEnvironment(w, s).Some?
    ensures Moves(w, DoEnvironment(w, s).value, s.t)
  {
    hide PcOk;
  }

  lemma DoMoves(c: Config, w: World, s: Step)
    requires Inv(w) && Known(w) && Do(c, w, s).Some? && !s.ScopeDies?
    ensures Moves(w, Do(c, w, s).value, s.t)
  {
    hide Inv, Known, DoEnvironment, DoPlan, DoReap, DoApply, DoApplyEnd, DoRunning, DoStop, DoStopEnd, Readable, Raises, Moves, Reads;
    if Reads(w, s) && !Readable(w.document, c.maxPlans) { RaiseMoves(w, s); }
    else if s.Spawn? || s.Crash? || s.Abandon? { EnvironmentMoves(w, s); }
    else if s.MakePlan? || s.Bind? { PlanMoves(c, w, s); }
    else if s.ReapBegin? || s.ReapLook? || s.ReapDrop? || s.ReapCommit? { ReapMoves(w, s); }
    else if s.ApplyClaim? || s.ApplyChanged? || s.ApplyRecover? || s.ApplyStart? { ApplyMoves(c, w, s); }
    else if s.ApplyCommit? || s.ApplyCommitFails? || s.ApplyUndo? || s.ApplyResetWrite? { ApplyEndMoves(w, s); }
    else if s.RunReapBegin? || s.RunReapLook? || s.RunReapDrop? || s.ProbeRead? || s.ProbeRefresh? { RunningMoves(w, s); }
    else if s.StopClaim? || s.StopReread? || s.StopLook? || s.StopDropAbsent? || s.StopResetWrite? { StopMoves(w, s); }
    else { StopEndMoves(w, s); }
  }

  lemma DoKnown(c: Config, w: World, s: Step)
    requires Inv(w) && Known(w) && Do(c, w, s).Some?
    ensures Known(Do(c, w, s).value) && RunsMove(w, Do(c, w, s).value.document)
  {
    hide Inv, Known, Moves, RunsMove;
    if s.ScopeDies? {
      ScopeDiesKnown(w, s.u);
    } else {
      DoMoves(c, w, s);
      hide Do;
      MovesKnown(w, Do(c, w, s).value, s.t);
    }
  }

  lemma ScopeDiesKnown(w: World, u: Unit)
    requires Known(w)
    ensures Known(w.(live := w.live - {u})) && RunsMove(w, w.document)
  {
    var w' := w.(live := w.live - {u});
    forall t | t in w'.threads ensures PcKnows(w', w'.threads[t]) {
      assert PcKnows(w, w.threads[t]);
    }
  }

  // ---- theorems ----

  lemma {:induction false} RunKnown(c: Config, schedule: seq<Step>)
    requires Run(c, schedule).Some?
    ensures Known(Run(c, schedule).value)
  {
    hide Do, Inv;
    if schedule != [] {
      RunKnown(c, schedule[..|schedule| - 1]);
      RunKeeps(c, schedule[..|schedule| - 1]);
      DoKnown(c, Run(c, schedule[..|schedule| - 1]).value, schedule[|schedule| - 1]);
    }
  }

  /** In every reachable world a running record whose scope is live names the very process that is live. */
  lemma RecordsNameProcesses(c: Config, schedule: seq<Step>, i: InstanceRef)
    requires Run(c, schedule).Some? && i in Run(c, schedule).value.document.running
    ensures var w := Run(c, schedule).value; var r := w.document.running[i];
            r.unit in w.live ==> w.live[r.unit].proc == r.proc && w.live[r.unit].instance == i
  {
    hide Run;
    RunKnown(c, schedule);
    RunKeeps(c, schedule);
    var w := Run(c, schedule).value;
    var u := w.document.running[i].unit;
    if u in w.live {
      OwnInstance(w, i);
    }
  }

  lemma OwnInstance(w: World, i: InstanceRef)
    requires Inv(w) && i in w.document.running && w.document.running[i].unit in w.live
    ensures w.live[w.document.running[i].unit].instance == i
  {
    hide PcOk, Shaped;
  }

  /** From any reachable world, a step leaves the record of an instance as it is but for claim, state and a rising generation, or it was not there. */
  lemma RecordsStay(c: Config, schedule: seq<Step>, s: Step, i: InstanceRef)
    requires Run(c, schedule).Some? && Do(c, Run(c, schedule).value, s).Some?
    requires i in Run(c, schedule).value.document.running && i in Do(c, Run(c, schedule).value, s).value.document.running
    ensures Stays(Run(c, schedule).value.document.running[i], Do(c, Run(c, schedule).value, s).value.document.running[i])
  {
    hide Run, Do, Inv;
    RunKnown(c, schedule);
    RunKeeps(c, schedule);
    DoKnown(c, Run(c, schedule).value, s);
  }
}
