/**
 * Where the entries of the journal come from: over every run, what is being started or is running
 * was planned, and was claimed while the plan was younger than the maximal age.
 */
module OllamaOrigins {
  import opened Core
  import opened OllamaJournal
  import opened OllamaProtocol

  /** Step `m` of the schedule planned `ref` as `p` orders it. */
  ghost predicate PlannedAt(schedule: seq<Step>, m: nat, ref: PlanRef, p: Plan) {
    && m < |schedule| && schedule[m].MakePlan? && schedule[m].ref == ref
    && schedule[m].i == p.instance && schedule[m].generation == p.generation
    && schedule[m].digest == p.digest && schedule[m].now == p.createdAt
  }

  /** Step `g` turned the ready plan `ref`, planned at step `m`, into an intent for this unit and port in time. */
  ghost predicate ClaimedAt(c: Config, schedule: seq<Step>, m: nat, g: nat, ref: PlanRef, unit: Unit, port: nat) {
    && m < g < |schedule| && schedule[m].MakePlan? && schedule[m].ref == ref
    && schedule[g].ApplyClaim? && schedule[g].ref == ref && schedule[g].unit == unit && schedule[g].port == port
    && Run(c, schedule[..g]).Some?
    && ref in Run(c, schedule[..g]).value.document.plans
    && Run(c, schedule[..g]).value.document.plans[ref].state == Ready
    && schedule[g].now - schedule[m].now < c.maxAge
  }

  ghost predicate PlanTraced(c: Config, schedule: seq<Step>, ref: PlanRef, p: Plan) {
    && (exists m: nat :: PlannedAt(schedule, m, ref, p))
    && (p.state == Intent ==>
          p.unit.Some? && p.port.Some?
          && exists m: nat, g: nat :: PlannedAt(schedule, m, ref, p) && ClaimedAt(c, schedule, m, g, ref, p.unit.value, p.port.value))
  }

  ghost predicate RunTraced(c: Config, schedule: seq<Step>, i: InstanceRef, r: RunRecord) {
    exists m: nat, g: nat, ref ::
      && ClaimedAt(c, schedule, m, g, ref, r.unit, r.port)
      && schedule[m].i == i && schedule[m].digest == r.digest
  }

  /** The plan `q` stored under `ref` after step `s` continues one stored before it, or is the new one. */
  ghost predicate PlanFrom(c: Config, d: Document, s: Step, ref: PlanRef, q: Plan) {
    || (s.MakePlan? && s.ref == ref && q == NewPlan(s.i, s.generation, s.digest, s.now))
    || (&& ref in d.plans && SameOrder(d.plans[ref], q)
        && (q.state == Intent ==>
              || (d.plans[ref].state == Intent && q.unit == d.plans[ref].unit && q.port == d.plans[ref].port)
              || (&& s.ApplyClaim? && s.ref == ref && d.plans[ref].state == Ready
                  && q.unit == Some(s.unit) && q.port == Some(s.port) && s.now - q.createdAt < c.maxAge)))
  }

  ghost predicate IntentOf(d: Document, ref: PlanRef, i: InstanceRef, r: RunRecord) {
    && ref in d.plans && d.plans[ref].state == Intent && d.plans[ref].instance == i
    && d.plans[ref].digest == r.digest && d.plans[ref].unit == Some(r.unit) && d.plans[ref].port == Some(r.port)
  }

  /** The running record `r` of `i` was there before, up to claim and generation, or was an intent. */
  ghost predicate RunFrom(d: Document, i: InstanceRef, r: RunRecord) {
    || (i in d.running && d.running[i].digest == r.digest && d.running[i].unit == r.unit && d.running[i].port == r.port)
    || exists ref :: IntentOf(d, ref, i, r)
  }

  ghost predicate Follows(c: Config, d: Document, s: Step, d': Document) {
    && (forall ref :: ref in d'.plans ==> PlanFrom(c, d, s, ref, d'.plans[ref]))
    && (forall i :: i in d'.running ==> RunFrom(d, i, d'.running[i]))
  }

  lemma CommitFollows(c: Config, d: Document, s: Step, ref: PlanRef, saved: Plan, proc: Proc)
    requires PlanShape(saved) && saved.state == Intent && CommitRunning(d, ref, saved, proc).Ok?
    ensures Follows(c, d, s, CommitRunning(d, ref, saved, proc).value)
  {
    assert IntentOf(d, ref, saved.instance, RunningFrom(saved, proc));
  }

  lemma PlanFollows(c: Config, w: World, s: Step)
    requires (s.MakePlan? || s.Bind?) && DoPlan(c, w, s).Some?
    ensures Follows(c, w.document, s, DoPlan(c, w, s).value.document)
  {
  }

  lemma ReapFollows(c: Config, w: World, s: Step)
    requires (s.ReapBegin? || s.ReapLook? || s.ReapDrop? || s.ReapCommit?) && DoReap(w, s).Some?
    ensures Follows(c, w.document, s, DoReap(w, s).value.document)
  {
    if s.ReapCommit? {
      var pc := w.threads[s.t];
      if CommitRunning(w.document, pc.ref, pc.snapshot[pc.ref], pc.proc).Ok? {
        CommitFollows(c, w.document, s, pc.ref, pc.snapshot[pc.ref], pc.proc);
      }
    }
  }

  lemma ApplyFollows(c: Config, w: World, s: Step)
    requires (s.ApplyClaim? || s.ApplyChanged? || s.ApplyRecover? || s.ApplyStart?) && DoApply(c, w, s).Some?
    ensures Follows(c, w.document, s, DoApply(c, w, s).value.document)
  {
    if s.ApplyClaim? {
      ClaimExactly(w.document, c.maxAge, s.ref, s.now, s.unit, s.port, s.t, s.ownerAlive);
      ClaimWrites(w.document, c.maxAge, s.ref, s.now, s.unit, s.port, s.t, s.ownerAlive);
      hide ClaimIntent, StartedElsewhere;
    }
  }

  lemma ApplyEndFollows(c: Config, w: World, s: Step)
    requires (s.ApplyCommit? || s.ApplyCommitFails? || s.ApplyUndo? || s.ApplyResetWrite?) && DoApplyEnd(w, s).Some?
    ensures Follows(c, w.document, s, DoApplyEnd(w, s).value.document)
  {
    if s.ApplyCommit? || s.ApplyCommitFails? {
      var pc := w.threads[s.t];
      if CommitRunning(w.document, pc.ref, pc.plan, pc.proc).Ok? {
        CommitFollows(c, w.document, s, pc.ref, pc.plan, pc.proc);
      }
    }
  }

  lemma StopFollows(c: Config, w: World, s: Step)
    requires (s.StopClaim? || s.StopReread? || s.StopLook? || s.StopDropAbsent? || s.StopResetWrite?) && DoStop(w, s).Some?
    ensures Follows(c, w.document, s, DoStop(w, s).value.document)
  {
  }

  lemma EnvironmentFollows(c: Config, w: World, s: Step)
    requires (s.Spawn? || s.Crash? || s.Abandon? || s.ScopeDies?) && DoEnvironment(w, s).Some?
    ensures Follows(c, w.document, s, DoEnvironment(w, s).value.document)
  {
  }

  lemma RunningFollows(c: Config, w: World, s: Step)
    requires (s.RunReapBegin? || s.RunReapLook? || s.RunReapDrop? || s.ProbeRead? || s.ProbeRefresh?) && DoRunning(w, s).Some?
    ensures Follows(c, w.document, s, DoRunning(w, s).value.document)
  {
  }

  lemma StopEndFollows(c: Config, w: World, s: Step)
    requires (s.StopRefresh? || s.StopEffect? || s.StopFinish?) && DoStopEnd(w, s).Some?
    ensures Follows(c, w.document, s, DoStopEnd(w, s).value.document)
  {
  }

  /** Every step, whether it reads or raises, continues the entries it finds. */
  lemma DoFollows(c: Config, w: World, s: Step)
    requires Do(c, w, s).Some?
    ensures Follows(c, w.document, s, Do(c, w, s).value.document)
  {
    hide DoEnvironment, DoPlan, DoReap, DoApply, DoApplyEnd, DoRunning, DoStop, DoStopEnd, Readable;
    if Reads(w, s) && !Readable(w.document, c.maxPlans) {
      assert Do(c, w, s).value.document == w.document;
    }
    else if s.MakePlan? || s.Bind? { PlanFollows(c, w, s); }
    else if s.ReapBegin? || s.ReapLook? || s.ReapDrop? || s.ReapCommit? { ReapFollows(c, w, s); }
    else if s.ApplyClaim? || s.ApplyChanged? || s.ApplyRecover? || s.ApplyStart? { ApplyFollows(c, w, s); }
    else if s.ApplyCommit? || s.ApplyCommitFails? || s.ApplyUndo? || s.ApplyResetWrite? { ApplyEndFollows(c, w, s); }
    else if s.StopClaim? || s.StopReread? || s.StopLook? || s.StopDropAbsent? || s.StopResetWrite? { StopFollows(c, w, s); }
    else if s.Spawn? || s.Crash? || s.Abandon? || s.ScopeDies? { EnvironmentFollows(c, w, s); }
    else if s.RunReapBegin? || s.RunReapLook? || s.RunReapDrop? || s.ProbeRead? || s.ProbeRefresh? { RunningFollows(c, w, s); }
    else { StopEndFollows(c, w, s); }
  }

  /** What a shorter schedule showed, the longer one shows. */
  lemma TraceGrows(c: Config, before: seq<Step>, s: Step)
    ensures forall m: nat, ref, p :: PlannedAt(before, m, ref, p) ==> PlannedAt(before + [s], m, ref, p)
    ensures forall m: nat, g: nat, ref, unit, port: nat :: ClaimedAt(c, before, m, g, ref, unit, port) ==> ClaimedAt(c, before + [s], m, g, ref, unit, port)
  {
    forall m: nat, g: nat, ref, unit, port: nat | ClaimedAt(c, before, m, g, ref, unit, port)
      ensures ClaimedAt(c, before + [s], m, g, ref, unit, port)
    {
      hide Run;
      assert (before + [s])[..g] == before[..g];
    }
  }

  lemma PlanTraceStep(c: Config, before: seq<Step>, s: Step, ref: PlanRef, q: Plan)
    requires Run(c, before).Some?
    requires PlanFrom(c, Run(c, before).value.document, s, ref, q)
    requires ref in Run(c, before).value.document.plans ==> PlanTraced(c, before, ref, Run(c, before).value.document.plans[ref])
    ensures PlanTraced(c, before + [s], ref, q)
  {
    hide Run;
    TraceGrows(c, before, s);
    var d := Run(c, before).value.document;
    var all := before + [s];
    if s.MakePlan? && s.ref == ref && q == NewPlan(s.i, s.generation, s.digest, s.now) {
      assert PlannedAt(all, |before|, ref, q);
    } else {
      var p := d.plans[ref];
      var m: nat :| PlannedAt(before, m, ref, p);
      assert PlannedAt(all, m, ref, q);
      if q.state == Intent && p.state == Intent && q.unit == p.unit && q.port == p.port {
        var n: nat, g: nat :| PlannedAt(before, n, ref, p) && ClaimedAt(c, before, n, g, ref, p.unit.value, p.port.value);
        assert PlannedAt(all, n, ref, q) && ClaimedAt(c, all, n, g, ref, q.unit.value, q.port.value);
      } else if q.state == Intent {
        assert all[..|before|] == before;
        assert ClaimedAt(c, all, m, |before|, ref, q.unit.value, q.port.value);
      }
    }
  }

  lemma RunTraceStep(c: Config, before: seq<Step>, s: Step, i: InstanceRef, r: RunRecord)
    requires Run(c, before).Some?
    requires RunFrom(Run(c, before).value.document, i, r)
    requires i in Run(c, before).value.document.running ==> RunTraced(c, before, i, Run(c, before).value.document.running[i])
    requires forall ref :: ref in Run(c, before).value.document.plans ==> PlanTraced(c, before, ref, Run(c, before).value.document.plans[ref])
    ensures RunTraced(c, before + [s], i, r)
  {
    hide Run;
    TraceGrows(c, before, s);
    var d := Run(c, before).value.document;
    var all := before + [s];
    if i in d.running && d.running[i].digest == r.digest && d.running[i].unit == r.unit && d.running[i].port == r.port {
      var m: nat, g: nat, ref :| ClaimedAt(c, before, m, g, ref, r.unit, r.port) && before[m].i == i && before[m].digest == r.digest;
      assert ClaimedAt(c, all, m, g, ref, r.unit, r.port) && all[m].i == i;
    } else {
      var ref :| IntentOf(d, ref, i, r);
      var p := d.plans[ref];
      var m: nat, g: nat :| PlannedAt(before, m, ref, p) && ClaimedAt(c, before, m, g, ref, p.unit.value, p.port.value);
      assert ClaimedAt(c, all, m, g, ref, r.unit, r.port) && all[m].i == i;
    }
  }

  /**
   * Over every run, each plan stands as it was planned, and each intent and each running record has its
   * unit and port from a claim made less than the maximal age after the plan of the same instance.
   */
  lemma {:induction false} EntriesTraced(c: Config, schedule: seq<Step>)
    requires Run(c, schedule).Some?
    ensures var d := Run(c, schedule).value.document;
            && (forall ref :: ref in d.plans ==> PlanTraced(c, schedule, ref, d.plans[ref]))
            && (forall i :: i in d.running ==> RunTraced(c, schedule, i, d.running[i]))
  {
    hide PlanTraced, RunTraced, Follows, Do;
    if schedule != [] {
      var before, s := schedule[..|schedule| - 1], schedule[|schedule| - 1];
      EntriesTraced(c, before);
      var w := Run(c, before).value;
      assert Run(c, schedule) == Do(c, w, s);
      DoFollows(c, w, s);
      assert schedule == before + [s];
      hide Run;
      TraceStep(c, before, s, Run(c, schedule).value.document);
    }
  }

  lemma TraceStep(c: Config, before: seq<Step>, s: Step, d: Document)
    requires Run(c, before).Some? && Follows(c, Run(c, before).value.document, s, d)
    requires forall ref :: ref in Run(c, before).value.document.plans ==> PlanTraced(c, before, ref, Run(c, before).value.document.plans[ref])
    requires forall i :: i in Run(c, before).value.document.running ==> RunTraced(c, before, i, Run(c, before).value.document.running[i])
    ensures forall ref :: ref in d.plans ==> PlanTraced(c, before + [s], ref, d.plans[ref])
    ensures forall i :: i in d.running ==> RunTraced(c, before + [s], i, d.running[i])
  {
    hide Run, PlanTraced, RunTraced, PlanFrom, RunFrom;
    forall ref | ref in d.plans ensures PlanTraced(c, before + [s], ref, d.plans[ref]) {
      PlanTraceStep(c, before, s, ref, d.plans[ref]);
    }
    forall i | i in d.running ensures RunTraced(c, before + [s], i, d.running[i]) {
      RunTraceStep(c, before, s, i, d.running[i]);
    }
  }

  /** Every intent was created less than the maximal age after the plan of its reference. */
  lemma IntentsInTime(c: Config, schedule: seq<Step>, ref: PlanRef)
    requires Run(c, schedule).Some? && HasIntent(Run(c, schedule).value.document, ref)
    ensures var p := Run(c, schedule).value.document.plans[ref];
            p.unit.Some? && p.port.Some?
            && exists m: nat, g: nat :: PlannedAt(schedule, m, ref, p) && ClaimedAt(c, schedule, m, g, ref, p.unit.value, p.port.value)
  {
    EntriesTraced(c, schedule);
  }

  /** No scope is ever live but under a plan of its instance that was claimed in time. */
  lemma LiveScopesInTime(c: Config, schedule: seq<Step>, u: Unit)
    requires Run(c, schedule).Some? && u in Run(c, schedule).value.live
    ensures exists m: nat, g: nat, ref, port: nat :: ClaimedAt(c, schedule, m, g, ref, u, port) && schedule[m].i == Run(c, schedule).value.live[u].instance
  {
    hide Run, ClaimedAt;
    EntriesTraced(c, schedule);
    LiveScopesNamed(c, schedule, u);
    var w := Run(c, schedule).value;
    var d, i := w.document, w.live[u].instance;
    if RunNames(d, u, i) {
      assert RunTraced(c, schedule, i, d.running[i]);
    } else {
      var ref :| IntentNames(d, ref, u, i);
      var p := d.plans[ref];
      assert PlanTraced(c, schedule, ref, p);
      var m: nat, g: nat :| PlannedAt(schedule, m, ref, p) && ClaimedAt(c, schedule, m, g, ref, p.unit.value, p.port.value);
      assert ClaimedAt(c, schedule, m, g, ref, u, p.port.value) && schedule[m].i == i;
    }
  }
}
