/**
 * When the journal can be read: in every reachable world exactly while at most 64 running records
 * are listed.  Once it cannot, no section changes it again.
 */
module OllamaReading {
  import opened Core
  import opened OllamaJournal
  import opened OllamaProtocol

  predicate RunsShaped(d: Document) {
    forall i :: i in d.running ==> RunShape(d.running[i])
  }

  /** Process identities a thread carries come from the kernel. */
  predicate PcFit(pc: Pc) {
    match pc
    case ReapExact(_, _, proc) => ProcOk(proc)
    case ApplyExact(_, _, proc) => ProcOk(proc)
    case ApplyStarted(_, _, proc) => ProcOk(proc)
    case _ => true
  }

  ghost predicate Fit(c: Config, w: World) {
    && |w.document.plans| <= c.maxPlans
    && RunsShaped(w.document)
    && (forall u :: u in w.live ==> ProcOk(w.live[u].proc))
    && (forall t :: t in w.threads ==> PcFit(w.threads[t]))
  }

  lemma PlansSmaller(a: map<PlanRef, Plan>, b: map<PlanRef, Plan>)
    requires a.Keys <= b.Keys
    ensures |a| <= |b|
  {
    assert |a| == |a.Keys| && |b| == |b.Keys|;
    SubsetSize(a.Keys, b.Keys);
  }

  /** A step of one thread that changes the document within the limits. */
  lemma WriteFit(c: Config, w: World, w': World, t: Claim, pc: Pc)
    requires Fit(c, w) && PcFit(pc) && w'.threads == w.threads[t := pc] && (forall u :: u in w'.live ==> ProcOk(w'.live[u].proc))
    requires |w'.document.plans| <= c.maxPlans && RunsShaped(w'.document)
    ensures Fit(c, w')
  {
  }

  lemma EnvironmentFit(w: World, s: Step, c: Config)
    requires Fit(c, w) && DoEnvironment(w, s).Some?
    ensures Fit(c, DoEnvironment(w, s).value)
  {
  }

  lemma PlanFit(c: Config, w: World, s: Step)
    requires Fit(c, w) && (s.MakePlan? || s.Bind?) && DoPlan(c, w, s).Some?
    ensures Fit(c, DoPlan(c, w, s).value)
  {
    hide RunShape;
    var w' := DoPlan(c, w, s).value;
    match s
    case MakePlan(t, ref, i, generation, digest, now) =>
      var kept := Unexpired(w.document.plans, now, c.maxAge, Some(generation));
      var grown := kept[ref := NewPlan(i, generation, digest, now)];
      assert grown.Keys == kept.Keys + {ref};
      assert |grown| == |grown.Keys| && |kept| == |kept.Keys|;
    case Bind(t, ref, digest, resource) => PlansSmaller(w'.document.plans, w.document.plans);
  }

  lemma CommitFit(d: Document, ref: PlanRef, saved: Plan, proc: Proc)
    requires PlanShape(saved) && saved.state == Intent && ProcOk(proc) && RunsShaped(d) && CommitRunning(d, ref, saved, proc).Ok?
    ensures var d' := CommitRunning(d, ref, saved, proc).value; RunsShaped(d') && |d'.plans| <= |d.plans|
  {
    PlansSmaller(CommitRunning(d, ref, saved, proc).value.plans, d.plans);
  }

  lemma ReapFit(c: Config, w: World, s: Step)
    requires Fit(c, w) && (s.ReapBegin? || s.ReapLook? || s.ReapDrop? || s.ReapCommit?) && DoReap(w, s).Some?
    ensures Fit(c, DoReap(w, s).value)
  {
    hide RunShape, RunsShaped, RunningFrom;
    var w' := DoReap(w, s).value;
    match (s, w.threads[s.t])
    case (ReapDrop(t), ReapAbsent(snap, ref)) =>
      PlansSmaller(w'.document.plans, w.document.plans);
      assert w'.document.running == w.document.running;
      SameRuns(w.document, w'.document);
    case (ReapCommit(t), ReapExact(snap, ref, proc)) =>
      if CommitRunning(w.document, ref, snap[ref], proc).Ok? {
        CommitFit(w.document, ref, snap[ref], proc);
      }
    case _ =>
  }

  lemma SameRuns(d: Document, d': Document)
    requires RunsShaped(d) && d'.running == d.running
    ensures RunsShaped(d')
  {
  }

  lemma ApplyFit(c: Config, w: World, s: Step)
    requires Fit(c, w) && (s.ApplyClaim? || s.ApplyChanged? || s.ApplyRecover? || s.ApplyStart?) && DoApply(c, w, s).Some?
    ensures Fit(c, DoApply(c, w, s).value)
  {
    hide RunShape, RunsShaped, OtherIntent, Expired;
    var w' := DoApply(c, w, s).value;
    if s.ApplyClaim? {
      PlansSmaller(w'.document.plans, w.document.plans);
    }
    SameRuns(w.document, w'.document);
    WriteFit(c, w, w', s.t, w'.threads[s.t]);
  }

  lemma CommitStepFit(c: Config, w: World, t: Claim, ref: PlanRef, saved: Plan, proc: Proc, pc: Pc)
    requires Fit(c, w) && PcFit(pc) && PlanShape(saved) && saved.state == Intent && ProcOk(proc)
    ensures var r := CommitRunning(w.document, ref, saved, proc);
            Fit(c, Write(w, if r.Ok? then r.value else w.document, t, pc))
  {
    hide RunsShaped;
    if CommitRunning(w.document, ref, saved, proc).Ok? {
      CommitFit(w.document, ref, saved, proc);
    }
  }

  lemma GotoFit(c: Config, w: World, t: Claim, pc: Pc)
    requires Fit(c, w) && PcFit(pc)
    ensures Fit(c, Goto(w, t, pc))
  {
    hide RunsShaped;
  }

  lemma ApplyEndFit(c: Config, w: World, s: Step)
    requires Fit(c, w) && (s.ApplyCommit? || s.ApplyCommitFails? || s.ApplyUndo? || s.ApplyResetWrite?) && DoApplyEnd(w, s).Some?
    ensures Fit(c, DoApplyEnd(w, s).value)
  {
    hide RunShape, RunsShaped, RunningFrom, CommitRunning;
    var w' := DoApplyEnd(w, s).value;
    match (s, w.threads[s.t])
    case (ApplyCommit(t), ApplyExact(ref, saved, proc)) => CommitStepFit(c, w, t, ref, saved, proc, Idle);
    case (ApplyCommit(t), ApplyStarted(ref, saved, proc)) =>
      CommitStepFit(c, w, t, ref, saved, proc, Idle);
      GotoFit(c, w, t, ApplyCommitFailed(ref, saved));
    case (ApplyCommitFails(t, written), ApplyStarted(ref, saved, proc)) =>
      CommitStepFit(c, w, t, ref, saved, proc, ApplyCommitFailed(ref, saved));
      GotoFit(c, w, t, ApplyCommitFailed(ref, saved));
    case (ApplyUndo(t), ApplyCommitFailed(ref, saved)) =>
    case (ApplyResetWrite(t), ApplyReset(ref, saved)) =>
      PlansSmaller(w'.document.plans, w.document.plans);
      SameRuns(w.document, w'.document);
  }

  lemma RunningFit(c: Config, w: World, s: Step)
    requires Fit(c, w) && (s.RunReapBegin? || s.RunReapLook? || s.RunReapDrop? || s.ProbeRead? || s.ProbeRefresh?)
    requires DoRunning(w, s).Some?
    ensures Fit(c, DoRunning(w, s).value)
  {
  }

  lemma StopFit(c: Config, w: World, s: Step)
    requires Fit(c, w) && (s.StopClaim? || s.StopReread? || s.StopLook? || s.StopDropAbsent? || s.StopResetWrite?)
    requires DoStop(w, s).Some?
    ensures Fit(c, DoStop(w, s).value)
  {
  }

  lemma StopEndFit(c: Config, w: World, s: Step)
    requires Fit(c, w) && (s.StopRefresh? || s.StopEffect? || s.StopFinish?) && DoStopEnd(w, s).Some?
    ensures Fit(c, DoStopEnd(w, s).value)
  {
  }

  lemma RaiseFit(c: Config, w: World, s: Step)
    requires Fit(c, w) && Reads(w, s) && Raises(w, s).Some?
    ensures Fit(c, Raises(w, s).value)
  {
    hide RunsShaped;
  }

  lemma StepFit(c: Config, w: World, s: Step)
    requires Fit(c, w) && Do(c, w, s).Some?
    ensures Fit(c, Do(c, w, s).value)
  {
    hide Fit, Readable, DoEnvironment, DoPlan, DoReap, DoApply, DoApplyEnd, DoRunning, DoStop, DoStopEnd, Raises;
    if Reads(w, s) && !Readable(w.document, c.maxPlans) { RaiseFit(c, w, s); }
    else if s.Spawn? || s.Crash? || s.Abandon? || s.ScopeDies? { EnvironmentFit(w, s, c); }
    else if s.MakePlan? || s.Bind? { PlanFit(c, w, s); }
    else if s.ReapBegin? || s.ReapLook? || s.ReapDrop? || s.ReapCommit? { ReapFit(c, w, s); }
    else if s.ApplyClaim? || s.ApplyChanged? || s.ApplyRecover? || s.ApplyStart? { ApplyFit(c, w, s); }
    else if s.ApplyCommit? || s.ApplyCommitFails? || s.ApplyUndo? || s.ApplyResetWrite? { ApplyEndFit(c, w, s); }
    else if s.RunReapBegin? || s.RunReapLook? || s.RunReapDrop? || s.ProbeRead? || s.ProbeRefresh? { RunningFit(c, w, s); }
    else if s.StopClaim? || s.StopReread? || s.StopLook? || s.StopDropAbsent? || s.StopResetWrite? { StopFit(c, w, s); }
    else { StopEndFit(c, w, s); }
  }

  lemma {:induction false} RunFit(c: Config, schedule: seq<Step>)
    requires Run(c, schedule).Some?
    ensures Fit(c, Run(c, schedule).value)
  {
    hide Do;
    if schedule != [] {
      RunFit(c, schedule[..|schedule| - 1]);
      StepFit(c, Run(c, schedule[..|schedule| - 1]).value, schedule[|schedule| - 1]);
    }
  }

  /** In every reachable world the reader accepts the document if and only if it lists at most 64 running records. */
  lemma ReadableExactly(c: Config, schedule: seq<Step>)
    requires Run(c, schedule).Some?
    ensures var d := Run(c, schedule).value.document; Readable(d, c.maxPlans) <==> |d.running| <= MAX_RUNNING
  {
    hide Run, Exclusive, Named, PlanShape, RunShape, PcOk;
    RunFit(c, schedule);
    RunKeeps(c, schedule);
  }

  // ---- once unreadable ----

  /** Steps that do not read the document leave it alone. */
  lemma UnreadSection(c: Config, w: World, s: Step)
    requires !Reads(w, s) && Section(c, w, s).Some?
    ensures Section(c, w, s).value.document == w.document
  {
    hide AddPlan, BindPrecondition, CommitRunning, ClaimIntent, ClaimStop;
  }

  lemma UnreadStays(c: Config, w: World, s: Step)
    requires !Readable(w.document, c.maxPlans) && Do(c, w, s).Some?
    ensures Do(c, w, s).value.document == w.document
  {
    hide Readable, Section;
    if !Reads(w, s) {
      UnreadSection(c, w, s);
    }
  }

  lemma {:induction false} UnreadableForever(c: Config, schedule: seq<Step>, n: nat)
    requires n <= |schedule| && Run(c, schedule).Some? && Run(c, schedule[..n]).Some?
    requires !Readable(Run(c, schedule[..n]).value.document, c.maxPlans)
    ensures Run(c, schedule).value.document == Run(c, schedule[..n]).value.document
    decreases |schedule|
  {
    hide Do, Readable;
    if n == |schedule| {
      assert schedule[..n] == schedule;
    } else {
      var m := |schedule| - 1;
      assert schedule[..m][..n] == schedule[..n];
      UnreadableForever(c, schedule[..m], n);
      UnreadStays(c, Run(c, schedule[..m]).value, schedule[m]);
    }
  }

  // ---- a run that gets there ----

  /** The names of one plan, its instance and its unit, as the reader wants them. */
  datatype Names = Names(ref: PlanRef, instance: InstanceRef, unit: Unit)

  function NamesOf(k: nat): Names {
    Names("plan-" + Word(k, 32), "instance-" + Word(k, 32), "codex-master-ollama-" + Word(k, 32) + ".scope")
  }

  lemma WordInside(before: string, j: nat, k: nat, after: string)
    requires j < 512 && k < 512 && before + Word(j, 32) + after == before + Word(k, 32) + after
    ensures j == k
  {
    var a, b := before + Word(j, 32) + after, before + Word(k, 32) + after;
    assert a[|before|..|before| + 32] == Word(j, 32) && b[|before|..|before| + 32] == Word(k, 32);
    PowAbove(32);
    WordApart(j, k, 32);
  }

  lemma NamedApart(j: nat, k: nat)
    requires j < k < 512
    ensures NamesOf(j).ref != NamesOf(k).ref && NamesOf(j).instance != NamesOf(k).instance && NamesOf(j).unit != NamesOf(k).unit
  {
    hide Word;
    if NamesOf(j).ref == NamesOf(k).ref {
      assert "plan-" + Word(j, 32) + "" == NamesOf(j).ref && "plan-" + Word(k, 32) + "" == NamesOf(k).ref;
      WordInside("plan-", j, k, "");
    }
    if NamesOf(j).instance == NamesOf(k).instance {
      assert "instance-" + Word(j, 32) + "" == NamesOf(j).instance && "instance-" + Word(k, 32) + "" == NamesOf(k).instance;
      WordInside("instance-", j, k, "");
    }
    if NamesOf(j).unit == NamesOf(k).unit {
      WordInside("codex-master-ollama-", j, k, ".scope");
    }
  }

  const Started := Proc(1, "/scope", 1)
  const PlanDigest := "sha256:" + Word(0, 64)

  function Recorded(x: Names): RunRecord {
    RunRecord(0, PlanDigest, x.unit, 1, Started, Running, None, None, None)
  }

  function Planned(x: Names): Plan {
    NewPlan(x.instance, 0, PlanDigest, 0)
  }

  function Intended(t: Claim, x: Names): Plan {
    Planned(x).(state := Intent, claim := Some(t), unit := Some(x.unit), port := Some(1))
  }

  /** One idle thread, and n instances it has started and committed. */
  function Loaded(t: Claim, n: nat): World {
    if n == 0 then World(Document(map[], map[]), map[], {}, {}, {t}, map[t := Idle])
    else
      var w, x := Loaded(t, n - 1), NamesOf(n - 1);
      World(Document(map[], w.document.running[x.instance := Recorded(x)]), w.live[x.unit := Scope(x.instance, Started)],
            w.usedUnits + {x.unit}, w.usedRefs + {x.ref}, {t}, map[t := Idle])
  }

  ghost predicate Free(w: World, x: Names) {
    x.instance !in w.document.running && x.unit !in w.live && x.unit !in w.usedUnits && x.ref !in w.usedRefs
  }

  lemma {:induction false} LoadedFree(t: Claim, n: nat, m: nat)
    requires n <= m < 512
    ensures Free(Loaded(t, n), NamesOf(m))
  {
    hide NamesOf;
    if n > 0 {
      LoadedFree(t, n - 1, m);
      NamedApart(n - 1, m);
    }
  }

  lemma {:induction false} LoadedSize(t: Claim, n: nat)
    requires n < 512
    ensures |Loaded(t, n).document.running| == n
  {
    hide NamesOf, Free;
    if n > 0 {
      LoadedSize(t, n - 1);
      assert NamesOf(n - 1).instance !in Loaded(t, n - 1).document.running by {
        LoadedApart(t, n - 1);
      }
      AddedSize(Loaded(t, n - 1).document.running, NamesOf(n - 1).instance, Recorded(NamesOf(n - 1)));
    }
  }

  lemma LoadedApart(t: Claim, n: nat)
    requires n < 512
    ensures NamesOf(n).instance !in Loaded(t, n).document.running
  {
    hide Loaded, NamesOf;
    LoadedFree(t, n, n);
  }

  lemma AddedSize(running: map<InstanceRef, RunRecord>, i: InstanceRef, r: RunRecord)
    requires i !in running
    ensures |running[i := r]| == |running| + 1
  {
    var more := running[i := r];
    assert more.Keys == running.Keys + {i};
    assert |more| == |more.Keys| && |running| == |running.Keys|;
  }

  lemma {:induction false} LoadedShaped(t: Claim, n: nat)
    ensures RunsShaped(Loaded(t, n).document)
  {
    hide NamesOf;
    if n > 0 {
      LoadedShaped(t, n - 1);
    }
  }

  lemma LoadedReadable(c: Config, t: Claim, n: nat, plans: map<PlanRef, Plan>)
    requires n <= MAX_RUNNING && |plans| <= c.maxPlans && forall r :: r in plans ==> PlanShape(plans[r])
    ensures Readable(Document(plans, Loaded(t, n).document.running), c.maxPlans)
  {
    hide Loaded;
    LoadedSize(t, n);
    LoadedShaped(t, n);
  }

  /** One thread works on a plan; nothing else changes. */
  function Working(t: Claim, w: World, plans: map<PlanRef, Plan>, pc: Pc): World {
    w.(document := Document(plans, w.document.running), threads := map[t := pc])
  }

  lemma PlanStep(c: Config, t: Claim, x: Names, w: World)
    requires w.threads == map[t := Idle] && w.document.plans == map[] && x.ref !in w.usedRefs && Readable(w.document, c.maxPlans) && c.maxPlans >= 1
    ensures Do(c, w, MakePlan(t, x.ref, x.instance, 0, PlanDigest, 0)) ==
            Some(Working(t, w, map[x.ref := Planned(x)], Idle).(usedRefs := w.usedRefs + {x.ref}))
  {
    hide Readable;
    assert Unexpired(map[], 0, c.maxAge, Some(0)) == map[];
  }

  lemma ClaimsPlanned(t: Claim, x: Names, running: map<InstanceRef, RunRecord>, maxAge: nat)
    requires x.instance !in running && maxAge >= 1
    ensures ClaimIntent(Document(map[x.ref := Planned(x)], running), maxAge, x.ref, 0, x.unit, 1, t, false) ==
            Ok(Claimed(Document(map[x.ref := Intended(t, x)], running), Intended(t, x), true))
  {
    var plans := map[x.ref := Planned(x)];
    assert Unexpired(plans, 0, maxAge, None) == plans;
    assert plans[x.ref := Intended(t, x)] == map[x.ref := Intended(t, x)];
  }

  lemma ClaimStep(c: Config, t: Claim, x: Names, w: World)
    requires w.threads == map[t := Idle] && w.document.plans == map[x.ref := Planned(x)] && x.unit !in w.usedUnits
    requires x.instance !in w.document.running && Readable(w.document, c.maxPlans) && c.maxAge >= 1
    ensures Do(c, w, ApplyClaim(t, x.ref, 0, x.unit, 1, false)) ==
            Some(Working(t, w, map[x.ref := Intended(t, x)], ApplyClaimed(x.ref, Intended(t, x), true)).(usedUnits := w.usedUnits + {x.unit}))
  {
    hide Readable, ClaimIntent;
    ClaimsPlanned(t, x, w.document.running, c.maxAge);
    assert w.document == Document(map[x.ref := Planned(x)], w.document.running);
    var pc := ApplyClaimed(x.ref, Intended(t, x), true);
    assert map[t := Idle][t := pc] == map[t := pc];
  }

  lemma RecoverStep(c: Config, t: Claim, x: Names, w: World)
    requires w.threads == map[t := ApplyClaimed(x.ref, Intended(t, x), true)] && x.unit !in w.live
    ensures Do(c, w, ApplyRecover(t, Absent)) == Some(w.(threads := map[t := ApplyAbsent(x.ref, Intended(t, x), true)]))
  {
    var saved := Intended(t, x);
    assert map[t := ApplyClaimed(x.ref, saved, true)][t := ApplyAbsent(x.ref, saved, true)] == map[t := ApplyAbsent(x.ref, saved, true)];
  }

  lemma StartStep(c: Config, t: Claim, x: Names, w: World)
    requires w.threads == map[t := ApplyAbsent(x.ref, Intended(t, x), true)]
    ensures Do(c, w, ApplyStart(t, StartedOk(Started))) ==
            Some(w.(threads := map[t := ApplyStarted(x.ref, Intended(t, x), Started)], live := w.live[x.unit := Scope(x.instance, Started)]))
  {
    var saved := Intended(t, x);
    assert map[t := ApplyAbsent(x.ref, saved, true)][t := ApplyStarted(x.ref, saved, Started)] == map[t := ApplyStarted(x.ref, saved, Started)];
  }

  lemma CommitStep(c: Config, t: Claim, x: Names, w: World)
    requires w.threads == map[t := ApplyStarted(x.ref, Intended(t, x), Started)] && w.document.plans == map[x.ref := Intended(t, x)]
    requires Readable(w.document, c.maxPlans)
    ensures Do(c, w, ApplyCommit(t)) ==
            Some(w.(threads := map[t := Idle], document := Document(map[], w.document.running[x.instance := Recorded(x)])))
  {
    hide Readable;
    var saved := Intended(t, x);
    assert map[x.ref := saved] - {x.ref} == map[];
    assert RunningFrom(saved, Started) == Recorded(x);
    assert map[t := ApplyStarted(x.ref, saved, Started)][t := Idle] == map[t := Idle];
  }

  /** Loading one more, spelled out. */
  lemma LoadedNext(t: Claim, n: nat)
    ensures var w, x := Loaded(t, n), NamesOf(n);
            && w.threads == map[t := Idle] && w.document.plans == map[] && w.born == {t}
            && Loaded(t, n + 1) == World(Document(map[], w.document.running[x.instance := Recorded(x)]),
                                         w.live[x.unit := Scope(x.instance, Started)], w.usedUnits + {x.unit},
                                         w.usedRefs + {x.ref}, {t}, map[t := Idle])
  {
  }

  lemma RunAppends(c: Config, schedule: seq<Step>, s: Step)
    ensures Run(c, schedule + [s]) == if Run(c, schedule).None? then None else Do(c, Run(c, schedule).value, s)
  {
    assert (schedule + [s])[..|schedule|] == schedule;
  }

  lemma {:induction false} ReachLoaded(c: Config, t: Claim, n: nat) returns (schedule: seq<Step>)
    requires n <= MAX_RUNNING + 1 && c.maxPlans >= 1 && c.maxAge >= 1
    ensures Run(c, schedule) == Some(Loaded(t, n))
  {
    hide Run, Do, Loaded;
    if n == 0 {
      schedule := ReachSpawned(c, t);
    } else {
      schedule := ReachLoaded(c, t, n - 1);
      schedule := ReachNext(c, t, n - 1, schedule);
    }
  }

  lemma ReachSpawned(c: Config, t: Claim) returns (schedule: seq<Step>)
    ensures Run(c, schedule) == Some(Loaded(t, 0))
  {
    assert Run(c, []) == Some(Init);
    var w := Loaded(t, 0);
    assert Init.born + {t} == {t} && Init.threads[t := Idle] == map[t := Idle];
    assert DoEnvironment(Init, Spawn(t)) == Some(w);
    assert Do(c, Init, Spawn(t)) == DoEnvironment(Init, Spawn(t));
    hide Run, Do, Loaded;
    RunAppends(c, [], Spawn(t));
    schedule := [] + [Spawn(t)];
  }

  /** Plan, claim, look, start and commit: one more instance. */
  lemma ReachNext(c: Config, t: Claim, n: nat, before: seq<Step>) returns (schedule: seq<Step>)
    requires n <= MAX_RUNNING && c.maxPlans >= 1 && c.maxAge >= 1 && Run(c, before) == Some(Loaded(t, n))
    ensures Run(c, schedule) == Some(Loaded(t, n + 1))
  {
    hide Do, Run, Loaded, Readable, NamesOf;
    var x := NamesOf(n);
    LoadedReadable(c, t, n, map[]);
    LoadedReadable(c, t, n, map[x.ref := Planned(x)]);
    LoadedReadable(c, t, n, map[x.ref := Intended(t, x)]);
    LoadedNext(t, n);
    LoadedFree(t, n, n);
    var w0 := Loaded(t, n);
    PlanStep(c, t, x, w0);
    var s1 := MakePlan(t, x.ref, x.instance, 0, PlanDigest, 0);
    var w1 := Do(c, w0, s1).value;
    ClaimStep(c, t, x, w1);
    var s2 := ApplyClaim(t, x.ref, 0, x.unit, 1, false);
    var w2 := Do(c, w1, s2).value;
    RecoverStep(c, t, x, w2);
    var w3 := Do(c, w2, ApplyRecover(t, Absent)).value;
    StartStep(c, t, x, w3);
    var w4 := Do(c, w3, ApplyStart(t, StartedOk(Started))).value;
    CommitStep(c, t, x, w4);
    RunAppends(c, before, s1);
    RunAppends(c, before + [s1], s2);
    schedule := before + [s1] + [s2];
    RunAppends(c, schedule, ApplyRecover(t, Absent));
    schedule := schedule + [ApplyRecover(t, Absent)];
    RunAppends(c, schedule, ApplyStart(t, StartedOk(Started)));
    schedule := schedule + [ApplyStart(t, StartedOk(Started))];
    RunAppends(c, schedule, ApplyCommit(t));
    schedule := schedule + [ApplyCommit(t)];
  }

  /** Starting 65 instances, one after the other, ends in a document that the reader refuses for good. */
  lemma SixtyFifthInstance(c: Config, t: Claim) returns (schedule: seq<Step>)
    requires c.maxPlans >= 1 && c.maxAge >= 1
    ensures Run(c, schedule).Some? && |Run(c, schedule).value.document.running| == 65
    ensures !Readable(Run(c, schedule).value.document, c.maxPlans)
  {
    schedule := ReachLoaded(c, t, 65);
    hide Run, Loaded;
    LoadedSize(t, 65);
  }
}
