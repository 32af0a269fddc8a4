/**
 * What callers reported is what is stored: exactly when each change of an operation is accepted and
 * what it leaves, and, over every run, the reports behind every attempted step and every success.
 */
module OperationsReports {
  import opened Core
  import opened Operations
  import opened OperationsRecords
  import opened OperationsRuns

  // ---- one change ----

  /** The step a report leaves behind: done exactly for a success, and a failure always has a code. */
  ghost predicate Shows(step: Operations.Step, name: string, succeeded: bool, code: Option<string>) {
    && step.name == name && (step.state == Done <==> succeeded) && (step.state == Broken <==> !succeeded)
    && (succeeded || code.Some? ==> step.code == code)
    && (!succeeded && code.None? ==> step.code == Some("control.step_failed"))
  }

  lemma {:induction false} CodesMembers(steps: seq<Operations.Step>, brokenOnly: bool)
    ensures forall x :: x in Codes(steps, brokenOnly) <==>
              exists i :: 0 <= i < |steps| && steps[i].code == Some(x) && (brokenOnly ==> steps[i].state == Broken)
  {
    if steps != [] {
      var n := |steps| - 1;
      CodesMembers(steps[..n], brokenOnly);
      forall x
        ensures x in Codes(steps, brokenOnly) <==>
                exists i :: 0 <= i < |steps| && steps[i].code == Some(x) && (brokenOnly ==> steps[i].state == Broken)
      {
        if i :| 0 <= i < |steps| && steps[i].code == Some(x) && (brokenOnly ==> steps[i].state == Broken) {
          assert i < n ==> steps[..n][i] == steps[i];
        }
        if x in Codes(steps[..n], brokenOnly) {
          var i :| 0 <= i < n && steps[..n][i].code == Some(x) && (brokenOnly ==> steps[..n][i].state == Broken);
          assert steps[i] == steps[..n][i];
        }
      }
    }
  }

  lemma {:induction false} DedupDistinct(words: seq<string>)
    ensures Distinct(Dedup(words))
  {
    if words != [] {
      DedupDistinct(words[..|words| - 1]);
      DedupSize(words[..|words| - 1]);
    }
  }

  /**
   * A report is accepted exactly for an untried step of a running operation.  It settles that step as
   * reported, leaves every other step alone, and the operation then lists each code of its steps once.
   */
  lemma RecordStepExactly(r: Record, name: string, succeeded: bool, code: Option<string>)
    requires Distinct(Names(r.steps))
    ensures var x := DoRecordStep(r, name, succeeded, code);
            && (x.Ok? <==> r.state == Running && exists i :: 0 <= i < |r.steps| && r.steps[i].name == name && r.steps[i].state == NotAttempted)
            && (x.Ok? ==>
                  && x.value == r.(steps := x.value.steps, codes := x.value.codes) && |x.value.steps| == |r.steps|
                  && (forall i :: 0 <= i < |r.steps| ==>
                        if r.steps[i].name == name then Shows(x.value.steps[i], name, succeeded, code) else x.value.steps[i] == r.steps[i])
                  && Distinct(x.value.codes)
                  && forall c :: c in x.value.codes <==> exists i :: 0 <= i < |r.steps| && x.value.steps[i].code == Some(c))
  {
    hide Dedup, Codes, IndexBy;
    var x := DoRecordStep(r, name, succeeded, code);
    assert forall i, j :: 0 <= i < j < |r.steps| ==> Names(r.steps)[i] != Names(r.steps)[j];
    if x.Ok? {
      CodesMembers(x.value.steps, false);
      DedupDistinct(Codes(x.value.steps, false));
      DedupSize(Codes(x.value.steps, false));
    }
  }

  /** A begin is accepted exactly for a planned, unexpired operation of the expected generation. */
  lemma BeginExactly(r: Record, generation: int, now: int, me: Owner)
    ensures var x := DoBegin(r, generation, now, me);
            && (x.Ok? <==> r.state == Planned && r.expected == generation && now < r.expires)
            && (x.Ok? ==> x.value.state == Running && x.value.owner == me && x.value.steps == r.steps && Evolves(r, x.value))
  {
  }

  /** What a finish must bring: a final state, with all steps done and a generation for a success, and a reason otherwise. */
  ghost predicate MayFinish(r: Record, state: State, resulting: Option<int>, codes: seq<string>) {
    && state in {Partial, Succeeded, Failed, Blocked} && |codes| <= 32
    && (resulting.Some? ==> 0 <= resulting.value <= MAX_GENERATION && r.expected <= resulting.value)
    && (state == Succeeded ==> resulting.Some? && forall i :: 0 <= i < |r.steps| ==> r.steps[i].state == Done)
    && (state != Succeeded ==> codes != [] || exists i :: 0 <= i < |r.steps| && r.steps[i].state == Broken)
  }

  /**
   * A finish is accepted exactly for a running operation that may end so.  The codes are those given, or
   * for an end without success those of the failed steps, each once.
   */
  lemma FinishExactly(env: Env, r: Record, state: State, resulting: Option<int>, codes: seq<string>)
    requires RecordOk(env, r)
    ensures var x := DoFinish(r, state, resulting, codes);
            && (x.Ok? <==> r.state == Running && MayFinish(r, state, resulting, codes))
            && (x.Ok? ==>
                  && x.value == r.(state := state, resulting := resulting, owner := NoOwner, codes := x.value.codes)
                  && (codes != [] || state == Succeeded ==> x.value.codes == codes)
                  && (codes == [] && state != Succeeded ==>
                        && Distinct(x.value.codes)
                        && forall c :: c in x.value.codes <==> exists i :: 0 <= i < |r.steps| && r.steps[i].state == Broken && r.steps[i].code == Some(c)))
  {
    hide Dedup, Codes, Distinct;
    var broken := Dedup(Codes(r.steps, true));
    CodesMembers(r.steps, true);
    DedupDistinct(Codes(r.steps, true));
    DedupSize(Codes(r.steps, true));
    assert broken != [] <==> exists i :: 0 <= i < |r.steps| && r.steps[i].state == Broken by {
      if broken != [] {
        assert broken[0] in broken;
      }
      if i :| 0 <= i < |r.steps| && r.steps[i].state == Broken {
        assert r.steps[i].code.value in broken;
      }
    }
  }

  /** An expired probe ends failed with its one reason, unless it was reconciled after it was done; nothing unexpired ends. */
  lemma ExpireEnds(r: Record, generation: int, digest: string, now: int)
    requires DoExpire(r, generation, digest, now).Ok?
    ensures var x := DoExpire(r, generation, digest, now).value;
            && x.kind == ProbeKind && x.expected == generation && x.digest == digest && x.owner == NoOwner && x.resulting == None
            && |x.steps| == 1 && x.steps[0].name == ProbeStep
            && (x == r || r.expires <= now)
            && (x.state == Failed <==> x.steps[0].state == Broken)
            && (x.state == Failed ==> x.steps[0].code.Some? && x.codes == [x.steps[0].code.value]
                                      && x.codes[0] in {"host.probe_unknown", "host.probe_failed"})
            && (x.state != Failed ==> x == r && r.state == Partial && r.codes == Reconciled && r.steps[0].state == Done && r.expires <= now)
  {
    hide StateOk;
    assert |r.steps| == |Names(r.steps)| == 1;
    assert r.steps == [r.steps[0]];
  }

  /** A resume is accepted exactly for an unexpired probe that a restart reconciled, and only takes it over. */
  lemma ResumeExactly(r: Record, generation: int, now: int, me: Owner)
    ensures var x := DoResume(r, generation, now, me);
            && (x.Ok? <==> && r.kind == "hosts.probe" && r.expected == generation && |r.steps| == 1 && r.steps[0].name == "host.probe.collect"
                           && r.state == Partial && r.codes == ["control.restart_reconciled"] && r.owner == NoOwner && now < r.expires)
            && (x.Ok? ==> x.value.state == Running && x.value.owner == me && x.value.steps == r.steps && x.value.codes != [] && Evolves(r, x.value))
  {
    assert |Names(r.steps)| == |r.steps|;
    assert |r.steps| == 1 ==> Names(r.steps) == [r.steps[0].name];
  }

  /** An owner is acknowledged exactly by its own agent job, for good, and only once its operation has ended. */
  lemma AcknowledgeExactly(rs: seq<Record>, owners: seq<Life>, id: string, agent: string, host: string, digest: string)
    requires Apart(rs) && OwnersReadable(owners)
    ensures var x := Acknowledge(rs, owners, id, agent, host, digest);
            && (x.Ok? <==> exists i :: && 0 <= i < |owners| && owners[i].operation == id && owners[i].agent == agent
                                       && owners[i].host == host && owners[i].digest == digest
                                       && (owners[i].acknowledged
                                           || exists k :: 0 <= k < |rs| && rs[k].id == id && Terminal(rs[k].state) && LifeShaped(rs[k], digest)))
            && (x.Ok? ==> && |x.value| == |owners|
                          && forall i :: 0 <= i < |owners| ==>
                               x.value[i] == if owners[i].operation == id then owners[i].(acknowledged := true) else owners[i])
  {
    hide LifeShaped, IndexBy;
    var o, k := OwnerIndex(owners, id), IndexOf(rs, id);
    assert o.Some? ==> LifeOperation(owners[o.value]) == id;
    assert k.Some? ==> RecordId(rs[k.value]) == id;
    assert forall i :: 0 <= i < |owners| && owners[i].operation == id ==> LifeOperation(owners[i]) == id && o == Some(i);
    assert forall i :: 0 <= i < |rs| && rs[i].id == id ==> RecordId(rs[i]) == id && k == Some(i);
  }

  // ---- what stands behind a stored step ----

  /** The call reported this step of this operation. */
  ghost predicate Reports(op: Op, id: string, step: Operations.Step) {
    && op.DoChange? && op.id == id && op.change.RecordStep?
    && Shows(step, op.change.name, op.change.succeeded, op.change.code)
  }

  /** The call gave up the untried probe of this operation. */
  ghost predicate GivesUp(op: Op, id: string, step: Operations.Step) {
    && op.DoChange? && op.id == id && op.change.Expire?
    && step == Operations.Step("host.probe.collect", Broken, Some("host.probe_unknown"))
  }

  /** Before call number k the operation was stored with the step of that name untried. */
  ghost predicate UntriedAt(env: Env, ops: seq<Op>, k: nat, id: string, name: string)
    requires k <= |ops|
  {
    && Run(env, ops[..k]).Some?
    && exists r, i :: r in Run(env, ops[..k]).value.records && r.id == id && 0 <= i < |r.steps|
                      && r.steps[i].name == name && r.steps[i].state == NotAttempted
  }

  ghost predicate ReportedAt(env: Env, ops: seq<Op>, k: nat, id: string, step: Operations.Step) {
    k < |ops| && Reports(ops[k], id, step) && UntriedAt(env, ops, k, id, step.name)
  }

  /** Some call reported the step as succeeded while it was untried. */
  ghost predicate ReportedDone(env: Env, ops: seq<Op>, id: string, step: Operations.Step) {
    exists k: nat :: ReportedAt(env, ops, k, id, step) && ops[k].change.succeeded
  }

  ghost predicate GivenUpAt(env: Env, ops: seq<Op>, k: nat, id: string, step: Operations.Step) {
    k < |ops| && GivesUp(ops[k], id, step) && UntriedAt(env, ops, k, id, step.name)
  }

  ghost predicate FinishedAt(ops: seq<Op>, k: nat, r: Record) {
    && k < |ops| && ops[k].DoChange? && ops[k].id == r.id && ops[k].change.Finish?
    && ops[k].change.state == Succeeded && ops[k].change.resulting == r.resulting
  }

  ghost predicate StepTraced(env: Env, ops: seq<Op>, id: string, step: Operations.Step) {
    || step.state == NotAttempted
    || (exists k: nat :: ReportedAt(env, ops, k, id, step))
    || (exists k: nat :: GivenUpAt(env, ops, k, id, step))
  }

  ghost predicate Traced(env: Env, ops: seq<Op>, r: Record) {
    && (forall i :: 0 <= i < |r.steps| ==> StepTraced(env, ops, r.id, r.steps[i]))
    && (r.state == Succeeded ==> (forall i :: 0 <= i < |r.steps| ==> r.steps[i].state == Done) && exists k: nat :: FinishedAt(ops, k, r))
  }

  // ---- one call ----

  ghost predicate StepFrom(op: Op, id: string, step: Operations.Step, step': Operations.Step) {
    || step' == step
    || (step.state == NotAttempted && step.name == step'.name && (Reports(op, id, step') || GivesUp(op, id, step')))
  }

  /** The record r' after the call continues r. */
  ghost predicate RecordFrom(op: Op, r: Record, r': Record) {
    && r'.id == r.id && |r'.steps| == |r.steps|
    && (forall i :: 0 <= i < |r.steps| ==> StepFrom(op, r.id, r.steps[i], r'.steps[i]))
    && (r'.state == Succeeded ==> r' == r || (FinishedAt([op], 0, r') && forall i :: 0 <= i < |r'.steps| ==> r'.steps[i].state == Done))
  }

  ghost predicate Fresh(r: Record) {
    r.state == Planned && forall i :: 0 <= i < |r.steps| ==> r.steps[i].state == NotAttempted
  }

  ghost predicate From(w: World, op: Op, r': Record) {
    Fresh(r') || exists r :: r in w.records && RecordFrom(op, r, r')
  }

  lemma RecordStepFrom(r: Record, name: string, succeeded: bool, code: Option<string>, now: int, me: Owner)
    requires DoRecordStep(r, name, succeeded, code).Ok?
    ensures RecordFrom(DoChange(r.id, RecordStep(name, succeeded, code), now, me), r, DoRecordStep(r, name, succeeded, code).value)
  {
    hide StepCodes;
  }

  lemma ExpireFrom(r: Record, generation: int, digest: string, now: int, me: Owner)
    requires DoExpire(r, generation, digest, now).Ok?
    ensures RecordFrom(DoChange(r.id, Expire(generation, digest), now, me), r, DoExpire(r, generation, digest, now).value)
  {
    hide StateOk;
  }

  lemma MutateFrom(r: Record, c: Change, now: int, me: Owner)
    requires Mutate(r, c, now, me).Ok?
    ensures RecordFrom(DoChange(r.id, c, now, me), r, Mutate(r, c, now, me).value)
  {
    match c
    case Begin(generation) =>
    case RecordStep(name, succeeded, code) => RecordStepFrom(r, name, succeeded, code, now, me);
    case Finish(state, resulting, codes) => { hide FinalCodes, StateOk; }
    case Resume(generation) => { hide StepCodes, ProbeShaped; }
    case Expire(generation, digest) => ExpireFrom(r, generation, digest, now, me);
  }

  lemma PlanFrom(env: Env, w: World, q: Request, id: string, now: int, bs: seq<AgentBinding>, writes: nat, r': Record)
    requires r' in PlanStep(env, w, q, id, now, bs, writes).records
    ensures Fresh(r') || r' in w.records
  {
    hide Migrate, Prune;
    var owners := Migrate(w.records, w.owners, bs, now);
    if owners.Ok? {
      PruneMembers(w.records, now, Protected(owners.value));
    }
  }

  lemma SameFrom(w: World, op: Op, r: Record)
    requires r in w.records
    ensures From(w, op, r)
  {
    assert RecordFrom(op, r, r);
  }

  lemma ChangeFrom(w: World, id: string, c: Change, now: int, me: Owner, r': Record)
    requires Apply(w.records, id, c, now, me).Ok? && r' in Apply(w.records, id, c, now, me).value
    ensures From(w, DoChange(id, c, now, me), r')
  {
    hide Mutate, RecordFrom, Fresh, IndexBy;
    var i := IndexOf(w.records, id).value;
    assert RecordId(w.records[i]) == id;
    if r' in w.records {
      SameFrom(w, DoChange(id, c, now, me), r');
    } else {
      MutateFrom(w.records[i], c, now, me);
    }
  }

  lemma ReconcileFrom(w: World, dead: set<Owner>, r': Record)
    requires r' in Reconcile(w.records, dead)
    ensures From(w, DoReconcile(dead), r')
  {
    var i :| 0 <= i < |w.records| && r' == ReconcileOne(w.records[i], dead);
    assert RecordFrom(DoReconcile(dead), w.records[i], r');
  }

  /** Every record stored after a call is new and untried, or continues one stored before it. */
  lemma StepComesFrom(env: Env, w: World, op: Op, r': Record)
    requires OperationsRuns.Step(env, w, op).Some? && r' in OperationsRuns.Step(env, w, op).value.records
    ensures From(w, op, r')
  {
    hide Readable, OwnersReadable, PlanStep, Apply, Claim, Acknowledge, Reconcile, From;
    if r' in w.records {
      SameFrom(w, op, r');
    } else {
      match op {
        case DoPlan(q, id, now, bs, writes) =>
          PlanFrom(env, w, q, id, now, bs, writes, r');
          FreshFrom(w, op, r');
        case DoChange(id, c, now, me) => ChangeFrom(w, id, c, now, me, r');
        case DoReconcile(dead) => ReconcileFrom(w, dead, r');
      }
    }
  }

  lemma FreshFrom(w: World, op: Op, r: Record)
    requires Fresh(r)
    ensures From(w, op, r)
  {
  }

  // ---- whole runs ----

  lemma TraceGrows(env: Env, before: seq<Op>, op: Op, id: string, step: Operations.Step)
    requires StepTraced(env, before, id, step)
    ensures StepTraced(env, before + [op], id, step)
  {
    hide Run, Shows;
    var all := before + [op];
    assert forall k :: 0 <= k <= |before| ==> all[..k] == before[..k];
    if k: nat :| ReportedAt(env, before, k, id, step) {
      assert ReportedAt(env, all, k, id, step);
    } else if k: nat :| GivenUpAt(env, before, k, id, step) {
      assert GivenUpAt(env, all, k, id, step);
    }
  }

  lemma StepTrace(env: Env, before: seq<Op>, op: Op, r: Record, i: nat, step': Operations.Step)
    requires Run(env, before).Some? && r in Run(env, before).value.records && i < |r.steps|
    requires StepTraced(env, before, r.id, r.steps[i]) && StepFrom(op, r.id, r.steps[i], step')
    ensures StepTraced(env, before + [op], r.id, step')
  {
    hide Run, Shows, Reports, GivesUp;
    if step' == r.steps[i] {
      TraceGrows(env, before, op, r.id, step');
    } else {
      var all := before + [op];
      assert all[..|before|] == before;
      assert UntriedAt(env, all, |before|, r.id, step'.name);
      if Reports(op, r.id, step') {
        assert ReportedAt(env, all, |before|, r.id, step');
      } else {
        assert GivenUpAt(env, all, |before|, r.id, step');
      }
    }
  }

  lemma RecordTrace(env: Env, before: seq<Op>, op: Op, r: Record, r': Record)
    requires Run(env, before).Some? && r in Run(env, before).value.records
    requires Traced(env, before, r) && RecordFrom(op, r, r')
    ensures Traced(env, before + [op], r')
  {
    hide Run, StepTraced, StepFrom;
    var all := before + [op];
    forall i | 0 <= i < |r'.steps| ensures StepTraced(env, all, r'.id, r'.steps[i]) {
      StepTrace(env, before, op, r, i, r'.steps[i]);
    }
    if r'.state == Succeeded {
      if r' == r {
        var k: nat :| FinishedAt(before, k, r);
        assert FinishedAt(all, k, r');
      } else {
        assert FinishedAt(all, |before|, r');
      }
    }
  }

  lemma {:induction false} RunTraced(env: Env, ops: seq<Op>)
    requires Run(env, ops).Some?
    ensures forall r :: r in Run(env, ops).value.records ==> Traced(env, ops, r)
  {
    if ops != [] {
      var before, op := ops[..|ops| - 1], ops[|ops| - 1];
      RunTraced(env, before);
      var w := Run(env, before).value;
      assert Run(env, ops) == OperationsRuns.Step(env, w, op);
      assert ops == before + [op];
      hide Run, OperationsRuns.Step, Traced, RecordFrom;
      forall r' | r' in Run(env, ops).value.records ensures Traced(env, ops, r') {
        StepComesFrom(env, w, op, r');
        if Fresh(r') {
          FreshTraced(env, ops, r');
        } else {
          var r :| r in w.records && RecordFrom(op, r, r');
          RecordTrace(env, before, op, r, r');
        }
      }
    }
  }

  lemma FreshTraced(env: Env, ops: seq<Op>, r: Record)
    requires Fresh(r)
    ensures Traced(env, ops, r)
  {
  }

  /**
   * Over every run, a step stored as done was reported as succeeded, while it was untried, and a step
   * stored as failed was reported as failed or is the probe that an expiry gave up; each shows what was reported.
   */
  lemma StepsWereReported(env: Env, ops: seq<Op>, r: Record, i: nat)
    requires Run(env, ops).Some? && r in Run(env, ops).value.records && i < |r.steps|
    ensures r.steps[i].state == Done ==> ReportedDone(env, ops, r.id, r.steps[i])
    ensures r.steps[i].state == Broken ==>
              || (exists k: nat :: ReportedAt(env, ops, k, r.id, r.steps[i]) && !ops[k].change.succeeded)
              || (exists k: nat :: GivenUpAt(env, ops, k, r.id, r.steps[i]))
  {
    hide Run, UntriedAt;
    RunTraced(env, ops);
    assert StepTraced(env, ops, r.id, r.steps[i]);
  }

  /** An operation is stored as succeeded only if a finish said so and every one of its steps was reported as succeeded. */
  lemma SuccessWasReported(env: Env, ops: seq<Op>, r: Record)
    requires Run(env, ops).Some? && r in Run(env, ops).value.records && r.state == Succeeded
    ensures exists k: nat :: FinishedAt(ops, k, r)
    ensures forall i :: 0 <= i < |r.steps| ==> ReportedDone(env, ops, r.id, r.steps[i])
  {
    hide Run, ReportedDone, StepTraced;
    RunTraced(env, ops);
    assert Traced(env, ops, r);
    forall i | 0 <= i < |r.steps| ensures ReportedDone(env, ops, r.id, r.steps[i]) {
      StepsWereReported(env, ops, r, i);
    }
  }
}
