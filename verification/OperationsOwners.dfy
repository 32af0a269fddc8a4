/**
 * Which operations stay, which a restart reconciles, and whose lifecycle owners are: over every run an
 * owner belongs to a host probe with its own digest and generation.
 */
module OperationsOwners {
  import opened Core
  import opened Operations
  import opened OperationsRecords
  import opened OperationsRuns
  import opened OperationsReports

  // ---- single calls ----

  /** A restart turns exactly the running operations of dead processes partial, with its own code and everything else kept. */
  lemma ReconcileExactly(rs: seq<Record>, dead: set<Owner>, i: nat)
    requires i < |rs|
    ensures var r, r' := rs[i], Reconcile(rs, dead)[i];
            && |Reconcile(rs, dead)| == |rs|
            && (r' != r <==> r.state == Running && r.owner.Process? && r.owner in dead)
            && (r' != r ==> && r'.state == Partial && r'.codes == ["control.restart_reconciled"] && r'.owner == NoOwner
                            && r'.steps == r.steps && r'.resulting == r.resulting && Evolves(r, r'))
  {
  }

  /** The probe step was never tried, or failed for one of the two reasons an expiry knows. */
  ghost predicate Open(r: Record) {
    && |r.steps| == 1 && r.steps[0].name == "host.probe.collect"
    && (r.steps[0] == Operations.Step("host.probe.collect", NotAttempted, None) || ProbeFailed(r))
  }

  ghost predicate ProbeFailed(r: Record) {
    |r.steps| == 1 && exists code :: code in {"host.probe_unknown", "host.probe_failed"} && r.steps[0] == Operations.Step("host.probe.collect", Broken, Some(code))
  }

  /** Which probes an expiry ends: planned ones never begun, and reconciled ones that are not done, past their time. */
  ghost predicate Endable(r: Record, now: int) {
    && r.expires <= now
    && ((r.state == Planned && r.codes == ["control.plan_ready"] && Open(r) && !ProbeFailed(r))
        || (r.state == Partial && r.codes == ["control.restart_reconciled"] && Open(r)))
  }

  /** Which it finds ended already. */
  ghost predicate Ended(r: Record, now: int) {
    || (r.state == Failed && ProbeFailed(r) && r.steps[0].code.Some? && r.codes == [r.steps[0].code.value])
    || (&& r.state == Partial && r.codes == ["control.restart_reconciled"] && r.expires <= now
        && r.steps == [Operations.Step("host.probe.collect", Done, None)])
  }

  lemma ShapeIff(r: Record, generation: int)
    ensures ProbeShaped(r, generation) <==>
            r.kind == "hosts.probe" && r.expected == generation && |r.steps| == 1 && r.steps[0].name == "host.probe.collect"
    ensures BrokenCode(r.steps).Some? <==> ProbeFailed(r)
    ensures ProbeFailed(r) ==> r.steps[0].code == BrokenCode(r.steps)
  {
    assert |Names(r.steps)| == |r.steps|;
    assert |r.steps| == 1 ==> r.steps == [r.steps[0]] && Names(r.steps) == [r.steps[0].name];
    assert BrokenCode(r.steps).Some? ==> r.steps[0] == BrokenStep(BrokenCode(r.steps).value);
  }

  /** An expiry is accepted exactly for a probe of this generation and digest, without owner or result, that it may end or that has ended. */
  lemma ExpireExactly(r: Record, generation: int, digest: string, now: int)
    ensures DoExpire(r, generation, digest, now).Ok? <==>
            && ProbeShaped(r, generation) && r.digest == digest && r.owner == NoOwner && r.resulting == None
            && (Endable(r, now) || Ended(r, now))
    ensures DoExpire(r, generation, digest, now).Ok? && Ended(r, now) ==> DoExpire(r, generation, digest, now).value == r
  {
    ShapeIff(r, generation);
    assert |r.steps| == 1 ==> r.steps == [r.steps[0]];
    hide BrokenCode, ProbeShaped;
  }

  /**
   * An owner is claimed again exactly by the same agent job; a new one exactly for a stored probe in a state
   * its lifecycle allows, by an agent job that owns nothing yet, while there is room.
   */
  lemma ClaimExactly(rs: seq<Record>, owners: seq<Life>, id: string, agent: string, host: string, digest: string)
    requires Apart(rs) && OwnersReadable(owners)
    ensures var x := Claim(rs, owners, id, agent, host, digest);
            && (x.Ok? && x.value != owners <==>
                  && (exists k :: 0 <= k < |rs| && rs[k].id == id && LifeShaped(rs[k], digest))
                  && (forall i :: 0 <= i < |owners| ==> owners[i].operation != id && owners[i].agent != agent)
                  && |owners| < MAX_OWNERS)
            && (x.Ok? && x.value == owners <==>
                  exists i :: && 0 <= i < |owners| && owners[i].operation == id && owners[i].agent == agent
                              && owners[i].host == host && owners[i].digest == digest
                              && (if Present(rs, id) then exists k :: 0 <= k < |rs| && rs[k].id == id && LifeShaped(rs[k], digest) && rs[k].expected == owners[i].expected
                                  else owners[i].acknowledged))
  {
    hide LifeShaped, IndexBy;
    var o, k := OwnerIndex(owners, id), IndexOf(rs, id);
    assert o.Some? ==> LifeOperation(owners[o.value]) == id;
    assert k.Some? ==> RecordId(rs[k.value]) == id;
    assert forall i :: 0 <= i < |owners| && owners[i].operation == id ==> LifeOperation(owners[i]) == id && o == Some(i);
    assert forall i :: 0 <= i < |rs| && rs[i].id == id ==> RecordId(rs[i]) == id && k == Some(i);
    assert agent in Agents(owners) <==> exists i :: 0 <= i < |owners| && owners[i].agent == agent;
  }

  // ---- migrated owners ----

  /** The owner a legacy binding gives its expired probe; acknowledged only with a final word on a finished operation. */
  ghost predicate Inherits(r: Record, b: AgentBinding, o: Life) {
    && b.admin == r.id && b.digest == r.digest && r.kind == "hosts.probe"
    && o == Life(r.id, b.operation, b.host, r.expected, r.digest, o.acknowledged)
    && (o.acknowledged ==> b.terminal.Some? && (r.state == Failed || (r.state == Succeeded && b.terminal == Some("receipt") && b.state == "succeeded")))
    && (!o.acknowledged ==> (b.terminal == None && b.state in {"queued", "leased"})
                            || (r.state in {Planned, Partial} && b.terminal == Some("lifecycle") && b.state == "unknown"))
  }

  ghost predicate Inherited(rs: seq<Record>, bs: seq<AgentBinding>, o: Life) {
    exists r, b :: r in rs && b in bs && Inherits(r, b, o)
  }

  lemma SettledInherits(r: Record, owners: seq<Life>, b: AgentBinding, now: int)
    requires Candidate(r, owners, now) && Settled(r, b).Some? && b.admin == r.id && b.digest == r.digest
    ensures Inherits(r, b, Life(r.id, b.operation, b.host, r.expected, r.digest, Settled(r, b).value))
  {
  }

  lemma {:induction false} MigratedInherit(rs: seq<Record>, owners: seq<Life>, bs: seq<AgentBinding>, now: int, k: nat)
    requires k <= |rs| && Migrated(rs, owners, bs, now, k).Ok?
    ensures forall o :: o in Migrated(rs, owners, bs, now, k).value ==> Inherited(rs, bs, o)
  {
    hide Settled, Candidate, Inherits, IndexBy;
    if k > 0 {
      MigratedInherit(rs, owners, bs, now, k - 1);
      var before, after := Migrated(rs, owners, bs, now, k - 1).value, Migrated(rs, owners, bs, now, k).value;
      if after != before {
        var r := rs[k - 1];
        var b := bs[BindingIndex(bs, r.id).value];
        assert BindingAdmin(b) == r.id;
        SettledInherits(r, owners, b, now);
        assert r in rs && b in bs;
      }
    }
  }

  lemma MigrateInherits(rs: seq<Record>, owners: seq<Life>, bs: seq<AgentBinding>, now: int)
    requires Migrate(rs, owners, bs, now).Ok?
    ensures forall o :: o in Migrate(rs, owners, bs, now).value ==> o in owners || Inherited(rs, bs, o)
  {
    hide Migrated, Inherited, Ambiguous;
    MigratedInherit(rs, owners, bs, now, |rs|);
  }

  // ---- whole runs ----

  ghost predicate Fits(r: Record, o: Life) {
    r.kind == "hosts.probe" && r.digest == o.digest && r.expected == o.expected
  }

  /** Owners are of drawn operations, and of probes with their digest and generation. */
  ghost predicate Matched(w: World) {
    && (forall o :: o in w.owners ==> o.operation in w.used)
    && (forall o, r :: o in w.owners && r in w.records && r.id == o.operation ==> Fits(r, o))
  }

  /** Records continue and owners are those before, or of a record stored before that they fit. */
  lemma ContinuesMatched(w: World, w': World)
    requires Matched(w) && Inv(w) && Continues(w, w')
    requires forall o :: o in w'.owners ==>
               (exists p :: p in w.owners && p.operation == o.operation && p.digest == o.digest && p.expected == o.expected)
               || exists r :: r in w.records && r.id == o.operation && Fits(r, o)
    ensures Matched(w')
  {
    InvParts(w);
    hide Inv, Apart;
    forall o | o in w'.owners
      ensures o.operation in w.used
      ensures forall r' :: r' in w'.records && r'.id == o.operation ==> Fits(r', o)
    {
      forall r' | r' in w'.records && r'.id == o.operation ensures o.operation in w.used ==> Fits(r', o) {
        if o.operation in w.used {
          assert Present(w.records, r'.id);
          var i :| 0 <= i < |w.records| && w.records[i].id == r'.id;
          var r := w.records[i];
          assert r in w.records && Evolves(r, r');
          if x :| x in w.records && x.id == o.operation && Fits(x, o) {
            SameRecord(w.records, x, r);
          }
        }
      }
    }
  }

  lemma OwnersComeFrom(env: Env, w: World, op: Op, o: Life)
    requires Inv(w) && OperationsRuns.Step(env, w, op).Some? && o in OperationsRuns.Step(env, w, op).value.owners
    ensures (exists p :: p in w.owners && p.operation == o.operation && p.digest == o.digest && p.expected == o.expected)
            || exists r :: r in w.records && r.id == o.operation && Fits(r, o)
  {
    hide Readable, OwnersReadable, Apply, Reconcile, Migrate, Prune, AddPlan, Inv;
    if o !in w.owners {
      match op {
        case DoPlan(q, id, now, bs, writes) => PlanOwners(env, w, q, id, now, bs, writes, o);
        case DoClaim(id, agent, host, digest) => ClaimOwners(w, id, agent, host, digest, o);
        case DoAcknowledge(id, agent, host, digest) => AcknowledgeOwners(w, id, agent, host, digest, o);
      }
    }
  }

  lemma PlanOwners(env: Env, w: World, q: Request, id: string, now: int, bs: seq<AgentBinding>, writes: nat, o: Life)
    requires o in PlanStep(env, w, q, id, now, bs, writes).owners
    ensures o in w.owners || exists r :: r in w.records && r.id == o.operation && Fits(r, o)
  {
    hide Migrate, Prune, AddPlan;
    if Migrate(w.records, w.owners, bs, now).Ok? {
      MigrateInherits(w.records, w.owners, bs, now);
    }
    if o !in w.owners {
      var r, b :| r in w.records && b in bs && Inherits(r, b, o);
      assert Fits(r, o);
    }
  }

  lemma ClaimOwners(w: World, id: string, agent: string, host: string, digest: string, o: Life)
    requires Claim(w.records, w.owners, id, agent, host, digest).Ok? && o in Claim(w.records, w.owners, id, agent, host, digest).value
    ensures o in w.owners || exists r :: r in w.records && r.id == o.operation && Fits(r, o)
  {
    hide IndexBy;
    var i := IndexOf(w.records, id);
    if i.Some? {
      assert RecordId(w.records[i.value]) == id && w.records[i.value] in w.records;
    }
  }

  lemma AcknowledgeOwners(w: World, id: string, agent: string, host: string, digest: string, o: Life)
    requires Acknowledge(w.records, w.owners, id, agent, host, digest).Ok? && o in Acknowledge(w.records, w.owners, id, agent, host, digest).value
    ensures exists p :: p in w.owners && p.operation == o.operation && p.digest == o.digest && p.expected == o.expected
  {
    hide LifeShaped, IndexBy;
    var k := OwnerIndex(w.owners, id);
    if o !in w.owners {
      assert w.owners[k.value] in w.owners;
    }
  }

  lemma {:induction false} RunMatched(env: Env, ops: seq<Op>)
    requires Run(env, ops).Some?
    ensures Matched(Run(env, ops).value)
  {
    hide OperationsRuns.Step, Inv, Matched;
    if ops == [] {
      InitMatched();
    } else {
      var n := |ops| - 1;
      RunMatched(env, ops[..n]);
      RunKeeps(env, ops[..n]);
      var w := Run(env, ops[..n]).value;
      StepKeeps(env, w, ops[n]);
      hide Continues, Fits;
      forall o | o in Run(env, ops).value.owners
        ensures (exists p :: p in w.owners && p.operation == o.operation && p.digest == o.digest && p.expected == o.expected)
                || exists r :: r in w.records && r.id == o.operation && Fits(r, o)
      {
        OwnersComeFrom(env, w, ops[n], o);
      }
      ContinuesMatched(w, Run(env, ops).value);
    }
  }

  lemma InitMatched()
    ensures Matched(OperationsRuns.Init)
  {
  }

  /** Over every run, migrations and crashes included, an owner's operation is a host probe of its digest and expected generation. */
  lemma OwnersAreOfProbes(env: Env, ops: seq<Op>, o: Life, r: Record)
    requires Run(env, ops).Some? && o in Run(env, ops).value.owners && r in Run(env, ops).value.records && r.id == o.operation
    ensures r.kind == "hosts.probe" && r.digest == o.digest && r.expected == o.expected
  {
    hide Run;
    RunMatched(env, ops);
  }

  /** No call drops a running operation, nor one that has not expired by the time of the call. */
  lemma NeverDropsRunning(env: Env, w: World, op: Op, r: Record)
    requires Inv(w) && OperationsRuns.Step(env, w, op).Some? && r in w.records
    requires r.state == Running || (op.DoPlan? ==> op.now < r.expires)
    ensures Present(OperationsRuns.Step(env, w, op).value.records, r.id)
  {
    hide Readable, OwnersReadable, Inv, Migrate, Claim, Acknowledge, Mutate, ReconcileOne, Prune;
    var w' := OperationsRuns.Step(env, w, op).value;
    var i :| 0 <= i < |w.records| && w.records[i] == r;
    match op
    case DoPlan(q, id, now, bs, writes) =>
      var owners := Migrate(w.records, w.owners, bs, now);
      if owners.Ok? {
        var pruned := Prune(w.records, now, Protected(owners.value));
        PruneMembers(w.records, now, Protected(owners.value));
        assert r in pruned;
        var k :| 0 <= k < |pruned| && pruned[k] == r;
        assert AddPlan(env, pruned, q, id, now).Ok? ==> AddPlan(env, pruned, q, id, now).value.0[k] == r;
      }
    case DoChange(id, c, now, me) => if Apply(w.records, id, c, now, me).Ok? { KeepsId(w.records, id, c, now, me, i); }
    case DoReconcile(dead) => ReconcileExactly(w.records, dead, i); SameId(w.records[i], dead);
    case _ =>
  }

  lemma KeepsId(rs: seq<Record>, id: string, c: Change, now: int, me: Owner, i: nat)
    requires Apply(rs, id, c, now, me).Ok? && i < |rs|
    ensures |Apply(rs, id, c, now, me).value| == |rs| && Apply(rs, id, c, now, me).value[i].id == rs[i].id
  {
    hide Mutate, IndexBy;
    MutateEvolves(rs[IndexOf(rs, id).value], c, now, me);
  }

  lemma SameId(r: Record, dead: set<Owner>)
    ensures ReconcileOne(r, dead).id == r.id
  {
  }
}
