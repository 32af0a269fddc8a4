/** Every run of the operation store, with crashes between its document writes and restarts anywhere. */
module OperationsRuns {
  import opened Core
  import opened Operations
  import opened OperationsRecords

  /** The two documents; `used` is history: the operation ids drawn so far. */
  datatype World = World(records: seq<Record>, owners: seq<Life>, used: set<string>)

  const Init := World([], [], {})

  /** `writes` is how many of the up to three document writes of a plan happen before a crash. */
  datatype Op =
    | DoPlan(request: Request, id: string, now: int, bindings: seq<AgentBinding>, writes: nat)
    | DoChange(id: string, change: Change, now: int, me: Owner)
    | DoClaim(id: string, agent: string, host: string, digest: string)
    | DoAcknowledge(id: string, agent: string, host: string, digest: string)
    | DoReconcile(dead: set<Owner>)

  function PlanStep(env: Env, w: World, q: Request, id: string, now: int, bs: seq<AgentBinding>, writes: nat): World {
    var owners := Migrate(w.records, w.owners, bs, now);
    if !RequestOk(q) || owners.Err? || writes == 0 then w
    else
      var bound := w.(owners := owners.value);
      var pruned := bound.(records := Prune(w.records, now, Protected(owners.value)));
      var planned := AddPlan(env, pruned.records, q, id, now);
      if writes == 1 then bound
      else if writes == 2 || planned.Err? then pruned
      else pruned.(records := planned.value.0, used := w.used + {id})
  }

  /** One call. A drawn id is new and a caller is a live process; an unreadable document fails the call. */
  function Step(env: Env, w: World, op: Op): Option<World> {
    if op.DoPlan? && op.id in w.used then None
    else if op.DoChange? && !op.me.Process? then None
    else if !Readable(env, w.records) || !OwnersReadable(w.owners) then Some(w)
    else
      match op
      case DoPlan(q, id, now, bs, writes) => Some(PlanStep(env, w, q, id, now, bs, writes))
      case DoChange(id, c, now, me) =>
        var rs := Apply(w.records, id, c, now, me);
        Some(if rs.Ok? then w.(records := rs.value) else w)
      case DoClaim(id, agent, host, digest) =>
        var os := Claim(w.records, w.owners, id, agent, host, digest);
        Some(if os.Ok? then w.(owners := os.value) else w)
      case DoAcknowledge(id, agent, host, digest) =>
        var os := Acknowledge(w.records, w.owners, id, agent, host, digest);
        Some(if os.Ok? then w.(owners := os.value) else w)
      case DoReconcile(dead) => Some(w.(records := Reconcile(w.records, dead)))
  }

  function Run(env: Env, ops: seq<Op>): Option<World> {
    if ops == [] then Some(Init)
    else
      var before := Run(env, ops[..|ops| - 1]);
      if before.None? then None else Step(env, before.value, ops[|ops| - 1])
  }

  // ---- invariants ----

  predicate Apart(rs: seq<Record>) {
    forall i, j :: 0 <= i < j < |rs| ==> rs[i].id != rs[j].id && rs[i].key != rs[j].key
  }

  predicate Present(rs: seq<Record>, id: string) {
    exists i :: 0 <= i < |rs| && rs[i].id == id
  }

  predicate Drawn(w: World) {
    forall i :: 0 <= i < |w.records| ==> w.records[i].id in w.used
  }

  /** Every unacknowledged owner has its record. */
  predicate Guarded(rs: seq<Record>, owners: seq<Life>) {
    forall i :: 0 <= i < |owners| && !owners[i].acknowledged ==> Present(rs, owners[i].operation)
  }

  predicate Inv(w: World) {
    Apart(w.records) && Drawn(w) && OwnersReadable(w.owners) && Guarded(w.records, w.owners)
  }

  /** How the records of a later world continue those of an earlier one. */
  ghost predicate Continues(w: World, w': World) {
    && w.used <= w'.used
    && (forall r' :: r' in w'.records && r'.id in w.used ==> Present(w.records, r'.id))
    && (forall r, r' :: r in w.records && r' in w'.records && r.id == r'.id ==> Evolves(r, r'))
  }

  lemma ContinuesTrans(a: World, b: World, c: World)
    requires Continues(a, b) && Continues(b, c) && Drawn(a)
    ensures Continues(a, c)
  {
    hide Evolves;
    forall r, r' | r in a.records && r' in c.records && r.id == r'.id
      ensures Evolves(r, r')
    {
      assert r.id in a.used;
      var i :| 0 <= i < |b.records| && b.records[i].id == r.id;
      EvolvesTrans(r, b.records[i], r');
    }
  }

  lemma EvolvesSelf(r: Record)
    ensures Evolves(r, r)
  {
  }

  lemma SameRecord(rs: seq<Record>, r: Record, r': Record)
    requires Apart(rs) && r in rs && r' in rs && r.id == r'.id
    ensures r == r'
  {
  }

  /** Some records dropped, nothing else changed. */
  lemma DroppedContinues(w: World, w': World)
    requires Apart(w.records) && w'.used == w.used && forall r :: r in w'.records ==> r in w.records
    ensures Continues(w, w')
  {
    hide Evolves;
    forall r, r' | r in w.records && r' in w'.records && r.id == r'.id
      ensures Evolves(r, r')
    {
      SameRecord(w.records, r, r');
      EvolvesSelf(r);
    }
  }

  /** Records changed in place. */
  lemma ChangedKeeps(w: World, rs: seq<Record>)
    requires Inv(w) && |rs| == |w.records| && forall i :: 0 <= i < |rs| ==> Evolves(w.records[i], rs[i])
    ensures Inv(w.(records := rs)) && Continues(w, w.(records := rs))
  {
    var w' := w.(records := rs);
    assert forall i :: 0 <= i < |rs| ==> rs[i].id == w.records[i].id && rs[i].key == w.records[i].key;
    hide Evolves, OwnersReadable;
    forall id
      ensures Present(rs, id) <==> Present(w.records, id)
    {
      if Present(rs, id) {
        var i :| 0 <= i < |rs| && rs[i].id == id;
        assert w.records[i].id == id;
      }
      if Present(w.records, id) {
        var i :| 0 <= i < |rs| && w.records[i].id == id;
        assert rs[i].id == id;
      }
    }
    forall r, r' | r in w.records && r' in rs && r.id == r'.id
      ensures Evolves(r, r')
    {
      var i :| 0 <= i < |rs| && w.records[i] == r;
      var j :| 0 <= j < |rs| && rs[j] == r';
      assert i == j;
    }
  }

  // ---- pruning ----

  lemma {:induction false} PruneMembers(rs: seq<Record>, now: int, protected: set<string>)
    ensures forall r :: r in Prune(rs, now, protected) <==> r in rs && Retained(r, now, protected)
    ensures |Prune(rs, now, protected)| <= |rs|
    ensures Apart(rs) ==> Apart(Prune(rs, now, protected))
  {
    if rs != [] {
      var n := |rs| - 1;
      PruneMembers(rs[..n], now, protected);
      assert rs == rs[..n] + [rs[n]];
      var front := Prune(rs[..n], now, protected);
      if Apart(rs) && Retained(rs[n], now, protected) {
        forall r | r in front
          ensures r.id != rs[n].id && r.key != rs[n].key
        {
          var i :| 0 <= i < n && rs[..n][i] == r;
          assert rs[i] == r;
        }
      }
    }
  }

  /** A record with an unacknowledged owner survives a pruning that protects it. */
  lemma PruneGuards(rs: seq<Record>, owners: seq<Life>, now: int)
    requires Guarded(rs, owners)
    ensures Guarded(Prune(rs, now, Protected(owners)), owners)
  {
    var pruned := Prune(rs, now, Protected(owners));
    PruneMembers(rs, now, Protected(owners));
    forall i | 0 <= i < |owners| && !owners[i].acknowledged
      ensures Present(pruned, owners[i].operation)
    {
      var j :| 0 <= j < |rs| && rs[j].id == owners[i].operation;
      assert rs[j] in pruned;
      var k :| 0 <= k < |pruned| && pruned[k] == rs[j];
    }
  }

  // ---- owners ----

  lemma OwnersAppend(owners: seq<Life>, o: Life)
    requires OwnersReadable(owners) && |owners| < MAX_OWNERS && o.operation !in Owned(owners) && o.agent !in Agents(owners)
    ensures OwnersReadable(owners + [o])
  {
    forall i | 0 <= i < |owners|
      ensures owners[i].operation != o.operation && owners[i].agent != o.agent
    {
      assert owners[i].operation in Owned(owners) && owners[i].agent in Agents(owners);
    }
  }

  /** Migration adds owners of present records, each operation and each agent job once. */
  lemma {:induction false} MigratedKeeps(rs: seq<Record>, owners: seq<Life>, bs: seq<AgentBinding>, now: int, k: nat)
    requires k <= |rs| && Apart(rs) && OwnersReadable(owners) && Migrated(rs, owners, bs, now, k).Ok?
    ensures OwnersReadable(owners + Migrated(rs, owners, bs, now, k).value)
    ensures forall o :: o in Migrated(rs, owners, bs, now, k).value ==>
              o.operation !in Owned(owners) && exists i :: 0 <= i < k && rs[i].id == o.operation
  {
    hide Settled;
    if k == 0 {
      assert owners + [] == owners;
    } else {
      MigratedKeeps(rs, owners, bs, now, k - 1);
      var before, after := Migrated(rs, owners, bs, now, k - 1).value, Migrated(rs, owners, bs, now, k).value;
      if after != before {
        var o := after[|before|];
        assert o.operation == rs[k - 1].id;
        MigratedFresh(rs, owners, before, k, o.operation);
        OwnersAppend(owners + before, o);
        assert owners + before + [o] == owners + after;
      }
    }
  }

  lemma MigratedFresh(rs: seq<Record>, owners: seq<Life>, before: seq<Life>, k: nat, id: string)
    requires 0 < k <= |rs| && Apart(rs) && id == rs[k - 1].id && id !in Owned(owners)
    requires forall o :: o in before ==> exists i :: 0 <= i < k - 1 && rs[i].id == o.operation
    ensures id !in Owned(owners + before)
  {
    var all := owners + before;
    forall i | 0 <= i < |all|
      ensures all[i].operation != id
    {
      if i < |owners| {
        assert owners[i].operation in Owned(owners);
      } else {
        assert all[i] in before;
        var j :| 0 <= j < k - 1 && rs[j].id == all[i].operation;
      }
    }
  }

  lemma MigrateKeeps(rs: seq<Record>, owners: seq<Life>, bs: seq<AgentBinding>, now: int)
    requires Apart(rs) && OwnersReadable(owners) && Guarded(rs, owners) && Migrate(rs, owners, bs, now).Ok?
    ensures OwnersReadable(Migrate(rs, owners, bs, now).value) && Guarded(rs, Migrate(rs, owners, bs, now).value)
    ensures owners <= Migrate(rs, owners, bs, now).value
  {
    hide Migrated, Ambiguous;
    MigratedKeeps(rs, owners, bs, now, |rs|);
    var more := Migrated(rs, owners, bs, now, |rs|).value;
    var all := owners + more;
    forall i | 0 <= i < |all| && !all[i].acknowledged
      ensures Present(rs, all[i].operation)
    {
      if i >= |owners| {
        assert all[i] in more;
      }
    }
  }

  lemma ClaimKeeps(rs: seq<Record>, owners: seq<Life>, id: string, agent: string, host: string, digest: string)
    requires OwnersReadable(owners) && Guarded(rs, owners) && Claim(rs, owners, id, agent, host, digest).Ok?
    ensures OwnersReadable(Claim(rs, owners, id, agent, host, digest).value) && Guarded(rs, Claim(rs, owners, id, agent, host, digest).value)
  {
    hide LifeShaped;
    var owners' := Claim(rs, owners, id, agent, host, digest).value;
    if owners' != owners {
      OwnersAppend(owners, owners'[|owners|]);
      assert Present(rs, id);
    }
  }

  lemma AcknowledgeKeeps(rs: seq<Record>, owners: seq<Life>, id: string, agent: string, host: string, digest: string)
    requires OwnersReadable(owners) && Guarded(rs, owners) && Acknowledge(rs, owners, id, agent, host, digest).Ok?
    ensures var owners' := Acknowledge(rs, owners, id, agent, host, digest).value;
            OwnersReadable(owners') && Guarded(rs, owners') && |owners'| == |owners|
  {
    hide LifeShaped;
  }

  // ---- steps ----

  lemma AddPlanKeeps(env: Env, w: World, q: Request, id: string, now: int)
    requires Inv(w) && id !in w.used && AddPlan(env, w.records, q, id, now).Ok?
    ensures var w' := w.(records := AddPlan(env, w.records, q, id, now).value.0, used := w.used + {id});
            Inv(w') && Continues(w, w')
  {
    hide Evolves, OwnersReadable;
    var rs := AddPlan(env, w.records, q, id, now).value.0;
    var w' := w.(records := rs, used := w.used + {id});
    assert forall i :: 0 <= i < |w.records| ==> rs[i] == w.records[i];
    forall x | Present(w.records, x)
      ensures Present(rs, x)
    {
      var i :| 0 <= i < |w.records| && w.records[i].id == x;
      assert rs[i].id == x;
    }
    forall r' | r' in rs && r'.id in w.used
      ensures r' in w.records
    {
      if rs != w.records {
        assert rs == w.records + [rs[|w.records|]];
      }
    }
    forall r, r' | r in w.records && r' in rs && r.id == r'.id
      ensures Evolves(r, r')
    {
      assert r.id in w.used;
      SameRecord(w.records, r, r');
      EvolvesSelf(r);
    }
  }

  lemma PlanKeeps(env: Env, w: World, q: Request, id: string, now: int, bs: seq<AgentBinding>, writes: nat)
    requires Inv(w) && id !in w.used
    ensures Inv(PlanStep(env, w, q, id, now, bs, writes)) && Continues(w, PlanStep(env, w, q, id, now, bs, writes))
  {
    hide Evolves, OwnersReadable, Migrate, Prune, AddPlan, Apart, Guarded, Continues;
    DroppedContinues(w, w);
    var owners := Migrate(w.records, w.owners, bs, now);
    if RequestOk(q) && owners.Ok? {
      MigrateKeeps(w.records, w.owners, bs, now);
      var bound := w.(owners := owners.value);
      DroppedContinues(w, bound);
      var pruned := bound.(records := Prune(w.records, now, Protected(owners.value)));
      PruneMembers(w.records, now, Protected(owners.value));
      PruneGuards(w.records, owners.value, now);
      DroppedContinues(w, pruned);
      assert Drawn(pruned) by {
        forall i | 0 <= i < |pruned.records|
          ensures pruned.records[i].id in w.used
        {
          assert pruned.records[i] in w.records;
        }
      }
      if AddPlan(env, pruned.records, q, id, now).Ok? {
        AddPlanKeeps(env, pruned, q, id, now);
        ContinuesTrans(w, pruned, pruned.(records := AddPlan(env, pruned.records, q, id, now).value.0, used := w.used + {id}));
      }
    }
  }

  lemma ChangeKeeps(w: World, id: string, c: Change, now: int, me: Owner)
    requires Inv(w) && Apply(w.records, id, c, now, me).Ok?
    ensures var w' := w.(records := Apply(w.records, id, c, now, me).value); Inv(w') && Continues(w, w')
  {
    hide Evolves, Mutate, Inv, Continues;
    var rs := Apply(w.records, id, c, now, me).value;
    var k := IndexOf(w.records, id).value;
    MutateEvolves(w.records[k], c, now, me);
    forall i | 0 <= i < |rs|
      ensures Evolves(w.records[i], rs[i])
    {
      EvolvesSelf(w.records[i]);
    }
    ChangedKeeps(w, rs);
  }

  lemma ReconcileKeeps(w: World, dead: set<Owner>)
    requires Inv(w)
    ensures var w' := w.(records := Reconcile(w.records, dead)); Inv(w') && Continues(w, w')
  {
    hide Evolves, Inv, Continues, ReconcileOne;
    var rs := Reconcile(w.records, dead);
    forall i | 0 <= i < |rs|
      ensures Evolves(w.records[i], rs[i])
    {
      ReconcileEvolves(w.records[i], dead);
    }
    ChangedKeeps(w, rs);
  }

  lemma StepKeeps(env: Env, w: World, op: Op)
    requires Inv(w) && Step(env, w, op).Some?
    ensures Inv(Step(env, w, op).value) && Continues(w, Step(env, w, op).value)
  {
    hide Readable, OwnersReadable, PlanStep, Apply, Claim, Acknowledge, Reconcile, Apart, Guarded, Evolves, Continues;
    DroppedContinues(w, w);
    match op
    case DoPlan(q, id, now, bs, writes) => PlanKeeps(env, w, q, id, now, bs, writes);
    case DoChange(id, c, now, me) =>
      if Apply(w.records, id, c, now, me).Ok? {
        ChangeKeeps(w, id, c, now, me);
      }
    case DoClaim(id, agent, host, digest) =>
      if Claim(w.records, w.owners, id, agent, host, digest).Ok? {
        ClaimKeeps(w.records, w.owners, id, agent, host, digest);
        DroppedContinues(w, w.(owners := Claim(w.records, w.owners, id, agent, host, digest).value));
      }
    case DoAcknowledge(id, agent, host, digest) =>
      if Acknowledge(w.records, w.owners, id, agent, host, digest).Ok? {
        AcknowledgeKeeps(w.records, w.owners, id, agent, host, digest);
        DroppedContinues(w, w.(owners := Acknowledge(w.records, w.owners, id, agent, host, digest).value));
      }
    case DoReconcile(dead) => ReconcileKeeps(w, dead);
  }

  lemma {:induction false} RunKeeps(env: Env, ops: seq<Op>)
    requires Run(env, ops).Some?
    ensures Inv(Run(env, ops).value)
  {
    hide Step, Apart, Drawn, OwnersReadable, Guarded;
    if ops == [] {
      InitInv();
    } else {
      RunKeeps(env, ops[..|ops| - 1]);
      StepKeeps(env, Run(env, ops[..|ops| - 1]).value, ops[|ops| - 1]);
    }
  }

  lemma InitInv()
    ensures Inv(Init)
  {
  }

  // ---- theorems ----

  /** Over every run, operation ids and idempotency keys are unique, and so are owners and agent jobs. */
  lemma IdsUnique(env: Env, ops: seq<Op>)
    requires Run(env, ops).Some?
    ensures var w := Run(env, ops).value; Apart(w.records) && OwnersReadable(w.owners)
  {
    RunKeeps(env, ops);
  }

  /** A record with an unacknowledged lifecycle owner is there after every prefix of every run. */
  lemma NeverPrunedWhileOwned(env: Env, ops: seq<Op>, o: Life)
    requires Run(env, ops).Some? && o in Run(env, ops).value.owners && !o.acknowledged
    ensures Present(Run(env, ops).value.records, o.operation)
  {
    hide Run, Apart, Drawn, OwnersReadable, Present;
    RunKeeps(env, ops);
  }

  lemma {:induction false} RunContinues(env: Env, ops: seq<Op>, m: nat)
    requires m <= |ops| && Run(env, ops).Some?
    ensures Run(env, ops[..m]).Some? && Continues(Run(env, ops[..m]).value, Run(env, ops).value)
    decreases |ops|
  {
    hide Step, Continues, Inv;
    if m == |ops| {
      assert ops[..m] == ops;
      RunKeeps(env, ops);
      SelfContinues(Run(env, ops).value);
    } else {
      var n := |ops| - 1;
      RunContinues(env, ops[..n], m);
      assert ops[..n][..m] == ops[..m];
      RunKeeps(env, ops[..n]);
      StepKeeps(env, Run(env, ops[..n]).value, ops[n]);
      RunKeeps(env, ops[..m]);
      InvDrawn(Run(env, ops[..m]).value);
      ContinuesTrans(Run(env, ops[..m]).value, Run(env, ops[..n]).value, Run(env, ops).value);
    }
  }

  lemma SelfContinues(w: World)
    requires Inv(w)
    ensures Continues(w, w)
  {
    hide Evolves;
    DroppedContinues(w, w);
  }

  lemma InvDrawn(w: World)
    requires Inv(w)
    ensures Drawn(w)
  {
  }

  /**
   * Between any two points of any run, an operation keeps its identity, plan and lifetime, a step
   * once attempted never changes again, and succeeded, failed and blocked operations never change.
   */
  lemma OperationsEvolve(env: Env, ops: seq<Op>, m: nat, r: Record, r': Record)
    requires m <= |ops| && Run(env, ops).Some?
    ensures Run(env, ops[..m]).Some?
    ensures r in Run(env, ops[..m]).value.records && r' in Run(env, ops).value.records && r.id == r'.id ==> Evolves(r, r')
  {
    hide Run, Evolves;
    RunContinues(env, ops, m);
  }

  // ---- readable at every point ----

  predicate AllKept(env: Env, rs: seq<Record>) {
    |rs| <= MAX_RECORDS && forall i :: 0 <= i < |rs| ==> Kept(env, rs[i])
  }

  /** The caller of a change keeps to 32 distinct codes and does not make up a reconciliation. */
  predicate CarefulOp(w: World, op: Op) {
    op.DoChange? && IndexOf(w.records, op.id).Some? ==> Careful(w.records[IndexOf(w.records, op.id).value], op.change)
  }

  ghost predicate CarefulRun(env: Env, ops: seq<Op>) {
    forall n :: 0 <= n < |ops| && Run(env, ops[..n]).Some? ==> CarefulOp(Run(env, ops[..n]).value, ops[n])
  }

  lemma PlannedKept(env: Env, q: Request, id: string, now: int)
    requires RequestOk(q)
    ensures Kept(env, Planned0(env, q, id, now))
  {
    var r := Planned0(env, q, id, now);
    assert Names(r.steps) == q.steps;
    NoCodes(r.steps);
  }

  lemma {:induction false} NoCodes(steps: seq<Operations.Step>)
    requires forall i :: 0 <= i < |steps| ==> steps[i].code.None?
    ensures Codes(steps, false) == []
  {
    if steps != [] {
      NoCodes(steps[..|steps| - 1]);
    }
  }

  lemma PlanReadable(env: Env, w: World, q: Request, id: string, now: int, bs: seq<AgentBinding>, writes: nat)
    requires AllKept(env, w.records)
    ensures AllKept(env, PlanStep(env, w, q, id, now, bs, writes).records)
  {
    hide Kept, Migrate, Prune;
    var owners := Migrate(w.records, w.owners, bs, now);
    if RequestOk(q) && owners.Ok? {
      PruneMembers(w.records, now, Protected(owners.value));
      var pruned := Prune(w.records, now, Protected(owners.value));
      forall i | 0 <= i < |pruned|
        ensures Kept(env, pruned[i])
      {
        assert pruned[i] in w.records;
      }
      PlannedKept(env, q, id, now);
    }
  }

  lemma ReconciledKept(env: Env, r: Record, dead: set<Owner>)
    requires Kept(env, r)
    ensures Kept(env, ReconcileOne(r, dead))
  {
    hide StepCodes, Distinct;
  }

  lemma StepReadable(env: Env, w: World, op: Op)
    requires AllKept(env, w.records) && CarefulOp(w, op) && Step(env, w, op).Some?
    ensures AllKept(env, Step(env, w, op).value.records)
  {
    hide Kept, PlanStep, Mutate, Claim, Acknowledge, ReconcileOne, Careful, Readable, OwnersReadable;
    match op
    case DoPlan(q, id, now, bs, writes) => PlanReadable(env, w, q, id, now, bs, writes);
    case DoChange(id, c, now, me) =>
      if Apply(w.records, id, c, now, me).Ok? {
        MutateKeeps(env, w.records[IndexOf(w.records, id).value], c, now, me);
      }
    case DoReconcile(dead) =>
      forall i | 0 <= i < |w.records|
        ensures Kept(env, Reconcile(w.records, dead)[i])
      {
        ReconciledKept(env, w.records[i], dead);
      }
    case _ =>
  }

  lemma {:induction false} RunAllKept(env: Env, ops: seq<Op>)
    requires Run(env, ops).Some? && CarefulRun(env, ops)
    ensures AllKept(env, Run(env, ops).value.records)
  {
    hide Step, CarefulOp, Kept;
    if ops != [] {
      var n := |ops| - 1;
      var front := ops[..n];
      forall m | 0 <= m < |front| && Run(env, front[..m]).Some?
        ensures CarefulOp(Run(env, front[..m]).value, front[m])
      {
        assert front[..m] == ops[..m];
      }
      RunAllKept(env, front);
      StepReadable(env, Run(env, front).value, ops[n]);
    }
  }

  /** With careful callers, every record any mutator writes is accepted by the next read, over every run. */
  lemma AlwaysReadable(env: Env, ops: seq<Op>)
    requires Run(env, ops).Some? && CarefulRun(env, ops)
    ensures Readable(env, Run(env, ops).value.records) && OwnersReadable(Run(env, ops).value.owners)
  {
    hide Run, RecordOk, StepCodes, CarefulRun;
    RunAllKept(env, ops);
    RunKeeps(env, ops);
  }

  // ---- idempotent plans ----

  lemma KeyFound(rs: seq<Record>, k: nat)
    requires k < |rs| && Apart(rs)
    ensures KeyIndex(rs, rs[k].key) == Some(k)
  {
    var i := KeyIndex(rs, rs[k].key);
  }

  /** Planning again under the same key, before the plan expires, returns the stored plan and adds nothing. */
  lemma PlanTwice(env: Env, w: World, q: Request, id: string, id': string, now: int, later: int, protected: set<string>)
    requires Inv(w) && id !in w.used && RequestOk(q) && AddPlan(env, w.records, q, id, now).Ok?
    requires Retained(AddPlan(env, w.records, q, id, now).value.1, later, protected)
    ensures var (rs, r) := AddPlan(env, w.records, q, id, now).value;
            AddPlan(env, Prune(rs, later, protected), q, id', later) == Ok((Prune(rs, later, protected), r))
  {
    hide Prune, Retained;
    var (rs, r) := AddPlan(env, w.records, q, id, now).value;
    AddPlanKeeps(env, w, q, id, now);
    assert Names(Planned0(env, q, id, now).steps) == q.steps;
    assert Answers(env, r, q) && r.key == q.key && r in rs;
    var pruned := Prune(rs, later, protected);
    PruneMembers(rs, later, protected);
    assert r in pruned;
    var k :| 0 <= k < |pruned| && pruned[k] == r;
    KeyFound(pruned, k);
  }

  lemma AnswersEvolve(env: Env, r: Record, r': Record, q: Request)
    requires Evolves(r, r') && Answers(env, r, q)
    ensures Answers(env, r', q) && r'.key == r.key
  {
    assert Names(r'.steps) == Names(r.steps);
  }

  /** The stored record of a key, or its absence, decides what planning the key gives. */
  lemma PlanFinds(env: Env, rs: seq<Record>, q: Request, r: Record, id: string, now: int)
    requires Apart(rs) && r in rs && r.key == q.key && Answers(env, r, q)
    ensures AddPlan(env, rs, q, id, now) == Ok((rs, r))
  {
    hide Answers;
    var k :| 0 <= k < |rs| && rs[k] == r;
    KeyFound(rs, k);
  }

  /**
   * Over whole runs: as long as the record of a planned request is stored, planning the request again
   * returns that record as it is by then, whatever happened to it, and adds nothing, if and only if
   * pruning keeps it; otherwise it is replaced by a new plan or the call is refused.
   */
  lemma PlanAgain(env: Env, ops: seq<Op>, m: nat, q: Request, r: Record, r': Record, id: string, now: int, bs: seq<AgentBinding>)
    requires m <= |ops| && Run(env, ops).Some? && Migrate(Run(env, ops).value.records, Run(env, ops).value.owners, bs, now).Ok?
    requires id !in Run(env, ops).value.used
    ensures Run(env, ops[..m]).Some?
    ensures r in Run(env, ops[..m]).value.records && r.key == q.key && Answers(env, r, q) &&
            r' in Run(env, ops).value.records && r'.id == r.id ==>
              var w := Run(env, ops).value;
              var protected := Protected(Migrate(w.records, w.owners, bs, now).value);
              var pruned := Prune(w.records, now, protected);
              (AddPlan(env, pruned, q, id, now) == Ok((pruned, r')) <==> Retained(r', now, protected))
  {
    OperationsEvolve(env, ops, m, r, r');
    RunKeeps(env, ops);
    var w := Run(env, ops).value;
    var protected := Protected(Migrate(w.records, w.owners, bs, now).value);
    var pruned := Prune(w.records, now, protected);
    PruneMembers(w.records, now, protected);
    InvParts(w);
    if r in Run(env, ops[..m]).value.records && r.key == q.key && Answers(env, r, q) && r' in w.records && r'.id == r.id {
      hide Run, Prune, Migrate, Retained, Answers, Evolves, Inv;
      AnswersEvolve(env, r, r', q);
      if Retained(r', now, protected) {
        PlanFinds(env, pruned, q, r', id, now);
      } else {
        PlanMisses(env, w, pruned, q, r', id, now);
      }
    }
  }

  lemma InvParts(w: World)
    requires Inv(w)
    ensures Apart(w.records) && Drawn(w)
  {
  }

  lemma PlanMisses(env: Env, w: World, pruned: seq<Record>, q: Request, r: Record, id: string, now: int)
    requires Drawn(w) && r in w.records && r !in pruned && id !in w.used
    ensures AddPlan(env, pruned, q, id, now) != Ok((pruned, r))
  {
    hide Answers, IndexBy;
    var k := KeyIndex(pruned, q.key);
    assert k.Some? ==> pruned[k.value] in pruned;
  }
}
