/**
 * The apply journal of the provisioner: an entry is written before the effect, closed after it,
 * and decides every later apply of its idempotency key.
 */
module Provisioner {
  import opened Core

  const MAX_ENTRIES := 4096

  /** A plan: its fingerprint, the fields an apply compares, and the rest. */
  datatype Plan = Plan(digest: string, account: string, generation: int, details: string)

  /** A plan is stored under the idempotency key it was made with, which its fingerprint does not cover. */
  datatype StoredPlan = StoredPlan(key: string, plan: Plan)

  datatype Receipt =
    | Complete(completed: nat, planned: nat)
    | Partly(attempted: nat, completed: nat, planned: nat, failed: nat, notAttempted: nat, reason: string)
  datatype Status = Running | Unknown | Finished(receipt: Receipt)

  /** The arguments of an apply, and its entry. */
  datatype Order = Order(key: string, digest: string, account: string, generation: int)
  datatype Entry = Entry(order: Order, status: Status)

  datatype Answer = Stored(receipt: Receipt) | EffectUnknown | Invalid | Go

  function PlanKey(p: StoredPlan): string { p.key }

  /** The section of `plan` that stores: one plan per key, and no comparison of fingerprints. */
  function StorePlan(plans: seq<StoredPlan>, key: string, plan: Plan): (Option<Plan>, seq<StoredPlan>) {
    var i := IndexBy(PlanKey, plans, key);
    if i.Some? then (if plans[i.value].plan == plan then Some(plan) else None, plans)
    else if |plans| >= MAX_ENTRIES then (None, plans)
    else (Some(plan), plans + [StoredPlan(key, plan)])
  }

  predicate Serves(p: Plan, o: Order) {
    p.digest == o.digest && p.account == o.account && p.generation == o.generation
  }

  /** Exactly one stored plan has the fingerprint. */
  predicate Single(plans: seq<StoredPlan>, digest: string) {
    exists i :: 0 <= i < |plans| && plans[i].plan.digest == digest &&
                forall j :: 0 <= j < |plans| && plans[j].plan.digest == digest ==> j == i
  }

  /** What `apply` asks first: one stored plan of the fingerprint, for this account and generation. */
  predicate OnePlan(plans: seq<StoredPlan>, o: Order) {
    exists i :: 0 <= i < |plans| && Serves(plans[i].plan, o) &&
                forall j :: 0 <= j < |plans| && plans[j].plan.digest == o.digest ==> j == i
  }

  function EntryKey(e: Entry): string { e.order.key }

  function Find(es: seq<Entry>, key: string): Option<nat> {
    IndexBy(EntryKey, es, key)
  }

  /** The locked part of `apply`: an answer, or a new running entry and leave to start the effect. */
  function Begin(plans: seq<StoredPlan>, es: seq<Entry>, o: Order): (Answer, seq<Entry>) {
    if !OnePlan(plans, o) then (Invalid, es)
    else
      var i := Find(es, o.key);
      if i.Some? then
        var e := es[i.value];
        if e.order != o then (Invalid, es)
        else if e.status.Finished? then (Stored(e.status.receipt), es)
        else (EffectUnknown, es)
      else if |es| >= MAX_ENTRIES then (Invalid, es)
      else (Go, es + [Entry(o, Running)])
  }

  /** `_finish_apply` and `_mark_apply_unknown`: only a running entry of the same plan is closed. */
  function Close(es: seq<Entry>, o: Order, status: Status): Option<seq<Entry>> {
    var i := Find(es, o.key);
    if i.None? || es[i.value].order.digest != o.digest || !es[i.value].status.Running? then None
    else Some(es[i.value := es[i.value].(status := status)])
  }

  // ---- runs ----

  type Tid = nat

  datatype Pc = Allowed(order: Order) | Working(order: Order) | Answered(order: Order, receipt: Receipt) | Raised(order: Order)

  /** `started` and `answered` are history: effects begun, and what they answered. */
  datatype World = World(plans: seq<StoredPlan>, entries: seq<Entry>, threads: map<Tid, Pc>, started: multiset<string>, answered: set<(string, Receipt)>)

  const Init := World([], [], map[], multiset{}, {})

  datatype Step =
    | AddPlan(key: string, plan: Plan)
    | Apply(t: Tid, order: Order)
    | StartEffect(t: Tid)
    | EffectAnswers(t: Tid, receipt: Receipt)
    | EffectRaises(t: Tid)
    | Record(t: Tid)
    | Crash(t: Tid)

  function Goto(w: World, t: Tid, pc: Pc): World {
    w.(threads := w.threads[t := pc])
  }

  function Gone(w: World, t: Tid): World {
    w.(threads := w.threads - {t})
  }

  /** Threads of any number of processes; a crash at any point loses the thread and nothing else. */
  function Do(w: World, s: Step): Option<World> {
    match s
    case AddPlan(key, plan) => Some(w.(plans := StorePlan(w.plans, key, plan).1))
    case Apply(t, o) =>
      if t in w.threads then None
      else
        var (answer, es) := Begin(w.plans, w.entries, o);
        Some(if answer.Go? then Goto(w, t, Allowed(o)).(entries := es) else w)
    case StartEffect(t) =>
      if t !in w.threads || !w.threads[t].Allowed? then None
      else Some(Goto(w, t, Working(w.threads[t].order)).(started := w.started + multiset{w.threads[t].order.key}))
    case EffectAnswers(t, receipt) =>
      if t !in w.threads || !w.threads[t].Working? then None
      else
        var o := w.threads[t].order;
        Some(Goto(w, t, Answered(o, receipt)).(answered := w.answered + {(o.key, receipt)}))
    case EffectRaises(t) =>
      if t !in w.threads || !(w.threads[t].Working? || w.threads[t].Allowed?) then None
      else Some(Goto(w, t, Raised(w.threads[t].order)))
    case Record(t) =>
      if t !in w.threads || !(w.threads[t].Answered? || w.threads[t].Raised?) then None
      else
        var pc := w.threads[t];
        var es := Close(w.entries, pc.order, if pc.Answered? then Finished(pc.receipt) else Unknown);
        Some(Gone(w, t).(entries := if es.Some? then es.value else w.entries))
    case Crash(t) => if t !in w.threads then None else Some(Gone(w, t))
  }

  function Run(schedule: seq<Step>): Option<World> {
    if schedule == [] then Some(Init)
    else
      var before := Run(schedule[..|schedule| - 1]);
      if before.None? then None else Do(before.value, schedule[|schedule| - 1])
  }

  // ---- invariants ----

  predicate Apart(es: seq<Entry>) {
    forall i, j :: 0 <= i < j < |es| ==> es[i].order.key != es[j].order.key
  }

  predicate HasOrder(es: seq<Entry>, o: Order) {
    exists i :: 0 <= i < |es| && es[i].order == o
  }

  predicate HasKey(es: seq<Entry>, key: string) {
    exists i :: 0 <= i < |es| && es[i].order.key == key
  }

  /** A thread at work on a key: it is the only one, and the entry of its order is there. */
  predicate Sole(w: World) {
    && (forall t :: t in w.threads ==> HasOrder(w.entries, w.threads[t].order))
    && (forall t, u :: t in w.threads && u in w.threads && w.threads[t].order.key == w.threads[u].order.key ==> t == u)
  }

  /** Effects begun: at most once, never without an entry, and not yet by a thread that may still begin. */
  predicate Begun(w: World) {
    && (forall k :: k in w.started ==> w.started[k] == 1 && HasKey(w.entries, k))
    && (forall t :: t in w.threads && w.threads[t].Allowed? ==> w.threads[t].order.key !in w.started)
  }

  /** A recorded receipt is what the effect answered. */
  predicate Truthful(w: World) {
    && (forall i :: 0 <= i < |w.entries| && w.entries[i].status.Finished? ==>
          (w.entries[i].order.key, w.entries[i].status.receipt) in w.answered)
    && (forall t :: t in w.threads && w.threads[t].Answered? ==> (w.threads[t].order.key, w.threads[t].receipt) in w.answered)
  }

  predicate Inv(w: World) {
    Apart(w.entries) && Sole(w) && Begun(w) && Truthful(w)
  }

  /** Entries stay in place with their order; a finished or unknown one never changes. */
  predicate Extends(es: seq<Entry>, es': seq<Entry>) {
    && |es| <= |es'|
    && forall i :: 0 <= i < |es| ==> es'[i].order == es[i].order && (es[i].status != Running ==> es'[i] == es[i])
  }

  lemma FindIs(es: seq<Entry>, i: nat)
    requires i < |es| && Apart(es)
    ensures Find(es, es[i].order.key) == Some(i)
  {
    var f := Find(es, es[i].order.key);
  }

  lemma ExtendsHas(es: seq<Entry>, es': seq<Entry>)
    requires Extends(es, es')
    ensures forall o :: HasOrder(es, o) ==> HasOrder(es', o)
    ensures forall k :: HasKey(es, k) ==> HasKey(es', k)
  {
    forall o | HasOrder(es, o)
      ensures HasOrder(es', o)
    {
      var i :| 0 <= i < |es| && es[i].order == o;
      assert es'[i].order == o;
    }
    forall k | HasKey(es, k)
      ensures HasKey(es', k)
    {
      var i :| 0 <= i < |es| && es[i].order.key == k;
      assert es'[i].order.key == k;
    }
  }

  lemma OrderHasKey(es: seq<Entry>, o: Order)
    requires HasOrder(es, o)
    ensures HasKey(es, o.key)
  {
    var i :| 0 <= i < |es| && es[i].order == o;
    assert es[i].order.key == o.key;
  }

  lemma BeginAdds(plans: seq<StoredPlan>, es: seq<Entry>, o: Order)
    requires Apart(es) && Begin(plans, es, o).0.Go?
    ensures var es' := Begin(plans, es, o).1;
            Apart(es') && Extends(es, es') && HasOrder(es', o) && !HasKey(es, o.key) &&
            forall i :: 0 <= i < |es'| && es'[i].status.Finished? ==> i < |es| && es'[i] == es[i]
  {
    hide OnePlan;
    var es' := Begin(plans, es, o).1;
    assert es'[|es|].order == o;
  }

  lemma ApplyKeeps(w: World, t: Tid, o: Order)
    requires Inv(w) && Do(w, Apply(t, o)).Some?
    ensures Inv(Do(w, Apply(t, o)).value) && Extends(w.entries, Do(w, Apply(t, o)).value.entries)
  {
    hide HasOrder, HasKey, Begin;
    if Begin(w.plans, w.entries, o).0.Go? {
      BeginAdds(w.plans, w.entries, o);
      ExtendsHas(w.entries, Begin(w.plans, w.entries, o).1);
      forall u | u in w.threads
        ensures w.threads[u].order.key != o.key
      {
        OrderHasKey(w.entries, w.threads[u].order);
      }
    }
  }

  lemma CloseChanges(es: seq<Entry>, o: Order, status: Status)
    requires Apart(es) && Close(es, o, status).Some?
    ensures var es' := Close(es, o, status).value;
            Apart(es') && Extends(es, es') && |es'| == |es| &&
            forall i :: 0 <= i < |es| ==> es'[i] == es[i] || (es'[i].status == status && es'[i].order.key == o.key)
  {
  }

  lemma RecordKeeps(w: World, t: Tid)
    requires Inv(w) && Do(w, Record(t)).Some?
    ensures Inv(Do(w, Record(t)).value) && Extends(w.entries, Do(w, Record(t)).value.entries)
  {
    hide HasOrder, HasKey, Close;
    var pc := w.threads[t];
    var es := Close(w.entries, pc.order, if pc.Answered? then Finished(pc.receipt) else Unknown);
    if es.Some? {
      CloseChanges(w.entries, pc.order, if pc.Answered? then Finished(pc.receipt) else Unknown);
      ExtendsHas(w.entries, es.value);
    }
  }

  lemma StartKeeps(w: World, t: Tid)
    requires Inv(w) && Do(w, StartEffect(t)).Some?
    ensures Inv(Do(w, StartEffect(t)).value)
  {
    hide HasOrder, HasKey, Truthful, Apart;
    OrderHasKey(w.entries, w.threads[t].order);
    var w' := Do(w, StartEffect(t)).value;
    assert Truthful(w') by { SameTruth(w, w', t); }
  }

  lemma SameTruth(w: World, w': World, t: Tid)
    requires Truthful(w) && w'.entries == w.entries && w'.answered == w.answered
    requires forall u :: u in w'.threads && w'.threads[u].Answered? ==> u in w.threads && w.threads[u] == w'.threads[u]
    ensures Truthful(w')
  {
  }

  lemma StepKeeps(w: World, s: Step)
    requires Inv(w) && Do(w, s).Some?
    ensures Inv(Do(w, s).value) && Extends(w.entries, Do(w, s).value.entries)
  {
    hide HasOrder, HasKey;
    match s
    case Apply(t, o) => ApplyKeeps(w, t, o);
    case Record(t) => RecordKeeps(w, t);
    case StartEffect(t) => StartKeeps(w, t);
    case _ => hide Begin, Close;
  }

  lemma {:induction false} RunKeeps(schedule: seq<Step>)
    requires Run(schedule).Some?
    ensures Inv(Run(schedule).value)
  {
    hide Do, Sole, Begun, Truthful, Apart;
    if schedule == [] {
      InitInv();
    } else {
      RunKeeps(schedule[..|schedule| - 1]);
      StepKeeps(Run(schedule[..|schedule| - 1]).value, schedule[|schedule| - 1]);
    }
  }

  lemma InitInv()
    ensures Inv(Init)
  {
  }

  lemma {:induction false} RunExtends(schedule: seq<Step>, n: nat)
    requires n <= |schedule| && Run(schedule).Some?
    ensures Run(schedule[..n]).Some? && Extends(Run(schedule[..n]).value.entries, Run(schedule).value.entries)
    decreases |schedule|
  {
    hide Do;
    if n == |schedule| {
      assert schedule[..n] == schedule;
    } else {
      var m := |schedule| - 1;
      assert schedule[..m][..n] == schedule[..n];
      RunExtends(schedule[..m], n);
      RunKeeps(schedule[..m]);
      StepKeeps(Run(schedule[..m]).value, schedule[m]);
    }
  }

  // ---- theorems ----

  /** For each idempotency key the effect is started at most once, over all runs and crashes. */
  lemma StartedOnce(schedule: seq<Step>, key: string)
    requires Run(schedule).Some?
    ensures Run(schedule).value.started[key] <= 1
  {
    hide Sole, Truthful, Apart;
    RunKeeps(schedule);
  }

  // ---- plans and finished orders ----

  /** Some stored plan serves the order. */
  predicate Backed(plans: seq<StoredPlan>, o: Order) {
    exists i :: 0 <= i < |plans| && Serves(plans[i].plan, o)
  }

  /** For an order that was once granted, only a second plan of its fingerprint can stand in the way. */
  lemma OnlySecondPlans(plans: seq<StoredPlan>, o: Order)
    requires Backed(plans, o)
    ensures OnePlan(plans, o) <==> Single(plans, o.digest)
  {
    var k :| 0 <= k < |plans| && Serves(plans[k].plan, o);
    if Single(plans, o.digest) {
      var i :| 0 <= i < |plans| && plans[i].plan.digest == o.digest &&
               forall j :: 0 <= j < |plans| && plans[j].plan.digest == o.digest ==> j == i;
      assert k == i;
    }
  }

  lemma AppendSingle(plans: seq<StoredPlan>, p: StoredPlan, digest: string)
    requires exists i :: 0 <= i < |plans| && plans[i].plan.digest == digest
    ensures Single(plans + [p], digest) <==> Single(plans, digest) && p.plan.digest != digest
  {
    var more := plans + [p];
    assert forall i :: 0 <= i < |plans| ==> more[i] == plans[i];
    assert more[|plans|] == p;
    var k :| 0 <= k < |plans| && plans[k].plan.digest == digest;
    if Single(more, digest) {
      assert more[k].plan.digest == digest;
      assert forall j :: 0 <= j < |plans| && plans[j].plan.digest == digest ==> more[j].plan.digest == digest;
    }
    if Single(plans, digest) && p.plan.digest != digest {
      var i :| 0 <= i < |plans| && plans[i].plan.digest == digest &&
               forall j :: 0 <= j < |plans| && plans[j].plan.digest == digest ==> j == i;
      assert more[i].plan.digest == digest;
    }
  }

  /** The step stores a plan of the fingerprint under a key not used before. */
  predicate Replans(w: World, s: Step, digest: string) {
    s.AddPlan? && s.plan.digest == digest && IndexBy(PlanKey, w.plans, s.key).None? && |w.plans| < MAX_ENTRIES
  }

  /** Such a step came at or after position n of the run. */
  ghost predicate ReplannedSince(schedule: seq<Step>, n: nat, digest: string) {
    exists m :: n <= m < |schedule| && Run(schedule[..m]).Some? && Replans(Run(schedule[..m]).value, schedule[m], digest)
  }

  lemma PlansAfter(w: World, s: Step)
    requires Do(w, s).Some?
    ensures var plans := Do(w, s).value.plans;
            plans == w.plans || (s.AddPlan? && Replans(w, s, s.plan.digest) && plans == w.plans + [StoredPlan(s.key, s.plan)])
    ensures s.AddPlan? && Replans(w, s, s.plan.digest) ==> Do(w, s).value.plans == w.plans + [StoredPlan(s.key, s.plan)]
  {
    hide Begin, Close, IndexBy;
  }

  ghost predicate HasDigest(plans: seq<StoredPlan>, digest: string) {
    exists i :: 0 <= i < |plans| && plans[i].plan.digest == digest
  }

  lemma SingleStep(w: World, s: Step, digest: string)
    requires Do(w, s).Some? && HasDigest(w.plans, digest)
    ensures HasDigest(Do(w, s).value.plans, digest)
    ensures Single(Do(w, s).value.plans, digest) <==> Single(w.plans, digest) && !Replans(w, s, digest)
  {
    hide Do, Single, IndexBy;
    PlansAfter(w, s);
    var plans := Do(w, s).value.plans;
    if plans != w.plans {
      var p := StoredPlan(s.key, s.plan);
      var i :| 0 <= i < |w.plans| && w.plans[i].plan.digest == digest;
      assert plans[i] == w.plans[i];
      AppendSingle(w.plans, p, digest);
    }
    assert s.AddPlan? ==> |w.plans + [StoredPlan(s.key, s.plan)]| == |w.plans| + 1;
  }

  lemma ReplannedLast(schedule: seq<Step>, n: nat, digest: string)
    requires n < |schedule| && Run(schedule).Some?
    ensures var m := |schedule| - 1;
            Run(schedule[..m]).Some? &&
            (ReplannedSince(schedule, n, digest) <==>
             ReplannedSince(schedule[..m], n, digest) || Replans(Run(schedule[..m]).value, schedule[m], digest))
  {
    hide Do, Replans;
    var m := |schedule| - 1;
    var front := schedule[..m];
    assert Run(front).Some?;
    hide Run;
    assert forall k :: 0 <= k < m ==> front[..k] == schedule[..k] && front[k] == schedule[k];
    if Replans(Run(schedule[..m]).value, schedule[m], digest) {
      assert ReplannedSince(schedule, n, digest);
    }
    if ReplannedSince(front, n, digest) {
      var k :| n <= k < m && Run(front[..k]).Some? && Replans(Run(front[..k]).value, front[k], digest);
      assert Run(schedule[..k]).Some? && Replans(Run(schedule[..k]).value, schedule[k], digest);
    }
    if ReplannedSince(schedule, n, digest) {
      var k :| n <= k <= m && Run(schedule[..k]).Some? && Replans(Run(schedule[..k]).value, schedule[k], digest);
      if k < m {
        assert Run(front[..k]).Some? && Replans(Run(front[..k]).value, front[k], digest);
      }
    }
  }

  /** A fingerprint stays the fingerprint of one plan exactly until a second plan of it is stored. */
  lemma {:induction false} SingleSince(schedule: seq<Step>, n: nat, digest: string)
    requires n <= |schedule| && Run(schedule).Some? && Run(schedule[..n]).Some? && Single(Run(schedule[..n]).value.plans, digest)
    ensures HasDigest(Run(schedule).value.plans, digest)
    ensures Single(Run(schedule).value.plans, digest) <==> !ReplannedSince(schedule, n, digest)
    decreases |schedule|
  {
    hide Do, Replans;
    if n == |schedule| {
      assert schedule[..n] == schedule;
    } else {
      var m := |schedule| - 1;
      assert schedule[..m][..n] == schedule[..n];
      SingleSince(schedule[..m], n, digest);
      hide Single, HasDigest;
      SingleStep(Run(schedule[..m]).value, schedule[m], digest);
      ReplannedLast(schedule, n, digest);
    }
  }

  /** Position g of the run is the apply that was granted the order. */
  ghost predicate Grants(schedule: seq<Step>, g: nat, o: Order) {
    && g < |schedule| && Run(schedule[..g]).Some? && schedule[g].Apply? && schedule[g].order == o
    && Begin(Run(schedule[..g]).value.plans, Run(schedule[..g]).value.entries, o).0.Go?
  }

  /** Where a step leaves entries: the old ones, in order, and a new one only for a granted apply. */
  lemma EntriesAfter(w: World, s: Step)
    requires Inv(w) && Do(w, s).Some?
    ensures var es := Do(w, s).value.entries;
            |w.entries| <= |es| && (forall i :: 0 <= i < |w.entries| ==> es[i].order == w.entries[i].order) &&
            (|es| > |w.entries| ==>
               |es| == |w.entries| + 1 && s.Apply? && Begin(w.plans, w.entries, s.order).0.Go? && es[|w.entries|].order == s.order)
  {
    hide Sole, Begun, Truthful, IndexBy, OnePlan;
  }

  /** Every entry was granted at some point of the run. */
  lemma {:induction false} EntryGranted(schedule: seq<Step>, i: nat) returns (g: nat)
    requires Run(schedule).Some? && i < |Run(schedule).value.entries|
    ensures Grants(schedule, g, Run(schedule).value.entries[i].order)
  {
    hide Do, Begin;
    var m := |schedule| - 1;
    var w := Run(schedule[..m]).value;
    RunKeeps(schedule[..m]);
    EntriesAfter(w, schedule[m]);
    if i < |w.entries| {
      g := EntryGranted(schedule[..m], i);
      assert schedule[..m][..g] == schedule[..g] && schedule[..m][g] == schedule[g];
    } else {
      g := m;
    }
  }

  lemma GrantSingle(plans: seq<StoredPlan>, es: seq<Entry>, o: Order)
    requires Begin(plans, es, o).0.Go?
    ensures Single(plans, o.digest) && Backed(plans, o)
  {
    hide IndexBy;
    var i :| 0 <= i < |plans| && Serves(plans[i].plan, o) &&
             forall j :: 0 <= j < |plans| && plans[j].plan.digest == o.digest ==> j == i;
    assert plans[i].plan.digest == o.digest;
  }

  lemma {:induction false} BackedStays(schedule: seq<Step>, n: nat, o: Order)
    requires n <= |schedule| && Run(schedule).Some? && Run(schedule[..n]).Some? && Backed(Run(schedule[..n]).value.plans, o)
    ensures Backed(Run(schedule).value.plans, o)
    decreases |schedule|
  {
    hide Do;
    if n == |schedule| {
      assert schedule[..n] == schedule;
    } else {
      var m := |schedule| - 1;
      assert schedule[..m][..n] == schedule[..n];
      BackedStays(schedule[..m], n, o);
      var w, w' := Run(schedule[..m]).value, Run(schedule).value;
      PlansAfter(w, schedule[m]);
      var i :| 0 <= i < |w.plans| && Serves(w.plans[i].plan, o);
      assert w'.plans[i] == w.plans[i];
    }
  }

  /** The answer to a finished order, by the plans stored when it is asked again. */
  lemma FinishedAnswer(schedule: seq<Step>, n: nat, i: nat)
    requires n <= |schedule| && Run(schedule).Some? && Run(schedule[..n]).Some? && i < |Run(schedule[..n]).value.entries|
    requires Run(schedule[..n]).value.entries[i].status.Finished? && Backed(Run(schedule).value.plans, Run(schedule[..n]).value.entries[i].order)
    ensures var w, e := Run(schedule).value, Run(schedule[..n]).value.entries[i];
            Begin(w.plans, w.entries, e.order) ==
            (if Single(w.plans, e.order.digest) then Stored(e.status.receipt) else Invalid, w.entries) &&
            (e.order.key, e.status.receipt) in w.answered
  {
    hide Run, IndexBy, Sole, Begun, Single;
    RunKeeps(schedule);
    RunExtends(schedule, n);
    var w, o := Run(schedule).value, Run(schedule[..n]).value.entries[i].order;
    OnlySecondPlans(w.plans, o);
    FindIs(w.entries, i);
  }

  /**
   * Once finished, a later identical apply is answered with the stored receipt, which the effect did
   * answer, if and only if no second plan of its fingerprint was stored since the order was granted;
   * otherwise it is refused, and either way nothing changes.
   */
  lemma FinishedAnswersForever(schedule: seq<Step>, n: nat, i: nat) returns (g: nat)
    requires n <= |schedule| && Run(schedule).Some? && Run(schedule[..n]).Some? && i < |Run(schedule[..n]).value.entries|
    requires Run(schedule[..n]).value.entries[i].status.Finished?
    ensures g < n && Grants(schedule, g, Run(schedule[..n]).value.entries[i].order)
    ensures var w, e := Run(schedule).value, Run(schedule[..n]).value.entries[i];
            Begin(w.plans, w.entries, e.order) ==
            (if ReplannedSince(schedule, g, e.order.digest) then Invalid else Stored(e.status.receipt), w.entries) &&
            (Single(w.plans, e.order.digest) <==> !ReplannedSince(schedule, g, e.order.digest)) &&
            (e.order.key, e.status.receipt) in w.answered
  {
    hide Run, Begin, Single, Backed, ReplannedSince;
    var o := Run(schedule[..n]).value.entries[i].order;
    g := EntryGranted(schedule[..n], i);
    assert schedule[..n][..g] == schedule[..g] && schedule[..n][g] == schedule[g];
    GrantSingle(Run(schedule[..g]).value.plans, Run(schedule[..g]).value.entries, o);
    SingleSince(schedule, g, o.digest);
    BackedStays(schedule, g, o);
    FinishedAnswer(schedule, n, i);
  }

  const OnePlanned := Plan("fingerprint", "account", 1, "")
  const OneOrder := Order("apply", "fingerprint", "account", 1)

  /** Planned, applied, finished with nothing to do, and planned again under another key on the same evidence. */
  const Replanned: seq<Step> :=
    [AddPlan("first", OnePlanned), Apply(0, OneOrder), StartEffect(0), EffectAnswers(0, Complete(0, 0)), Record(0),
     AddPlan("second", OnePlanned)]

  /** What that run leaves: two plans of one fingerprint and the finished entry. */
  const TwicePlanned := World([StoredPlan("first", OnePlanned), StoredPlan("second", OnePlanned)],
                              [Entry(OneOrder, Finished(Complete(0, 0)))], map[], multiset{"apply"}, {("apply", Complete(0, 0))})

  lemma RunAppends(schedule: seq<Step>, s: Step)
    ensures Run(schedule + [s]) == if Run(schedule).None? then None else Do(Run(schedule).value, s)
  {
    assert (schedule + [s])[..|schedule|] == schedule;
  }

  lemma FirstKeys()
    ensures IndexBy(PlanKey, [], "first") == None && IndexBy(EntryKey, [], "apply") == None
    ensures IndexBy(PlanKey, [StoredPlan("first", OnePlanned)], "second") == None
    ensures forall status :: IndexBy(EntryKey, [Entry(OneOrder, status)], "apply") == Some(0)
    ensures OnePlan([StoredPlan("first", OnePlanned)], OneOrder)
  {
    assert [StoredPlan("first", OnePlanned)][0].plan == OnePlanned && Serves(OnePlanned, OneOrder);
    forall status
      ensures IndexBy(EntryKey, [Entry(OneOrder, status)], "apply") == Some(0)
    {
      assert EntryKey([Entry(OneOrder, status)][0]) == "apply";
      var i := IndexBy(EntryKey, [Entry(OneOrder, status)], "apply");
    }
  }

  lemma ReplannedSteps()
    ensures var first := [StoredPlan("first", OnePlanned)];
            var running, done := [Entry(OneOrder, Running)], [Entry(OneOrder, Finished(Complete(0, 0)))];
            && Do(Init, Replanned[0]) == Some(World(first, [], map[], multiset{}, {}))
            && Do(World(first, [], map[], multiset{}, {}), Replanned[1]) ==
               Some(World(first, running, map[0 := Allowed(OneOrder)], multiset{}, {}))
            && Do(World(first, running, map[0 := Allowed(OneOrder)], multiset{}, {}), Replanned[2]) ==
               Some(World(first, running, map[0 := Working(OneOrder)], multiset{"apply"}, {}))
  {
    FirstKeys();
    hide IndexBy, OnePlan;
    var noPlans: seq<StoredPlan>, noEntries: seq<Entry>, noThreads: map<Tid, Pc> := [], [], map[];
    assert noPlans + [StoredPlan("first", OnePlanned)] == [StoredPlan("first", OnePlanned)];
    assert noEntries + [Entry(OneOrder, Running)] == [Entry(OneOrder, Running)];
    assert noThreads[0 := Allowed(OneOrder)] == map[0 := Allowed(OneOrder)];
    assert map[0 := Allowed(OneOrder)][0 := Working(OneOrder)] == map[0 := Working(OneOrder)];
    assert multiset{} + multiset{"apply"} == multiset{"apply"};
  }

  lemma ReplannedEnd()
    ensures var first := [StoredPlan("first", OnePlanned)];
            var running, done := [Entry(OneOrder, Running)], [Entry(OneOrder, Finished(Complete(0, 0)))];
            var given := {("apply", Complete(0, 0))};
            && Do(World(first, running, map[0 := Working(OneOrder)], multiset{"apply"}, {}), Replanned[3]) ==
               Some(World(first, running, map[0 := Answered(OneOrder, Complete(0, 0))], multiset{"apply"}, given))
            && Do(World(first, running, map[0 := Answered(OneOrder, Complete(0, 0))], multiset{"apply"}, given), Replanned[4]) ==
               Some(World(first, done, map[], multiset{"apply"}, given))
            && Do(World(first, done, map[], multiset{"apply"}, given), Replanned[5]) == Some(TwicePlanned)
  {
    FirstKeys();
    hide IndexBy, OnePlan;
    var answered := Answered(OneOrder, Complete(0, 0));
    assert map[0 := Working(OneOrder)][0 := answered] == map[0 := answered];
    assert map[0 := answered] - {0} == map[];
    var none: set<(string, Receipt)> := {};
    assert none + {("apply", Complete(0, 0))} == {("apply", Complete(0, 0))};
    assert [StoredPlan("first", OnePlanned)] + [StoredPlan("second", OnePlanned)] == TwicePlanned.plans;
    assert [Entry(OneOrder, Running)][0 := Entry(OneOrder, Finished(Complete(0, 0)))] == [Entry(OneOrder, Finished(Complete(0, 0)))];
  }

  /** A finished order that the second plan of its fingerprint makes unanswerable. */
  lemma ReplannedIsRefused()
    ensures Run(Replanned) == Some(TwicePlanned) && TwicePlanned.entries[0].status.Finished?
    ensures Begin(TwicePlanned.plans, TwicePlanned.entries, OneOrder) == (Invalid, TwicePlanned.entries)
  {
    var p := TwicePlanned.plans;
    assert p[0].plan.digest == OneOrder.digest && p[1].plan.digest == OneOrder.digest;
    assert !OnePlan(p, OneOrder);
    assert Run([]) == Some(Init);
    ReplannedSteps();
    ReplannedEnd();
    hide Do, Run;
    RunAppends([], Replanned[0]);
    RunAppends([] + [Replanned[0]], Replanned[1]);
    RunAppends([] + [Replanned[0]] + [Replanned[1]], Replanned[2]);
    RunAppends([] + [Replanned[0]] + [Replanned[1]] + [Replanned[2]], Replanned[3]);
    RunAppends([] + [Replanned[0]] + [Replanned[1]] + [Replanned[2]] + [Replanned[3]], Replanned[4]);
    RunAppends([] + [Replanned[0]] + [Replanned[1]] + [Replanned[2]] + [Replanned[3]] + [Replanned[4]], Replanned[5]);
    assert [] + [Replanned[0]] + [Replanned[1]] + [Replanned[2]] + [Replanned[3]] + [Replanned[4]] + [Replanned[5]] == Replanned;
  }

  /** A running or unknown entry never lets its effect start again: every later apply of the key is refused. */
  lemma UnfinishedNeverRestarts(schedule: seq<Step>, i: nat, plans: seq<StoredPlan>, o: Order)
    requires Run(schedule).Some? && i < |Run(schedule).value.entries| && o.key == Run(schedule).value.entries[i].order.key
    ensures var e, (answer, es) := Run(schedule).value.entries[i], Begin(plans, Run(schedule).value.entries, o);
            es == Run(schedule).value.entries && !answer.Go? &&
            (OnePlan(plans, o) && e.order == o && !e.status.Finished? ==> answer == EffectUnknown)
  {
    hide Run, IndexBy, OnePlan, Sole, Begun, Truthful;
    RunKeeps(schedule);
    FindIs(Run(schedule).value.entries, i);
  }

  // ---- exactly when, said of the stored plans and entries ----

  ghost predicate KeysApart(plans: seq<StoredPlan>) {
    forall i, j :: 0 <= i < j < |plans| ==> plans[i].key != plans[j].key
  }

  /** A plan is stored exactly under a new key while there is room, and given again exactly if the key has the very same plan. */
  lemma StorePlanExactly(plans: seq<StoredPlan>, key: string, plan: Plan)
    requires KeysApart(plans)
    ensures var (given, plans') := StorePlan(plans, key, plan);
            var fresh' := forall i :: 0 <= i < |plans| ==> plans[i].key != key;
            && (given == Some(plan) <==> (fresh' && |plans| < MAX_ENTRIES) || StoredPlan(key, plan) in plans)
            && (given == None || given == Some(plan))
            && plans' == (if fresh' && |plans| < MAX_ENTRIES then plans + [StoredPlan(key, plan)] else plans)
  {
    hide IndexBy;
    var i := IndexBy(PlanKey, plans, key);
    assert forall k :: 0 <= k < |plans| ==> PlanKey(plans[k]) == plans[k].key;
    if StoredPlan(key, plan) in plans {
      var k :| 0 <= k < |plans| && plans[k] == StoredPlan(key, plan);
      assert i == Some(k);
    }
  }

  /** Exactly one stored plan has the fingerprint of the order, and it is for its account and generation. */
  ghost predicate Orderable(plans: seq<StoredPlan>, o: Order) {
    exists i :: && 0 <= i < |plans| && plans[i].plan.digest == o.digest
                && plans[i].plan.account == o.account && plans[i].plan.generation == o.generation
                && forall j :: 0 <= j < |plans| && j != i ==> plans[j].plan.digest != o.digest
  }

  ghost predicate Knows(es: seq<Entry>, o: Order, status: Status) {
    exists i :: 0 <= i < |es| && es[i] == Entry(o, status)
  }

  /**
   * An apply may start its effect exactly if it can be ordered, its key is new and there is room.  The very
   * order made before is answered from its entry, with the receipt once it has one; all else is refused.
   */
  lemma BeginExactly(plans: seq<StoredPlan>, es: seq<Entry>, o: Order)
    requires Apart(es)
    ensures var (answer, es') := Begin(plans, es, o);
            && (answer == Go <==> Orderable(plans, o) && (forall i :: 0 <= i < |es| ==> es[i].order.key != o.key) && |es| < MAX_ENTRIES)
            && (forall receipt :: answer == Stored(receipt) <==> Orderable(plans, o) && Knows(es, o, Finished(receipt)))
            && (answer == EffectUnknown <==> Orderable(plans, o) && (Knows(es, o, Running) || Knows(es, o, Unknown)))
            && es' == if answer == Go then es + [Entry(o, Running)] else es
  {
    hide IndexBy;
    assert OnePlan(plans, o) <==> Orderable(plans, o) by {
      if i :| 0 <= i < |plans| && Serves(plans[i].plan, o) && forall j :: 0 <= j < |plans| && plans[j].plan.digest == o.digest ==> j == i {
        assert plans[i].plan.digest == o.digest;
      }
      if Orderable(plans, o) {
        var i :| && 0 <= i < |plans| && plans[i].plan.digest == o.digest
                 && plans[i].plan.account == o.account && plans[i].plan.generation == o.generation
                 && forall j :: 0 <= j < |plans| && j != i ==> plans[j].plan.digest != o.digest;
        assert Serves(plans[i].plan, o);
      }
    }
    hide OnePlan, Orderable;
    var k := Find(es, o.key);
    assert forall i :: 0 <= i < |es| ==> EntryKey(es[i]) == es[i].order.key;
    assert forall i :: 0 <= i < |es| && es[i].order.key == o.key ==> k == Some(i);
  }

  /** Only a running entry of the plan is closed, and nothing of it but its status changes. */
  lemma CloseExactly(es: seq<Entry>, o: Order, status: Status)
    requires Apart(es)
    ensures var es' := Close(es, o, status);
            && (es'.Some? <==> exists i :: 0 <= i < |es| && es[i].order.key == o.key && es[i].order.digest == o.digest && es[i].status == Running)
            && (es'.Some? ==> && |es'.value| == |es|
                              && forall i :: 0 <= i < |es| ==> es'.value[i] == if es[i].order.key == o.key then es[i].(status := status) else es[i])
  {
    hide IndexBy;
    var k := Find(es, o.key);
    assert forall i :: 0 <= i < |es| ==> EntryKey(es[i]) == es[i].order.key;
    assert forall i :: 0 <= i < |es| && es[i].order.key == o.key ==> k == Some(i);
  }

  /** Over every run the journal stays within its bounds, and no idempotency key has two plans. */
  lemma {:induction false} JournalBounded(schedule: seq<Step>)
    requires Run(schedule).Some?
    ensures var w := Run(schedule).value; |w.plans| <= MAX_ENTRIES && |w.entries| <= MAX_ENTRIES && KeysApart(w.plans)
  {
    hide IndexBy, OnePlan;
    if schedule != [] {
      JournalBounded(schedule[..|schedule| - 1]);
      var w := Run(schedule[..|schedule| - 1]).value;
      var s := schedule[|schedule| - 1];
      if s.AddPlan? {
        StorePlanExactly(w.plans, s.key, s.plan);
      }
    }
  }
}

/** The journal as the provisioner's document keeps it. */
module ProvisionerJournal {
  import opened Core
  import Provisioner

  class GoogleProvisioner {
    var plans: seq<Provisioner.StoredPlan>
    var applies: seq<Provisioner.Entry>

    constructor ()
      ensures plans == [] && applies == []
    {
      plans, applies := [], [];
    }

    /** The section of `plan` that stores: the plan of the key, or a new one. */
    method StorePlan(key: string, plan: Provisioner.Plan) returns (stored: Option<Provisioner.Plan>)
      modifies this`plans
      ensures (stored, plans) == Provisioner.StorePlan(old(plans), key, plan)
    {
      hide IndexBy;
      var k := SearchBy(Provisioner.PlanKey, plans, key);
      if k.Some? {
        return if plans[k.value].plan == plan then Some(plan) else None;
      }
      if |plans| >= Provisioner.MAX_ENTRIES {
        return None;
      }
      plans := plans + [Provisioner.StoredPlan(key, plan)];
      return Some(plan);
    }

    /** The section of `apply` under the document lock. */
    method BeginApply(o: Provisioner.Order) returns (answer: Provisioner.Answer)
      modifies this`applies
      ensures (answer, applies) == Provisioner.Begin(plans, old(applies), o)
    {
      hide IndexBy, Provisioner.OnePlan;
      if !Provisioner.OnePlan(plans, o) {
        return Provisioner.Invalid;
      }
      var k := SearchBy(Provisioner.EntryKey, applies, o.key);
      if k.Some? {
        var e := applies[k.value];
        if e.order != o {
          return Provisioner.Invalid;
        }
        if e.status.Finished? {
          return Provisioner.Stored(e.status.receipt);
        }
        return Provisioner.EffectUnknown;
      }
      if |applies| >= Provisioner.MAX_ENTRIES {
        return Provisioner.Invalid;
      }
      applies := applies + [Provisioner.Entry(o, Provisioner.Running)];
      return Provisioner.Go;
    }

    method CloseApply(o: Provisioner.Order, status: Provisioner.Status) returns (ok: bool)
      modifies this`applies
      ensures ok <==> Provisioner.Close(old(applies), o, status).Some?
      ensures applies == if ok then Provisioner.Close(old(applies), o, status).value else old(applies)
    {
      hide IndexBy;
      var k := SearchBy(Provisioner.EntryKey, applies, o.key);
      if k.None? || applies[k.value].order.digest != o.digest || !applies[k.value].status.Running? {
        return false;
      }
      applies := applies[k.value := applies[k.value].(status := status)];
      return true;
    }
  }
}
