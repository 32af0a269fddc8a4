/** The completion journal and the revalidation gate in front of the executor. */
module CompletionJournal {
  import opened Core
  import opened Admission

  const MAX_JOURNAL: nat := 4096

  /** What one journal record says: hashed binding and operation, and whether the executor returned. */
  datatype Entry = Entry(revision: int, binding: string, operation: string, completed: bool)

  /** The two digest functions, left uninterpreted. */
  datatype Digests = Digests(ofBinding: Binding -> string, ofOperation: string -> string)

  function Started(j: map<string, Entry>, h: Digests, r: Record, operation: string): Result<map<string, Entry>> {
    var id := r.binding.id;
    if id in j then
      if j[id].revision != r.revision then Err("completion_revision_conflict")
      else if j[id].binding != h.ofBinding(r.binding) then Err("completion_binding_conflict")
      else if j[id].completed then Err("completion_already_recorded")
      else if j[id].operation != h.ofOperation(operation) then Err("completion_operation_conflict")
      else Ok(j)
    else if |j| >= MAX_JOURNAL then Err("completion_journal_full")
    else Ok(j[id := Entry(r.revision, h.ofBinding(r.binding), h.ofOperation(operation), false)])
  }

  function Completed(j: map<string, Entry>, h: Digests, r: Record, operation: string): Result<map<string, Entry>> {
    var id := r.binding.id;
    if id !in j then Err("completion_start_missing")
    else if j[id].revision != r.revision then Err("completion_revision_conflict")
    else if j[id].binding != h.ofBinding(r.binding) then Err("completion_binding_conflict")
    else if j[id].operation != h.ofOperation(operation) then Err("completion_operation_conflict")
    else Ok(j[id := j[id].(completed := true)])
  }

  /** `execution_completed`: positive evidence for exactly this id, revision and binding. */
  predicate Evidence(j: map<string, Entry>, h: Digests, r: Record) {
    r.binding.id in j && j[r.binding.id].completed && j[r.binding.id].revision == r.revision
    && j[r.binding.id].binding == h.ofBinding(r.binding)
  }
}

/**
 * Threads run `revalidate` and `execute` on one runtime and one journal in any
 * interleaving, and the process may restart, losing threads and remembered
 * revalidations but not the journal.
 */
module AdmissionRuntime {
  import opened Core
  import opened Admission
  import opened CompletionJournal

  type Tid = nat

  datatype Pc =
    | Free
    | Checked(record: Record, operation: string, seen: int)
    | Journaled(record: Record, operation: string, seen: int)
    | Taken(record: Record, operation: string)
    | Calling(record: Record, operation: string)
    | Returned(record: Record, operation: string)

  /** The last three fields are history: what was granted, called and returned so far. */
  datatype World = World(
    revalidated: map<string, int>, journal: map<string, Entry>, threads: map<Tid, Pc>,
    grants: multiset<string>, calls: multiset<string>, answered: set<(string, int, string)>)

  const Init := World(map[], map[], map[], multiset{}, multiset{}, {})

  datatype Step =
    | Revalidate(admission: Record)
    | Check(t: Tid, admission: Record, operation: string)
    | RecordStart(t: Tid, eventFails: bool)
    | Take(t: Tid)
    | CallExecutor(t: Tid)
    | ExecutorReturns(t: Tid)
    | RecordCompletion(t: Tid)
    | Raise(t: Tid)
    | Restart

  function At(w: World, t: Tid): Pc {
    if t in w.threads then w.threads[t] else Free
  }

  function Goto(w: World, t: Tid, pc: Pc): World {
    w.(threads := w.threads[t := pc])
  }

  function Do(h: Digests, w: World, s: Step): Option<World> {
    match s
    case Revalidate(r) =>
      if r.state != Revalidating then None
      else Some(w.(revalidated := w.revalidated[r.binding.id := r.revision], grants := w.grants + multiset{r.binding.id}))
    case Check(t, r, operation) =>
      if At(w, t) != Free || r.state != Executing then None
      else if r.binding.id !in w.revalidated || r.revision <= w.revalidated[r.binding.id] then None
      else Some(Goto(w, t, Checked(r, operation, w.revalidated[r.binding.id])))
    case RecordStart(t, eventFails) =>
      if !At(w, t).Checked? then None else
      var Checked(r, operation, seen) := At(w, t);
      var j := Started(w.journal, h, r, operation);
      if j.Err? then Some(Goto(w, t, Free))
      else Some(Goto(w, t, if eventFails then Free else Journaled(r, operation, seen)).(journal := j.value))
    case Take(t) =>
      if !At(w, t).Journaled? then None else
      var Journaled(r, operation, seen) := At(w, t);
      var id := r.binding.id;
      if id in w.revalidated && w.revalidated[id] == seen
      then Some(Goto(w, t, Taken(r, operation)).(revalidated := w.revalidated - {id}))
      else Some(Goto(w, t, Free))
    case CallExecutor(t) =>
      if !At(w, t).Taken? then None else
      var Taken(r, operation) := At(w, t);
      Some(Goto(w, t, Calling(r, operation)).(calls := w.calls + multiset{r.binding.id}))
    case ExecutorReturns(t) =>
      if !At(w, t).Calling? then None else
      var Calling(r, operation) := At(w, t);
      Some(Goto(w, t, Returned(r, operation)).(answered := w.answered + {(r.binding.id, r.revision, h.ofBinding(r.binding))}))
    case RecordCompletion(t) =>
      if !At(w, t).Returned? then None else
      var Returned(r, operation) := At(w, t);
      var j := Completed(w.journal, h, r, operation);
      Some(Goto(w, t, Free).(journal := if j.Ok? then j.value else w.journal))
    case Raise(t) => Some(Goto(w, t, Free))
    case Restart => Some(w.(revalidated := map[], threads := map[]))
  }

  function Exec(h: Digests, w: World, schedule: seq<Step>): Option<World> {
    if schedule == [] then Some(w)
    else
      var before := Exec(h, w, schedule[..|schedule| - 1]);
      if before.None? then None else Do(h, before.value, schedule[|schedule| - 1])
  }

  // ---------------------------------------------------------------- counting and evidence

  /** Threads that consumed a revalidation of `id` and have not called yet. */
  ghost function Holding(w: World, id: string): set<Tid> {
    set t | t in w.threads && w.threads[t].Taken? && w.threads[t].record.binding.id == id
  }

  ghost predicate Counted(w: World, id: string) {
    w.calls[id] + |Holding(w, id)| + (if id in w.revalidated then 1 else 0) <= w.grants[id]
  }

  ghost predicate Witnessed(h: Digests, w: World) {
    && (forall id :: id in w.journal && w.journal[id].completed ==> (id, w.journal[id].revision, w.journal[id].binding) in w.answered)
    && (forall t :: t in w.threads && w.threads[t].Returned? ==>
          var r := w.threads[t].record; (r.binding.id, r.revision, h.ofBinding(r.binding)) in w.answered)
  }

  lemma HoldingGoto(w: World, t: Tid, pc: Pc, id: string)
    ensures t in Holding(w, id) <==> At(w, t).Taken? && At(w, t).record.binding.id == id
    ensures Holding(Goto(w, t, pc), id) ==
            if pc.Taken? && pc.record.binding.id == id then Holding(w, id) + {t} else Holding(w, id) - {t}
  {
  }

  /** Every step of a single thread, as a change of its program counter and of the two counters. */
  lemma ThreadCounts(w: World, w': World, t: Tid, pc: Pc, id: string)
    requires Counted(w, id) && w'.threads == Goto(w, t, pc).threads && w'.grants == w.grants
    requires var holds, held := At(w, t).Taken? && At(w, t).record.binding.id == id, pc.Taken? && pc.record.binding.id == id;
             w'.calls[id] + (if held then 1 else 0) + (if id in w'.revalidated then 1 else 0)
             <= w.calls[id] + (if holds then 1 else 0) + (if id in w.revalidated then 1 else 0)
    ensures Counted(w', id)
  {
    HoldingGoto(w, t, pc, id);
    assert Holding(w', id) == Holding(Goto(w, t, pc), id);
  }

  lemma StepCounts(h: Digests, w: World, s: Step, id: string)
    requires Counted(w, id) && Do(h, w, s).Some?
    ensures Counted(Do(h, w, s).value, id)
  {
    var w' := Do(h, w, s).value;
    if s.Restart? {
      assert Holding(w', id) == {};
    } else if s.Revalidate? {
      assert Holding(w', id) == Holding(w, id);
    } else {
      ThreadCounts(w, w', s.t, w'.threads[s.t], id);
    }
  }

  /** A thread moves on, unless to Returned, and the journal and the answers stay. */
  lemma MoveWitnesses(h: Digests, w: World, w': World, t: Tid, pc: Pc)
    requires Witnessed(h, w) && !pc.Returned? && w'.threads == w.threads[t := pc]
    requires w'.journal == w.journal && w'.answered == w.answered
    ensures Witnessed(h, w')
  {
  }

  lemma StartWitnesses(h: Digests, w: World, t: Tid, fails: bool)
    requires Witnessed(h, w) && Do(h, w, RecordStart(t, fails)).Some?
    ensures Witnessed(h, Do(h, w, RecordStart(t, fails)).value)
  {
    var w' := Do(h, w, RecordStart(t, fails)).value;
    assert forall id :: id in w'.journal && w'.journal[id].completed ==> id in w.journal && w.journal[id] == w'.journal[id];
  }

  lemma ReturnWitnesses(h: Digests, w: World, t: Tid)
    requires Witnessed(h, w) && Do(h, w, ExecutorReturns(t)).Some?
    ensures Witnessed(h, Do(h, w, ExecutorReturns(t)).value)
  {
  }

  lemma CompletionWitnesses(h: Digests, w: World, t: Tid)
    requires Witnessed(h, w) && Do(h, w, RecordCompletion(t)).Some?
    ensures Witnessed(h, Do(h, w, RecordCompletion(t)).value)
  {
  }

  lemma StepWitnesses(h: Digests, w: World, s: Step)
    requires Witnessed(h, w) && Do(h, w, s).Some?
    ensures Witnessed(h, Do(h, w, s).value)
  {
    var w' := Do(h, w, s).value;
    hide Started, Completed;
    match s
    case RecordStart(t, fails) => StartWitnesses(h, w, t, fails);
    case ExecutorReturns(t) => ReturnWitnesses(h, w, t);
    case RecordCompletion(t) => CompletionWitnesses(h, w, t);
    case Revalidate(_) =>
    case Restart =>
    case _ => hide Witnessed; MoveWitnesses(h, w, w', s.t, w'.threads[s.t]);
  }

  lemma {:induction false} ExecKeeps(h: Digests, schedule: seq<Step>, id: string)
    requires Exec(h, Init, schedule).Some?
    ensures Counted(Exec(h, Init, schedule).value, id) && Witnessed(h, Exec(h, Init, schedule).value)
  {
    if schedule == [] {
      assert Holding(Init, id) == {};
    } else {
      var n := |schedule| - 1;
      ExecKeeps(h, schedule[..n], id);
      StepCounts(h, Exec(h, Init, schedule[..n]).value, schedule[n], id);
      StepWitnesses(h, Exec(h, Init, schedule[..n]).value, schedule[n]);
    }
  }

  /** At every prefix of every run, executor calls for an admission never exceed its successful revalidations. */
  lemma CallsWithinGrants(h: Digests, schedule: seq<Step>, id: string)
    requires Exec(h, Init, schedule).Some?
    ensures Exec(h, Init, schedule).value.calls[id] <= Exec(h, Init, schedule).value.grants[id]
  {
    ExecKeeps(h, schedule, id);
  }

  /** Positive journal evidence implies that the executor returned for that id, revision and binding digest. */
  lemma EvidenceIsTrue(h: Digests, schedule: seq<Step>, r: Record)
    requires Exec(h, Init, schedule).Some? && Evidence(Exec(h, Init, schedule).value.journal, h, r)
    ensures (r.binding.id, r.revision, h.ofBinding(r.binding)) in Exec(h, Init, schedule).value.answered
  {
    ExecKeeps(h, schedule, r.binding.id);
  }

  // ---------------------------------------------------------------- calls after completion

  predicate Done(w: World, id: string) {
    id in w.journal && w.journal[id].completed
  }

  /** Some thread has passed the journal's start record for `id` and not yet called the executor. */
  predicate InFlight(w: World, id: string) {
    exists t :: t in w.threads && (w.threads[t].Journaled? || w.threads[t].Taken?) && w.threads[t].record.binding.id == id
  }

  lemma DoneStep(h: Digests, w: World, s: Step, id: string)
    requires Done(w, id) && !InFlight(w, id) && Do(h, w, s).Some?
    ensures var w' := Do(h, w, s).value; Done(w', id) && !InFlight(w', id) && w'.calls[id] == w.calls[id]
  {
  }

  lemma {:induction false} DoneForever(h: Digests, w: World, schedule: seq<Step>, id: string)
    requires Done(w, id) && !InFlight(w, id) && Exec(h, w, schedule).Some?
    ensures var w' := Exec(h, w, schedule).value; Done(w', id) && !InFlight(w', id) && w'.calls[id] == w.calls[id]
  {
    if schedule != [] {
      DoneForever(h, w, schedule[..|schedule| - 1], id);
      DoneStep(h, Exec(h, w, schedule[..|schedule| - 1]).value, schedule[|schedule| - 1], id);
    }
  }

  ghost predicate CallsAgain(h: Digests, w: World, schedule: seq<Step>, id: string) {
    Exec(h, w, schedule).Some? && Exec(h, w, schedule).value.calls[id] > w.calls[id]
  }

  lemma ExecAppends(h: Digests, w: World, schedule: seq<Step>, s: Step)
    ensures Exec(h, w, schedule + [s]) ==
            (if Exec(h, w, schedule).None? then None else Do(h, Exec(h, w, schedule).value, s))
  {
    assert (schedule + [s])[..|schedule|] == schedule;
  }

  /** A thread that holds a consumed revalidation can call at once. */
  lemma HolderCalls(h: Digests, w: World, before: seq<Step>, w': World, t: Tid, id: string)
    requires Exec(h, w, before) == Some(w') && w'.calls == w.calls
    requires At(w', t).Taken? && At(w', t).record.binding.id == id
    ensures CallsAgain(h, w, before + [CallExecutor(t)], id)
  {
    ExecAppends(h, w, before, CallExecutor(t));
  }

  /** A thread past the start record can call after one more revalidation at the revision it saw. */
  lemma JournaledCalls(h: Digests, w: World, t: Tid, id: string)
    requires At(w, t).Journaled? && At(w, t).record.binding.id == id
    ensures exists schedule :: CallsAgain(h, w, schedule, id)
  {
    var again := Revalidate(At(w, t).record.(state := Revalidating, revision := At(w, t).seen));
    var w1 := Do(h, w, again).value;
    var w2 := Do(h, w1, Take(t)).value;
    ExecAppends(h, w, [], again);
    ExecAppends(h, w, [] + [again], Take(t));
    HolderCalls(h, w, [] + [again] + [Take(t)], w2, t, id);
  }

  /**
   * Once an admission is recorded as completed, a further executor call for it is possible
   * exactly when another execution of it is in flight.
   */
  lemma CompletionIsFinalUnlessInFlight(h: Digests, w: World, id: string)
    requires Done(w, id)
    ensures (exists schedule :: CallsAgain(h, w, schedule, id)) <==> InFlight(w, id)
  {
    if InFlight(w, id) {
      var t :| t in w.threads && (w.threads[t].Journaled? || w.threads[t].Taken?) && w.threads[t].record.binding.id == id;
      if w.threads[t].Taken? {
        HolderCalls(h, w, [], w, t, id);
      } else {
        JournaledCalls(h, w, t, id);
      }
    } else {
      forall schedule ensures !CallsAgain(h, w, schedule, id) {
        if Exec(h, w, schedule).Some? { DoneForever(h, w, schedule, id); }
      }
    }
  }

  /** At no moment are two threads inside `execute` for `id`. */
  ghost predicate OneInside(w: World, id: string) {
    forall t, u :: Inside(w, t, id) && Inside(w, u, id) ==> t == u
  }

  predicate Inside(w: World, t: Tid, id: string) {
    t in w.threads && w.threads[t] != Free && w.threads[t].record.binding.id == id
  }

  ghost predicate NeverOverlaps(h: Digests, schedule: seq<Step>, id: string) {
    forall n :: 0 <= n <= |schedule| && Exec(h, Init, schedule[..n]).Some? ==> OneInside(Exec(h, Init, schedule[..n]).value, id)
  }

  lemma BecomesDone(h: Digests, w: World, s: Step, id: string)
    requires Do(h, w, s).Some? && !Done(w, id) && Done(Do(h, w, s).value, id) && OneInside(w, id)
    ensures !InFlight(Do(h, w, s).value, id)
  {
    assert s.RecordCompletion? && Inside(w, s.t, id);
    var w' := Do(h, w, s).value;
    forall u | u in w'.threads && u != s.t && w'.threads[u] != Free ensures w'.threads[u].record.binding.id != id {
      assert w'.threads[u] == w.threads[u];
      assert !Inside(w, u, id);
    }
  }

  lemma {:induction false} NoOverlapNoFlight(h: Digests, schedule: seq<Step>, id: string)
    requires Exec(h, Init, schedule).Some? && NeverOverlaps(h, schedule, id) && Done(Exec(h, Init, schedule).value, id)
    ensures !InFlight(Exec(h, Init, schedule).value, id)
  {
    if schedule != [] {
      var n := |schedule| - 1;
      var w := Exec(h, Init, schedule[..n]).value;
      assert forall m :: 0 <= m <= n ==> schedule[..n][..m] == schedule[..m];
      if Done(w, id) {
        NoOverlapNoFlight(h, schedule[..n], id);
        DoneStep(h, w, schedule[n], id);
      } else {
        assert schedule[..n][..n] == schedule[..n] && OneInside(w, id);
        BecomesDone(h, w, schedule[n], id);
      }
    }
  }

  /** With executions of an admission that never overlap, no executor call for it follows its completion. */
  lemma CompletionFinalWithoutOverlap(h: Digests, schedule: seq<Step>, more: seq<Step>, id: string)
    requires Exec(h, Init, schedule).Some? && NeverOverlaps(h, schedule, id) && Done(Exec(h, Init, schedule).value, id)
    requires Exec(h, Exec(h, Init, schedule).value, more).Some?
    ensures Exec(h, Exec(h, Init, schedule).value, more).value.calls[id] == Exec(h, Init, schedule).value.calls[id]
  {
    NoOverlapNoFlight(h, schedule, id);
    DoneForever(h, Exec(h, Init, schedule).value, more, id);
  }

  // ---------------------------------------------------------------- a schedule that breaks it

  function Ran(b: Binding): Record { Record(b, Executing, 0, 1, 3) }

  /** Two executions of one admission, both past the start record. */
  function BothJournaled(h: Digests, b: Binding): World {
    World(map[b.id := 1], map[b.id := Entry(3, h.ofBinding(b), h.ofOperation("op"), false)],
          map[0 := Journaled(Ran(b), "op", 1), 1 := Journaled(Ran(b), "op", 1)], multiset{b.id}, multiset{}, {})
  }

  lemma ReachBothJournaled(h: Digests, b: Binding) returns (schedule: seq<Step>)
    ensures Exec(h, Init, schedule) == Some(BothJournaled(h, b))
  {
    var grant := Revalidate(Record(b, Revalidating, 0, 1, 1));
    var w1 := Do(h, Init, grant).value;
    var w2 := Do(h, w1, Check(0, Ran(b), "op")).value;
    var w3 := Do(h, w2, Check(1, Ran(b), "op")).value;
    var w4 := Do(h, w3, RecordStart(0, false)).value;
    var w5 := Do(h, w4, RecordStart(1, false)).value;
    assert w1 == World(map[b.id := 1], map[], map[], multiset{b.id}, multiset{}, {});
    assert w3.threads == map[0 := Checked(Ran(b), "op", 1), 1 := Checked(Ran(b), "op", 1)];
    assert w5 == BothJournaled(h, b);
    schedule := [];
    ExecAppends(h, Init, schedule, grant);
    schedule := schedule + [grant];
    ExecAppends(h, Init, schedule, Check(0, Ran(b), "op"));
    schedule := schedule + [Check(0, Ran(b), "op")];
    ExecAppends(h, Init, schedule, Check(1, Ran(b), "op"));
    schedule := schedule + [Check(1, Ran(b), "op")];
    ExecAppends(h, Init, schedule, RecordStart(0, false));
    schedule := schedule + [RecordStart(0, false)];
    ExecAppends(h, Init, schedule, RecordStart(1, false));
    schedule := schedule + [RecordStart(1, false)];
  }

  /** The same two executions once the first has returned and is recorded complete. */
  function FirstCompleted(h: Digests, b: Binding): World {
    World(map[], map[b.id := Entry(3, h.ofBinding(b), h.ofOperation("op"), true)],
          map[0 := Free, 1 := Journaled(Ran(b), "op", 1)], multiset{b.id}, multiset{b.id},
          {(b.id, 3, h.ofBinding(b))})
  }

  /** The first execution at `pc`, the second waiting past its start record. */
  function Racing(h: Digests, b: Binding, pc: Pc, calls: multiset<string>, answered: set<(string, int, string)>): World {
    World(map[], map[b.id := Entry(3, h.ofBinding(b), h.ofOperation("op"), false)],
          map[0 := pc, 1 := Journaled(Ran(b), "op", 1)], multiset{b.id}, calls, answered)
  }

  lemma Rethreaded(pc: Pc, pc': Pc, other: Pc)
    ensures map[0 := pc, 1 := other][0 := pc'] == map[0 := pc', 1 := other]
  {
  }

  lemma TakeAndCall(h: Digests, b: Binding)
    ensures Do(h, BothJournaled(h, b), Take(0)) == Some(Racing(h, b, Taken(Ran(b), "op"), multiset{}, {}))
    ensures Do(h, Racing(h, b, Taken(Ran(b), "op"), multiset{}, {}), CallExecutor(0)) ==
            Some(Racing(h, b, Calling(Ran(b), "op"), multiset{b.id}, {}))
  {
    var other := Journaled(Ran(b), "op", 1);
    Rethreaded(other, Taken(Ran(b), "op"), other);
    Rethreaded(Taken(Ran(b), "op"), Calling(Ran(b), "op"), other);
    assert (map[b.id := 1] - {b.id}) == map[];
    assert multiset{} + multiset{b.id} == multiset{b.id};
  }

  lemma ReturnAndComplete(h: Digests, b: Binding)
    ensures var answered := {(b.id, 3, h.ofBinding(b))};
            Do(h, Racing(h, b, Calling(Ran(b), "op"), multiset{b.id}, {}), ExecutorReturns(0)) ==
            Some(Racing(h, b, Returned(Ran(b), "op"), multiset{b.id}, answered))
            && Do(h, Racing(h, b, Returned(Ran(b), "op"), multiset{b.id}, answered), RecordCompletion(0)) ==
               Some(FirstCompleted(h, b))
  {
    var other := Journaled(Ran(b), "op", 1);
    Rethreaded(Calling(Ran(b), "op"), Returned(Ran(b), "op"), other);
    Rethreaded(Returned(Ran(b), "op"), Free, other);
    var answered := {(b.id, 3, h.ofBinding(b))};
    assert {} + answered == answered;
    var w := Racing(h, b, Returned(Ran(b), "op"), multiset{b.id}, answered);
    assert Completed(w.journal, h, Ran(b), "op").value == FirstCompleted(h, b).journal;
  }

  lemma ReachFirstCompleted(h: Digests, b: Binding) returns (schedule: seq<Step>)
    ensures Exec(h, Init, schedule) == Some(FirstCompleted(h, b))
  {
    TakeAndCall(h, b);
    ReturnAndComplete(h, b);
    schedule := ReachBothJournaled(h, b);
    hide Do;
    hide Exec;
    ExecAppends(h, Init, schedule, Take(0));
    schedule := schedule + [Take(0)];
    ExecAppends(h, Init, schedule, CallExecutor(0));
    schedule := schedule + [CallExecutor(0)];
    ExecAppends(h, Init, schedule, ExecutorReturns(0));
    schedule := schedule + [ExecutorReturns(0)];
    ExecAppends(h, Init, schedule, RecordCompletion(0));
    schedule := schedule + [RecordCompletion(0)];
  }

  /** Overlapping executions reach a completed admission with another call still possible. */
  lemma OverlapCallsAfterCompletion(h: Digests, b: Binding)
    ensures exists schedule, more ::
              Exec(h, Init, schedule).Some? && Done(Exec(h, Init, schedule).value, b.id)
              && CallsAgain(h, Exec(h, Init, schedule).value, more, b.id)
  {
    var schedule := ReachFirstCompleted(h, b);
    JournaledCalls(h, FirstCompleted(h, b), 1, b.id);
  }
}
