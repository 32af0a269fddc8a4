/**
 * What precedes an executor call and what follows it: the call is for an executing admission at a later
 * revision than one that was revalidated, its start is in the journal before it is made, and what it
 * returned can always be recorded and stays evidence for good.
 */
module AdmissionRuntimeFences {
  import opened Core
  import opened Admission
  import opened CompletionJournal
  import opened AdmissionRuntime

  // ---- the journal ----

  /** The journal has this admission at this revision, with this binding and operation. */
  ghost predicate Names(j: map<string, Entry>, h: Digests, r: Record, operation: string) {
    && r.binding.id in j && j[r.binding.id].revision == r.revision
    && j[r.binding.id].binding == h.ofBinding(r.binding) && j[r.binding.id].operation == h.ofOperation(operation)
  }

  /** A start is accepted exactly for a new admission while there is room, or again for the very one that is open. */
  lemma StartExactly(j: map<string, Entry>, h: Digests, r: Record, operation: string)
    ensures Started(j, h, r, operation).Ok? <==>
            || (r.binding.id !in j && |j| < MAX_JOURNAL)
            || (Names(j, h, r, operation) && !j[r.binding.id].completed)
    ensures Started(j, h, r, operation).Ok? ==>
              var j' := Started(j, h, r, operation).value;
              && Names(j', h, r, operation) && !j'[r.binding.id].completed
              && forall id :: id != r.binding.id ==> (id in j' <==> id in j) && (id in j ==> j'[id] == j[id])
  {
  }

  /** A completion is accepted exactly for a start of the same admission, revision, binding and operation, and is then evidence. */
  lemma CompleteExactly(j: map<string, Entry>, h: Digests, r: Record, operation: string)
    ensures Completed(j, h, r, operation).Ok? <==> Names(j, h, r, operation)
    ensures Completed(j, h, r, operation).Ok? ==>
              var j' := Completed(j, h, r, operation).value;
              && Evidence(j', h, r) && Names(j', h, r, operation)
              && forall id :: id != r.binding.id ==> (id in j' <==> id in j) && (id in j ==> j'[id] == j[id])
  {
  }

  /** Entries stay, and change only by becoming complete. */
  ghost predicate Grows(j: map<string, Entry>, j': map<string, Entry>) {
    forall id :: id in j ==> id in j' && (j'[id] == j[id] || j'[id] == j[id].(completed := true))
  }

  lemma StepGrows(h: Digests, w: World, s: Step)
    requires Do(h, w, s).Some?
    ensures Grows(w.journal, Do(h, w, s).value.journal)
  {
  }

  // ---- what every program point knows ----

  /** The schedule so far revalidated the admission at this revision. */
  ghost predicate Granted(schedule: seq<Step>, id: string, revision: int) {
    exists k :: && 0 <= k < |schedule| && schedule[k].Revalidate? && schedule[k].admission.state == Revalidating
                && schedule[k].admission.binding.id == id && schedule[k].admission.revision == revision
  }

  /** An executing admission, revalidated at an earlier revision than it has. */
  ghost predicate Fenced(schedule: seq<Step>, r: Record) {
    r.state == Executing && exists revision :: revision < r.revision && Granted(schedule, r.binding.id, revision)
  }

  ghost predicate PcFenced(h: Digests, schedule: seq<Step>, j: map<string, Entry>, pc: Pc) {
    match pc
    case Free => true
    case Checked(r, operation, seen) => r.state == Executing && seen < r.revision && Granted(schedule, r.binding.id, seen)
    case Journaled(r, operation, seen) =>
      r.state == Executing && seen < r.revision && Granted(schedule, r.binding.id, seen) && Names(j, h, r, operation)
    case Taken(r, operation) => Fenced(schedule, r) && Names(j, h, r, operation)
    case Calling(r, operation) => Fenced(schedule, r) && Names(j, h, r, operation)
    case Returned(r, operation) => Fenced(schedule, r) && Names(j, h, r, operation)
  }

  ghost predicate Inv(h: Digests, schedule: seq<Step>, w: World) {
    && (forall id :: id in w.revalidated ==> Granted(schedule, id, w.revalidated[id]))
    && (forall t :: t in w.threads ==> PcFenced(h, schedule, w.journal, w.threads[t]))
  }

  lemma GrantsGrow(schedule: seq<Step>, s: Step)
    ensures forall id, revision :: Granted(schedule, id, revision) ==> Granted(schedule + [s], id, revision)
  {
    var all := schedule + [s];
    forall id, revision | Granted(schedule, id, revision) ensures Granted(all, id, revision) {
      var k :| && 0 <= k < |schedule| && schedule[k].Revalidate? && schedule[k].admission.state == Revalidating
               && schedule[k].admission.binding.id == id && schedule[k].admission.revision == revision;
      assert all[k] == schedule[k];
    }
  }

  lemma PcGrows(h: Digests, schedule: seq<Step>, s: Step, j: map<string, Entry>, j': map<string, Entry>, pc: Pc)
    requires PcFenced(h, schedule, j, pc) && Grows(j, j')
    ensures PcFenced(h, schedule + [s], j', pc)
  {
    GrantsGrow(schedule, s);
    hide Granted;
  }

  lemma OwnFenced(h: Digests, schedule: seq<Step>, w: World, s: Step)
    requires Inv(h, schedule, w) && Do(h, w, s).Some? && !s.Revalidate? && !s.Restart?
    ensures PcFenced(h, schedule, Do(h, w, s).value.journal, Do(h, w, s).value.threads[s.t])
  {
    hide Granted;
    assert PcFenced(h, schedule, w.journal, At(w, s.t));
  }

  lemma StepFenced(h: Digests, schedule: seq<Step>, w: World, s: Step)
    requires Inv(h, schedule, w) && Do(h, w, s).Some?
    ensures Inv(h, schedule + [s], Do(h, w, s).value)
  {
    var w' := Do(h, w, s).value;
    var all := schedule + [s];
    assert all[|schedule|] == s;
    assert s.Revalidate? ==> Granted(all, s.admission.binding.id, s.admission.revision);
    GrantsGrow(schedule, s);
    StepGrows(h, w, s);
    if !s.Revalidate? && !s.Restart? {
      OwnFenced(h, schedule, w, s);
    }
    hide Granted, PcFenced, Grows, Started, Completed;
    forall t | t in w'.threads ensures PcFenced(h, all, w'.journal, w'.threads[t]) {
      if !s.Revalidate? && t == s.t {
        SameGrows(w'.journal);
        PcGrows(h, schedule, s, w'.journal, w'.journal, w'.threads[t]);
      } else {
        PcGrows(h, schedule, s, w.journal, w'.journal, w.threads[t]);
      }
    }
  }

  lemma SameGrows(j: map<string, Entry>)
    ensures Grows(j, j)
  {
  }

  lemma {:induction false} RunFenced(h: Digests, schedule: seq<Step>)
    requires Exec(h, Init, schedule).Some?
    ensures Inv(h, schedule, Exec(h, Init, schedule).value)
  {
    hide Do;
    if schedule != [] {
      var n := |schedule| - 1;
      RunFenced(h, schedule[..n]);
      StepFenced(h, schedule[..n], Exec(h, Init, schedule[..n]).value, schedule[n]);
      assert schedule[..n] + [schedule[n]] == schedule;
    }
  }

  // ---- theorems ----

  /**
   * Whenever the executor is called, over every interleaving and restart, the admission is executing,
   * was revalidated at an earlier revision, and the journal already names it with its operation.
   */
  lemma CallsAreFenced(h: Digests, schedule: seq<Step>, t: Tid)
    requires Exec(h, Init, schedule).Some? && Do(h, Exec(h, Init, schedule).value, CallExecutor(t)).Some?
    ensures var w := Exec(h, Init, schedule).value;
            && At(w, t).Taken? && Fenced(schedule, At(w, t).record) && Names(w.journal, h, At(w, t).record, At(w, t).operation)
  {
    RunFenced(h, schedule);
  }

  /** What the executor returned can always be recorded: no other execution ever stands in the way, and it is then evidence. */
  lemma CompletionNeverConflicts(h: Digests, schedule: seq<Step>, t: Tid)
    requires Exec(h, Init, schedule).Some? && At(Exec(h, Init, schedule).value, t).Returned?
    ensures var w := Exec(h, Init, schedule).value;
            && Completed(w.journal, h, At(w, t).record, At(w, t).operation).Ok?
            && Do(h, w, RecordCompletion(t)).Some? && Evidence(Do(h, w, RecordCompletion(t)).value.journal, h, At(w, t).record)
  {
    RunFenced(h, schedule);
    var w := Exec(h, Init, schedule).value;
    CompleteExactly(w.journal, h, At(w, t).record, At(w, t).operation);
  }

  /** Evidence once given stays, whatever runs and restarts follow. */
  lemma {:induction false} EvidenceLasts(h: Digests, w: World, schedule: seq<Step>, r: Record)
    requires Exec(h, w, schedule).Some? && Evidence(w.journal, h, r)
    ensures Evidence(Exec(h, w, schedule).value.journal, h, r)
  {
    hide Do;
    if schedule != [] {
      var n := |schedule| - 1;
      EvidenceLasts(h, w, schedule[..n], r);
      StepGrows(h, Exec(h, w, schedule[..n]).value, schedule[n]);
    }
  }
}
