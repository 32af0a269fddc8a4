/** What each change does to one record: exactly when the result is readable, and what never changes. */
module OperationsRecords {
  import opened Core
  import opened Operations

  // ---- reason codes ----

  lemma {:induction false} DedupSize(codes: seq<string>)
    ensures |Dedup(codes)| == |set x | x in codes|
    ensures forall x :: x in Dedup(codes) <==> x in codes
  {
    var all := set x | x in codes;
    if codes == [] {
      assert all == {};
    } else {
      var n := |codes| - 1;
      DedupSize(codes[..n]);
      assert codes == codes[..n] + [codes[n]];
      var front := set x | x in codes[..n];
      assert all == front + {codes[n]};
      if codes[n] in codes[..n] {
        assert all == front;
      }
    }
  }

  lemma {:induction false} CodesSubset(steps: seq<Step>)
    ensures forall x :: x in Codes(steps, true) ==> x in Codes(steps, false)
  {
    if steps != [] {
      CodesSubset(steps[..|steps| - 1]);
    }
  }

  /** Failed steps have no more distinct codes than all steps. */
  lemma BrokenFewer(steps: seq<Step>)
    ensures |Dedup(Codes(steps, true))| <= |StepCodes(steps)|
  {
    DedupSize(Codes(steps, true));
    DedupSize(Codes(steps, false));
    CodesSubset(steps);
    SubsetSize(set x | x in Codes(steps, true), set x | x in Codes(steps, false));
  }

  lemma {:induction false} CodesAtMost(steps: seq<Step>, broken: bool)
    ensures |Codes(steps, broken)| <= |steps|
  {
    if steps != [] {
      CodesAtMost(steps[..|steps| - 1], broken);
    }
  }

  lemma {:induction false} DedupAtMost(codes: seq<string>)
    ensures |Dedup(codes)| <= |codes|
  {
    if codes != [] {
      DedupAtMost(codes[..|codes| - 1]);
    }
  }

  // ---- reader acceptance, exactly ----

  /** What the store does not check before it writes. */
  predicate Fits(r: Record, c: Change) {
    match c
    case RecordStep(name, succeeded, code) =>
      var i := StepIndex(r.steps, name);
      i.Some? ==> |StepCodes(r.steps[i.value := Recorded(r.steps[i.value], succeeded, code)])| <= MAX_CODES
    case Finish(state, _, codes) => |FinalCodes(r, state, codes)| <= MAX_CODES
    case Resume(_) => r.resulting.None?
    case _ => true
  }

  lemma SameNames(steps: seq<Step>, i: nat, s: Step)
    requires i < |steps| && s.name == steps[i].name
    ensures Names(steps[i := s]) == Names(steps)
  {
  }

  lemma RecordStepReadable(env: Env, r: Record, name: string, succeeded: bool, code: Option<string>)
    requires RecordOk(env, r) && DoRecordStep(r, name, succeeded, code).Ok?
    ensures RecordOk(env, DoRecordStep(r, name, succeeded, code).value) <==> Fits(r, RecordStep(name, succeeded, code))
  {
    hide Dedup, Codes;
    var i := StepIndex(r.steps, name).value;
    SameNames(r.steps, i, Recorded(r.steps[i], succeeded, code));
  }

  lemma ResumeReadable(env: Env, r: Record, generation: int, now: int, me: Owner)
    requires RecordOk(env, r) && DoResume(r, generation, now, me).Ok? && me.Process?
    ensures RecordOk(env, DoResume(r, generation, now, me).value) <==> r.resulting.None?
  {
    hide Dedup, Codes;
    assert |r.steps| == |Names(r.steps)| == 1;
    CodesAtMost(r.steps, false);
    DedupAtMost(Codes(r.steps, false));
  }

  /** For every change, a written record is readable exactly under the condition the store leaves unchecked. */
  lemma MutateReadable(env: Env, r: Record, c: Change, now: int, me: Owner)
    requires RecordOk(env, r) && Mutate(r, c, now, me).Ok? && me.Process?
    ensures RecordOk(env, Mutate(r, c, now, me).value) <==> Fits(r, c)
  {
    match c
    case Begin(generation) =>
    case RecordStep(name, succeeded, code) => RecordStepReadable(env, r, name, succeeded, code);
    case Finish(state, resulting, codes) => { hide Dedup, Codes, Distinct; }
    case Resume(generation) => ResumeReadable(env, r, generation, now, me);
    case Expire(generation, digest) => ExpireReadable(env, r, generation, digest, now);
  }

  lemma ExpireReadable(env: Env, r: Record, generation: int, digest: string, now: int)
    requires RecordOk(env, r) && DoExpire(r, generation, digest, now).Ok?
    ensures RecordOk(env, DoExpire(r, generation, digest, now).value)
  {
    var gone := DoExpire(r, generation, digest, now).value;
    if r.steps == [Step(ProbeStep, NotAttempted, None)] {
      assert Names(gone.steps) == [ProbeStep];
    }
  }

  // ---- what a record keeps ----

  /** Identity, plan and lifetime stay; an attempted step stays as recorded; three end states are final. */
  predicate Evolves(r: Record, r': Record) {
    && r'.id == r.id && r'.kind == r.kind && r'.expected == r.expected && r'.digest == r.digest
    && r'.created == r.created && r'.expires == r.expires && r'.key == r.key
    && |r'.steps| == |r.steps|
    && (forall i :: 0 <= i < |r.steps| ==> r'.steps[i].name == r.steps[i].name)
    && (forall i :: 0 <= i < |r.steps| && r.steps[i].state != NotAttempted ==> r'.steps[i] == r.steps[i])
    && (r.state in {Succeeded, Failed, Blocked} ==> r' == r)
  }

  lemma EvolvesTrans(a: Record, b: Record, c: Record)
    requires Evolves(a, b) && Evolves(b, c)
    ensures Evolves(a, c)
  {
  }

  lemma MutateEvolves(r: Record, c: Change, now: int, me: Owner)
    requires Mutate(r, c, now, me).Ok?
    ensures Evolves(r, Mutate(r, c, now, me).value)
  {
    hide StepCodes, FinalCodes, StateOk;
  }

  lemma ReconcileEvolves(r: Record, dead: set<Owner>)
    ensures Evolves(r, ReconcileOne(r, dead))
  {
  }

  // ---- the invariant that keeps the document readable ----

  /** Readable, with few enough codes on its steps, and reconciled only without a resulting generation. */
  predicate Kept(env: Env, r: Record) {
    && RecordOk(env, r)
    && |StepCodes(r.steps)| <= MAX_CODES
    && (r.state == Partial && r.codes == Reconciled ==> r.resulting.None?)
  }

  /** Side conditions on the caller: at most 32 distinct codes, and no made-up reconciliation. */
  predicate Careful(r: Record, c: Change) {
    match c
    case RecordStep(name, succeeded, code) =>
      var i := StepIndex(r.steps, name);
      i.Some? ==> |StepCodes(r.steps[i.value := Recorded(r.steps[i.value], succeeded, code)])| <= MAX_CODES
    case Finish(state, resulting, codes) => !(state == Partial && resulting.Some? && FinalCodes(r, state, codes) == Reconciled)
    case _ => true
  }

  lemma MutateKeeps(env: Env, r: Record, c: Change, now: int, me: Owner)
    requires Kept(env, r) && Careful(r, c) && Mutate(r, c, now, me).Ok? && me.Process?
    ensures Kept(env, Mutate(r, c, now, me).value)
  {
    hide RecordOk, StateOk, Dedup, Codes;
    var r' := Mutate(r, c, now, me).value;
    BrokenFewer(r.steps);
    if c.Resume? {
      ResumeBare(r, c, now, me);
    }
    MutateReadable(env, r, c, now, me);
    if c.Expire? {
      ExpireCodes(r, c.generation, c.digest, now);
      CodesAtMost(r'.steps, false);
      DedupAtMost(Codes(r'.steps, false));
    }
  }

  lemma ResumeBare(r: Record, c: Change, now: int, me: Owner)
    requires Mutate(r, c, now, me).Ok? && c.Resume? && (r.state == Partial && r.codes == Reconciled ==> r.resulting.None?)
    ensures r.resulting.None?
  {
  }

  lemma ExpireCodes(r: Record, generation: int, digest: string, now: int)
    requires DoExpire(r, generation, digest, now).Ok?
    ensures var r' := DoExpire(r, generation, digest, now).value; r' == r || (r'.state == Failed && |r'.steps| == 1)
  {
  }

  // ---- two ways to write what cannot be read ----

  function Letters(n: nat): string {
    seq(n + 1, _ => 'a')
  }

  function Coded(n: nat): seq<Step> {
    seq(n, i requires 0 <= i < n => Step(Letters(i), Done, Some(Letters(i))))
  }

  lemma {:induction false} CodedCodes(n: nat)
    ensures StepCodes(Coded(n)) == seq(n, i requires 0 <= i < n => Letters(i))
  {
    if n > 0 {
      CodedCodes(n - 1);
      assert Coded(n)[..n - 1] == Coded(n - 1);
      var before := Codes(Coded(n - 1), false);
      assert Codes(Coded(n), false) == before + [Letters(n - 1)];
      DedupSize(before);
      assert (before + [Letters(n - 1)])[..|before|] == before;
      forall x | x in before
        ensures x != Letters(n - 1)
      {
        assert x in StepCodes(Coded(n - 1));
      }
    }
  }

  /** A running operation, as recorded step by step, with 32 distinct codes and one step to go. */
  function Full(env: Env, me: Owner): Record {
    var steps := Coded(32) + [Step(Letters(32), NotAttempted, None)];
    Record("op", "kind", Running, 0, None, env.digest("kind", 0, Names(steps)), 0, LIFETIME, "key", me, steps, StepCodes(steps))
  }

  const LastCode := RecordStep(Letters(32), true, Some(Letters(32)))

  lemma FullReadable(env: Env, me: Owner)
    requires me.Process?
    ensures RecordOk(env, Full(env, me))
    ensures StepIndex(Full(env, me).steps, Letters(32)) == Some(32)
  {
    var r := Full(env, me);
    assert r.steps[..32] == Coded(32);
    assert Codes(r.steps, false) == Codes(Coded(32), false);
    CodedCodes(32);
    forall i, j | 0 <= i < j < |r.steps|
      ensures r.steps[i].name != r.steps[j].name
    {
      assert |r.steps[i].name| == i + 1 && |r.steps[j].name| == j + 1;
    }
  }

  /** A thirty-third distinct code is written, and the record can no longer be read. */
  lemma ThirtyThirdCode(env: Env, me: Owner, now: int)
    requires me.Process?
    ensures var r := Full(env, me);
            RecordOk(env, r) && Mutate(r, LastCode, now, me).Ok? && !RecordOk(env, Mutate(r, LastCode, now, me).value)
  {
    var r := Full(env, me);
    FullReadable(env, me);
    hide IndexBy, RecordOk;
    assert r.steps[32 := Recorded(r.steps[32], true, Some(Letters(32)))] == Coded(33);
    CodedCodes(33);
    MutateReadable(env, r, LastCode, now, me);
  }

  /** A finish that claims a reconciliation and a generation lets a resume write an unreadable record. */
  lemma ClaimedReconciliation(env: Env, me: Owner)
    requires me.Process?
    ensures exists r, done, again ::
              RecordOk(env, r) && Mutate(r, Finish(Partial, Some(0), Reconciled), 0, me) == Ok(done) && RecordOk(env, done) &&
              Mutate(done, Resume(0), 0, me) == Ok(again) && !RecordOk(env, again)
  {
    var steps := [Step(ProbeStep, NotAttempted, None)];
    var r := Record("op", ProbeKind, Running, 0, None, env.digest(ProbeKind, 0, Names(steps)), 0, LIFETIME, "key", me, steps, []);
    var done := r.(state := Partial, resulting := Some(0), codes := Reconciled, owner := NoOwner);
    assert Names(steps) == [ProbeStep];
    assert RecordOk(env, r) && RecordOk(env, done);
    assert DoFinish(r, Partial, Some(0), Reconciled) == Ok(done);
    ResumeReadable(env, done, 0, 0, me);
  }
}
