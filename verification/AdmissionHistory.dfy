/** What whole runs of the admission store guarantee about one stored record. */
module AdmissionHistory {
  import opened Core
  import opened Admission

  /** The clock reading a call works with. */
  function NowOf(op: Op): int {
    match op
    case DoReserve(_, now) => now
    case DoTransition(_, _, _, now) => now
    case DoExpire(now) => now
  }

  /** Records are never removed or reordered, and each takes at most one step. */
  predicate Follows(rs: seq<Record>, rs': seq<Record>, now: int) {
    |rs| <= |rs'| && forall k :: 0 <= k < |rs| ==> OneStep(rs[k], rs'[k], now)
  }

  lemma StepFollows(backend: Backend, rs: seq<Record>, c: Capacity, op: Op)
    ensures Follows(rs, StepOf(backend, rs, c, op).records, NowOf(op))
  {
    match op
    case DoReserve(r, now) => ExpireFollows(rs, 0, [], now);
    case DoTransition(id, target, expected, now) =>
    case DoExpire(now) => ExpireFollows(rs, 0, [], now);
  }

  /** The store after the first `n` calls. */
  function At(backend: Backend, c: Capacity, ops: seq<Op>, n: nat): seq<Record>
    requires n <= |ops|
  {
    Run(backend, c, ops[..n])
  }

  lemma NextFollows(backend: Backend, c: Capacity, ops: seq<Op>, n: nat)
    requires n < |ops|
    ensures Follows(At(backend, c, ops, n), At(backend, c, ops, n + 1), NowOf(ops[n]))
    ensures At(backend, c, ops, n + 1) == StepOf(backend, At(backend, c, ops, n), c, ops[n]).records
  {
    assert ops[..n + 1][..n] == ops[..n];
    StepFollows(backend, At(backend, c, ops, n), c, ops[n]);
  }

  /** A record that enters the store is newly reserved, one revision above the planned one. */
  lemma EntersReserved(backend: Backend, c: Capacity, ops: seq<Op>, n: nat, k: nat)
    requires n < |ops| && |At(backend, c, ops, n)| <= k < |At(backend, c, ops, n + 1)|
    ensures ops[n].DoReserve? && k == |At(backend, c, ops, n)|
    ensures At(backend, c, ops, n + 1)[k] == ops[n].record.(state := Reserved, revision := ops[n].record.revision + 1)
  {
    NextFollows(backend, c, ops, n);
    ExpireFollows(At(backend, c, ops, n), 0, [], NowOf(ops[n]));
  }

  /** Position, binding and lifetime of a record never change, and its revision never falls. */
  lemma {:induction false} StaysStored(backend: Backend, c: Capacity, ops: seq<Op>, m: nat, n: nat, k: nat)
    requires m <= n <= |ops| && k < |At(backend, c, ops, m)|
    ensures k < |At(backend, c, ops, n)|
    ensures var r, r' := At(backend, c, ops, m)[k], At(backend, c, ops, n)[k];
            r'.binding == r.binding && r'.created == r.created && r'.expires == r.expires
            && r.revision <= r'.revision && (r.revision == r'.revision ==> r' == r)
    decreases n
  {
    if m < n {
      StaysStored(backend, c, ops, m, n - 1, k);
      NextFollows(backend, c, ops, n - 1);
    }
  }

  ghost predicate Succeeds(backend: Backend, c: Capacity, ops: seq<Op>, n: nat) {
    n < |ops| && ops[n].DoTransition? && StepOf(backend, At(backend, c, ops, n), c, ops[n]).result.Ok?
  }

  /** No two successful transitions of one admission were given the same expected revision. */
  lemma RevisionsSpentOnce(backend: Backend, c: Capacity, ops: seq<Op>, m: nat, n: nat)
    requires m < n && Succeeds(backend, c, ops, m) && Succeeds(backend, c, ops, n) && ops[m].id == ops[n].id
    ensures ops[m].expected < ops[n].expected
  {
    NextFollows(backend, c, ops, m);
    RunKeeps(backend, c, ops[..n]);
    var k, l := IndexOf(At(backend, c, ops, m), ops[m].id), IndexOf(At(backend, c, ops, n), ops[n].id);
    StaysStored(backend, c, ops, m, m + 1, k);
    StaysStored(backend, c, ops, m + 1, n, k);
    assert k == l;
  }

  /** EXECUTING is only ever entered strictly before the record's expiry. */
  lemma ExecutesBeforeExpiry(backend: Backend, c: Capacity, ops: seq<Op>, n: nat, k: nat)
    requires n < |ops| && k < |At(backend, c, ops, n)| && At(backend, c, ops, n)[k].state != Executing
    requires VisitedAt(backend, c, ops, n + 1, k, Executing)
    ensures NowOf(ops[n]) < At(backend, c, ops, n)[k].expires
  {
    NextFollows(backend, c, ops, n);
  }

  // ---------------------------------------------------------------- the way to FINALIZED

  /** The record at `k` was in state `s` after the first `m` calls. */
  ghost predicate VisitedAt(backend: Backend, c: Capacity, ops: seq<Op>, m: nat, k: nat, s: State) {
    m <= |ops| && k < |At(backend, c, ops, m)| && At(backend, c, ops, m)[k].state == s
  }

  /** The states of the successful path, in order. */
  const Road: seq<State> := [Reserved, Revalidating, Admitted, Executing, Finalized]

  /** How far along the road a record in state `s` has necessarily come. */
  function Progress(s: State): nat {
    match s
    case Planned => 0
    case Reserved => 1
    case Revalidating => 2
    case Admitted => 3
    case Executing => 4
    case Paused => 4
    case RecoveredAfterCrash => 4
    case Finalized => 5
    case _ => 0
  }

  /** Strictly increasing moments at which the record was in the first `p` states of the road. */
  ghost predicate Walked(backend: Backend, c: Capacity, ops: seq<Op>, n: nat, k: nat, p: nat, when: seq<nat>) {
    p <= |Road| && |when| == p
    && (forall i :: 0 <= i < p ==> VisitedAt(backend, c, ops, when[i], k, Road[i]) && when[i] <= n)
    && (forall i, j :: 0 <= i < j < p ==> when[i] < when[j])
  }

  lemma ProgressStep(r: Record, r': Record, now: int)
    requires OneStep(r, r', now)
    ensures Progress(r'.state) <= Progress(r.state)
            || (Progress(r'.state) == Progress(r.state) + 1 && Road[Progress(r.state)] == r'.state)
            || r.state == Planned
    ensures r.state != Planned ==> r'.state != Planned
  {
  }

  lemma {:induction false} WalkedSoFar(backend: Backend, c: Capacity, ops: seq<Op>, n: nat, k: nat) returns (when: seq<nat>)
    requires n <= |ops| && k < |At(backend, c, ops, n)|
    ensures At(backend, c, ops, n)[k].state != Planned
    ensures Walked(backend, c, ops, n, k, Progress(At(backend, c, ops, n)[k].state), when)
    decreases n
  {
    if k < (if n == 0 then 0 else |At(backend, c, ops, n - 1)|) {
      var before := WalkedSoFar(backend, c, ops, n - 1, k);
      NextFollows(backend, c, ops, n - 1);
      var r, r' := At(backend, c, ops, n - 1)[k], At(backend, c, ops, n)[k];
      ProgressStep(r, r', NowOf(ops[n - 1]));
      if Progress(r'.state) <= Progress(r.state) {
        when := before[..Progress(r'.state)];
      } else {
        assert VisitedAt(backend, c, ops, n, k, r'.state);
        when := before + [n];
      }
    } else {
      EntersReserved(backend, c, ops, n - 1, k);
      assert VisitedAt(backend, c, ops, n, k, Reserved);
      when := [n];
    }
  }

  /** FINALIZED is reached only after RESERVED, REVALIDATING, ADMITTED and EXECUTING, in that order. */
  lemma FinalizedWalkedTheRoad(backend: Backend, c: Capacity, ops: seq<Op>, n: nat, k: nat)
    requires n <= |ops| && k < |At(backend, c, ops, n)| && At(backend, c, ops, n)[k].state == Finalized
    ensures exists when :: Walked(backend, c, ops, n, k, |Road|, when)
  {
    var when := WalkedSoFar(backend, c, ops, n, k);
  }

  // ---------------------------------------------------------------- bounded life

  /** The longest remaining way of a record that never resumes from PAUSED. */
  function Rank(s: State): nat {
    match s
    case Planned => 7
    case Reserved => 6
    case Revalidating => 5
    case Admitted => 4
    case Executing => 3
    case Paused => 2
    case ExecutionFailed => 2
    case RecoveredAfterCrash => 1
    case Conflict => 1
    case Expired => 1
    case Denied => 1
    case Cancelled => 1
    case Compensating => 1
    case _ => 0
  }

  /** How often the record resumed from PAUSED in the first `n` calls. */
  ghost function Resumes(backend: Backend, c: Capacity, ops: seq<Op>, n: nat, k: nat): nat
    requires n <= |ops|
  {
    if n == 0 then 0
    else
      Resumes(backend, c, ops, n - 1, k)
      + if VisitedAt(backend, c, ops, n - 1, k, Paused) && VisitedAt(backend, c, ops, n, k, Executing) then 1 else 0
  }

  lemma RankStep(r: Record, r': Record, now: int)
    requires OneStep(r, r', now)
    ensures r'.revision + Rank(r'.state) <= r.revision + Rank(r.state)
            + (if r.state == Paused && r'.state == Executing then 2 else 0)
  {
  }

  /** Revision plus remaining way: what only a resumption can raise. */
  ghost function Spent(backend: Backend, c: Capacity, ops: seq<Op>, n: nat, k: nat): int
    requires n <= |ops| && k < |At(backend, c, ops, n)|
  {
    At(backend, c, ops, n)[k].revision + Rank(At(backend, c, ops, n)[k].state)
  }

  lemma SpentStep(backend: Backend, c: Capacity, ops: seq<Op>, n: nat, k: nat)
    requires n < |ops| && k < |At(backend, c, ops, n)|
    ensures k < |At(backend, c, ops, n + 1)|
    ensures Spent(backend, c, ops, n + 1, k) <= Spent(backend, c, ops, n, k)
            + 2 * (Resumes(backend, c, ops, n + 1, k) - Resumes(backend, c, ops, n, k))
  {
    hide At;
    NextFollows(backend, c, ops, n);
    var r, r' := At(backend, c, ops, n)[k], At(backend, c, ops, n + 1)[k];
    RankStep(r, r', NowOf(ops[n]));
  }

  /** A record changes at most six times plus twice per resumption: only pausing can make its life unbounded. */
  lemma {:induction false} BoundedLife(backend: Backend, c: Capacity, ops: seq<Op>, m: nat, n: nat, k: nat)
    requires m <= n <= |ops| && k < |At(backend, c, ops, m)|
    ensures k < |At(backend, c, ops, n)|
    ensures At(backend, c, ops, n)[k].revision + Rank(At(backend, c, ops, n)[k].state)
            <= At(backend, c, ops, m)[k].revision + Rank(At(backend, c, ops, m)[k].state)
               + 2 * (Resumes(backend, c, ops, n, k) - Resumes(backend, c, ops, m, k))
    decreases n
  {
    hide Rank, At;
    if m < n {
      BoundedLife(backend, c, ops, m, n - 1, k);
      SpentStep(backend, c, ops, n - 1, k);
    }
  }
}
