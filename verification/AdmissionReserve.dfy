/**
 * When `reserve` accepts, said over locations, counts and the records as they were stored: a
 * reservation is refused for a conflict exactly when a record that still stands at that moment
 * stands in its way.
 */
module AdmissionReserve {
  import opened Core
  import opened ScopePaths
  import opened Admission

  /** Still active once everything overdue has been expired; an executing record never expires. */
  ghost predicate Standing(r: Record, now: int) {
    r.state == Executing || (r.state in {Planned, Reserved, Revalidating, Admitted, Paused} && now < r.expires)
  }

  /** Waiting, and past its expiry time. */
  ghost predicate Lapsed(r: Record, now: int) {
    r.state in {Planned, Reserved, Revalidating, Admitted, Paused} && r.expires <= now
  }

  /** Both may touch one location of one repository, and at least one of them writes. */
  ghost predicate Clash(a: Binding, b: Binding) {
    && a.repo == b.repo && (a.scope.mode == Write || b.scope.mode == Write)
    && exists location :: InScope(a, location) && InScope(b, location)
  }

  ghost predicate AgentBusy(rs: seq<Record>, now: int, agent: string) {
    exists k :: 0 <= k < |rs| && Standing(rs[k], now) && rs[k].binding.resource.agent == agent
  }

  ghost predicate ScopeTaken(rs: seq<Record>, now: int, b: Binding) {
    exists k :: 0 <= k < |rs| && Standing(rs[k], now) && Clash(rs[k].binding, b)
  }

  /** Positions of the standing records of one account and budget. */
  ghost function OnAccount(rs: seq<Record>, now: int, account: string, budget: string): set<nat> {
    set k: nat | k < |rs| && Standing(rs[k], now) && rs[k].binding.resource.account == account
                 && rs[k].binding.resource.budget == budget
  }

  /** Those of them that use one model. */
  ghost function OnModel(rs: seq<Record>, now: int, account: string, budget: string, model: string): set<nat> {
    set k: nat | k in OnAccount(rs, now, account, budget) && rs[k].binding.resource.model == model
  }

  /** Some overdue record cannot be expired any more, having the last revision. */
  ghost predicate Stuck(rs: seq<Record>, now: int) {
    exists k :: 0 <= k < |rs| && Lapsed(rs[k], now) && rs[k].revision >= MAX_REVISION
  }

  ghost predicate Known(rs: seq<Record>, id: string) {
    exists k :: 0 <= k < |rs| && rs[k].binding.id == id
  }

  /** A scope conflict is exactly a shared location with a writer. */
  lemma ConflictIsClash(a: Binding, b: Binding)
    ensures ScopeConflict(a, b) <==> Clash(a, b)
  {
    if ScopeConflict(a, b) {
      var p, q :| p in a.scope.paths && q in b.scope.paths && Overlap(p, q);
      OverlapIsSharedLocation(p, q);
      var location :| Covers(p, location) && Covers(q, location);
      assert InScope(a, location) && InScope(b, location);
    }
    if Clash(a, b) {
      var location :| InScope(a, location) && InScope(b, location);
      var p :| p in a.scope.paths && Covers(p, location);
      var q :| q in b.scope.paths && Covers(q, location);
      OverlapIsSharedLocation(p, q);
    }
  }

  /** The positions counted by `Use`. */
  ghost function Drawing(rs: seq<Record>, key: Key): set<nat> {
    set k: nat | k < |rs| && Active(rs[k].state) && OnKey(rs[k].binding, key)
  }

  lemma DrawingAppend(rs: seq<Record>, r: Record, key: Key)
    ensures |Drawing(rs + [r], key)| == |Drawing(rs, key)| + if Active(r.state) && OnKey(r.binding, key) then 1 else 0
  {
    hide Active, OnKey;
    var counted := Active(r.state) && OnKey(r.binding, key);
    assert Drawing(rs + [r], key) == Drawing(rs, key) + if counted then {|rs|} else {};
  }

  lemma {:induction false} UseCounts(rs: seq<Record>, key: Key)
    ensures Use(rs, key) == |Drawing(rs, key)|
  {
    hide Active, OnKey;
    if rs == [] {
      assert Drawing(rs, key) == {};
    } else {
      var n := |rs| - 1;
      var rest, last := rs[..n], rs[n];
      UseCounts(rest, key);
      UseAppend(rest, last, key);
      DrawingAppend(rest, last, key);
      assert rest + [last] == rs;
    }
  }

  /** Whether expiry gets through, independently of where it stops. */
  lemma {:induction false} ReachesAll(rs: seq<Record>, i: nat, now: int)
    requires i <= |rs|
    ensures Reached(rs, i, now) == |rs| <==> forall k :: i <= k < |rs| && Lapsed(rs[k], now) ==> rs[k].revision < MAX_REVISION
    decreases |rs| - i
  {
    if i < |rs| {
      ReachesAll(rs, i + 1, now);
      assert Due(rs[i], now) <==> Lapsed(rs[i], now);
    }
  }

  /** The store after an expiry that got through: overdue records expired, all others as they were. */
  ghost predicate Swept(rs: seq<Record>, now: int, rs': seq<Record>) {
    && |rs'| == |rs|
    && forall k :: 0 <= k < |rs| ==>
         rs'[k] == if Lapsed(rs[k], now) then rs[k].(state := Expired, revision := rs[k].revision + 1) else rs[k]
  }

  lemma SweptActive(rs: seq<Record>, now: int, rs': seq<Record>, k: nat)
    requires Swept(rs, now, rs') && k < |rs|
    ensures rs'[k].binding == rs[k].binding
    ensures Active(rs'[k].state) <==> Standing(rs[k], now)
  {
  }

  lemma ExpirySweeps(rs: seq<Record>, now: int)
    ensures ExpireAll(rs, now).error == if Stuck(rs, now) then Some("invalid_admission_revision") else None
    ensures !Stuck(rs, now) ==> Swept(rs, now, ExpireAll(rs, now).records)
  {
    hide Reached, ExpireAll, GoneBetween;
    ExpireExactly(rs, now);
    ReachesAll(rs, 0, now);
  }

  lemma SweptUse(rs: seq<Record>, now: int, rs': seq<Record>, b: Binding)
    requires Swept(rs, now, rs')
    ensures Use(rs', AccountOf(b)) == |OnAccount(rs, now, b.resource.account, b.resource.budget)|
    ensures Use(rs', ModelOf(b)) == |OnModel(rs, now, b.resource.account, b.resource.budget, b.resource.model)|
  {
    hide Use, Swept, Standing, Active;
    UseCounts(rs', AccountOf(b));
    UseCounts(rs', ModelOf(b));
    assert |rs'| == |rs| by { SweptSize(rs, now, rs'); }
    forall k: nat | k < |rs| ensures rs'[k].binding == rs[k].binding && (Active(rs'[k].state) <==> Standing(rs[k], now)) {
      SweptActive(rs, now, rs', k);
    }
    assert Drawing(rs', AccountOf(b)) == OnAccount(rs, now, b.resource.account, b.resource.budget);
    assert Drawing(rs', ModelOf(b)) == OnModel(rs, now, b.resource.account, b.resource.budget, b.resource.model);
  }

  lemma SweptSize(rs: seq<Record>, now: int, rs': seq<Record>)
    requires Swept(rs, now, rs')
    ensures |rs'| == |rs|
  {
  }

  /** The conflict found after expiry, from the standing records. */
  lemma ConflictExactly(rs: seq<Record>, now: int, rs': seq<Record>, c: Capacity, b: Binding)
    requires Swept(rs, now, rs')
    ensures var x := b.resource;
            ReservationConflict(rs', c, b) ==
            if AgentBusy(rs, now, x.agent) then Some("agent_conflict")
            else if |OnAccount(rs, now, x.account, x.budget)| >= c.account then Some("account_capacity_conflict")
            else if |OnModel(rs, now, x.account, x.budget, x.model)| >= c.model then Some("account_model_capacity_conflict")
            else if ScopeTaken(rs, now, b) then Some("scope_conflict")
            else None
  {
    hide Use, Swept, Standing, Active, Clash, ScopeConflict, OnAccount, OnModel;
    SweptUse(rs, now, rs', b);
    SweptSize(rs, now, rs');
    forall k: nat | k < |rs|
      ensures rs'[k].binding == rs[k].binding && (Active(rs'[k].state) <==> Standing(rs[k], now))
      ensures ScopeConflict(rs'[k].binding, b) <==> Clash(rs[k].binding, b)
    {
      SweptActive(rs, now, rs', k);
      ConflictIsClash(rs[k].binding, b);
    }
  }

  /** The answer of a reservation, every refusal in its place, from the records as they were stored. */
  lemma ReserveAnswers(rs: seq<Record>, c: Capacity, r: Record, now: int)
    ensures var x := r.binding.resource;
            Reserve(rs, c, r, now).result ==
            if r.state != Planned then Err("record_must_be_planned")
            else if Stuck(rs, now) then Err("invalid_admission_revision")
            else if Known(rs, r.binding.id) then Err("duplicate_admission_id")
            else if AgentBusy(rs, now, x.agent) then Err("agent_conflict")
            else if |OnAccount(rs, now, x.account, x.budget)| >= c.account then Err("account_capacity_conflict")
            else if |OnModel(rs, now, x.account, x.budget, x.model)| >= c.model then Err("account_model_capacity_conflict")
            else if ScopeTaken(rs, now, r.binding) then Err("scope_conflict")
            else if r.expires <= now then Err("admission_expired")
            else if r.revision >= MAX_REVISION then Err("invalid_admission_revision")
            else Ok([r.(state := Reserved, revision := r.revision + 1)])
  {
    hide ReservationConflict, AgentBusy, OnAccount, OnModel, ScopeTaken, ExpireAll, Stuck;
    ExpirySweeps(rs, now);
    if !Stuck(rs, now) {
      var rs' := ExpireAll(rs, now).records;
      ConflictExactly(rs, now, rs', c, r.binding);
      assert Stored(rs', r.binding.id) <==> Known(rs, r.binding.id) by {
        if k :| 0 <= k < |rs'| && rs'[k].binding.id == r.binding.id {
          assert rs[k].binding.id == r.binding.id;
        }
        if k :| 0 <= k < |rs| && rs[k].binding.id == r.binding.id {
          assert rs'[k].binding.id == r.binding.id;
        }
      }
    }
  }

  /**
   * A planned, unexpired record with a new id is accepted if and only if no standing record has its
   * agent, the standing records leave room on its account and its model, and none of them shares a
   * location with it where one of the two writes.
   */
  lemma ReserveAccepts(rs: seq<Record>, c: Capacity, r: Record, now: int)
    requires r.state == Planned && now < r.expires && r.revision < MAX_REVISION && !Known(rs, r.binding.id)
    requires !Stuck(rs, now)
    ensures var x := r.binding.resource;
            Reserve(rs, c, r, now).result.Ok? <==>
            && (forall k :: 0 <= k < |rs| && Standing(rs[k], now) ==> rs[k].binding.resource.agent != x.agent)
            && |OnAccount(rs, now, x.account, x.budget)| < c.account
            && |OnModel(rs, now, x.account, x.budget, x.model)| < c.model
            && (forall k, location ::
                  && 0 <= k < |rs| && Standing(rs[k], now) && rs[k].binding.repo == r.binding.repo
                  && (rs[k].binding.scope.mode == Write || r.binding.scope.mode == Write)
                  && InScope(rs[k].binding, location)
                  ==> !InScope(r.binding, location))
  {
    hide Reserve, Standing, OnAccount, OnModel, Stuck;
    ReserveAnswers(rs, c, r, now);
  }

  /** What an accepted reservation leaves: the swept store with the record, reserved, at its end. */
  lemma ReserveWrites(rs: seq<Record>, c: Capacity, r: Record, now: int)
    requires Reserve(rs, c, r, now).result.Ok?
    ensures var after := Reserve(rs, c, r, now).records;
            && |after| == |rs| + 1 && Swept(rs, now, after[..|rs|])
            && after[|rs|] == r.(state := Reserved, revision := r.revision + 1)
  {
    hide ReservationConflict, ExpireAll, Swept;
    ExpirySweeps(rs, now);
    var rs' := ExpireAll(rs, now).records;
    SweptSize(rs, now, rs');
    assert Reserve(rs, c, r, now).records[..|rs|] == rs';
  }

  /** Readers never exclude each other: among standing readers only agents and capacity can refuse a reader. */
  lemma ReadersShare(rs: seq<Record>, c: Capacity, r: Record, now: int)
    requires r.binding.scope.mode == Read
    requires forall k :: 0 <= k < |rs| && Standing(rs[k], now) ==> rs[k].binding.scope.mode == Read
    ensures Reserve(rs, c, r, now).result != Err("scope_conflict")
  {
    hide Reserve, Standing, OnAccount, OnModel, Stuck;
    ReserveAnswers(rs, c, r, now);
  }

  // ---------------------------------------------------------------- the transition table by its targets

  /** From where a state is entered. */
  ghost function EnteredFrom(target: State): set<State> {
    match target
    case Planned => {}
    case Reserved => {Planned}
    case Revalidating => {Reserved}
    case Admitted => {Revalidating}
    case Executing => {Admitted, Paused}
    case Paused => {Executing}
    case Finalized => {Executing, RecoveredAfterCrash}
    case Conflict => {Reserved}
    case Expired => {Planned, Reserved, Revalidating, Admitted, Paused}
    case Cancelled => {Planned, Reserved, Revalidating, Admitted, Paused}
    case Denied => {Revalidating}
    case ExecutionFailed => {Admitted, Executing}
    case RecoveredAfterCrash => {Executing}
    case Compensating => {ExecutionFailed}
    case FailedFinal => {Compensating}
    case Compensated => {Conflict, Expired, Denied, Cancelled}
  }

  /** The table read backwards. */
  lemma TableByTarget(s: State, target: State)
    ensures target in Allowed(s) <==> s in EnteredFrom(target)
  {
  }

  /**
   * A transition is accepted exactly for the stored record of that id with the expected revision, along
   * the table, and, out of a waiting record past its expiry, only to EXPIRED.
   */
  lemma TransitionExactly(rs: seq<Record>, id: string, target: State, expected: int, now: int)
    requires UniqueIds(rs)
    ensures Transition(rs, id, target, expected, now).result.Ok? <==>
            exists k :: && 0 <= k < |rs| && rs[k].binding.id == id && rs[k].revision == expected
                        && 0 <= expected < MAX_REVISION && rs[k].state in EnteredFrom(target)
                        && (Lapsed(rs[k], now) ==> target == Expired)
    ensures forall k :: 0 <= k < |rs| && rs[k].binding.id == id && Transition(rs, id, target, expected, now).result.Ok? ==>
              Transition(rs, id, target, expected, now) ==
              Outcome(rs[k := rs[k].(state := target, revision := expected + 1)], Ok([rs[k].(state := target, revision := expected + 1)]))
    ensures Transition(rs, id, target, expected, now).result.Err? ==> Transition(rs, id, target, expected, now).records == rs
  {
    if Stored(rs, id) {
      var k := IndexOf(rs, id);
      TableByTarget(rs[k].state, target);
      assert forall j :: 0 <= j < |rs| && rs[j].binding.id == id ==> j == k;
    }
  }
}
