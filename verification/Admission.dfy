/**
 * Execution-admission records and the reservation store: the transition table, the
 * revision compare-and-swap, expiry, and the conflict rules of `reserve`.
 *
 * A store is the sequence of its records in insertion order, as a Python dict keeps them.
 * Times are microseconds.
 */
module Admission {
  import opened Core
  import opened ScopePaths

  const MAX_REVISION := 1_000_000_000_000
  const MAX_STORED: nat := 4096

  datatype State =
    | Planned | Reserved | Revalidating | Admitted | Executing | Paused | Finalized
    | Conflict | Expired | Denied | ExecutionFailed | Compensating | FailedFinal
    | RecoveredAfterCrash | Cancelled | Compensated

  datatype Mode = Read | Write
  datatype Scope = Scope(mode: Mode, paths: seq<string>, digest: string)
  datatype Resource = Resource(agent: string, account: string, budget: string, model: string, usage: nat)

  /** Everything `replace` leaves alone: identity, authority, scope, resource, lease and priority. */
  datatype Binding = Binding(
    id: string, repo: string, scope: Scope, resource: Resource, details: seq<string>, workItemVersion: nat)

  datatype Record = Record(binding: Binding, state: State, created: int, expires: int, revision: int)

  datatype Capacity = Capacity(account: nat, model: nat)

  predicate Active(s: State) {
    s in {Planned, Reserved, Revalidating, Admitted, Executing, Paused}
  }

  predicate Expirable(s: State) {
    s in {Planned, Reserved, Revalidating, Admitted, Paused}
  }

  function Allowed(s: State): set<State> {
    match s
    case Planned => {Reserved, Expired, Cancelled}
    case Reserved => {Revalidating, Conflict, Expired, Cancelled}
    case Revalidating => {Admitted, Denied, Expired, Cancelled}
    case Admitted => {Executing, ExecutionFailed, Expired, Cancelled}
    case Executing => {Paused, Finalized, RecoveredAfterCrash, ExecutionFailed}
    case Paused => {Executing, Expired, Cancelled}
    case RecoveredAfterCrash => {Finalized}
    case Conflict => {Compensated}
    case Expired => {Compensated}
    case Denied => {Compensated}
    case Cancelled => {Compensated}
    case ExecutionFailed => {Compensating}
    case Compensating => {FailedFinal}
    case _ => {}
  }

  predicate IsExpired(r: Record, now: int) {
    now >= r.expires
  }

  /** `AdmissionRecord.advance`; the last test is the revision bound `replace` re-validates. */
  function Advance(r: Record, target: State, now: int): Result<Record> {
    if target !in Allowed(r.state) then Err("invalid_transition")
    else if Expirable(r.state) && IsExpired(r, now) && target != Expired && target != Compensated
    then Err("admission_expired")
    else if r.revision + 1 > MAX_REVISION then Err("invalid_admission_revision")
    else Ok(r.(state := target, revision := r.revision + 1))
  }

  // ---------------------------------------------------------------- store operations

  datatype Expiry = Expiry(records: seq<Record>, expired: seq<Record>, error: Option<string>)

  /** `_expire_locked`: records are expired in order; an error stops the loop where it is. */
  function ExpireAll(rs: seq<Record>, now: int): Expiry {
    ExpireFrom(rs, 0, [], now)
  }

  function ExpireFrom(rs: seq<Record>, i: nat, expired: seq<Record>, now: int): Expiry
    decreases |rs| - i
  {
    if i >= |rs| then Expiry(rs, expired, None)
    else if Expirable(rs[i].state) && IsExpired(rs[i], now) then
      match Advance(rs[i], Expired, now)
      case Err(code) => Expiry(rs, expired, Some(code))
      case Ok(r) => ExpireFrom(rs[i := r], i + 1, expired + [r], now)
    else ExpireFrom(rs, i + 1, expired, now)
  }

  datatype Key = AccountKey(account: string, budget: string) | ModelKey(account: string, budget: string, model: string)

  predicate OnKey(b: Binding, key: Key) {
    b.resource.account == key.account && b.resource.budget == key.budget
    && (key.ModelKey? ==> b.resource.model == key.model)
  }

  /** How many active records draw on a key. */
  function Use(rs: seq<Record>, key: Key): nat {
    if rs == [] then 0
    else (if Active(rs[0].state) && OnKey(rs[0].binding, key) then 1 else 0) + Use(rs[1..], key)
  }

  /** `_scope_conflicts`. */
  predicate ScopeConflict(a: Binding, b: Binding) {
    a.repo == b.repo && !(a.scope.mode == Read && b.scope.mode == Read)
    && exists p, q :: p in a.scope.paths && q in b.scope.paths && Overlap(p, q)
  }

  function AccountOf(b: Binding): Key { AccountKey(b.resource.account, b.resource.budget) }
  function ModelOf(b: Binding): Key { ModelKey(b.resource.account, b.resource.budget, b.resource.model) }

  /** `_reservation_conflict`; `agent_capacity` is never consulted by the source. */
  function ReservationConflict(rs: seq<Record>, c: Capacity, b: Binding): Option<string> {
    if exists i :: 0 <= i < |rs| && Active(rs[i].state) && rs[i].binding.resource.agent == b.resource.agent
    then Some("agent_conflict")
    else if Use(rs, AccountOf(b)) >= c.account then Some("account_capacity_conflict")
    else if Use(rs, ModelOf(b)) >= c.model then Some("account_model_capacity_conflict")
    else if exists i :: 0 <= i < |rs| && Active(rs[i].state) && ScopeConflict(rs[i].binding, b)
    then Some("scope_conflict")
    else None
  }

  /** A store call's result together with the records it leaves in memory. */
  datatype Outcome = Outcome(records: seq<Record>, result: Result<seq<Record>>)

  predicate Stored(rs: seq<Record>, id: string) {
    exists i :: 0 <= i < |rs| && rs[i].binding.id == id
  }

  /** First (by uniqueness, only) position of an id. */
  function IndexOf(rs: seq<Record>, id: string): (k: nat)
    requires Stored(rs, id)
    ensures k < |rs| && rs[k].binding.id == id
  {
    if rs[0].binding.id == id then 0
    else
      assert Stored(rs[1..], id) by {
        var i :| 0 <= i < |rs| && rs[i].binding.id == id;
        assert rs[1..][i - 1].binding.id == id;
      }
      1 + IndexOf(rs[1..], id)
  }

  function Reserve(rs: seq<Record>, c: Capacity, r: Record, now: int): Outcome {
    if r.state != Planned then Outcome(rs, Err("record_must_be_planned"))
    else
      var e := ExpireAll(rs, now);
      if e.error.Some? then Outcome(e.records, Err(e.error.value))
      else if Stored(e.records, r.binding.id) then Outcome(e.records, Err("duplicate_admission_id"))
      else
        var conflict := ReservationConflict(e.records, c, r.binding);
        if conflict.Some? then Outcome(e.records, Err(conflict.value))
        else
          match Advance(r, Reserved, now)
          case Err(code) => Outcome(e.records, Err(code))
          case Ok(reserved) => Outcome(e.records + [reserved], Ok([reserved]))
  }

  function Transition(rs: seq<Record>, id: string, target: State, expected: int, now: int): Outcome {
    if !Stored(rs, id) then Outcome(rs, Err("admission_not_found"))
    else if !(0 <= expected <= MAX_REVISION) then Outcome(rs, Err("invalid_admission_revision"))
    else
      var k := IndexOf(rs, id);
      if rs[k].revision != expected then Outcome(rs, Err("stale_admission_revision"))
      else
        match Advance(rs[k], target, now)
        case Err(code) => Outcome(rs, Err(code))
        case Ok(r) => Outcome(rs[k := r], Ok([r]))
  }

  function Expire(rs: seq<Record>, now: int): Outcome {
    var e := ExpireAll(rs, now);
    Outcome(e.records, if e.error.Some? then Err(e.error.value) else Ok(e.expired))
  }

  datatype Op =
    | DoReserve(record: Record, now: int)
    | DoTransition(id: string, target: State, expected: int, now: int)
    | DoExpire(now: int)

  function Call(rs: seq<Record>, c: Capacity, op: Op): Outcome {
    match op
    case DoReserve(r, now) => Reserve(rs, c, r, now)
    case DoTransition(id, target, expected, now) => Transition(rs, id, target, expected, now)
    case DoExpire(now) => Expire(rs, now)
  }

  /**
   * `FileAdmissionStore._mutate`: reload the whole file (refused above 4096 records), run
   * the call, and replace the file only when the call did not raise.
   */
  function Mutate(disk: seq<Record>, c: Capacity, op: Op): Outcome {
    if |disk| > MAX_STORED then Outcome(disk, Err("invalid_admission_state_records"))
    else
      var o := Call(disk, c, op);
      if o.result.Ok? then o else Outcome(disk, o.result)
  }

  datatype Backend = Memory | File

  function StepOf(backend: Backend, rs: seq<Record>, c: Capacity, op: Op): Outcome {
    if backend == Memory then Call(rs, c, op) else Mutate(rs, c, op)
  }

  /** The records after a sequence of calls on an initially empty store. */
  function Run(backend: Backend, c: Capacity, ops: seq<Op>): seq<Record> {
    if ops == [] then []
    else StepOf(backend, Run(backend, c, ops[..|ops| - 1]), c, ops[|ops| - 1]).records
  }

  // ---------------------------------------------------------------- reservation invariant

  /** Same records at the same places, none becoming active. */
  predicate Shrunk(rs: seq<Record>, rs': seq<Record>) {
    |rs'| == |rs|
    && forall i :: 0 <= i < |rs| ==> rs'[i].binding == rs[i].binding && (Active(rs'[i].state) ==> Active(rs[i].state))
  }

  ghost predicate UniqueIds(rs: seq<Record>) {
    forall i, j :: 0 <= i < j < |rs| ==> rs[i].binding.id != rs[j].binding.id
  }

  ghost predicate Exclusive(rs: seq<Record>) {
    forall i, j :: 0 <= i < j < |rs| && Active(rs[i].state) && Active(rs[j].state) ==>
      rs[i].binding.resource.agent != rs[j].binding.resource.agent && !ScopeConflict(rs[i].binding, rs[j].binding)
  }

  ghost predicate WithinCapacity(rs: seq<Record>, c: Capacity) {
    forall key :: Use(rs, key) <= if key.AccountKey? then c.account else c.model
  }

  ghost predicate Inv(rs: seq<Record>, c: Capacity) {
    UniqueIds(rs) && Exclusive(rs) && WithinCapacity(rs, c)
  }

  lemma {:induction false} UseShrinks(rs: seq<Record>, rs': seq<Record>, key: Key)
    requires Shrunk(rs, rs')
    ensures Use(rs', key) <= Use(rs, key)
  {
    if rs != [] {
      UseShrinks(rs[1..], rs'[1..], key);
    }
  }

  lemma {:induction false} UseAppend(rs: seq<Record>, r: Record, key: Key)
    ensures Use(rs + [r], key) == Use(rs, key) + (if Active(r.state) && OnKey(r.binding, key) then 1 else 0)
  {
    if rs == [] {
      assert rs + [r] == [r];
    } else {
      assert (rs + [r])[1..] == rs[1..] + [r];
      UseAppend(rs[1..], r, key);
    }
  }

  lemma ShrunkKeeps(rs: seq<Record>, rs': seq<Record>, c: Capacity)
    requires Inv(rs, c) && Shrunk(rs, rs')
    ensures Inv(rs', c)
  {
    forall key ensures Use(rs', key) <= if key.AccountKey? then c.account else c.model {
      UseShrinks(rs, rs', key);
    }
  }

  /** Between two moments a record stays put or takes exactly one allowed step. */
  predicate OneStep(r: Record, r': Record, now: int) {
    r' == r || Advance(r, r'.state, now) == Ok(r')
  }

  /** Expiry leaves a handled prefix alone and moves every later record at most one step. */
  lemma {:induction false} ExpireFollows(rs: seq<Record>, i: nat, expired: seq<Record>, now: int)
    ensures var rs' := ExpireFrom(rs, i, expired, now).records;
            |rs'| == |rs| && forall k :: 0 <= k < |rs| ==> OneStep(rs[k], rs'[k], now) && (k < i ==> rs'[k] == rs[k])
    ensures ExpireFrom(rs, i, expired, now).error == None ==>
              forall k :: i <= k < |rs| ==>
                var r := ExpireFrom(rs, i, expired, now).records[k]; !(Expirable(r.state) && IsExpired(r, now))
    decreases |rs| - i
  {
    if i < |rs| {
      if Expirable(rs[i].state) && IsExpired(rs[i], now) {
        var next := Advance(rs[i], Expired, now);
        if next.Ok? {
          ExpireFollows(rs[i := next.value], i + 1, expired + [next.value], now);
        }
      } else {
        ExpireFollows(rs, i + 1, expired, now);
      }
    }
  }

  predicate Due(r: Record, now: int) {
    Expirable(r.state) && IsExpired(r, now)
  }

  /** A due record once expired. */
  function Gone(r: Record): Record {
    r.(state := Expired, revision := r.revision + 1)
  }

  /** The first due record whose revision cannot be raised; expiry stops there. */
  function Reached(rs: seq<Record>, i: nat, now: int): (n: nat)
    requires i <= |rs|
    ensures i <= n <= |rs|
    decreases |rs| - i
  {
    if i == |rs| || (Due(rs[i], now) && rs[i].revision + 1 > MAX_REVISION) then i else Reached(rs, i + 1, now)
  }

  /** The due records from position i up to n, expired, in order. */
  function GoneBetween(rs: seq<Record>, i: nat, n: nat, now: int): seq<Record>
    requires i <= n <= |rs|
    decreases n - i
  {
    if i == n then [] else (if Due(rs[i], now) then [Gone(rs[i])] else []) + GoneBetween(rs, i + 1, n, now)
  }

  lemma DueAdvances(r: Record, now: int)
    requires Due(r, now)
    ensures Advance(r, Expired, now) ==
            if r.revision + 1 > MAX_REVISION then Err("invalid_admission_revision") else Ok(Gone(r))
  {
  }

  lemma {:induction false} ReachedSame(rs: seq<Record>, rs': seq<Record>, i: nat, now: int)
    requires i <= |rs| == |rs'| && forall k :: i <= k < |rs| ==> rs'[k] == rs[k]
    ensures Reached(rs', i, now) == Reached(rs, i, now)
    ensures GoneBetween(rs', i, Reached(rs, i, now), now) == GoneBetween(rs, i, Reached(rs, i, now), now)
    decreases |rs| - i
  {
    if i < |rs| && !(Due(rs[i], now) && rs[i].revision + 1 > MAX_REVISION) {
      ReachedSame(rs, rs', i + 1, now);
    }
  }

  lemma {:induction false} ExpireFromExactly(rs: seq<Record>, i: nat, expired: seq<Record>, now: int)
    requires i <= |rs|
    ensures var e, n := ExpireFrom(rs, i, expired, now), Reached(rs, i, now);
            && |e.records| == |rs|
            && (forall k :: 0 <= k < |rs| ==> e.records[k] == if i <= k < n && Due(rs[k], now) then Gone(rs[k]) else rs[k])
            && e.expired == expired + GoneBetween(rs, i, n, now)
            && e.error == if n < |rs| then Some("invalid_admission_revision") else None
    decreases |rs| - i
  {
    if i < |rs| {
      if Due(rs[i], now) {
        DueAdvances(rs[i], now);
        if rs[i].revision + 1 <= MAX_REVISION {
          var rs' := rs[i := Gone(rs[i])];
          ReachedSame(rs, rs', i + 1, now);
          ExpireFromExactly(rs', i + 1, expired + [Gone(rs[i])], now);
        }
      } else {
        ExpireFromExactly(rs, i + 1, expired, now);
      }
    }
  }

  /**
   * Expiry turns exactly the due records it reaches into EXPIRED ones and reports exactly those, in
   * order.  It reaches all of them, unless one has the last revision; there it stops with an error.
   */
  lemma ExpireExactly(rs: seq<Record>, now: int)
    ensures var e, n := ExpireAll(rs, now), Reached(rs, 0, now);
            && |e.records| == |rs|
            && (forall k :: 0 <= k < |rs| ==> e.records[k] == if k < n && Due(rs[k], now) then Gone(rs[k]) else rs[k])
            && (forall k :: 0 <= k < |rs| ==> (e.records[k] != rs[k] <==> k < n && Due(rs[k], now)))
            && e.expired == GoneBetween(rs, 0, n, now)
            && e.error == if n < |rs| then Some("invalid_admission_revision") else None
  {
    ExpireFromExactly(rs, 0, [], now);
  }

  lemma ExpireShrinks(rs: seq<Record>, now: int)
    ensures Shrunk(rs, ExpireAll(rs, now).records)
  {
    ExpireFollows(rs, 0, [], now);
  }

  lemma AppendKeeps(rs: seq<Record>, c: Capacity, r: Record)
    requires Inv(rs, c) && !Stored(rs, r.binding.id) && ReservationConflict(rs, c, r.binding) == None
    ensures Inv(rs + [r], c)
  {
    var rs' := rs + [r];
    forall key ensures Use(rs', key) <= if key.AccountKey? then c.account else c.model {
      UseAppend(rs, r, key);
      assert OnKey(r.binding, key) ==> key == AccountOf(r.binding) || key == ModelOf(r.binding);
    }
    forall i, j | 0 <= i < j < |rs'| && Active(rs'[i].state) && Active(rs'[j].state)
      ensures rs'[i].binding.resource.agent != rs'[j].binding.resource.agent && !ScopeConflict(rs'[i].binding, rs'[j].binding)
    {
      assert rs'[i] == rs[i];
    }
  }

  lemma StepKeeps(backend: Backend, rs: seq<Record>, c: Capacity, op: Op)
    requires Inv(rs, c)
    ensures Inv(StepOf(backend, rs, c, op).records, c)
  {
    match op
    case DoReserve(r, now) =>
      var e := ExpireAll(rs, now).records;
      ExpireShrinks(rs, now);
      ShrunkKeeps(rs, e, c);
      if !Stored(e, r.binding.id) && ReservationConflict(e, c, r.binding) == None && Advance(r, Reserved, now).Ok? {
        AppendKeeps(e, c, Advance(r, Reserved, now).value);
      }
    case DoTransition(id, target, expected, now) =>
      var rs' := Transition(rs, id, target, expected, now).records;
      assert Shrunk(rs, rs');
      ShrunkKeeps(rs, rs', c);
    case DoExpire(now) =>
      ExpireShrinks(rs, now);
      ShrunkKeeps(rs, ExpireAll(rs, now).records, c);
  }

  lemma {:induction false} RunKeeps(backend: Backend, c: Capacity, ops: seq<Op>)
    ensures Inv(Run(backend, c, ops), c)
  {
    if ops == [] {
    } else {
      RunKeeps(backend, c, ops[..|ops| - 1]);
      StepKeeps(backend, Run(backend, c, ops[..|ops| - 1]), c, ops[|ops| - 1]);
    }
  }

  /** In every reachable store at most one active record exists per agent. */
  lemma OneActivePerAgent(backend: Backend, c: Capacity, ops: seq<Op>, i: nat, j: nat)
    requires i < |Run(backend, c, ops)| && j < |Run(backend, c, ops)|
    requires var rs := Run(backend, c, ops);
             Active(rs[i].state) && Active(rs[j].state) && rs[i].binding.resource.agent == rs[j].binding.resource.agent
    ensures i == j
  {
    RunKeeps(backend, c, ops);
  }

  /** In every reachable store the active records of an account, and of an account's model, stay within capacity. */
  lemma CapacityHolds(backend: Backend, c: Capacity, ops: seq<Op>, account: string, budget: string, model: string)
    ensures Use(Run(backend, c, ops), AccountKey(account, budget)) <= c.account
    ensures Use(Run(backend, c, ops), ModelKey(account, budget, model)) <= c.model
  {
    RunKeeps(backend, c, ops);
  }

  predicate InScope(b: Binding, location: seq<string>) {
    exists p :: p in b.scope.paths && Covers(p, location)
  }

  lemma SharedLocationConflicts(a: Binding, b: Binding, location: seq<string>)
    requires a.repo == b.repo && a.scope.mode == Write && InScope(a, location) && InScope(b, location)
    ensures ScopeConflict(a, b) && ScopeConflict(b, a)
  {
    var p :| p in a.scope.paths && Covers(p, location);
    var q :| q in b.scope.paths && Covers(q, location);
    OverlapIsSharedLocation(p, q);
    OverlapIsSharedLocation(q, p);
  }

  /** No location of a repository lies in the scopes of two active records of which one writes. */
  lemma WritersExclude(backend: Backend, c: Capacity, ops: seq<Op>, i: nat, j: nat, location: seq<string>)
    requires i < |Run(backend, c, ops)| && j < |Run(backend, c, ops)| && i != j
    requires var rs := Run(backend, c, ops);
             && Active(rs[i].state) && Active(rs[j].state)
             && rs[i].binding.repo == rs[j].binding.repo && rs[i].binding.scope.mode == Write
             && InScope(rs[i].binding, location)
    ensures !InScope(Run(backend, c, ops)[j].binding, location)
  {
    RunKeeps(backend, c, ops);
    var rs := Run(backend, c, ops);
    var a, b := rs[i].binding, rs[j].binding;
    if InScope(b, location) {
      SharedLocationConflicts(a, b, location);
    }
  }

  /** `_write_records` has no count check: a reservation leaves a reloadable file exactly below 4096 records. */
  lemma ReserveReloads(disk: seq<Record>, c: Capacity, r: Record, now: int)
    requires |disk| <= MAX_STORED && Mutate(disk, c, DoReserve(r, now)).result.Ok?
    ensures |Mutate(disk, c, DoReserve(r, now)).records| <= MAX_STORED <==> |disk| < MAX_STORED
  {
    ExpireShrinks(disk, now);
  }

  /** Up to the load limit the file store answers as the memory store would, but keeps the file over a refusal. */
  lemma FileFollowsMemory(disk: seq<Record>, c: Capacity, op: Op)
    requires |disk| <= MAX_STORED
    ensures Mutate(disk, c, op).result == Call(disk, c, op).result
    ensures Mutate(disk, c, op).records == if Call(disk, c, op).result.Ok? then Call(disk, c, op).records else disk
  {
    hide Call;
  }

  // ---------------------------------------------------------------- a full file that accepts one more

  function Numbered(k: nat, state: State): Record {
    Record(Binding(Word(k, 4), "repo", Scope(Read, ["a"], "digest"), Resource("agent", "account", "budget", "model", 0), ["request"], 1),
           state, 0, 1, 0)
  }

  /** Finished admissions with different ids. */
  function Finals(n: nat): seq<Record> {
    seq(n, k requires 0 <= k < n => Numbered(k, Finalized))
  }

  lemma NumberedApart(j: nat, k: nat)
    requires j <= MAX_STORED && k <= MAX_STORED && Numbered(j, Finalized).binding.id == Numbered(k, Planned).binding.id
    ensures j == k
  {
    assert Pow16(1) == 16 && Pow16(2) == 256 && Pow16(3) == 4096 && Pow16(4) == 65536;
    WordApart(j, k, 4);
  }

  lemma {:induction false} InactiveUse(rs: seq<Record>, key: Key)
    requires forall i :: 0 <= i < |rs| ==> !Active(rs[i].state)
    ensures Use(rs, key) == 0
  {
    if rs != [] {
      InactiveUse(rs[1..], key);
    }
  }

  lemma {:induction false} NothingDue(rs: seq<Record>, i: nat, now: int)
    requires i <= |rs| && forall k :: 0 <= k < |rs| ==> !Due(rs[k], now)
    ensures Reached(rs, i, now) == |rs|
    decreases |rs| - i
  {
    if i < |rs| {
      NothingDue(rs, i + 1, now);
    }
  }

  /** A loadable file of 4096 finished admissions accepts a reservation and can never be loaded again. */
  lemma FullFileReserves(c: Capacity)
    requires c.account >= 1 && c.model >= 1
    ensures var disk, o := Finals(MAX_STORED), Mutate(Finals(MAX_STORED), c, DoReserve(Numbered(MAX_STORED, Planned), 0));
            |disk| == MAX_STORED && o.result.Ok? && |o.records| == MAX_STORED + 1
    ensures forall op :: Mutate(Mutate(Finals(MAX_STORED), c, DoReserve(Numbered(MAX_STORED, Planned), 0)).records, c, op).result.Err?
  {
    hide Word, Reached, GoneBetween;
    var disk, r := Finals(MAX_STORED), Numbered(MAX_STORED, Planned);
    assert forall k :: 0 <= k < |disk| ==> disk[k] == Numbered(k, Finalized);
    NothingDue(disk, 0, 0);
    ExpireExactly(disk, 0);
    assert ExpireAll(disk, 0).records == disk;
    assert !Stored(disk, r.binding.id) by {
      if i :| 0 <= i < |disk| && disk[i].binding.id == r.binding.id {
        NumberedApart(i, MAX_STORED);
      }
    }
    InactiveUse(disk, AccountOf(r.binding));
    InactiveUse(disk, ModelOf(r.binding));
    hide Finals, ExpireAll;
    assert Advance(r, Reserved, 0) == Ok(r.(state := Reserved, revision := 1));
  }
}
