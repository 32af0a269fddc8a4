/**
 * Secret-ingress sessions: authorised, uploaded once, resolved once.  Each locked section is one
 * step on the session record; what the vault answers is a parameter, and taking the secret out of
 * the vault is a step of its own, after the lock.
 */
module SecretIngress {
  import opened Core

  const MAX_SESSIONS := 4096

  datatype State =
    | Authorized | UploadReserved | UploadInProgress | UploadUnknown | Uploaded
    | ResolveReserved | ResolveInProgress | ApplyUnknown | Resolved

  /** What a session was created for; never changed. */
  datatype Terms = Terms(
    principal: string, account: string, kind: string, operation: string, transaction: Option<string>, digest: string,
    generation: int, createKey: string)

  datatype Session = Session(
    terms: Terms, uploadKey: Option<string>, applyKey: Option<string>, receipt: Option<int>, expires: int,
    claim: Option<string>, state: State)

  datatype UploadClaim = UploadClaim(session: string, id: string, generation: int, key: string, replay: bool)
  datatype ResolveClaim = ResolveClaim(session: string, id: string, reconcileOnly: bool, terminalReplay: bool)

  predicate TakesRoom(s: Session, now: int) {
    || s.state in {Authorized, UploadReserved, UploadInProgress, UploadUnknown, Uploaded, ResolveReserved}
    || (s.state in {ResolveInProgress, ApplyUnknown} && s.expires > now)
  }

  // ---- single sessions ----

  /** `reserve_upload`: the new record and the claim; `active` is the vault's word on a finished upload. */
  function ReserveUpload(s: Session, id: string, principal: string, generation: int, key: string, fresh': string,
                         replay: string, now: int, active: bool): Result<(Session, UploadClaim)>
  {
    var mine := s.terms.principal == principal && s.terms.generation == generation && s.uploadKey == Some(key);
    if now >= s.expires then Err("credential.upload_expired")
    else if s.state in {UploadReserved, UploadInProgress} && mine && s.claim.Some? then
      Ok((s, UploadClaim(id, s.claim.value, generation, key, false)))
    else if s.state == Uploaded && mine && s.receipt.Some? then
      if active then Ok((s, UploadClaim(id, replay, generation, key, true))) else Err("control.owner_unavailable")
    else if s.state != Authorized || s.terms.principal != principal || s.terms.generation != generation then
      Err("credential.upload_expired")
    else
      Ok((s.(state := UploadReserved, claim := Some(fresh'), uploadKey := Some(key)), UploadClaim(id, fresh', generation, key, false)))
  }

  /** The locked part of `put_secret` for a claim that is no replay. */
  function StartPut(s: Session, c: UploadClaim, principal: string): Result<Session> {
    if s.state !in {UploadReserved, UploadInProgress} || s.claim != Some(c.id) || s.terms.principal != principal then
      Err("credential.upload_expired")
    else
      Ok(s.(state := UploadInProgress))
  }

  /** After a failed store: back to the reservation, or unknown if the vault cannot say. */
  function PutFailed(s: Session, c: UploadClaim, absent: bool): Session {
    if s.state == UploadInProgress && s.claim == Some(c.id) then
      s.(state := if absent then UploadReserved else UploadUnknown)
    else
      s
  }

  function CommitUpload(s: Session, c: UploadClaim, receipt: int): Result<Session> {
    if s.state != UploadInProgress || s.claim != Some(c.id) || receipt != s.terms.generation + 1 then
      Err("control.owner_unavailable")
    else
      Ok(s.(state := Uploaded, receipt := Some(receipt), claim := None))
  }

  /** `_upload_receipt_matches`: the upload of this claim is already committed with this receipt. */
  predicate ReceiptMatches(s: Session, c: UploadClaim, receipt: int, account: string) {
    && s.state == Uploaded && s.terms.generation == c.generation && s.uploadKey == Some(c.key)
    && s.receipt == Some(receipt) && s.terms.account == account
  }

  function RollbackUpload(s: Session, c: UploadClaim): Session {
    if s.state == UploadReserved && s.claim == Some(c.id) then
      s.(state := Authorized, claim := None, uploadKey := None)
    else
      s
  }

  /** `reserve_resolve`; `reconcile` is what the presented capability asks for. */
  function ReserveResolve(s: Session, id: string, terms: Terms, uploadKey: string, receipt: int, key: string,
                          reconcile: bool, fresh': string, now: int): Result<(Session, ResolveClaim)>
  {
    var exact := s.terms == terms && s.uploadKey == Some(uploadKey) && s.receipt == Some(receipt);
    if s.state in {ResolveInProgress, ApplyUnknown} && !reconcile then Err("credential.upload_expired")
    else if s.state in {Uploaded, ResolveReserved} && now >= s.expires then Err("credential.upload_expired")
    else if s.state in {ResolveReserved, ResolveInProgress, ApplyUnknown} && s.applyKey == Some(key) && exact && s.claim.Some? then
      Ok((s, ResolveClaim(id, s.claim.value, reconcile, false)))
    else if s.state == Resolved && reconcile && s.applyKey == Some(key) && exact then
      Ok((s, ResolveClaim(id, "0", true, true)))
    else if s.state != Uploaded || !exact then Err("credential.upload_expired")
    else
      Ok((s.(state := ResolveReserved, claim := Some(fresh'), applyKey := Some(key)), ResolveClaim(id, fresh', reconcile, false)))
  }

  /** The locked part of `resolve`: the new record, and whether the caller may take the secret. */
  function StartResolve(s: Session, c: ResolveClaim): Result<(Session, bool)> {
    if c.terminalReplay then (if s.state == Resolved then Ok((s, false)) else Err("credential.upload_expired"))
    else if s.state !in {ResolveReserved, ResolveInProgress, ApplyUnknown} || s.claim != Some(c.id) then
      Err("credential.upload_expired")
    else if !c.reconcileOnly && s.state != ResolveReserved then Err("credential.upload_expired")
    else Ok((s.(state := ResolveInProgress), !c.reconcileOnly))
  }

  /** `reconcile_resolve`, also the end of `commit_resolve`: `revoked` is the vault's word. */
  function Reconcile(s: Session, c: ResolveClaim, revoked: bool): Result<Session> {
    if s.state !in {ResolveInProgress, ApplyUnknown} || s.claim != Some(c.id) then Err("credential.upload_expired")
    else if !revoked then Err("control.owner_unavailable")
    else Ok(s.(state := Resolved, claim := None))
  }

  function MarkUnknown(s: Session, c: ResolveClaim): Session {
    if s.state == ResolveInProgress && s.claim == Some(c.id) then s.(state := ApplyUnknown) else s
  }

  function RollbackResolve(s: Session, c: ResolveClaim): Session {
    if s.state in {ResolveReserved, ResolveInProgress} && s.claim == Some(c.id) then s.(state := Uploaded, claim := None) else s
  }

  /** `_prune_locked`: `gone` are the sessions whose secret the vault no longer holds, or has just revoked. */
  predicate Pruned(s: Session, id: string, now: int, gone: set<string>) {
    s.expires <= now &&
    (s.state in {Authorized, UploadReserved} ||
     (s.state in {UploadInProgress, UploadUnknown, Uploaded, ResolveReserved} && id in gone))
  }

  function Prune(sessions: map<string, Session>, now: int, gone: set<string>): map<string, Session> {
    map id | id in sessions && !Pruned(sessions[id], id, now, gone) :: sessions[id]
  }

  function Used(sessions: map<string, Session>, now: int): nat {
    |set id | id in sessions && TakesRoom(sessions[id], now)|
  }

  /** `create_session`: an existing session is returned, another one needs room. */
  function Create(sessions: map<string, Session>, id: string, terms: Terms, now: int, ttl: nat, gone: set<string>):
    Result<map<string, Session>>
  {
    var live := Prune(sessions, now, gone);
    if id in live then (if live[id].terms == terms then Ok(live) else Err("control.request_invalid"))
    else if Used(live, now) >= MAX_SESSIONS then Err("control.owner_unavailable")
    else Ok(live[id := Session(terms, None, None, None, now + ttl, None, Authorized)])
  }

  // ---- runs ----

  type Tid = nat

  /** The last three fields are history: sessions created, effective resolve rollbacks, and bytes handed out. */
  datatype World = World(
    sessions: map<string, Session>, leasing: map<Tid, ResolveClaim>, created: multiset<string>, rolledBack: multiset<string>,
    handouts: seq<ResolveClaim>)

  const Init := World(map[], map[], multiset{}, multiset{}, [])

  datatype Step =
    | DoCreate(id: string, terms: Terms, now: int, ttl: nat, gone: set<string>)
    | DoReserveUpload(id: string, principal: string, generation: int, key: string, drawn: string, replay: string, now: int, active: bool)
    | DoStartPut(upload: UploadClaim, principal: string)
    | DoPutFailed(upload: UploadClaim, absent: bool)
    | DoCommitUpload(upload: UploadClaim, receipt: int)
    | DoRollbackUpload(upload: UploadClaim)
    | DoReserveResolve(id: string, terms: Terms, uploadKey: string, receipt: int, key: string, reconcile: bool, drawn: string, now: int)
    | DoStartResolve(t: Tid, resolve: ResolveClaim)
    | DoLease(t: Tid, granted: bool)
    | DoReconcile(resolve: ResolveClaim, revoked: bool)
    | DoMarkUnknown(resolve: ResolveClaim)
    | DoRollbackResolve(resolve: ResolveClaim)
    | Crash

  function SetSession(w: World, id: string, s: Session): World {
    w.(sessions := w.sessions[id := s])
  }

  /** A change to one stored session; a missing session or a refusal changes nothing. */
  function Changed(w: World, id: string, s: Result<Session>): World {
    if id in w.sessions && s.Ok? then SetSession(w, id, s.value) else w
  }

  function At(w: World, id: string): Session {
    if id in w.sessions then w.sessions[id]
    else Session(Terms("", "", "", "", None, "", 0, ""), None, None, None, 0, None, Authorized)
  }

  /** The change a step makes to the session it names; `None` if it changes no stored session in place. */
  function InPlace(w: World, step: Step): Option<(string, Result<Session>)> {
    match step
    case DoReserveUpload(id, principal, generation, key, drawn, replay, now, active) =>
      var r := ReserveUpload(At(w, id), id, principal, generation, key, drawn, replay, now, active);
      Some((id, if r.Ok? then Ok(r.value.0) else Err(r.code)))
    case DoStartPut(c, principal) => Some((c.session, StartPut(At(w, c.session), c, principal)))
    case DoPutFailed(c, absent) => Some((c.session, Ok(PutFailed(At(w, c.session), c, absent))))
    case DoCommitUpload(c, receipt) => Some((c.session, CommitUpload(At(w, c.session), c, receipt)))
    case DoRollbackUpload(c) => Some((c.session, Ok(RollbackUpload(At(w, c.session), c))))
    case DoReserveResolve(id, terms, uploadKey, receipt, key, reconcile, drawn, now) =>
      var r := ReserveResolve(At(w, id), id, terms, uploadKey, receipt, key, reconcile, drawn, now);
      Some((id, if r.Ok? then Ok(r.value.0) else Err(r.code)))
    case DoReconcile(c, revoked) => Some((c.session, Reconcile(At(w, c.session), c, revoked)))
    case DoMarkUnknown(c) => Some((c.session, Ok(MarkUnknown(At(w, c.session), c))))
    case _ => None
  }

  function Do(w: World, step: Step): World {
    match step
    case DoCreate(id, terms, now, ttl, gone) =>
      var r := Create(w.sessions, id, terms, now, ttl, gone);
      if r.Err? then w
      else w.(sessions := r.value, created := if id in Prune(w.sessions, now, gone) then w.created else w.created + multiset{id})
    case DoStartResolve(t, c) =>
      var r := StartResolve(At(w, c.session), c);
      if c.session !in w.sessions || r.Err? || t in w.leasing then w
      else
        var w' := SetSession(w, c.session, r.value.0);
        if r.value.1 then w'.(leasing := w.leasing[t := c]) else w'
    case DoLease(t, granted) =>
      if t !in w.leasing then w
      else w.(leasing := w.leasing - {t}, handouts := if granted then w.handouts + [w.leasing[t]] else w.handouts)
    case DoRollbackResolve(c) =>
      var s' := RollbackResolve(At(w, c.session), c);
      if c.session !in w.sessions || s' == At(w, c.session) then w
      else SetSession(w, c.session, s').(rolledBack := w.rolledBack + multiset{c.session})
    case Crash => w.(leasing := map[])
    case _ =>
      var change := InPlace(w, step);
      if change.Some? then Changed(w, change.value.0, change.value.1) else w
  }

  function Run(schedule: seq<Step>): World {
    if schedule == [] then Init else Do(Run(schedule[..|schedule| - 1]), schedule[|schedule| - 1])
  }

  // ---- counting ----

  /** A session that may still be taken to a handout without another rollback. */
  function Chance(w: World, id: string): nat {
    if id in w.sessions && w.sessions[id].state !in {ResolveInProgress, ApplyUnknown, Resolved} then 1 else 0
  }

  ghost function Leasing(w: World, id: string): set<Tid> {
    set t | t in w.leasing && w.leasing[t].session == id
  }

  function Given(handouts: seq<ResolveClaim>, id: string): nat {
    if handouts == [] then 0
    else Given(handouts[..|handouts| - 1], id) + if handouts[|handouts| - 1].session == id then 1 else 0
  }

  ghost predicate Counted(w: World, id: string) {
    Given(w.handouts, id) + |Leasing(w, id)| + Chance(w, id) <= w.created[id] + w.rolledBack[id]
  }

  ghost predicate NoneReconciling(w: World) {
    && (forall t :: t in w.leasing ==> !w.leasing[t].reconcileOnly)
    && (forall i :: 0 <= i < |w.handouts| ==> !w.handouts[i].reconcileOnly)
  }

  lemma CreateCounts(w: World, id: string, terms: Terms, now: int, ttl: nat, gone: set<string>, x: string)
    requires Counted(w, x)
    ensures Counted(Do(w, DoCreate(id, terms, now, ttl, gone)), x)
  {
    hide Used;
    var w' := Do(w, DoCreate(id, terms, now, ttl, gone));
    assert Leasing(w', x) == Leasing(w, x);
  }

  /** The caller that may take the secret spends the session's chance. */
  lemma StartResolveSpends(s: Session, c: ResolveClaim)
    requires StartResolve(s, c).Ok?
    ensures StartResolve(s, c).value.1 ==> s.state == ResolveReserved && !c.reconcileOnly
    ensures StartResolve(s, c).value.0.state in {ResolveInProgress, Resolved}
  {
  }

  lemma LeasingMore(w: World, t: Tid, c: ResolveClaim, x: string)
    requires t !in w.leasing
    ensures Leasing(w.(leasing := w.leasing[t := c]), x) == if c.session == x then Leasing(w, x) + {t} else Leasing(w, x)
  {
  }

  lemma StartResolveCounts(w: World, t: Tid, c: ResolveClaim, x: string)
    requires Counted(w, x)
    ensures Counted(Do(w, DoStartResolve(t, c)), x)
  {
    hide StartResolve, Given, Leasing;
    var w' := Do(w, DoStartResolve(t, c));
    if c.session in w.sessions && StartResolve(w.sessions[c.session], c).Ok? && t !in w.leasing {
      StartResolveSpends(w.sessions[c.session], c);
      LeasingMore(w, t, c, x);
      SameLeasing(w, w', t, c, x);
      assert t !in Leasing(w, x) by { LeasingOnly(w, t, x); }
    }
  }

  lemma LeasingOnly(w: World, t: Tid, x: string)
    requires t !in w.leasing
    ensures t !in Leasing(w, x)
  {
  }

  lemma SameLeasing(w: World, w': World, t: Tid, c: ResolveClaim, x: string)
    ensures w'.leasing == w.leasing ==> Leasing(w', x) == Leasing(w, x)
    ensures w'.leasing == w.leasing[t := c] ==> Leasing(w', x) == Leasing(w.(leasing := w.leasing[t := c]), x)
  {
  }

  lemma LeaseCounts(w: World, t: Tid, granted: bool, x: string)
    requires Counted(w, x)
    ensures Counted(Do(w, DoLease(t, granted)), x)
  {
    var w' := Do(w, DoLease(t, granted));
    if t in w.leasing {
      assert Leasing(w', x) == Leasing(w, x) - {t};
      assert t in Leasing(w, x) <==> w.leasing[t].session == x;
      assert (w.handouts + [w.leasing[t]])[..|w.handouts|] == w.handouts;
    }
  }

  lemma StepCounts(w: World, step: Step, x: string)
    requires Counted(w, x)
    ensures Counted(Do(w, step), x)
  {
    var w' := Do(w, step);
    match step
    case DoCreate(id, terms, now, ttl, gone) => CreateCounts(w, id, terms, now, ttl, gone, x);
    case DoStartResolve(t, c) => StartResolveCounts(w, t, c, x);
    case DoLease(t, granted) => LeaseCounts(w, t, granted, x);
    case Crash => assert Leasing(w', x) == {};
    case _ => assert Leasing(w', x) == Leasing(w, x);
  }

  lemma StepNoneReconciling(w: World, step: Step)
    requires NoneReconciling(w)
    ensures NoneReconciling(Do(w, step))
  {
    hide Create, ReserveUpload, ReserveResolve;
  }

  lemma {:induction false} RunCounts(schedule: seq<Step>, x: string)
    ensures Counted(Run(schedule), x) && NoneReconciling(Run(schedule))
  {
    hide Do, Chance;
    if schedule == [] {
      InitCounts(x);
    } else {
      var n := |schedule| - 1;
      RunCounts(schedule[..n], x);
      StepCounts(Run(schedule[..n]), schedule[n], x);
      StepNoneReconciling(Run(schedule[..n]), schedule[n]);
    }
  }

  lemma InitCounts(x: string)
    ensures Counted(Init, x)
  {
    assert Leasing(Init, x) == {};
  }

  // ---- theorems ----

  /**
   * Under any interleaving, secret bytes are handed out at most once per stored session plus once
   * per effective rollback, at every prefix of a run.
   */
  lemma HandoutsBounded(schedule: seq<Step>, id: string)
    ensures Given(Run(schedule).handouts, id) <= Run(schedule).created[id] + Run(schedule).rolledBack[id]
  {
    RunCounts(schedule, id);
  }

  /** A reconcile-only claim never receives bytes. */
  lemma ReconcilersGetNothing(schedule: seq<Step>, i: nat)
    requires i < |Run(schedule).handouts|
    ensures !Run(schedule).handouts[i].reconcileOnly
  {
    RunCounts(schedule, "");
  }

  lemma InPlaceKeepsResolved(w: World, step: Step)
    requires InPlace(w, step).Some? && InPlace(w, step).value.0 in w.sessions
    requires w.sessions[InPlace(w, step).value.0].state == Resolved
    ensures var (id, s) := InPlace(w, step).value; s.Ok? ==> s.value == w.sessions[id]
  {
  }

  lemma ResolvedStep(w: World, step: Step, id: string)
    requires id in w.sessions && w.sessions[id].state == Resolved
    ensures id in Do(w, step).sessions && Do(w, step).sessions[id] == w.sessions[id]
  {
    hide Used;
    if InPlace(w, step).Some? {
      if InPlace(w, step).value.0 == id {
        InPlaceKeepsResolved(w, step);
      }
    }
  }

  /** A resolved session is final: it stays stored, unchanged, whatever calls follow. */
  lemma {:induction false} ResolvedFinal(schedule: seq<Step>, n: nat, id: string)
    requires n <= |schedule| && id in Run(schedule[..n]).sessions && Run(schedule[..n]).sessions[id].state == Resolved
    ensures id in Run(schedule).sessions && Run(schedule).sessions[id] == Run(schedule[..n]).sessions[id]
    decreases |schedule|
  {
    hide Do;
    if n == |schedule| {
      assert schedule[..n] == schedule;
    } else {
      var m := |schedule| - 1;
      assert schedule[..m][..n] == schedule[..n];
      ResolvedFinal(schedule[..m], n, id);
      ResolvedStep(Run(schedule[..m]), schedule[m], id);
    }
  }
}
