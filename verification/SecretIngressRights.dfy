/**
 * By what right secrets go in and out: every stored upload was reserved by the principal of the session,
 * every secret handed out was asked for with the exact terms and receipt of its session, and a resolved
 * session had its secret revoked.  And an honest caller gets through.
 */
module SecretIngressRights {
  import opened Core
  import opened SecretIngress

  // ---- what stands behind a session ----

  /** Step k reserved the upload of the session, by its principal and for its generation. */
  ghost predicate ReservedUpload(schedule: seq<Step>, k: nat, id: string, s: Session) {
    && k < |schedule| && schedule[k].DoReserveUpload? && schedule[k].id == id
    && schedule[k].principal == s.terms.principal && schedule[k].generation == s.terms.generation
    && s.uploadKey == Some(schedule[k].key)
  }

  /** Step k asked to resolve the session with its exact terms, upload key and receipt, and got the claim the session has. */
  ghost predicate ReservedResolve(schedule: seq<Step>, k: nat, id: string, s: Session) {
    && k < |schedule| && schedule[k].DoReserveResolve? && schedule[k].id == id
    && schedule[k].terms == s.terms && s.uploadKey == Some(schedule[k].uploadKey) && s.receipt == Some(schedule[k].receipt)
    && s.applyKey == Some(schedule[k].key) && s.claim == Some(schedule[k].drawn)
  }

  /** Step k stored the receipt of the upload. */
  ghost predicate CommittedUpload(schedule: seq<Step>, k: nat, id: string, s: Session) {
    && k < |schedule| && schedule[k].DoCommitUpload? && schedule[k].upload.session == id && s.receipt == Some(schedule[k].receipt)
  }

  /** Step k was told that the vault had revoked the secret. */
  ghost predicate Revoked(schedule: seq<Step>, k: nat, id: string) {
    k < |schedule| && schedule[k].DoReconcile? && schedule[k].resolve.session == id && schedule[k].revoked
  }

  predicate Late(state: State) {
    state in {Uploaded, ResolveReserved, ResolveInProgress, ApplyUnknown, Resolved}
  }

  ghost predicate Traced(schedule: seq<Step>, id: string, s: Session) {
    && (s.state != Authorized ==> exists k: nat :: ReservedUpload(schedule, k, id, s))
    && (Late(s.state) ==> s.receipt == Some(s.terms.generation + 1) && exists k: nat :: CommittedUpload(schedule, k, id, s))
    && (s.state in {ResolveReserved, ResolveInProgress, ApplyUnknown} ==> exists k: nat :: ReservedResolve(schedule, k, id, s))
    && (s.state == Resolved ==> exists k: nat :: Revoked(schedule, k, id))
  }

  // ---- one step ----

  /** The session after the step: new, or the stored one taken one step further by the right call. */
  ghost predicate Follows(step: Step, id: string, s: Session, s': Session) {
    && s'.terms == s.terms
    && (s'.state != Authorized ==> (s.state != Authorized && s'.uploadKey == s.uploadKey) || ReservedUpload([step], 0, id, s'))
    && (Late(s'.state) ==>
          (Late(s.state) && s'.receipt == s.receipt) || (s'.receipt == Some(s.terms.generation + 1) && CommittedUpload([step], 0, id, s')))
    && (s'.state in {ResolveReserved, ResolveInProgress, ApplyUnknown} ==>
          || (&& s.state in {ResolveReserved, ResolveInProgress, ApplyUnknown} && s'.uploadKey == s.uploadKey && s'.receipt == s.receipt
              && s'.applyKey == s.applyKey && s'.claim == s.claim)
          || ReservedResolve([step], 0, id, s'))
    && (s'.state == Resolved ==> s.state == Resolved || Revoked([step], 0, id))
  }

  lemma InPlaceFollows(w: World, step: Step)
    requires InPlace(w, step).Some? && InPlace(w, step).value.0 in w.sessions && InPlace(w, step).value.1.Ok?
    ensures var (id, s) := InPlace(w, step).value; Follows(step, id, w.sessions[id], s.value)
  {
  }

  lemma ResolveFollows(s: Session, c: ResolveClaim, step: Step)
    ensures StartResolve(s, c).Ok? ==> Follows(step, c.session, s, StartResolve(s, c).value.0)
    ensures Follows(step, c.session, s, RollbackResolve(s, c))
    ensures Follows(step, c.session, s, s)
  {
  }

  lemma DoFollows(w: World, step: Step, id: string)
    requires id in Do(w, step).sessions
    ensures var s' := Do(w, step).sessions[id];
            || s'.state == Authorized
            || (id in w.sessions && Follows(step, id, w.sessions[id], s'))
  {
    hide Follows, Used, StartResolve, RollbackResolve;
    if id in w.sessions {
      ResolveFollows(w.sessions[id], ResolveClaim(id, "", false, false), step);
    }
    match step
    case DoCreate(_, _, _, _, _) =>
    case DoStartResolve(t, c) => if c.session in w.sessions { ResolveFollows(w.sessions[c.session], c, step); }
    case DoLease(_, _) =>
    case DoRollbackResolve(c) => if c.session in w.sessions { ResolveFollows(w.sessions[c.session], c, step); }
    case Crash =>
    case _ => ChangeFollows(w, step, id);
  }

  lemma ChangeFollows(w: World, step: Step, id: string)
    requires InPlace(w, step).Some? && id in Changed(w, InPlace(w, step).value.0, InPlace(w, step).value.1).sessions
    ensures id in w.sessions
    ensures Follows(step, id, w.sessions[id], Changed(w, InPlace(w, step).value.0, InPlace(w, step).value.1).sessions[id])
  {
    hide Follows, InPlace;
    ResolveFollows(w.sessions[id], ResolveClaim(id, "", false, false), step);
    var change := InPlace(w, step).value;
    if change.0 in w.sessions && change.1.Ok? {
      InPlaceFollows(w, step);
    }
  }

  // ---- whole runs ----

  lemma TraceStep(before: seq<Step>, step: Step, id: string, s: Session, s': Session)
    requires Traced(before, id, s) && Follows(step, id, s, s')
    ensures Traced(before + [step], id, s')
  {
    var all := before + [step];
    assert forall k :: 0 <= k < |before| ==> all[k] == before[k];
    assert all[|before|] == step;
    if s'.state != Authorized {
      if s.state != Authorized && s'.uploadKey == s.uploadKey {
        var k: nat :| ReservedUpload(before, k, id, s);
        assert ReservedUpload(all, k, id, s');
      } else {
        assert ReservedUpload(all, |before|, id, s');
      }
    }
    if Late(s'.state) {
      if Late(s.state) && s'.receipt == s.receipt {
        var k: nat :| CommittedUpload(before, k, id, s);
        assert CommittedUpload(all, k, id, s');
      } else {
        assert CommittedUpload(all, |before|, id, s');
      }
    }
    TraceResolve(before, step, id, s, s');
  }

  lemma TraceResolve(before: seq<Step>, step: Step, id: string, s: Session, s': Session)
    requires Traced(before, id, s) && Follows(step, id, s, s')
    ensures s'.state in {ResolveReserved, ResolveInProgress, ApplyUnknown} ==> exists k: nat :: ReservedResolve(before + [step], k, id, s')
    ensures s'.state == Resolved ==> exists k: nat :: Revoked(before + [step], k, id)
  {
    var all := before + [step];
    assert forall k :: 0 <= k < |before| ==> all[k] == before[k];
    assert all[|before|] == step;
    hide ReservedUpload, CommittedUpload;
    if s'.state in {ResolveReserved, ResolveInProgress, ApplyUnknown} {
      if ReservedResolve([step], 0, id, s') {
        assert ReservedResolve(all, |before|, id, s');
      } else {
        var k: nat :| ReservedResolve(before, k, id, s);
        assert ReservedResolve(all, k, id, s');
      }
    }
    if s'.state == Resolved {
      if s.state == Resolved {
        var k: nat :| Revoked(before, k, id);
        assert Revoked(all, k, id);
      } else {
        assert Revoked(all, |before|, id);
      }
    }
  }

  lemma NewTraced(schedule: seq<Step>, id: string, s: Session)
    requires s.state == Authorized
    ensures Traced(schedule, id, s)
  {
  }

  /** Over every run, each session's upload was reserved by its principal, and each later stage was reached by the right call. */
  lemma {:induction false} SessionsTraced(schedule: seq<Step>)
    ensures forall id :: id in Run(schedule).sessions ==> Traced(schedule, id, Run(schedule).sessions[id])
  {
    hide Do, Traced, Follows;
    if schedule != [] {
      var n := |schedule| - 1;
      var before, step := schedule[..n], schedule[n];
      SessionsTraced(before);
      var w := Run(before);
      assert before + [step] == schedule;
      forall id | id in Run(schedule).sessions ensures Traced(schedule, id, Run(schedule).sessions[id]) {
        DoFollows(w, step, id);
        var s' := Do(w, step).sessions[id];
        if s'.state == Authorized {
          NewTraced(schedule, id, s');
        } else {
          TraceStep(before, step, id, w.sessions[id], s');
        }
      }
    }
  }

  /** A resolved session was resolved with the vault's word that its secret is revoked. */
  lemma ResolvedWasRevoked(schedule: seq<Step>, id: string)
    requires id in Run(schedule).sessions && Run(schedule).sessions[id].state == Resolved
    ensures exists k: nat :: Revoked(schedule, k, id)
  {
    SessionsTraced(schedule);
    assert Traced(schedule, id, Run(schedule).sessions[id]);
  }

  // ---- handing out ----

  /**
   * Step n let this claim take the secret: the session it names was then reserved for resolving under this
   * very claim, by a request with its exact terms, upload key and receipt, for an upload of its own principal.
   */
  ghost predicate Entitled(schedule: seq<Step>, n: nat, c: ResolveClaim) {
    && n < |schedule| && schedule[n].DoStartResolve? && schedule[n].resolve == c
    && c.session in Run(schedule[..n]).sessions
    && var s := Run(schedule[..n]).sessions[c.session];
       && s.state == ResolveReserved && s.claim == Some(c.id) && s.receipt == Some(s.terms.generation + 1)
       && (exists k: nat :: k < n && ReservedResolve(schedule, k, c.session, s) && schedule[k].drawn == c.id)
       && (exists k: nat :: k < n && ReservedUpload(schedule, k, c.session, s))
  }

  lemma EntitledGrows(before: seq<Step>, step: Step, n: nat, c: ResolveClaim)
    requires Entitled(before, n, c)
    ensures Entitled(before + [step], n, c)
  {
    hide Run;
    var all := before + [step];
    assert all[..n] == before[..n];
    var s := Run(before[..n]).sessions[c.session];
    var k: nat :| k < n && ReservedResolve(before, k, c.session, s) && before[k].drawn == c.id;
    assert ReservedResolve(all, k, c.session, s);
    var m: nat :| m < n && ReservedUpload(before, m, c.session, s);
    assert ReservedUpload(all, m, c.session, s);
  }

  lemma StartEntitled(before: seq<Step>, t: Tid, c: ResolveClaim)
    requires c.session in Run(before).sessions && StartResolve(Run(before).sessions[c.session], c).Ok?
    requires StartResolve(Run(before).sessions[c.session], c).value.1
    ensures Entitled(before + [DoStartResolve(t, c)], |before|, c)
  {
    hide Run;
    SessionsTraced(before);
    var all := before + [DoStartResolve(t, c)];
    assert all[..|before|] == before;
    var s := Run(before).sessions[c.session];
    assert Traced(before, c.session, s);
    var k: nat :| ReservedResolve(before, k, c.session, s);
    assert ReservedResolve(all, k, c.session, s);
    var m: nat :| ReservedUpload(before, m, c.session, s);
    assert ReservedUpload(all, m, c.session, s);
  }

  ghost predicate OnceEntitled(schedule: seq<Step>, c: ResolveClaim) {
    exists n: nat :: Entitled(schedule, n, c)
  }

  ghost predicate AllEntitled(schedule: seq<Step>, w: World) {
    && (forall t :: t in w.leasing ==> OnceEntitled(schedule, w.leasing[t]))
    && (forall i :: 0 <= i < |w.handouts| ==> OnceEntitled(schedule, w.handouts[i]))
  }

  /** The new takers and handouts of a step come from those before, or start here by right. */
  lemma LeasingFrom(w: World, step: Step)
    ensures var w' := Do(w, step);
            && (forall t :: t in w'.leasing ==>
                  || (t in w.leasing && w'.leasing[t] == w.leasing[t])
                  || (&& step == DoStartResolve(t, w'.leasing[t]) && w'.leasing[t].session in w.sessions
                      && StartResolve(w.sessions[w'.leasing[t].session], w'.leasing[t]).Ok?
                      && StartResolve(w.sessions[w'.leasing[t].session], w'.leasing[t]).value.1))
            && (forall i :: 0 <= i < |w'.handouts| ==>
                  || (i < |w.handouts| && w'.handouts[i] == w.handouts[i])
                  || (exists t :: t in w.leasing && w'.handouts[i] == w.leasing[t]))
  {
    hide StartResolve, Create, InPlace, RollbackResolve;
  }

  lemma {:induction false} RunEntitled(schedule: seq<Step>)
    ensures AllEntitled(schedule, Run(schedule))
  {
    hide Do, OnceEntitled, StartResolve;
    if schedule != [] {
      var m := |schedule| - 1;
      var before, step := schedule[..m], schedule[m];
      RunEntitled(before);
      var w := Run(before);
      assert before + [step] == schedule;
      LeasingFrom(w, step);
      forall c | OnceEntitled(before, c) ensures OnceEntitled(schedule, c) {
        RightsGrow(before, step, c);
      }
      forall t | t in Run(schedule).leasing ensures OnceEntitled(schedule, Run(schedule).leasing[t]) {
        if !(t in w.leasing && Run(schedule).leasing[t] == w.leasing[t]) {
          StartRight(before, t, Run(schedule).leasing[t]);
        }
      }
    }
  }

  lemma RightsGrow(before: seq<Step>, step: Step, c: ResolveClaim)
    requires OnceEntitled(before, c)
    ensures OnceEntitled(before + [step], c)
  {
    var n: nat :| Entitled(before, n, c);
    EntitledGrows(before, step, n, c);
  }

  lemma StartRight(before: seq<Step>, t: Tid, c: ResolveClaim)
    requires c.session in Run(before).sessions && StartResolve(Run(before).sessions[c.session], c).Ok?
    requires StartResolve(Run(before).sessions[c.session], c).value.1
    ensures OnceEntitled(before + [DoStartResolve(t, c)], c)
  {
    hide StartResolve;
    StartEntitled(before, t, c);
  }

  /** Whoever received secret bytes, over every interleaving, was entitled to them. */
  lemma HandoutsEntitled(schedule: seq<Step>, i: nat)
    requires i < |Run(schedule).handouts|
    ensures OnceEntitled(schedule, Run(schedule).handouts[i])
  {
    RunEntitled(schedule);
  }

  // ---- the honest way through ----

  /** Between authorisation and expiry an honest upload and resolution go through, and hand the secret out. */
  lemma HonestPath(s: Session, id: string, key: string, applyKey: string, c1: string, c2: string, replay: string, now: int, later: int, active: bool)
    requires s.state == Authorized && now < s.expires && later < s.expires
    ensures var up := ReserveUpload(s, id, s.terms.principal, s.terms.generation, key, c1, replay, now, active);
            && up.Ok? && !up.value.1.replay
            && var put := StartPut(up.value.0, up.value.1, s.terms.principal);
            && put.Ok?
            && var done := CommitUpload(put.value, up.value.1, s.terms.generation + 1);
            && done.Ok? && done.value.terms == s.terms && done.value.state == Uploaded
            && ReceiptMatches(done.value, up.value.1, s.terms.generation + 1, s.terms.account)
            && var taken := ReserveResolve(done.value, id, s.terms, key, s.terms.generation + 1, applyKey, false, c2, later);
            && taken.Ok?
            && var lease := StartResolve(taken.value.0, taken.value.1);
            && lease.Ok? && lease.value.1
            && var end := Reconcile(lease.value.0, taken.value.1, true);
            && end.Ok? && end.value.state == Resolved && end.value.terms == s.terms
  {
  }

  /** Rolling an upload reservation back leaves the session as it was before it. */
  lemma UploadThenRollback(s: Session, id: string, principal: string, generation: int, key: string, c: string, replay: string, now: int, active: bool)
    requires s.state == Authorized && s.claim == None && s.uploadKey == None
    requires ReserveUpload(s, id, principal, generation, key, c, replay, now, active).Ok?
    ensures var (s', up) := ReserveUpload(s, id, principal, generation, key, c, replay, now, active).value;
            s' != s && RollbackUpload(s', up) == s
  {
  }

  /** Rolling a resolution back frees the upload for another one, under any key, until it expires. */
  lemma ResolveThenRollback(s: Session, id: string, uploadKey: string, receipt: int, key: string, c: string, now: int,
                            key': string, c': string, later: int)
    requires s.state == Uploaded && ReserveResolve(s, id, s.terms, uploadKey, receipt, key, false, c, now).Ok? && later < s.expires
    ensures var (s', claim) := ReserveResolve(s, id, s.terms, uploadKey, receipt, key, false, c, now).value;
            var back := RollbackResolve(s', claim);
            && back == s.(claim := None, applyKey := Some(key))
            && ReserveResolve(back, id, s.terms, uploadKey, receipt, key', false, c', later).Ok?
  {
  }

  // ---- exactly when a call is accepted ----

  /** The caller's principal, generation and upload key are those of the session. */
  ghost predicate Uploader(s: Session, principal: string, generation: int, key: string) {
    s.terms.principal == principal && s.terms.generation == generation && s.uploadKey == Some(key)
  }

  /**
   * An upload is reserved, before the session expires, exactly by its principal for its generation: first on
   * the authorised session, again under the same key while it runs, and once done only if the vault still has it.
   */
  lemma UploadExactly(s: Session, id: string, principal: string, generation: int, key: string, c: string, replay: string, now: int, active: bool)
    ensures var r := ReserveUpload(s, id, principal, generation, key, c, replay, now, active);
            && (r.Ok? <==>
                  && now < s.expires
                  && (|| (s.state == Authorized && s.terms.principal == principal && s.terms.generation == generation)
                      || (s.state in {UploadReserved, UploadInProgress} && Uploader(s, principal, generation, key) && s.claim.Some?)
                      || (s.state == Uploaded && Uploader(s, principal, generation, key) && s.receipt.Some? && active)))
            && (r.Ok? ==>
                  && (r.value.1.replay <==> s.state == Uploaded)
                  && (s.state == Authorized ==> r.value.0 == s.(state := UploadReserved, claim := Some(c), uploadKey := Some(key)) && r.value.1.id == c)
                  && (s.state != Authorized ==> r.value.0 == s && r.value.1.id == if s.state == Uploaded then replay else s.claim.value))
  {
  }

  /** Bytes are stored only by the principal that holds the claim of a reserved upload. */
  lemma PutExactly(s: Session, c: UploadClaim, principal: string)
    ensures StartPut(s, c, principal).Ok? <==>
            s.state in {UploadReserved, UploadInProgress} && s.claim == Some(c.id) && s.terms.principal == principal
  {
  }

  /** A failed store goes back to the reservation exactly if the vault has nothing; otherwise no upload is possible any more. */
  lemma PutFailedExactly(s: Session, c: UploadClaim, absent: bool, id: string, principal: string, generation: int, key: string,
                         fresh': string, replay: string, now: int, active: bool)
    requires s.state == UploadInProgress && s.claim == Some(c.id)
    ensures PutFailed(s, c, absent).state == UploadReserved <==> absent
    ensures !absent ==> ReserveUpload(PutFailed(s, c, absent), id, principal, generation, key, fresh', replay, now, active).Err?
  {
  }

  /**
   * A resolution is reserved exactly with the terms, upload key and receipt of the session: first on an
   * unexpired upload, again under the same key while unexpired, and after its start or end only to reconcile.
   */
  lemma ResolveExactly(s: Session, id: string, terms: Terms, uploadKey: string, receipt: int, key: string, reconcile: bool, c: string, now: int)
    ensures var r := ReserveResolve(s, id, terms, uploadKey, receipt, key, reconcile, c, now);
            && (r.Ok? <==>
                  && s.terms == terms && s.uploadKey == Some(uploadKey) && s.receipt == Some(receipt)
                  && (|| (s.state == Uploaded && now < s.expires)
                      || (s.state == ResolveReserved && now < s.expires && s.applyKey == Some(key) && s.claim.Some?)
                      || (s.state in {ResolveInProgress, ApplyUnknown} && reconcile && s.applyKey == Some(key) && s.claim.Some?)
                      || (s.state == Resolved && reconcile && s.applyKey == Some(key))))
            && (r.Ok? && s.state != Uploaded ==> r.value.0 == s)
            && (r.Ok? ==> (r.value.1.terminalReplay <==> s.state == Resolved) && r.value.1.reconcileOnly == reconcile)
  {
  }

  /** The secret may be taken exactly once per reservation, and not by a claim that only reconciles. */
  lemma StartExactly(s: Session, c: ResolveClaim)
    ensures StartResolve(s, c).Ok? <==>
            if c.terminalReplay then s.state == Resolved
            else s.claim == Some(c.id) && (s.state == ResolveReserved || (c.reconcileOnly && s.state in {ResolveInProgress, ApplyUnknown}))
    ensures StartResolve(s, c).Ok? && StartResolve(s, c).value.1 ==>
              StartResolve(StartResolve(s, c).value.0, c).Err? && StartResolve(MarkUnknown(StartResolve(s, c).value.0, c), c).Err?
  {
  }

  // ---- the table of sessions ----

  /** Dropped are exactly expired sessions that hold no secret: never uploaded to, or with the vault's word that it is gone. */
  lemma PruneExactly(sessions: map<string, Session>, now: int, gone: set<string>)
    ensures forall id :: id in Prune(sessions, now, gone) ==> id in sessions && Prune(sessions, now, gone)[id] == sessions[id]
    ensures forall id :: id in sessions ==>
              (id !in Prune(sessions, now, gone) <==>
               && sessions[id].expires <= now && sessions[id].state !in {ResolveInProgress, ApplyUnknown, Resolved}
               && (sessions[id].state in {Authorized, UploadReserved} || id in gone))
  {
    forall id | id in sessions
      ensures Pruned(sessions[id], id, now, gone) <==>
              && sessions[id].expires <= now && sessions[id].state !in {ResolveInProgress, ApplyUnknown, Resolved}
              && (sessions[id].state in {Authorized, UploadReserved} || id in gone)
    {
      PrunedExactly(sessions[id], id, now, gone);
    }
    hide Pruned;
  }

  lemma PrunedExactly(s: Session, id: string, now: int, gone: set<string>)
    ensures Pruned(s, id, now, gone) <==>
            s.expires <= now && s.state !in {ResolveInProgress, ApplyUnknown, Resolved} && (s.state in {Authorized, UploadReserved} || id in gone)
  {
    match s.state
    case Authorized =>
    case _ =>
  }

  /**
   * A session is created, or found again under the same terms, and refused exactly if it is there under other
   * terms or there is no room; no creation ever overfills the table.
   */
  lemma CreateExactly(sessions: map<string, Session>, id: string, terms: Terms, now: int, ttl: nat, gone: set<string>)
    ensures var r := Create(sessions, id, terms, now, ttl, gone);
            var live := Prune(sessions, now, gone);
            && (r.Ok? <==> if id in live then live[id].terms == terms else Used(live, now) < MAX_SESSIONS)
            && (r.Ok? ==> && id in r.value && r.value[id].terms == terms
                          && (id in live ==> r.value == live)
                          && (id !in live ==> r.value[id].state == Authorized && r.value[id].expires == now + ttl)
                          && forall x :: x != id ==> (x in r.value <==> x in live) && (x in live ==> r.value[x] == live[x]))
            && (r.Ok? && id !in live ==> Used(r.value, now) <= MAX_SESSIONS)
  {
    hide Prune, TakesRoom;
    var live := Prune(sessions, now, gone);
    var r := Create(sessions, id, terms, now, ttl, gone);
    if r.Ok? && id !in live {
      var before, after := set x | x in live && TakesRoom(live[x], now), set x | x in r.value && TakesRoom(r.value[x], now);
      assert after <= before + {id};
      SubsetSize(after, before + {id});
    }
  }

  /** Which sessions count: all not yet resolving, and resolving ones until they expire. */
  lemma RoomExactly(s: Session, now: int)
    ensures TakesRoom(s, now) <==> s.state != Resolved && (s.state in {ResolveInProgress, ApplyUnknown} ==> now < s.expires)
  {
  }
}
