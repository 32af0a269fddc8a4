/** The owner object of the ingress sessions, changing its stored dictionary in place. */
module SecretIngressOwners {
  import opened Core
  import SecretIngress

  type Session = SecretIngress.Session

  /** The dictionary after a change to one session, if that session is there and the change is allowed. */
  function Updated(sessions: map<string, Session>, id: string, s: Result<Session>): map<string, Session> {
    if id in sessions && s.Ok? then sessions[id := s.value] else sessions
  }

  class AdminSecretIngressOwner {
    var sessions: map<string, Session>
    const ttl: nat

    constructor (ttl: nat)
      ensures sessions == map[] && this.ttl == ttl
    {
      sessions := map[];
      this.ttl := ttl;
    }

    /** `_prune_locked`: a loop over a snapshot of the entries. */
    method PruneLocked(now: int, gone: set<string>) returns (removed: bool)
      modifies this`sessions
      ensures sessions == SecretIngress.Prune(old(sessions), now, gone)
      ensures removed <==> sessions != old(sessions)
    {
      var entries := sessions.Keys;
      removed := false;
      while entries != {}
        invariant entries <= sessions.Keys <= old(sessions).Keys
        invariant forall id :: id in sessions ==> sessions[id] == old(sessions)[id]
        invariant forall id :: id in old(sessions) && id !in entries ==>
                    (id in sessions <==> !SecretIngress.Pruned(old(sessions)[id], id, now, gone))
        invariant removed <==> sessions.Keys != old(sessions).Keys
        decreases |entries|
      {
        var id :| id in entries;
        entries := entries - {id};
        if SecretIngress.Pruned(sessions[id], id, now, gone) {
          sessions := sessions - {id};
          removed := true;
        }
      }
      assert sessions == SecretIngress.Prune(old(sessions), now, gone);
    }

    method CreateSession(id: string, terms: SecretIngress.Terms, now: int, gone: set<string>) returns (result: Result<Session>)
      modifies this`sessions
      ensures var r := SecretIngress.Create(old(sessions), id, terms, now, ttl, gone);
              sessions == (if r.Ok? then r.value else old(sessions)) && (result.Ok? <==> r.Ok?) &&
              (result.Ok? ==> id in sessions && result.value == sessions[id])
    {
      hide SecretIngress.Prune, SecretIngress.Used;
      var stored := sessions;
      var removed := PruneLocked(now, gone);
      if id in sessions {
        if sessions[id].terms != terms {
          sessions := stored;
          return Err("control.request_invalid");
        }
        return Ok(sessions[id]);
      }
      if SecretIngress.Used(sessions, now) >= SecretIngress.MAX_SESSIONS {
        sessions := stored;
        return Err("control.owner_unavailable");
      }
      var s := SecretIngress.Session(terms, None, None, None, now + ttl, None, SecretIngress.Authorized);
      sessions := sessions[id := s];
      return Ok(s);
    }

    /**
     * `commit_upload`: a commit, or nothing for a receipt that is already stored. A replay needs no
     * more; any other claim also needs the vault to hold the secret, which `active` says.
     */
    method CommitUpload(c: SecretIngress.UploadClaim, receipt: int, account: string, active: bool) returns (ok: bool)
      modifies this`sessions
      ensures c.session in old(sessions) ==>
                var s := old(sessions)[c.session];
                var done := SecretIngress.ReceiptMatches(s, c, receipt, account);
                (ok <==> SecretIngress.CommitUpload(s, c, receipt).Ok? || (done && (c.replay || active))) &&
                sessions == Updated(old(sessions), c.session, SecretIngress.CommitUpload(s, c, receipt))
      ensures c.session !in old(sessions) ==> sessions == old(sessions) && !ok
    {
      if c.session !in sessions {
        return false;
      }
      var s := sessions[c.session];
      var done := SecretIngress.ReceiptMatches(s, c, receipt, account);
      if c.replay && done {
        return true;
      }
      if s.state != SecretIngress.UploadInProgress || s.claim != Some(c.id) || receipt != s.terms.generation + 1 {
        return done && active;
      }
      s := s.(state := SecretIngress.Uploaded);
      s := s.(receipt := Some(receipt));
      s := s.(claim := None);
      sessions := sessions[c.session := s];
      return true;
    }

    /** The locked part of `resolve`; `take` tells the caller to go on to the vault. */
    method StartResolve(c: SecretIngress.ResolveClaim) returns (ok: bool, take: bool)
      modifies this`sessions
      ensures c.session in old(sessions) ==>
                var r := SecretIngress.StartResolve(old(sessions)[c.session], c);
                ok == r.Ok? && (r.Ok? ==> take == r.value.1) &&
                sessions == Updated(old(sessions), c.session, if r.Ok? then Ok(r.value.0) else Err(r.code))
      ensures c.session !in old(sessions) ==> !ok && sessions == old(sessions)
      ensures take ==> ok && !c.reconcileOnly
    {
      if c.session !in sessions {
        return false, false;
      }
      var s := sessions[c.session];
      if c.terminalReplay {
        ok := s.state == SecretIngress.Resolved;
        assert sessions[c.session := s] == sessions;
        return ok, false;
      }
      if s.state !in {SecretIngress.ResolveReserved, SecretIngress.ResolveInProgress, SecretIngress.ApplyUnknown} || s.claim != Some(c.id) {
        return false, false;
      }
      if !c.reconcileOnly && s.state != SecretIngress.ResolveReserved {
        return false, false;
      }
      sessions := sessions[c.session := s.(state := SecretIngress.ResolveInProgress)];
      return true, !c.reconcileOnly;
    }

    method RollbackResolve(c: SecretIngress.ResolveClaim)
      modifies this`sessions
      ensures sessions == if c.session in old(sessions)
                          then old(sessions)[c.session := SecretIngress.RollbackResolve(old(sessions)[c.session], c)]
                          else old(sessions)
    {
      if c.session in sessions {
        var s := sessions[c.session];
        if s.state in {SecretIngress.ResolveReserved, SecretIngress.ResolveInProgress} && s.claim == Some(c.id) {
          s := s.(state := SecretIngress.Uploaded, claim := None);
        }
        sessions := sessions[c.session := s];
      }
    }
  }
}
