/** The capability objects and the transaction object, field by field, against their value models. */
module IngressObjects {
  import opened Core
  import opened Q1Record
  import opened Q1Capability
  import IngressTransaction

  class CapabilityObject {
    var fd: int
    var consumed: bool
    const key: Key

    constructor (fd: int, key: Key)
      ensures this.fd == fd && this.key == key && !consumed
    {
      this.fd, this.key, consumed := fd, key, false;
    }
  }

  /** The module-level registry of live capabilities and the identities ever issued. */
  class CapabilityRegistry {
    var live: set<CapabilityObject>
    var issued: set<Key>

    constructor ()
      ensures live == {} && issued == {}
    {
      live, issued := {}, {};
    }

    ghost function View(c: CapabilityObject): Capability
      reads this, c
    {
      Capability(c.fd, c.key, c in live, c.consumed)
    }

    method Issue(fd: int, table: map<int, Key>) returns (r: Option<CapabilityObject>)
      modifies this
      ensures r.Some? <==>
              0 <= fd < FdLimit && fd in table && Unsigned64(table[fd].0) && Unsigned64(table[fd].1) && table[fd] !in old(issued)
      ensures r.Some? ==> fresh(r.value) && View(r.value) == Capability(fd, table[fd], true, false)
      ensures r.Some? ==> issued == old(issued) + {table[fd]} && live == old(live) + {r.value}
      ensures r.None? ==> issued == old(issued) && live == old(live)
    {
      if !(0 <= fd < FdLimit) || fd !in table {
        return None;
      }
      var key := table[fd];
      if !Unsigned64(key.0) || !Unsigned64(key.1) || key in issued {
        return None;
      }
      var capability := new CapabilityObject(fd, key);
      issued := issued + {key};
      live := live + {capability};
      return Some(capability);
    }

    method Take(c: CapabilityObject, table: map<int, Key>) returns (fd: Option<int>)
      modifies this`live, c
      ensures View(c) == TakeOne(old(View(c)), table).after && fd == TakeOne(old(View(c)), table).fd
      ensures live == old(live) - {c}
    {
      var known := c in live;
      live := live - {c};
      if !known || c.consumed {
        return None;
      }
      c.consumed := true;
      var taken := c.fd;
      c.fd := -1;
      if taken !in table || table[taken] != c.key {
        return None;
      }
      return Some(taken);
    }
  }

  class DescriptorTable {
    var value: Descriptors

    constructor (value: Descriptors)
      ensures this.value == value
    {
      this.value := value;
    }
  }

  class Transaction {
    const policy: IngressTransaction.Policy
    const files: DescriptorTable
    var state: IngressTransaction.State
    var active: Option<IngressTransaction.Call>
    var attestation: Option<IngressTransaction.Attestation>
    var authorization: Option<string>
    var capability: Option<CapId>
    var decoded: Option<Record>
    var peer: Option<IngressTransaction.Peer>
    ghost var trail: seq<IngressTransaction.Call>
    ghost var offered: set<CapId>

    constructor (policy: IngressTransaction.Policy, files: DescriptorTable)
      requires IngressTransaction.PolicyOk(policy)
      ensures Model() == IngressTransaction.Fresh(policy) && this.files == files
    {
      this.policy, this.files := policy, files;
      state, active, attestation, authorization := IngressTransaction.New, None, None, None;
      capability, decoded, peer := None, None, None;
      trail, offered := [], {};
    }

    ghost function Model(): IngressTransaction.Txn
      reads this
    {
      IngressTransaction.Txn(policy, state, active, None, attestation, authorization, capability, decoded, peer, trail, offered)
    }

    /** `_abort`: everything held is dropped first, then the capability is discarded. */
    method AbortAll()
      modifies this, files
      ensures Model() == IngressTransaction.AbortTxn(old(Model()))
      ensures files.value == IngressTransaction.Release(old(files.value), old(capability))
    {
      var held := capability;
      capability := None;
      attestation := None;
      decoded := None;
      peer := None;
      state := IngressTransaction.Aborted;
      if held.Some? {
        files.value := Discard(files.value, held.value);
      }
    }

    /** A failed call: abort, and the `finally` that clears the active mark. */
    method Failure()
      modifies this, files
      ensures Model() == IngressTransaction.Fail(old(Model()), old(files.value)).0
      ensures files.value == IngressTransaction.Fail(old(Model()), old(files.value)).1
    {
      AbortAll();
      active := None;
    }

    ghost predicate Performed(env: IngressTransaction.Env, before: IngressTransaction.Txn, d: Descriptors,
                              c: IngressTransaction.Call, k: Readback)
      reads this, files
    {
      IngressTransaction.Perform(env, before, d, c, k) == (Model(), files.value)
    }

    method Enter(c: IngressTransaction.Call) returns (ok: bool)
      requires !c.Move?
      modifies this, files
      ensures IngressTransaction.Begin(old(Model()), old(files.value), c) == (Model(), files.value)
      ensures ok <==> old(active).None? && old(state) == IngressTransaction.Expected(c)
    {
      if active.Some? || state != IngressTransaction.Expected(c) {
        AbortAll();
        return false;
      }
      active := Some(c);
      return true;
    }

    method VerifyA(env: IngressTransaction.Env, seen: IngressTransaction.Peer, owner: IngressTransaction.Owner, k: Readback)
      returns (ok: bool)
      modifies this, files
      ensures Performed(env, old(Model()), old(files.value), IngressTransaction.VerifyA(seen, owner), k)
      ensures ok <==> old(active).None? && old(state) == IngressTransaction.New && IngressTransaction.Admits(policy, seen, owner)
    {
      hide IngressTransaction.Release;
      ok := Enter(IngressTransaction.VerifyA(seen, owner));
      if ok {
        if IngressTransaction.Admits(policy, seen, owner) {
          peer := Some(seen);
          state := IngressTransaction.AVerified;
          active := None;
          trail := trail + [IngressTransaction.VerifyA(seen, owner)];
        } else {
          Failure();
          ok := false;
        }
      }
    }

    method Authorize(env: IngressTransaction.Env, k: Readback) returns (ok: bool)
      modifies this, files
      ensures Performed(env, old(Model()), old(files.value), IngressTransaction.Authorize, k)
      ensures ok <==> old(active).None? && old(state) == IngressTransaction.AVerified
    {
      hide IngressTransaction.Release;
      ok := Enter(IngressTransaction.Authorize);
      if ok {
        authorization := Some(policy.polkit);
        state := IngressTransaction.Authorized;
        active := None;
        trail := trail + [IngressTransaction.Authorize];
      }
    }

    method MoveCapability(env: IngressTransaction.Env, given: Option<IngressTransaction.Attestation>, cap: Option<CapId>,
                          k: Readback)
      returns (ok: bool)
      modifies this, files
      ensures Performed(env, old(Model()), old(files.value), IngressTransaction.Move(given, cap), k)
      ensures ok <==> old(active).None? && old(state) == IngressTransaction.Authorized && given.Some? && cap.Some?
    {
      hide Discard;
      ghost var call := IngressTransaction.Move(given, cap);
      if cap.Some? {
        offered := offered + {cap.value};
      }
      if active.Some? || state != IngressTransaction.Authorized {
        var held := capability;
        AbortAll();
        if cap.Some? && cap != held {
          files.value := Discard(files.value, cap.value);
        }
        return false;
      }
      active := Some(IngressTransaction.Move(given, cap));
      capability := cap;
      if cap.None? || given.None? {
        Failure();
        return false;
      }
      attestation := given;
      state := IngressTransaction.CapabilityMoved;
      active := None;
      trail := trail + [call];
      return true;
    }

    method Decode(env: IngressTransaction.Env, k: Readback) returns (ok: bool)
      modifies this, files
      ensures Performed(env, old(Model()), old(files.value), IngressTransaction.DecodeRecord, k)
      ensures ok <==> old(active).None? && old(state) == IngressTransaction.CapabilityMoved && old(capability).Some? &&
                      old(attestation).Some? &&
                      var record := DecodeCapability(env.codec, old(files.value), old(capability).value, k).1;
                      record.Some? && IngressTransaction.Binds(env.sha, policy, old(attestation).value, record.value)
    {
      hide Discard, DecodeCapability, IngressTransaction.Binds;
      ok := Enter(IngressTransaction.DecodeRecord);
      if !ok {
        return;
      }
      if capability.None? {
        Failure();
        return false;
      }
      var taken := capability.value;
      capability := None;
      var (after, record) := DecodeCapability(env.codec, files.value, taken, k);
      files.value := after;
      if record.None? || attestation.None? || !IngressTransaction.Binds(env.sha, policy, attestation.value, record.value) {
        Failure();
        return false;
      }
      decoded := record;
      state := IngressTransaction.DecodedBound;
      active := None;
      trail := trail + [IngressTransaction.DecodeRecord];
    }

    /** `_verify_later`, for both later observations. */
    method VerifyLater(env: IngressTransaction.Env, c: IngressTransaction.Call, k: Readback) returns (ok: bool)
      requires c.VerifyB? || c.VerifyC?
      modifies this, files
      ensures Performed(env, old(Model()), old(files.value), c, k)
      ensures ok <==> old(active).None? && old(state) == IngressTransaction.Expected(c) && old(peer).Some? &&
                      IngressTransaction.Continuous(old(peer).value, c.peer, c.owner, policy)
    {
      hide IngressTransaction.Release, IngressTransaction.Continuous;
      ok := Enter(c);
      if !ok {
        return;
      }
      if peer.None? || !IngressTransaction.Continuous(peer.value, c.peer, c.owner, policy) {
        Failure();
        return false;
      }
      state := IngressTransaction.Next(IngressTransaction.Expected(c));
      active := None;
      trail := trail + [c];
    }

    method Close(env: IngressTransaction.Env, k: Readback) returns (ok: bool)
      modifies this, files
      ensures Performed(env, old(Model()), old(files.value), IngressTransaction.Close, k)
      ensures ok <==> old(active).None? && old(state) == IngressTransaction.CVerified
    {
      hide IngressTransaction.Release;
      ok := Enter(IngressTransaction.Close);
      if ok {
        attestation := None;
        decoded := None;
        peer := None;
        state := IngressTransaction.Closed;
        active := None;
        trail := trail + [IngressTransaction.Close];
      }
    }
  }
}
