/** Every run of the registry: readable documents, rising generations, and lease epochs as fences. */
module HostsRuns {
  import opened Core
  import opened Tables
  import opened Hosts
  import opened HostsReading

  /** The history holds the epoch of every binding, and no ssh binding is empty. */
  ghost predicate Grown(s: State) {
    && (forall a :: a in s.agents ==> Entry(a.ref, a.epoch) in s.history)
    && (forall e :: e in s.ssh ==> e.value != [])
  }

  /**
   * From s to a later s': epochs of a host never fall, and a binding under an epoch that s
   * already knew is a binding s had.
   */
  ghost predicate Fence(s: State, s': State) {
    && (forall e :: e in s.history ==> Reaches(s'.history, e.ref, e.value))
    && (forall e, a :: e in s.history && a in s'.agents && a.ref == e.ref ==> e.value <= a.epoch)
    && (forall e, a :: e in s.history && a in s'.agents && a.ref == e.ref && a.epoch == e.value ==> a in s.agents)
  }

  lemma FenceTrans(a: State, b: State, c: State)
    requires Fence(a, b) && Fence(b, c)
    ensures Fence(a, c)
  {
    forall e | e in a.history
      ensures Reaches(c.history, e.ref, e.value)
    {
      var m :| m in b.history && m.ref == e.ref && e.value <= m.value;
      var n :| n in c.history && n.ref == m.ref && m.value <= n.value;
    }
    forall e, x | e in a.history && x in c.agents && x.ref == e.ref
      ensures e.value <= x.epoch
      ensures x.epoch == e.value ==> x in a.agents
    {
      var m :| m in b.history && m.ref == e.ref && e.value <= m.value;
      assert m.value <= x.epoch;
    }
  }

  lemma FenceSelf(env: Env, s: State)
    requires Valid(env, s) && Grown(s)
    ensures Fence(s, s)
  {
    AscendingUnique(EpochRef, s.history);
    forall e, a | e in s.history && a in s.agents && a.ref == e.ref
      ensures e.value <= a.epoch
    {
      SameRecord(EpochRef, s.history, e, Entry(a.ref, a.epoch));
    }
  }

  // ---- pieces shared by the operations ----

  lemma HasPut<T(!new)>(key: T -> Ref, s: seq<T>, x: T, ref: Ref)
    requires Ascending(key, s)
    ensures Has(key, Put(key, s, x), ref) <==> ref == key(x) || Has(key, s, ref)
  {
    PutMembers(key, s, x);
    HasIff(key, s, ref);
    HasIff(key, Put(key, s, x), ref);
    assert x in Put(key, s, x);
  }

  lemma Built(env: Env, s: State)
    requires Orderly(s) && Write(s).Some?
    requires Linked(s.registrations, s.ssh, s.agents, s.observations) && EnabledApart(s.agents)
    requires Ranged(s.registrations, s.agents, s.history)
    requires forall o :: o in s.observations ==> Signed(env, s.ssh, o)
    requires Dated(s.registrations, s.observations, s.generation)
    ensures Valid(env, s)
  {
    hide Linked, EnabledApart, Signed, Ranged, Dated, Covered, Ascending, Unique;
    OrderlyUnique(s);
    DatedIff(s.registrations, s.observations, s.generation);
  }

  /** The stored epoch is in range, never below the history, and equal to it only for the same binding. */
  lemma NextEpochFences(env: Env, s: State, b: Agent)
    requires Valid(env, s) && Grown(s) && AgentOk(b) && NextEpoch(s, b).Ok?
    ensures 1 <= NextEpoch(s, b).value <= MAX_GENERATION
    ensures forall e :: e in s.history && e.ref == b.ref ==> e.value <= NextEpoch(s, b).value
    ensures forall e :: e in s.history && e.ref == b.ref && e.value == NextEpoch(s, b).value ==>
              b.(epoch := NextEpoch(s, b).value) in s.agents
  {
    hide Signed, Linked, Has;
    AscendingUnique(EpochRef, s.history);
    var existing := Find(AgentRef, s.agents, b.ref);
    forall e | e in s.history && e.ref == b.ref
      ensures e.value <= NextEpoch(s, b).value
      ensures e.value == NextEpoch(s, b).value ==> b.(epoch := NextEpoch(s, b).value) in s.agents
    {
      if existing.Some? {
        SameRecord(EpochRef, s.history, e, Entry(existing.value.ref, existing.value.epoch));
      } else {
        SameRecord(EpochRef, s.history, e, Find(EpochRef, s.history, b.ref).value);
      }
    }
  }

  /** What one operation does to a grown, valid state. */
  ghost predicate Advanced(env: Env, s: State, s': State) {
    Valid(env, s') && Grown(s') && Fence(s, s') && (s' == s || s.generation < s'.generation)
  }

  lemma Unmoved(env: Env, s: State)
    requires Valid(env, s) && Grown(s)
    ensures Advanced(env, s, s)
  {
    FenceSelf(env, s);
  }

  lemma FindPut<T(!new)>(key: T -> Ref, s: seq<T>, x: T, ref: Ref)
    requires Ascending(key, s)
    ensures Find(key, Put(key, s, x), ref) == if ref == key(x) then Some(x) else Find(key, s, ref)
  {
    PutMembers(key, s, x);
    AscendingUnique(key, s);
    AscendingUnique(key, Put(key, s, x));
    var f, g := Find(key, Put(key, s, x), ref), Find(key, s, ref);
    if ref == key(x) {
      assert x in Put(key, s, x);
      SameRecord(key, Put(key, s, x), f.value, x);
    } else if g.Some? {
      assert g.value in Put(key, s, x);
      SameRecord(key, Put(key, s, x), f.value, g.value);
    }
  }

  // ---- probes ----

  lemma ProbedLinked(s: State, o: Observation, binding: Private)
    requires Orderly(s) && Linked(s.registrations, s.ssh, s.agents, s.observations)
    ensures var s' := Probed(s, o, binding); Linked(s'.registrations, s'.ssh, s'.agents, s'.observations)
  {
    hide Has, Put;
    var s' := Probed(s, o, binding);
    PutMembers(SshRef, s.ssh, Entry(o.host.ref, binding));
    PutMembers(SeenRef, s.observations, o);
    forall ref
      ensures Has(HostRef, s'.registrations, ref) <==> ref == o.host.ref || Has(HostRef, s.registrations, ref)
      ensures Has(SshRef, s'.ssh, ref) <==> ref == o.host.ref || Has(SshRef, s.ssh, ref)
    {
      HasPut(HostRef, s.registrations, o.host, ref);
      HasPut(SshRef, s.ssh, Entry(o.host.ref, binding), ref);
    }
  }

  lemma ProbedSigned(env: Env, s: State, o: Observation, binding: Private)
    requires Orderly(s) && forall x :: x in s.observations ==> Signed(env, s.ssh, x)
    requires ProbeOk(o.host) && binding != [] && o.digest == env.probe(o.host, binding)
    ensures forall x :: x in Probed(s, o, binding).observations ==> Signed(env, Probed(s, o, binding).ssh, x)
  {
    hide Put, Find;
    PutMembers(SeenRef, s.observations, o);
    forall x | x in Probed(s, o, binding).observations
      ensures Signed(env, Probed(s, o, binding).ssh, x)
    {
      FindPut(SshRef, s.ssh, Entry(o.host.ref, binding), x.host.ref);
    }
  }

  lemma ProbedRanged(s: State, o: Observation, binding: Private)
    requires Orderly(s) && Ranged(s.registrations, s.agents, s.history) && Dated(s.registrations, s.observations, s.generation)
    requires InRange(o.host.generation)
    ensures var s' := Probed(s, o, binding);
            Orderly(s') && Ranged(s'.registrations, s'.agents, s'.history) && Dated(s'.registrations, s'.observations, s'.generation)
  {
    hide Put, Ascending;
    PutMembers(HostRef, s.registrations, o.host);
    PutMembers(SshRef, s.ssh, Entry(o.host.ref, binding));
    PutMembers(SeenRef, s.observations, o);
  }

  /** A changed registry list does not matter to the epochs. */
  lemma SameEpochs(env: Env, s: State, s': State)
    requires Valid(env, s) && Grown(s) && s'.agents == s.agents && s'.history == s.history
    ensures Fence(s, s')
  {
    FenceSelf(env, s);
  }

  lemma ProbedAdvances(env: Env, s: State, o: Observation, binding: Private)
    requires Valid(env, s) && Grown(s)
    ensures Write(Probed(s, o, binding)).Some? && ProbeOk(o.host) && binding != [] && o.digest == env.probe(o.host, binding) ==>
              Advanced(env, s, Probed(s, o, binding))
  {
    hide Put, Signed, Linked, Ranged, Dated, Orderly, Unique, Covered, Write;
    var s' := Probed(s, o, binding);
    if Write(s').Some? && ProbeOk(o.host) && binding != [] && o.digest == env.probe(o.host, binding) {
      DatedIff(s.registrations, s.observations, s.generation);
      ProbedLinked(s, o, binding);
      ProbedSigned(env, s, o, binding);
      ProbedRanged(s, o, binding);
      Built(env, s');
      SameEpochs(env, s, s');
      assert Ascending(SshRef, s.ssh) by { OrderlyLists(s); }
      PutMembers(SshRef, s.ssh, Entry(o.host.ref, binding));
    }
  }

  lemma OrderlyLists(s: State)
    requires Orderly(s)
    ensures Ascending(HostRef, s.registrations) && Ascending(SshRef, s.ssh) && Ascending(AgentRef, s.agents)
    ensures Ascending(SeenRef, s.observations) && Ascending(EpochRef, s.history)
  {
  }

  lemma RecordProbeAdvances(env: Env, s: State, h: Host, binding: Private)
    requires Valid(env, s) && Grown(s)
    ensures RecordProbe(env, s, h, binding).Ok? ==> Advanced(env, s, RecordProbe(env, s, h, binding).value.0)
  {
    hide Valid, Grown, Advanced, Write, Probed, Find;
    Unmoved(env, s);
    ProbedAdvances(env, s, Observation(h, env.probe(h, binding)), binding);
  }

  /** An active probe may be recorded over an ssh binding exactly if that binding is not empty. */
  predicate Probeable(s: State, ref: Ref) {
    var bound := Find(SshRef, s.ssh, ref);
    bound.None? || bound.value.value != []
  }

  lemma RefreshedLinked(s: State, o: Observation)
    requires Orderly(s) && Linked(s.registrations, s.ssh, s.agents, s.observations)
    requires Has(HostRef, s.registrations, o.host.ref)
    requires Has(SshRef, s.ssh, o.host.ref) || Has(AgentRef, s.agents, o.host.ref)
    ensures var s' := Refreshed(s, o); Linked(s'.registrations, s'.ssh, s'.agents, s'.observations)
  {
    hide Has, Put;
    PutMembers(SeenRef, s.observations, o);
  }

  lemma RefreshedSigned(env: Env, s: State, o: Observation)
    requires Orderly(s) && (forall x :: x in s.observations ==> Signed(env, s.ssh, x)) && IsActive(env, o)
    ensures (forall x :: x in Refreshed(s, o).observations ==> Signed(env, s.ssh, x)) <==> Probeable(s, o.host.ref)
  {
    hide Put, Find;
    PutMembers(SeenRef, s.observations, o);
    assert o in Refreshed(s, o).observations;
  }

  lemma RefreshedRanged(s: State, o: Observation)
    requires Orderly(s) && Dated(s.registrations, s.observations, s.generation)
    ensures var s' := Refreshed(s, o); Orderly(s') && Dated(s'.registrations, s'.observations, s'.generation)
  {
    hide Put, Ascending;
    PutMembers(SeenRef, s.observations, o);
  }

  lemma RefreshedReadable(env: Env, s: State, o: Observation)
    requires Valid(env, s) && Write(Refreshed(s, o)).Some? && IsActive(env, o)
    requires Has(HostRef, s.registrations, o.host.ref)
    requires Has(SshRef, s.ssh, o.host.ref) || Has(AgentRef, s.agents, o.host.ref)
    ensures Acceptable(env, Refreshed(s, o)) <==> Probeable(s, o.host.ref)
    ensures Probeable(s, o.host.ref) ==> Valid(env, Refreshed(s, o))
  {
    hide Put, Signed, Linked, Ranged, Dated, Orderly, Unique, Covered, Has, Find, IsActive;
    var s' := Refreshed(s, o);
    DatedIff(s.registrations, s.observations, s.generation);
    RefreshedLinked(s, o);
    RefreshedSigned(env, s, o);
    RefreshedRanged(s, o);
    if Probeable(s, o.host.ref) {
      Built(env, s');
    }
  }

  lemma ActiveProbeShape(env: Env, s: State, ref: Ref, generation: int, resources: Resources, at: int) returns (o: Observation)
    requires RecordActiveProbe(env, s, ref, generation, resources, at).Ok?
    requires RecordActiveProbe(env, s, ref, generation, resources, at).value.0 != s
    ensures RecordActiveProbe(env, s, ref, generation, resources, at).value.0 == Refreshed(s, o)
    ensures Write(Refreshed(s, o)).Some? && IsActive(env, o) && o.host.ref == ref && Has(HostRef, s.registrations, ref)
    ensures Has(SshRef, s.ssh, ref) || Has(AgentRef, s.agents, ref)
  {
    hide Write, Refreshed;
    var known := Find(HostRef, s.registrations, ref).value;
    o := ActiveObservation(env, ref, generation, known.meta, resources, at);
    assert HostRef(known) == ref;
    HasIff(HostRef, s.registrations, ref);
  }

  /**
   * A changed document after an active probe is readable exactly when the host's ssh binding, if
   * it has one, is not empty; the reader accepts an empty one only as long as nothing is observed.
   */
  lemma ActiveProbeReadable(env: Env, s: State, ref: Ref, generation: int, resources: Resources, at: int)
    requires Valid(env, s)
    ensures var r := RecordActiveProbe(env, s, ref, generation, resources, at);
            r.Ok? && r.value.0 != s ==> (Acceptable(env, r.value.0) <==> Probeable(s, ref))
  {
    hide RecordActiveProbe, Valid, Acceptable, Write, IsActive, Probeable;
    var r := RecordActiveProbe(env, s, ref, generation, resources, at);
    if r.Ok? && r.value.0 != s {
      var o := ActiveProbeShape(env, s, ref, generation, resources, at);
      RefreshedReadable(env, s, o);
    }
  }

  const BareHost := Host("h", Meta("label", "worker", "ssh", "h", []), Reach("unknown", None), Resources(None, None), 0, None, InventoryAgent)

  /** One host with an empty ssh binding, not yet observed. */
  const BareState := State([BareHost], [Entry("h", [])], [], [], 0, [])

  lemma BareValid(env: Env)
    ensures Valid(env, BareState)
  {
    assert HostRef(BareHost) == "h" && BareState.registrations[0] == BareHost;
    assert Has(HostRef, BareState.registrations, "h");
    DatedIff(BareState.registrations, [], 0);
  }

  /** The reader accepts that state; an active probe of the host is stored and makes the document unreadable. */
  lemma ProbeOverEmptyBinding(env: Env)
    ensures Valid(env, BareState)
    ensures var r := RecordActiveProbe(env, BareState, "h", 1, Resources(None, None), 0);
            r.Ok? && !Acceptable(env, r.value.0) && Read(env, Some(V3(r.value.0))) == None
  {
    hide Valid, Acceptable, Put, Signed, DocumentGeneration, Sorted;
    BareValid(env);
    var s := BareState;
    assert SshRef(s.ssh[0]) == "h" && HostRef(s.registrations[0]) == "h";
    assert Has(SshRef, s.ssh, "h");
    assert Find(HostRef, s.registrations, "h") == Some(BareHost);
    assert Find(SshRef, s.ssh, "h") == Some(Entry("h", []));
    var o := ActiveObservation(env, "h", 1, BareHost.meta, Resources(None, None), 0);
    PutMembers(SeenRef, [], o);
    ActiveProbeReadable(env, s, "h", 1, Resources(None, None), 0);
  }

  lemma GrownProbeable(s: State, ref: Ref)
    requires Grown(s)
    ensures Probeable(s, ref)
  {
  }

  lemma ActiveProbeAdvances(env: Env, s: State, ref: Ref, generation: int, resources: Resources, at: int)
    requires Valid(env, s) && Grown(s)
    ensures var r := RecordActiveProbe(env, s, ref, generation, resources, at); r.Ok? ==> Advanced(env, s, r.value.0)
  {
    hide RecordActiveProbe, Valid, Acceptable, Write, IsActive, Probeable, Fence, Put;
    Unmoved(env, s);
    var r := RecordActiveProbe(env, s, ref, generation, resources, at);
    if r.Ok? && r.value.0 != s {
      var o := ActiveProbeShape(env, s, ref, generation, resources, at);
      GrownProbeable(s, ref);
      RefreshedReadable(env, s, o);
      SameEpochs(env, s, Refreshed(s, o));
    }
  }

  // ---- provisioning ----

  lemma ProvisionedLinked(s: State, h: Host, stored: Agent)
    requires Orderly(s) && Linked(s.registrations, s.ssh, s.agents, s.observations) && h.ref == stored.ref
    ensures var s' := Provisioned(s, h, stored); Linked(s'.registrations, s'.ssh, s'.agents, s'.observations)
  {
    hide Has, Put;
    var s' := Provisioned(s, h, stored);
    PutMembers(AgentRef, s.agents, stored);
    forall ref
      ensures Has(HostRef, s'.registrations, ref) <==> ref == h.ref || Has(HostRef, s.registrations, ref)
      ensures Has(AgentRef, s'.agents, ref) <==> ref == h.ref || Has(AgentRef, s.agents, ref)
    {
      HasPut(HostRef, s.registrations, h, ref);
      HasPut(AgentRef, s.agents, stored, ref);
    }
  }

  /** What the checks before the write establish about the binding to store. */
  ghost predicate Fencing(s: State, stored: Agent) {
    && AgentOk(stored)
    && (forall e :: e in s.history && e.ref == stored.ref ==> e.value <= stored.epoch)
    && (forall e :: e in s.history && e.ref == stored.ref && e.value == stored.epoch ==> stored in s.agents)
  }

  lemma ProvisionedFences(env: Env, s: State, h: Host, stored: Agent)
    requires Valid(env, s) && Grown(s) && Fencing(s, stored)
    ensures Fence(s, Provisioned(s, h, stored)) && Grown(Provisioned(s, h, stored))
  {
    hide Put, Acceptable, Ascending, Reaches;
    var s' := Provisioned(s, h, stored);
    FenceSelf(env, s);
    PutMembers(AgentRef, s.agents, stored);
    PutMembers(EpochRef, s.history, Entry(stored.ref, stored.epoch));
    forall x | x in s.history
      ensures Reaches(s'.history, x.ref, x.value)
    {
      PutReaches(s.history, stored, x);
    }
  }

  lemma PutReaches(history: seq<Entry<int>>, stored: Agent, x: Entry<int>)
    requires Ascending(EpochRef, history) && x in history && (x.ref == stored.ref ==> x.value <= stored.epoch)
    ensures Reaches(Put(EpochRef, history, Entry(stored.ref, stored.epoch)), x.ref, x.value)
  {
    hide Put, Ascending;
    var e := Entry(stored.ref, stored.epoch);
    PutMembers(EpochRef, history, e);
    var y := if x.ref == stored.ref then e else x;
    assert y in Put(EpochRef, history, e);
  }

  lemma ProvisionedRanged(s: State, h: Host, stored: Agent)
    requires Orderly(s) && Ranged(s.registrations, s.agents, s.history) && Dated(s.registrations, s.observations, s.generation)
    requires AgentOk(stored) && h.generation == s.generation + 1 <= MAX_GENERATION
    ensures var s' := Provisioned(s, h, stored);
            Orderly(s') && Ranged(s'.registrations, s'.agents, s'.history) && Dated(s'.registrations, s'.observations, s'.generation)
  {
    hide Put, Ascending;
    PutMembers(HostRef, s.registrations, h);
    PutMembers(AgentRef, s.agents, stored);
    PutMembers(EpochRef, s.history, Entry(stored.ref, stored.epoch));
  }

  /** No other host's enabled binding has the key. */
  predicate KeyFree(s: State, b: Agent) {
    forall a :: a in s.agents && a.enabled && b.enabled && a.spki == b.spki ==> a.ref == b.ref
  }

  lemma ProvisionedApart(s: State, h: Host, stored: Agent)
    requires Orderly(s) && EnabledApart(s.agents) && KeyFree(s, stored)
    ensures EnabledApart(Provisioned(s, h, stored).agents)
  {
    hide Put;
    PutMembers(AgentRef, s.agents, stored);
  }

  lemma ProvisionedAdvances(env: Env, s: State, h: Host, stored: Agent)
    requires Valid(env, s) && Grown(s) && Fencing(s, stored) && KeyFree(s, stored)
    requires h.ref == stored.ref && h.generation == s.generation + 1 <= MAX_GENERATION && Write(Provisioned(s, h, stored)).Some?
    ensures Advanced(env, s, Provisioned(s, h, stored))
  {
    hide Put, Signed, Linked, Ranged, Dated, Orderly, Unique, Covered, EnabledApart, Fence, Grown;
    DatedIff(s.registrations, s.observations, s.generation);
    ProvisionedLinked(s, h, stored);
    ProvisionedFences(env, s, h, stored);
    ProvisionedRanged(s, h, stored);
    ProvisionedApart(s, h, stored);
    Built(env, Provisioned(s, h, stored));
  }

  lemma ValidRange(env: Env, s: State)
    requires Valid(env, s)
    ensures InRange(s.generation)
  {
    DatedIff(s.registrations, s.observations, s.generation);
  }

  lemma ProvisionAdvances(env: Env, s: State, r: Static, b: Agent, expected: int)
    requires Valid(env, s) && Grown(s)
    ensures Provision(s, r, b, expected).Ok? ==> Advanced(env, s, Provision(s, r, b, expected).value.0)
  {
    hide Valid, Grown, Advanced, Write, Provisioned, Find, NextEpoch;
    Unmoved(env, s);
    if Provision(s, r, b, expected).Ok? && Provision(s, r, b, expected).value.0 != s {
      NextEpochFences(env, s, b);
      ValidRange(env, s);
      ProvisionedAdvances(env, s, StaticHost(r, s.generation + 1), b.(epoch := NextEpoch(s, b).value));
    }
  }

  lemma RepeatedEpoch(s: State, b: Agent, stored: Agent)
    requires b.epoch == 1 && stored == b.(epoch := stored.epoch) && Find(AgentRef, s.agents, b.ref) == Some(stored)
    ensures NextEpoch(s, b) == Ok(stored.epoch)
  {
  }

  lemma ProvisionedFinds(s: State, h: Host, stored: Agent)
    requires Orderly(s) && h.ref == stored.ref
    ensures Find(AgentRef, Provisioned(s, h, stored).agents, stored.ref) == Some(stored)
    ensures Find(HostRef, Provisioned(s, h, stored).registrations, h.ref) == Some(h)
  {
    hide Put, Find;
    FindPut(AgentRef, s.agents, stored, stored.ref);
    FindPut(HostRef, s.registrations, h, h.ref);
  }

  lemma StillFree(s: State, h: Host, b: Agent, stored: Agent)
    requires Orderly(s) && stored == b.(epoch := stored.epoch) && KeyFree(s, b)
    ensures KeyFree(Provisioned(s, h, stored), b)
  {
    hide Put;
    PutMembers(AgentRef, s.agents, stored);
  }

  /** Provisioning the same binding again, at the new generation, returns the stored host and changes nothing. */
  lemma ProvisionTwice(s: State, r: Static, b: Agent)
    requires Orderly(s) && b.epoch == 1 && Provision(s, r, b, s.generation).Ok?
    ensures var (s', h) := Provision(s, r, b, s.generation).value; Provision(s', r, b, s'.generation) == Ok((s', h))
  {
    hide Find, Put, Write, NextEpoch;
    var (s', h) := Provision(s, r, b, s.generation).value;
    if s' != s {
      var stored := b.(epoch := NextEpoch(s, b).value);
      ProvisionedFinds(s, h, stored);
      RepeatedEpoch(s', b, stored);
      assert KeyFree(s, b);
      StillFree(s, h, b, stored);
    }
  }
}
