/**
 * What single calls on the registry check and leave behind, by membership, and what that means over
 * whole runs: an expected generation is spent by the change it allowed, and probes never go back.
 */
module HostsCalls {
  import opened Core
  import opened Tables
  import opened Hosts
  import opened HostsReading
  import opened HostsRuns
  import opened HostsSync
  import opened HostsHistory

  // ---- the generation compare-and-swap ----

  /** Provisioning is refused with a generation conflict exactly for a well-formed call that expects another generation. */
  lemma ProvisionCompares(s: State, r: Static, b: Agent, expected: int)
    ensures Provision(s, r, b, expected).Ok? ==> expected == s.generation
    ensures Provision(s, r, b, expected) == Err("credential.generation_conflict")
            <==> AgentOk(b) && b.ref == r.ref && expected != s.generation
  {
    hide Provisioned, Write, Find, SameButGeneration;
  }

  /** The same for synchronizing, where no expectation is always met. */
  lemma SynchronizeCompares(s: State, wanted: seq<Wanted>, expected: Option<int>)
    ensures Synchronize(s, wanted, expected).Ok? ==> expected == None || expected == Some(s.generation)
    ensures Synchronize(s, wanted, expected) == Err("credential.generation_conflict")
            <==> && (forall i :: 0 <= i < |wanted| ==> AgentOk(wanted[i].binding)) && WantedOk(wanted)
                 && expected != None && expected != Some(s.generation)
  {
    hide SyncState, Write, SyncChanges, WantedOk, Prepare;
    PrepareCodes(s, wanted);
  }

  lemma {:induction false} PrepareCodes(s: State, wanted: seq<Wanted>)
    ensures PrepareAll(s, wanted) != Err("credential.generation_conflict")
  {
    if wanted != [] {
      PrepareCodes(s, wanted[..|wanted| - 1]);
      var last := Prepare(s, wanted[|wanted| - 1]);
      hide Find, SameButGeneration;
      assert last != Err("credential.generation_conflict");
    }
  }

  /** The generation a call was told to expect. */
  function Expects(op: Op): Option<int> {
    match op
    case DoProvision(_, _, expected) => Some(expected)
    case DoSynchronize(_, expected) => expected
    case _ => None
  }

  lemma ChangeExpected(env: Env, s: State, op: Op)
    requires Next(env, s, op) != s && Expects(op).Some?
    ensures Expects(op) == Some(s.generation)
  {
    hide Provision, Synchronize, RecordProbe, RecordActiveProbe;
    match op
    case DoProvision(r, b, expected) => ProvisionCompares(s, r, b, expected);
    case DoSynchronize(wanted, expected) => SynchronizeCompares(s, wanted, expected);
    case _ =>
  }

  /**
   * Over every run: of two calls that change the registry and were given an expected generation, the
   * later was given a strictly larger one, so no expectation lets two changes through.
   */
  lemma ExpectationsSpentOnce(env: Env, file: Option<Document>, ops: seq<Op>, m: nat, n: nat)
    requires m < n < |ops| && Sound(env, file)
    requires StateAt(env, file, ops, m + 1) != StateAt(env, file, ops, m) && Expects(ops[m]).Some?
    requires StateAt(env, file, ops, n + 1) != StateAt(env, file, ops, n) && Expects(ops[n]).Some?
    ensures Expects(ops[m]).value < Expects(ops[n]).value
  {
    hide StateAt, Sound, Next, Expects, Advanced, Fence;
    StateNext(env, file, ops, m);
    StateNext(env, file, ops, n);
    ChangeExpected(env, StateAt(env, file, ops, m), ops[m]);
    ChangeExpected(env, StateAt(env, file, ops, n), ops[n]);
    WritesRaise(env, file, ops, m);
    FencedRun(env, file, ops, m + 1, n);
  }

  // ---- what provisioning stores ----

  /** The registration a static entry calls for, at any generation. */
  ghost predicate Registers(h: Host, r: Static) {
    && h.ref == r.ref && h.source == StaticAgentBinding && h.observedAt == None
    && h.meta == Meta(r.title, r.role, "outbound-pull-mtls", r.ref, r.capabilities)
    && h.reach == Reach("unavailable", None) && h.resources == Resources(None, None)
  }

  /** The lease epoch of a binding: kept while nothing changes, else one past what the host had. */
  ghost predicate Lease(s: State, b: Agent, epoch: int) {
    && (forall a :: a in s.agents && a.ref == b.ref ==>
          epoch == if a.spki == b.spki && a.enabled == b.enabled then a.epoch else a.epoch + 1)
    && (forall e :: e in s.history && e.ref == b.ref && Unbound(s, b.ref) ==> epoch == e.value + 1)
    && (Unbound(s, b.ref) && (forall e :: e in s.history ==> e.ref != b.ref) ==> epoch == b.epoch)
    && (b.epoch == 1 || b.epoch == epoch)
  }

  ghost predicate Unbound(s: State, ref: Ref) {
    forall a :: a in s.agents ==> a.ref != ref
  }

  lemma Leased(env: Env, s: State, b: Agent)
    requires Valid(env, s) && NextEpoch(s, b).Ok?
    ensures Lease(s, b, NextEpoch(s, b).value)
  {
    hide Signed, Linked, Has, Covered, Ranged, EnabledApart, DocumentGeneration;
    AscendingUnique(EpochRef, s.history);
    AscendingUnique(AgentRef, s.agents);
    var existing, prior := Find(AgentRef, s.agents, b.ref), Find(EpochRef, s.history, b.ref);
    forall a | a in s.agents && a.ref == b.ref ensures existing == Some(a) {
      SameRecord(AgentRef, s.agents, a, existing.value);
    }
    forall e | e in s.history && e.ref == b.ref ensures prior == Some(e) {
      SameRecord(EpochRef, s.history, e, prior.value);
    }
  }

  /** In the new list the record of `x` replaced the one of its reference, and nothing else changed. */
  ghost predicate Replaced<T(!new)>(key: T -> Ref, s: seq<T>, s': seq<T>, x: T) {
    forall y :: y in s' <==> y == x || (y in s && key(y) != key(x))
  }

  lemma FoundReplaced<T(!new)>(key: T -> Ref, s: seq<T>, x: T)
    requires Ascending(key, s) && Find(key, s, key(x)) == Some(x)
    ensures Replaced(key, s, s, x)
  {
    AscendingUnique(key, s);
    forall y | y in s && key(y) == key(x) ensures y == x {
      SameRecord(key, s, x, y);
    }
  }

  ghost predicate Binds(s: State, r: Static, b: Agent, s': State, h: Host, stored: Agent) {
    && stored == b.(epoch := stored.epoch) && Lease(s, b, stored.epoch) && Registers(h, r)
    && Replaced(AgentRef, s.agents, s'.agents, stored)
    && Replaced(HostRef, s.registrations, s'.registrations, h)
    && s'.ssh == s.ssh && s'.observations == s.observations
  }

  /** A successful call leaves exactly the binding asked for, its registration, and everything of other hosts. */
  lemma ProvisionBinds(env: Env, s: State, r: Static, b: Agent, expected: int)
    requires Valid(env, s) && Provision(s, r, b, expected).Ok?
    ensures var (s', h) := Provision(s, r, b, expected).value;
            KeyFree(s, b) && (s' != s ==> h.generation == s'.generation == s.generation + 1) && exists stored :: Binds(s, r, b, s', h, stored)
  {
    hide Acceptable, Lease, Put, Write, NextEpoch, Find, Ascending;
    var (s', h) := Provision(s, r, b, expected).value;
    var stored := b.(epoch := NextEpoch(s, b).value);
    Leased(env, s, b);
    OrderlyLists(s);
    PutMembers(AgentRef, s.agents, stored);
    PutMembers(HostRef, s.registrations, h);
    if s' == s {
      FoundReplaced(AgentRef, s.agents, stored);
      FoundReplaced(HostRef, s.registrations, h);
    }
    assert Binds(s, r, b, s', h, stored);
  }

  // ---- what synchronizing stores ----

  /** The bindings after synchronizing are those wanted, each under its lease epoch. */
  ghost predicate SyncedAgents(s: State, wanted: seq<Wanted>, agents: seq<Agent>) {
    && (forall i :: 0 <= i < |wanted| ==> exists a :: a in agents && IsLease(s, wanted[i].binding, a))
    && (forall a :: a in agents ==> exists i :: 0 <= i < |wanted| && IsLease(s, wanted[i].binding, a))
  }

  /** Registered are the wanted hosts and, as they were, those that are there for another reason than a binding. */
  ghost predicate SyncedHosts(s: State, wanted: seq<Wanted>, hosts: seq<Host>) {
    && (forall i :: 0 <= i < |wanted| ==> exists h :: h in hosts && Registers(h, wanted[i].registration))
    && (forall h: Host :: h.ref !in Refs(wanted) ==>
          (h in hosts <==> h in s.registrations && (Has(SshRef, s.ssh, h.ref) || h.source != StaticAgentBinding)))
  }

  /** The host is registered and bound just as wanted. */
  ghost predicate Unchanged(s: State, w: Wanted, h: Host) {
    h in s.registrations && Registers(h, w.registration) && exists a :: a in s.agents && IsLease(s, w.binding, a)
  }

  ghost predicate IsLease(s: State, b: Agent, a: Agent) {
    a == b.(epoch := a.epoch) && Lease(s, b, a.epoch)
  }

  lemma PreparedLease(env: Env, s: State, w: Wanted)
    requires Valid(env, s) && Prepare(s, w).Ok?
    ensures var p := Prepare(s, w).value;
            && IsLease(s, w.binding, p.agent) && p.registration == w.registration
            && (!p.changed ==> p.agent in s.agents && exists h :: h in s.registrations && Registers(h, w.registration))
    ensures Registers(PreparedHost(s, Prepare(s, w).value, s.generation + 1), w.registration)
  {
    hide Valid, Lease, NextEpoch;
    Leased(env, s, w.binding);
  }

  lemma Preparations(env: Env, s: State, wanted: seq<Wanted>)
    requires Valid(env, s) && PrepareAll(s, wanted).Ok?
    ensures var prepared := PrepareAll(s, wanted).value;
            && |prepared| == |wanted|
            && forall i :: 0 <= i < |wanted| ==>
                 && IsLease(s, wanted[i].binding, prepared[i].agent)
                 && Registers(PreparedHost(s, prepared[i], s.generation + 1), wanted[i].registration)
                 && (!prepared[i].changed ==>
                       prepared[i].agent in s.agents && exists h :: h in s.registrations && Registers(h, wanted[i].registration))
  {
    hide Valid, IsLease, Registers, Prepare, PrepareAll, PreparedHost;
    PreparedEach(s, wanted);
    forall i | 0 <= i < |wanted|
      ensures var p := PrepareAll(s, wanted).value[i];
              && IsLease(s, wanted[i].binding, p.agent)
              && Registers(PreparedHost(s, p, s.generation + 1), wanted[i].registration)
              && (!p.changed ==> p.agent in s.agents && exists h :: h in s.registrations && Registers(h, wanted[i].registration))
    {
      PreparedLease(env, s, wanted[i]);
    }
  }

  lemma SyncStateAgents(env: Env, s: State, wanted: seq<Wanted>)
    requires Valid(env, s) && PrepareAll(s, wanted).Ok? && Ready(s, Refs(wanted), PrepareAll(s, wanted).value)
    ensures SyncedAgents(s, wanted, SyncState(s, Refs(wanted), PrepareAll(s, wanted).value).agents)
  {
    hide Valid, IsLease, PrepareAll, PreparedHost, Ready, Has, SortBy, Keep, Registers;
    var prepared := PrepareAll(s, wanted).value;
    var agents := SortBy(AgentRef, PreparedAgents(prepared));
    Preparations(env, s, wanted);
    AgentsSorted(s, Refs(wanted), prepared);
    forall i | 0 <= i < |wanted| ensures prepared[i].agent in agents && IsLease(s, wanted[i].binding, prepared[i].agent) {
    }
  }

  lemma SyncStateHosts(env: Env, s: State, wanted: seq<Wanted>)
    requires Valid(env, s) && PrepareAll(s, wanted).Ok? && Ready(s, Refs(wanted), PrepareAll(s, wanted).value) && WantedOk(wanted)
    ensures SyncedHosts(s, wanted, SyncState(s, Refs(wanted), PrepareAll(s, wanted).value).registrations)
  {
    hide Acceptable, IsLease, PrepareAll, PreparedHost, Ready, Has, SortBy, Keep, Orderly, PreparedHosts;
    var prepared := PrepareAll(s, wanted).value;
    var hosts := SyncState(s, Refs(wanted), prepared).registrations;
    Preparations(env, s, wanted);
    HostsSorted(s, Refs(wanted), prepared);
    hide SyncState;
    forall i | 0 <= i < |wanted|
      ensures var h := PreparedHost(s, prepared[i], s.generation + 1);
              h in hosts && Registers(h, wanted[i].registration) && h.ref in Refs(wanted)
    {
      assert wanted[i].binding.ref in Refs(wanted);
    }
  }

  lemma {:induction false} KeptAll<T(!new)>(s: seq<T>, p: T -> bool)
    requires |Keep(s, p)| == |s|
    ensures forall y :: y in s ==> p(y)
  {
    if s != [] {
      KeptAll(s[..|s| - 1], p);
      assert s == s[..|s| - 1] + [s[|s| - 1]];
    }
  }

  lemma UnchangedAgents(env: Env, s: State, wanted: seq<Wanted>)
    requires Valid(env, s) && PrepareAll(s, wanted).Ok? && !SyncChanges(s, Refs(wanted), PrepareAll(s, wanted).value)
    ensures SyncedAgents(s, wanted, s.agents)
  {
    hide Acceptable, Lease, PrepareAll, PreparedHost, Retained, Registers;
    var prepared := PrepareAll(s, wanted).value;
    Preparations(env, s, wanted);
    OrderlyLists(s);
    AscendingUnique(AgentRef, s.agents);
    hide Unique, Ascending, Valid;
    forall a | a in s.agents ensures exists i :: 0 <= i < |wanted| && IsLease(s, wanted[i].binding, a) {
      var k :| 0 <= k < |s.agents| && s.agents[k] == a;
      assert a.ref in Refs(wanted);
      var i :| 0 <= i < |wanted| && wanted[i].binding.ref == a.ref;
      assert !prepared[i].changed;
      SameRecord(AgentRef, s.agents, a, prepared[i].agent);
    }
  }

  lemma UnchangedHosts(env: Env, s: State, wanted: seq<Wanted>)
    requires Valid(env, s) && PrepareAll(s, wanted).Ok? && !SyncChanges(s, Refs(wanted), PrepareAll(s, wanted).value)
    ensures SyncedHosts(s, wanted, s.registrations)
  {
    hide Valid, IsLease, PrepareAll, PreparedHost, Registers, Has;
    Preparations(env, s, wanted);
    var refs := Refs(wanted);
    KeptAll(s.registrations, (h: Host) => h.ref in refs || Has(SshRef, s.ssh, h.ref) || h.source != StaticAgentBinding);
  }

  /** Synchronizing leaves exactly the wanted bindings, the wanted registrations, and the hosts kept for another reason. */
  lemma SynchronizeBinds(env: Env, s: State, wanted: seq<Wanted>, expected: Option<int>)
    requires Valid(env, s) && Grown(s) && Synchronize(s, wanted, expected).Ok?
    ensures var s' := Synchronize(s, wanted, expected).value;
            SyncedAgents(s, wanted, s'.agents) && SyncedHosts(s, wanted, s'.registrations) && s'.ssh == s.ssh
  {
    hide Valid, Grown, SyncedAgents, SyncedHosts, PrepareAll, SyncChanges, Ready, Write;
    if SyncChanges(s, Refs(wanted), PrepareAll(s, wanted).value) {
      PreparedReady(env, s, wanted);
      SyncStateAgents(env, s, wanted);
      SyncStateHosts(env, s, wanted);
    } else {
      UnchangedAgents(env, s, wanted);
      UnchangedHosts(env, s, wanted);
    }
  }

  lemma PreparedDates(env: Env, s: State, w: Wanted)
    requires Valid(env, s) && Prepare(s, w).Ok? && w.binding.ref == w.registration.ref
    ensures var h := PreparedHost(s, Prepare(s, w).value, s.generation + 1);
            && (h in s.registrations || h.generation == s.generation + 1)
            && (forall x :: Unchanged(s, w, x) ==> h == x)
  {
    var h := PreparedHost(s, Prepare(s, w).value, s.generation + 1);
    forall x | Unchanged(s, w, x) ensures h == x {
      UnchangedFound(env, s, w, x);
    }
    hide Valid, NextEpoch, Find;
  }

  lemma UnchangedFound(env: Env, s: State, w: Wanted, x: Host)
    requires Valid(env, s) && Unchanged(s, w, x) && NextEpoch(s, w.binding).Ok? && w.binding.ref == w.registration.ref
    ensures Find(HostRef, s.registrations, w.binding.ref) == Some(x)
    ensures Find(AgentRef, s.agents, w.binding.ref) == Some(w.binding.(epoch := NextEpoch(s, w.binding).value))
  {
    hide Acceptable, Find, NextEpoch;
    OrderlyLists(s);
    AscendingUnique(HostRef, s.registrations);
    AscendingUnique(AgentRef, s.agents);
    Leased(env, s, w.binding);
    hide Ascending, Unique, Valid;
    var a :| a in s.agents && IsLease(s, w.binding, a);
    SameRecord(HostRef, s.registrations, x, Find(HostRef, s.registrations, w.binding.ref).value);
    SameRecord(AgentRef, s.agents, a, Find(AgentRef, s.agents, w.binding.ref).value);
  }

  /** Synchronizing keeps a host that is as wanted to the letter, and dates every other one it registers with the new generation. */
  lemma SynchronizeDates(env: Env, s: State, wanted: seq<Wanted>, expected: Option<int>)
    requires Valid(env, s) && Grown(s) && Synchronize(s, wanted, expected).Ok?
    ensures var s' := Synchronize(s, wanted, expected).value;
            && (s' != s ==> s'.generation == s.generation + 1)
            && (forall i, h :: 0 <= i < |wanted| && Unchanged(s, wanted[i], h) ==> h in s'.registrations)
            && (forall h :: h in s'.registrations ==> h in s.registrations || h.generation == s.generation + 1)
  {
    hide Acceptable, Grown, PrepareAll, SyncChanges, Ready, Write, Unchanged, Retained, PreparedHosts, PreparedHost, SortBy, Keep, Prepare, Orderly, Has;
    var s', prepared := Synchronize(s, wanted, expected).value, PrepareAll(s, wanted).value;
    if SyncChanges(s, Refs(wanted), prepared) {
      PreparedReady(env, s, wanted);
      PreparedEach(s, wanted);
      HostsSorted(s, Refs(wanted), prepared);
      forall i | 0 <= i < |wanted|
        ensures var h := PreparedHost(s, prepared[i], s.generation + 1);
                && h in s'.registrations && (h in s.registrations || h.generation == s.generation + 1)
                && (forall x :: Unchanged(s, wanted[i], x) ==> h == x)
      {
        PreparedDates(env, s, wanted[i]);
      }
    } else {
      forall i, h | 0 <= i < |wanted| && Unchanged(s, wanted[i], h) ensures h in s.registrations {
        UnchangedIn(s, wanted[i], h);
      }
    }
  }

  lemma UnchangedIn(s: State, w: Wanted, h: Host)
    requires Unchanged(s, w, h)
    ensures h in s.registrations
  {
  }

  // ---- probes ----

  /** A probe is refused as outdated exactly if a newer one, or another one of its generation, is stored. */
  lemma ProbeCompares(env: Env, s: State, h: Host, binding: Private)
    requires Valid(env, s)
    ensures RecordProbe(env, s, h, binding) == Err("credential.generation_conflict") <==>
            && ProbeOk(h) && binding != []
            && exists o :: && o in s.observations && o.host.ref == h.ref
                           && (h.generation < o.host.generation
                               || (h.generation == o.host.generation && env.probe(h, binding) != o.digest))
  {
    hide Acceptable, Write, Probed;
    SeenOnce(env, s, h.ref);
  }

  lemma SeenOnce(env: Env, s: State, ref: Ref)
    requires Valid(env, s)
    ensures forall o :: o in s.observations && o.host.ref == ref ==> Find(SeenRef, s.observations, ref) == Some(o)
  {
    hide Acceptable, Find;
    AscendingUnique(SeenRef, s.observations);
    forall o | o in s.observations && o.host.ref == ref ensures Find(SeenRef, s.observations, ref) == Some(o) {
      SameRecord(SeenRef, s.observations, o, Find(SeenRef, s.observations, ref).value);
    }
  }

  /** A probe is malformed exactly without a time, from a source that does not probe, out of range, or without a binding. */
  lemma ProbeMalformed(env: Env, s: State, h: Host, binding: Private)
    ensures RecordProbe(env, s, h, binding) == Err("control.host_invalid") <==>
            h.observedAt == None || h.source == StaticAgentBinding || h.generation < 0 || h.generation > 0x7FFF_FFFF_FFFF_FFFF || binding == []
  {
    hide Find, Write, Probed;
  }

  /** After a recorded probe its observation is the one of the host, under its binding; other hosts are untouched. */
  lemma ProbeStores(env: Env, s: State, h: Host, binding: Private)
    requires Valid(env, s) && RecordProbe(env, s, h, binding).Ok?
    ensures var (s', x) := RecordProbe(env, s, h, binding).value;
            && (exists o: Observation :: && o.host == x && o.digest == env.probe(h, binding) && x.ref == h.ref && x.generation == h.generation
                            && Replaced(SeenRef, s.observations, s'.observations, o))
            && (s' != s ==> && x == h && Replaced(HostRef, s.registrations, s'.registrations, h)
                            && Replaced(SshRef, s.ssh, s'.ssh, Entry(h.ref, binding)) && s'.agents == s.agents)
  {
    hide Acceptable, Put, Write, Find, Ascending;
    var (s', x) := RecordProbe(env, s, h, binding).value;
    var o := Observation(h, env.probe(h, binding));
    OrderlyLists(s);
    PutMembers(SeenRef, s.observations, o);
    PutMembers(HostRef, s.registrations, h);
    PutMembers(SshRef, s.ssh, Entry(h.ref, binding));
    if s' == s && Find(SeenRef, s.observations, h.ref).Some? {
      FoundReplaced(SeenRef, s.observations, Find(SeenRef, s.observations, h.ref).value);
      assert Replaced(SeenRef, s.observations, s.observations, Find(SeenRef, s.observations, h.ref).value);
    }
    assert s' == Probed(s, o, binding) ==> Replaced(SeenRef, s.observations, s'.observations, o);
  }

  /** Above the document's old generation and at least the record's, and no more than needed for that. */
  ghost predicate Dates(before: int, record: int, generation: int) {
    before < generation && record <= generation && (generation == before + 1 || generation == record)
  }

  lemma ProbeDates(env: Env, s: State, h: Host, binding: Private)
    requires RecordProbe(env, s, h, binding).Ok? && RecordProbe(env, s, h, binding).value.0 != s
    ensures Dates(s.generation, h.generation, RecordProbe(env, s, h, binding).value.0.generation)
  {
    hide Find, Write, Put;
  }

  /** An active probe needs a registered host with some binding, and is outdated as any other probe is. */
  lemma ActiveProbeCompares(env: Env, s: State, ref: Ref, generation: int, resources: Resources, at: int)
    requires Valid(env, s)
    ensures var r := RecordActiveProbe(env, s, ref, generation, resources, at);
            && (r == Err("host.identity_not_found") <==>
                  && InRange(generation)
                  && ((forall h :: h in s.registrations ==> h.ref != ref)
                      || (!Has(SshRef, s.ssh, ref) && !Has(AgentRef, s.agents, ref))))
            && (r == Err("credential.generation_conflict") <==>
                  && InRange(generation) && (exists h :: h in s.registrations && h.ref == ref)
                  && (Has(SshRef, s.ssh, ref) || Has(AgentRef, s.agents, ref))
                  && exists o :: && o in s.observations && o.host.ref == ref
                                 && (generation < o.host.generation
                                     || (generation == o.host.generation && env.active(ref, generation, resources, at) != o.digest)))
  {
    hide Acceptable, Write, Refreshed, Has;
    SeenOnce(env, s, ref);
  }

  /** After an active probe the host is observed reachable, with what was measured, at that generation and time. */
  lemma ActiveProbeStores(env: Env, s: State, ref: Ref, generation: int, resources: Resources, at: int)
    requires Valid(env, s) && RecordActiveProbe(env, s, ref, generation, resources, at).Ok?
    ensures var (s', x) := RecordActiveProbe(env, s, ref, generation, resources, at).value;
            && (exists o: Observation :: && o.host == x && o.digest == env.active(ref, generation, resources, at)
                                         && x.ref == ref && x.generation == generation
                                         && Replaced(SeenRef, s.observations, s'.observations, o))
            && (s' != s ==> && x.reach == Reach("reachable", Some(0)) && x.resources == resources && x.observedAt == Some(at) && x.source == HostAgent
                            && (exists h :: h in s.registrations && h.ref == ref && h.meta == x.meta)
                            && Dates(s.generation, generation, s'.generation)
                            && s'.registrations == s.registrations && s'.ssh == s.ssh && s'.agents == s.agents)
  {
    hide Acceptable, Put, Write, Ascending;
    var (s', x) := RecordActiveProbe(env, s, ref, generation, resources, at).value;
    var known, seen := Find(HostRef, s.registrations, ref).value, Find(SeenRef, s.observations, ref);
    var o := ActiveObservation(env, ref, generation, known.meta, resources, at);
    OrderlyLists(s);
    PutMembers(SeenRef, s.observations, o);
    hide Find;
    if s' == s && seen.Some? {
      FoundReplaced(SeenRef, s.observations, seen.value);
      assert Replaced(SeenRef, s.observations, s.observations, seen.value);
    }
    assert s' == Refreshed(s, o) ==> Replaced(SeenRef, s.observations, s'.observations, o);
  }

  /** A probe repeated word for word returns the stored host and changes nothing. */
  lemma ProbeTwice(env: Env, s: State, h: Host, binding: Private)
    requires Valid(env, s) && RecordProbe(env, s, h, binding).Ok?
    ensures var (s', x) := RecordProbe(env, s, h, binding).value; RecordProbe(env, s', h, binding) == Ok((s', x))
  {
    hide Acceptable, Put, Write, Find, Ascending;
    OrderlyLists(s);
    FindPut(SeenRef, s.observations, Observation(h, env.probe(h, binding)), h.ref);
  }

  /** So does an active probe. */
  lemma ActiveProbeTwice(env: Env, s: State, ref: Ref, generation: int, resources: Resources, at: int)
    requires Valid(env, s) && RecordActiveProbe(env, s, ref, generation, resources, at).Ok?
    ensures var (s', x) := RecordActiveProbe(env, s, ref, generation, resources, at).value;
            RecordActiveProbe(env, s', ref, generation, resources, at) == Ok((s', x))
  {
    hide Acceptable, Put, Write, Find, Ascending, Has;
    OrderlyLists(s);
    var known := Find(HostRef, s.registrations, ref).value;
    FindPut(SeenRef, s.observations, ActiveObservation(env, ref, generation, known.meta, resources, at), ref);
  }

  /** From s to s' no observation of a host goes back, and one generation has one digest. */
  ghost predicate NoneOlder(s: State, s': State) {
    forall o, p :: o in s.observations && p in s'.observations && o.host.ref == p.host.ref ==>
      o.host.generation <= p.host.generation && (o.host.generation == p.host.generation ==> o.digest == p.digest)
  }

  lemma SameNoneOlder(env: Env, s: State, s': State)
    requires Valid(env, s) && forall p :: p in s'.observations ==> p in s.observations
    ensures NoneOlder(s, s')
  {
    forall o, p | o in s.observations && p in s'.observations && o.host.ref == p.host.ref
      ensures o == p
    {
      SeenOnce(env, s, o.host.ref);
    }
  }

  lemma PutNoneOlder(env: Env, s: State, s': State, x: Observation)
    requires Valid(env, s) && s'.observations == Put(SeenRef, s.observations, x)
    requires forall o :: o in s.observations && o.host.ref == x.host.ref ==> o.host.generation < x.host.generation
    ensures NoneOlder(s, s')
  {
    hide Acceptable, Put;
    OrderlyLists(s);
    PutMembers(SeenRef, s.observations, x);
    hide Ascending;
    forall o, p | o in s.observations && p in s'.observations && o.host.ref == p.host.ref
      ensures o.host.generation < p.host.generation || o == p
    {
      if p != x {
        SeenOnce(env, s, o.host.ref);
      }
    }
  }

  lemma ProbesNoneOlder(env: Env, s: State, op: Op)
    requires Valid(env, s) && (op.DoProbe? || op.DoActiveProbe?)
    ensures NoneOlder(s, Next(env, s, op))
  {
    hide Valid, NoneOlder, Write, Put;
    var s' := Next(env, s, op);
    if s' == s {
      SameNoneOlder(env, s, s');
    } else {
      match op {
        case DoProbe(h, binding) =>
          SeenOnce(env, s, h.ref);
          PutNoneOlder(env, s, s', Observation(h, env.probe(h, binding)));
        case DoActiveProbe(ref, g, resources, at) =>
          SeenOnce(env, s, ref);
          var known := Find(HostRef, s.registrations, ref).value;
          PutNoneOlder(env, s, s', ActiveObservation(env, ref, g, known.meta, resources, at));
      }
    }
  }

  lemma NextNoneOlder(env: Env, s: State, op: Op)
    requires Valid(env, s)
    ensures NoneOlder(s, Next(env, s, op))
  {
    hide Valid, NoneOlder, Write, RecordProbe, RecordActiveProbe, Put, Keep, NextEpoch, PrepareAll, SyncChanges, SortBy, WantedOk;
    var s' := Next(env, s, op);
    if op.DoProbe? || op.DoActiveProbe? {
      ProbesNoneOlder(env, s, op);
    } else {
      if op.DoSynchronize? && s' != s {
        var refs := Refs(op.wanted);
        KeepMembers(s.observations, (o: Observation) => Has(SshRef, s.ssh, o.host.ref) || o.host.ref in refs);
      }
      SameNoneOlder(env, s, s');
    }
  }

  /** As long as a host stays observed, over any stretch of a run, its observations only move forward. */
  lemma {:induction false} ProbesMoveForward(env: Env, file: Option<Document>, ops: seq<Op>, m: nat, n: nat, ref: Ref)
    requires m <= n <= |ops| && Sound(env, file)
    requires forall k :: m <= k <= n ==> exists o :: o in StateAt(env, file, ops, k).observations && o.host.ref == ref
    ensures forall o, p :: o in StateAt(env, file, ops, m).observations && p in StateAt(env, file, ops, n).observations
                           && o.host.ref == ref && p.host.ref == ref ==>
              o.host.generation <= p.host.generation && (o.host.generation == p.host.generation ==> o.digest == p.digest)
    decreases n
  {
    hide StateAt, Sound, Valid, Grown, Next, Advanced;
    StateSound(env, file, ops, m);
    if m == n {
      SameNoneOlder(env, StateAt(env, file, ops, m), StateAt(env, file, ops, m));
    } else {
      ProbesMoveForward(env, file, ops, m, n - 1, ref);
      StateSound(env, file, ops, n - 1);
      StateNext(env, file, ops, n - 1);
      NextNoneOlder(env, StateAt(env, file, ops, n - 1), ops[n - 1]);
      var middle :| middle in StateAt(env, file, ops, n - 1).observations && middle.host.ref == ref;
    }
  }

  // ---- digests ----

  /** The digest is that of a probe with the private binding the host has, not empty. */
  ghost predicate ProbeSigned(env: Env, s: State, o: Observation) {
    exists e :: e in s.ssh && e.ref == o.host.ref && e.value != [] && o.digest == env.probe(o.host, e.value)
  }

  /** The digest is that of an active probe of what the observation says. */
  ghost predicate ActiveSigned(env: Env, o: Observation) {
    && o.host.observedAt.Some? && o.host.reach == Reach("reachable", Some(0)) && o.host.source == HostAgent
    && o.digest == env.active(o.host.ref, o.host.generation, o.host.resources, o.host.observedAt.value)
  }

  /** Whatever is read from any document, no observation is handed out whose digest does not fit it. */
  lemma ReadIsSigned(env: Env, file: Option<Document>, o: Observation)
    requires Read(env, file).Some? && o in Read(env, file).value.state.observations
    ensures ProbeSigned(env, Read(env, file).value.state, o) || ActiveSigned(env, o)
  {
    hide Read;
    ReadValid(env, file);
    var s := Read(env, file).value.state;
    SignedBy(env, s, o);
  }

  lemma SignedBy(env: Env, s: State, o: Observation)
    requires Valid(env, s) && o in s.observations
    ensures ProbeSigned(env, s, o) || ActiveSigned(env, o)
  {
    hide Orderly, Linked, Ranged, Covered, EnabledApart, DocumentGeneration, Unique, Find;
    assert Signed(env, s.ssh, o);
  }

  /** A document of the second layout is read only if each stored digest is that of its host and binding. */
  lemma SecondLayoutIsSigned(env: Env, seen: seq<Observation>, bound: seq<Entry<Private>>, i: nat)
    requires i < |seen| && Read(env, Some(V2(seen, bound))).Some?
    ensures exists e :: e in bound && e.ref == seen[i].host.ref && seen[i].digest == env.probe(seen[i].host, e.value)
  {
    hide FromProbes, Find, Unique;
    var e := Find(SshRef, bound, seen[i].host.ref).value;
    assert e in bound && e.ref == seen[i].host.ref;
    assert Rebound(seen, bound).value[i].binding == e.value;
  }
}
