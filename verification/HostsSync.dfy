/** Synchronizing all agent bindings at once keeps everything the single operations keep. */
module HostsSync {
  import opened Core
  import opened Tables
  import opened Hosts
  import opened HostsReading
  import opened HostsRuns

  /** What validation and preparation establish about the bindings to store. */
  ghost predicate Ready(s: State, refs: set<Ref>, prepared: seq<Prepared>) {
    && (forall i :: 0 <= i < |prepared| ==> Fencing(s, prepared[i].agent) && prepared[i].registration.ref == prepared[i].agent.ref)
    && Apart(prepared)
    && EnabledApart(PreparedAgents(prepared))
    && (forall r :: r in refs <==> Names(prepared, r))
  }

  lemma {:induction false} PreparedEach(s: State, wanted: seq<Wanted>)
    requires PrepareAll(s, wanted).Ok?
    ensures |PrepareAll(s, wanted).value| == |wanted|
    ensures forall i :: 0 <= i < |wanted| ==> Prepare(s, wanted[i]) == Ok(PrepareAll(s, wanted).value[i])
  {
    hide Prepare;
    if wanted != [] {
      PreparedEach(s, wanted[..|wanted| - 1]);
    }
  }

  lemma PreparedFences(env: Env, s: State, w: Wanted)
    requires Valid(env, s) && Grown(s) && AgentOk(w.binding) && w.binding.ref == w.registration.ref && Prepare(s, w).Ok?
    ensures var p := Prepare(s, w).value;
            Fencing(s, p.agent) && p.registration.ref == p.agent.ref == w.binding.ref &&
            p.agent.spki == w.binding.spki && p.agent.enabled == w.binding.enabled
  {
    hide Valid, Grown, NextEpoch, Find;
    NextEpochFences(env, s, w.binding);
  }

  lemma PreparedReady(env: Env, s: State, wanted: seq<Wanted>)
    requires Valid(env, s) && Grown(s) && PrepareAll(s, wanted).Ok? && WantedOk(wanted)
    requires forall i :: 0 <= i < |wanted| ==> AgentOk(wanted[i].binding)
    ensures Ready(s, Refs(wanted), PrepareAll(s, wanted).value)
  {
    hide Valid, Grown, Prepare, PrepareAll, Fencing;
    var prepared := PrepareAll(s, wanted).value;
    PreparedEach(s, wanted);
    forall i | 0 <= i < |prepared|
      ensures Fencing(s, prepared[i].agent) && prepared[i].registration.ref == prepared[i].agent.ref == wanted[i].binding.ref
      ensures prepared[i].agent.spki == wanted[i].binding.spki && prepared[i].agent.enabled == wanted[i].binding.enabled
    {
      PreparedFences(env, s, wanted[i]);
    }
    forall a, b | a in PreparedAgents(prepared) && b in PreparedAgents(prepared) && a.enabled && b.enabled && a.spki == b.spki
      ensures a.ref == b.ref
    {
      var i :| 0 <= i < |prepared| && prepared[i].agent == a;
      var j :| 0 <= j < |prepared| && prepared[j].agent == b;
    }
  }

  // ---- the new lists ----

  lemma AgentsSorted(s: State, refs: set<Ref>, prepared: seq<Prepared>)
    requires Ready(s, refs, prepared)
    ensures var agents := SortBy(AgentRef, PreparedAgents(prepared));
            Ascending(AgentRef, agents) && EnabledApart(agents) &&
            forall a :: a in agents <==> exists i :: 0 <= i < |prepared| && prepared[i].agent == a
  {
    var raw := PreparedAgents(prepared);
    assert Unique(AgentRef, raw);
    SortAscending(AgentRef, raw);
    SortMembers(AgentRef, raw);
    forall i | 0 <= i < |prepared|
      ensures prepared[i].agent in raw
    {
      assert raw[i] == prepared[i].agent;
    }
  }

  predicate Names(prepared: seq<Prepared>, ref: Ref) {
    exists i :: 0 <= i < |prepared| && prepared[i].agent.ref == ref
  }

  predicate Sets(prepared: seq<Prepared>, e: Entry<int>) {
    exists i :: 0 <= i < |prepared| && prepared[i].agent.ref == e.ref && prepared[i].agent.epoch == e.value
  }

  lemma SplitLast(prepared: seq<Prepared>, e: Entry<int>)
    requires prepared != []
    ensures var n, last := |prepared| - 1, prepared[|prepared| - 1].agent;
            (Names(prepared, e.ref) <==> Names(prepared[..n], e.ref) || e.ref == last.ref) &&
            (Sets(prepared, e) <==> Sets(prepared[..n], e) || e == Entry(last.ref, last.epoch))
  {
    var n := |prepared| - 1;
    assert prepared == prepared[..n] + [prepared[n]];
  }

  predicate Apart(prepared: seq<Prepared>) {
    forall i, j :: 0 <= i < j < |prepared| ==> prepared[i].agent.ref != prepared[j].agent.ref
  }

  /** After the update a prepared host has its prepared epoch, and every other host its old one. */
  lemma {:induction false} EpochsAfter(history: seq<Entry<int>>, prepared: seq<Prepared>)
    requires Ascending(EpochRef, history) && Apart(prepared)
    ensures Ascending(EpochRef, WithEpochs(history, prepared))
    ensures forall e :: e in WithEpochs(history, prepared) <==> Sets(prepared, e) || (e in history && !Names(prepared, e.ref))
  {
    hide Put, Ascending;
    if prepared != [] {
      var n := |prepared| - 1;
      var front, last := prepared[..n], prepared[n].agent;
      assert Apart(front) && !Names(front, last.ref);
      EpochsAfter(history, front);
      PutMembers(EpochRef, WithEpochs(history, front), Entry(last.ref, last.epoch));
      hide Sets, Names, Apart, WithEpochs;
      forall e
        ensures e in Put(EpochRef, WithEpochs(history, front), Entry(last.ref, last.epoch)) <==>
                Sets(prepared, e) || (e in history && !Names(prepared, e.ref))
      {
        SplitLast(prepared, e);
        SetsNames(front, e);
      }
      assert WithEpochs(history, prepared) == Put(EpochRef, WithEpochs(history, front), Entry(last.ref, last.epoch)) by {
        WithLast(history, prepared);
      }
    }
  }

  lemma SetsNames(prepared: seq<Prepared>, e: Entry<int>)
    ensures Sets(prepared, e) ==> Names(prepared, e.ref)
  {
  }

  lemma WithLast(history: seq<Entry<int>>, prepared: seq<Prepared>)
    requires prepared != []
    ensures var n := |prepared| - 1;
            WithEpochs(history, prepared) ==
            Put(EpochRef, WithEpochs(history, prepared[..n]), Entry(prepared[n].agent.ref, prepared[n].agent.epoch))
  {
  }

  /** Registrations of other hosts that stay. */
  function Others(s: State, refs: set<Ref>): seq<Host> {
    Keep(Retained(s, refs), (h: Host) => h.ref !in refs)
  }

  lemma OthersKept(s: State, refs: set<Ref>)
    requires Orderly(s)
    ensures Unique(HostRef, Others(s, refs))
    ensures forall h :: h in Others(s, refs) <==>
              h in s.registrations && h.ref !in refs && (Has(SshRef, s.ssh, h.ref) || h.source != StaticAgentBinding)
  {
    hide Has;
    var stays := (h: Host) => h.ref in refs || Has(SshRef, s.ssh, h.ref) || h.source != StaticAgentBinding;
    var other := (h: Host) => h.ref !in refs;
    KeepMembers(s.registrations, stays);
    KeepMembers(Retained(s, refs), other);
    KeepAscending(HostRef, s.registrations, stays);
    KeepAscending(HostRef, Retained(s, refs), other);
    AscendingUnique(HostRef, Others(s, refs));
  }

  lemma AddedHosts(s: State, refs: set<Ref>, prepared: seq<Prepared>, generation: int)
    requires Ready(s, refs, prepared)
    ensures Unique(HostRef, PreparedHosts(s, prepared, generation))
    ensures forall h :: h in PreparedHosts(s, prepared, generation) <==>
              exists i :: 0 <= i < |prepared| && h == PreparedHost(s, prepared[i], generation)
    ensures forall h :: h in PreparedHosts(s, prepared, generation) ==> h.ref in refs
  {
    hide Fencing, PreparedHost;
    var added := PreparedHosts(s, prepared, generation);
    forall i | 0 <= i < |prepared|
      ensures added[i].ref == prepared[i].agent.ref && added[i] in added && added[i].ref in refs
    {
      PreparedHostRef(s, prepared[i], generation);
    }
  }

  lemma HostsSorted(s: State, refs: set<Ref>, prepared: seq<Prepared>)
    requires Orderly(s) && Ready(s, refs, prepared)
    ensures var hosts := SyncState(s, refs, prepared).registrations;
            Ascending(HostRef, hosts) &&
            (forall h :: h in hosts <==>
               || (h in s.registrations && h.ref !in refs && (Has(SshRef, s.ssh, h.ref) || h.source != StaticAgentBinding))
               || (exists i :: 0 <= i < |prepared| && h == PreparedHost(s, prepared[i], s.generation + 1)))
  {
    hide Ready, PreparedHost, Has, SortBy, Keep, Orderly, PreparedHosts, Unique, Ascending;
    var kept, added := Others(s, refs), PreparedHosts(s, prepared, s.generation + 1);
    OthersKept(s, refs);
    AddedHosts(s, refs, prepared, s.generation + 1);
    ConcatUnique(HostRef, kept, added);
    SortAscending(HostRef, kept + added);
    SortMembers(HostRef, kept + added);
  }

  lemma PreparedHostRef(s: State, p: Prepared, generation: int)
    requires p.registration.ref == p.agent.ref
    ensures PreparedHost(s, p, generation).ref == p.agent.ref
    ensures PreparedHost(s, p, generation).generation == generation ||
            exists h :: h in s.registrations && h.generation == PreparedHost(s, p, generation).generation
  {
  }

  lemma SyncHas(s: State, refs: set<Ref>, prepared: seq<Prepared>, ref: Ref)
    requires Orderly(s) && Ready(s, refs, prepared)
    ensures ref in refs ==> Has(HostRef, SyncState(s, refs, prepared).registrations, ref)
    ensures ref in refs <==> Has(AgentRef, SyncState(s, refs, prepared).agents, ref)
    ensures Has(HostRef, s.registrations, ref) && Has(SshRef, s.ssh, ref) ==>
              Has(HostRef, SyncState(s, refs, prepared).registrations, ref)
  {
    hide Fencing, PreparedHost, Has, SortBy;
    var s' := SyncState(s, refs, prepared);
    HostsSorted(s, refs, prepared);
    AgentsSorted(s, refs, prepared);
    HasIff(HostRef, s.registrations, ref);
    HasIff(HostRef, s'.registrations, ref);
    HasIff(AgentRef, s'.agents, ref);
    if ref in refs {
      var i :| 0 <= i < |prepared| && prepared[i].agent.ref == ref;
      PreparedHostRef(s, prepared[i], s.generation + 1);
      var h := PreparedHost(s, prepared[i], s.generation + 1);
      assert h in s'.registrations && HostRef(h) == ref;
      assert prepared[i].agent in s'.agents && AgentRef(prepared[i].agent) == ref;
    }
  }

  lemma SyncSeen(s: State, refs: set<Ref>, prepared: seq<Prepared>)
    requires Orderly(s)
    ensures var seen := SyncState(s, refs, prepared).observations;
            Ascending(SeenRef, seen) && |seen| <= |s.observations| &&
            forall o :: o in seen <==> o in s.observations && (Has(SshRef, s.ssh, o.host.ref) || o.host.ref in refs)
  {
    hide Has;
    var p := (o: Observation) => Has(SshRef, s.ssh, o.host.ref) || o.host.ref in refs;
    KeepMembers(s.observations, p);
    KeepAscending(SeenRef, s.observations, p);
  }

  lemma SyncLinked(s: State, refs: set<Ref>, prepared: seq<Prepared>)
    requires Orderly(s) && Ready(s, refs, prepared) && Linked(s.registrations, s.ssh, s.agents, s.observations)
    ensures var s' := SyncState(s, refs, prepared); Linked(s'.registrations, s'.ssh, s'.agents, s'.observations)
  {
    hide Has, Ready;
    var s' := SyncState(s, refs, prepared);
    SyncSeen(s, refs, prepared);
    forall ref
      ensures ref in refs ==> Has(HostRef, s'.registrations, ref)
      ensures ref in refs <==> Has(AgentRef, s'.agents, ref)
      ensures Has(HostRef, s.registrations, ref) && Has(SshRef, s.ssh, ref) ==> Has(HostRef, s'.registrations, ref)
    {
      SyncHas(s, refs, prepared, ref);
    }
    forall a | a in s'.agents
      ensures Has(HostRef, s'.registrations, a.ref)
    {
      HasIff(AgentRef, s'.agents, a.ref);
      assert AgentRef(a) == a.ref;
    }
    forall e | e in s.ssh
      ensures Has(HostRef, s'.registrations, e.ref)
    {
      HasIff(SshRef, s.ssh, e.ref);
      assert SshRef(e) == e.ref;
    }
  }

  lemma SyncDated(s: State, refs: set<Ref>, prepared: seq<Prepared>)
    requires Orderly(s) && Ready(s, refs, prepared)
    requires Dated(s.registrations, s.observations, s.generation) && forall h :: h in s.registrations ==> 0 <= h.generation
    ensures var s' := SyncState(s, refs, prepared);
            (forall h :: h in s'.registrations ==> 0 <= h.generation <= s'.generation) &&
            (forall o :: o in s'.observations ==> o.host.generation <= s'.generation)
  {
    hide Has, PreparedHost, SortBy, WithEpochs, Orderly, Fencing, EnabledApart, Apart, Names;
    var s' := SyncState(s, refs, prepared);
    HostsSorted(s, refs, prepared);
    SyncSeen(s, refs, prepared);
    forall h | h in s'.registrations
      ensures 0 <= h.generation <= s'.generation
    {
      if h !in s.registrations {
        var i :| 0 <= i < |prepared| && h == PreparedHost(s, prepared[i], s.generation + 1);
        PreparedHostRef(s, prepared[i], s.generation + 1);
      }
    }
  }

  lemma SyncEpochs(s: State, refs: set<Ref>, prepared: seq<Prepared>)
    requires Orderly(s) && Ready(s, refs, prepared) && Ranged(s.registrations, s.agents, s.history)
    ensures var s' := SyncState(s, refs, prepared);
            (forall a :: a in s'.agents ==> AgentOk(a)) && (forall e :: e in s'.history ==> 1 <= e.value <= MAX_GENERATION)
  {
    hide Has, SortBy, WithEpochs, Apart, Names, EnabledApart, Ascending;
    AgentsSorted(s, refs, prepared);
    EpochsAfter(s.history, prepared);
  }

  lemma SyncOrderly(s: State, refs: set<Ref>, prepared: seq<Prepared>)
    requires Orderly(s) && Ready(s, refs, prepared)
    ensures Orderly(SyncState(s, refs, prepared)) && EnabledApart(SyncState(s, refs, prepared).agents)
  {
    hide Has, SortBy, WithEpochs, Apart, Names, EnabledApart, Ascending, PreparedHost, Fencing, Sets;
    HostsSorted(s, refs, prepared);
    AgentsSorted(s, refs, prepared);
    EpochsAfter(s.history, prepared);
    SyncSeen(s, refs, prepared);
  }

  lemma SyncRanged(s: State, refs: set<Ref>, prepared: seq<Prepared>)
    requires Orderly(s) && Ready(s, refs, prepared) && s.generation + 1 <= MAX_GENERATION
    requires Ranged(s.registrations, s.agents, s.history) && Dated(s.registrations, s.observations, s.generation)
    ensures var s' := SyncState(s, refs, prepared);
            Orderly(s') && Ranged(s'.registrations, s'.agents, s'.history) && EnabledApart(s'.agents) &&
            Dated(s'.registrations, s'.observations, s'.generation)
  {
    hide Ready, Orderly, EnabledApart, SortBy, WithEpochs, Keep;
    SyncOrderly(s, refs, prepared);
    SyncDated(s, refs, prepared);
    SyncEpochs(s, refs, prepared);
  }

  /** The prepared epochs are in the new history. */
  lemma SyncGrown(s: State, refs: set<Ref>, prepared: seq<Prepared>)
    requires Orderly(s) && Grown(s) && Ready(s, refs, prepared)
    ensures Grown(SyncState(s, refs, prepared))
  {
    hide Has, SortBy, WithEpochs, Apart, Names, EnabledApart, Ascending, Fencing;
    var s' := SyncState(s, refs, prepared);
    AgentsSorted(s, refs, prepared);
    EpochsAfter(s.history, prepared);
    forall a | a in s'.agents
      ensures Entry(a.ref, a.epoch) in s'.history
    {
      assert Sets(prepared, Entry(a.ref, a.epoch));
    }
  }

  lemma SyncFences(env: Env, s: State, refs: set<Ref>, prepared: seq<Prepared>)
    requires Valid(env, s) && Grown(s) && Ready(s, refs, prepared)
    ensures Fence(s, SyncState(s, refs, prepared)) && Grown(SyncState(s, refs, prepared))
  {
    hide Acceptable, Ascending, Reaches, SortBy, WithEpochs, Has, Apart, Names, EnabledApart;
    var s' := SyncState(s, refs, prepared);
    SyncGrown(s, refs, prepared);
    AgentsSorted(s, refs, prepared);
    forall e | e in s.history
      ensures Reaches(s'.history, e.ref, e.value)
    {
      SyncReaches(s, refs, prepared, e);
    }
  }

  lemma SyncReaches(s: State, refs: set<Ref>, prepared: seq<Prepared>, e: Entry<int>)
    requires Ready(s, refs, prepared) && Ascending(EpochRef, s.history) && e in s.history
    ensures Reaches(WithEpochs(s.history, prepared), e.ref, e.value)
  {
    hide WithEpochs, Ascending, EnabledApart;
    EpochsAfter(s.history, prepared);
    if Names(prepared, e.ref) {
      var i :| 0 <= i < |prepared| && prepared[i].agent.ref == e.ref;
      var x := Entry(e.ref, prepared[i].agent.epoch);
      assert Sets(prepared, x);
      assert x in WithEpochs(s.history, prepared);
    } else {
      assert e in WithEpochs(s.history, prepared);
    }
  }

  lemma SyncStateAdvances(env: Env, s: State, refs: set<Ref>, prepared: seq<Prepared>)
    requires Valid(env, s) && Grown(s) && Ready(s, refs, prepared) && s.generation + 1 <= MAX_GENERATION
    ensures Write(SyncState(s, refs, prepared)).Some? ==> Advanced(env, s, SyncState(s, refs, prepared))
  {
    hide Ready, Signed, Linked, Ranged, Dated, Orderly, Unique, Covered, EnabledApart, Fence, Grown, Retained, SortBy, Keep;
    DatedIff(s.registrations, s.observations, s.generation);
    SyncLinked(s, refs, prepared);
    SyncFences(env, s, refs, prepared);
    SyncRanged(s, refs, prepared);
    SyncSeen(s, refs, prepared);
    if Write(SyncState(s, refs, prepared)).Some? {
      Built(env, SyncState(s, refs, prepared));
    }
  }

  lemma SynchronizeAdvances(env: Env, s: State, wanted: seq<Wanted>, expected: Option<int>)
    requires Valid(env, s) && Grown(s)
    ensures Synchronize(s, wanted, expected).Ok? ==> Advanced(env, s, Synchronize(s, wanted, expected).value)
  {
    hide Valid, Grown, Advanced, Write, SyncState, PrepareAll, SyncChanges, WantedOk, Ready;
    Unmoved(env, s);
    if Synchronize(s, wanted, expected).Ok? && Synchronize(s, wanted, expected).value != s {
      PreparedReady(env, s, wanted);
      ValidRange(env, s);
      SyncStateAdvances(env, s, Refs(wanted), PrepareAll(s, wanted).value);
    }
  }
}
