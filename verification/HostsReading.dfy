/** Everything the registry writes is read back unchanged, and migration keeps the host list. */
module HostsReading {
  import opened Core
  import opened Tables
  import opened Hosts

  predicate Orderly(s: State) {
    && Ascending(HostRef, s.registrations)
    && Ascending(SshRef, s.ssh)
    && Ascending(AgentRef, s.agents)
    && Ascending(SeenRef, s.observations)
    && Ascending(EpochRef, s.history)
  }

  /** A state as it is handed out: what the reader accepts, in order. */
  predicate Valid(env: Env, s: State) {
    Acceptable(env, s) && Orderly(s)
  }

  lemma {:induction false} TopBelow(s: seq<Host>, g: int)
    ensures TopGeneration(s) <= g <==> 0 <= g && forall h :: h in s ==> h.generation <= g
  {
    if s != [] {
      TopBelow(s[..|s| - 1], g);
      assert s == s[..|s| - 1] + [s[|s| - 1]];
    }
  }

  predicate Dated(registrations: seq<Host>, observations: seq<Observation>, g: int) {
    0 <= g && (forall h :: h in registrations ==> h.generation <= g) && (forall o :: o in observations ==> o.host.generation <= g)
  }

  lemma DatedIff(registrations: seq<Host>, observations: seq<Observation>, g: int)
    ensures DocumentGeneration(registrations, observations) <= g <==> Dated(registrations, observations, g)
  {
    var all := registrations + Views(observations);
    TopBelow(all, g);
    forall o | o in observations
      ensures o.host in all
    {
      var i :| 0 <= i < |observations| && observations[i] == o;
      assert all[|registrations| + i] == o.host;
    }
    forall h | h in Views(observations)
      ensures exists o :: o in observations && o.host == h
    {
      var i :| 0 <= i < |observations| && Views(observations)[i] == h;
      assert observations[i] in observations;
    }
  }

  /** Lists with the same records and distinct references answer lookups alike. */
  lemma FindSame<T(!new)>(key: T -> Ref, s: seq<T>, t: seq<T>, ref: Ref)
    requires Unique(key, s) && forall y :: y in s <==> y in t
    ensures Find(key, s, ref) == Find(key, t, ref)
  {
    var f, g := Find(key, s, ref), Find(key, t, ref);
    if f.Some? && g.Some? {
      SameRecord(key, s, f.value, g.value);
    }
  }

  lemma HasIff<T(!new)>(key: T -> Ref, s: seq<T>, ref: Ref)
    ensures Has(key, s, ref) <==> exists y :: y in s && key(y) == ref
  {
    if Has(key, s, ref) {
      var i :| 0 <= i < |s| && key(s[i]) == ref;
      assert s[i] in s;
    }
  }

  lemma HasSame<T(!new)>(key: T -> Ref, s: seq<T>, t: seq<T>, ref: Ref)
    requires forall y :: y in s <==> y in t
    ensures Has(key, s, ref) <==> Has(key, t, ref)
  {
    HasIff(key, s, ref);
    HasIff(key, t, ref);
  }

  /** Two states that hold the same records. */
  ghost predicate SameRecords(s: State, t: State) {
    && (forall h :: h in s.registrations <==> h in t.registrations) && |s.registrations| == |t.registrations|
    && (forall e :: e in s.ssh <==> e in t.ssh)
    && (forall a :: a in s.agents <==> a in t.agents)
    && (forall o :: o in s.observations <==> o in t.observations) && |s.observations| == |t.observations|
    && (forall e :: e in s.history <==> e in t.history) && |s.history| == |t.history|
    && s.generation == t.generation
  }

  lemma SortedRecords(s: State)
    ensures SameRecords(s, Sorted(s))
  {
    SortMembers(HostRef, s.registrations);
    SortMembers(SshRef, s.ssh);
    SortMembers(AgentRef, s.agents);
    SortMembers(SeenRef, s.observations);
    SortMembers(EpochRef, s.history);
  }

  lemma LinkedSame(s: State, t: State)
    requires SameRecords(s, t) && Linked(s.registrations, s.ssh, s.agents, s.observations)
    ensures Linked(t.registrations, t.ssh, t.agents, t.observations)
  {
    hide Has;
    forall ref
      ensures Has(HostRef, s.registrations, ref) <==> Has(HostRef, t.registrations, ref)
      ensures Has(SshRef, s.ssh, ref) <==> Has(SshRef, t.ssh, ref)
      ensures Has(AgentRef, s.agents, ref) <==> Has(AgentRef, t.agents, ref)
    {
      HasSame(HostRef, s.registrations, t.registrations, ref);
      HasSame(SshRef, s.ssh, t.ssh, ref);
      HasSame(AgentRef, s.agents, t.agents, ref);
    }
  }

  lemma SignedSame(env: Env, s: State, t: State)
    requires SameRecords(s, t) && Unique(SshRef, s.ssh) && forall o :: o in s.observations ==> Signed(env, s.ssh, o)
    ensures forall o :: o in t.observations ==> Signed(env, t.ssh, o)
  {
    forall o | o in t.observations
      ensures Signed(env, t.ssh, o)
    {
      FindSame(SshRef, s.ssh, t.ssh, o.host.ref);
    }
  }

  lemma OrderlySorts(s: State)
    requires PartsUnique(s)
    ensures Orderly(Sorted(s))
  {
    SortAscending(HostRef, s.registrations);
    SortAscending(SshRef, s.ssh);
    SortAscending(AgentRef, s.agents);
    SortAscending(SeenRef, s.observations);
    SortAscending(EpochRef, s.history);
  }

  predicate PartsUnique(s: State) {
    && Unique(HostRef, s.registrations) && Unique(SshRef, s.ssh) && Unique(AgentRef, s.agents)
    && Unique(SeenRef, s.observations) && Unique(EpochRef, s.history)
  }

  lemma OrderlyUnique(s: State)
    requires Orderly(s)
    ensures PartsUnique(s) && Sorted(s) == s
  {
    AscendingUnique(HostRef, s.registrations);
    AscendingUnique(SshRef, s.ssh);
    AscendingUnique(AgentRef, s.agents);
    AscendingUnique(SeenRef, s.observations);
    AscendingUnique(EpochRef, s.history);
    SortFixed(HostRef, s.registrations);
    SortFixed(SshRef, s.ssh);
    SortFixed(AgentRef, s.agents);
    SortFixed(SeenRef, s.observations);
    SortFixed(EpochRef, s.history);
  }

  lemma CoveredSame(s: State, t: State)
    requires SameRecords(s, t) && Covered(s.agents, s.history)
    ensures Covered(t.agents, t.history)
  {
  }

  lemma RangedSame(s: State, t: State)
    requires SameRecords(s, t) && Ranged(s.registrations, s.agents, s.history) && EnabledApart(s.agents)
    ensures Ranged(t.registrations, t.agents, t.history) && EnabledApart(t.agents)
  {
  }

  lemma SortedValid(env: Env, s: State)
    requires Acceptable(env, s)
    ensures Valid(env, Sorted(s))
  {
    var t := Sorted(s);
    hide Sorted, Unique, Ascending, Signed, Ranged, Covered, EnabledApart, Linked;
    SortedRecords(s);
    RangedSame(s, t);
    OrderlySorts(s);
    OrderlyUnique(t);
    LinkedSame(s, t);
    SignedSame(env, s, t);
    CoveredSame(s, t);
    DatedIff(s.registrations, s.observations, s.generation);
    DatedIff(t.registrations, t.observations, t.generation);
  }

  // ---- probes of the early layouts ----

  lemma FromProbesSorted(env: Env, probes: seq<Probe>)
    ensures FromProbes(env, probes) == Sorted(RawProbes(env, probes))
  {
    var raw := RawProbes(env, probes);
    var t := Sorted(raw);
    ViewsSorted(raw.observations);
    SortedRecords(raw);
    hide SortBy;
    GenerationSame(raw.registrations, raw.observations, t.registrations, t.observations);
    assert SortBy(AgentRef, []) == [] && SortBy(EpochRef, []) == [] by {
      SortMembers(AgentRef, []);
      SortMembers(EpochRef, []);
    }
  }

  lemma FromProbesValid(env: Env, probes: seq<Probe>)
    requires ProbesOk(probes)
    ensures Valid(env, FromProbes(env, probes))
  {
    hide Acceptable, Orderly, Sorted, FromProbes, RawProbes;
    FromProbesSorted(env, probes);
    RawAcceptable(env, probes);
    SortedValid(env, RawProbes(env, probes));
  }

  /** The unsorted state an early document stands for. */
  function RawProbes(env: Env, probes: seq<Probe>): State {
    var observations := seq(|probes|, i requires 0 <= i < |probes| =>
                                        Observation(probes[i].host, env.probe(probes[i].host, probes[i].binding)));
    var ssh := seq(|probes|, i requires 0 <= i < |probes| => Entry(probes[i].host.ref, probes[i].binding));
    State(Views(observations), ssh, [], observations, DocumentGeneration(Views(observations), observations), [])
  }

  lemma GenerationSame(r: seq<Host>, o: seq<Observation>, r': seq<Host>, o': seq<Observation>)
    requires (forall h :: h in r <==> h in r') && (forall x :: x in o <==> x in o')
    ensures DocumentGeneration(r, o) == DocumentGeneration(r', o')
  {
    DatedIff(r, o, DocumentGeneration(r, o));
    DatedIff(r', o', DocumentGeneration(r', o'));
    DatedIff(r, o, DocumentGeneration(r', o'));
    DatedIff(r', o', DocumentGeneration(r, o));
  }

  lemma {:induction false} ViewsInsert(s: seq<Observation>, o: Observation)
    ensures Views(Insert(SeenRef, s, o)) == Insert(HostRef, Views(s), o.host)
  {
    if s == [] || !Less(o.host.ref, s[|s| - 1].host.ref) {
      assert Views(s + [o]) == Views(s) + [o.host];
    } else {
      ViewsInsert(s[..|s| - 1], o);
      assert Views(s)[..|s| - 1] == Views(s[..|s| - 1]);
      var front := Insert(SeenRef, s[..|s| - 1], o);
      assert Views(front + [s[|s| - 1]]) == Views(front) + [s[|s| - 1].host];
    }
  }

  lemma {:induction false} ViewsSorted(s: seq<Observation>)
    ensures Views(SortBy(SeenRef, s)) == SortBy(HostRef, Views(s))
  {
    if s != [] {
      ViewsSorted(s[..|s| - 1]);
      assert Views(s)[..|s| - 1] == Views(s[..|s| - 1]);
      ViewsInsert(SortBy(SeenRef, s[..|s| - 1]), s[|s| - 1]);
    }
  }

  lemma RawLookup(env: Env, probes: seq<Probe>, i: nat)
    requires ProbesOk(probes) && i < |probes|
    ensures var s, ref := RawProbes(env, probes), probes[i].host.ref;
            Find(SshRef, s.ssh, ref) == Some(Entry(ref, probes[i].binding)) &&
            Has(SshRef, s.ssh, ref) && Has(HostRef, s.registrations, ref)
  {
    var s := RawProbes(env, probes);
    assert s.ssh[i] in s.ssh && SshRef(s.ssh[i]) == probes[i].host.ref && HostRef(s.registrations[i]) == probes[i].host.ref;
    assert Unique(SshRef, s.ssh);
    var f := Find(SshRef, s.ssh, probes[i].host.ref);
    SameRecord(SshRef, s.ssh, f.value, s.ssh[i]);
  }

  lemma RawUnique(env: Env, probes: seq<Probe>)
    requires ProbesOk(probes)
    ensures PartsUnique(RawProbes(env, probes))
  {
  }

  lemma RawLinked(env: Env, probes: seq<Probe>)
    requires ProbesOk(probes)
    ensures var s := RawProbes(env, probes);
            Linked(s.registrations, s.ssh, s.agents, s.observations) && forall o :: o in s.observations ==> Signed(env, s.ssh, o)
  {
    hide Find, Has, Unique;
    var s := RawProbes(env, probes);
    forall i: nat | i < |probes|
      ensures Has(HostRef, s.registrations, s.ssh[i].ref) && Has(HostRef, s.registrations, s.observations[i].host.ref)
      ensures Has(SshRef, s.ssh, s.observations[i].host.ref) && Signed(env, s.ssh, s.observations[i])
    {
      RawLookup(env, probes, i);
    }
  }

  lemma RawDated(env: Env, probes: seq<Probe>)
    requires ProbesOk(probes)
    ensures var s := RawProbes(env, probes); s.generation <= MAX_GENERATION && Ranged(s.registrations, s.agents, s.history)
  {
    var s := RawProbes(env, probes);
    DatedIff(s.registrations, s.observations, MAX_GENERATION);
  }

  lemma RawAcceptable(env: Env, probes: seq<Probe>)
    requires ProbesOk(probes)
    ensures Acceptable(env, RawProbes(env, probes))
  {
    hide Linked, Signed, Ranged, Unique;
    RawUnique(env, probes);
    RawLinked(env, probes);
    RawDated(env, probes);
  }

  // ---- version 3 before the epoch history ----

  function KeySet<T(!new)>(key: T -> Ref, s: seq<T>): set<Ref> {
    set i | 0 <= i < |s| :: key(s[i])
  }

  lemma {:induction false} KeySetSize<T(!new)>(key: T -> Ref, s: seq<T>)
    ensures |KeySet(key, s)| <= |s|
    ensures Unique(key, s) ==> |KeySet(key, s)| == |s|
  {
    if s != [] {
      var n := |s| - 1;
      KeySetSize(key, s[..n]);
      assert KeySet(key, s) == KeySet(key, s[..n]) + {key(s[n])} by {
        forall r | r in KeySet(key, s)
          ensures r in KeySet(key, s[..n]) + {key(s[n])}
        {
          var i :| 0 <= i < |s| && key(s[i]) == r;
          assert i < n ==> s[..n][i] == s[i];
        }
        forall r | r in KeySet(key, s[..n])
          ensures r in KeySet(key, s)
        {
          var i :| 0 <= i < n && key(s[..n][i]) == r;
          assert s[i] == s[..n][i];
        }
      }
      if Unique(key, s) {
        assert key(s[n]) !in KeySet(key, s[..n]);
      }
    } else {
      assert KeySet(key, s) == {};
    }
  }

  /** Bindings of distinct registered hosts are no more than the registrations. */
  lemma AgentsFit(registrations: seq<Host>, agents: seq<Agent>)
    requires Unique(AgentRef, agents) && forall a :: a in agents ==> Has(HostRef, registrations, a.ref)
    ensures |agents| <= |registrations|
  {
    KeySetSize(AgentRef, agents);
    KeySetSize(HostRef, registrations);
    forall r | r in KeySet(AgentRef, agents)
      ensures r in KeySet(HostRef, registrations)
    {
      var i :| 0 <= i < |agents| && AgentRef(agents[i]) == r;
      assert agents[i] in agents;
      var j :| 0 <= j < |registrations| && HostRef(registrations[j]) == r;
    }
    SubsetSize(KeySet(AgentRef, agents), KeySet(HostRef, registrations));
  }

  lemma SignedInRange(env: Env, ssh: seq<Entry<Private>>, o: Observation)
    requires Signed(env, ssh, o)
    ensures InRange(o.host.generation)
  {
  }

  lemma OldAcceptable(env: Env, s: State)
    requires PartsOk(env, s) && s.history == EpochsOf(s.agents)
    requires s.generation == DocumentGeneration(s.registrations, s.observations)
    ensures Acceptable(env, s)
  {
    hide Signed, Unique, Has;
    AgentsFit(s.registrations, s.agents);
    forall o | o in s.observations
      ensures InRange(o.host.generation)
    {
      SignedInRange(env, s.ssh, o);
    }
    DatedIff(s.registrations, s.observations, MAX_GENERATION);
  }

  // ---- reading and writing ----

  lemma EmptyValid(env: Env)
    ensures Valid(env, Empty)
  {
  }

  /** Whatever document is accepted, the state handed out satisfies every check of the reader, in order. */
  lemma ReadValid(env: Env, file: Option<Document>)
    requires Read(env, file).Some?
    ensures Valid(env, Read(env, file).value.state)
  {
    hide FromProbes, PartsOk, Orderly, ProbesOk, Sorted;
    if file.None? {
      EmptyValid(env);
    } else {
      match file.value
      case V1(probes) => FromProbesValid(env, probes);
      case V2(seen, bound) => FromProbesValid(env, Rebound(seen, bound).value);
      case OldV3(registrations, ssh, agents, observations) =>
        var s := State(registrations, ssh, agents, observations, DocumentGeneration(registrations, observations),
                       EpochsOf(agents));
        OldAcceptable(env, s);
        SortedValid(env, s);
      case V3(s) => SortedValid(env, s);
    }
  }

  /** A valid state is always written, and what is written reads back as that state without migration. */
  lemma WriteReads(env: Env, s: State)
    requires Valid(env, s)
    ensures Write(s).Some? && Read(env, Write(s)) == Some(Loaded(s, false))
  {
    hide Signed, Has, Unique, Ascending, Reaches, DocumentGeneration, Sorted;
    DatedIff(s.registrations, s.observations, s.generation);
    OrderlyUnique(s);
  }

  // ---- migration ----

  function ProbeHosts(probes: seq<Probe>): (r: seq<Host>)
    ensures |r| == |probes| && forall i :: 0 <= i < |probes| ==> r[i] == probes[i].host
  {
    seq(|probes|, i requires 0 <= i < |probes| => probes[i].host)
  }

  /** The host list a stored document shows, read off its own lists. */
  function Listing(d: Document): seq<Host> {
    match d
    case V1(probes) => SortBy(HostRef, ProbeHosts(probes))
    case V2(seen, _) => SortBy(HostRef, Views(seen))
    case OldV3(registrations, _, _, observations) => Merged(registrations, observations)
    case V3(s) => Merged(s.registrations, s.observations)
  }

  lemma ViewsMembers(observations: seq<Observation>)
    ensures forall h :: h in Views(observations) <==> exists o :: o in observations && o.host == h
  {
    forall o | o in observations
      ensures o.host in Views(observations)
    {
      var i :| 0 <= i < |observations| && observations[i] == o;
      assert Views(observations)[i] == o.host;
    }
    forall h | h in Views(observations)
      ensures exists o :: o in observations && o.host == h
    {
      var i :| 0 <= i < |observations| && Views(observations)[i] == h;
      assert observations[i] in observations;
    }
  }

  ghost predicate InMerged(registrations: seq<Host>, observations: seq<Observation>, h: Host) {
    || (h in registrations && !Has(SeenRef, observations, h.ref))
    || exists o :: o in observations && o.host == h
  }

  lemma KeepUnique<T(!new)>(key: T -> Ref, s: seq<T>, p: T -> bool)
    requires Unique(key, s)
    ensures Unique(key, Keep(s, p))
  {
    if s != [] {
      var n := |s| - 1;
      InitDiffers(key, s);
      KeepUnique(key, s[..n], p);
      KeepMembers(s[..n], p);
      if p(s[n]) {
        AppendUnique(key, Keep(s[..n], p), s[n]);
      }
    }
  }

  lemma ConcatUnique<T(!new)>(key: T -> Ref, s: seq<T>, t: seq<T>)
    requires Unique(key, s) && Unique(key, t) && forall x, y :: x in s && y in t ==> key(x) != key(y)
    ensures Unique(key, s + t)
  {
  }

  lemma MergedMembers(registrations: seq<Host>, observations: seq<Observation>)
    requires Unique(HostRef, registrations) && Unique(SeenRef, observations)
    ensures Ascending(HostRef, Merged(registrations, observations))
    ensures forall h :: h in Merged(registrations, observations) <==> InMerged(registrations, observations, h)
  {
    var p := (h: Host) => !Has(SeenRef, observations, h.ref);
    var rest, seen := Keep(registrations, p), Views(observations);
    KeepMembers(registrations, p);
    KeepUnique(HostRef, registrations, p);
    ViewsMembers(observations);
    forall x, y | x in rest && y in seen
      ensures HostRef(x) != HostRef(y)
    {
      var o :| o in observations && o.host == y;
      HasIff(SeenRef, observations, x.ref);
      assert SeenRef(o) == y.ref;
    }
    ConcatUnique(HostRef, rest, seen);
    SortAscending(HostRef, rest + seen);
    SortMembers(HostRef, rest + seen);
  }

  /** The merged list depends on the records only, not on the order they are stored in. */
  lemma MergedSame(r: seq<Host>, o: seq<Observation>, r': seq<Host>, o': seq<Observation>)
    requires Unique(HostRef, r) && Unique(SeenRef, o) && Unique(HostRef, r') && Unique(SeenRef, o')
    requires (forall h :: h in r <==> h in r') && (forall x :: x in o <==> x in o')
    ensures Merged(r, o) == Merged(r', o')
  {
    hide Merged, Unique, Has;
    MergedMembers(r, o);
    MergedMembers(r', o');
    forall h
      ensures h in Merged(r, o) <==> h in Merged(r', o')
    {
      HasSame(SeenRef, o, o', h.ref);
    }
    AscendingCanonical(HostRef, Merged(r, o), Merged(r', o'));
  }

  /** Where every registration is an observation, the list is just the observed hosts. */
  lemma MergedProbes(observations: seq<Observation>)
    requires Unique(SeenRef, observations)
    ensures Merged(Views(observations), observations) == SortBy(HostRef, Views(observations))
  {
    var hosts := Views(observations);
    assert Unique(HostRef, hosts);
    MergedMembers(hosts, observations);
    ViewsMembers(observations);
    SortAscending(HostRef, hosts);
    SortMembers(HostRef, hosts);
    forall h
      ensures InMerged(hosts, observations, h) <==> h in hosts
    {
      HasIff(SeenRef, observations, h.ref);
    }
    AscendingCanonical(HostRef, Merged(hosts, observations), SortBy(HostRef, hosts));
  }

  lemma ProbesListing(env: Env, probes: seq<Probe>)
    requires ProbesOk(probes)
    ensures var s := FromProbes(env, probes); Merged(s.registrations, s.observations) == SortBy(HostRef, ProbeHosts(probes))
  {
    var raw := RawProbes(env, probes);
    RawUnique(env, probes);
    FromProbesSorted(env, probes);
    SortedRecords(raw);
    OrderlySorts(raw);
    assert Views(raw.observations) == ProbeHosts(probes);
    hide SortBy, FromProbes, Merged, Unique, Has;
    MergedProbes(raw.observations);
    var s := Sorted(raw);
    OrderlyUnique(s);
    MergedSame(raw.registrations, raw.observations, s.registrations, s.observations);
  }

  lemma OldListing(s: State)
    requires PartsUnique(s)
    ensures Merged(Sorted(s).registrations, Sorted(s).observations) == Merged(s.registrations, s.observations)
  {
    hide SortBy, Merged, Unique;
    SortedRecords(s);
    OrderlySorts(s);
    OrderlyUnique(Sorted(s));
    MergedSame(s.registrations, s.observations, Sorted(s).registrations, Sorted(s).observations);
  }

  lemma ReadListing(env: Env, d: Document)
    requires Read(env, Some(d)).Some? && Read(env, Some(d)).value.migrated
    ensures var s := Read(env, Some(d)).value.state; Merged(s.registrations, s.observations) == Listing(d)
  {
    hide FromProbes, ProbesOk, Merged, Unique, SortBy;
    match d
    case V1(probes) => ProbesListing(env, probes);
    case V2(seen, bound) =>
      var probes := Rebound(seen, bound).value;
      ProbesListing(env, probes);
      assert Views(seen) == ProbeHosts(probes);
    case OldV3(registrations, ssh, agents, observations) =>
      OldListing(State(registrations, ssh, agents, observations, DocumentGeneration(registrations, observations),
                       EpochsOf(agents)));
  }

  /** Migrating any earlier layout succeeds, keeps the merged host list, and happens once. */
  lemma MigrationKeepsHosts(env: Env, d: Document)
    requires Read(env, Some(d)).Some? && Read(env, Some(d)).value.migrated
    ensures var s := Read(env, Some(d)).value.state;
            Merged(s.registrations, s.observations) == Listing(d) &&
            Write(s).Some? && Listing(Write(s).value) == Listing(d) && Read(env, Write(s)) == Some(Loaded(s, false))
  {
    hide Read, Valid, Merged;
    ReadListing(env, d);
    ReadValid(env, Some(d));
    WriteReads(env, Read(env, Some(d)).value.state);
  }
}
