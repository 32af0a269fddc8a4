/** Theorems over every run of the registry, from its stored documents. */
module HostsHistory {
  import opened Core
  import opened Tables
  import opened Hosts
  import opened HostsReading
  import opened HostsRuns
  import opened HostsSync

  datatype Op =
    | DoProvision(registration: Static, binding: Agent, expected: int)
    | DoSynchronize(wanted: seq<Wanted>, whenAt: Option<int>)
    | DoProbe(host: Host, private: Private)
    | DoActiveProbe(ref: Ref, generation: int, resources: Resources, at: int)
    | DoList

  /** The state after one call; an error leaves it alone. */
  function Next(env: Env, s: State, op: Op): State {
    match op
    case DoProvision(r, b, expected) => var x := Provision(s, r, b, expected); if x.Ok? then x.value.0 else s
    case DoSynchronize(wanted, expected) => var x := Synchronize(s, wanted, expected); if x.Ok? then x.value else s
    case DoProbe(h, p) => var x := RecordProbe(env, s, h, p); if x.Ok? then x.value.0 else s
    case DoActiveProbe(ref, g, resources, at) =>
      var x := RecordActiveProbe(env, s, ref, g, resources, at); if x.Ok? then x.value.0 else s
    case DoList => s
  }

  /** Arguments that are refused before the document is read. */
  predicate Malformed(op: Op) {
    match op
    case DoProvision(r, b, _) => !AgentOk(b) || b.ref != r.ref
    case DoSynchronize(wanted, _) => (exists i :: 0 <= i < |wanted| && !AgentOk(wanted[i].binding)) || !WantedOk(wanted)
    case DoProbe(h, p) => !ProbeOk(h) || p == []
    case DoActiveProbe(_, g, _, _) => !InRange(g)
    case DoList => false
  }

  lemma MalformedChangesNothing(env: Env, s: State, op: Op)
    requires Malformed(op)
    ensures Next(env, s, op) == s
  {
    hide NextEpoch, Write, PrepareAll, SyncState, SyncChanges, Provisioned, Probed, Refreshed, WantedOk;
  }

  /** One call: read under the lock, migrate if need be, change and write; an unreadable document stops it. */
  function Call(env: Env, file: Option<Document>, op: Op): Option<Document> {
    var loaded := Read(env, file);
    if loaded.None? || Malformed(op) then file
    else
      var s := loaded.value.state;
      var before := if loaded.value.migrated then Write(s) else file;
      var s' := Next(env, s, op);
      if s' == s then before else Write(s')
  }

  function After(env: Env, file: Option<Document>, ops: seq<Op>): Option<Document> {
    if ops == [] then file else Call(env, After(env, file, ops[..|ops| - 1]), ops[|ops| - 1])
  }

  /** A document that reads, into a state whose history is exact and whose ssh bindings are not empty. */
  ghost predicate Sound(env: Env, file: Option<Document>) {
    Read(env, file).Some? && Grown(Read(env, file).value.state)
  }

  lemma EmptySound(env: Env)
    ensures Sound(env, None)
  {
  }

  lemma NextAdvances(env: Env, s: State, op: Op)
    requires Valid(env, s) && Grown(s)
    ensures Advanced(env, s, Next(env, s, op))
  {
    hide Valid, Grown, Advanced, Provision, Synchronize, RecordProbe, RecordActiveProbe;
    Unmoved(env, s);
    match op
    case DoProvision(r, b, expected) => ProvisionAdvances(env, s, r, b, expected);
    case DoSynchronize(wanted, expected) => SynchronizeAdvances(env, s, wanted, expected);
    case DoProbe(h, p) => RecordProbeAdvances(env, s, h, p);
    case DoActiveProbe(ref, g, resources, at) => ActiveProbeAdvances(env, s, ref, g, resources, at);
    case DoList =>
  }

  /** Whatever a call writes reads back as the state it meant, and so does what it leaves alone. */
  lemma CallReads(env: Env, file: Option<Document>, op: Op)
    requires Sound(env, file)
    ensures var s := Read(env, file).value.state;
            Read(env, Call(env, file, op)).Some? &&
            Read(env, Call(env, file, op)).value.state == Next(env, s, op) &&
            Advanced(env, s, Next(env, s, op)) && Sound(env, Call(env, file, op))
  {
    hide Read, Next, Grown, Valid, Write, Fence;
    var s := Read(env, file).value.state;
    ReadValid(env, file);
    NextAdvances(env, s, op);
    WriteReads(env, s);
    WriteReads(env, Next(env, s, op));
    if Malformed(op) {
      MalformedChangesNothing(env, s, op);
    }
  }

  lemma {:induction false} AfterSound(env: Env, file: Option<Document>, ops: seq<Op>)
    requires Sound(env, file)
    ensures Sound(env, After(env, file, ops))
  {
    hide Sound, Call;
    if ops != [] {
      AfterSound(env, file, ops[..|ops| - 1]);
      CallReads(env, After(env, file, ops[..|ops| - 1]), ops[|ops| - 1]);
    }
  }

  /** The state before call number n of a run. */
  function StateAt(env: Env, file: Option<Document>, ops: seq<Op>, n: nat): State
    requires n <= |ops|
  {
    var loaded := Read(env, After(env, file, ops[..n]));
    if loaded.Some? then loaded.value.state else Empty
  }

  lemma StateNext(env: Env, file: Option<Document>, ops: seq<Op>, n: nat)
    requires n < |ops| && Sound(env, file)
    ensures StateAt(env, file, ops, n + 1) == Next(env, StateAt(env, file, ops, n), ops[n])
    ensures Advanced(env, StateAt(env, file, ops, n), StateAt(env, file, ops, n + 1))
  {
    hide Read, Next, Advanced, Call;
    AfterSound(env, file, ops[..n]);
    CallReads(env, After(env, file, ops[..n]), ops[n]);
    assert ops[..n + 1][..n] == ops[..n];
  }

  lemma StateSound(env: Env, file: Option<Document>, ops: seq<Op>, n: nat)
    requires n <= |ops| && Sound(env, file)
    ensures Valid(env, StateAt(env, file, ops, n)) && Grown(StateAt(env, file, ops, n))
  {
    hide Read, Grown, Valid;
    AfterSound(env, file, ops[..n]);
    ReadValid(env, After(env, file, ops[..n]));
  }

  lemma {:induction false} FencedRun(env: Env, file: Option<Document>, ops: seq<Op>, m: nat, n: nat)
    requires m <= n <= |ops| && Sound(env, file)
    ensures Fence(StateAt(env, file, ops, m), StateAt(env, file, ops, n))
    ensures StateAt(env, file, ops, m).generation <= StateAt(env, file, ops, n).generation
    decreases n
  {
    hide StateAt, Sound, Valid, Grown, Fence;
    StateSound(env, file, ops, m);
    if m == n {
      FenceSelf(env, StateAt(env, file, ops, m));
    } else {
      FencedRun(env, file, ops, m, n - 1);
      StateNext(env, file, ops, n - 1);
      FenceTrans(StateAt(env, file, ops, m), StateAt(env, file, ops, n - 1), StateAt(env, file, ops, n));
    }
  }

  // ---- theorems ----

  /** Every document of every run is accepted by the strict reader; the first is any sound one, or none. */
  lemma AlwaysReadable(env: Env, file: Option<Document>, ops: seq<Op>)
    requires file.None? || Sound(env, file)
    ensures Read(env, After(env, file, ops)).Some?
    ensures Valid(env, Read(env, After(env, file, ops)).value.state)
  {
    hide Read, Grown, Valid, After;
    if file.None? {
      assert Sound(env, file) by { EmptySound(env); }
    }
    AfterSound(env, file, ops);
    ReadValid(env, After(env, file, ops));
  }

  /** A call that changes the state raises the document generation above every generation stored before. */
  lemma WritesRaise(env: Env, file: Option<Document>, ops: seq<Op>, n: nat)
    requires n < |ops| && Sound(env, file)
    ensures var s, s' := StateAt(env, file, ops, n), StateAt(env, file, ops, n + 1);
            s' != s ==> s.generation < s'.generation &&
                        (forall h :: h in s.registrations ==> h.generation < s'.generation) &&
                        (forall o :: o in s.observations ==> o.host.generation < s'.generation)
  {
    hide StateAt, Sound, Fence, Grown, PartsOk, Orderly;
    var s := StateAt(env, file, ops, n);
    StateNext(env, file, ops, n);
    StateSound(env, file, ops, n);
    DatedIff(s.registrations, s.observations, s.generation);
  }

  /**
   * Fencing over whole runs: of two bindings of one host, stored at any two times, the later has
   * no lower epoch, and one with the same epoch has the same key and the same enabled flag.
   */
  lemma EpochNamesBinding(env: Env, file: Option<Document>, ops: seq<Op>, m: nat, n: nat, a: Agent, b: Agent)
    requires m <= n <= |ops| && Sound(env, file)
    ensures a in StateAt(env, file, ops, m).agents && b in StateAt(env, file, ops, n).agents && a.ref == b.ref ==>
              a.epoch <= b.epoch && (a.epoch == b.epoch ==> a == b)
  {
    hide StateAt, Sound, Acceptable, Ascending;
    FencedRun(env, file, ops, m, n);
    StateSound(env, file, ops, m);
    var s := StateAt(env, file, ops, m);
    if a in s.agents && b in StateAt(env, file, ops, n).agents && a.ref == b.ref {
      var e := Entry(a.ref, a.epoch);
      assert e in s.history;
      if b.epoch == a.epoch {
        assert b in s.agents;
        AscendingUnique(AgentRef, s.agents);
        SameRecord(AgentRef, s.agents, a, b);
      }
    }
  }

  /** A host removed and bound again later gets a strictly higher epoch. */
  lemma ReaddedHigher(env: Env, file: Option<Document>, ops: seq<Op>, m: nat, k: nat, n: nat, a: Agent, b: Agent)
    requires m <= k <= n <= |ops| && Sound(env, file)
    ensures a in StateAt(env, file, ops, m).agents && b in StateAt(env, file, ops, n).agents && a.ref == b.ref ==>
              Has(AgentRef, StateAt(env, file, ops, k).agents, a.ref) || a.epoch < b.epoch
  {
    hide StateAt, Sound, Acceptable, Ascending, Has;
    EpochNamesBinding(env, file, ops, m, n, a, b);
    FencedRun(env, file, ops, m, k);
    FencedRun(env, file, ops, k, n);
    StateSound(env, file, ops, m);
    var s := StateAt(env, file, ops, k);
    if a in StateAt(env, file, ops, m).agents && b in StateAt(env, file, ops, n).agents && a.ref == b.ref {
      assert Entry(a.ref, a.epoch) in StateAt(env, file, ops, m).history;
      var e :| e in s.history && e.ref == a.ref && a.epoch <= e.value;
      HasIff(AgentRef, s.agents, a.ref);
      assert AgentRef(b) == a.ref;
    }
  }

  /** Two enabled bindings never share a client key, so a key resolves to the host that holds it. */
  lemma ResolvesExactly(env: Env, file: Option<Document>, ops: seq<Op>, n: nat, spki: string)
    requires n <= |ops| && Sound(env, file)
    ensures var s := StateAt(env, file, ops, n);
            (forall a, b :: a in s.agents && b in s.agents && a.enabled && b.enabled && a.spki == b.spki ==> a == b) &&
            (forall a :: a in s.agents && a.enabled && a.spki == spki ==> Resolve(s, spki) == Ok((a.ref, s.generation, a.epoch))) &&
            (Resolve(s, spki).Ok? ==>
               exists a :: a in s.agents && a.enabled && a.spki == spki && Resolve(s, spki).value == (a.ref, s.generation, a.epoch))
  {
    StateSound(env, file, ops, n);
    ResolveValid(env, StateAt(env, file, ops, n), spki);
  }

  /** Enabled bindings of a valid state differ in their keys. */
  lemma EnabledKeysUnique(env: Env, s: State, a: Agent, b: Agent)
    requires Valid(env, s) && a in s.agents && b in s.agents && a.enabled && b.enabled && a.spki == b.spki
    ensures a == b
  {
    hide Signed, Ranged, Covered, Linked, Orderly, DocumentGeneration;
    SameRecord(AgentRef, s.agents, a, b);
  }

  lemma AgentsUnique(env: Env, s: State)
    requires Valid(env, s)
    ensures Unique(AgentRef, s.agents) && forall a :: a in s.agents ==> Has(HostRef, s.registrations, a.ref)
  {
    hide Signed, Ranged, Covered, Orderly, DocumentGeneration, EnabledApart, Unique, Has;
  }

  lemma MatchesMembers(s: State, spki: string)
    ensures forall a :: a in Matches(s, spki) <==> a in s.agents && a.enabled && a.spki == spki
    ensures Unique(AgentRef, s.agents) ==> Unique(AgentRef, Matches(s, spki))
  {
    var p := (a: Agent) => a.enabled && a.spki == spki;
    KeepMembers(s.agents, p);
    if Unique(AgentRef, s.agents) {
      KeepUnique(AgentRef, s.agents, p);
    }
  }

  /** A key has no match, or exactly the one binding that holds it. */
  lemma MatchesAtMostOne(env: Env, s: State, spki: string)
    requires Valid(env, s)
    ensures |Matches(s, spki)| <= 1
    ensures forall a :: a in s.agents && a.enabled && a.spki == spki ==> Matches(s, spki) == [a]
    ensures |Matches(s, spki)| == 1 ==> var a := Matches(s, spki)[0]; a in s.agents && a.enabled && a.spki == spki
  {
    hide Valid, Matches, Has;
    var matches := Matches(s, spki);
    MatchesMembers(s, spki);
    AgentsUnique(env, s);
    assert forall i :: 0 <= i < |matches| ==> matches[i] in matches;
    if |matches| >= 2 {
      assert AgentRef(matches[0]) != AgentRef(matches[1]);
      EnabledKeysUnique(env, s, matches[0], matches[1]);
    }
  }

  lemma ResolveValid(env: Env, s: State, spki: string)
    requires Valid(env, s)
    ensures forall a, b :: a in s.agents && b in s.agents && a.enabled && b.enabled && a.spki == b.spki ==> a == b
    ensures forall a :: a in s.agents && a.enabled && a.spki == spki ==> Resolve(s, spki) == Ok((a.ref, s.generation, a.epoch))
    ensures Resolve(s, spki).Ok? ==>
              exists a :: a in s.agents && a.enabled && a.spki == spki && Resolve(s, spki).value == (a.ref, s.generation, a.epoch)
  {
    hide Valid, Keep, Has;
    MatchesAtMostOne(env, s, spki);
    AgentsUnique(env, s);
    forall a, b | a in s.agents && b in s.agents && a.enabled && b.enabled && a.spki == b.spki
      ensures a == b
    {
      EnabledKeysUnique(env, s, a, b);
    }
    assert Resolve(s, spki).Ok? <==> |Matches(s, spki)| == 1;
  }
}
