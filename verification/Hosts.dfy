/**
 * The host registry: registrations, ssh and agent bindings, probe observations and the
 * lease-epoch history, kept in one document behind a generation compare-and-swap.
 * A dictionary is its association list sorted by reference.
 */
module Hosts {
  import opened Core
  import opened Tables

  const MAX_HOSTS := 256
  const MAX_GENERATION := 0x7FFF_FFFF_FFFF_FFFF

  datatype Source = HostAgent | InventoryAgent | StaticAgentBinding
  datatype Meta = Meta(title: string, role: string, kind: string, bindingRef: string, capabilities: seq<string>)
  datatype Reach = Reach(state: string, latency: Option<int>)
  datatype Resources = Resources(cpuThreads: Option<int>, memoryBytes: Option<int>)
  type Private = seq<(string, string)>

  datatype Host = Host(
    ref: Ref, meta: Meta, reach: Reach, resources: Resources, generation: int, observedAt: Option<int>, source: Source)
  datatype Observation = Observation(host: Host, digest: string)
  datatype Agent = Agent(ref: Ref, spki: string, epoch: int, enabled: bool)
  datatype Entry<V> = Entry(ref: Ref, value: V)

  function HostRef(h: Host): Ref { h.ref }
  function SeenRef(o: Observation): Ref { o.host.ref }
  function AgentRef(a: Agent): Ref { a.ref }
  function SshRef(e: Entry<Private>): Ref { e.ref }
  function EpochRef(e: Entry<int>): Ref { e.ref }

  datatype State = State(
    registrations: seq<Host>, ssh: seq<Entry<Private>>, agents: seq<Agent>, observations: seq<Observation>,
    generation: int, history: seq<Entry<int>>)

  const Empty := State([], [], [], [], 0, [])

  /** The two probe digests: over everything with the private binding, or over the fresh fields only. */
  datatype Env = Env(probe: (Host, Private) -> string, active: (Ref, int, Resources, int) -> string)

  const Reachable := Reach("reachable", Some(0))

  predicate InRange(n: int) {
    0 <= n <= MAX_GENERATION
  }

  predicate AgentOk(a: Agent) {
    1 <= a.epoch <= MAX_GENERATION
  }

  predicate ProbeOk(h: Host) {
    h.observedAt.Some? && h.source in {HostAgent, InventoryAgent} && InRange(h.generation)
  }

  function ActiveObservation(env: Env, ref: Ref, generation: int, meta: Meta, resources: Resources, at: int): Observation {
    Observation(Host(ref, meta, Reachable, resources, generation, Some(at), HostAgent),
                env.active(ref, generation, resources, at))
  }

  predicate IsActive(env: Env, o: Observation) {
    o.host.observedAt.Some? && InRange(o.host.generation) &&
    o == ActiveObservation(env, o.host.ref, o.host.generation, o.host.meta, o.host.resources, o.host.observedAt.value)
  }

  /** Whether the reader accepts the digest of an observation. */
  predicate Signed(env: Env, ssh: seq<Entry<Private>>, o: Observation) {
    var bound := Find(SshRef, ssh, o.host.ref);
    if bound.Some? then
      ProbeOk(o.host) && bound.value.value != [] && (o.digest == env.probe(o.host, bound.value.value) || IsActive(env, o))
    else
      IsActive(env, o)
  }

  // ---- what the strict reader accepts ----

  /** The largest generation of any record, 0 if there is none. */
  function TopGeneration(s: seq<Host>): (r: int)
    ensures r >= 0
    ensures forall h :: h in s ==> h.generation <= r
  {
    if s == [] then 0
    else
      var rest := TopGeneration(s[..|s| - 1]);
      assert s == s[..|s| - 1] + [s[|s| - 1]];
      if s[|s| - 1].generation > rest then s[|s| - 1].generation else rest
  }

  function Views(s: seq<Observation>): (r: seq<Host>)
    ensures |r| == |s| && forall i :: 0 <= i < |s| ==> r[i] == s[i].host
  {
    seq(|s|, i requires 0 <= i < |s| => s[i].host)
  }

  function DocumentGeneration(registrations: seq<Host>, observations: seq<Observation>): int {
    TopGeneration(registrations + Views(observations))
  }

  predicate Linked(registrations: seq<Host>, ssh: seq<Entry<Private>>, agents: seq<Agent>, observations: seq<Observation>) {
    && (forall e :: e in ssh ==> Has(HostRef, registrations, e.ref))
    && (forall a :: a in agents ==> Has(HostRef, registrations, a.ref))
    && (forall o :: o in observations ==>
          Has(HostRef, registrations, o.host.ref) && (Has(SshRef, ssh, o.host.ref) || Has(AgentRef, agents, o.host.ref)))
  }

  predicate EnabledApart(agents: seq<Agent>) {
    forall a, b :: a in agents && b in agents && a.enabled && b.enabled && a.spki == b.spki ==> a.ref == b.ref
  }

  /** The history has the host at an epoch of at least n. */
  predicate Reaches(history: seq<Entry<int>>, ref: Ref, n: int) {
    exists e :: e in history && e.ref == ref && n <= e.value
  }

  predicate Covered(agents: seq<Agent>, history: seq<Entry<int>>) {
    forall a :: a in agents ==> Reaches(history, a.ref, a.epoch)
  }

  predicate Ranged(registrations: seq<Host>, agents: seq<Agent>, history: seq<Entry<int>>) {
    && (forall h :: h in registrations ==> InRange(h.generation))
    && (forall a :: a in agents ==> AgentOk(a))
    && (forall e :: e in history ==> 1 <= e.value <= MAX_GENERATION)
  }

  /** The checks of a version-3 document on its lists, in whatever order they are. */
  predicate PartsOk(env: Env, s: State) {
    && |s.registrations| <= MAX_HOSTS && |s.observations| <= MAX_HOSTS
    && Unique(HostRef, s.registrations) && Unique(SshRef, s.ssh) && Unique(AgentRef, s.agents)
    && Unique(SeenRef, s.observations) && Unique(EpochRef, s.history)
    && Linked(s.registrations, s.ssh, s.agents, s.observations)
    && EnabledApart(s.agents)
    && Ranged(s.registrations, s.agents, s.history)
    && (forall o :: o in s.observations ==> Signed(env, s.ssh, o))
    && Covered(s.agents, s.history)
  }

  predicate Acceptable(env: Env, s: State) {
    && PartsOk(env, s)
    && |s.history| <= MAX_HOSTS
    && DocumentGeneration(s.registrations, s.observations) <= s.generation <= MAX_GENERATION
  }

  /** The lists as the reader hands them on. */
  function Sorted(s: State): State {
    State(SortBy(HostRef, s.registrations), SortBy(SshRef, s.ssh), SortBy(AgentRef, s.agents),
          SortBy(SeenRef, s.observations), s.generation, SortBy(EpochRef, s.history))
  }

  datatype Probe = Probe(host: Host, binding: Private)

  /** Stored documents: two early layouts of probes, version 3 before the epoch history, and version 3. */
  datatype Document =
    | V1(hosts: seq<Probe>)
    | V2(seen: seq<Observation>, bound: seq<Entry<Private>>)
    | OldV3(registrations: seq<Host>, ssh: seq<Entry<Private>>, agents: seq<Agent>, observations: seq<Observation>)
    | V3(state: State)

  datatype Loaded = Loaded(state: State, migrated: bool)

  function FromProbes(env: Env, probes: seq<Probe>): State {
    var observations := SortBy(SeenRef, seq(|probes|, i requires 0 <= i < |probes| =>
                                              Observation(probes[i].host, env.probe(probes[i].host, probes[i].binding))));
    var ssh := SortBy(SshRef, seq(|probes|, i requires 0 <= i < |probes| => Entry(probes[i].host.ref, probes[i].binding)));
    var registrations := Views(observations);
    State(registrations, ssh, [], observations, DocumentGeneration(registrations, observations), [])
  }

  predicate ProbesOk(probes: seq<Probe>) {
    && |probes| <= MAX_HOSTS
    && (forall i :: 0 <= i < |probes| ==> ProbeOk(probes[i].host) && probes[i].binding != [])
    && (forall i, j :: 0 <= i < j < |probes| ==> probes[i].host.ref != probes[j].host.ref)
  }

  /** Version 2 keeps the bindings in a list of their own, one per host, and the digest with the host. */
  function Rebound(seen: seq<Observation>, bound: seq<Entry<Private>>): Option<seq<Probe>> {
    if |seen| != |bound| || !Unique(SshRef, bound) then None
    else if exists i :: 0 <= i < |seen| && Find(SshRef, bound, seen[i].host.ref).None? then None
    else Some(seq(|seen|, i requires 0 <= i < |seen| =>
                    var b := Find(SshRef, bound, seen[i].host.ref);
                    Probe(seen[i].host, if b.Some? then b.value.value else [])))
  }

  function EpochsOf(agents: seq<Agent>): (r: seq<Entry<int>>)
    ensures |r| == |agents| && forall i :: 0 <= i < |agents| ==> r[i] == Entry(agents[i].ref, agents[i].epoch)
  {
    seq(|agents|, i requires 0 <= i < |agents| => Entry(agents[i].ref, agents[i].epoch))
  }

  /** `_read_locked`; a missing document is the empty registry. */
  function Read(env: Env, file: Option<Document>): Option<Loaded> {
    if file.None? then Some(Loaded(Empty, false))
    else
      match file.value
      case V1(probes) => if ProbesOk(probes) then Some(Loaded(FromProbes(env, probes), true)) else None
      case V2(seen, bound) =>
        var probes := Rebound(seen, bound);
        if probes.Some? && ProbesOk(probes.value) &&
           forall i :: 0 <= i < |seen| ==> seen[i].digest == env.probe(seen[i].host, probes.value[i].binding)
        then Some(Loaded(FromProbes(env, probes.value), true))
        else None
      case OldV3(registrations, ssh, agents, observations) =>
        var s := State(registrations, ssh, agents, observations, DocumentGeneration(registrations, observations),
                       EpochsOf(agents));
        if PartsOk(env, s) then Some(Loaded(Sorted(s), true)) else None
      case V3(s) => if Acceptable(env, s) then Some(Loaded(Sorted(s), false)) else None
  }

  /** The checks of `_write_locked`; what it stores is version 3. */
  function Write(s: State): Option<Document> {
    if && InRange(s.generation)
       && (forall a :: a in s.agents ==> AgentOk(a) && Has(HostRef, s.registrations, a.ref))
       && (forall e :: e in s.ssh ==> Has(HostRef, s.registrations, e.ref))
       && |s.registrations| <= MAX_HOSTS && |s.observations| <= MAX_HOSTS && |s.history| <= MAX_HOSTS
       && (forall e :: e in s.history ==> 1 <= e.value <= MAX_GENERATION)
       && Covered(s.agents, s.history)
    then Some(V3(s))
    else None
  }

  /** `_merged_hosts`: the observation of a host stands in for its registration. */
  function Merged(registrations: seq<Host>, observations: seq<Observation>): seq<Host> {
    SortBy(HostRef, Keep(registrations, (h: Host) => !Has(SeenRef, observations, h.ref)) + Views(observations))
  }

  // ---- operations on the state ----

  datatype Static = Static(ref: Ref, title: string, role: string, capabilities: seq<string>)

  function StaticHost(r: Static, generation: int): Host {
    Host(r.ref, Meta(r.title, r.role, "outbound-pull-mtls", r.ref, r.capabilities), Reach("unavailable", None),
         Resources(None, None), generation, None, StaticAgentBinding)
  }

  function SameButGeneration(a: Host, b: Host): bool {
    a.(generation := 0) == b.(generation := 0)
  }

  /** The lease epoch a binding is stored under: raised by any change, and past history when re-added. */
  function NextEpoch(s: State, b: Agent): Result<int> {
    var existing := Find(AgentRef, s.agents, b.ref);
    var prior := Find(EpochRef, s.history, b.ref);
    var raised :=
      if existing.Some? then
        if existing.value.spki == b.spki && existing.value.enabled == b.enabled then Ok(existing.value.epoch)
        else if existing.value.epoch == MAX_GENERATION then Err("host.identity_epoch_exhausted")
        else Ok(existing.value.epoch + 1)
      else if prior.Some? then
        if prior.value.value == MAX_GENERATION then Err("host.identity_epoch_exhausted") else Ok(prior.value.value + 1)
      else Ok(b.epoch);
    if raised.Ok? && b.epoch != 1 && b.epoch != raised.value then Err("host.identity_invalid") else raised
  }

  function Store(s: State, h: Host): Result<(State, Host)> {
    if Write(s).Some? then Ok((s, h)) else Err("control.host_store_unavailable")
  }

  function Provisioned(s: State, h: Host, stored: Agent): State {
    s.(registrations := Put(HostRef, s.registrations, h), agents := Put(AgentRef, s.agents, stored),
       generation := s.generation + 1, history := Put(EpochRef, s.history, Entry(stored.ref, stored.epoch)))
  }

  function Probed(s: State, o: Observation, binding: Private): State {
    s.(registrations := Put(HostRef, s.registrations, o.host), ssh := Put(SshRef, s.ssh, Entry(o.host.ref, binding)),
       observations := Put(SeenRef, s.observations, o), generation := Raised(s.generation, o.host.generation))
  }

  function Refreshed(s: State, o: Observation): State {
    s.(observations := Put(SeenRef, s.observations, o), generation := Raised(s.generation, o.host.generation))
  }

  /** Past the document's generation, and at least the record's. */
  function Raised(document: int, record: int): int {
    if document + 1 > record then document + 1 else record
  }

  function Provision(s: State, r: Static, b: Agent, expected: int): Result<(State, Host)> {
    if !AgentOk(b) then Err("host.identity_invalid")
    else if b.ref != r.ref then Err("host.identity_mismatch")
    else if s.generation != expected then Err("credential.generation_conflict")
    else if exists i :: 0 <= i < |s.agents| && s.agents[i].enabled && b.enabled && s.agents[i].spki == b.spki && s.agents[i].ref != b.ref
    then Err("host.identity_mismatch")
    else
      var epoch := NextEpoch(s, b);
      if epoch.Err? then Err(epoch.code)
      else
        var stored := b.(epoch := epoch.value);
        var existing := Find(HostRef, s.registrations, b.ref);
        if Find(AgentRef, s.agents, b.ref) == Some(stored) && existing.Some? && SameButGeneration(existing.value, StaticHost(r, 1))
        then Ok((s, existing.value))
        else if s.generation == MAX_GENERATION then Err("credential.generation_exhausted")
        else
          var h := StaticHost(r, s.generation + 1);
          Store(Provisioned(s, h, stored), h)
  }

  function RecordProbe(env: Env, s: State, h: Host, binding: Private): Result<(State, Host)> {
    if !ProbeOk(h) || binding == [] then Err("control.host_invalid")
    else
      var o := Observation(h, env.probe(h, binding));
      var existing := Find(SeenRef, s.observations, h.ref);
      if existing.Some? && (h.generation < existing.value.host.generation ||
                            (h.generation == existing.value.host.generation && o.digest != existing.value.digest))
      then Err("credential.generation_conflict")
      else if existing.Some? && h.generation == existing.value.host.generation then Ok((s, existing.value.host))
      else if s.generation == MAX_GENERATION then Err("credential.generation_exhausted")
      else
        Store(Probed(s, o, binding), h)
  }

  function RecordActiveProbe(env: Env, s: State, ref: Ref, generation: int, resources: Resources, at: int): Result<(State, Host)> {
    var known := Find(HostRef, s.registrations, ref);
    if !InRange(generation) then Err("control.host_invalid")
    else if known.None? || (!Has(SshRef, s.ssh, ref) && !Has(AgentRef, s.agents, ref)) then Err("host.identity_not_found")
    else
      var o := ActiveObservation(env, ref, generation, known.value.meta, resources, at);
      var existing := Find(SeenRef, s.observations, ref);
      if existing.Some? && (generation < existing.value.host.generation ||
                            (generation == existing.value.host.generation && o.digest != existing.value.digest))
      then Err("credential.generation_conflict")
      else if existing.Some? && generation == existing.value.host.generation then Ok((s, existing.value.host))
      else if s.generation == MAX_GENERATION then Err("credential.generation_exhausted")
      else
        Store(Refreshed(s, o), o.host)
  }

  // ---- synchronizing all agent bindings at once ----

  datatype Wanted = Wanted(registration: Static, binding: Agent)
  datatype Prepared = Prepared(registration: Static, agent: Agent, changed: bool)

  predicate WantedOk(wanted: seq<Wanted>) {
    && (forall i :: 0 <= i < |wanted| ==> wanted[i].binding.ref == wanted[i].registration.ref)
    && (forall i, j :: 0 <= i < j < |wanted| ==> wanted[i].binding.ref != wanted[j].binding.ref)
    && (forall i, j :: 0 <= i < j < |wanted| ==>
          !(wanted[i].binding.enabled && wanted[j].binding.enabled && wanted[i].binding.spki == wanted[j].binding.spki))
  }

  function Prepare(s: State, w: Wanted): Result<Prepared> {
    var epoch := NextEpoch(s, w.binding);
    if epoch.Err? then Err(epoch.code)
    else
      var stored := w.binding.(epoch := epoch.value);
      var existing := Find(HostRef, s.registrations, w.binding.ref);
      var same := Find(AgentRef, s.agents, w.binding.ref) == Some(stored) && existing.Some? &&
                  SameButGeneration(existing.value, StaticHost(w.registration, 1));
      Ok(Prepared(w.registration, stored, !same))
  }

  function PrepareAll(s: State, wanted: seq<Wanted>): Result<seq<Prepared>> {
    if wanted == [] then Ok([])
    else
      var before := PrepareAll(s, wanted[..|wanted| - 1]);
      if before.Err? then before
      else
        var last := Prepare(s, wanted[|wanted| - 1]);
        if last.Err? then Err(last.code) else Ok(before.value + [last.value])
  }

  function Refs(wanted: seq<Wanted>): set<Ref> {
    set i | 0 <= i < |wanted| :: wanted[i].binding.ref
  }

  /** The registration of a prepared host: a new generation only if something changed. */
  function PreparedHost(s: State, p: Prepared, generation: int): Host {
    var existing := Find(HostRef, s.registrations, p.agent.ref);
    StaticHost(p.registration, if p.changed || existing.None? then generation else existing.value.generation)
  }

  function PreparedHosts(s: State, prepared: seq<Prepared>, generation: int): seq<Host> {
    seq(|prepared|, i requires 0 <= i < |prepared| => PreparedHost(s, prepared[i], generation))
  }

  function PreparedAgents(prepared: seq<Prepared>): seq<Agent> {
    seq(|prepared|, i requires 0 <= i < |prepared| => prepared[i].agent)
  }

  function WithEpochs(history: seq<Entry<int>>, prepared: seq<Prepared>): seq<Entry<int>> {
    if prepared == [] then history
    else
      var last := prepared[|prepared| - 1].agent;
      Put(EpochRef, WithEpochs(history, prepared[..|prepared| - 1]), Entry(last.ref, last.epoch))
  }

  /** Registrations that stay: wanted ones, ssh-bound ones and those a probe made. */
  function Retained(s: State, refs: set<Ref>): seq<Host> {
    Keep(s.registrations, (h: Host) => h.ref in refs || Has(SshRef, s.ssh, h.ref) || h.source != StaticAgentBinding)
  }

  predicate SyncChanges(s: State, refs: set<Ref>, prepared: seq<Prepared>) {
    || |Retained(s, refs)| != |s.registrations|
    || (exists i :: 0 <= i < |s.agents| && s.agents[i].ref !in refs)
    || (exists i :: 0 <= i < |prepared| && prepared[i].changed)
  }

  function SyncState(s: State, refs: set<Ref>, prepared: seq<Prepared>): State {
    State(SortBy(HostRef, Keep(Retained(s, refs), (h: Host) => h.ref !in refs) + PreparedHosts(s, prepared, s.generation + 1)),
          s.ssh,
          SortBy(AgentRef, PreparedAgents(prepared)),
          Keep(s.observations, (o: Observation) => Has(SshRef, s.ssh, o.host.ref) || o.host.ref in refs),
          s.generation + 1,
          WithEpochs(s.history, prepared))
  }

  function Synchronize(s: State, wanted: seq<Wanted>, expected: Option<int>): Result<State> {
    if exists i :: 0 <= i < |wanted| && !AgentOk(wanted[i].binding) then Err("host.identity_invalid")
    else if !WantedOk(wanted) then Err("host.identity_mismatch")
    else if expected.Some? && s.generation != expected.value then Err("credential.generation_conflict")
    else
      var prepared := PrepareAll(s, wanted);
      if prepared.Err? then Err(prepared.code)
      else if !SyncChanges(s, Refs(wanted), prepared.value) then Ok(s)
      else if s.generation == MAX_GENERATION then Err("credential.generation_exhausted")
      else
        var s' := SyncState(s, Refs(wanted), prepared.value);
        if |s'.history| > MAX_HOSTS then Err("host.identity_history_full")
        else if Write(s').Some? then Ok(s')
        else Err("control.host_store_unavailable")
  }

  /** The enabled bindings of a key. */
  function Matches(s: State, spki: string): seq<Agent> {
    Keep(s.agents, (a: Agent) => a.enabled && a.spki == spki)
  }

  /** `resolve_agent_spki`: host, document generation and lease epoch of the one enabled binding. */
  function Resolve(s: State, spki: string): Result<(Ref, int, int)> {
    var matches := Matches(s, spki);
    if |matches| != 1 || !Has(HostRef, s.registrations, matches[0].ref) then Err("host.identity_not_found")
    else Ok((matches[0].ref, s.generation, matches[0].epoch))
  }
}
