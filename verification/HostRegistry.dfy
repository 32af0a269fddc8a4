/** The registry object: one stored document, changed by locked calls. */
module HostRegistries {
  import opened Core
  import opened Tables
  import opened Hosts
  import opened HostsReading
  import HostsHistory

  class HostRegistry {
    const env: Env
    var file: Option<Document>

    constructor (env: Env, file: Option<Document>)
      ensures this.env == env && this.file == file
    {
      this.env, this.file := env, file;
    }

    /** Read under the lock, storing a migrated document at once. */
    method Load() returns (loaded: Option<State>)
      modifies this
      ensures file == HostsHistory.Call(env, old(file), HostsHistory.DoList)
      ensures loaded.Some? <==> Read(env, old(file)).Some?
      ensures loaded.Some? ==> loaded.value == Read(env, old(file)).value.state && Valid(env, loaded.value)
    {
      hide Read, Write, Valid;
      var r := Read(env, file);
      if r.None? {
        return None;
      }
      ReadValid(env, file);
      if r.value.migrated {
        file := Write(r.value.state);
      }
      return Some(r.value.state);
    }

    /** Whether another host's enabled binding already has the key. */
    method KeyTaken(s: State, b: Agent) returns (taken: bool)
      ensures taken <==> exists i :: 0 <= i < |s.agents| && s.agents[i].enabled && b.enabled && s.agents[i].spki == b.spki && s.agents[i].ref != b.ref
    {
      for k := 0 to |s.agents|
        invariant !exists i :: 0 <= i < k && s.agents[i].enabled && b.enabled && s.agents[i].spki == b.spki && s.agents[i].ref != b.ref
      {
        if s.agents[k].enabled && b.enabled && s.agents[k].spki == b.spki && s.agents[k].ref != b.ref {
          return true;
        }
      }
      return false;
    }

    method ProvisionAgentBinding(r: Static, b: Agent, expected: int) returns (result: Result<Host>)
      modifies this
      ensures file == HostsHistory.Call(env, old(file), HostsHistory.DoProvision(r, b, expected))
      ensures Read(env, old(file)).Some? ==>
                var x := Provision(Read(env, old(file)).value.state, r, b, expected);
                result == if x.Ok? then Ok(x.value.1) else Err(x.code)
      ensures Read(env, old(file)).None? ==> result == Err(if !AgentOk(b) then "host.identity_invalid"
                                                         else if b.ref != r.ref then "host.identity_mismatch"
                                                         else "control.host_store_unavailable")
    {
      hide Read, Write, Valid, Find, Put, NextEpoch;
      if !AgentOk(b) {
        return Err("host.identity_invalid");
      }
      if b.ref != r.ref {
        return Err("host.identity_mismatch");
      }
      var loaded := Load();
      if loaded.None? {
        return Err("control.host_store_unavailable");
      }
      var s := loaded.value;
      if s.generation != expected {
        return Err("credential.generation_conflict");
      }
      var taken := KeyTaken(s, b);
      if taken {
        return Err("host.identity_mismatch");
      }
      var epoch := NextEpoch(s, b);
      if epoch.Err? {
        return Err(epoch.code);
      }
      var stored := b.(epoch := epoch.value);
      var existing := Find(HostRef, s.registrations, b.ref);
      if Find(AgentRef, s.agents, b.ref) == Some(stored) && existing.Some? && SameButGeneration(existing.value, StaticHost(r, 1)) {
        return Ok(existing.value);
      }
      if s.generation == MAX_GENERATION {
        return Err("credential.generation_exhausted");
      }
      var h := StaticHost(r, s.generation + 1);
      var registrations := Put(HostRef, s.registrations, h);
      var agents := Put(AgentRef, s.agents, stored);
      var history := Put(EpochRef, s.history, Entry(b.ref, epoch.value));
      var s' := State(registrations, s.ssh, agents, s.observations, s.generation + 1, history);
      var document := Write(s');
      if document.None? {
        return Err("control.host_store_unavailable");
      }
      file := document;
      return Ok(h);
    }

    /** The validation loop before the lock: one entry per host and one enabled host per key. */
    method Validate(wanted: seq<Wanted>) returns (ok: bool, refs: set<Ref>)
      ensures ok <==> WantedOk(wanted)
      ensures ok ==> refs == Refs(wanted)
    {
      refs := {};
      var spkis: set<string> := {};
      for k := 0 to |wanted|
        invariant WantedOk(wanted[..k])
        invariant refs == Refs(wanted[..k])
        invariant spkis == set i | 0 <= i < k && wanted[i].binding.enabled :: wanted[i].binding.spki
      {
        var w := wanted[k];
        assert wanted[..k + 1] == wanted[..k] + [w];
        if w.binding.ref != w.registration.ref || w.binding.ref in refs || (w.binding.enabled && w.binding.spki in spkis) {
          NotOk(wanted, k);
          return false, refs;
        }
        if w.binding.enabled {
          spkis := spkis + {w.binding.spki};
        }
        refs := refs + {w.binding.ref};
      }
      assert wanted[..|wanted|] == wanted;
      return true, refs;
    }

    lemma NotOk(wanted: seq<Wanted>, k: nat)
      requires k < |wanted|
      requires || wanted[k].binding.ref != wanted[k].registration.ref
               || wanted[k].binding.ref in Refs(wanted[..k])
               || (wanted[k].binding.enabled &&
                   exists i :: 0 <= i < k && wanted[i].binding.enabled && wanted[i].binding.spki == wanted[k].binding.spki)
      ensures !WantedOk(wanted)
    {
      if wanted[k].binding.ref in Refs(wanted[..k]) {
        var i :| 0 <= i < k && wanted[..k][i].binding.ref == wanted[k].binding.ref;
        assert wanted[i].binding.ref == wanted[k].binding.ref;
      }
    }

    /** The preparation loop: epochs and change marks, stopping at the first error. */
    method PrepareEach(s: State, wanted: seq<Wanted>) returns (result: Result<seq<Prepared>>, changed: bool)
      ensures result == PrepareAll(s, wanted)
      ensures result.Ok? ==> (changed <==> exists i :: 0 <= i < |result.value| && result.value[i].changed)
    {
      hide Prepare;
      var prepared: seq<Prepared> := [];
      changed := false;
      for k := 0 to |wanted|
        invariant PrepareAll(s, wanted[..k]) == Ok(prepared)
        invariant changed <==> exists i :: 0 <= i < |prepared| && prepared[i].changed
      {
        assert wanted[..k + 1][..k] == wanted[..k];
        var p := Prepare(s, wanted[k]);
        if p.Err? {
          ErrorStays(s, wanted, k + 1);
          return Err(p.code), changed;
        }
        var before := prepared;
        prepared := prepared + [p.value];
        if p.value.changed {
          assert prepared[|before|].changed;
        }
        assert forall i :: 0 <= i < |before| ==> prepared[i] == before[i];
        changed := changed || p.value.changed;
      }
      assert wanted[..|wanted|] == wanted;
      return Ok(prepared), changed;
    }

    lemma {:induction false} ErrorStays(s: State, wanted: seq<Wanted>, k: nat)
      requires k <= |wanted| && PrepareAll(s, wanted[..k]).Err?
      ensures PrepareAll(s, wanted) == PrepareAll(s, wanted[..k])
      decreases |wanted| - k
    {
      if k == |wanted| {
        assert wanted[..k] == wanted;
      } else {
        assert wanted[..k + 1][..k] == wanted[..k];
        ErrorStays(s, wanted, k + 1);
      }
    }

    /** The three lists the update loop builds. */
    method Collect(s: State, prepared: seq<Prepared>) returns (hosts: seq<Host>, agents: seq<Agent>, history: seq<Entry<int>>)
      ensures hosts == PreparedHosts(s, prepared, s.generation + 1)
      ensures agents == PreparedAgents(prepared)
      ensures history == WithEpochs(s.history, prepared)
    {
      hide Put, PreparedHost;
      hosts, agents, history := [], [], s.history;
      for k := 0 to |prepared|
        invariant hosts == PreparedHosts(s, prepared[..k], s.generation + 1)
        invariant agents == PreparedAgents(prepared[..k])
        invariant history == WithEpochs(s.history, prepared[..k])
      {
        assert prepared[..k + 1][..k] == prepared[..k];
        hosts := hosts + [PreparedHost(s, prepared[k], s.generation + 1)];
        agents := agents + [prepared[k].agent];
        history := Put(EpochRef, history, Entry(prepared[k].agent.ref, prepared[k].agent.epoch));
      }
      assert prepared[..|prepared|] == prepared;
    }

    method SynchronizeAgentBindings(wanted: seq<Wanted>, expected: Option<int>) returns (result: Result<()>)
      modifies this
      ensures file == HostsHistory.Call(env, old(file), HostsHistory.DoSynchronize(wanted, expected))
      ensures Read(env, old(file)).Some? ==>
                var x := Synchronize(Read(env, old(file)).value.state, wanted, expected);
                result == if x.Ok? then Ok(()) else Err(x.code)
      ensures Read(env, old(file)).None? ==> result == Err(if exists i :: 0 <= i < |wanted| && !AgentOk(wanted[i].binding) then "host.identity_invalid"
                                                         else if !WantedOk(wanted) then "host.identity_mismatch"
                                                         else "control.host_store_unavailable")
    {
      hide Read, Write, Valid, PrepareAll, SortBy, Keep, WithEpochs, Has, PreparedHosts, PreparedAgents, WantedOk;
      if exists i :: 0 <= i < |wanted| && !AgentOk(wanted[i].binding) {
        return Err("host.identity_invalid");
      }
      var ok, refs := Validate(wanted);
      if !ok {
        return Err("host.identity_mismatch");
      }
      var loaded := Load();
      if loaded.None? {
        return Err("control.host_store_unavailable");
      }
      var s := loaded.value;
      if expected.Some? && s.generation != expected.value {
        return Err("credential.generation_conflict");
      }
      var retained := Retained(s, refs);
      var prepared, changed := PrepareEach(s, wanted);
      if prepared.Err? {
        return Err(prepared.code);
      }
      if |retained| == |s.registrations| && (forall i :: 0 <= i < |s.agents| ==> s.agents[i].ref in refs) && !changed {
        return Ok(());
      }
      if s.generation == MAX_GENERATION {
        return Err("credential.generation_exhausted");
      }
      var hosts, agents, history := Collect(s, prepared.value);
      if |history| > MAX_HOSTS {
        return Err("host.identity_history_full");
      }
      var s' := State(SortBy(HostRef, Keep(retained, (h: Host) => h.ref !in refs) + hosts), s.ssh, SortBy(AgentRef, agents),
                      Keep(s.observations, (o: Observation) => Has(SshRef, s.ssh, o.host.ref) || o.host.ref in refs),
                      s.generation + 1, history);
      assert s' == SyncState(s, refs, prepared.value);
      var document := Write(s');
      if document.None? {
        return Err("control.host_store_unavailable");
      }
      file := document;
      return Ok(());
    }

    method RecordProbe(h: Host, binding: Private) returns (result: Result<Host>)
      modifies this
      ensures file == HostsHistory.Call(env, old(file), HostsHistory.DoProbe(h, binding))
      ensures Read(env, old(file)).Some? ==>
                var x := Hosts.RecordProbe(env, Read(env, old(file)).value.state, h, binding);
                result == if x.Ok? then Ok(x.value.1) else Err(x.code)
      ensures Read(env, old(file)).None? ==> result == Err(if !ProbeOk(h) || binding == [] then "control.host_invalid"
                                                         else "control.host_store_unavailable")
    {
      hide Read, Write, Valid, Find, Put;
      if !ProbeOk(h) || binding == [] {
        return Err("control.host_invalid");
      }
      var loaded := Load();
      if loaded.None? {
        return Err("control.host_store_unavailable");
      }
      var s := loaded.value;
      var o := Observation(h, env.probe(h, binding));
      var existing := Find(SeenRef, s.observations, h.ref);
      if existing.Some? {
        var current := existing.value.host.generation;
        if h.generation < current || (h.generation == current && o.digest != existing.value.digest) {
          return Err("credential.generation_conflict");
        }
        if h.generation == current {
          return Ok(existing.value.host);
        }
      }
      if s.generation == MAX_GENERATION {
        return Err("credential.generation_exhausted");
      }
      var s' := State(Put(HostRef, s.registrations, h), Put(SshRef, s.ssh, Entry(h.ref, binding)), s.agents,
                      Put(SeenRef, s.observations, o), Raised(s.generation, h.generation), s.history);
      var document := Write(s');
      if document.None? {
        return Err("control.host_store_unavailable");
      }
      file := document;
      return Ok(h);
    }

    method RecordActiveProbe(ref: Ref, generation: int, resources: Resources, at: int) returns (result: Result<Host>)
      modifies this
      ensures file == HostsHistory.Call(env, old(file), HostsHistory.DoActiveProbe(ref, generation, resources, at))
      ensures Read(env, old(file)).Some? ==>
                var x := Hosts.RecordActiveProbe(env, Read(env, old(file)).value.state, ref, generation, resources, at);
                result == if x.Ok? then Ok(x.value.1) else Err(x.code)
      ensures Read(env, old(file)).None? ==> result == Err(if !InRange(generation) then "control.host_invalid"
                                                         else "control.host_store_unavailable")
    {
      hide Read, Write, Valid, Find, Put, Has;
      if !InRange(generation) {
        return Err("control.host_invalid");
      }
      var loaded := Load();
      if loaded.None? {
        return Err("control.host_store_unavailable");
      }
      var s := loaded.value;
      var known := Find(HostRef, s.registrations, ref);
      if known.None? || (!Has(SshRef, s.ssh, ref) && !Has(AgentRef, s.agents, ref)) {
        return Err("host.identity_not_found");
      }
      var o := ActiveObservation(env, ref, generation, known.value.meta, resources, at);
      var existing := Find(SeenRef, s.observations, ref);
      if existing.Some? {
        var current := existing.value.host.generation;
        if generation < current || (generation == current && o.digest != existing.value.digest) {
          return Err("credential.generation_conflict");
        }
        if generation == current {
          return Ok(existing.value.host);
        }
      }
      if s.generation == MAX_GENERATION {
        return Err("credential.generation_exhausted");
      }
      var s' := s.(observations := Put(SeenRef, s.observations, o), generation := Raised(s.generation, generation));
      var document := Write(s');
      if document.None? {
        return Err("control.host_store_unavailable");
      }
      file := document;
      return Ok(o.host);
    }
  }
}
