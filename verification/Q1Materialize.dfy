/** Writing a record for a policy and an attestation into a sealed memory file, and reading it back. */
module Q1Materialize {
  import opened Core
  import opened Octets
  import Q1Record
  import opened Q1RoundTrip
  import opened Q1Capability
  import opened IngressTransaction

  /** The record that carries a policy and an attestation, if all their text is ASCII. */
  function RecordFor(p: Policy, a: Attestation): Option<Q1Record.Record> {
    var commit, generation := Ascii(a.commit), Ascii(a.generation);
    var bus, selinux, polkit := Ascii(p.busName), Ascii(p.selinux), Ascii(p.polkit);
    if commit.Some? && generation.Some? && bus.Some? && selinux.Some? && polkit.Some? then
      Some(Q1Record.Record(commit.value, generation.value, p.expectedUid, bus.value, selinux.value, polkit.value, a.manifest))
    else
      None
  }

  /** The bytes written to a new file with this identity. */
  function Written(env: Env, p: Policy, a: Attestation, file: Q1Record.Identity): Option<Bytes> {
    var r := RecordFor(p, a);
    if r.None? then None else Q1Record.Encode(env.codec, r.value, file)
  }

  /** Whether a loop of partial writes, the k-th of which answers `answers(k)`, completes. */
  predicate Completes(answers: nat -> int, k: nat, offset: nat, total: nat)
    requires offset <= total
    decreases total - offset
  {
    offset == total ||
    (0 < answers(k) <= total - offset && Completes(answers, k + 1, offset + answers(k), total))
  }

  class MemoryFile {
    var contents: Bytes

    constructor ()
      ensures contents == []
    {
      contents := [];
    }

    /** `os.write`: the kernel takes as many leading bytes as it likes, or answers out of range. */
    method Write(data: Bytes, answer: int)
      modifies this
      ensures contents == old(contents) + if 0 < answer <= |data| then data[..answer] else []
    {
      if 0 < answer <= |data| {
        contents := contents + data[..answer];
      }
    }

    /** The write loop, whatever partial sizes it meets. */
    method WriteAll(record: Bytes, answers: nat -> int) returns (ok: bool)
      modifies this
      ensures ok == Completes(answers, 0, 0, |record|)
      ensures ok ==> contents == old(contents) + record
      ensures !ok ==> exists n :: 0 <= n < |record| && contents == old(contents) + record[..n]
    {
      var offset, k := 0, 0;
      while offset < |record|
        invariant 0 <= offset <= |record|
        invariant contents == old(contents) + record[..offset]
        invariant Completes(answers, 0, 0, |record|) == Completes(answers, k, offset, |record|)
        decreases |record| - offset
      {
        var written := answers(k);
        Write(record[offset..], written);
        if !(0 < written <= |record| - offset) {
          return false;
        }
        assert record[..offset] + record[offset..][..written] == record[..offset + written];
        offset := offset + written;
        k := k + 1;
      }
      assert record[..offset] == record;
      return true;
    }
  }

  /** The descriptor as sealed: a valid state that is the file created, grown to the record. */
  predicate Sealed(state: FdState, file: Q1Record.Identity, raw: Bytes) {
    FdStateOk(state) && state.identity == file.(size := |raw|)
  }

  /** `_materialize_q1_capability`: the capability is issued only for a completely written, sealed record. */
  method Materialize(env: Env, p: Policy, a: Attestation, d: Descriptors, cap: CapId, fd: int, file: Q1Record.Identity,
                     memory: MemoryFile, answers: nat -> int, state: FdState)
    returns (issued: bool, after: Descriptors)
    requires memory.contents == [] && cap !in d.caps && fd in d.table && d.table[fd] == (file.device, file.inode)
    modifies memory
    ensures issued ==> Written(env, p, a, file) == Some(memory.contents) && Sealed(state, file, memory.contents)
    ensures issued ==> Issue(d, cap, fd) == Some(after)
    ensures !issued ==> after == d.(table := d.table - {fd})
    ensures issued <==>
            Written(env, p, a, file).Some? && var raw := Written(env, p, a, file).value;
            Completes(answers, 0, 0, |raw|) && Sealed(state, file, raw) && Issue(d, cap, fd).Some?
  {
    hide Written, Issue, FdStateOk;
    var record := Written(env, p, a, file);
    issued, after := false, d.(table := d.table - {fd});
    if record.Some? {
      var complete := memory.WriteAll(record.value, answers);
      assert complete ==> memory.contents == record.value;
      if complete && FdStateOk(state) && state.identity == file.(size := |record.value|) {
        var next := Issue(d, cap, fd);
        if next.Some? {
          issued, after := true, next.value;
        }
      }
    }
  }

  /** The descriptor answers as it was sealed, with the record as written. */
  predicate Unchanged(k: Readback, state: FdState, raw: Bytes) {
    && k.before == Some(state) && k.between == Some(state) && k.after == Some(state)
    && k.first == Some(raw) && k.second == Some(raw)
    && k.closed
  }

  /** An unchanged materialised descriptor decodes to the record it was made for. */
  lemma DecodesBack(env: Env, p: Policy, a: Attestation, file: Q1Record.Identity, raw: Bytes, state: FdState, k: Readback)
    requires Written(env, p, a, file) == Some(raw) && Sealed(state, file, raw) && Unchanged(k, state, raw)
    ensures DecodeReadback(env.codec, k) == RecordFor(p, a)
  {
    hide Q1Record.Encode, Q1Record.Decode;
    DecodeEncode(env.codec, RecordFor(p, a).value, file);
  }

  /** The fields of a policy and an attestation that the transaction compares. */
  predicate SameBound(p: Policy, a: Attestation, p': Policy, a': Attestation) {
    && p == p'
    && a.manifest == a'.manifest && a.commit == a'.commit && a.generation == a'.generation
  }

  /** A record binds exactly the pair it was made from, with the manifest's own digest. */
  lemma BindsOnlyItsPair(sha: Bytes -> string, p: Policy, a: Attestation, p': Policy, a': Attestation)
    requires RecordFor(p, a).Some?
    ensures Binds(sha, p', a', RecordFor(p, a).value) <==> SameBound(p, a, p', a') && sha(a'.manifest) == a'.manifestDigest
  {
    hide Ascii;
    if Binds(sha, p', a', RecordFor(p, a).value) {
      AsciiInjective(p.busName, p'.busName);
      AsciiInjective(p.selinux, p'.selinux);
      AsciiInjective(p.polkit, p'.polkit);
      AsciiInjective(a.commit, a'.commit);
      AsciiInjective(a.generation, a'.generation);
    }
  }

  /** An authorised transaction takes the moved capability and decodes its descriptor. */
  lemma MoveThenDecode(env: Env, t: Txn, d: Descriptors, a: Attestation, cap: CapId, k: Readback)
    requires t.state == Authorized && t.active.None? && t.fetched.None? && cap in d.caps
    requires var c := d.caps[cap]; c.registered && !c.consumed && c.fd in d.table && d.table[c.fd] == c.key
    requires DecodeReadback(env.codec, k).Some?
    ensures var (t1, d1) := Perform(env, t, d, Move(Some(a), Some(cap)), k);
            t1.state == CapabilityMoved && t1.capability == Some(cap) && d1 == d &&
            var (t2, d2) := Perform(env, t1, d1, DecodeRecord, k);
            t2.state == (if Binds(env.sha, t.policy, a, DecodeReadback(env.codec, k).value) then DecodedBound else Aborted)
  {
    hide DecodeReadback, SecondRead, FirstRead, Binds;
  }

  /**
   * A materialised capability whose descriptor is unchanged reaches DECODED_BOUND in an authorised
   * transaction exactly for the policy and attestation it was made from; every other pair aborts.
   */
  lemma ReachesBoundExactly(env: Env, p: Policy, a: Attestation, file: Q1Record.Identity, raw: Bytes, state: FdState,
                            t: Txn, d: Descriptors, a': Attestation, cap: CapId, k: Readback)
    requires Written(env, p, a, file) == Some(raw) && Sealed(state, file, raw) && Unchanged(k, state, raw)
    requires t.state == Authorized && t.active.None? && t.fetched.None? && cap in d.caps
    requires var c := d.caps[cap]; c.registered && !c.consumed && c.fd in d.table && d.table[c.fd] == c.key
    ensures var (t1, d1) := Perform(env, t, d, Move(Some(a'), Some(cap)), k);
            var (t2, d2) := Perform(env, t1, d1, DecodeRecord, k);
            t2.state ==
            if SameBound(p, a, t.policy, a') && env.sha(a'.manifest) == a'.manifestDigest then DecodedBound else Aborted
  {
    hide DecodeReadback, Perform, Binds, Q1Record.Encode;
    DecodesBack(env, p, a, file, raw, state, k);
    MoveThenDecode(env, t, d, a', cap, k);
    BindsOnlyItsPair(env.sha, p, a, t.policy, a');
  }
}
