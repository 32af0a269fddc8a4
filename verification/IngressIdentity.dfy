/**
 * Who stands at the other end of a closed ingress transaction, field by field, where its record came
 * from, and what is left once it has ended.
 */
module IngressIdentity {
  import opened Core
  import opened Octets
  import Q1Record
  import opened Q1RoundTrip
  import opened Q1Capability
  import opened IngressTransaction

  /** The same process: bus connection, process, user and security context. */
  ghost predicate SamePeer(p: Peer, q: Peer) {
    p.sender == q.sender && p.pid == q.pid && p.uid == q.uid && p.selinux == q.selinux
  }

  /** All four credentials available and requested, none added later. */
  ghost predicate FullMask(p: Peer) {
    p.available == 15 && p.requested == 15 && p.augmented == 0
  }

  /** The bytes are the characters of the text. */
  ghost predicate Spells(b: Bytes, text: string) {
    |b| == |text| && forall i :: 0 <= i < |text| ==> b[i] == text[i] as int < 128
  }

  ghost predicate OwnsName(owner: Owner, policy: Policy, p: Peer) {
    owner.busName == policy.busName && owner.sender == p.sender
  }

  /** A later observation is accepted exactly if it is of the same peer, and that peer owns the policy's name. */
  lemma ContinuousExactly(reference: Peer, observed: Peer, owner: Owner, policy: Policy)
    ensures Continuous(reference, observed, owner, policy)
            <==> SamePeer(reference, observed) && FullMask(reference) && FullMask(observed) && OwnsName(owner, policy, observed)
  {
  }

  lemma SpellsExactly(text: string, b: Bytes)
    ensures Ascii(text) == Some(b) <==> Spells(b, text)
  {
    if Spells(b, text) {
      assert forall i :: 0 <= i < |text| ==> b[i] == text[i] as int;
      assert Ascii(text).Some? && Ascii(text).value == b;
    }
  }

  /** The first observation is accepted exactly for the user and the security context of the policy. */
  lemma AdmitsExactly(policy: Policy, peer: Peer, owner: Owner)
    ensures Admits(policy, peer, owner)
            <==> FullMask(peer) && OwnsName(owner, policy, peer) && peer.uid == policy.expectedUid && Spells(peer.selinux, policy.selinux)
  {
    hide Spells, Ascii;
    SpellsExactly(policy.selinux, peer.selinux);
  }

  /**
   * Over every run: whatever reaches CLOSED was seen three times as one and the same peer, never root, of the
   * user and security context the policy names, and owning the policy's bus name each time.
   */
  lemma OnePeerThroughout(env: Env, schedule: seq<Step>, tx: TxnId)
    requires Run(env, schedule).Some? && tx in Run(env, schedule).value.txns
    requires Run(env, schedule).value.txns[tx].state == Closed
    ensures var t := Run(env, schedule).value.txns[tx];
            && |t.trail| == 7 && t.trail[0].VerifyA? && t.trail[4].VerifyB? && t.trail[5].VerifyC?
            && var p := t.trail[0].peer;
               && p.uid == t.policy.expectedUid && 1 <= p.uid && Spells(p.selinux, t.policy.selinux)
               && SamePeer(p, t.trail[4].peer) && SamePeer(p, t.trail[5].peer)
               && FullMask(p) && FullMask(t.trail[4].peer) && FullMask(t.trail[5].peer)
               && OwnsName(t.trail[0].owner, t.policy, p) && OwnsName(t.trail[4].owner, t.policy, p) && OwnsName(t.trail[5].owner, t.policy, p)
  {
    hide Run, Admits, Continuous, Spells;
    ClosedVerifiedThrice(env, schedule, tx);
    PolicyHolds(env, schedule, tx);
    var t := Run(env, schedule).value.txns[tx];
    AdmitsExactly(t.policy, t.trail[0].peer, t.trail[0].owner);
    ContinuousExactly(t.trail[0].peer, t.trail[4].peer, t.trail[4].owner, t.policy);
    ContinuousExactly(t.trail[0].peer, t.trail[5].peer, t.trail[5].owner, t.policy);
  }

  lemma PolicyHolds(env: Env, schedule: seq<Step>, tx: TxnId)
    requires Run(env, schedule).Some? && tx in Run(env, schedule).value.txns
    ensures 1 <= Run(env, schedule).value.txns[tx].policy.expectedUid < 0x1_0000_0000
  {
    hide Run, Do, Chained, Holds, Accounted, Binds;
    RunKeeps(env, schedule);
  }

  // ---- what was read, and what is kept ----

  /** The kernel's answers about one descriptor that stand for a sealed record file, read twice alike. */
  ghost predicate SoundlyRead(k: Readback, raw: Bytes, id: Q1Record.Identity) {
    && k.before == k.between == k.after && k.before.Some?
    && k.first == k.second == Some(raw) && k.closed
    && var s := k.before.value;
       && s.identity == id && id.size == |raw| && s.regular && s.nlink == 0
       && s.mode == 384 && s.seals == 15 && s.fdFlags == 1
  }

  /** A readback gives a record exactly if the file was sealed, unlinked and unchanging, and holds the encoding of that record. */
  lemma ReadbackExactly(codec: Q1Record.Env, k: Readback, r: Q1Record.Record)
    ensures DecodeReadback(codec, k) == Some(r) <==>
            exists raw, id :: SoundlyRead(k, raw, id) && Q1Record.Encode(codec, r, id) == Some(raw) && id.size == |raw|
  {
    if DecodeReadback(codec, k) == Some(r) {
      var raw, id := k.first.value, k.before.value.identity;
      hide Q1Record.Decode, Q1Record.Encode;
      EncodeDecode(codec, raw, id);
      assert SoundlyRead(k, raw, id);
    }
    if raw, id :| SoundlyRead(k, raw, id) && Q1Record.Encode(codec, r, id) == Some(raw) && id.size == |raw| {
      EncodedReads(codec, k, r, raw, id);
    }
  }

  lemma EncodedReads(codec: Q1Record.Env, k: Readback, r: Q1Record.Record, raw: Bytes, id: Q1Record.Identity)
    requires SoundlyRead(k, raw, id) && Q1Record.Encode(codec, r, id) == Some(raw)
    ensures DecodeReadback(codec, k) == Some(r)
  {
    hide Q1Record.Decode, Q1Record.Encode, Q1Record.PartsOf, Q1Record.LengthsOf;
    DecodeEncode(codec, r, id);
    EncodeTotal(codec, r, id);
    assert id.(size := |raw|) == id;
    EncodedSize(codec, r, id);
  }

  lemma EncodedSize(codec: Q1Record.Env, r: Q1Record.Record, id: Q1Record.Identity)
    requires Q1Record.Encode(codec, r, id).Some?
    ensures Q1Record.MinTotal <= |Q1Record.Encode(codec, r, id).value| <= Q1Record.MaxTotal && Q1Record.IdentityOk(id)
  {
    hide Q1Record.PartsOf, Q1Record.Join;
    EncodeTotal(codec, r, id);
  }

  /** Some step of the schedule read this record for the transaction. */
  ghost predicate ReadFor(env: Env, schedule: seq<Step>, tx: TxnId, r: Q1Record.Record) {
    exists n :: 0 <= n < |schedule| && schedule[n].ReadRecord? && schedule[n].tx == tx && DecodeReadback(env.codec, schedule[n].answers) == Some(r)
  }

  /** What a transaction holds was read for it, and once ended it holds nothing. */
  ghost predicate Kept(env: Env, schedule: seq<Step>, tx: TxnId, t: Txn) {
    && (t.fetched.Some? ==> ReadFor(env, schedule, tx, t.fetched.value))
    && (t.decoded.Some? ==> ReadFor(env, schedule, tx, t.decoded.value))
    && Emptied(t)
  }

  ghost predicate Emptied(t: Txn) {
    t.state in {Closed, Aborted} ==> t.capability == None && t.attestation == None && t.decoded == None && t.peer == None
  }

  lemma ReadGrows(env: Env, before: seq<Step>, s: Step, tx: TxnId, r: Q1Record.Record)
    requires ReadFor(env, before, tx, r)
    ensures ReadFor(env, before + [s], tx, r)
  {
    var n :| 0 <= n < |before| && before[n].ReadRecord? && before[n].tx == tx && DecodeReadback(env.codec, before[n].answers) == Some(r);
    assert (before + [s])[n] == before[n];
  }

  /** What one step leaves of a transaction: nothing new held but what this step read, and nothing at an end. */
  ghost predicate KeepsTo(env: Env, s: Step, tx: TxnId, t: Txn, t': Txn) {
    && (t'.fetched.Some? ==> t'.fetched == t.fetched || (s.ReadRecord? && s.tx == tx && t'.fetched == DecodeReadback(env.codec, s.answers)))
    && (t'.decoded.Some? ==> t'.decoded == t.decoded || t'.decoded == t.fetched)
    && Emptied(t')
  }

  lemma StepKeeps(env: Env, w: World, s: Step, tx: TxnId)
    requires Do(env, w, s).Some? && tx in Do(env, w, s).value.txns && tx in w.txns
    requires Emptied(w.txns[tx]) && (w.txns[tx].active.Some? && w.txns[tx].active.value.Close? ==> w.txns[tx].capability == None)
    ensures KeepsTo(env, s, tx, w.txns[tx], Do(env, w, s).value.txns[tx])
  {
    hide DecodeReadback, Discard, Take, Admits, Continuous, Binds, Issue;
  }

  lemma KeptStep(env: Env, before: seq<Step>, s: Step, tx: TxnId, t: Txn, t': Txn)
    requires Kept(env, before, tx, t) && KeepsTo(env, s, tx, t, t')
    ensures Kept(env, before + [s], tx, t')
  {
    hide DecodeReadback;
    var all := before + [s];
    assert all[|before|] == s;
    if t.fetched.Some? {
      ReadGrows(env, before, s, tx, t.fetched.value);
    }
    if t.decoded.Some? {
      ReadGrows(env, before, s, tx, t.decoded.value);
    }
  }

  lemma ClosingEmpty(env: Env, schedule: seq<Step>, tx: TxnId)
    requires Run(env, schedule).Some? && tx in Run(env, schedule).value.txns
    ensures var t := Run(env, schedule).value.txns[tx]; t.active.Some? && t.active.value.Close? ==> t.capability == None
  {
    hide Run, Do, Accounted, Binds, Chained;
    RunKeeps(env, schedule);
  }

  lemma {:induction false} RunKept(env: Env, schedule: seq<Step>)
    requires Run(env, schedule).Some?
    ensures forall tx :: tx in Run(env, schedule).value.txns ==> Kept(env, schedule, tx, Run(env, schedule).value.txns[tx])
  {
    if schedule != [] {
      var n := |schedule| - 1;
      var before, s := schedule[..n], schedule[n];
      RunKept(env, before);
      var w := Run(env, before).value;
      assert Run(env, schedule) == Do(env, w, s);
      assert before + [s] == schedule;
      forall tx | tx in Run(env, schedule).value.txns ensures Kept(env, schedule, tx, Run(env, schedule).value.txns[tx]) {
        hide ReadFor, KeepsTo, Run;
        if tx in w.txns {
          ClosingEmpty(env, before, tx);
          StepKeeps(env, w, s, tx);
          KeptStep(env, before, s, tx, w.txns[tx], Do(env, w, s).value.txns[tx]);
        } else {
          NewKept(env, w, s, schedule, tx);
        }
      }
    }
  }

  lemma NewKept(env: Env, w: World, s: Step, schedule: seq<Step>, tx: TxnId)
    requires Do(env, w, s).Some? && tx in Do(env, w, s).value.txns && tx !in w.txns
    ensures Kept(env, schedule, tx, Do(env, w, s).value.txns[tx])
  {
  }

  /** Over every run: a decoded record was read for the transaction, twice alike, from a sealed file that holds exactly its encoding. */
  lemma DecodedWasSealed(env: Env, schedule: seq<Step>, tx: TxnId)
    requires Run(env, schedule).Some? && tx in Run(env, schedule).value.txns && Run(env, schedule).value.txns[tx].decoded.Some?
    ensures var r := Run(env, schedule).value.txns[tx].decoded.value;
            exists n, raw, id :: && 0 <= n < |schedule| && schedule[n].ReadRecord? && schedule[n].tx == tx
                                 && SoundlyRead(schedule[n].answers, raw, id) && Q1Record.Encode(env.codec, r, id) == Some(raw)
  {
    hide Run, SoundlyRead, DecodeReadback;
    RunKept(env, schedule);
    var t := Run(env, schedule).value.txns[tx];
    assert Kept(env, schedule, tx, t);
    var r := t.decoded.value;
    var n :| 0 <= n < |schedule| && schedule[n].ReadRecord? && schedule[n].tx == tx && DecodeReadback(env.codec, schedule[n].answers) == Some(r);
    ReadbackExactly(env.codec, schedule[n].answers, r);
  }

  /** Over every run: an ended transaction keeps neither capability nor attestation, record or peer. */
  lemma EndedKeepsNothing(env: Env, schedule: seq<Step>, tx: TxnId)
    requires Run(env, schedule).Some? && tx in Run(env, schedule).value.txns && Run(env, schedule).value.txns[tx].state in {Closed, Aborted}
    ensures var t := Run(env, schedule).value.txns[tx]; t.capability == None && t.attestation == None && t.decoded == None && t.peer == None
  {
    hide Run;
    RunKept(env, schedule);
    assert Kept(env, schedule, tx, Run(env, schedule).value.txns[tx]);
  }
}
