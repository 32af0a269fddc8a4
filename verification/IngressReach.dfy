/** Runs that carry a materialised capability through the whole chain, undisturbed or aborted inside `close`. */
module IngressReach {
  import opened Core
  import opened Octets
  import Q1Record
  import opened Q1Capability
  import opened IngressTransaction
  import opened Q1Materialize
  import opened Q1RoundTrip

  /** Everything an honest run starts from. */
  datatype Materials = Materials(
    policy: Policy, attestation: Attestation, file: Q1Record.Identity, raw: Bytes, state: FdState, answers: Readback, peer: Peer,
    owner: Owner, fd: int)

  predicate Honest(env: Env, x: Materials) {
    && PolicyOk(x.policy)
    && Written(env, x.policy, x.attestation, x.file) == Some(x.raw)
    && Sealed(x.state, x.file, x.raw)
    && Unchanged(x.answers, x.state, x.raw)
    && env.sha(x.attestation.manifest) == x.attestation.manifestDigest
    && Admits(x.policy, x.peer, x.owner)
    && 0 <= x.fd < FdLimit
  }

  lemma EnterDoes(env: Env, w: World, tx: TxnId, c: Call)
    requires tx in w.txns && Genuine(w, c)
    ensures Do(env, w, Enter(tx, c)) == Some(Put(w, tx, Begin(w.txns[tx], w.files, c)))
  {
    hide Begin;
  }

  lemma LeaveDoes(env: Env, w: World, tx: TxnId)
    requires tx in w.txns && w.txns[tx].active.Some? && (w.txns[tx].active == Some(DecodeRecord) ==> w.txns[tx].fetched.Some?)
    ensures Do(env, w, Leave(tx)) == Some(Put(w, tx, Finish(env, w.txns[tx], w.files)))
  {
    hide Finish;
  }

  lemma ReadDoes(env: Env, w: World, tx: TxnId, k: Readback)
    requires tx in w.txns && w.txns[tx].active == Some(DecodeRecord) && w.txns[tx].fetched.None?
    ensures Do(env, w, ReadRecord(tx, k)) == Some(Put(w, tx, Fetch(env, w.txns[tx], w.files, k)))
  {
    hide Fetch;
  }

  /** A call that is accepted, in the pieces of its run. */
  lemma Pieces(env: Env, t: Txn, d: Descriptors, c: Call, k: Readback)
    requires t.active.None? && t.fetched.None? && t.state == Expected(c) && Perform(env, t, d, c, k).0.state != Aborted
    ensures var (t1, d1) := Begin(t, d, c);
            t1.active == Some(c) && t1.fetched.None? &&
            (!c.DecodeRecord? ==> Perform(env, t, d, c, k) == Finish(env, t1, d1)) &&
            (c.DecodeRecord? ==>
               var (t2, d2) := Fetch(env, t1, d1, k);
               t2.active == Some(c) && t2.fetched.Some? && Perform(env, t, d, c, k) == Finish(env, t2, d2))
  {
    hide DecodeCapability, Finish;
  }

  /** One undisturbed call is a run: enter, read if it decodes, and leave. */
  lemma CallRuns(env: Env, before: seq<Step>, w: World, tx: TxnId, c: Call, k: Readback) returns (schedule: seq<Step>)
    requires Run(env, before) == Some(w) && tx in w.txns && Genuine(w, c)
    requires w.txns[tx].active.None? && w.txns[tx].fetched.None? && w.txns[tx].state == Expected(c)
    requires Perform(env, w.txns[tx], w.files, c, k).0.state != Aborted
    ensures Run(env, schedule) == Some(Put(w, tx, Perform(env, w.txns[tx], w.files, c, k)))
  {
    hide Run, Do, Begin, Fetch, Finish, Perform, Genuine;
    var r1 := Begin(w.txns[tx], w.files, c);
    var w1 := Put(w, tx, r1);
    Pieces(env, w.txns[tx], w.files, c, k);
    EnterDoes(env, w, tx, c);
    RunAppends(env, before, Enter(tx, c));
    schedule := before + [Enter(tx, c)];
    if c.DecodeRecord? {
      var r2 := Fetch(env, r1.0, r1.1, k);
      ReadDoes(env, w1, tx, k);
      RunAppends(env, schedule, ReadRecord(tx, k));
      schedule := schedule + [ReadRecord(tx, k)];
      PutTwice(w, tx, r1, r2);
      LeaveDoes(env, Put(w, tx, r2), tx);
      RunAppends(env, schedule, Leave(tx));
      schedule := schedule + [Leave(tx)];
      PutTwice(w, tx, r2, Finish(env, r2.0, r2.1));
    } else {
      LeaveDoes(env, w1, tx);
      RunAppends(env, schedule, Leave(tx));
      schedule := schedule + [Leave(tx)];
      PutTwice(w, tx, r1, Finish(env, r1.0, r1.1));
    }
  }

  lemma PutTwice(w: World, tx: TxnId, a: (Txn, Descriptors), b: (Txn, Descriptors))
    ensures Put(Put(w, tx, a), tx, b) == Put(w, tx, b)
  {
    assert w.txns[tx := a.0][tx := b.0] == w.txns[tx := b.0];
  }

  /** A transaction at rest in a state, having verified this peer. */
  predicate Resting(t: Txn, policy: Policy, state: State, peer: Peer) {
    t.state == state && t.active.None? && t.fetched.None? && t.policy == policy && t.peer == Some(peer)
  }

  lemma VerifiesA(env: Env, x: Materials, d: Descriptors)
    requires Honest(env, x)
    ensures var (t, d') := Perform(env, Fresh(x.policy), d, VerifyA(x.peer, x.owner), x.answers);
            Resting(t, x.policy, AVerified, x.peer) && d' == d
  {
    hide Written, Sealed, Unchanged, Admits;
  }

  lemma Authorizes(env: Env, x: Materials, t: Txn, d: Descriptors)
    requires Resting(t, x.policy, AVerified, x.peer)
    ensures var (t', d') := Perform(env, t, d, Authorize, x.answers); Resting(t', x.policy, Authorized, x.peer) && d' == d
  {
  }

  /** A capability that can still be taken with its descriptor. */
  predicate Takeable(d: Descriptors, cap: CapId) {
    cap in d.caps && var c := d.caps[cap]; c.registered && !c.consumed && c.fd in d.table && d.table[c.fd] == c.key
  }

  lemma Takes(env: Env, x: Materials, t: Txn, d: Descriptors, cap: CapId)
    requires Resting(t, x.policy, Authorized, x.peer)
    ensures var (t', d') := Perform(env, t, d, Move(Some(x.attestation), Some(cap)), x.answers);
            Resting(t', x.policy, CapabilityMoved, x.peer) && t'.capability == Some(cap) && t'.attestation == Some(x.attestation) && d' == d
  {
  }

  lemma Decodes(env: Env, x: Materials, t: Txn, d: Descriptors, cap: CapId)
    requires Honest(env, x) && Resting(t, x.policy, CapabilityMoved, x.peer) && Takeable(d, cap)
    requires t.capability == Some(cap) && t.attestation == Some(x.attestation)
    ensures Resting(Perform(env, t, d, DecodeRecord, x.answers).0, x.policy, DecodedBound, x.peer)
  {
    DecodesBack(env, x.policy, x.attestation, x.file, x.raw, x.state, x.answers);
    BindsOnlyItsPair(env.sha, x.policy, x.attestation, x.policy, x.attestation);
    hide Written, Sealed, Unchanged, Admits, Binds, DecodeReadback, PolicyOk;
    BoundBy(env, t, d, cap, x.answers);
  }

  lemma BoundBy(env: Env, t: Txn, d: Descriptors, cap: CapId, k: Readback)
    requires t.state == CapabilityMoved && t.active.None? && t.fetched.None? && Takeable(d, cap)
    requires t.capability == Some(cap) && t.attestation.Some? && DecodeReadback(env.codec, k).Some?
    requires Binds(env.sha, t.policy, t.attestation.value, DecodeReadback(env.codec, k).value)
    ensures var t' := Perform(env, t, d, DecodeRecord, k).0;
            t'.state == DecodedBound && t'.active.None? && t'.fetched.None? && t'.policy == t.policy && t'.peer == t.peer
  {
    hide Binds, DecodeReadback, SecondRead, FirstRead;
  }

  lemma VerifiesLater(env: Env, x: Materials, t: Txn, d: Descriptors, c: Call)
    requires Admits(x.policy, x.peer, x.owner) && (c == VerifyB(x.peer, x.owner) || c == VerifyC(x.peer, x.owner))
    requires Resting(t, x.policy, Expected(c), x.peer)
    ensures var (t', d') := Perform(env, t, d, c, x.answers); Resting(t', x.policy, Next(Expected(c)), x.peer) && d' == d
  {
  }

  /** What the first steps leave: one open file with its capability and one new transaction. */
  function Created(x: Materials): World {
    var key := (x.file.device, x.file.inode);
    World(map[0 := Fresh(x.policy)],
          Descriptors(map[0 := Capability(x.fd, key, true, false)], {key}, map[x.fd := key], []))
  }

  lemma ReachCreated(env: Env, x: Materials) returns (schedule: seq<Step>)
    requires PolicyOk(x.policy) && Q1Record.IdentityOk(x.file) && 0 <= x.fd < FdLimit
    ensures Run(env, schedule) == Some(Created(x))
  {
    hide PolicyOk;
    var key := (x.file.device, x.file.inode);
    var started := World(map[], Descriptors(map[], {}, map[x.fd := key], []));
    var issued := started.(files := Created(x).files);
    assert Run(env, []) == Some(Empty);
    assert Do(env, Empty, OpenFile(x.fd, key)) == Some(started);
    var none: set<Key> := {};
    assert none + {key} == {key};
    assert Issue(started.files, 0, x.fd) == Some(issued.files);
    assert Do(env, started, IssueFor(0, x.fd)) == Some(issued);
    assert Do(env, issued, Create(0, x.policy)) == Some(Created(x));
    hide Run, Do, Issue, Created;
    RunAppends(env, [], OpenFile(x.fd, key));
    schedule := [] + [OpenFile(x.fd, key)];
    RunAppends(env, schedule, IssueFor(0, x.fd));
    schedule := schedule + [IssueFor(0, x.fd)];
    RunAppends(env, schedule, Create(0, x.policy));
    schedule := schedule + [Create(0, x.policy)];
  }

  lemma HonestFile(env: Env, x: Materials)
    requires Honest(env, x)
    ensures PolicyOk(x.policy) && Q1Record.IdentityOk(x.file) && Admits(x.policy, x.peer, x.owner)
  {
    hide Sealed, Unchanged, Admits, PolicyOk;
  }

  lemma ReachFirst(env: Env, x: Materials) returns (schedule: seq<Step>, w: World)
    requires Honest(env, x)
    ensures Run(env, schedule) == Some(w) && 0 in w.txns && Resting(w.txns[0], x.policy, AVerified, x.peer) && Takeable(w.files, 0)
  {
    HonestFile(env, x);
    schedule := ReachCreated(env, x);
    w := Created(x);
    assert Takeable(w.files, 0) && w.txns[0] == Fresh(x.policy);
    hide Run, Perform, Honest, Admits, PolicyOk, Takeable, Created;
    VerifiesA(env, x, w.files);
    schedule := CallRuns(env, schedule, w, 0, VerifyA(x.peer, x.owner), x.answers);
    w := Put(w, 0, Perform(env, w.txns[0], w.files, VerifyA(x.peer, x.owner), x.answers));
  }

  lemma ReachAuthorized(env: Env, x: Materials) returns (schedule: seq<Step>, w: World)
    requires Honest(env, x)
    ensures Run(env, schedule) == Some(w) && 0 in w.txns && Resting(w.txns[0], x.policy, Authorized, x.peer) && Takeable(w.files, 0)
  {
    hide Run, Perform, Honest, Takeable;
    schedule, w := ReachFirst(env, x);
    Authorizes(env, x, w.txns[0], w.files);
    schedule := CallRuns(env, schedule, w, 0, Authorize, x.answers);
    w := Put(w, 0, Perform(env, w.txns[0], w.files, Authorize, x.answers));
  }

  lemma ReachMoved(env: Env, x: Materials) returns (schedule: seq<Step>, w: World)
    requires Honest(env, x)
    ensures Run(env, schedule) == Some(w) && 0 in w.txns && Resting(w.txns[0], x.policy, CapabilityMoved, x.peer)
    ensures Takeable(w.files, 0) && w.txns[0].capability == Some(0) && w.txns[0].attestation == Some(x.attestation)
  {
    schedule, w := ReachAuthorized(env, x);
    assert 0 in w.files.caps;
    hide Run, Perform, Honest, Takeable;
    Takes(env, x, w.txns[0], w.files, 0);
    schedule := CallRuns(env, schedule, w, 0, Move(Some(x.attestation), Some(0)), x.answers);
    w := Put(w, 0, Perform(env, w.txns[0], w.files, Move(Some(x.attestation), Some(0)), x.answers));
  }

  lemma ReachBound(env: Env, x: Materials) returns (schedule: seq<Step>, w: World)
    requires Honest(env, x)
    ensures Run(env, schedule) == Some(w) && 0 in w.txns && Resting(w.txns[0], x.policy, DecodedBound, x.peer)
  {
    hide Run, Perform, Honest, Takeable;
    schedule, w := ReachMoved(env, x);
    Decodes(env, x, w.txns[0], w.files, 0);
    schedule := CallRuns(env, schedule, w, 0, DecodeRecord, x.answers);
    w := Put(w, 0, Perform(env, w.txns[0], w.files, DecodeRecord, x.answers));
  }

  lemma ReachLater(env: Env, x: Materials, before: seq<Step>, w: World, c: Call, from: State, to: State)
    returns (schedule: seq<Step>, w': World)
    requires Honest(env, x) && (c == VerifyB(x.peer, x.owner) || c == VerifyC(x.peer, x.owner))
    requires from == Expected(c) && to == Next(from)
    requires Run(env, before) == Some(w) && 0 in w.txns && Resting(w.txns[0], x.policy, from, x.peer)
    ensures Run(env, schedule) == Some(w') && 0 in w'.txns && Resting(w'.txns[0], x.policy, to, x.peer)
  {
    hide Run, Perform, Admits, Honest, PolicyOk;
    HonestFile(env, x);
    VerifiesLater(env, x, w.txns[0], w.files, c);
    schedule := CallRuns(env, before, w, 0, c, x.answers);
    w' := Put(w, 0, Perform(env, w.txns[0], w.files, c, x.answers));
  }

  /** An honest transaction reaches the last verified state. */
  lemma ReachVerified(env: Env, x: Materials) returns (schedule: seq<Step>, w: World)
    requires Honest(env, x)
    ensures Run(env, schedule) == Some(w) && 0 in w.txns && Resting(w.txns[0], x.policy, CVerified, x.peer)
  {
    hide Run, Honest, Resting, Perform;
    var b, c := VerifyB(x.peer, x.owner), VerifyC(x.peer, x.owner);
    schedule, w := ReachBound(env, x);
    schedule, w := ReachLater(env, x, schedule, w, b, DecodedBound, BVerified);
    schedule, w := ReachLater(env, x, schedule, w, c, BVerified, CVerified);
  }

  /** From any honest materials there is a run that aborts a transaction inside `close` and then closes it. */
  lemma ReachOverwritten(env: Env, x: Materials) returns (schedule: seq<Step>)
    requires Honest(env, x)
    ensures Run(env, schedule).Some? && 0 in Run(env, schedule).value.txns && Run(env, schedule).value.txns[0].state == Aborted
    ensures var closed := Run(env, schedule + [Leave(0)]);
            closed.Some? && 0 in closed.value.txns && closed.value.txns[0].state == Closed
  {
    var before, w := ReachVerified(env, x);
    hide Run, Honest;
    AbortOverwritten(env, before, 0);
    schedule := before + [Enter(0, Close)] + [Abort(0)];
  }

  // ---- such materials exist ----

  function Repeat(c: char, n: nat): string {
    seq(n, _ => c)
  }

  lemma RepeatAscii(c: char, n: nat)
    requires c as int < 128
    ensures Ascii(Repeat(c, n)).Some? && |Ascii(Repeat(c, n)).value| == n
    ensures forall i :: 0 <= i < n ==> Ascii(Repeat(c, n)).value[i] == c as int
  {
  }

  const SampleEnv := Env(Q1Record.Env((b: Bytes) => Q1Record.Zeros(), (m, c, g) => true), (b: Bytes) => "digest")
  const SamplePolicy := Policy(1, Repeat('a', 1), Repeat('a', 1), Repeat('a', 1))
  const SampleAttestation := Attestation([0], "digest", Repeat('a', 40), Repeat('a', 1))
  const SampleFile := Q1Record.Identity(0, 0, 0, 0, 0)

  lemma SampleRecord()
    ensures PolicyOk(SamplePolicy) && RecordFor(SamplePolicy, SampleAttestation).Some?
    ensures Q1Record.RecordOk(SampleEnv.codec, RecordFor(SamplePolicy, SampleAttestation).value)
  {
    RepeatAscii('a', 1);
    RepeatAscii('a', 40);
    var record := RecordFor(SamplePolicy, SampleAttestation).value;
    assert record.generation == [97] && record.busName == [97] && record.selinux == [97] && record.polkit == [97];
    assert Q1Record.GenerationOk([97]) && Q1Record.SelinuxOk([97]);
  }

  lemma LengthsInRange(codec: Q1Record.Env, r: Q1Record.Record)
    requires Q1Record.RecordOk(codec, r)
    ensures Q1Record.MinTotal <= Q1Record.Total(Q1Record.LengthsOf(r))
  {
  }

  lemma SampleWritten()
    ensures PolicyOk(SamplePolicy) && Written(SampleEnv, SamplePolicy, SampleAttestation, SampleFile).Some?
    ensures Q1Record.MinTotal <= |Written(SampleEnv, SamplePolicy, SampleAttestation, SampleFile).value| <= Q1Record.MaxTotal
  {
    hide Ascii, Q1Record.RecordOk, Q1Record.PartsOf, PolicyOk, RecordFor, Q1Record.Encode, Q1Record.LengthsOf;
    SampleRecord();
    var r := RecordFor(SamplePolicy, SampleAttestation).value;
    EncodeTotal(SampleEnv.codec, r, SampleFile);
    LengthsInRange(SampleEnv.codec, r);
  }

  /** A hash and a grammar for which the smallest policy and attestation are honest. */
  lemma HonestMaterials() returns (env: Env, x: Materials)
    ensures Honest(env, x)
  {
    hide Written, PolicyOk, RecordFor, Ascii;
    SampleWritten();
    RepeatAscii('a', 1);
    env := SampleEnv;
    var raw := Written(SampleEnv, SamplePolicy, SampleAttestation, SampleFile).value;
    var state := FdState(true, Q1Record.FileMode, 0, SampleFile.(size := |raw|), Q1Record.RequiredSeals, Q1Record.RequiredFdFlags);
    var answers := Readback(Some(state), Some(raw), Some(state), Some(raw), Some(state), true);
    var peer := Peer("sender", 1, 1, Ascii(SamplePolicy.selinux).value, RequiredMask, RequiredMask, 0);
    x := Materials(SamplePolicy, SampleAttestation, SampleFile, raw, state, answers, peer, Owner(SamplePolicy.busName, "sender"), 0);
  }
}
