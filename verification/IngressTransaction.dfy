/**
 * The ingress transaction: a non-resumable chain of calls that verifies one peer three
 * times and moves one Q1 capability.  A call is split where other calls on the same
 * transaction can come in between, so every re-entrant schedule is a run.  Every call but
 * `close` tests the state again before it sets its successor.  Calls interleave at those
 * points only: a thread preempted between that test and the assignment after it is not modelled.
 */
module IngressTransaction {
  import opened Core
  import opened Octets
  import opened Q1Record
  import opened Q1Capability

  datatype Policy = Policy(expectedUid: int, busName: string, selinux: string, polkit: string)
  datatype Attestation = Attestation(manifest: Bytes, manifestDigest: string, commit: string, generation: string)
  datatype Peer = Peer(
    sender: string, pid: int, uid: int, selinux: Bytes, available: int, requested: int, augmented: int)
  datatype Owner = Owner(busName: string, sender: string)

  const RequiredMask := 15

  predicate PrintableText(s: string, maximum: nat) {
    1 <= |s| <= maximum && forall i :: 0 <= i < |s| ==> 0x21 <= s[i] as int <= 0x7E
  }

  /** `_policy_values`. */
  predicate PolicyOk(p: Policy) {
    && 1 <= p.expectedUid < 0x1_0000_0000
    && PrintableText(p.busName, 255)
    && PrintableText(p.selinux, 4096)
    && PrintableText(p.polkit, 255)
  }

  /** `str.encode("ascii")`, which raises on any other character. */
  function Ascii(s: string): (r: Option<Bytes>)
    ensures r.Some? ==> |r.value| == |s| && forall i :: 0 <= i < |s| ==> r.value[i] == s[i] as int
  {
    if forall i :: 0 <= i < |s| ==> s[i] as int < 128 then
      Some(seq(|s|, i requires 0 <= i < |s| => s[i] as int))
    else
      None
  }

  lemma AsciiInjective(s: string, t: string)
    requires Ascii(s).Some? && Ascii(s) == Ascii(t)
    ensures s == t
  {
    assert |s| == |t|;
    forall i | 0 <= i < |s|
      ensures s[i] == t[i]
    {
      assert Ascii(s).value[i] == Ascii(t).value[i];
    }
  }

  predicate MaskOk(p: Peer) {
    p.available == RequiredMask && p.requested == RequiredMask && p.augmented == 0
  }

  /** `_verify_peer_continuity_v1`: the observed peer is the reference, and owns the policy's bus name. */
  predicate Continuous(reference: Peer, observed: Peer, owner: Owner, policy: Policy) {
    && MaskOk(reference) && MaskOk(observed)
    && owner.busName == policy.busName
    && owner.sender == observed.sender
    && reference.sender == observed.sender
    && reference.pid == observed.pid
    && reference.uid == observed.uid
    && reference.selinux == observed.selinux
  }

  predicate Admits(policy: Policy, peer: Peer, owner: Owner) {
    Continuous(peer, peer, owner, policy) && Ascii(policy.selinux) == Some(peer.selinux) && peer.uid == policy.expectedUid
  }

  /** `_bind_decoded_record`; `sha` is the hexadecimal digest of the manifest. */
  predicate Binds(sha: Bytes -> string, policy: Policy, a: Attestation, r: Record) {
    && r.expectedUid == policy.expectedUid
    && Ascii(policy.busName) == Some(r.busName)
    && Ascii(policy.selinux) == Some(r.selinux)
    && Ascii(policy.polkit) == Some(r.polkit)
    && r.manifest == a.manifest
    && sha(r.manifest) == a.manifestDigest
    && Ascii(a.commit) == Some(r.commit)
    && Ascii(a.generation) == Some(r.generation)
  }

  datatype State =
    | New | AVerified | Authorized | CapabilityMoved | DecodedBound | BVerified | CVerified | Closed | Aborted

  /** Calls of the chain; `None` stands for an argument of another type. */
  datatype Call =
    | VerifyA(peer: Peer, owner: Owner)
    | Authorize
    | Move(attestation: Option<Attestation>, cap: Option<CapId>)
    | DecodeRecord
    | VerifyB(peer: Peer, owner: Owner)
    | VerifyC(peer: Peer, owner: Owner)
    | Close

  function Expected(c: Call): State {
    match c
    case VerifyA(_, _) => New
    case Authorize => AVerified
    case Move(_, _) => Authorized
    case DecodeRecord => CapabilityMoved
    case VerifyB(_, _) => DecodedBound
    case VerifyC(_, _) => BVerified
    case Close => CVerified
  }

  function Next(s: State): State {
    match s
    case New => AVerified
    case AVerified => Authorized
    case Authorized => CapabilityMoved
    case CapabilityMoved => DecodedBound
    case DecodedBound => BVerified
    case BVerified => CVerified
    case CVerified => Closed
    case Closed => Aborted
    case Aborted => Aborted
  }

  /**
   * `active` is the call under way and `fetched` what a decode under way has read.
   * `trail` is history: the calls that returned normally; `offered` the capabilities passed in.
   */
  datatype Txn = Txn(
    policy: Policy, state: State, active: Option<Call>, fetched: Option<Record>, attestation: Option<Attestation>,
    authorization: Option<string>, capability: Option<CapId>, decoded: Option<Record>, peer: Option<Peer>,
    trail: seq<Call>, offered: set<CapId>)

  function Fresh(policy: Policy): Txn {
    Txn(policy, New, None, None, None, None, None, None, None, [], {})
  }

  datatype Env = Env(codec: Q1Record.Env, sha: Bytes -> string)

  function AbortTxn(t: Txn): Txn {
    t.(capability := None, attestation := None, decoded := None, peer := None, state := Aborted)
  }

  function Release(d: Descriptors, cap: Option<CapId>): Descriptors {
    if cap.Some? then Discard(d, cap.value) else d
  }

  /** `_failure` inside a call, and the `finally` that ends it. */
  function Fail(t: Txn, d: Descriptors): (Txn, Descriptors) {
    (AbortTxn(t).(active := None, fetched := None), Release(d, t.capability))
  }

  /** `abort`, and an attempt to copy or pickle: both end in the aborted state. */
  function AbortCall(t: Txn, d: Descriptors): (Txn, Descriptors) {
    (AbortTxn(t), Release(d, t.capability))
  }

  function Offered(c: Call): Option<CapId> {
    if c.Move? then c.cap else None
  }

  /** Entering a call: out of turn it aborts, and a capability passed in is discarded as well. */
  function Begin(t: Txn, d: Descriptors, c: Call): (Txn, Descriptors) {
    var seen := if Offered(c).Some? then t.offered + {Offered(c).value} else t.offered;
    if t.active.Some? || t.state != Expected(c) then
      var d' := Release(d, t.capability);
      (AbortTxn(t).(offered := seen), if Offered(c) == t.capability then d' else Release(d', Offered(c)))
    else
      (t.(active := Some(c), capability := if c.Move? then c.cap else t.capability, offered := seen), d)
  }

  /** The middle of a decode: the capability leaves the transaction and is read out. */
  function Fetch(env: Env, t: Txn, d: Descriptors, k: Readback): (Txn, Descriptors) {
    if t.capability.None? then Fail(t, d)
    else
      var (d', r) := DecodeCapability(env.codec, d, t.capability.value, k);
      if r.None? then Fail(t.(capability := None), d')
      else (t.(capability := None, fetched := r), d')
  }

  function Accept(t: Txn, c: Call, t': Txn): Txn {
    t'.(state := Next(Expected(c)), active := None, fetched := None, trail := t.trail + [c])
  }

  /**
   * Leaving a call: its checks, the state test that catches an abort meanwhile, and the new state.
   * `close` has no such test, and `authorize` sets the authorization before it.
   */
  function Finish(env: Env, t: Txn, d: Descriptors): (Txn, Descriptors)
    requires t.active.Some?
  {
    var c := t.active.value;
    if t.state != Expected(c) && !c.Close? then
      Fail(if c.Authorize? then t.(authorization := Some(t.policy.polkit)) else t, d)
    else
      match c
      case VerifyA(peer, owner) =>
        if !Admits(t.policy, peer, owner) then Fail(t, d) else (Accept(t, c, t.(peer := Some(peer))), d)
      case Authorize => (Accept(t, c, t.(authorization := Some(t.policy.polkit))), d)
      case Move(attestation, cap) =>
        if cap.None? || attestation.None? then Fail(t, d) else (Accept(t, c, t.(attestation := attestation)), d)
      case DecodeRecord =>
        if t.fetched.None? || t.attestation.None? || !Binds(env.sha, t.policy, t.attestation.value, t.fetched.value) then
          Fail(t, d)
        else
          (Accept(t, c, t.(decoded := t.fetched)), d)
      case VerifyB(peer, owner) =>
        if t.peer.None? || !Continuous(t.peer.value, peer, owner, t.policy) then Fail(t, d) else (Accept(t, c, t), d)
      case VerifyC(peer, owner) =>
        if t.peer.None? || !Continuous(t.peer.value, peer, owner, t.policy) then Fail(t, d) else (Accept(t, c, t), d)
      case Close => (Accept(t, c, t.(attestation := None, decoded := None, peer := None)), d)
  }

  /** One undisturbed call from start to end. */
  function Perform(env: Env, t: Txn, d: Descriptors, c: Call, k: Readback): (Txn, Descriptors) {
    var (t1, d1) := Begin(t, d, c);
    if t1.active.None? || t.active.Some? then (t1, d1)
    else if !c.DecodeRecord? then Finish(env, t1, d1)
    else
      var (t2, d2) := Fetch(env, t1, d1, k);
      if t2.active.None? then (t2, d2) else Finish(env, t2, d2)
  }

  // ---- runs ----

  type TxnId = nat

  datatype World = World(txns: map<TxnId, Txn>, files: Descriptors)

  const Empty := World(map[], Descriptors(map[], {}, map[], []))

  datatype Step =
    | OpenFile(fd: int, key: Key)
    | CloseFile(fd: int)
    | IssueFor(cap: CapId, fd: int)
    | DecodeAlone(cap: CapId, answers: Readback)
    | DiscardAlone(cap: CapId)
    | Create(tx: TxnId, policy: Policy)
    | Enter(tx: TxnId, call: Call)
    | ReadRecord(tx: TxnId, answers: Readback)
    | Leave(tx: TxnId)
    | Abort(tx: TxnId)

  function Put(w: World, tx: TxnId, r: (Txn, Descriptors)): World {
    World(w.txns[tx := r.0], r.1)
  }

  /** A call may pass any value; a genuine capability among them is one that was issued. */
  predicate Genuine(w: World, c: Call) {
    Offered(c).Some? ==> Offered(c).value in w.files.caps
  }

  function Do(env: Env, w: World, s: Step): Option<World> {
    match s
    case OpenFile(fd, key) =>
      if fd in w.files.table then None else Some(w.(files := w.files.(table := w.files.table[fd := key])))
    case CloseFile(fd) => Some(w.(files := w.files.(table := w.files.table - {fd})))
    case IssueFor(cap, fd) =>
      if cap in w.files.caps then None
      else
        var d := Issue(w.files, cap, fd);
        if d.None? then None else Some(w.(files := d.value))
    case DecodeAlone(cap, k) => Some(w.(files := DecodeCapability(env.codec, w.files, cap, k).0))
    case DiscardAlone(cap) => Some(w.(files := Discard(w.files, cap)))
    case Create(tx, policy) =>
      if tx in w.txns || !PolicyOk(policy) then None else Some(w.(txns := w.txns[tx := Fresh(policy)]))
    case Enter(tx, call) =>
      if tx !in w.txns || !Genuine(w, call) then None else Some(Put(w, tx, Begin(w.txns[tx], w.files, call)))
    case ReadRecord(tx, k) =>
      if tx !in w.txns || w.txns[tx].active != Some(DecodeRecord) || w.txns[tx].fetched.Some? then None
      else Some(Put(w, tx, Fetch(env, w.txns[tx], w.files, k)))
    case Leave(tx) =>
      if tx !in w.txns || w.txns[tx].active.None? then None
      else if w.txns[tx].active == Some(DecodeRecord) && w.txns[tx].fetched.None? then None
      else Some(Put(w, tx, Finish(env, w.txns[tx], w.files)))
    case Abort(tx) => if tx !in w.txns then None else Some(Put(w, tx, AbortCall(w.txns[tx], w.files)))
  }

  function Run(env: Env, schedule: seq<Step>): Option<World> {
    if schedule == [] then Some(Empty)
    else
      var before := Run(env, schedule[..|schedule| - 1]);
      if before.None? then None else Do(env, before.value, schedule[|schedule| - 1])
  }

  // ---- what every run keeps ----

  function Rank(s: State): nat {
    match s
    case New => 0
    case AVerified => 1
    case Authorized => 2
    case CapabilityMoved => 3
    case DecodedBound => 4
    case BVerified => 5
    case CVerified => 6
    case Closed => 7
    case Aborted => 8
  }

  /** The accepted calls are the chain in order, and the peer, whenever verified, is the first one. */
  predicate Chained(policy: Policy, trail: seq<Call>) {
    && |trail| <= 7
    && (forall i :: 0 <= i < |trail| ==> Rank(Expected(trail[i])) == i)
    && (|trail| > 0 ==> trail[0].VerifyA? && Admits(policy, trail[0].peer, trail[0].owner))
    && (|trail| > 2 ==> trail[2].Move? && trail[2].attestation.Some? && trail[2].cap.Some?)
    && (|trail| > 4 ==> trail[4].VerifyB? && Continuous(trail[0].peer, trail[4].peer, trail[4].owner, policy))
    && (|trail| > 5 ==> trail[5].VerifyC? && Continuous(trail[0].peer, trail[5].peer, trail[5].owner, policy))
  }

  /** What the fields say in each state, between and inside calls. */
  predicate Consistent(env: Env, t: Txn) {
    && PolicyOk(t.policy)
    && Chained(t.policy, t.trail)
    && (t.state != Aborted ==> Rank(t.state) == |t.trail|)
    && (t.state == Aborted ==> t.capability.None? && t.peer.None? && t.decoded.None?)
    && (t.active.Some? && t.state != Aborted ==> t.state == Expected(t.active.value))
    && (t.active.Some? ==> Rank(Expected(t.active.value)) == |t.trail|)
    && (t.state in {AVerified, Authorized, CapabilityMoved, DecodedBound, BVerified, CVerified} ==>
          t.peer == Some(t.trail[0].peer))
    && (t.state in {CapabilityMoved, DecodedBound, BVerified, CVerified} ==> t.attestation == t.trail[2].attestation)
    && (t.state in {DecodedBound, BVerified, CVerified} ==>
          t.attestation.Some? && t.decoded.Some? && Binds(env.sha, t.policy, t.attestation.value, t.decoded.value))
  }

  /** Between calls a capability is held exactly in CAPABILITY_MOVED, and it is the one moved in. */
  predicate Holds(t: Txn) {
    && (t.active.None? ==> (t.capability.Some? <==> t.state == CapabilityMoved))
    && (t.state == CapabilityMoved && t.capability.Some? ==> |t.trail| > 2 && t.trail[2].Move? && t.capability == t.trail[2].cap)
    && (t.capability.Some? ==> t.state == CapabilityMoved || (t.state == Authorized && t.active.Some? && t.active.value.Move?))
    && (t.active.Some? && t.active.value.Move? && t.state != Aborted ==> t.capability == t.active.value.cap)
    && (t.active == Some(DecodeRecord) && t.state != Aborted ==> (t.capability.Some? <==> t.fetched.None?))
    && (t.fetched.Some? ==> t.active == Some(DecodeRecord))
  }

  /** Every genuine capability ever passed in is consumed, unless the transaction still holds it. */
  predicate Accounted(t: Txn, d: Descriptors) {
    && (forall c :: c in t.offered ==> c in d.caps)
    && (forall c :: c in t.offered && t.capability != Some(c) ==> d.caps[c].consumed)
    && (t.capability.Some? ==> t.capability.value in t.offered)
  }

  ghost predicate Inv(env: Env, w: World) {
    && Linear(w.files)
    && (forall tx :: tx in w.txns ==>
          Consistent(env, w.txns[tx]) && Holds(w.txns[tx]) && Accounted(w.txns[tx], w.files))
  }

  // ---- each operation keeps it ----

  /** The capabilities of `d` are still known in `d'`, and consumed ones stay consumed. */
  ghost predicate Later(d: Descriptors, d': Descriptors) {
    forall c :: c in d.caps ==> c in d'.caps && (d.caps[c].consumed ==> d'.caps[c].consumed)
  }

  lemma AccountedLater(t: Txn, d: Descriptors, d': Descriptors)
    requires Accounted(t, d) && Later(d, d')
    ensures Accounted(t, d')
  {
  }

  lemma ReleaseKeeps(d: Descriptors, cap: Option<CapId>)
    requires Linear(d)
    ensures Linear(Release(d, cap)) && Later(d, Release(d, cap))
    ensures cap.Some? && cap.value in d.caps ==> Release(d, cap).caps[cap.value].consumed
  {
    if cap.Some? {
      DiscardKeeps(d, cap.value);
    }
  }

  ghost predicate Fit(env: Env, t: Txn, d: Descriptors) {
    Consistent(env, t) && Holds(t) && Accounted(t, d)
  }

  lemma FailKeeps(env: Env, t: Txn, d: Descriptors)
    requires Linear(d) && Consistent(env, t) && Accounted(t, d)
    ensures var (t', d') := Fail(t, d); Fit(env, t', d') && Linear(d') && Later(d, d') && t'.state == Aborted
  {
    ReleaseKeeps(d, t.capability);
  }

  lemma AbortKeeps(env: Env, t: Txn, d: Descriptors)
    requires Linear(d) && Fit(env, t, d)
    ensures var (t', d') := AbortCall(t, d); Fit(env, t', d') && Linear(d') && Later(d, d') && t'.state == Aborted
  {
    ReleaseKeeps(d, t.capability);
  }

  lemma LaterTwice(a: Descriptors, b: Descriptors, c: Descriptors)
    requires Later(a, b) && Later(b, c)
    ensures Later(a, c)
  {
  }

  /** Entering out of turn: whatever was held and whatever was passed in is consumed. */
  lemma RefuseKeeps(env: Env, t: Txn, d: Descriptors, c: Call)
    requires Linear(d) && Fit(env, t, d) && (Offered(c).Some? ==> Offered(c).value in d.caps)
    requires t.active.Some? || t.state != Expected(c)
    ensures var (t', d') := Begin(t, d, c); Fit(env, t', d') && Linear(d') && Later(d, d') && t'.state == Aborted
  {
    hide Release, Linear, Chained, Binds, PolicyOk;
    var (t', d') := Begin(t, d, c);
    var d1 := Release(d, t.capability);
    ReleaseKeeps(d, t.capability);
    ReleaseKeeps(d1, Offered(c));
    LaterTwice(d, d1, Release(d1, Offered(c)));
    assert Consistent(env, t') && Holds(t');
    forall x | x in t'.offered
      ensures x in d'.caps && d'.caps[x].consumed
    {
      if x in t.offered {
        assert x in d.caps;
      }
    }
  }

  lemma BeginKeeps(env: Env, t: Txn, d: Descriptors, c: Call)
    requires Linear(d) && Fit(env, t, d) && (Offered(c).Some? ==> Offered(c).value in d.caps)
    ensures var (t', d') := Begin(t, d, c);
            Fit(env, t', d') && Linear(d') && Later(d, d') && (t'.state == t.state || t'.state == Aborted)
  {
    hide Release, Linear, Chained, Binds, PolicyOk;
    if t.active.Some? || t.state != Expected(c) {
      RefuseKeeps(env, t, d, c);
    }
  }

  lemma FetchKeeps(env: Env, t: Txn, d: Descriptors, k: Readback)
    requires Linear(d) && Fit(env, t, d) && t.active == Some(DecodeRecord) && t.fetched.None?
    ensures var (t', d') := Fetch(env, t, d, k);
            Fit(env, t', d') && Linear(d') && Later(d, d') && (t'.state == t.state || t'.state == Aborted)
  {
    if t.capability.None? {
      FailKeeps(env, t, d);
    } else {
      DecodeKeeps(env.codec, d, t.capability.value, k);
      var (d', r) := DecodeCapability(env.codec, d, t.capability.value, k);
      TakeOnly(env, d, t.capability.value, k);
      if r.None? {
        FailKeeps(env, t.(capability := None), d');
      }
    }
  }

  lemma TakeOnly(env: Env, d: Descriptors, cap: CapId, k: Readback)
    ensures Later(d, DecodeCapability(env.codec, d, cap, k).0)
  {
  }

  lemma ChainedMore(policy: Policy, trail: seq<Call>, c: Call)
    requires Chained(policy, trail) && Rank(Expected(c)) == |trail|
    requires c.VerifyA? ==> Admits(policy, c.peer, c.owner)
    requires c.Move? ==> c.attestation.Some? && c.cap.Some?
    requires c.VerifyB? || c.VerifyC? ==> Continuous(trail[0].peer, c.peer, c.owner, policy)
    ensures Chained(policy, trail + [c])
  {
  }

  lemma FinishKeeps(env: Env, t: Txn, d: Descriptors)
    requires Linear(d) && Fit(env, t, d) && t.active.Some?
    requires t.active == Some(DecodeRecord) ==> t.fetched.Some?
    ensures var (t', d') := Finish(env, t, d);
            Fit(env, t', d') && Linear(d') && Later(d, d') &&
            (t'.state == Aborted || (t'.state == Next(Expected(t.active.value)) && t'.trail == t.trail + [t.active.value])) &&
            (t.state == Aborted ==> (t'.state == Aborted <==> t.active != Some(Close))) &&
            (t.state != Aborted ==> t.state == Expected(t.active.value))
  {
    hide Linear, Release, Admits, Continuous, Binds, Chained;
    FailKeeps(env, t, d);
    if Finish(env, t, d).0.state != Aborted {
      ChainedMore(t.policy, t.trail, t.active.value);
    }
  }

  /** One transaction took an operation; the others only see capabilities spent. */
  lemma PutKeeps(env: Env, w: World, tx: TxnId, r: (Txn, Descriptors))
    requires Inv(env, w) && Linear(r.1) && Fit(env, r.0, r.1) && Later(w.files, r.1)
    ensures Inv(env, Put(w, tx, r))
  {
    hide Linear, Consistent, Holds;
    var w' := Put(w, tx, r);
    forall other | other in w'.txns
      ensures Consistent(env, w'.txns[other]) && Holds(w'.txns[other]) && Accounted(w'.txns[other], w'.files)
    {
      if other != tx {
        AccountedLater(w.txns[other], w.files, r.1);
      }
    }
  }

  /** Only the descriptors changed. */
  lemma FilesKeep(env: Env, w: World, d: Descriptors)
    requires Inv(env, w) && Linear(d) && Later(w.files, d)
    ensures Inv(env, w.(files := d))
  {
    hide Linear, Consistent, Holds;
    forall tx | tx in w.txns
      ensures Accounted(w.txns[tx], d)
    {
      AccountedLater(w.txns[tx], w.files, d);
    }
  }

  lemma TableKeeps(env: Env, w: World, table: map<int, Key>)
    requires Inv(env, w)
    ensures Inv(env, w.(files := w.files.(table := table)))
  {
    var d := w.files.(table := table);
    forall id
      ensures Lived(d, id)
    {
      assert Lived(w.files, id);
    }
    FilesKeep(env, w, d);
  }

  /** An abort that came in after `close` was entered is overwritten when `close` ends. */
  predicate Overwrites(tx: TxnId, t: Txn, s: Step) {
    t.state == Aborted && t.active == Some(Close) && s == Leave(tx)
  }

  /** Between two worlds, a transaction stays, moves one step along the chain, aborts, or closes over an abort. */
  predicate Moves(tx: TxnId, t: Txn, t': Txn, s: Step) {
    && t'.policy == t.policy
    && (t.state != Aborted ==> t'.state == t.state || t'.state == Aborted || Rank(t'.state) == Rank(t.state) + 1)
    && (t.state == Aborted ==> t'.state == if Overwrites(tx, t, s) then Closed else Aborted)
  }

  lemma OperationKeeps(env: Env, w: World, s: Step)
    requires Inv(env, w) && Do(env, w, s).Some? && (s.Enter? || s.ReadRecord? || s.Leave? || s.Abort?)
    ensures Inv(env, Do(env, w, s).value) && Moves(s.tx, w.txns[s.tx], Do(env, w, s).value.txns[s.tx], s)
  {
    hide Linear, Consistent, Holds, Accounted, Finish, Fetch, Begin, Release;
    var t, d := w.txns[s.tx], w.files;
    match s
    case Enter(tx, c) =>
      BeginKeeps(env, t, d, c);
      BeginTrail(t, d, c);
      PutKeeps(env, w, tx, Begin(t, d, c));
    case ReadRecord(tx, k) =>
      FetchKeeps(env, t, d, k);
      FetchTrail(env, t, d, k);
      PutKeeps(env, w, tx, Fetch(env, t, d, k));
    case Leave(tx) =>
      FinishKeeps(env, t, d);
      FinishTrail(env, t, d);
      PutKeeps(env, w, tx, Finish(env, t, d));
    case Abort(tx) =>
      AbortKeeps(env, t, d);
      PutKeeps(env, w, tx, AbortCall(t, d));
  }

  lemma BeginTrail(t: Txn, d: Descriptors, c: Call)
    ensures Begin(t, d, c).0.trail == t.trail && Begin(t, d, c).0.policy == t.policy
  {
  }

  lemma FetchTrail(env: Env, t: Txn, d: Descriptors, k: Readback)
    ensures Fetch(env, t, d, k).0.trail == t.trail && Fetch(env, t, d, k).0.policy == t.policy
  {
  }

  lemma FinishTrail(env: Env, t: Txn, d: Descriptors)
    requires t.active.Some?
    ensures Finish(env, t, d).0.policy == t.policy
    ensures Finish(env, t, d).0.trail == if Finish(env, t, d).0.state == Aborted then t.trail else t.trail + [t.active.value]
  {
    hide Release, Admits, Continuous, Binds;
  }

  lemma StepKeeps(env: Env, w: World, s: Step)
    requires Inv(env, w) && Do(env, w, s).Some?
    ensures Inv(env, Do(env, w, s).value)
    ensures forall tx :: tx in w.txns ==> tx in Do(env, w, s).value.txns && Moves(tx, w.txns[tx], Do(env, w, s).value.txns[tx], s)
  {
    hide Linear, Consistent, Holds, Finish, Fetch, Begin, Discard, DecodeCapability, Issue, PolicyOk;
    var d := w.files;
    match s
    case OpenFile(fd, key) => TableKeeps(env, w, d.table[fd := key]);
    case CloseFile(fd) => TableKeeps(env, w, d.table - {fd});
    case IssueFor(cap, fd) =>
      IssueKeeps(d, cap, fd);
      IssueLater(d, cap, fd);
      FilesKeep(env, w, Issue(d, cap, fd).value);
    case DecodeAlone(cap, k) =>
      DecodeKeeps(env.codec, d, cap, k);
      TakeOnly(env, d, cap, k);
      FilesKeep(env, w, DecodeCapability(env.codec, d, cap, k).0);
    case DiscardAlone(cap) =>
      ReleaseKeeps(d, Some(cap));
      FilesKeep(env, w, Discard(d, cap));
    case Create(tx, policy) =>
      FreshFits(env, policy, d);
      PutKeeps(env, w, tx, (Fresh(policy), d));
    case _ => OperationKeeps(env, w, s);
  }

  lemma IssueLater(d: Descriptors, cap: CapId, fd: int)
    requires cap !in d.caps && Issue(d, cap, fd).Some?
    ensures Later(d, Issue(d, cap, fd).value)
  {
  }

  lemma FreshFits(env: Env, policy: Policy, d: Descriptors)
    requires PolicyOk(policy)
    ensures Fit(env, Fresh(policy), d)
  {
  }

  lemma {:induction false} RunKeeps(env: Env, schedule: seq<Step>)
    requires Run(env, schedule).Some?
    ensures Inv(env, Run(env, schedule).value)
  {
    hide Do, Consistent, Holds, Accounted;
    if schedule != [] {
      var n := |schedule| - 1;
      RunKeeps(env, schedule[..n]);
      StepKeeps(env, Run(env, schedule[..n]).value, schedule[n]);
    }
  }

  // ---- theorems over every run ----

  /**
   * Each step moves a transaction along the chain by one, aborts it, or leaves it.  ABORTED is left
   * if and only if the step is the end of a `close` that was aborted after it was entered, and then
   * for CLOSED.
   */
  lemma OneStepAlongTheChain(env: Env, schedule: seq<Step>, s: Step, tx: TxnId)
    requires Run(env, schedule + [s]).Some? && Run(env, schedule).Some? && tx in Run(env, schedule).value.txns
    ensures tx in Run(env, schedule + [s]).value.txns
    ensures var t, b := Run(env, schedule).value.txns[tx], Run(env, schedule + [s]).value.txns[tx].state;
            (t.state != Aborted ==> b == t.state || b == Aborted || Rank(b) == Rank(t.state) + 1) &&
            (t.state == Aborted ==> (b != Aborted <==> t.active == Some(Close) && s == Leave(tx)) && (b == Aborted || b == Closed))
  {
    hide Do, Inv;
    assert (schedule + [s])[..|schedule|] == schedule;
    RunKeeps(env, schedule);
    StepKeeps(env, Run(env, schedule).value, s);
  }

  /** Between calls a capability is held exactly in CAPABILITY_MOVED; any other one passed in is consumed. */
  lemma CapabilityOwnership(env: Env, schedule: seq<Step>, tx: TxnId)
    requires Run(env, schedule).Some? && tx in Run(env, schedule).value.txns
    requires Run(env, schedule).value.txns[tx].active.None?
    ensures var t, d := Run(env, schedule).value.txns[tx], Run(env, schedule).value.files;
            (t.capability.Some? <==> t.state == CapabilityMoved) &&
            (forall c :: c in t.offered && !(t.state == CapabilityMoved && t.capability == Some(c)) ==>
               c in d.caps && d.caps[c].consumed)
  {
    hide Do, Run, Consistent;
    RunKeeps(env, schedule);
  }

  /** Each descriptor is closed at most once and never read after, over every run. */
  lemma NeverUsedAfterClose(env: Env, schedule: seq<Step>, i: nat, j: nat)
    requires Run(env, schedule).Some? && i < j < |Run(env, schedule).value.files.log|
    requires Run(env, schedule).value.files.log[i].Shut?
    ensures Run(env, schedule).value.files.log[j].cap != Run(env, schedule).value.files.log[i].cap
  {
    hide Do, Run, Consistent, Holds, Accounted;
    RunKeeps(env, schedule);
    var d := Run(env, schedule).value.files;
    var id := d.log[i].cap;
    assert Lived(d, id);
    StoryNonempty(d.log, id, i);
    if d.log[j].cap == id {
      NothingAfterClose(d.log, id, i, j);
    }
  }

  /** No two capabilities are ever issued for one file. */
  lemma OneCapabilityPerFile(env: Env, schedule: seq<Step>, a: CapId, b: CapId)
    requires Run(env, schedule).Some?
    requires a in Run(env, schedule).value.files.caps && b in Run(env, schedule).value.files.caps && a != b
    ensures Run(env, schedule).value.files.caps[a].key != Run(env, schedule).value.files.caps[b].key
  {
    hide Do, Run, Consistent, Holds, Accounted;
    RunKeeps(env, schedule);
  }

  /**
   * CLOSED is reached only by the whole chain: three observations of one peer, each owning the
   * policy's bus name, admitted by the policy's user and security context.
   */
  lemma ClosedVerifiedThrice(env: Env, schedule: seq<Step>, tx: TxnId)
    requires Run(env, schedule).Some? && tx in Run(env, schedule).value.txns
    requires Run(env, schedule).value.txns[tx].state == Closed
    ensures var t := Run(env, schedule).value.txns[tx];
            |t.trail| == 7 && t.trail[0].VerifyA? && t.trail[1].Authorize? && t.trail[2].Move? &&
            t.trail[3].DecodeRecord? && t.trail[4].VerifyB? && t.trail[5].VerifyC? && t.trail[6].Close? &&
            Admits(t.policy, t.trail[0].peer, t.trail[0].owner) &&
            Continuous(t.trail[0].peer, t.trail[4].peer, t.trail[4].owner, t.policy) &&
            Continuous(t.trail[0].peer, t.trail[5].peer, t.trail[5].owner, t.policy)
  {
    hide Do, Run, Holds, Accounted, Admits, Continuous, Binds;
    RunKeeps(env, schedule);
    var t := Run(env, schedule).value.txns[tx];
    assert Rank(Expected(t.trail[1])) == 1 && Rank(Expected(t.trail[3])) == 3 && Rank(Expected(t.trail[6])) == 6;
  }

  // ---- an abort that close overwrites ----

  lemma RunAppends(env: Env, schedule: seq<Step>, s: Step)
    ensures Run(env, schedule + [s]) == if Run(env, schedule).None? then None else Do(env, Run(env, schedule).value, s)
  {
    assert (schedule + [s])[..|schedule|] == schedule;
  }

  /** From any verified transaction: enter `close`, abort, and let `close` end. ABORTED becomes CLOSED. */
  lemma AbortOverwritten(env: Env, schedule: seq<Step>, tx: TxnId)
    requires Run(env, schedule).Some? && tx in Run(env, schedule).value.txns
    requires Run(env, schedule).value.txns[tx].state == CVerified && Run(env, schedule).value.txns[tx].active.None?
    ensures var aborted := Run(env, schedule + [Enter(tx, Close)] + [Abort(tx)]);
            aborted.Some? && tx in aborted.value.txns && aborted.value.txns[tx].state == Aborted
    ensures var closed := Run(env, schedule + [Enter(tx, Close)] + [Abort(tx)] + [Leave(tx)]);
            closed.Some? && tx in closed.value.txns && closed.value.txns[tx].state == Closed
  {
    var s1 := schedule + [Enter(tx, Close)];
    RunAppends(env, schedule, Enter(tx, Close));
    RunAppends(env, s1, Abort(tx));
    RunAppends(env, s1 + [Abort(tx)], Leave(tx));
    hide Run, Release;
  }
}
