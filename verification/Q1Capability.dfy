/**
 * Linear ownership of one open record descriptor: issue, take, discard and decode,
 * over a descriptor table that other code may change at any time.
 */
module Q1Capability {
  import opened Core
  import opened Octets
  import opened Q1Record

  /** Device and inode: which file a descriptor number stands for. */
  type Key = (int, int)
  type CapId = nat

  datatype Capability = Capability(fd: int, key: Key, registered: bool, consumed: bool)

  /** What was done to the descriptor of a capability; `Lost` is a take that met another file. */
  datatype Event = Read(cap: CapId) | Shut(cap: CapId) | Lost(cap: CapId)

  datatype Descriptors = Descriptors(
    caps: map<CapId, Capability>, issued: set<Key>, table: map<int, Key>, log: seq<Event>)

  const FdLimit := 0x8000_0000

  /** `_capability_from_fd`: `id` is the new object's identity. */
  function Issue(d: Descriptors, id: CapId, fd: int): Option<Descriptors>
    requires id !in d.caps
  {
    if !(0 <= fd < FdLimit) || fd !in d.table then None
    else
      var key := d.table[fd];
      if !Unsigned64(key.0) || !Unsigned64(key.1) || key in d.issued then None
      else Some(d.(caps := d.caps[id := Capability(fd, key, true, false)], issued := d.issued + {key}))
  }

  /** What a take leaves of one capability, and the descriptor it yields. */
  datatype Taking = Taking(after: Capability, fd: Option<int>, lost: bool)

  /** `_take_capability`: consumes, and yields the descriptor only if it still is the issued file. */
  function TakeOne(c: Capability, table: map<int, Key>): Taking {
    if !c.registered || c.consumed then Taking(c.(registered := false), None, false)
    else
      var spent := Capability(-1, c.key, false, true);
      if c.fd in table && table[c.fd] == c.key then Taking(spent, Some(c.fd), false) else Taking(spent, None, true)
  }

  function Take(d: Descriptors, id: CapId): (Descriptors, Option<int>) {
    if id !in d.caps then (d, None)
    else
      var t := TakeOne(d.caps[id], d.table);
      (d.(caps := d.caps[id := t.after], log := if t.lost then d.log + [Lost(id)] else d.log), t.fd)
  }

  function CloseFd(d: Descriptors, id: CapId, fd: int): Descriptors {
    d.(table := d.table - {fd}, log := d.log + [Shut(id)])
  }

  function Discard(d: Descriptors, id: CapId): Descriptors {
    var (spent, fd) := Take(d, id);
    if fd.None? then spent else CloseFd(spent, id, fd.value)
  }

  // ---- reading the record back ----

  datatype FdState = FdState(regular: bool, mode: int, nlink: int, identity: Identity, seals: int, fdFlags: int)

  predicate FdStateOk(s: FdState) {
    && s.regular
    && s.mode == FileMode
    && s.nlink == 0
    && s.seals == RequiredSeals
    && s.fdFlags == RequiredFdFlags
    && MinTotal <= s.identity.size <= MaxTotal
    && IdentityOk(s.identity)
  }

  /** What the kernel answers while a descriptor is decoded: three states, two reads and the close. */
  datatype Readback = Readback(
    before: Option<FdState>, first: Option<Bytes>, between: Option<FdState>, second: Option<Bytes>,
    after: Option<FdState>, closed: bool)

  predicate FirstRead(k: Readback) {
    k.before.Some? && FdStateOk(k.before.value)
  }

  predicate SecondRead(env: Env, k: Readback) {
    && FirstRead(k)
    && k.first.Some?
    && |k.first.value| == k.before.value.identity.size
    && Decode(env, k.first.value, k.before.value.identity).Some?
    && k.between == k.before
  }

  function DecodeReadback(env: Env, k: Readback): Option<Record> {
    if SecondRead(env, k) && k.second == k.first && k.after == k.before && k.closed then
      Decode(env, k.first.value, k.before.value.identity)
    else
      None
  }

  /** `_decode_capability`: at most two reads, then the one close, whatever the reads gave. */
  function DecodeCapability(env: Env, d: Descriptors, id: CapId, k: Readback): (Descriptors, Option<Record>) {
    var (spent, fd) := Take(d, id);
    if fd.None? then (spent, None)
    else
      var looks := if SecondRead(env, k) then [Read(id), Read(id)] else if FirstRead(k) then [Read(id)] else [];
      (CloseFd(spent.(log := spent.log + looks), id, fd.value), DecodeReadback(env, k))
  }

  // ---- the life of one capability ----

  /** The events of one capability, in order. */
  function Story(log: seq<Event>, id: CapId): seq<Event> {
    if log == [] then []
    else Story(log[..|log| - 1], id) + if log[|log| - 1].cap == id then [log[|log| - 1]] else []
  }

  lemma {:induction false} StoryAppend(log: seq<Event>, more: seq<Event>, id: CapId)
    ensures Story(log + more, id) == Story(log, id) + Story(more, id)
    decreases |more|
  {
    if more == [] {
      assert log + more == log;
    } else {
      var n := |more| - 1;
      assert (log + more)[..|log| + n] == log + more[..n];
      StoryAppend(log, more[..n], id);
    }
  }

  lemma StoryOne(e: Event, id: CapId)
    ensures Story([e], id) == if e.cap == id then [e] else []
  {
    assert [e][..0] == [];
  }

  /** The life of a descriptor once consumed: no, one or two reads and then one close, or lost untouched. */
  predicate Finished(story: seq<Event>, id: CapId) {
    || story == [Lost(id)]
    || story == [Shut(id)]
    || story == [Read(id), Shut(id)]
    || story == [Read(id), Read(id), Shut(id)]
  }

  ghost predicate Lived(d: Descriptors, id: CapId) {
    && (id !in d.caps ==> Story(d.log, id) == [])
    && (id in d.caps && !d.caps[id].consumed ==> Story(d.log, id) == [])
    && (id in d.caps && d.caps[id].consumed ==> Finished(Story(d.log, id), id))
  }

  ghost predicate Linear(d: Descriptors) {
    && (forall id :: id in d.caps ==> d.caps[id].registered == !d.caps[id].consumed)
    && (forall id :: id in d.caps ==> d.caps[id].key in d.issued)
    && (forall i, j :: i in d.caps && j in d.caps && d.caps[i].key == d.caps[j].key ==> i == j)
    && (forall id :: Lived(d, id))
  }

  lemma IssueKeeps(d: Descriptors, id: CapId, fd: int)
    requires Linear(d) && id !in d.caps && Issue(d, id, fd).Some?
    ensures Linear(Issue(d, id, fd).value)
  {
    var d' := Issue(d, id, fd).value;
    forall i
      ensures Lived(d', i)
    {
      assert Lived(d, i);
    }
  }

  /** Consuming `id` with the given closing events, whatever happens to the table. */
  lemma SpendKeeps(d: Descriptors, id: CapId, ending: seq<Event>, table: map<int, Key>)
    requires Linear(d) && id in d.caps && !d.caps[id].consumed && Finished(ending, id)
    ensures Linear(Descriptors(d.caps[id := Capability(-1, d.caps[id].key, false, true)], d.issued, table, d.log + ending))
  {
    var d' := Descriptors(d.caps[id := Capability(-1, d.caps[id].key, false, true)], d.issued, table, d.log + ending);
    forall i
      ensures Lived(d', i)
    {
      assert Lived(d, i);
      StoryAppend(d.log, ending, i);
      StoryOfOne(ending, id, i);
    }
  }

  lemma {:induction false} StoryOfOne(events: seq<Event>, id: CapId, i: CapId)
    requires forall k :: 0 <= k < |events| ==> events[k].cap == id
    ensures Story(events, i) == if i == id then events else []
  {
    if events != [] {
      var n := |events| - 1;
      StoryOfOne(events[..n], id, i);
      assert events == events[..n] + [events[n]];
    }
  }

  lemma DiscardKeeps(d: Descriptors, id: CapId)
    requires Linear(d)
    ensures Linear(Discard(d, id))
    ensures id in d.caps ==> id in Discard(d, id).caps && Discard(d, id).caps[id].consumed
  {
    if id in d.caps {
      assert Lived(d, id);
      if d.caps[id].consumed {
        assert Discard(d, id) == d;
      } else {
        SpendKeeps(d, id, [Shut(id)], d.table - {d.caps[id].fd});
        SpendKeeps(d, id, [Lost(id)], d.table);
      }
    }
  }

  lemma DecodeKeeps(env: Env, d: Descriptors, id: CapId, k: Readback)
    requires Linear(d)
    ensures Linear(DecodeCapability(env, d, id, k).0)
    ensures id in d.caps ==> id in DecodeCapability(env, d, id, k).0.caps && DecodeCapability(env, d, id, k).0.caps[id].consumed
  {
    hide DecodeReadback, SecondRead, FirstRead;
    if id in d.caps {
      var d' := DecodeCapability(env, d, id, k).0;
      if d.caps[id].consumed {
        assert d' == d;
      } else {
        SpendKeeps(d, id, [Lost(id)], d.table);
        var looks := if SecondRead(env, k) then [Read(id), Read(id)] else if FirstRead(k) then [Read(id)] else [];
        SpendKeeps(d, id, looks + [Shut(id)], d.table - {d.caps[id].fd});
        assert (d.log + looks) + [Shut(id)] == d.log + (looks + [Shut(id)]);
      }
    }
  }

  /** The one thing a take may leave open is a descriptor that no longer is the issued file. */
  lemma ClosedUnlessLost(d: Descriptors, id: CapId)
    requires Linear(d) && id in d.caps && !d.caps[id].consumed
    ensures Story(Discard(d, id).log, id) == [Shut(id)] <==>
            d.caps[id].fd in d.table && d.table[d.caps[id].fd] == d.caps[id].key
  {
    assert Lived(d, id);
    StoryAppend(d.log, [Shut(id)], id);
    StoryAppend(d.log, [Lost(id)], id);
    StoryOne(Shut(id), id);
    StoryOne(Lost(id), id);
  }

  /** Descriptor 3 was issued for one file and then reopened as another. */
  const Reopened := Descriptors(map[0 := Capability(3, (1, 1), true, false)], {(1, 1)}, map[3 := (2, 2)], [])

  /** Discarding that capability consumes it and leaves the descriptor open. */
  lemma ReopenedStaysOpen()
    ensures Linear(Reopened)
    ensures var d := Discard(Reopened, 0); d.caps[0].consumed && Story(d.log, 0) == [Lost(0)] && d.table == Reopened.table
  {
    StoryOne(Lost(0), 0);
    assert [] + [Lost(0)] == [Lost(0)];
  }

  lemma {:induction false} StoryNonempty(log: seq<Event>, id: CapId, i: nat)
    requires i < |log| && log[i].cap == id
    ensures Story(log, id) != []
  {
    if i < |log| - 1 {
      StoryNonempty(log[..|log| - 1], id, i);
    }
  }

  lemma StoryAround(log: seq<Event>, id: CapId, i: nat)
    requires i < |log| && log[i].cap == id
    ensures Story(log, id) == Story(log[..i], id) + [log[i]] + Story(log[i + 1..], id)
  {
    hide Story;
    StoryAppend(log[..i], [log[i]], id);
    StoryAppend(log[..i] + [log[i]], log[i + 1..], id);
    StoryOne(log[i], id);
    assert log == log[..i] + [log[i]] + log[i + 1..];
  }

  /** No event of a capability follows its close: never closed twice, never read after. */
  lemma NothingAfterClose(log: seq<Event>, id: CapId, i: nat, j: nat)
    requires i < j < |log| && log[i] == Shut(id) && log[j].cap == id
    ensures !Finished(Story(log, id), id)
  {
    StoryAround(log, id, i);
    StoryNonempty(log[i + 1..], id, j - i - 1);
    hide Story;
    var before := Story(log[..i], id);
    assert Story(log, id)[|before|] == Shut(id) && |before| < |Story(log, id)| - 1;
  }
}
