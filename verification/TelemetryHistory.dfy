/** The bounded telemetry journal: newest records by time and key, within a retention window. */
module TelemetryHistory {
  import opened Core
  import Tables

  datatype Event = Event(time: int, key: string, body: string)
  datatype Config = Config(maxRecords: nat, retention: nat)
  datatype Journal = Journal(generation: int, records: seq<Event>)

  predicate Before(a: Event, b: Event) {
    a.time < b.time || (a.time == b.time && Tables.Less(a.key, b.key))
  }

  lemma BeforeTotal(a: Event, b: Event)
    ensures Before(a, b) || Before(b, a) || (a.time == b.time && a.key == b.key)
    ensures !(Before(a, b) && Before(b, a)) && !Before(a, a)
  {
    Tables.LessTotal(a.key, b.key);
    Tables.LessTotal(a.key, a.key);
  }

  lemma BeforeTrans(a: Event, b: Event, c: Event)
    requires Before(a, b) && Before(b, c)
    ensures Before(a, c)
  {
    if a.time == b.time == c.time {
      Tables.LessTrans(a.key, b.key, c.key);
    }
  }

  predicate Ascending(s: seq<Event>) {
    forall i, j :: 0 <= i < j < |s| ==> Before(s[i], s[j])
  }

  function Insert(s: seq<Event>, x: Event): seq<Event> {
    if s == [] || !Before(x, s[|s| - 1]) then s + [x] else Insert(s[..|s| - 1], x) + [s[|s| - 1]]
  }

  /** `_sorted`. */
  function Sorted(s: seq<Event>): seq<Event> {
    if s == [] then [] else Insert(Sorted(s[..|s| - 1]), s[|s| - 1])
  }

  function Since(s: seq<Event>, cutoff: int): seq<Event> {
    if s == [] then []
    else Since(s[..|s| - 1], cutoff) + if s[|s| - 1].time >= cutoff then [s[|s| - 1]] else []
  }

  /** `records[-n:]` for positive n. */
  function Last(s: seq<Event>, n: nat): seq<Event> {
    if |s| <= n then s else s[|s| - n..]
  }

  predicate HasKey(s: seq<Event>, key: string) {
    exists i :: 0 <= i < |s| && s[i].key == key
  }

  function Add(s: seq<Event>, e: Event, cutoff: int): seq<Event> {
    if !HasKey(s, e.key) && e.time >= cutoff then s + [e] else s
  }

  /** `append`; an unchanged journal is not written. */
  function Append(c: Config, j: Journal, e: Event, now: int): Result<Journal> {
    if e.time > now then Err("future_history_record")
    else
      var cutoff := now - c.retention;
      var live := Since(j.records, cutoff);
      if exists i :: 0 <= i < |live| && live[i].key == e.key && live[i] != e then Err("idempotency_conflict")
      else
        var records := Last(Sorted(Add(live, e, cutoff)), c.maxRecords);
        Ok(if records != j.records then Journal(j.generation + 1, records) else j)
  }

  function Read(c: Config, j: Journal, now: int): Journal {
    var live := Since(j.records, now - c.retention);
    if live != j.records then Journal(j.generation + 1, live) else j
  }

  // ---- the reference ----

  /** The list holds the newest n of a set, in order: what it leaves out is older, and only for lack of room. */
  ghost predicate Newest(s: seq<Event>, all: set<Event>, n: nat) {
    && Ascending(s)
    && |s| <= n
    && (forall e :: e in s ==> e in all)
    && (forall e :: e in all && e !in s ==> |s| == n && forall x :: x in s ==> Before(e, x))
  }

  /** At most one list is the newest n of a set. */
  lemma NewestUnique(s: seq<Event>, t: seq<Event>, all: set<Event>, n: nat)
    requires Newest(s, all, n) && Newest(t, all, n)
    ensures s == t
  {
    forall e
      ensures e in s <==> e in t
    {
      if e in s {
        NoExtra(s, t, all, n, e);
      }
      if e in t {
        NoExtra(t, s, all, n, e);
      }
    }
    Canonical(s, t);
  }

  lemma NoExtra(s: seq<Event>, t: seq<Event>, all: set<Event>, n: nat, e: Event)
    requires Newest(s, all, n) && Newest(t, all, n) && e in s
    ensures e in t
  {
    var a, b := set x | x in s, set x | x in t;
    Size(s);
    Size(t);
    assert e in a;
    if e !in t {
      if b <= a {
        Smaller(b, a);
      } else {
        var x :| x in b && x !in a;
        BeforeTotal(e, x);
      }
    }
  }

  lemma Smaller(b: set<Event>, a: set<Event>)
    requires b < a
    ensures |b| < |a|
  {
    assert a == b + (a - b);
  }

  lemma {:induction false} Size(s: seq<Event>)
    requires Ascending(s)
    ensures |set x | x in s| == |s|
  {
    var all := set x | x in s;
    if s == [] {
      assert all == {};
    } else {
      var n := |s| - 1;
      Size(s[..n]);
      LastAbove(s);
      assert s == s[..n] + [s[n]];
      assert all == (set x | x in s[..n]) + {s[n]};
    }
  }

  /** Every event of the list comes before x. */
  ghost predicate Above(s: seq<Event>, x: Event) {
    forall y :: y in s ==> Before(y, x)
  }

  lemma LastAbove(s: seq<Event>)
    requires Ascending(s) && s != []
    ensures Ascending(s[..|s| - 1]) && Above(s[..|s| - 1], s[|s| - 1])
    ensures forall y :: y in s[..|s| - 1] <==> y in s && y != s[|s| - 1]
  {
    var n := |s| - 1;
    var front := s[..n];
    assert s == front + [s[n]];
    forall y | y in front
      ensures Before(y, s[n]) && y != s[n]
    {
      var i :| 0 <= i < n && front[i] == y;
      assert Before(s[i], s[n]);
      BeforeTotal(y, y);
    }
  }

  lemma FrontMember(s: seq<Event>, z: Event)
    requires Ascending(s) && s != []
    ensures z in s[..|s| - 1] <==> z in s && z != s[|s| - 1]
  {
    LastAbove(s);
  }

  lemma SameLast(s: seq<Event>, t: seq<Event>)
    requires Ascending(s) && Ascending(t) && s != [] && t != [] && forall x :: x in s <==> x in t
    ensures s[|s| - 1] == t[|t| - 1]
  {
    var x, y := s[|s| - 1], t[|t| - 1];
    assert x in t && y in s;
    var i :| 0 <= i < |s| && s[i] == y;
    var j :| 0 <= j < |t| && t[j] == x;
    BeforeTotal(x, y);
  }

  lemma {:induction false} Canonical(s: seq<Event>, t: seq<Event>)
    requires Ascending(s) && Ascending(t) && forall x :: x in s <==> x in t
    ensures s == t
  {
    assert s != [] ==> s[0] in t;
    assert t != [] ==> t[0] in s;
    if s != [] {
      var m, n := |s| - 1, |t| - 1;
      var x, y := s[m], t[n];
      SameLast(s, t);
      forall z
        ensures z in s[..m] <==> z in t[..n]
      {
        FrontMember(s, z);
        FrontMember(t, z);
      }
      Canonical(s[..m], t[..n]);
      assert s == s[..m] + [x] && t == t[..n] + [y];
    }
  }

  // ---- the operations on lists ----

  lemma {:induction false} SinceMembers(s: seq<Event>, cutoff: int)
    ensures forall e :: e in Since(s, cutoff) <==> e in s && e.time >= cutoff
    ensures |Since(s, cutoff)| <= |s|
  {
    if s != [] {
      var n := |s| - 1;
      SinceMembers(s[..n], cutoff);
      assert s == s[..n] + [s[n]];
    }
  }

  lemma {:induction false} SinceAscending(s: seq<Event>, cutoff: int)
    requires Ascending(s)
    ensures Ascending(Since(s, cutoff))
  {
    if s != [] {
      var n := |s| - 1;
      LastAbove(s);
      SinceAscending(s[..n], cutoff);
      SinceMembers(s[..n], cutoff);
      AppendAscending(Since(s[..n], cutoff), s[n]);
    }
  }

  lemma {:induction false} SinceAll(s: seq<Event>, cutoff: int)
    requires forall e :: e in s ==> e.time >= cutoff
    ensures Since(s, cutoff) == s
  {
    if s != [] {
      var n := |s| - 1;
      SinceAll(s[..n], cutoff);
      assert s == s[..n] + [s[n]];
    }
  }

  lemma {:induction false} InsertMembers(s: seq<Event>, x: Event)
    ensures |Insert(s, x)| == |s| + 1
    ensures forall y :: y in Insert(s, x) <==> y in s || y == x
  {
    if s != [] && Before(x, s[|s| - 1]) {
      InsertMembers(s[..|s| - 1], x);
      assert s == s[..|s| - 1] + [s[|s| - 1]];
    }
  }

  lemma AppendAscending(s: seq<Event>, x: Event)
    requires Ascending(s) && forall y :: y in s ==> Before(y, x)
    ensures Ascending(s + [x])
  {
  }

  lemma {:induction false} InsertAscending(s: seq<Event>, x: Event)
    requires Ascending(s) && forall y :: y in s ==> y.key != x.key
    ensures Ascending(Insert(s, x))
  {
    if s == [] || !Before(x, s[|s| - 1]) {
      forall y | y in s
        ensures Before(y, x)
      {
        LastAbove(s);
        assert s == s[..|s| - 1] + [s[|s| - 1]];
        BeforeTotal(x, s[|s| - 1]);
        if y != s[|s| - 1] {
          BeforeTrans(y, s[|s| - 1], x);
        }
      }
      AppendAscending(s, x);
    } else {
      var n := |s| - 1;
      LastAbove(s);
      InsertAscending(s[..n], x);
      InsertMembers(s[..n], x);
      AppendAscending(Insert(s[..n], x), s[n]);
    }
  }

  lemma {:induction false} SortedFixed(s: seq<Event>)
    requires Ascending(s)
    ensures Sorted(s) == s
  {
    if s != [] {
      var n := |s| - 1;
      SortedFixed(s[..n]);
      if n > 0 {
        BeforeTotal(s[n], s[n - 1]);
      }
      assert s == s[..n] + [s[n]];
    }
  }

  /** Sorting a journal with one new event: the same events in order. */
  lemma SortedAdd(s: seq<Event>, e: Event, cutoff: int)
    requires Ascending(s)
    ensures var t := Sorted(Add(s, e, cutoff));
            Ascending(t) && |t| == |Add(s, e, cutoff)| &&
            forall y :: y in t <==> y in s || (y == e && !HasKey(s, e.key) && e.time >= cutoff)
  {
    SortedFixed(s);
    if !HasKey(s, e.key) && e.time >= cutoff {
      assert (s + [e])[..|s|] == s;
      InsertMembers(s, e);
      InsertAscending(s, e);
    }
  }

  lemma LastMembers(s: seq<Event>, n: nat)
    requires Ascending(s)
    ensures var t := Last(s, n);
            Ascending(t) && |t| == (if |s| <= n then |s| else n) && (forall e :: e in t ==> e in s) &&
            forall e, x :: e in s && e !in t && x in t ==> Before(e, x)
  {
    var t := Last(s, n);
    if |s| > n {
      var k := |s| - n;
      assert s == s[..k] + t;
      forall e, x | e in s && e !in t && x in t
        ensures Before(e, x)
      {
        assert e in s[..k];
        var i :| 0 <= i < k && s[i] == e;
        var j :| 0 <= j < n && t[j] == x;
        assert s[k + j] == x;
      }
    }
  }

  // ---- each call keeps the newest ----

  function Live(all: set<Event>, cutoff: int): set<Event> {
    set e | e in all && e.time >= cutoff
  }

  ghost predicate KeysDetermine(all: set<Event>) {
    forall a, b :: a in all && b in all && a.key == b.key ==> a == b
  }

  /** Raising the cutoff keeps the list the newest of what is left. */
  lemma SinceNewest(s: seq<Event>, all: set<Event>, n: nat, earlier: int, cutoff: int)
    requires Newest(s, Live(all, earlier), n) && earlier <= cutoff
    ensures Newest(Since(s, cutoff), Live(all, cutoff), n)
  {
    var t := Since(s, cutoff);
    SinceMembers(s, cutoff);
    SinceAscending(s, cutoff);
    forall e | e in Live(all, cutoff) && e !in t
      ensures |t| == n && forall x :: x in t ==> Before(e, x)
    {
      assert e in Live(all, earlier) && e !in s;
      assert forall x :: x in s ==> Before(e, x);
      SinceAll(s, cutoff);
    }
  }

  /** Adding one event keeps the list the newest, whether there is room for it or not. */
  lemma AddNewest(s: seq<Event>, all: set<Event>, n: nat, cutoff: int, e: Event)
    requires Newest(s, Live(all, cutoff), n) && KeysDetermine(all + {e})
    ensures Newest(Last(Sorted(Add(s, e, cutoff)), n), Live(all + {e}, cutoff), n)
  {
    hide Sorted, Last;
    var added := Sorted(Add(s, e, cutoff));
    var t := Last(added, n);
    SortedAdd(s, e, cutoff);
    LastMembers(added, n);
    forall x | x in Live(all + {e}, cutoff) && x !in t
      ensures |t| == n && forall y :: y in t ==> Before(x, y)
    {
      LeftOut(s, all, n, cutoff, e, added, t, x);
    }
  }

  lemma KeyMeansPresent(s: seq<Event>, all: set<Event>, e: Event)
    requires KeysDetermine(all + {e}) && forall x :: x in s ==> x in all
    ensures HasKey(s, e.key) ==> e in s
  {
    if HasKey(s, e.key) {
      var i :| 0 <= i < |s| && s[i].key == e.key;
      assert s[i] in s && s[i] in all + {e} && e in all + {e};
    }
  }

  lemma LeftOut(s: seq<Event>, all: set<Event>, n: nat, cutoff: int, e: Event, added: seq<Event>, t: seq<Event>, x: Event)
    requires Newest(s, Live(all, cutoff), n) && KeysDetermine(all + {e})
    requires Ascending(added) && |added| == |Add(s, e, cutoff)|
    requires forall y :: y in added <==> y in s || (y == e && !HasKey(s, e.key) && e.time >= cutoff)
    requires t == Last(added, n) && |t| == (if |added| <= n then |added| else n)
    requires forall a, y :: a in added && a !in t && y in t ==> Before(a, y)
    requires x in Live(all + {e}, cutoff) && x !in t
    ensures |t| == n && forall y :: y in t ==> Before(x, y)
  {
    KeyMeansPresent(s, all, e);
    if x !in added {
      assert x in Live(all, cutoff) && x !in s;
      assert |s| == n && forall y :: y in s ==> Before(x, y);
      forall y | y in t
        ensures Before(x, y)
      {
        NotOlder(s, e, cutoff, added, t, n, x, y);
      }
    }
  }

  /** An event already left out is older than a new one that finds room. */
  lemma NotOlder(s: seq<Event>, e: Event, cutoff: int, added: seq<Event>, t: seq<Event>, n: nat, x: Event, y: Event)
    requires |s| == n && forall z :: z in s ==> Before(x, z)
    requires Ascending(added) && |added| == |Add(s, e, cutoff)|
    requires forall z :: z in added <==> z in s || (z == e && !HasKey(s, e.key) && e.time >= cutoff)
    requires t == Last(added, n) && y in t
    requires forall a, z :: a in added && a !in t && z in t ==> Before(a, z)
    ensures Before(x, y)
  {
    assert y in added;
    if y !in s {
      assert |added| == n + 1 && t == added[1..];
      var a := added[0];
      assert a !in t by {
        forall i | 0 <= i < |t|
          ensures t[i] != a
        {
          BeforeTotal(a, t[i]);
          assert Before(added[0], added[i + 1]);
        }
      }
      assert a in added && a != y;
      assert a in s;
      BeforeTrans(x, a, y);
    }
  }

  // ---- runs ----

  datatype Op = DoAppend(event: Event, now: int) | DoRead(now: int)

  function Step(c: Config, j: Journal, op: Op): Journal {
    match op
    case DoAppend(e, now) => var r := Append(c, j, e, now); if r.Ok? then r.value else j
    case DoRead(now) => Read(c, j, now)
  }

  function Run(c: Config, ops: seq<Op>): Journal {
    if ops == [] then Journal(0, []) else Step(c, Run(c, ops[..|ops| - 1]), ops[|ops| - 1])
  }

  /** The events of the append calls so far that were not in the future. */
  function Appended(ops: seq<Op>): set<Event> {
    set i | 0 <= i < |ops| && ops[i].DoAppend? && ops[i].event.time <= ops[i].now :: ops[i].event
  }

  /** The clock of the calls that touch the journal does not run backwards. */
  predicate Clocked(ops: seq<Op>) {
    forall i, j :: 0 <= i < j < |ops| ==> ops[i].now <= ops[j].now
  }

  lemma AppendedLast(ops: seq<Op>)
    requires ops != []
    ensures var last := ops[|ops| - 1];
            Appended(ops) == Appended(ops[..|ops| - 1]) +
                             if last.DoAppend? && last.event.time <= last.now then {last.event} else {}
  {
    var n := |ops| - 1;
    assert forall i :: 0 <= i < n ==> ops[..n][i] == ops[i];
    forall e | e in Appended(ops) && e !in Appended(ops[..n])
      ensures ops[n].DoAppend? && e == ops[n].event && e.time <= ops[n].now
    {
      var i :| 0 <= i < |ops| && ops[i].DoAppend? && ops[i].event.time <= ops[i].now && ops[i].event == e;
    }
    forall e | e in Appended(ops[..n])
      ensures e in Appended(ops)
    {
      var i :| 0 <= i < n && ops[..n][i].DoAppend? && ops[..n][i].event.time <= ops[..n][i].now && ops[..n][i].event == e;
      assert ops[i] == ops[..n][i];
    }
  }

  lemma StepNewest(c: Config, j: Journal, op: Op, all: set<Event>, cutoff: int)
    requires Newest(j.records, Live(all, cutoff), c.maxRecords) && cutoff <= op.now - c.retention
    requires KeysDetermine(all + if op.DoAppend? then {op.event} else {})
    requires op.DoAppend? ==> op.event.time <= op.now
    ensures Newest(Step(c, j, op).records, Live(all + (if op.DoAppend? then {op.event} else {}), op.now - c.retention), c.maxRecords)
  {
    hide Newest, Sorted, Last, Since, Add;
    var at := op.now - c.retention;
    SinceNewest(j.records, all, c.maxRecords, cutoff, at);
    var live := Since(j.records, at);
    if op.DoAppend? {
      AddNewest(live, all, c.maxRecords, at, op.event);
      NoConflict(j, all, c.maxRecords, cutoff, at, op.event);
    } else {
      assert all + {} == all;
    }
  }

  lemma NoConflict(j: Journal, all: set<Event>, n: nat, cutoff: int, at: int, e: Event)
    requires Newest(j.records, Live(all, cutoff), n) && KeysDetermine(all + {e})
    ensures forall i :: 0 <= i < |Since(j.records, at)| && Since(j.records, at)[i].key == e.key ==> Since(j.records, at)[i] == e
  {
    SinceMembers(j.records, at);
    forall i | 0 <= i < |Since(j.records, at)| && Since(j.records, at)[i].key == e.key
      ensures Since(j.records, at)[i] == e
    {
      assert Since(j.records, at)[i] in j.records;
    }
  }

  /** A call that is not refused at once for an event in the future. */
  predicate Reaches(op: Op) {
    op.DoAppend? ==> op.event.time <= op.now
  }

  /** The retention cutoff of the last call that reached the journal. */
  function Cutoff(c: Config, ops: seq<Op>): Option<int> {
    if ops == [] then None
    else if Reaches(ops[|ops| - 1]) then Some(ops[|ops| - 1].now - c.retention)
    else Cutoff(c, ops[..|ops| - 1])
  }

  lemma {:induction false} CutoffBelow(c: Config, ops: seq<Op>, now: int)
    requires Cutoff(c, ops).Some? && forall i :: 0 <= i < |ops| ==> ops[i].now <= now
    ensures Cutoff(c, ops).value <= now - c.retention
  {
    if !Reaches(ops[|ops| - 1]) {
      CutoffBelow(c, ops[..|ops| - 1], now);
    }
  }

  /**
   * Whatever the order of the appends and however reads come between, the journal is the newest
   * `maxRecords`, by time and key, of all events ever appended that are still within retention.
   */
  lemma {:induction false} JournalIsNewest(c: Config, ops: seq<Op>)
    requires Clocked(ops) && KeysDetermine(Appended(ops))
    ensures Cutoff(c, ops).None? ==> Run(c, ops).records == [] && Appended(ops) == {}
    ensures Cutoff(c, ops).Some? ==> Newest(Run(c, ops).records, Live(Appended(ops), Cutoff(c, ops).value), c.maxRecords)
  {
    hide Newest, Append, Read;
    if ops != [] {
      var n := |ops| - 1;
      var front, last := ops[..n], ops[n];
      AppendedLast(ops);
      JournalIsNewest(c, front);
      if Reaches(last) {
        var at := last.now - c.retention;
        if Cutoff(c, front).None? {
          NothingIsNewest(at, c.maxRecords);
          StepNewest(c, Run(c, front), last, {}, at);
        } else {
          CutoffBelow(c, front, last.now);
          StepNewest(c, Run(c, front), last, Appended(front), Cutoff(c, front).value);
        }
      } else {
        Refused(c, Run(c, front), last);
        assert Appended(front) + {} == Appended(front);
      }
    }
  }

  lemma NothingIsNewest(cutoff: int, n: nat)
    ensures Newest([], Live({}, cutoff), n)
  {
  }

  lemma Refused(c: Config, j: Journal, op: Op)
    requires !Reaches(op)
    ensures Step(c, j, op) == j
  {
  }

  // ---- refusals, and what holds whatever is appended ----

  /**
   * An append is refused exactly for an event in the future, or for one whose key a retained event
   * has with other contents; nothing else refuses it.
   */
  lemma AppendRefusedExactly(c: Config, j: Journal, e: Event, now: int)
    ensures Append(c, j, e, now) == Err("future_history_record") <==> now < e.time
    ensures Append(c, j, e, now) == Err("idempotency_conflict") <==>
            e.time <= now && exists x :: x in j.records && now - c.retention <= x.time && x.key == e.key && x != e
    ensures Append(c, j, e, now).Err? ==> Append(c, j, e, now).code in {"future_history_record", "idempotency_conflict"}
  {
    hide Sorted, Last, Add;
    SinceMembers(j.records, now - c.retention);
    var live := Since(j.records, now - c.retention);
    if x :| x in j.records && now - c.retention <= x.time && x.key == e.key && x != e {
      assert x in live;
    }
    assert forall i :: 0 <= i < |live| ==> live[i] in live;
  }

  /** In order, one event per key, and no more than the configured number. */
  ghost predicate Tidy(s: seq<Event>, n: nat) {
    Ascending(s) && |s| <= n && forall x, y :: x in s && y in s && x.key == y.key ==> x == y
  }

  lemma AddTidy(s: seq<Event>, n: nat, e: Event, cutoff: int)
    requires Tidy(s, n)
    ensures var t := Last(Sorted(Add(s, e, cutoff)), n); Tidy(t, n) && forall x :: x in t ==> x in s || x == e
  {
    hide Sorted, Last, Ascending, Add;
    var added := Sorted(Add(s, e, cutoff));
    SortedAdd(s, e, cutoff);
    LastMembers(added, n);
    forall x | x in s && x.key == e.key ensures HasKey(s, e.key) {
      var i :| 0 <= i < |s| && s[i] == x;
    }
  }

  lemma SinceTidy(s: seq<Event>, n: nat, cutoff: int)
    requires Tidy(s, n)
    ensures Tidy(Since(s, cutoff), n) && forall x :: x in Since(s, cutoff) ==> x in s
  {
    SinceMembers(s, cutoff);
    SinceAscending(s, cutoff);
    SinceShorter(s, cutoff);
  }

  lemma {:induction false} SinceShorter(s: seq<Event>, cutoff: int)
    ensures |Since(s, cutoff)| <= |s|
  {
    if s != [] {
      SinceShorter(s[..|s| - 1], cutoff);
    }
  }

  lemma StepTidy(c: Config, j: Journal, op: Op)
    requires Tidy(j.records, c.maxRecords)
    ensures Tidy(Step(c, j, op).records, c.maxRecords)
    ensures forall x :: x in Step(c, j, op).records ==> x in j.records || (op.DoAppend? && op.event.time <= op.now && x == op.event)
  {
    hide Since, Sorted, Last, Add, Tidy;
    var cutoff := op.now - c.retention;
    SinceTidy(j.records, c.maxRecords, cutoff);
    if op.DoAppend? {
      AddTidy(Since(j.records, cutoff), c.maxRecords, op.event, cutoff);
    }
  }

  /** Whatever is appended under whatever clocks, the journal is in order, has one event per key, and only appended ones. */
  lemma {:induction false} JournalIsTidy(c: Config, ops: seq<Op>)
    ensures Tidy(Run(c, ops).records, c.maxRecords)
    ensures forall x :: x in Run(c, ops).records ==> x in Appended(ops)
  {
    hide Step, Tidy;
    if ops == [] {
      EmptyTidy(c.maxRecords);
    } else {
      JournalIsTidy(c, ops[..|ops| - 1]);
      AppendedLast(ops);
      StepTidy(c, Run(c, ops[..|ops| - 1]), ops[|ops| - 1]);
    }
  }

  lemma EmptyTidy(n: nat)
    ensures Tidy([], n)
  {
  }

  /** The generation counts the changes: it rises by one with the records, and only with them. */
  lemma GenerationCounts(c: Config, j: Journal, op: Op)
    ensures Step(c, j, op).generation == if Step(c, j, op).records != j.records then j.generation + 1 else j.generation
  {
    hide Since, Sorted, Last, Add;
  }
}
