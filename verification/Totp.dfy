/** One-time codes: which counter a code matches, and the bounded list that refuses replays. */
module Totp {
  import opened Core

  const MAX_COUNTERS := 32

  /** The code of a counter under the verifier's secret, left uninterpreted (section 5.2 of RFC 6238). */
  type Codes = int -> string

  /** The counters tried for a code: the present one, then outwards, never below zero. */
  function Candidates(counter: nat, skew: nat): seq<int> {
    if skew == 0 then [counter]
    else
      Candidates(counter, skew - 1)
      + (if counter - skew >= 0 then [counter - skew] else [])
      + [counter + skew]
  }

  function FirstMatch(codes: Codes, candidates: seq<int>, code: string): Option<int> {
    if candidates == [] then None
    else if codes(candidates[0]) == code then Some(candidates[0])
    else FirstMatch(codes, candidates[1..], code)
  }

  function From(counters: seq<int>, floor: int): seq<int> {
    if counters == [] then []
    else
      var n := |counters| - 1;
      From(counters[..n], floor) + if counters[n] >= floor then [counters[n]] else []
  }

  function Insert(s: seq<int>, x: int): seq<int> {
    if s == [] || s[|s| - 1] <= x then s + [x] else Insert(s[..|s| - 1], x) + [s[|s| - 1]]
  }

  function Sorted(s: seq<int>): seq<int> {
    if s == [] then [] else Insert(Sorted(s[..|s| - 1]), s[|s| - 1])
  }

  function Newest(s: seq<int>): seq<int> {
    if |s| <= MAX_COUNTERS then s else s[|s| - MAX_COUNTERS..]
  }

  /** `_TotpReplayState.claim`. */
  function Claim(counters: seq<int>, counter: int, floor: int): Result<seq<int>> {
    var live := From(counters, floor);
    if counter in live then Err("authority.step_up_replayed") else Ok(Newest(Sorted(live + [counter])))
  }

  /** `verify`, at the counter the clock gives. */
  function Verify(codes: Codes, counters: seq<int>, counter: nat, skew: nat, code: string): Result<(seq<int>, int)> {
    var matched := FirstMatch(codes, Candidates(counter, skew), code);
    if matched.None? then Err("authority.step_up_invalid")
    else
      var after := Claim(counters, matched.value, counter - skew - 2);
      if after.Err? then Err(after.code) else Ok((after.value, matched.value))
  }

  // ---- lists of counters ----

  predicate Ascending(s: seq<int>) {
    forall i, j :: 0 <= i < j < |s| ==> s[i] < s[j]
  }

  lemma {:induction false} CandidatesNear(counter: nat, skew: nat)
    ensures forall c :: c in Candidates(counter, skew) ==> 0 <= c && counter - skew <= c <= counter + skew
  {
    if skew > 0 {
      CandidatesNear(counter, skew - 1);
    }
  }

  lemma {:induction false} MatchIsCandidate(codes: Codes, candidates: seq<int>, code: string)
    ensures FirstMatch(codes, candidates, code).Some? ==>
              FirstMatch(codes, candidates, code).value in candidates && codes(FirstMatch(codes, candidates, code).value) == code
  {
    if candidates != [] {
      MatchIsCandidate(codes, candidates[1..], code);
    }
  }

  lemma FrontBelow(s: seq<int>, front: seq<int>)
    requires Ascending(s) && s != [] && front == s[..|s| - 1]
    ensures Ascending(front) && forall c :: c in front ==> c < s[|s| - 1]
  {
    forall c | c in front
      ensures c < s[|s| - 1]
    {
      var i :| 0 <= i < |front| && front[i] == c;
      assert s[i] == c;
    }
  }

  lemma {:induction false} FromMembers(s: seq<int>, floor: int)
    ensures forall c :: c in From(s, floor) <==> c in s && c >= floor
    ensures Ascending(s) ==> Ascending(From(s, floor))
  {
    if s != [] {
      var n := |s| - 1;
      FromMembers(s[..n], floor);
      assert s == s[..n] + [s[n]];
      if Ascending(s) {
        FrontBelow(s, s[..n]);
        var front := From(s[..n], floor);
        assert forall i :: 0 <= i < |front| ==> front[i] in front;
      }
    }
  }

  lemma {:induction false} InsertMembers(s: seq<int>, x: int)
    ensures forall c :: c in Insert(s, x) <==> c in s || c == x
    ensures Ascending(s) && x !in s ==> Ascending(Insert(s, x))
  {
    if s != [] && s[|s| - 1] > x {
      var n := |s| - 1;
      InsertMembers(s[..n], x);
      assert s == s[..n] + [s[n]];
      if Ascending(s) && x !in s {
        FrontBelow(s, s[..n]);
        var front := Insert(s[..n], x);
        assert forall i :: 0 <= i < |front| ==> front[i] in front;
      }
    }
  }

  lemma InsertLast(front: seq<int>, last: int)
    requires forall c :: c in front ==> c < last
    ensures Insert(front, last) == front + [last]
  {
    assert front != [] ==> front[|front| - 1] in front;
  }

  lemma {:induction false} SortedFixed(s: seq<int>)
    requires Ascending(s)
    ensures Sorted(s) == s
  {
    hide Ascending, Insert;
    if s != [] {
      var front, last := s[..|s| - 1], s[|s| - 1];
      FrontBelow(s, front);
      SortedFixed(front);
      InsertLast(front, last);
      assert front + [last] == s;
    }
  }

  /** Distinct counters in a window are no more than its width. */
  lemma {:induction false} WindowSize(s: seq<int>, low: int, high: int)
    requires Ascending(s) && low <= high + 1 && forall c :: c in s ==> low <= c <= high
    ensures |s| <= high - low + 1
    decreases |s|
  {
    if s != [] {
      var n := |s| - 1;
      assert s[n] in s;
      forall c | c in s[..n]
        ensures low <= c <= s[n] - 1
      {
        var i :| 0 <= i < n && s[..n][i] == c;
        assert s[i] in s && s[i] < s[n];
      }
      WindowSize(s[..n], low, s[n] - 1);
    }
  }

  // ---- runs ----

  /** One verification by a verifier with its own skew, at the counter its clock gives. */
  datatype Op = Op(counter: nat, skew: nat, code: string)

  datatype World = World(counters: seq<int>, accepted: multiset<int>)

  const Init := World([], multiset{})

  function Step(codes: Codes, w: World, op: Op): World {
    var r := Verify(codes, w.counters, op.counter, op.skew, op.code);
    if r.Ok? then World(r.value.0, w.accepted + multiset{r.value.1}) else w
  }

  function Run(codes: Codes, ops: seq<Op>): World {
    if ops == [] then Init else Step(codes, Run(codes, ops[..|ops| - 1]), ops[|ops| - 1])
  }

  predicate Clocked(ops: seq<Op>, skew: nat) {
    && (forall i :: 0 <= i < |ops| ==> ops[i].skew <= skew)
    && (forall i, j :: 0 <= i < j < |ops| ==> ops[i].counter <= ops[j].counter)
  }

  /** Where the list stands once the clock has reached `now`. */
  ghost predicate Inv(w: World, now: int, skew: nat) {
    && Ascending(w.counters)
    && (forall c :: c in w.counters ==> 0 <= c <= now + skew && c in w.accepted)
    && (forall c :: c in w.accepted ==> w.accepted[c] == 1)
    && (forall c :: c in w.accepted && c !in w.counters ==> c < now - 2)
  }

  lemma ClaimWindow(counters: seq<int>, counter: int, floor: int, top: int)
    requires Ascending(counters) && floor <= counter <= top && top - floor < MAX_COUNTERS
    requires (forall c :: c in counters ==> c <= top) && Claim(counters, counter, floor).Ok?
    ensures var after := Claim(counters, counter, floor).value;
            Ascending(after) && |after| <= top - floor + 1 &&
            forall c :: c in after <==> c == counter || (c in counters && c >= floor)
  {
    hide From, Insert;
    var live := From(counters, floor);
    FromMembers(counters, floor);
    SortedFixed(live);
    assert (live + [counter])[..|live|] == live;
    InsertMembers(live, counter);
    WindowSize(Insert(live, counter), floor, top);
  }

  lemma StepKeeps(codes: Codes, w: World, op: Op, now: int, skew: nat)
    requires Inv(w, now, skew) && now <= op.counter && op.skew <= skew <= 2
    ensures Inv(Step(codes, w, op), op.counter, skew)
    ensures Verify(codes, w.counters, op.counter, op.skew, op.code).Ok? ==>
              var (after, matched) := Verify(codes, w.counters, op.counter, op.skew, op.code).value;
              matched !in w.accepted && codes(matched) == op.code && |after| <= 2 * skew + 3
  {
    hide Claim, FirstMatch, Candidates;
    var candidates := Candidates(op.counter, op.skew);
    var matched := FirstMatch(codes, candidates, op.code);
    var floor := op.counter - op.skew - 2;
    CandidatesNear(op.counter, op.skew);
    MatchIsCandidate(codes, candidates, op.code);
    if matched.Some? && Claim(w.counters, matched.value, floor).Ok? {
      ClaimWindow(w.counters, matched.value, floor, op.counter + skew);
      NotThere(w.counters, matched.value, floor);
      assert matched.value !in w.accepted;
    }
  }

  lemma NotThere(counters: seq<int>, counter: int, floor: int)
    requires Claim(counters, counter, floor).Ok? && counter >= floor
    ensures counter !in counters
  {
    FromMembers(counters, floor);
  }

  lemma {:induction false} RunKeeps(codes: Codes, ops: seq<Op>, skew: nat)
    requires Clocked(ops, skew) && skew <= 2
    ensures Inv(Run(codes, ops), if ops == [] then 0 else ops[|ops| - 1].counter, skew)
  {
    hide Step;
    if ops != [] {
      var front := ops[..|ops| - 1];
      RunKeeps(codes, front, skew);
      StepKeeps(codes, Run(codes, front), ops[|ops| - 1], if front == [] then 0 else front[|front| - 1].counter, skew);
    }
  }

  /**
   * Over every run of verifiers sharing the list, with clock readings that do not fall, each counter
   * is accepted at most once, although old counters are dropped and the list is cut.
   */
  lemma AcceptedOnce(codes: Codes, ops: seq<Op>, skew: nat, counter: int)
    requires Clocked(ops, skew) && skew <= 2
    ensures Run(codes, ops).accepted[counter] <= 1
  {
    RunKeeps(codes, ops, skew);
  }

  // ---- which codes are accepted ----

  /** A counter the skew allows. */
  predicate InWindow(c: int, counter: nat, skew: nat) {
    0 <= c && counter - skew <= c <= counter + skew
  }

  /** Nearer to the present counter, or as near and earlier. */
  predicate Precedes(a: int, b: int, counter: int) {
    var x, y := if a < counter then counter - a else a - counter, if b < counter then counter - b else b - counter;
    x < y || (x == y && a < b)
  }

  /** The candidates are exactly the window, nearest first. */
  lemma {:induction false} CandidatesExactly(counter: nat, skew: nat)
    ensures forall c :: c in Candidates(counter, skew) <==> InWindow(c, counter, skew)
    ensures forall i, j :: 0 <= i < j < |Candidates(counter, skew)| ==>
              Precedes(Candidates(counter, skew)[i], Candidates(counter, skew)[j], counter)
  {
    if skew > 0 {
      CandidatesExactly(counter, skew - 1);
      var inner := Candidates(counter, skew - 1);
      assert forall i :: 0 <= i < |inner| ==> inner[i] in inner;
    }
  }

  lemma {:induction false} FirstMatchIsFirst(codes: Codes, candidates: seq<int>, code: string)
    ensures match FirstMatch(codes, candidates, code)
            case None => forall i :: 0 <= i < |candidates| ==> codes(candidates[i]) != code
            case Some(m) => exists i :: 0 <= i < |candidates| && candidates[i] == m && codes(m) == code
                                        && forall j :: 0 <= j < i ==> codes(candidates[j]) != code
  {
    if candidates != [] && codes(candidates[0]) != code {
      FirstMatchIsFirst(codes, candidates[1..], code);
      var rest := FirstMatch(codes, candidates[1..], code);
      if rest.Some? {
        var i :| 0 <= i < |candidates[1..]| && candidates[1..][i] == rest.value && forall j :: 0 <= j < i ==> codes(candidates[1..][j]) != code;
        assert candidates[i + 1] == rest.value;
        assert forall j :: 1 <= j < i + 1 ==> candidates[j] == candidates[1..][j - 1];
      }
    }
  }

  /** The counter a code stands for: the nearest one of the window that has it. */
  ghost predicate StandsFor(codes: Codes, counter: nat, skew: nat, code: string, m: int) {
    && InWindow(m, counter, skew) && codes(m) == code
    && forall c :: InWindow(c, counter, skew) && codes(c) == code && c != m ==> Precedes(m, c, counter)
  }

  lemma MatchStandsFor(codes: Codes, counter: nat, skew: nat, code: string)
    ensures match FirstMatch(codes, Candidates(counter, skew), code)
            case None => forall c :: InWindow(c, counter, skew) ==> codes(c) != code
            case Some(m) => StandsFor(codes, counter, skew, code, m)
  {
    hide Candidates, FirstMatch, Precedes, InWindow;
    var candidates := Candidates(counter, skew);
    CandidatesExactly(counter, skew);
    FirstMatchIsFirst(codes, candidates, code);
    forall c | InWindow(c, counter, skew) ensures exists j :: 0 <= j < |candidates| && candidates[j] == c {
      assert c in candidates;
    }
    match FirstMatch(codes, candidates, code)
    case None =>
    case Some(m) =>
      var i :| 0 <= i < |candidates| && candidates[i] == m && forall j :: 0 <= j < i ==> codes(candidates[j]) != code;
      assert m in candidates;
      forall c | InWindow(c, counter, skew) && codes(c) == code && c != m ensures Precedes(m, c, counter) {
        var j :| 0 <= j < |candidates| && candidates[j] == c;
      }
  }

  lemma StandsForOne(codes: Codes, counter: nat, skew: nat, code: string, m: int, n: int)
    requires StandsFor(codes, counter, skew, code, m) && StandsFor(codes, counter, skew, code, n)
    ensures m == n
  {
  }

  lemma StandsInWindow(codes: Codes, counter: nat, skew: nat, code: string, m: int)
    requires StandsFor(codes, counter, skew, code, m)
    ensures InWindow(m, counter, skew) && codes(m) == code
  {
  }

  lemma VerifyUnknown(codes: Codes, w: World, op: Op)
    ensures Verify(codes, w.counters, op.counter, op.skew, op.code) == Err("authority.step_up_invalid")
            <==> forall c :: InWindow(c, op.counter, op.skew) ==> codes(c) != op.code
  {
    hide Candidates, FirstMatch, InWindow;
    MatchStandsFor(codes, op.counter, op.skew, op.code);
  }

  lemma VerifyKnown(codes: Codes, w: World, op: Op, now: int, skew: nat, m: int)
    requires Inv(w, now, skew) && now <= op.counter && op.skew <= skew <= 2 && StandsFor(codes, op.counter, op.skew, op.code, m)
    ensures var r := Verify(codes, w.counters, op.counter, op.skew, op.code);
            if m in w.accepted then r == Err("authority.step_up_replayed") else r.Ok? && r.value.1 == m
  {
    hide Candidates, FirstMatch, StandsFor, Newest, Sorted, Ascending, From;
    var floor := op.counter - op.skew - 2;
    var matched := FirstMatch(codes, Candidates(op.counter, op.skew), op.code);
    StandsInWindow(codes, op.counter, op.skew, op.code, m);
    MatchStandsFor(codes, op.counter, op.skew, op.code);
    StandsForOne(codes, op.counter, op.skew, op.code, matched.value, m);
    FromMembers(w.counters, floor);
    assert m in w.accepted <==> m in w.counters;
  }

  /**
   * After every run a code is accepted if and only if some counter of the window has it and the nearest
   * such counter was not accepted before; it is refused as a replay exactly if that one was.
   */
  lemma AcceptsExactly(codes: Codes, ops: seq<Op>, skew: nat, op: Op)
    requires Clocked(ops + [op], skew) && skew <= 2
    ensures var w := Run(codes, ops);
            var r := Verify(codes, w.counters, op.counter, op.skew, op.code);
            && (r == Err("authority.step_up_invalid") <==> forall c :: InWindow(c, op.counter, op.skew) ==> codes(c) != op.code)
            && (forall m :: StandsFor(codes, op.counter, op.skew, op.code, m) ==>
                  if m in w.accepted then r == Err("authority.step_up_replayed") else r.Ok? && r.value.1 == m)
  {
    var all := ops + [op];
    assert forall i :: 0 <= i < |ops| ==> all[i] == ops[i];
    assert all[|ops|] == op;
    assert Clocked(ops, skew);
    RunKeeps(codes, ops, skew);
    hide Run, Verify, StandsFor;
    forall m | StandsFor(codes, op.counter, op.skew, op.code, m)
      ensures var r := Verify(codes, Run(codes, ops).counters, op.counter, op.skew, op.code);
              if m in Run(codes, ops).accepted then r == Err("authority.step_up_replayed") else r.Ok? && r.value.1 == m
    {
      VerifyKnown(codes, Run(codes, ops), op, if ops == [] then 0 else ops[|ops| - 1].counter, skew, m);
    }
    VerifyUnknown(codes, Run(codes, ops), op);
  }

  /** Whatever ascending list is stored, a claim keeps at most the 32 newest of the live counters and its own. */
  lemma ClaimKeepsNewest(counters: seq<int>, counter: int, floor: int)
    requires Ascending(counters) && Claim(counters, counter, floor).Ok?
    ensures var after := Claim(counters, counter, floor).value;
            && Ascending(after) && |after| <= 32
            && (forall c :: c in after ==> c == counter || (c in counters && floor <= c))
            && (forall c, x :: (c == counter || (c in counters && floor <= c)) && c !in after && x in after ==> c < x)
  {
    hide From, Insert;
    var live := From(counters, floor);
    FromMembers(counters, floor);
    SortedFixed(live);
    assert (live + [counter])[..|live|] == live;
    InsertMembers(live, counter);
    var all := Insert(live, counter);
    assert Sorted(live + [counter]) == all;
    NewestMembers(all);
  }

  /** A claim is a replay exactly of a stored counter that is not below the floor. */
  lemma ClaimRefusedExactly(counters: seq<int>, counter: int, floor: int)
    ensures Claim(counters, counter, floor).Err? <==> counter in counters && floor <= counter
  {
    hide Sorted;
    FromMembers(counters, floor);
  }

  lemma NewestMembers(s: seq<int>)
    requires Ascending(s)
    ensures Ascending(Newest(s)) && |Newest(s)| <= 32
    ensures forall c :: c in Newest(s) ==> c in s
    ensures forall c, x :: c in s && c !in Newest(s) && x in Newest(s) ==> c < x
  {
    var t := Newest(s);
    if |s| > MAX_COUNTERS {
      var k := |s| - MAX_COUNTERS;
      assert forall j :: 0 <= j < |t| ==> t[j] == s[k + j];
      forall c, x | c in s && c !in t && x in t ensures c < x {
        var i :| 0 <= i < |s| && s[i] == c;
        var j :| 0 <= j < |t| && t[j] == x;
        assert i < k;
      }
    }
  }

  /** The list never holds more than the live window, so the cut to 32 never drops a live counter. */
  lemma {:induction false} ListStaysShort(codes: Codes, ops: seq<Op>, skew: nat)
    requires Clocked(ops, skew) && skew <= 2
    ensures |Run(codes, ops).counters| <= 2 * skew + 3
  {
    if ops != [] {
      var front := ops[..|ops| - 1];
      ListStaysShort(codes, front, skew);
      RunKeeps(codes, front, skew);
      StepKeeps(codes, Run(codes, front), ops[|ops| - 1], if front == [] then 0 else front[|front| - 1].counter, skew);
    }
  }
}

/** The stored counter list as the verifier updates it. */
module TotpReplay {
  import opened Core
  import Totp

  class TotpReplayState {
    var counters: seq<int>

    constructor ()
      ensures counters == []
    {
      counters := [];
    }

    method Claim(counter: int, floor: int) returns (ok: bool)
      modifies this
      ensures ok <==> Totp.Claim(old(counters), counter, floor).Ok?
      ensures counters == if ok then Totp.Claim(old(counters), counter, floor).value else old(counters)
    {
      var live: seq<int> := [];
      for i := 0 to |counters|
        invariant counters == old(counters)
        invariant live == Totp.From(counters[..i], floor)
      {
        assert counters[..i + 1][..i] == counters[..i];
        if counters[i] >= floor {
          live := live + [counters[i]];
        }
      }
      assert counters[..|counters|] == counters;
      if counter in live {
        return false;
      }
      live := live + [counter];
      counters := Totp.Newest(Totp.Sorted(live));
      return true;
    }
  }
}
