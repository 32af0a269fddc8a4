/** Lists of records kept sorted by a unique reference, and the operations the registry uses on them. */
module Tables {
  import opened Core

  type Ref = string

  /** Lexicographic order on references. */
  predicate Less(a: Ref, b: Ref) {
    if a == "" then b != ""
    else b != "" && (a[0] < b[0] || (a[0] == b[0] && Less(a[1..], b[1..])))
  }

  lemma {:induction false} LessTotal(a: Ref, b: Ref)
    ensures Less(a, b) || a == b || Less(b, a)
    ensures !(Less(a, b) && Less(b, a)) && !Less(a, a)
  {
    if a != "" && b != "" {
      LessTotal(a[1..], b[1..]);
      assert a == [a[0]] + a[1..] && b == [b[0]] + b[1..];
    }
    if a != "" {
      LessTotal(a[1..], a[1..]);
    }
  }

  lemma {:induction false} LessTrans(a: Ref, b: Ref, c: Ref)
    requires Less(a, b) && Less(b, c)
    ensures Less(a, c)
  {
    if a != "" && a[0] == b[0] && b[0] == c[0] {
      LessTrans(a[1..], b[1..], c[1..]);
    }
  }

  predicate Unique<T(!new)>(key: T -> Ref, s: seq<T>) {
    forall i, j :: 0 <= i < j < |s| ==> key(s[i]) != key(s[j])
  }

  predicate Ascending<T(!new)>(key: T -> Ref, s: seq<T>) {
    forall i, j :: 0 <= i < j < |s| ==> Less(key(s[i]), key(s[j]))
  }

  function Insert<T(!new)>(key: T -> Ref, s: seq<T>, x: T): seq<T> {
    if s == [] || !Less(key(x), key(s[|s| - 1])) then s + [x]
    else Insert(key, s[..|s| - 1], x) + [s[|s| - 1]]
  }

  /** `list.sort` by reference. */
  function SortBy<T(!new)>(key: T -> Ref, s: seq<T>): seq<T> {
    if s == [] then [] else Insert(key, SortBy(key, s[..|s| - 1]), s[|s| - 1])
  }

  lemma {:induction false} InsertMembers<T(!new)>(key: T -> Ref, s: seq<T>, x: T)
    ensures |Insert(key, s, x)| == |s| + 1
    ensures forall y :: y in Insert(key, s, x) <==> y in s || y == x
  {
    if s != [] && Less(key(x), key(s[|s| - 1])) {
      InsertMembers(key, s[..|s| - 1], x);
      assert s == s[..|s| - 1] + [s[|s| - 1]];
    }
  }

  lemma {:induction false} SortMembers<T(!new)>(key: T -> Ref, s: seq<T>)
    ensures |SortBy(key, s)| == |s|
    ensures forall y :: y in SortBy(key, s) <==> y in s
  {
    if s != [] {
      SortMembers(key, s[..|s| - 1]);
      InsertMembers(key, SortBy(key, s[..|s| - 1]), s[|s| - 1]);
      assert s == s[..|s| - 1] + [s[|s| - 1]];
    }
  }

  lemma AppendAscending<T(!new)>(key: T -> Ref, s: seq<T>, x: T)
    requires Ascending(key, s) && forall y :: y in s ==> Less(key(y), key(x))
    ensures Ascending(key, s + [x])
  {
  }

  lemma InitLess<T(!new)>(key: T -> Ref, s: seq<T>)
    requires Ascending(key, s) && s != []
    ensures forall y :: y in s[..|s| - 1] ==> Less(key(y), key(s[|s| - 1]))
  {
    forall y | y in s[..|s| - 1]
      ensures Less(key(y), key(s[|s| - 1]))
    {
      var i :| 0 <= i < |s| - 1 && s[..|s| - 1][i] == y;
      assert s[i] == y;
    }
  }

  lemma InitDiffers<T(!new)>(key: T -> Ref, s: seq<T>)
    requires Unique(key, s) && s != []
    ensures Unique(key, s[..|s| - 1])
    ensures forall y :: y in s[..|s| - 1] ==> key(y) != key(s[|s| - 1])
  {
    forall y | y in s[..|s| - 1]
      ensures key(y) != key(s[|s| - 1])
    {
      var i :| 0 <= i < |s| - 1 && s[..|s| - 1][i] == y;
      assert s[i] == y;
    }
  }

  lemma {:induction false} InsertAscending<T(!new)>(key: T -> Ref, s: seq<T>, x: T)
    requires Ascending(key, s) && forall y :: y in s ==> key(y) != key(x)
    ensures Ascending(key, Insert(key, s, x))
  {
    if s != [] {
      var n := |s| - 1;
      LessTotal(key(x), key(s[n]));
      forall y | y in s
        ensures Less(key(y), key(s[n])) || y == s[n]
      {
      }
      if Less(key(x), key(s[n])) {
        InsertAscending(key, s[..n], x);
        InsertMembers(key, s[..n], x);
        InitLess(key, s);
        var below := Insert(key, s[..n], x);
        forall y | y in below
          ensures Less(key(y), key(s[n]))
        {
          assert y in s[..n] || y == x;
        }
        AppendAscending(key, below, s[n]);
      } else {
        forall y | y in s
          ensures Less(key(y), key(x))
        {
          if y != s[n] {
            LessTrans(key(y), key(s[n]), key(x));
          }
        }
        AppendAscending(key, s, x);
      }
    }
  }

  /** Sorting a list of distinct references puts it in strictly ascending order. */
  lemma {:induction false} SortAscending<T(!new)>(key: T -> Ref, s: seq<T>)
    requires Unique(key, s)
    ensures Ascending(key, SortBy(key, s))
  {
    if s != [] {
      var n := |s| - 1;
      InitDiffers(key, s);
      SortAscending(key, s[..n]);
      SortMembers(key, s[..n]);
      InsertAscending(key, SortBy(key, s[..n]), s[n]);
    }
  }

  /** Sorting changes nothing in a list already in order. */
  lemma {:induction false} SortFixed<T(!new)>(key: T -> Ref, s: seq<T>)
    requires Ascending(key, s)
    ensures SortBy(key, s) == s
  {
    if s != [] {
      var n := |s| - 1;
      SortFixed(key, s[..n]);
      if n > 0 {
        LessTotal(key(s[n]), key(s[n - 1]));
      }
      assert s == s[..n] + [s[n]];
    }
  }

  lemma AscendingUnique<T(!new)>(key: T -> Ref, s: seq<T>)
    requires Ascending(key, s)
    ensures Unique(key, s)
  {
    forall i, j | 0 <= i < j < |s|
      ensures key(s[i]) != key(s[j])
    {
      LessTotal(key(s[i]), key(s[j]));
    }
  }

  /** In a list of distinct references, a reference determines its record. */
  lemma SameRecord<T(!new)>(key: T -> Ref, s: seq<T>, x: T, y: T)
    requires Unique(key, s) && x in s && y in s && key(x) == key(y)
    ensures x == y
  {
  }

  lemma {:induction false} AscendingCanonical<T(!new)>(key: T -> Ref, s: seq<T>, t: seq<T>)
    requires Ascending(key, s) && Ascending(key, t) && (forall y :: y in s <==> y in t)
    ensures s == t
  {
    assert s != [] ==> s[0] in t;
    assert t != [] ==> t[0] in s;
    if s != [] {
      var m, n := |s| - 1, |t| - 1;
      LastIsGreatest(key, s, t[n]);
      LastIsGreatest(key, t, s[m]);
      LessTotal(key(s[m]), key(t[n]));
      assert s[m] == t[n];
      forall y
        ensures y in s[..m] <==> y in t[..n]
      {
        InitMembers(key, s, y);
        InitMembers(key, t, y);
      }
      AscendingCanonical(key, s[..m], t[..n]);
      assert s == s[..m] + [s[m]] && t == t[..n] + [t[n]];
    }
  }

  lemma LastIsGreatest<T(!new)>(key: T -> Ref, s: seq<T>, x: T)
    requires Ascending(key, s) && x in s
    ensures x == s[|s| - 1] || Less(key(x), key(s[|s| - 1]))
  {
  }

  lemma InitMembers<T(!new)>(key: T -> Ref, s: seq<T>, y: T)
    requires Ascending(key, s) && s != []
    ensures y in s[..|s| - 1] <==> y in s && y != s[|s| - 1]
  {
    AscendingUnique(key, s);
    var n := |s| - 1;
    assert s == s[..n] + [s[n]];
    if y in s[..n] {
      var i :| 0 <= i < n && s[i] == y;
      assert key(s[i]) != key(s[n]);
    }
  }

  // ---- filtering, replacing and looking up ----

  /** The records that satisfy a test, in order. */
  function Keep<T(!new)>(s: seq<T>, p: T -> bool): (r: seq<T>)
    ensures |r| <= |s|
  {
    if s == [] then []
    else if p(s[|s| - 1]) then Keep(s[..|s| - 1], p) + [s[|s| - 1]]
    else Keep(s[..|s| - 1], p)
  }

  lemma {:induction false} KeepMembers<T(!new)>(s: seq<T>, p: T -> bool)
    ensures forall y :: y in Keep(s, p) <==> y in s && p(y)
  {
    if s != [] {
      KeepMembers(s[..|s| - 1], p);
      assert s == s[..|s| - 1] + [s[|s| - 1]];
    }
  }

  lemma {:induction false} KeepAscending<T(!new)>(key: T -> Ref, s: seq<T>, p: T -> bool)
    requires Ascending(key, s)
    ensures Ascending(key, Keep(s, p))
  {
    if s != [] {
      var n := |s| - 1;
      KeepAscending(key, s[..n], p);
      KeepMembers(s[..n], p);
      if p(s[n]) {
        InitLess(key, s);
        AppendAscending(key, Keep(s[..n], p), s[n]);
      }
    }
  }

  function Without<T(!new)>(key: T -> Ref, s: seq<T>, ref: Ref): seq<T> {
    Keep(s, x => key(x) != ref)
  }

  lemma WithoutMembers<T(!new)>(key: T -> Ref, s: seq<T>, ref: Ref)
    ensures forall y :: y in Without(key, s, ref) <==> y in s && key(y) != ref
  {
    KeepMembers(s, x => key(x) != ref);
  }

  lemma WithoutAscending<T(!new)>(key: T -> Ref, s: seq<T>, ref: Ref)
    requires Ascending(key, s)
    ensures Ascending(key, Without(key, s, ref))
  {
    KeepAscending(key, s, x => key(x) != ref);
  }

  /** Replace or add the record of a reference, and sort. */
  function Put<T(!new)>(key: T -> Ref, s: seq<T>, x: T): seq<T> {
    SortBy(key, Without(key, s, key(x)) + [x])
  }

  lemma AppendUnique<T(!new)>(key: T -> Ref, s: seq<T>, x: T)
    requires Unique(key, s) && forall y :: y in s ==> key(y) != key(x)
    ensures Unique(key, s + [x])
  {
  }

  lemma PutMembers<T(!new)>(key: T -> Ref, s: seq<T>, x: T)
    requires Ascending(key, s)
    ensures Ascending(key, Put(key, s, x))
    ensures forall y :: y in Put(key, s, x) <==> y == x || (y in s && key(y) != key(x))
    ensures |Put(key, s, x)| <= |s| + 1
  {
    var rest := Without(key, s, key(x));
    WithoutMembers(key, s, key(x));
    WithoutAscending(key, s, key(x));
    AscendingUnique(key, rest);
    AppendUnique(key, rest, x);
    SortAscending(key, rest + [x]);
    SortMembers(key, rest + [x]);
  }

  /** The record of a reference; the first one, as `next(...)` takes it. */
  function Find<T(!new)>(key: T -> Ref, s: seq<T>, ref: Ref): (r: Option<T>)
    ensures r.Some? ==> r.value in s && key(r.value) == ref
    ensures r.None? ==> forall y :: y in s ==> key(y) != ref
  {
    if s == [] then None
    else if key(s[0]) == ref then Some(s[0])
    else Find(key, s[1..], ref)
  }

  predicate Has<T(!new)>(key: T -> Ref, s: seq<T>, ref: Ref) {
    exists i :: 0 <= i < |s| && key(s[i]) == ref
  }

}
