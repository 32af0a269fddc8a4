/** The two outcome types every component shares. */
module Core {
  datatype Option<+T> = None | Some(value: T)

  /** A call either returns a value or raises an error carrying only its stable code. */
  datatype Result<+T> = Ok(value: T) | Err(code: string)

  /** `dict.fromkeys`: the first occurrence of each word, in order. */
  function Dedup(words: seq<string>): seq<string> {
    if words == [] then []
    else
      var n := |words| - 1;
      if words[n] in words[..n] then Dedup(words[..n]) else Dedup(words[..n]) + [words[n]]
  }

  lemma SubsetSize<T>(a: set<T>, b: set<T>)
    requires a <= b
    ensures |a| <= |b|
  {
    assert b == a + (b - a);
  }

  /** The first element with the given key, as a search loop finds it. */
  function IndexBy<T(!new)>(key: T -> string, s: seq<T>, x: string): (r: Option<nat>)
    ensures r.Some? ==> r.value < |s| && key(s[r.value]) == x
    ensures r.None? ==> forall i :: 0 <= i < |s| ==> key(s[i]) != x
  {
    if s == [] then None
    else
      var before := IndexBy(key, s[..|s| - 1], x);
      if before.Some? then before
      else if key(s[|s| - 1]) == x then Some(|s| - 1)
      else None
  }

  lemma {:induction false} IndexFound<T(!new)>(key: T -> string, s: seq<T>, x: string, i: nat)
    requires i < |s| && key(s[i]) == x && IndexBy(key, s[..i], x) == None
    ensures IndexBy(key, s, x) == Some(i)
    decreases |s|
  {
    if i < |s| - 1 {
      assert s[..|s| - 1][..i] == s[..i];
      IndexFound(key, s[..|s| - 1], x, i);
    }
  }

  /** The search loop. */
  method SearchBy<T(!new)>(key: T -> string, s: seq<T>, x: string) returns (r: Option<nat>)
    ensures r == IndexBy(key, s, x)
  {
    for i := 0 to |s|
      invariant IndexBy(key, s[..i], x) == None
    {
      assert s[..i + 1][..i] == s[..i];
      if key(s[i]) == x {
        IndexFound(key, s, x, i);
        return Some(i);
      }
    }
    assert s[..|s|] == s;
    return None;
  }

  // ---- hexadecimal words, for names that must differ ----

  function HexDigit(d: nat): char
    requires d < 16
  {
    if d < 10 then ('0' as int + d) as char else ('a' as int + d - 10) as char
  }

  /** The n-digit hexadecimal form of k, leading digits dropped. */
  function Word(k: nat, n: nat): (w: string)
    ensures |w| == n
  {
    if n == 0 then "" else Word(k / 16, n - 1) + [HexDigit(k % 16)]
  }

  lemma HexApart(a: nat, b: nat)
    requires a < 16 && b < 16 && HexDigit(a) == HexDigit(b)
    ensures a == b
  {
  }

  function Pow16(n: nat): nat {
    if n == 0 then 1 else 16 * Pow16(n - 1)
  }

  /** Numbers that fit have different words. */
  lemma {:induction false} WordApart(j: nat, k: nat, n: nat)
    requires j < Pow16(n) && k < Pow16(n) && Word(j, n) == Word(k, n)
    ensures j == k
  {
    if n > 0 {
      LastDigits(j, k, n);
      hide Word;
      WordApart(j / 16, k / 16, n - 1);
    }
  }

  lemma {:induction false} PowAbove(n: nat)
    requires n >= 1
    ensures Pow16(n) >= 16 * n
  {
    if n > 1 {
      PowAbove(n - 1);
    }
  }

  lemma LastDigits(j: nat, k: nat, n: nat)
    requires n >= 1 && Word(j, n) == Word(k, n)
    ensures j % 16 == k % 16 && Word(j / 16, n - 1) == Word(k / 16, n - 1)
  {
    var a, b := Word(j, n), Word(k, n);
    assert a[n - 1] == HexDigit(j % 16) && b[n - 1] == HexDigit(k % 16);
    HexApart(j % 16, k % 16);
    assert a[..n - 1] == Word(j / 16, n - 1) && b[..n - 1] == Word(k / 16, n - 1);
  }
}
