/** Repository-relative scope paths and when two of them overlap. */
module ScopePaths {

  /** `left.startswith(right + "/")` and its mirror image, or equality. */
  predicate Overlap(left: string, right: string) {
    left == right || right + "/" <= left || left + "/" <= right
  }

  /** `path.split("/")`. */
  function Split(path: string): (parts: seq<string>)
    ensures |parts| >= 1
  {
    if path == "" then [""]
    else
      var rest := Split(path[1..]);
      if path[0] == '/' then [""] + rest else [[path[0]] + rest[0]] + rest[1..]
  }

  /** A location of the repository, as its list of components, lies at or under a scope path. */
  predicate Covers(scope: string, location: seq<string>) {
    Split(scope) <= location
  }

  /** Joining the components again gives the path back, so splitting is injective. */
  function Rejoin(parts: seq<string>): string
    requires |parts| >= 1
  {
    if |parts| == 1 then parts[0] else parts[0] + "/" + Rejoin(parts[1..])
  }

  lemma {:induction false} RejoinSplit(path: string)
    ensures Rejoin(Split(path)) == path
  {
    if path != "" {
      RejoinSplit(path[1..]);
      var rest := Split(path[1..]);
      assert path == [path[0]] + path[1..];
      if path[0] == '/' {
        assert Split(path)[1..] == rest;
        assert Rejoin(Split(path)) == "" + "/" + Rejoin(rest);
      } else {
        assert Split(path)[1..] == rest[1..];
        assert Rejoin(Split(path)) == [path[0]] + Rejoin(rest);
      }
    }
  }

  lemma SplitInjective(a: string, b: string)
    ensures Split(a) == Split(b) <==> a == b
  {
    RejoinSplit(a);
    RejoinSplit(b);
  }

  /** Prefixes of sequences with the same head. */
  lemma ConsPrefix<T>(head: T, o: seq<T>, i: seq<T>)
    ensures [head] + o <= [head] + i <==> o <= i
    ensures [head] + o < [head] + i <==> o < i
  {
    if o <= i {
      assert i == o + i[|o|..];
      assert [head] + i == ([head] + o) + i[|o|..];
    }
    if [head] + o <= [head] + i {
      assert o == ([head] + o)[1..] && i == ([head] + i)[1..];
      assert ([head] + i)[..|o| + 1] == [head] + o;
      assert i[..|o|] == o;
    }
  }

  lemma HeadExtended(c: char, o: seq<string>, i: seq<string>)
    requires |o| >= 1 && |i| >= 1
    ensures [[c] + o[0]] + o[1..] < [[c] + i[0]] + i[1..] <==> o < i
  {
    var o', i' := [[c] + o[0]] + o[1..], [[c] + i[0]] + i[1..];
    assert o == [o[0]] + o[1..] && i == [i[0]] + i[1..];
    if o[0] == i[0] {
      ConsPrefix(o[0], o[1..], i[1..]);
      ConsPrefix([c] + o[0], o[1..], i[1..]);
    } else {
      assert o'[0][1..] == o[0] && i'[0][1..] == i[0];
      assert o'[0] != i'[0];
    }
  }

  /** Paths whose first characters differ differ in their first component. */
  lemma HeadsDiffer(a: string, b: string)
    requires a != "" && b != "" && a[0] != b[0]
    ensures Split(a)[0] != Split(b)[0]
  {
    var ra, rb := Split(a[1..]), Split(b[1..]);
    assert ([a[0]] + ra[0])[0] != ([b[0]] + rb[0])[0];
  }

  /** Being a string prefix followed by a slash is being a proper prefix of components. */
  lemma {:induction false} SlashPrefix(outer: string, inner: string)
    ensures outer + "/" <= inner <==> Split(outer) < Split(inner)
  {
    if outer == "" {
      assert outer + "/" == "/" && Split(outer) == [""];
      if inner != "" {
        assert inner[0] != '/' ==> Split(inner)[0] != "";
        assert inner == [inner[0]] + inner[1..];
        assert inner[0] == '/' ==> Split(inner) == [""] + Split(inner[1..]);
      }
    } else if inner != "" {
      assert outer + "/" == [outer[0]] + (outer[1..] + "/") && inner == [inner[0]] + inner[1..];
      if outer[0] != inner[0] {
        HeadsDiffer(outer, inner);
      } else {
        SlashPrefix(outer[1..], inner[1..]);
        ConsPrefix(outer[0], outer[1..] + "/", inner[1..]);
        if outer[0] == '/' {
          ConsPrefix("", Split(outer[1..]), Split(inner[1..]));
        } else {
          HeadExtended(outer[0], Split(outer[1..]), Split(inner[1..]));
        }
      }
    }
  }

  /** The string test decides exactly whether one component list is a prefix of the other. */
  lemma OverlapIsComponentPrefix(left: string, right: string)
    ensures Overlap(left, right) <==> Split(left) <= Split(right) || Split(right) <= Split(left)
  {
    SplitInjective(left, right);
    SlashPrefix(left, right);
    SlashPrefix(right, left);
  }

  /** Two scope paths overlap exactly when some location lies at or under both. */
  lemma OverlapIsSharedLocation(left: string, right: string)
    ensures Overlap(left, right) <==> exists location :: Covers(left, location) && Covers(right, location)
  {
    OverlapIsComponentPrefix(left, right);
    if Overlap(left, right) {
      var deeper := if Split(left) <= Split(right) then Split(right) else Split(left);
      assert Covers(left, deeper) && Covers(right, deeper);
    }
    if location :| Covers(left, location) && Covers(right, location) {
      assert Split(left) == location[..|Split(left)|] && Split(right) == location[..|Split(right)|];
    }
  }
}
