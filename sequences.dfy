// Generic list operations the game performs on its vectors: finding the
// first position of a value or of an element satisfying a test
// (`iter().position`, `iter().find`), removing by index (`Vec::remove`),
// removing the first occurrence of a value, `filter(..).map(..)`, and
// removing a set of positions by walking the sorted positions from the
// highest down.
module Sequences {
  import opened Wrappers

  /** `iter().position(|x| x == v)`: the first index holding `v`. */
  function IndexOf<T(==)>(s: seq<T>, v: T): (i: nat)
    requires v in s
    ensures i < |s| && s[i] == v
    ensures forall j :: 0 <= j < i ==> s[j] != v
  {
    if s[0] == v then 0 else 1 + IndexOf(s[1..], v)
  }

  /** `Vec::remove(i)`: drops the element at `i`, the rest keep their order. */
  function RemoveAt<T>(s: seq<T>, i: nat): (r: seq<T>)
    requires i < |s|
    ensures |r| == |s| - 1
    ensures forall j :: 0 <= j < i ==> r[j] == s[j]
    ensures forall j :: i <= j < |r| ==> r[j] == s[j + 1]
  {
    s[..i] + s[i + 1..]
  }

  lemma RemoveAtMultiset<T>(s: seq<T>, i: nat)
    requires i < |s|
    ensures multiset(RemoveAt(s, i)) + multiset{s[i]} == multiset(s)
  {
    assert s == s[..i] + [s[i]] + s[i + 1..];
  }

  /** Adding `d` to any one of three parts adds it to their sum. */
  lemma UnionAddsToPart<T>(a: multiset<T>, b: multiset<T>, c: multiset<T>, d: multiset<T>)
    ensures (a + d) + b + c == (a + b + c) + d
    ensures a + (b + d) + c == (a + b + c) + d
    ensures a + b + (c + d) == (a + b + c) + d
  {
  }

  /** The elements from position `j` on are the one at `j` and those after it. */
  lemma SuffixMultiset<T>(s: seq<T>, j: nat)
    requires j < |s|
    ensures multiset(s[j..]) == multiset{s[j]} + multiset(s[j + 1..])
  {
    assert s[j..] == [s[j]] + s[j + 1..];
  }

  /** Removes the first occurrence of `v`. */
  function RemoveFirst<T(==)>(s: seq<T>, v: T): (r: seq<T>)
    requires v in s
    ensures |r| == |s| - 1
    ensures multiset(r) + multiset{v} == multiset(s)
  {
    RemoveAtMultiset(s, IndexOf(s, v));
    RemoveAt(s, IndexOf(s, v))
  }

  /** The elements of `s` other than the one at `i`, as a set, when all are distinct. */
  lemma RemoveAtDistinct<T>(s: seq<T>, i: nat)
    requires i < |s|
    requires forall a, b :: 0 <= a < b < |s| ==> s[a] != s[b]
    ensures forall a, b :: 0 <= a < b < |RemoveAt(s, i)| ==> RemoveAt(s, i)[a] != RemoveAt(s, i)[b]
    ensures s[i] !in RemoveAt(s, i)
  {
  }

  /** `iter().position(p)`: the first index whose element satisfies `p`, if any. */
  function FindIndex<T>(s: seq<T>, p: T -> bool): (r: Option<nat>)
    ensures r.None? <==> forall k :: 0 <= k < |s| ==> !p(s[k])
    ensures r.Some? ==> r.value < |s| && p(s[r.value])
    ensures r.Some? ==> forall k :: 0 <= k < r.value ==> !p(s[k])
  {
    if s == [] then None
    else if p(s[0]) then Some(0)
    else match FindIndex(s[1..], p)
      case None => None
      case Some(k) => Some(k + 1)
  }

  /** `iter().filter(keep).map(f).collect()` */
  function FilterMap<T, U>(s: seq<T>, keep: T -> bool, f: T -> U): (r: seq<U>)
    ensures |r| <= |s|
    ensures (forall k :: 0 <= k < |s| ==> keep(s[k])) ==> |r| == |s|
  {
    if s == [] then []
    else (if keep(s[0]) then [f(s[0])] else []) + FilterMap(s[1..], keep, f)
  }

  /** Every element of a filtered and mapped list is the image of a kept element. */
  lemma {:induction false} FilterMapSource<T, U>(s: seq<T>, keep: T -> bool, f: T -> U, k: nat) returns (i: nat)
    requires k < |FilterMap(s, keep, f)|
    ensures i < |s| && keep(s[i]) && FilterMap(s, keep, f)[k] == f(s[i])
  {
    if keep(s[0]) && k == 0 {
      i := 0;
    } else {
      var j := FilterMapSource(s[1..], keep, f, if keep(s[0]) then k - 1 else k);
      i := j + 1;
    }
  }

  /** Every kept element appears, mapped, in a filtered and mapped list. */
  lemma {:induction false} FilterMapKept<T, U>(s: seq<T>, keep: T -> bool, f: T -> U, i: nat)
    requires i < |s| && keep(s[i])
    ensures f(s[i]) in FilterMap(s, keep, f)
  {
    if i > 0 {
      FilterMapKept(s[1..], keep, f, i - 1);
    }
  }

  /** Filtering out exactly the element at `i` maps every other element, in order. */
  lemma {:induction false} FilterMapAllButOne<T, U>(s: seq<T>, keep: T -> bool, f: T -> U, i: nat)
    requires i < |s|
    requires forall k :: 0 <= k < |s| ==> (keep(s[k]) <==> k != i)
    ensures |FilterMap(s, keep, f)| == |s| - 1
    ensures forall k :: 0 <= k < |s| - 1 ==> FilterMap(s, keep, f)[k] == f(RemoveAt(s, i)[k])
  {
    if i == 0 {
      FilterMapAll(s[1..], keep, f);
    } else {
      FilterMapAllButOne(s[1..], keep, f, i - 1);
    }
  }

  /** Keeping every element maps the whole list. */
  lemma {:induction false} FilterMapAll<T, U>(s: seq<T>, keep: T -> bool, f: T -> U)
    requires forall k :: 0 <= k < |s| ==> keep(s[k])
    ensures |FilterMap(s, keep, f)| == |s|
    ensures forall k :: 0 <= k < |s| ==> FilterMap(s, keep, f)[k] == f(s[k])
  {
    if s != [] {
      FilterMapAll(s[1..], keep, f);
    }
  }

  /** No value occurs twice. */
  predicate AllUnique(s: seq<nat>)
  {
    forall i, j :: 0 <= i < j < |s| ==> s[i] != s[j]
  }

  /** The values a list holds. */
  function Elems(s: seq<nat>): (r: set<nat>)
    ensures forall k :: k in r <==> k in s
  {
    set k | k in s
  }

  /** A subset is no larger than the set. */
  lemma SubsetCardinality<T>(a: set<T>, b: set<T>)
    requires a <= b
    ensures |a| <= |b|
  {
    assert b == a + (b - a);
  }

  /** A list without repeats has as many distinct values as entries. */
  lemma {:induction false} UniqueCardinality(s: seq<nat>)
    requires AllUnique(s)
    ensures |Elems(s)| == |s|
  {
    if s != [] {
      UniqueCardinality(s[1..]);
      assert s[0] !in Elems(s[1..]) by {
        forall i | 0 <= i < |s[1..]|
          ensures s[1..][i] != s[0]
        {
          assert s[1..][i] == s[i + 1];
        }
      }
      assert Elems(s) == Elems(s[1..]) + {s[0]};
    } else {
      assert Elems(s) == {};
    }
  }

  /** A non-empty set of naturals has a largest element. */
  lemma {:induction false} SetHasMax(s: set<nat>)
    requires s != {}
    ensures exists m :: m in s && forall k :: k in s ==> k <= m
    decreases |s|
  {
    var x :| x in s;
    if s != {x} {
      SetHasMax(s - {x});
      var m :| m in s - {x} && forall k :: k in s - {x} ==> k <= m;
      var top := if x > m then x else m;
      forall k | k in s
        ensures k <= top
      {
        if k != x {
          assert k in s - {x};
        }
      }
      assert top in s;
    } else {
      forall k | k in s
        ensures k <= x
      {
        assert k == x;
      }
    }
  }

  /** The elements at positions `j..` whose position is not in `gone`, in order. */
  function Without<T>(s: seq<T>, gone: set<nat>, j: nat): (r: seq<T>)
    decreases |s| - j
  {
    if j >= |s| then [] else (if j in gone then [] else [s[j]]) + Without(s, gone, j + 1)
  }

  /** The positions of `gone` from `j` to the end of `s`. */
  function GoneFrom<T>(s: seq<T>, gone: set<nat>, j: nat): (r: set<nat>)
    ensures forall k :: k in r <==> k in gone && j <= k < |s|
  {
    set k | k in gone && j <= k < |s|
  }

  /** Every position from `j` on is either kept or gone. */
  lemma {:induction false} WithoutLength<T>(s: seq<T>, gone: set<nat>, j: nat)
    requires j <= |s|
    ensures |Without(s, gone, j)| + |GoneFrom(s, gone, j)| == |s| - j
    decreases |s| - j
  {
    if j < |s| {
      WithoutLength(s, gone, j + 1);
      if j in gone {
        assert GoneFrom(s, gone, j) == GoneFrom(s, gone, j + 1) + {j};
      } else {
        assert GoneFrom(s, gone, j) == GoneFrom(s, gone, j + 1);
      }
    } else {
      assert GoneFrom(s, gone, j) == {};
    }
  }

  /** Over a stretch of positions none of which is gone, everything is kept as it is. */
  lemma {:induction false} WithoutStretch<T>(s: seq<T>, gone: set<nat>, a: nat, b: nat)
    requires a <= b <= |s|
    requires forall k :: a <= k < b ==> k !in gone
    ensures Without(s, gone, a) == s[a..b] + Without(s, gone, b)
    decreases b - a
  {
    if a < b {
      WithoutStretch(s, gone, a + 1, b);
      assert Without(s, gone, a) == [s[a]] + Without(s, gone, a + 1);
      assert s[a..b] == [s[a]] + s[a + 1..b];
    }
  }

  /**
   * One step of removing the positions from the highest down: when `j` is
   * the highest gone position below `t`, removing position `j` from the list
   * done from `t` on leaves the list done from `j` on.
   */
  lemma WithoutStep<T>(s: seq<T>, gone: set<nat>, j: nat, t: nat)
    requires j < t <= |s| && j in gone
    requires forall k :: j < k < t ==> k !in gone
    ensures (s[..t] + Without(s, gone, t))[j] == s[j]
    ensures RemoveAt(s[..t] + Without(s, gone, t), j) == s[..j] + Without(s, gone, j)
  {
    WithoutStretch(s, gone, j + 1, t);
    var rest := Without(s, gone, t);
    var x := s[..t] + rest;
    assert Without(s, gone, j) == Without(s, gone, j + 1);
    assert x[..j] == s[..j];
    assert x[j + 1..] == s[j + 1..t] + rest;
    assert RemoveAt(x, j) == x[..j] + x[j + 1..];
  }

  /** Whatever is left after removing positions was at a position not removed. */
  lemma {:induction false} WithoutMember<T>(s: seq<T>, gone: set<nat>, j: nat, x: T) returns (i: nat)
    requires x in Without(s, gone, j)
    ensures j <= i < |s| && i !in gone && s[i] == x
    decreases |s| - j
  {
    if j in gone || x != s[j] {
      i := WithoutMember(s, gone, j + 1, x);
    } else {
      i := j;
    }
  }

  /** Removing no position keeps the whole list. */
  lemma WithoutNothing<T>(s: seq<T>)
    ensures Without(s, {}, 0) == s
  {
    WithoutStretch(s, {}, 0, |s|);
  }

  /**
   * Sorting the positions and removing them with `Vec::remove` from the
   * highest down, so that each removal leaves the lower positions in place.
   */
  method RemovePositions<T>(s: seq<T>, gone: set<nat>) returns (r: seq<T>)
    requires forall k :: k in gone ==> k < |s|
    ensures r == Without(s, gone, 0)
    ensures |r| == |s| - |gone|
  {
    var remaining := gone;
    r := s;
    ghost var t: nat := |s|;
    while remaining != {}
      invariant t <= |s|
      invariant forall k :: k in remaining <==> k in gone && k < t
      invariant r == s[..t] + Without(s, gone, t)
      decreases remaining
    {
      SetHasMax(remaining);
      var j :| j in remaining && forall k :: k in remaining ==> k <= j;
      WithoutStep(s, gone, j, t);
      r := RemoveAt(r, j);
      remaining := remaining - {j};
      t := j;
    }
    WithoutStretch(s, gone, 0, t);
    assert s[..t] == s[0..t];
    WithoutLength(s, gone, 0);
    assert GoneFrom(s, gone, 0) == gone;
  }
}
