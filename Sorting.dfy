/**
  * The stable sort behind `Array.prototype.sort` and Python's `sorted`, over a
  * "comes strictly before" relation. Every list the stores and scripts sort goes
  * through `Sort`, which is proved to return a sorted permutation of its input.
  */
module Sorting {

  /** `before` is irreflexive and transitive. */
  ghost predicate StrictOrder<T(!new)>(before: (T, T) -> bool)
  {
    (forall a :: !before(a, a))
    && (forall a, b, c :: before(a, b) && before(b, c) ==> before(a, c))
  }

  /** A strict order whose incomparability is an equivalence: when `a` comes
    * before `c`, any `b` comes after `a` or before `c`. Every comparator the
    * program sorts with (by a string, a flag or a number) is one. */
  ghost predicate StrictWeakOrder<T(!new)>(before: (T, T) -> bool)
  {
    StrictOrder(before)
    && (forall a, b, c :: before(a, c) ==> before(a, b) || before(b, c))
  }

  /** Neither comes strictly before the other: the comparator answers 0. */
  predicate Tied<T>(a: T, b: T, before: (T, T) -> bool)
  {
    !before(a, b) && !before(b, a)
  }

  /** The elements of `s` that tie with `z`, in their order in `s`. */
  function TiedWith<T>(s: seq<T>, z: T, before: (T, T) -> bool): seq<T>
  {
    if s == [] then []
    else (if Tied(s[0], z, before) then [s[0]] else []) + TiedWith(s[1..], z, before)
  }

  /** `r` lists every class of tied elements of `s` in the order `s` lists it. */
  ghost predicate Stable<T(!new)>(s: seq<T>, r: seq<T>, before: (T, T) -> bool)
  {
    forall z :: TiedWith(r, z, before) == TiedWith(s, z, before)
  }

  /** No element comes strictly before an element that precedes it. */
  ghost predicate Sorted<T>(s: seq<T>, before: (T, T) -> bool)
  {
    forall i, j :: 0 <= i < j < |s| ==> !before(s[j], s[i])
  }

  /** Places `x` in front of the first element it comes strictly before. */
  function Insert<T>(x: T, s: seq<T>, before: (T, T) -> bool): seq<T>
  {
    if s == [] then [x]
    else if before(x, s[0]) then [x] + s
    else [s[0]] + Insert(x, s[1..], before)
  }

  /** Insertion sort: inserting every later element after the tied earlier
    * ones keeps the sort stable, as both runtimes' sorts are (`SortStable`). */
  function Sort<T>(s: seq<T>, before: (T, T) -> bool): seq<T>
    decreases |s|
  {
    if s == [] then [] else Insert(s[|s| - 1], Sort(s[..|s| - 1], before), before)
  }

  lemma {:induction false} InsertPermutes<T>(x: T, s: seq<T>, before: (T, T) -> bool)
    ensures multiset(Insert(x, s, before)) == multiset(s) + multiset{x}
  {
    if s == [] {
      assert Insert(x, s, before) == [x];
    } else if before(x, s[0]) {
      assert Insert(x, s, before) == [x] + s;
    } else {
      var t := Insert(x, s[1..], before);
      InsertPermutes(x, s[1..], before);
      assert Insert(x, s, before) == [s[0]] + t;
      assert s == [s[0]] + s[1..];
      assert multiset([s[0]] + t) == multiset{s[0]} + multiset(t);
    }
  }

  /** An element that no later element comes strictly before can head a sorted list. */
  lemma {:induction false} ConsSorted<T>(y: T, t: seq<T>, before: (T, T) -> bool)
    requires Sorted(t, before)
    requires forall k :: 0 <= k < |t| ==> !before(t[k], y)
    ensures Sorted([y] + t, before)
  {
    var r := [y] + t;
    forall i, j | 0 <= i < j < |r|
      ensures !before(r[j], r[i])
    {
      assert r[j] == t[j - 1];
      if i > 0 {
        assert r[i] == t[i - 1];
      }
    }
  }

  lemma {:induction false} InsertSorted<T(!new)>(x: T, s: seq<T>, before: (T, T) -> bool)
    requires StrictOrder(before)
    requires Sorted(s, before)
    ensures Sorted(Insert(x, s, before), before)
  {
    if s == [] {
    } else if before(x, s[0]) {
      forall k | 0 <= k < |s|
        ensures !before(s[k], x)
      {
        if k > 0 {
          assert !before(s[k], s[0]);
        }
      }
      ConsSorted(x, s, before);
    } else {
      var t := Insert(x, s[1..], before);
      InsertSorted(x, s[1..], before);
      InsertPermutes(x, s[1..], before);
      forall k | 0 <= k < |t|
        ensures !before(t[k], s[0])
      {
        assert t[k] in multiset(t);
        if t[k] != x {
          assert t[k] in multiset(s[1..]);
          var m :| 0 <= m < |s[1..]| && s[1..][m] == t[k];
          assert s[m + 1] == t[k];
        }
      }
      ConsSorted(s[0], t, before);
    }
  }

  /** `Sort` returns a permutation of its input ... */
  lemma {:induction false} SortPermutes<T>(s: seq<T>, before: (T, T) -> bool)
    ensures multiset(Sort(s, before)) == multiset(s)
    decreases |s|
  {
    if s != [] {
      SortPermutes(s[..|s| - 1], before);
      InsertPermutes(s[|s| - 1], Sort(s[..|s| - 1], before), before);
      assert s == s[..|s| - 1] + [s[|s| - 1]];
    }
  }

  /** ... in order, whenever `before` is a strict order. */
  lemma {:induction false} SortSorts<T(!new)>(s: seq<T>, before: (T, T) -> bool)
    requires StrictOrder(before)
    ensures Sorted(Sort(s, before), before)
    decreases |s|
  {
    if s != [] {
      SortSorts(s[..|s| - 1], before);
      InsertSorted(s[|s| - 1], Sort(s[..|s| - 1], before), before);
    }
  }

  lemma {:induction false} TiedWithAppend<T>(a: seq<T>, b: seq<T>, z: T, before: (T, T) -> bool)
    ensures TiedWith(a + b, z, before) == TiedWith(a, z, before) + TiedWith(b, z, before)
  {
    if a == [] {
      assert a + b == b;
    } else {
      TiedWithAppend(a[1..], b, z, before);
      assert (a + b)[1..] == a[1..] + b;
    }
  }

  lemma {:induction false} TiedWithNone<T>(s: seq<T>, z: T, before: (T, T) -> bool)
    requires forall k :: 0 <= k < |s| ==> !Tied(s[k], z, before)
    ensures TiedWith(s, z, before) == []
  {
    if s != [] {
      TiedWithNone(s[1..], z, before);
    }
  }

  /** Inserting into a sorted list puts `x` after every element it ties with. */
  lemma {:induction false} InsertStable<T(!new)>(x: T, s: seq<T>, z: T, before: (T, T) -> bool)
    requires StrictWeakOrder(before)
    requires Sorted(s, before)
    ensures TiedWith(Insert(x, s, before), z, before)
            == TiedWith(s, z, before) + (if Tied(x, z, before) then [x] else [])
  {
    if s == [] {
      assert Insert(x, s, before) == [x] + [];
    } else if before(x, s[0]) {
      assert Insert(x, s, before) == [x] + s;
      TiedWithAppend([x], s, z, before);
      if Tied(x, z, before) {
        // x ties with z and comes before s[0], so z comes before every s[k]
        assert before(z, s[0]);
        forall k | 0 <= k < |s|
          ensures !Tied(s[k], z, before)
        {
          if k > 0 {
            assert !before(s[k], s[0]);
          }
        }
        TiedWithNone(s, z, before);
      }
    } else {
      InsertStable(x, s[1..], z, before);
      assert Sorted(s[1..], before);
    }
  }

  /** ... and keeps tied elements in their input order. */
  lemma {:induction false} SortStable<T(!new)>(s: seq<T>, before: (T, T) -> bool)
    requires StrictWeakOrder(before)
    ensures Stable(s, Sort(s, before), before)
    decreases |s|
  {
    if s != [] {
      var init, x := s[..|s| - 1], s[|s| - 1];
      SortStable(init, before);
      SortSorts(init, before);
      forall z
        ensures TiedWith(Sort(s, before), z, before) == TiedWith(s, z, before)
      {
        InsertStable(x, Sort(init, before), z, before);
        assert s == init + [x];
        TiedWithAppend(init, [x], z, before);
      }
    }
  }

  lemma {:induction false} SortLength<T>(s: seq<T>, before: (T, T) -> bool)
    ensures |Sort(s, before)| == |s|
  {
    SortPermutes(s, before);
    assert |multiset(Sort(s, before))| == |multiset(s)|;
  }
}
