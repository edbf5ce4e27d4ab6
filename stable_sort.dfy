/**
 * `Collections.sort` with a comparator: a stable sort. It is modelled by a
 * stable insertion sort over values, with the three facts callers rely on
 * proved about it: the result is ordered, it is a permutation of the input,
 * and elements the comparator ranks equal keep their input order.
 */
module StableSort {

  /**
   * What `Collections.sort` requires of a comparator, read as `le(a, b)` when
   * `compare(a, b) <= 0`: every pair is comparable and the order is transitive.
   */
  ghost predicate TotalPreorder<T(!new)>(le: (T, T) -> bool) {
    && (forall x, y :: le(x, y) || le(y, x))
    && (forall x, y, z :: le(x, y) && le(y, z) ==> le(x, z))
  }

  predicate Sorted<T>(s: seq<T>, le: (T, T) -> bool) {
    forall i, j :: 0 <= i < j < |s| ==> le(s[i], s[j])
  }

  /** Places `x` after every element that is not strictly greater than it. */
  function Insert<T>(x: T, s: seq<T>, le: (T, T) -> bool): (r: seq<T>)
    ensures |r| == |s| + 1
  {
    if s == [] then [x]
    else if !le(s[0], x) then [x] + s
    else [s[0]] + Insert(x, s[1..], le)
  }

  /** Inserts the elements one by one, in their input order. */
  function InsertionSort<T>(s: seq<T>, le: (T, T) -> bool): (r: seq<T>)
    ensures |r| == |s|
  {
    if s == [] then []
    else Insert(s[|s| - 1], InsertionSort(s[..|s| - 1], le), le)
  }

  /** The elements of `s` that `le` ranks equal to `c`, in their order in `s`. */
  function EquivalentTo<T>(s: seq<T>, c: T, le: (T, T) -> bool): seq<T> {
    if s == [] then []
    else (if le(s[0], c) && le(c, s[0]) then [s[0]] else []) + EquivalentTo(s[1..], c, le)
  }

  // ---------------------------------------------------------------------------
  // Permutation

  lemma {:induction false} InsertPermutes<T>(x: T, s: seq<T>, le: (T, T) -> bool)
    ensures multiset(Insert(x, s, le)) == multiset(s) + multiset{x}
  {
    if s != [] && le(s[0], x) {
      InsertPermutes(x, s[1..], le);
      assert s == [s[0]] + s[1..];
    }
  }

  /** The sorted list holds exactly the input's elements, with their multiplicities. */
  lemma {:induction false} SortPermutes<T>(s: seq<T>, le: (T, T) -> bool)
    ensures multiset(InsertionSort(s, le)) == multiset(s)
  {
    if s != [] {
      var init := s[..|s| - 1];
      SortPermutes(init, le);
      InsertPermutes(s[|s| - 1], InsertionSort(init, le), le);
      assert s == init + [s[|s| - 1]];
    }
  }

  // ---------------------------------------------------------------------------
  // Order

  lemma {:induction false} InsertSorted<T(!new)>(x: T, s: seq<T>, le: (T, T) -> bool)
    requires TotalPreorder(le) && Sorted(s, le)
    ensures Sorted(Insert(x, s, le), le)
  {
    if s != [] && le(s[0], x) {
      InsertSorted(x, s[1..], le);
      InsertPermutes(x, s[1..], le);
      var r := Insert(x, s[1..], le);
      forall j | 0 <= j < |r| ensures le(s[0], r[j]) {
        assert r[j] in multiset(r);
        assert r[j] == x || r[j] in s[1..];
      }
    }
  }

  /** The result is ordered by the comparator. */
  lemma {:induction false} SortSorted<T(!new)>(s: seq<T>, le: (T, T) -> bool)
    requires TotalPreorder(le)
    ensures Sorted(InsertionSort(s, le), le)
  {
    if s != [] {
      SortSorted(s[..|s| - 1], le);
      InsertSorted(s[|s| - 1], InsertionSort(s[..|s| - 1], le), le);
    }
  }

  // ---------------------------------------------------------------------------
  // Stability

  lemma EquivalentToCons<T>(x: T, s: seq<T>, c: T, le: (T, T) -> bool)
    ensures EquivalentTo([x] + s, c, le) == (if le(x, c) && le(c, x) then [x] else []) + EquivalentTo(s, c, le)
  {
    assert ([x] + s)[1..] == s;
  }

  lemma {:induction false} EquivalentToAppend<T>(a: seq<T>, b: seq<T>, c: T, le: (T, T) -> bool)
    ensures EquivalentTo(a + b, c, le) == EquivalentTo(a, c, le) + EquivalentTo(b, c, le)
  {
    if a == [] {
      assert a + b == b;
    } else {
      var t := a[1..];
      EquivalentToAppend(t, b, c, le);
      assert a + b == [a[0]] + (t + b);
      assert a == [a[0]] + t;
      EquivalentToCons(a[0], t + b, c, le);
      EquivalentToCons(a[0], t, c, le);
    }
  }

  /** In an ordered list that starts above `x`, nothing is ranked equal to `x`. */
  lemma {:induction false} NoneEquivalentAbove<T(!new)>(x: T, s: seq<T>, c: T, le: (T, T) -> bool)
    requires TotalPreorder(le) && Sorted(s, le)
    requires s != [] && !le(s[0], x) && le(x, c) && le(c, x)
    ensures EquivalentTo(s, c, le) == []
  {
    if |s| > 1 {
      assert le(s[0], s[1]);
      assert !le(s[1], x);
      NoneEquivalentAbove(x, s[1..], c, le);
    }
    assert !le(s[0], c);
  }

  lemma {:induction false} InsertStable<T(!new)>(x: T, s: seq<T>, c: T, le: (T, T) -> bool)
    requires TotalPreorder(le) && Sorted(s, le)
    ensures EquivalentTo(Insert(x, s, le), c, le)
         == EquivalentTo(s, c, le) + (if le(x, c) && le(c, x) then [x] else [])
  {
    if s == [] {
    } else if !le(s[0], x) {
      EquivalentToCons(x, s, c, le);
      if le(x, c) && le(c, x) {
        NoneEquivalentAbove(x, s, c, le);
      }
    } else {
      var t := s[1..];
      InsertStable(x, t, c, le);
      EquivalentToCons(s[0], Insert(x, t, le), c, le);
      EquivalentToCons(s[0], t, c, le);
      assert s == [s[0]] + t;
    }
  }

  /** Elements ranked equal to one another keep their input order. */
  lemma {:induction false} SortStable<T(!new)>(s: seq<T>, c: T, le: (T, T) -> bool)
    requires TotalPreorder(le)
    ensures EquivalentTo(InsertionSort(s, le), c, le) == EquivalentTo(s, c, le)
  {
    if s != [] {
      var init, x := s[..|s| - 1], s[|s| - 1];
      SortStable(init, c, le);
      SortSorted(init, le);
      InsertStable(x, InsertionSort(init, le), c, le);
      assert s == init + [x];
      EquivalentToAppend(init, [x], c, le);
    }
  }

  // ---------------------------------------------------------------------------
  // Idempotence

  lemma {:induction false} InsertAfterAll<T>(x: T, s: seq<T>, le: (T, T) -> bool)
    requires forall i :: 0 <= i < |s| ==> le(s[i], x)
    ensures Insert(x, s, le) == s + [x]
  {
    if s != [] {
      InsertAfterAll(x, s[1..], le);
      assert s == [s[0]] + s[1..];
    }
  }

  /** An already ordered list is left exactly as it is. */
  lemma {:induction false} SortOfSorted<T>(s: seq<T>, le: (T, T) -> bool)
    requires Sorted(s, le)
    ensures InsertionSort(s, le) == s
  {
    if s != [] {
      var init := s[..|s| - 1];
      SortOfSorted(init, le);
      InsertAfterAll(s[|s| - 1], init, le);
      assert s == init + [s[|s| - 1]];
    }
  }

  /** Sorting twice is sorting once. */
  lemma SortIdempotent<T(!new)>(s: seq<T>, le: (T, T) -> bool)
    requires TotalPreorder(le)
    ensures InsertionSort(InsertionSort(s, le), le) == InsertionSort(s, le)
  {
    SortSorted(s, le);
    SortOfSorted(InsertionSort(s, le), le);
  }
}
