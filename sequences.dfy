/**
 * Sequence operations of the JavaScript array API used by the model.
 *
 * Sorting by an integer key. `Array.prototype.sort` with a comparator
 * `(a, b) => key(a) - key(b)` orders by ascending key; a comparator
 * `(a, b) => key(b) - key(a)` is the same with the key negated.
 */
module Sequences {
  import opened Wrappers

  ghost predicate SortedBy<T>(s: seq<T>, key: T -> int) {
    forall i, j :: 0 <= i < j < |s| ==> key(s[i]) <= key(s[j])
  }

  /** Every key in `s` is at least `b`. */
  ghost predicate AllAtLeast<T>(s: seq<T>, key: T -> int, b: int) {
    forall j :: 0 <= j < |s| ==> b <= key(s[j])
  }

  /** Inserts `x` before the first element whose key is not smaller, so equal keys keep their order. */
  function Insert<T>(x: T, s: seq<T>, key: T -> int): (r: seq<T>)
    requires SortedBy(s, key)
    ensures SortedBy(r, key)
    ensures multiset(r) == multiset(s) + multiset{x}
  {
    if s == [] || key(x) <= key(s[0]) then
      HeadBound(x, s, key);
      ConsSorted(x, s, key);
      [x] + s
    else
      var tail := Insert(x, s[1..], key);
      assert s == [s[0]] + s[1..];
      HeadBound(s[0], s[1..], key);
      ConsSorted(s[0], tail, key);
      [s[0]] + tail
  }

  /** Below the head of a sorted sequence, every element's key is at least `h`'s when the head's is. */
  lemma {:induction false} HeadBound<T>(h: T, s: seq<T>, key: T -> int)
    requires SortedBy(s, key) && (s == [] || key(h) <= key(s[0]))
    ensures forall y :: y in multiset(s) ==> key(h) <= key(y)
  {
    forall y | y in multiset(s) ensures key(h) <= key(y) {
      assert y in s;
      var k :| 0 <= k < |s| && s[k] == y;
      assert key(s[0]) <= key(s[k]);
    }
  }

  /** Putting an element in front of a sorted sequence whose keys are all at least its own keeps it sorted. */
  lemma {:induction false} ConsSorted<T>(h: T, t: seq<T>, key: T -> int)
    requires SortedBy(t, key)
    requires forall y :: y in multiset(t) ==> key(h) <= key(y)
    ensures SortedBy([h] + t, key)
  {
    var r := [h] + t;
    forall i, j | 0 <= i < j < |r| ensures key(r[i]) <= key(r[j]) {
      assert r[j] == t[j - 1] && r[j] in multiset(t);
      if i > 0 {
        assert r[i] == t[i - 1];
      }
    }
  }

  /** A stable insertion sort by ascending key. */
  function SortBy<T>(s: seq<T>, key: T -> int): (r: seq<T>)
    ensures SortedBy(r, key)
    ensures multiset(r) == multiset(s)
  {
    if s == [] then []
    else
      assert s == [s[0]] + s[1..];
      Insert(s[0], SortBy(s[1..], key), key)
  }

  /** The test "has key `c`": the elements one stable sort must keep in their order. */
  function HasKey<T>(key: T -> int, c: int): T -> bool {
    x => key(x) == c
  }

  /** Inserting `x` puts it ahead of every element with its key. */
  lemma {:induction false} InsertStable<T(!new)>(x: T, s: seq<T>, key: T -> int, c: int)
    requires SortedBy(s, key)
    ensures Filter(Insert(x, s, key), HasKey(key, c)) == Filter([x], HasKey(key, c)) + Filter(s, HasKey(key, c))
  {
    var p := HasKey(key, c);
    if s == [] || key(x) <= key(s[0]) {
      FilterAppend([x], s, p);
    } else {
      var tail := Insert(x, s[1..], key);
      InsertStable(x, s[1..], key, c);
      FilterAppend([s[0]], tail, p);
      assert s == [s[0]] + s[1..];
      FilterAppend([s[0]], s[1..], p);
      assert Filter([s[0]], p) + Filter([x], p) == Filter([x], p) + Filter([s[0]], p) by {
        if key(x) == c {
          assert Filter([s[0]], p) == [];
        } else {
          assert Filter([x], p) == [];
        }
      }
    }
  }

  /** `SortBy` is stable: the elements of any one key come out in their input order. */
  lemma {:induction false} SortByStable<T(!new)>(s: seq<T>, key: T -> int, c: int)
    ensures Filter(SortBy(s, key), HasKey(key, c)) == Filter(s, HasKey(key, c))
  {
    if s != [] {
      SortByStable(s[1..], key, c);
      InsertStable(s[0], SortBy(s[1..], key), key, c);
      assert s == [s[0]] + s[1..];
      FilterAppend([s[0]], s[1..], HasKey(key, c));
    }
  }

  /**
   * A sequence sorted by key is determined by the order of the elements within
   * each key: two sorted sequences that agree on it are equal.
   */
  lemma {:induction false} SortedStableUnique<T(!new)>(r1: seq<T>, r2: seq<T>, key: T -> int)
    requires SortedBy(r1, key) && SortedBy(r2, key)
    requires forall c :: Filter(r1, HasKey(key, c)) == Filter(r2, HasKey(key, c))
    ensures r1 == r2
    decreases |r1|
  {
    if r1 == [] || r2 == [] {
      if r1 != [] {
        FirstOfKey(r1, key);
      } else if r2 != [] {
        FirstOfKey(r2, key);
      }
    } else {
      SameHead(r1, r2, key);
      forall c ensures Filter(r1[1..], HasKey(key, c)) == Filter(r2[1..], HasKey(key, c)) {
        assert Filter(r1, HasKey(key, c)) == Filter(r2, HasKey(key, c));
        FilterCons(r1, HasKey(key, c));
        FilterCons(r2, HasKey(key, c));
        var front := if HasKey(key, c)(r1[0]) then [r1[0]] else [];
        assert Filter(r1[1..], HasKey(key, c)) == Filter(r1, HasKey(key, c))[|front|..];
        assert Filter(r2[1..], HasKey(key, c)) == Filter(r2, HasKey(key, c))[|front|..];
      }
      SortedTail(r1, key);
      SortedTail(r2, key);
      SortedStableUnique(r1[1..], r2[1..], key);
      assert r1 == [r1[0]] + r1[1..] && r2 == [r2[0]] + r2[1..];
    }
  }

  /** Two non-empty sorted sequences that agree within the keys of their heads have the same head. */
  lemma {:induction false} SameHead<T(!new)>(r1: seq<T>, r2: seq<T>, key: T -> int)
    requires SortedBy(r1, key) && SortedBy(r2, key) && r1 != [] && r2 != []
    requires Filter(r1, HasKey(key, key(r1[0]))) == Filter(r2, HasKey(key, key(r1[0])))
    requires Filter(r1, HasKey(key, key(r2[0]))) == Filter(r2, HasKey(key, key(r2[0])))
    ensures r1[0] == r2[0]
  {
    var k1, k2 := key(r1[0]), key(r2[0]);
    FirstOfKey(r1, key);
    FirstOfKey(r2, key);
    var y1, y2 := Filter(r2, HasKey(key, k1))[0], Filter(r1, HasKey(key, k2))[0];
    FilterCount(r2, HasKey(key, k1));
    FilterCount(r1, HasKey(key, k2));
    assert y1 in multiset(Filter(r2, HasKey(key, k1)));
    assert y2 in multiset(Filter(r1, HasKey(key, k2)));
    KeysFromHead(r2, key, y1);
    KeysFromHead(r1, key, y2);
  }

  lemma {:induction false} SortedTail<T>(s: seq<T>, key: T -> int)
    requires SortedBy(s, key) && s != []
    ensures SortedBy(s[1..], key)
  {
    forall i, j | 0 <= i < j < |s| - 1 ensures key(s[1..][i]) <= key(s[1..][j]) {
      assert s[1..][i] == s[i + 1] && s[1..][j] == s[j + 1];
    }
  }

  /** The elements with the head's key start with the head. */
  lemma {:induction false} FirstOfKey<T(!new)>(s: seq<T>, key: T -> int)
    requires s != []
    ensures Filter(s, HasKey(key, key(s[0]))) == [s[0]] + Filter(s[1..], HasKey(key, key(s[0])))
  {
  }

  /** One step of the filter, as a concatenation. */
  lemma {:induction false} FilterCons<T(!new)>(s: seq<T>, p: T -> bool)
    requires s != []
    ensures Filter(s, p) == (if p(s[0]) then [s[0]] else []) + Filter(s[1..], p)
  {
  }

  /** In a sorted sequence no element's key is below the head's. */
  lemma {:induction false} KeysFromHead<T>(s: seq<T>, key: T -> int, y: T)
    requires SortedBy(s, key) && y in multiset(s)
    ensures key(s[0]) <= key(y)
  {
    assert y in s;
    var k :| 0 <= k < |s| && s[k] == y;
    assert key(s[0]) <= key(s[k]);
  }

  /**
   * Sorting the array in place by ascending key, with adjacent swaps of
   * elements whose keys differ: the result is the stable sort of the old contents.
   */
  method SortInPlace<T(!new)>(a: array<T>, key: T -> int)
    modifies a
    ensures a[..] == SortBy(old(a[..]), key)
    ensures SortedBy(a[..], key)
    ensures multiset(a[..]) == old(multiset(a[..]))
  {
    var i := 0;
    while i < a.Length
      invariant 0 <= i <= a.Length
      invariant SortedBy(a[..i], key)
      invariant forall c :: Filter(a[..], HasKey(key, c)) == Filter(old(a[..]), HasKey(key, c))
    {
      SinkLast(a, i, key);
      i := i + 1;
    }
    assert a[..a.Length] == a[..];
    forall c ensures Filter(a[..], HasKey(key, c)) == Filter(SortBy(old(a[..]), key), HasKey(key, c)) {
      SortByStable(old(a[..]), key, c);
    }
    SortedStableUnique(a[..], SortBy(old(a[..]), key), key);
  }

  /**
   * One pass of the insertion sort: moves `a[i]` down past the elements with a
   * larger key, so the prefix up to `i` is sorted and equal keys keep their order.
   */
  method SinkLast<T(!new)>(a: array<T>, i: nat, key: T -> int)
    requires i < a.Length && SortedBy(a[..i], key)
    modifies a
    ensures SortedBy(a[..i + 1], key)
    ensures forall c :: Filter(a[..], HasKey(key, c)) == Filter(old(a[..]), HasKey(key, c))
  {
    var j := i;
    SinkStart(a[..], i, key);
    while j > 0 && key(a[j]) < key(a[j - 1])
      invariant 0 <= j <= i < a.Length
      invariant SortedExcept(a[..], i, j, key)
      invariant forall c :: Filter(a[..], HasKey(key, c)) == Filter(old(a[..]), HasKey(key, c))
    {
      ghost var before := a[..];
      SwapAdjacent(a, j);
      SwapKeepsKeyOrder(before, j, key);
      SinkStep(before, i, j, key);
      j := j - 1;
    }
    SinkDone(a[..], i, j, key);
  }

  /** The first `i + 1` elements are in key order, except possibly at position `j`. */
  ghost predicate SortedExcept<T>(s: seq<T>, i: nat, j: nat, key: T -> int)
    requires i < |s|
  {
    forall p, q :: 0 <= p < q <= i && q != j ==> key(s[p]) <= key(s[q])
  }

  lemma {:induction false} SinkStart<T>(s: seq<T>, i: nat, key: T -> int)
    requires i < |s| && SortedBy(s[..i], key)
    ensures SortedExcept(s, i, i, key)
  {
    forall p, q | 0 <= p < q <= i && q != i ensures key(s[p]) <= key(s[q]) {
      assert s[..i][p] == s[p] && s[..i][q] == s[q];
    }
  }

  /** Swapping the out-of-order element with its left neighbour moves the exception one place left. */
  lemma {:induction false} SinkStep<T>(s: seq<T>, i: nat, j: nat, key: T -> int)
    requires 0 < j <= i < |s| && SortedExcept(s, i, j, key) && key(s[j]) < key(s[j - 1])
    ensures SortedExcept(s[j - 1 := s[j]][j := s[j - 1]], i, j - 1, key)
  {
  }

  /** Once the element has stopped, the whole prefix up to `i` is in key order. */
  lemma {:induction false} SinkDone<T>(s: seq<T>, i: nat, j: nat, key: T -> int)
    requires j <= i < |s| && SortedExcept(s, i, j, key)
    requires j == 0 || key(s[j - 1]) <= key(s[j])
    ensures SortedBy(s[..i + 1], key)
  {
    var t := s[..i + 1];
    forall p, q | 0 <= p < q < |t| ensures key(t[p]) <= key(t[q]) {
      if q == j && p < j - 1 {
        assert key(s[p]) <= key(s[j - 1]);
      }
    }
  }

  /** Exchanges `a[j - 1]` and `a[j]` and leaves every other element in place. */
  method SwapAdjacent<T>(a: array<T>, j: nat)
    requires 0 < j < a.Length
    modifies a
    ensures a[j - 1] == old(a[j]) && a[j] == old(a[j - 1])
    ensures forall k :: 0 <= k < a.Length && k != j - 1 && k != j ==> a[k] == old(a[k])
    ensures a[..] == old(a[..])[j - 1 := old(a[j])][j := old(a[j - 1])]
  {
    a[j - 1], a[j] := a[j], a[j - 1];
  }

  /** Swapping neighbours with different keys keeps the order within every key. */
  lemma {:induction false} SwapKeepsKeyOrder<T(!new)>(s: seq<T>, j: nat, key: T -> int)
    requires 0 < j < |s| && key(s[j]) != key(s[j - 1])
    ensures forall c :: Filter(s[j - 1 := s[j]][j := s[j - 1]], HasKey(key, c)) == Filter(s, HasKey(key, c))
  {
    var t := s[j - 1 := s[j]][j := s[j - 1]];
    forall c ensures Filter(t, HasKey(key, c)) == Filter(s, HasKey(key, c)) {
      var p := HasKey(key, c);
      var pre, post := s[..j - 1], s[j + 1..];
      assert s == pre + [s[j - 1], s[j]] + post;
      assert t == pre + [s[j], s[j - 1]] + post;
      FilterAppend(pre + [s[j - 1], s[j]], post, p);
      FilterAppend(pre, [s[j - 1], s[j]], p);
      FilterAppend(pre + [s[j], s[j - 1]], post, p);
      FilterAppend(pre, [s[j], s[j - 1]], p);
      FilterAppend([s[j - 1]], [s[j]], p);
      FilterAppend([s[j]], [s[j - 1]], p);
      assert [s[j - 1]] + [s[j]] == [s[j - 1], s[j]];
      assert [s[j]] + [s[j - 1]] == [s[j], s[j - 1]];
    }
  }

  /** `s.filter(p)`: the elements satisfying `p`, each as often as in `s`, in their order. */
  function Filter<T(!new)>(s: seq<T>, p: T -> bool): (r: seq<T>)
    ensures |r| <= |s|
    ensures forall i :: 0 <= i < |r| ==> p(r[i])
  {
    if s == [] then []
    else if p(s[0]) then [s[0]] + Filter(s[1..], p)
    else Filter(s[1..], p)
  }

  /** `filter` keeps exactly the elements that pass, each as often as in `s`. */
  lemma {:induction false} FilterCount<T(!new)>(s: seq<T>, p: T -> bool)
    ensures forall x :: multiset(Filter(s, p))[x] == if p(x) then multiset(s)[x] else 0
  {
    if s != [] {
      FilterCount(s[1..], p);
      assert s == [s[0]] + s[1..];
    }
  }

  /** The filter of a concatenation: what `filter` keeps from `a` comes before what it keeps from `b`. */
  lemma {:induction false} FilterAppend<T(!new)>(a: seq<T>, b: seq<T>, p: T -> bool)
    ensures Filter(a + b, p) == Filter(a, p) + Filter(b, p)
  {
    if a == [] {
      assert a + b == b;
    } else {
      FilterAppend(a[1..], b, p);
      assert (a + b)[1..] == a[1..] + b;
      assert (a + b)[0] == a[0];
    }
  }

  /** A filter every element passes keeps the whole sequence. */
  lemma {:induction false} FilterKeepsAll<T(!new)>(s: seq<T>, p: T -> bool)
    requires forall i :: 0 <= i < |s| ==> p(s[i])
    ensures Filter(s, p) == s
  {
    if s != [] {
      FilterKeepsAll(s[1..], p);
    }
  }

  /** `s.findIndex(p)`, with `None` for -1: the first index whose element passes `p`. */
  function FindFirst<T>(s: seq<T>, p: T -> bool): (r: Option<nat>)
    ensures r.Some? ==> r.value < |s| && p(s[r.value])
    ensures r.Some? ==> forall j :: 0 <= j < r.value ==> !p(s[j])
    ensures r.None? ==> forall j :: 0 <= j < |s| ==> !p(s[j])
  {
    if s == [] then None
    else if p(s[0]) then Some(0)
    else match FindFirst(s[1..], p)
      case None => None
      case Some(k) => Some(k + 1)
  }
}
