/** Kotlin's `filter` on lists, and the order-preservation facts about it. */
module Lists {

  /** `xs.filter(p)`: the elements satisfying `p`, in their original order. */
  function Filter<T>(xs: seq<T>, p: T -> bool): (r: seq<T>)
    ensures |r| <= |xs|
    ensures forall i | 0 <= i < |r| :: r[i] in xs && p(r[i])
    ensures forall i | 0 <= i < |xs| && p(xs[i]) :: xs[i] in r
    decreases |xs|
  {
    if xs == [] then []
    else if p(xs[0]) then [xs[0]] + Filter(xs[1..], p)
    else Filter(xs[1..], p)
  }

  /** A position at which a sequence holds a given element. */
  lemma IndexOf<T>(r: seq<T>, x: T) returns (j: int)
    requires x in r
    ensures 0 <= j < |r| && r[j] == x
  {
    j :| 0 <= j < |r| && r[j] == x;
  }

  /** `a` can be obtained from `b` by deleting elements. */
  predicate IsSubsequence<T(==)>(a: seq<T>, b: seq<T>)
    decreases |b|
  {
    if a == [] then true
    else if b == [] then false
    else if a[0] == b[0] then IsSubsequence(a[1..], b[1..])
    else IsSubsequence(a, b[1..])
  }

  /** Skipping one more element of `b` keeps `a` a subsequence. */
  lemma {:induction false} SubsequenceOfTail<T>(a: seq<T>, b: seq<T>)
    requires b != [] && IsSubsequence(a, b[1..])
    ensures IsSubsequence(a, b)
    decreases |b|, |a|
  {
    if a != [] && a[0] == b[0] {
      SubsequenceDropHead(a, b[1..]);
    }
  }

  /** Dropping the first element of `a` keeps it a subsequence. */
  lemma {:induction false} SubsequenceDropHead<T>(a: seq<T>, b: seq<T>)
    requires a != [] && IsSubsequence(a, b)
    ensures IsSubsequence(a[1..], b)
    decreases |b|, |a|
  {
    if a[0] == b[0] {
      if a[1..] != [] {
        SubsequenceOfTail(a[1..], b);
      }
    } else {
      SubsequenceDropHead(a, b[1..]);
      if a[1..] != [] {
        SubsequenceOfTail(a[1..], b);
      }
    }
  }

  /** Filtering keeps the survivors in their original relative order. */
  lemma {:induction false} FilterIsSubsequence<T>(xs: seq<T>, p: T -> bool)
    ensures IsSubsequence(Filter(xs, p), xs)
    decreases |xs|
  {
    if xs != [] {
      FilterIsSubsequence(xs[1..], p);
      if !p(xs[0]) {
        SubsequenceOfTail(Filter(xs[1..], p), xs);
      } else {
        assert ([xs[0]] + Filter(xs[1..], p))[1..] == Filter(xs[1..], p);
      }
    }
  }

  /** A predicate that holds everywhere keeps the whole list. */
  lemma {:induction false} FilterAll<T>(xs: seq<T>, p: T -> bool)
    requires forall x | x in xs :: p(x)
    ensures Filter(xs, p) == xs
    decreases |xs|
  {
    if xs != [] {
      FilterAll(xs[1..], p);
      assert [xs[0]] + xs[1..] == xs;
    }
  }

  // ------------------------------------------------------------------ groupBy

  /** The elements of `xs` whose key is `k`, in list order. */
  function GroupOf<T, K(==)>(xs: seq<T>, key: T -> K, k: K): (r: seq<T>)
    ensures forall i | 0 <= i < |r| :: r[i] in xs && key(r[i]) == k
    ensures forall x | x in xs && key(x) == k :: x in r
    decreases |xs|
  {
    if xs == [] then []
    else
      var p := xs[..|xs| - 1];
      assert forall x | x in p :: x in xs;
      GroupOf(p, key, k) + (if key(xs[|xs| - 1]) == k then [xs[|xs| - 1]] else [])
  }

  /** The position of the first element with key `k`, or `|xs|` when there is none. */
  function FirstIndex<T, K(==)>(xs: seq<T>, key: T -> K, k: K): (n: nat)
    ensures n <= |xs|
    ensures n < |xs| ==> key(xs[n]) == k && forall j | 0 <= j < n :: key(xs[j]) != k
    ensures n == |xs| ==> forall j | 0 <= j < |xs| :: key(xs[j]) != k
    decreases |xs|
  {
    if xs == [] then 0
    else
      var p := xs[..|xs| - 1];
      var m := FirstIndex(p, key, k);
      if m < |p| then m else if key(xs[|xs| - 1]) == k then |p| else |xs|
  }

  /** The position of the group with key `k`, or `|groups|` when there is none. */
  function GroupIndex<T, K(==)>(groups: seq<(K, seq<T>)>, k: K): (n: nat)
    ensures n <= |groups|
    ensures n < |groups| ==> groups[n].0 == k
    ensures n == |groups| ==> forall i | 0 <= i < |groups| :: groups[i].0 != k
    decreases |groups|
  {
    if groups == [] then 0
    else if groups[0].0 == k then 0
    else 1 + GroupIndex(groups[1..], k)
  }

  /**
   * Kotlin's `groupBy`: the elements are visited in order, each one appended
   * to the group of its key, a group being opened for a key not seen before.
   */
  function GroupBy<T, K(==)>(xs: seq<T>, key: T -> K): seq<(K, seq<T>)>
    decreases |xs|
  {
    if xs == [] then []
    else
      var g := GroupBy(xs[..|xs| - 1], key);
      var x := xs[|xs| - 1];
      var m := GroupIndex(g, key(x));
      if m < |g| then g[m := (key(x), g[m].1 + [x])] else g + [(key(x), [x])]
  }

  /** Visiting one more element: how the first positions change. */
  lemma FirstIndexSnoc<T, K>(p: seq<T>, x: T, key: T -> K, k: K)
    ensures FirstIndex(p + [x], key, k) ==
              if FirstIndex(p, key, k) < |p| then FirstIndex(p, key, k)
              else if key(x) == k then |p| else |p| + 1
  {
    assert (p + [x])[..|p|] == p;
  }

  /** Visiting one more element: it joins the elements of its own key only. */
  lemma GroupOfSnoc<T, K>(p: seq<T>, x: T, key: T -> K, k: K)
    ensures GroupOf(p + [x], key, k) == GroupOf(p, key, k) + (if key(x) == k then [x] else [])
  {
    assert (p + [x])[..|p|] == p;
  }

  /** A key that does not occur has no elements. */
  lemma GroupOfAbsent<T, K>(xs: seq<T>, key: T -> K, k: K)
    requires FirstIndex(xs, key, k) == |xs|
    ensures GroupOf(xs, key, k) == []
  {
    forall y | y in xs ensures key(y) != k {
      var j := IndexOf(xs, y);
    }
  }

  /** The groups have distinct keys, and a key has a group exactly when it occurs in the list. */
  lemma {:induction false} GroupByKeys<T, K>(xs: seq<T>, key: T -> K)
    ensures forall i, j | 0 <= i < j < |GroupBy(xs, key)| :: GroupBy(xs, key)[i].0 != GroupBy(xs, key)[j].0
    ensures forall k :: GroupIndex(GroupBy(xs, key), k) < |GroupBy(xs, key)| <==> FirstIndex(xs, key, k) < |xs|
    decreases |xs|
  {
    if xs != [] {
      var p, x := xs[..|xs| - 1], xs[|xs| - 1];
      assert xs == p + [x];
      GroupByKeys(p, key);
      var g, g' := GroupBy(p, key), GroupBy(xs, key);
      var m := GroupIndex(g, key(x));
      if m < |g| {
        assert g' == g[m := (key(x), g[m].1 + [x])];
        forall k ensures GroupIndex(g', k) < |g'| <==> FirstIndex(xs, key, k) < |xs| {
          FirstIndexSnoc(p, x, key, k);
          if GroupIndex(g, k) < |g| {
            assert g'[GroupIndex(g, k)].0 == k;
          } else {
            forall i | 0 <= i < |g'| ensures g'[i].0 != k {
              assert g'[i].0 == g[i].0;
            }
          }
        }
      } else {
        assert g' == g + [(key(x), [x])];
        forall k ensures GroupIndex(g', k) < |g'| <==> FirstIndex(xs, key, k) < |xs| {
          FirstIndexSnoc(p, x, key, k);
          if GroupIndex(g, k) < |g| {
            assert g'[GroupIndex(g, k)].0 == k;
          } else if k == key(x) {
            assert g'[|g|].0 == k;
          } else {
            forall i | 0 <= i < |g'| ensures g'[i].0 != k {
              if i < |g| { assert g'[i].0 == g[i].0; }
            }
          }
        }
      }
    }
  }

  /** Each group holds exactly the elements of its key, in list order. */
  lemma {:induction false} GroupByContents<T, K>(xs: seq<T>, key: T -> K)
    ensures forall i | 0 <= i < |GroupBy(xs, key)| :: GroupBy(xs, key)[i].1 == GroupOf(xs, key, GroupBy(xs, key)[i].0)
    decreases |xs|
  {
    if xs != [] {
      var p, x := xs[..|xs| - 1], xs[|xs| - 1];
      assert xs == p + [x];
      GroupByContents(p, key);
      GroupByKeys(p, key);
      var g, g' := GroupBy(p, key), GroupBy(xs, key);
      var m := GroupIndex(g, key(x));
      if m < |g| {
        assert g' == g[m := (key(x), g[m].1 + [x])];
        forall i | 0 <= i < |g'| ensures g'[i].1 == GroupOf(xs, key, g'[i].0) {
          GroupOfSnoc(p, x, key, g'[i].0);
        }
      } else {
        assert g' == g + [(key(x), [x])];
        forall i | 0 <= i < |g'| ensures g'[i].1 == GroupOf(xs, key, g'[i].0) {
          GroupOfSnoc(p, x, key, g'[i].0);
          if i == |g| {
            GroupOfAbsent(p, key, key(x));
          }
        }
      }
    }
  }

  /** The groups come in the order in which their keys first occur. */
  lemma {:induction false} GroupByOrder<T, K>(xs: seq<T>, key: T -> K)
    ensures forall i, j | 0 <= i < j < |GroupBy(xs, key)| ::
              FirstIndex(xs, key, GroupBy(xs, key)[i].0) < FirstIndex(xs, key, GroupBy(xs, key)[j].0)
    decreases |xs|
  {
    if xs != [] {
      var p, x := xs[..|xs| - 1], xs[|xs| - 1];
      assert xs == p + [x];
      GroupByOrder(p, key);
      GroupByKeys(p, key);
      var g, g' := GroupBy(p, key), GroupBy(xs, key);
      var m := GroupIndex(g, key(x));
      if m < |g| {
        assert g' == g[m := (key(x), g[m].1 + [x])];
        forall i, j | 0 <= i < j < |g'| ensures FirstIndex(xs, key, g'[i].0) < FirstIndex(xs, key, g'[j].0) {
          assert g'[i].0 == g[i].0 && g'[j].0 == g[j].0;
          FirstIndexSnoc(p, x, key, g[i].0);
          FirstIndexSnoc(p, x, key, g[j].0);
        }
      } else {
        assert g' == g + [(key(x), [x])];
        forall i, j | 0 <= i < j < |g'| ensures FirstIndex(xs, key, g'[i].0) < FirstIndex(xs, key, g'[j].0) {
          FirstIndexSnoc(p, x, key, g'[i].0);
          FirstIndexSnoc(p, x, key, g'[j].0);
        }
      }
    }
  }

  /** Every group's key is the key of some element: its first occurrence is in range. */
  lemma GroupKeyOccurs<T, K>(xs: seq<T>, key: T -> K, i: nat)
    requires i < |GroupBy(xs, key)|
    ensures FirstIndex(xs, key, GroupBy(xs, key)[i].0) < |xs|
  {
    var g := GroupBy(xs, key);
    GroupByKeys(xs, key);
    assert GroupIndex(g, g[i].0) < |g|;
  }
}
