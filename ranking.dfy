/**
 * The result ranker: SortScore reorders a list of results in place by ascending score,
 * then ascending name, then descending semantic version.
 */
module Ranking {
  import opened Options
  import opened Text
  import opened SemVer
  import opened Charts

  /** The version string a result is ranked by; a result without a chart ranks as "", a malformed version. */
  function VersionOf(r: Result): string {
    match r.chart
    case Some(cv) => cv.version
    case None => ""
  }

  /** SortScore's order: `x` goes before `y`. The higher version goes first, hence the swapped arguments. */
  predicate ScoreLess(x: Result, y: Result)
    ensures x.score != y.score ==> (ScoreLess(x, y) <==> x.score < y.score)
    ensures x.score == y.score && x.name != y.name ==> (ScoreLess(x, y) <==> StrLess(x.name, y.name))
    ensures ScoreLess(x, y) ==> !SameRank(x, y)
  {
    x.score < y.score
    || (x.score == y.score && (StrLess(x.name, y.name)
    || (x.name == y.name && VersionLess(VersionOf(y), VersionOf(x)))))
  }

  /** `x` and `y` agree on everything SortScore looks at. */
  predicate SameRank(x: Result, y: Result) {
    x.score == y.score && x.name == y.name && VersionOf(x) == VersionOf(y)
  }

  lemma ScoreLessIrreflexive(x: Result)
    ensures !ScoreLess(x, x)
  {
    StrLessIrreflexive(x.name);
    VersionLessIrreflexive(VersionOf(x));
  }

  lemma ScoreLessTransitive(x: Result, y: Result, z: Result)
    requires ScoreLess(x, y) && ScoreLess(y, z)
    ensures ScoreLess(x, z)
  {
    if x.score == y.score == z.score {
      if StrLess(x.name, y.name) && StrLess(y.name, z.name) {
        StrLessTransitive(x.name, y.name, z.name);
      } else if x.name == y.name == z.name {
        VersionLessTransitive(VersionOf(z), VersionOf(y), VersionOf(x));
      }
    }
  }

  /** Two results either agree on the sort keys or one of them goes first. */
  lemma ScoreLessTotal(x: Result, y: Result)
    ensures SameRank(x, y) || ScoreLess(x, y) || ScoreLess(y, x)
  {
    StrLessTotal(x.name, y.name);
    VersionLessTotal(VersionOf(x), VersionOf(y));
  }

  lemma ScoreLessAsymmetric(x: Result, y: Result)
    requires ScoreLess(x, y)
    ensures !ScoreLess(y, x)
  {
    if ScoreLess(y, x) {
      ScoreLessTransitive(x, y, x);
      ScoreLessIrreflexive(x);
    }
  }

  /** If `y` does not go before `x`, nor `z` before `y`, then `z` does not go before `x`. */
  lemma ScoreLessNegTransitive(x: Result, y: Result, z: Result)
    requires !ScoreLess(y, x) && !ScoreLess(z, y)
    ensures !ScoreLess(z, x)
  {
    ScoreLessTotal(x, y);
    ScoreLessTotal(y, z);
    if ScoreLess(z, x) {
      if ScoreLess(x, y) {
        ScoreLessTransitive(z, x, y);
      } else if !SameRank(y, z) {
        ScoreLessTransitive(y, z, x);
        ScoreLessAsymmetric(y, x);
      }
    }
  }

  /**
   * A strict weak order: irreflexive, transitive, and "does not go before" is transitive
   * too. Go's sort package demands this of a Less method.
   */
  ghost predicate StrictWeakOrder<T(!new)>(less: (T, T) -> bool) {
    (forall x :: !less(x, x))
    && (forall x, y, z :: less(x, y) && less(y, z) ==> less(x, z))
    && (forall x, y, z :: !less(y, x) && !less(z, y) ==> !less(z, x))
  }

  lemma ScoreLessIsStrictWeakOrder()
    ensures StrictWeakOrder(ScoreLess)
  {
    forall x | true ensures !ScoreLess(x, x) {
      ScoreLessIrreflexive(x);
    }
    forall x, y, z | ScoreLess(x, y) && ScoreLess(y, z) ensures ScoreLess(x, z) {
      ScoreLessTransitive(x, y, z);
    }
    forall x, y, z | !ScoreLess(y, x) && !ScoreLess(z, y) ensures !ScoreLess(z, x) {
      ScoreLessNegTransitive(x, y, z);
    }
  }

  /** No element goes before one that precedes it. */
  ghost predicate SortedBy<T>(s: seq<T>, less: (T, T) -> bool) {
    forall i, j :: 0 <= i < j < |s| ==> !less(s[j], s[i])
  }

  /** No result goes before one that precedes it. */
  ghost predicate Sorted(s: seq<Result>) {
    SortedBy(s, ScoreLess)
  }

  /**
   * What a sorted list looks like position by position: scores never decrease; under one
   * score names ascend; under one score and name the versions descend.
   */
  lemma SortedOrder(s: seq<Result>, i: int, j: int)
    requires Sorted(s) && 0 <= i < j < |s|
    ensures s[i].score <= s[j].score
    ensures s[i].score == s[j].score ==> s[i].name == s[j].name || StrLess(s[i].name, s[j].name)
    ensures s[i].score == s[j].score && s[i].name == s[j].name ==>
              VersionOf(s[i]) == VersionOf(s[j]) || VersionLess(VersionOf(s[j]), VersionOf(s[i]))
  {
    assert !ScoreLess(s[j], s[i]);
    StrLessTotal(s[i].name, s[j].name);
    VersionLessTotal(VersionOf(s[i]), VersionOf(s[j]));
  }

  /**
   * A sorted order is unique when no two of the elements are tied: any two sorted
   * permutations of the same elements are equal.
   */
  lemma {:induction false} SortedUnique<T(!new)>(s: seq<T>, t: seq<T>, less: (T, T) -> bool)
    requires SortedBy(s, less) && SortedBy(t, less) && multiset(s) == multiset(t)
    requires forall x, y :: x in s && y in s && !less(x, y) && !less(y, x) ==> x == y
    ensures s == t
  {
    if s == [] {
      assert |t| == |multiset(t)| == 0;
    } else {
      SortedHeads(s, t, less);
      SameTail(s, t);
      forall x, y | x in s[1..] && y in s[1..] && !less(x, y) && !less(y, x) ensures x == y {
        assert x in s && y in s;
      }
      SortedUnique(s[1..], t[1..], less);
      assert s == [s[0]] + s[1..] && t == [t[0]] + t[1..];
    }
  }

  /** Two sorted permutations without ties start with the same element. */
  lemma SortedHeads<T(!new)>(s: seq<T>, t: seq<T>, less: (T, T) -> bool)
    requires SortedBy(s, less) && SortedBy(t, less) && multiset(s) == multiset(t) && s != []
    requires forall x, y :: x in s && y in s && !less(x, y) && !less(y, x) ==> x == y
    ensures t != [] && s[0] == t[0]
  {
    assert s[0] in multiset(t);
    assert t[0] in multiset(s);
    var k :| 0 <= k < |t| && t[k] == s[0];
    var m :| 0 <= m < |s| && s[m] == t[0];
    if k > 0 && m > 0 {
      assert !less(t[k], t[0]);
      assert !less(s[m], s[0]);
    }
  }

  lemma SameTail<T>(s: seq<T>, t: seq<T>)
    requires s != [] && t != [] && s[0] == t[0] && multiset(s) == multiset(t)
    ensures multiset(s[1..]) == multiset(t[1..])
  {
    assert s == [s[0]] + s[1..];
    assert t == [t[0]] + t[1..];
    assert multiset(s) == multiset{s[0]} + multiset(s[1..]);
    assert multiset(t) == multiset{t[0]} + multiset(t[1..]);
    forall x ensures multiset(s[1..])[x] == multiset(t[1..])[x] {
      assert multiset(s)[x] == multiset{s[0]}[x] + multiset(s[1..])[x];
      assert multiset(t)[x] == multiset{t[0]}[x] + multiset(t[1..])[x];
    }
  }

  /**
   * A sequence in which each element goes before the next is strictly ordered
   * throughout: every element goes before every later one.
   */
  lemma {:induction false} ChainOrdered<T(!new)>(s: seq<T>, less: (T, T) -> bool)
    requires StrictWeakOrder(less)
    requires forall i :: 0 < i < |s| ==> less(s[i - 1], s[i])
    ensures forall i, j :: 0 <= i < j < |s| ==> less(s[i], s[j])
  {
    if |s| > 1 {
      ChainOrdered(s[1..], less);
      forall j | 1 < j < |s| ensures less(s[0], s[j]) {
        assert less(s[0], s[1]) && less(s[1], s[j]) by {
          assert s[1..][0] == s[1] && s[1..][j - 1] == s[j];
        }
      }
    }
  }

  /** A strictly ordered sequence is sorted, and no two of its elements are tied. */
  lemma ChainSorted<T(!new)>(s: seq<T>, less: (T, T) -> bool)
    requires StrictWeakOrder(less)
    requires forall i :: 0 < i < |s| ==> less(s[i - 1], s[i])
    ensures SortedBy(s, less)
    ensures forall x, y :: x in s && y in s && !less(x, y) && !less(y, x) ==> x == y
  {
    ChainOrdered(s, less);
    forall x, y | x in s && y in s && !less(x, y) && !less(y, x) ensures x == y {
      var i :| 0 <= i < |s| && s[i] == x;
      var j :| 0 <= j < |s| && s[j] == y;
      assert !(i < j) && !(j < i);
    }
  }

  /**
   * The state of Insert: across `s[..i + 1]` every pair not involving position `j` is in
   * order, and the element at `j` goes before every later one.
   */
  ghost predicate Gap<T>(s: seq<T>, i: int, j: int, less: (T, T) -> bool) {
    0 <= j <= i < |s|
    && (forall p, q :: 0 <= p < q <= i && p != j && q != j ==> !less(s[q], s[p]))
    && (forall q :: j < q <= i ==> less(s[j], s[q]))
  }

  /** Before Insert's first step the gap is at `i`, above a sorted prefix. */
  lemma GapAtTop<T>(s: seq<T>, i: int, less: (T, T) -> bool)
    requires 0 <= i < |s| && SortedBy(s[..i], less)
    ensures Gap(s, i, i, less)
  {
    forall p, q | 0 <= p < q <= i && p != i && q != i ensures !less(s[q], s[p]) {
      assert s[..i][p] == s[p] && s[..i][q] == s[q];
    }
  }

  /**
   * Moves `a[i]` down into the sorted prefix `a[..i]` by adjacent swaps, so that
   * `a[..i + 1]` is sorted; nothing beyond index `i` moves.
   */
  method Insert<T(!new)>(a: array<T>, i: nat, less: (T, T) -> bool)
    requires StrictWeakOrder(less)
    requires i < a.Length && SortedBy(a[..i], less)
    modifies a
    ensures SortedBy(a[..i + 1], less)
    ensures multiset(a[..]) == multiset(old(a[..]))
    ensures a[i + 1..] == old(a[i + 1..])
  {
    var j := i;
    GapAtTop(a[..], i, less);
    while j > 0 && less(a[j], a[j - 1])
      invariant Gap(a[..], i, j, less)
      invariant multiset(a[..]) == multiset(old(a[..]))
      invariant a[i + 1..] == old(a[i + 1..])
    {
      ghost var s := a[..];
      SwapKeepsOrder(s, i, j, less);
      SwapPermutes(s, j);
      a[j - 1], a[j] := a[j], a[j - 1];
      assert a[..] == s[j - 1 := s[j]][j := s[j - 1]];
      j := j - 1;
    }
    InsertedSorted(a[..], i, j, less);
  }

  /** Swapping two adjacent elements only reorders a sequence. */
  lemma SwapPermutes<T>(s: seq<T>, j: nat)
    requires 0 < j < |s|
    ensures multiset(s[j - 1 := s[j]][j := s[j - 1]]) == multiset(s)
  {
    var t := s[j - 1 := s[j]][j := s[j - 1]];
    assert s == s[..j - 1] + [s[j - 1], s[j]] + s[j + 1..];
    assert t == s[..j - 1] + [s[j], s[j - 1]] + s[j + 1..];
  }

  /**
   * One step of Insert: when the element at `j` goes before the one ahead of it, swapping
   * the two moves the gap one place down; nothing beyond `i` moves.
   */
  lemma SwapKeepsOrder<T(!new)>(s: seq<T>, i: nat, j: nat, less: (T, T) -> bool)
    requires Gap(s, i, j, less) && j > 0 && less(s[j], s[j - 1])
    ensures Gap(s[j - 1 := s[j]][j := s[j - 1]], i, j - 1, less)
    ensures s[j - 1 := s[j]][j := s[j - 1]][i + 1..] == s[i + 1..]
  {
  }

  /**
   * The exit state of Insert is sorted up to `i`: the gap is at `j`, and the element there
   * does not go before the one just ahead of it.
   */
  lemma InsertedSorted<T(!new)>(s: seq<T>, i: nat, j: nat, less: (T, T) -> bool)
    requires StrictWeakOrder(less)
    requires Gap(s, i, j, less)
    requires j > 0 ==> !less(s[j], s[j - 1])
    ensures SortedBy(s[..i + 1], less)
  {
    forall p, q | 0 <= p < q <= i ensures !less(s[q], s[p]) {
      if q == j && p < j - 1 {
        assert !less(s[j - 1], s[p]) && !less(s[j], s[j - 1]);
      } else if p == j {
        assert less(s[j], s[q]);
      }
    }
    assert forall p, q :: 0 <= p < q < i + 1 ==> s[..i + 1][q] == s[q] && s[..i + 1][p] == s[p];
  }

  /** Sorts `a` in place by `less` (insertion sort); only the order changes. */
  method SortBy<T(!new)>(a: array<T>, less: (T, T) -> bool)
    requires StrictWeakOrder(less)
    modifies a
    ensures SortedBy(a[..], less)
    ensures multiset(a[..]) == multiset(old(a[..]))
  {
    var i := 0;
    while i < a.Length
      invariant 0 <= i <= a.Length
      invariant SortedBy(a[..i], less)
      invariant multiset(a[..]) == multiset(old(a[..]))
    {
      Insert(a, i, less);
      i := i + 1;
    }
    assert a[..i] == a[..];
  }

  /** Reorders `a` in place by ascending score, then ascending name, then descending version. */
  method SortScore(a: array<Result>)
    modifies a
    ensures Sorted(a[..])
    ensures multiset(a[..]) == multiset(old(a[..]))
  {
    ScoreLessIsStrictWeakOrder();
    SortBy(a, ScoreLess);
  }
}
