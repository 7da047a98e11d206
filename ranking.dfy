/** Python's stable `list.sort(key=rank)` for keys drawn from a known, strictly
    increasing list of ranks. The sorted list is written as the elements of rank
    `ranks[0]` in their original order, then those of rank `ranks[1]`, and so on.
    Being sorted and keeping each rank's elements in their original order
    determines a stable sort's output; `SortedByRank` and `SortStable` prove both. */
module Ranking {
  import opened Seqs

  /** The elements of `s` with rank `r`, in their order. */
  function RankClass<T>(s: seq<T>, rank: T -> nat, r: nat): (c: seq<T>)
    ensures forall x :: x in c ==> x in s && rank(x) == r
  {
    Filter(s, x => rank(x) == r)
  }

  /** `sorted(s, key=rank)` when every rank occurs in `ranks`. */
  function SortByRanks<T>(s: seq<T>, rank: T -> nat, ranks: seq<nat>): (r: seq<T>)
    ensures forall x :: x in r ==> x in s && rank(x) in ranks
    decreases |ranks|
  {
    if ranks == [] then []
    else
      var prev := SortByRanks(s, rank, ranks[..|ranks| - 1]);
      prev + RankClass(s, rank, ranks[|ranks| - 1])
  }

  predicate StrictlyIncreasing(ranks: seq<nat>) {
    forall i, j :: 0 <= i < j < |ranks| ==> ranks[i] < ranks[j]
  }

  /** The ranks `0, 1, ..., n - 1`. */
  function Range(n: nat): (r: seq<nat>)
    ensures |r| == n && StrictlyIncreasing(r)
    ensures forall i :: 0 <= i < n ==> r[i] == i
  {
    seq(n, i => i)
  }

  /** An element of `s` with rank `r` belongs to the class of `r`. */
  lemma RankClassKeeps<T>(s: seq<T>, rank: T -> nat, r: nat, x: T)
    requires x in s && rank(x) == r
    ensures x in RankClass(s, rank, r)
  {
    FilterKeeps(s, x => rank(x) == r, x);
  }

  /** Filtering by a predicate that is the disjoint union of two others. */
  lemma {:induction false} FilterUnion<T>(s: seq<T>, p: T -> bool, q: T -> bool, u: T -> bool)
    requires forall x :: u(x) == (p(x) || q(x)) && !(p(x) && q(x))
    ensures multiset(Filter(s, u)) == multiset(Filter(s, p)) + multiset(Filter(s, q))
    decreases |s|
  {
    if s != [] {
      FilterUnion(s[..|s| - 1], p, q, u);
    }
  }

  lemma {:induction false} SortByRanksMultiset<T>(s: seq<T>, rank: T -> nat, ranks: seq<nat>)
    requires StrictlyIncreasing(ranks)
    ensures multiset(SortByRanks(s, rank, ranks)) == multiset(Filter(s, x => rank(x) in ranks))
    decreases |ranks|
  {
    if ranks == [] {
      FilterNone(s, x => rank(x) in ranks);
    } else {
      var init := ranks[..|ranks| - 1];
      var last := ranks[|ranks| - 1];
      SortByRanksMultiset(s, rank, init);
      assert forall r :: r in ranks <==> r in init || r == last;
      assert last !in init;
      FilterUnion(s, x => rank(x) in init, x => rank(x) == last, x => rank(x) in ranks);
    }
  }

  /** Sorting is a permutation when every element's rank is listed. */
  lemma SortIsPermutation<T>(s: seq<T>, rank: T -> nat, ranks: seq<nat>)
    requires StrictlyIncreasing(ranks)
    requires forall x :: x in s ==> rank(x) in ranks
    ensures multiset(SortByRanks(s, rank, ranks)) == multiset(s)
  {
    SortByRanksMultiset(s, rank, ranks);
    FilterAll(s, x => rank(x) in ranks);
  }

  predicate SortedBy<T>(s: seq<T>, rank: T -> nat) {
    forall i, j :: 0 <= i < j < |s| ==> rank(s[i]) <= rank(s[j])
  }

  /** The sorted list is ordered by rank. */
  lemma {:induction false} SortedByRank<T>(s: seq<T>, rank: T -> nat, ranks: seq<nat>)
    requires StrictlyIncreasing(ranks)
    ensures SortedBy(SortByRanks(s, rank, ranks), rank)
    decreases |ranks|
  {
    if ranks != [] {
      var init := ranks[..|ranks| - 1];
      var last := ranks[|ranks| - 1];
      SortedByRank(s, rank, init);
      var prev := SortByRanks(s, rank, init);
      var cls := RankClass(s, rank, last);
      var r := prev + cls;
      forall i, j | 0 <= i < j < |r|
        ensures rank(r[i]) <= rank(r[j])
      {
        if j >= |prev| {
          assert r[j] == cls[j - |prev|] && r[j] in cls;
          if i < |prev| {
            assert r[i] == prev[i] && r[i] in prev;
            var k :| 0 <= k < |init| && init[k] == rank(r[i]);
            assert ranks[k] == init[k];
            assert rank(r[i]) < last;
            assert rank(r[j]) == last;
          } else {
            assert r[i] == cls[i - |prev|] && r[i] in cls;
          }
        } else {
          assert r[i] == prev[i] && r[j] == prev[j];
          assert rank(prev[i]) <= rank(prev[j]);
        }
      }
    }
  }

  /** Elements of one rank leave the sort in their original order. */
  lemma {:induction false} SortStable<T>(s: seq<T>, rank: T -> nat, ranks: seq<nat>, r: nat)
    requires StrictlyIncreasing(ranks)
    requires r in ranks
    ensures RankClass(SortByRanks(s, rank, ranks), rank, r) == RankClass(s, rank, r)
    decreases |ranks|
  {
    var init := ranks[..|ranks| - 1];
    var last := ranks[|ranks| - 1];
    var prev := SortByRanks(s, rank, init);
    var cls := RankClass(s, rank, last);
    FilterAppend(prev, cls, x => rank(x) == r);
    if r == last {
      assert r !in init;
      FilterNone(prev, x => rank(x) == r);
      FilterAll(cls, x => rank(x) == r);
    } else {
      SortStable(s, rank, init, r);
      FilterNone(cls, x => rank(x) == r);
    }
  }

  /** The first element of a filter whose first element passes is that element. */
  lemma {:induction false} FilterHead<T>(s: seq<T>, p: T -> bool)
    requires s != [] && p(s[0])
    ensures Filter(s, p) != [] && Filter(s, p)[0] == s[0]
    decreases |s|
  {
    if |s| > 1 {
      FilterHead(s[..|s| - 1], p);
    }
  }

  /** The head of the sorted list: it has the least rank, and it is the first element
      of `s` with that rank. */
  lemma SortHead<T>(s: seq<T>, rank: T -> nat, ranks: seq<nat>)
    requires StrictlyIncreasing(ranks)
    requires s != [] && forall x :: x in s ==> rank(x) in ranks
    ensures |SortByRanks(s, rank, ranks)| == |s|
    ensures var h := SortByRanks(s, rank, ranks)[0];
      h in s && RankClass(s, rank, rank(h)) != [] && (forall x :: x in s ==> rank(h) <= rank(x)) && RankClass(s, rank, rank(h))[0] == h
  {
    var sorted := SortByRanks(s, rank, ranks);
    SortIsPermutation(s, rank, ranks);
    assert |sorted| == |multiset(sorted)| == |multiset(s)| == |s|;
    SortedByRank(s, rank, ranks);
    var h := sorted[0];
    forall x | x in s
      ensures rank(h) <= rank(x)
    {
      assert x in multiset(sorted);
      var j :| 0 <= j < |sorted| && sorted[j] == x;
    }
    SortStable(s, rank, ranks, rank(h));
    FilterHead(sorted, x => rank(x) == rank(h));
  }
}
