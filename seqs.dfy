/** Generic sequence vocabulary shared by the list transformations: order-preserving
    filtering, first-occurrence de-duplication (what a Python `seen` set or an
    insertion-ordered `dict` produces) and flattening. Every
    recursive definition peels off the LAST element, so that a forward loop over
    `s[..j]` extends it by one step. */
module Seqs {

  /** The index of the first occurrence of `x` in `s` (`s.index(x)`), or `|s|`
      when `x` does not occur. */
  function FirstIndex<T(==)>(s: seq<T>, x: T): (i: nat)
    ensures i <= |s|
    ensures i < |s| <==> x in s
    ensures i < |s| ==> s[i] == x
    ensures forall j :: 0 <= j < i ==> s[j] != x
    decreases |s|
  {
    if s == [] then 0
    else if s[0] == x then 0
    else 1 + FirstIndex(s[1..], x)
  }

  /** The elements of `s` that satisfy `p`, in their order. */
  function Filter<T>(s: seq<T>, p: T -> bool): (r: seq<T>)
    ensures |r| <= |s|
    ensures forall x :: x in r ==> x in s && p(x)
    decreases |s|
  {
    if s == [] then []
    else Filter(s[..|s| - 1], p) + (if p(s[|s| - 1]) then [s[|s| - 1]] else [])
  }

  /** Extending a prefix by one element extends its filtered sequence by that
      element when it passes. */
  lemma FilterStep<T>(s: seq<T>, p: T -> bool, i: nat)
    requires i < |s|
    ensures Filter(s[..i + 1], p) == Filter(s[..i], p) + (if p(s[i]) then [s[i]] else [])
  {
    assert s[..i + 1][..i] == s[..i];
  }

  lemma {:induction false} FilterAppend<T>(a: seq<T>, b: seq<T>, p: T -> bool)
    ensures Filter(a + b, p) == Filter(a, p) + Filter(b, p)
    decreases |b|
  {
    if b == [] {
      assert a + b == a;
    } else {
      assert (a + b)[..|a + b| - 1] == a + b[..|b| - 1];
      FilterAppend(a, b[..|b| - 1], p);
    }
  }

  /** Every element of `s` satisfying `p` is kept. */
  lemma {:induction false} FilterKeeps<T>(s: seq<T>, p: T -> bool, x: T)
    requires x in s && p(x)
    ensures x in Filter(s, p)
    decreases |s|
  {
    if s[|s| - 1] != x {
      assert x in s[..|s| - 1];
      FilterKeeps(s[..|s| - 1], p, x);
    }
  }

  /** Filtering keeps everything when every element satisfies `p`. */
  lemma {:induction false} FilterAll<T>(s: seq<T>, p: T -> bool)
    requires forall x :: x in s ==> p(x)
    ensures Filter(s, p) == s
    decreases |s|
  {
    if s != [] {
      FilterAll(s[..|s| - 1], p);
      assert s == s[..|s| - 1] + [s[|s| - 1]];
    }
  }

  /** Filtering drops everything when no element satisfies `p`. */
  lemma {:induction false} FilterNone<T>(s: seq<T>, p: T -> bool)
    requires forall x :: x in s ==> !p(x)
    ensures Filter(s, p) == []
    decreases |s|
  {
    if s != [] {
      FilterNone(s[..|s| - 1], p);
    }
  }

  /** `p` and its negation split `s` into two parts whose union is `s`, counting multiplicity. */
  lemma {:induction false} FilterSplit<T>(s: seq<T>, p: T -> bool, q: T -> bool)
    requires forall x :: q(x) == !p(x)
    ensures multiset(Filter(s, p)) + multiset(Filter(s, q)) == multiset(s)
    decreases |s|
  {
    if s != [] {
      FilterSplit(s[..|s| - 1], p, q);
      assert s == s[..|s| - 1] + [s[|s| - 1]];
    }
  }

  /** `a` is obtained from `b` by deleting elements. */
  predicate IsSubsequence<T(==)>(a: seq<T>, b: seq<T>)
    decreases |b|
  {
    if a == [] then true
    else if b == [] then false
    else if a[|a| - 1] == b[|b| - 1] then IsSubsequence(a[..|a| - 1], b[..|b| - 1])
    else IsSubsequence(a, b[..|b| - 1])
  }

  lemma {:induction false} SubsequenceOfSelf<T>(s: seq<T>)
    ensures IsSubsequence(s, s)
    decreases |s|
  {
    if s != [] {
      SubsequenceOfSelf(s[..|s| - 1]);
    }
  }

  lemma {:induction false} SubsequenceExtend<T>(a: seq<T>, b: seq<T>, x: T)
    requires IsSubsequence(a, b)
    ensures IsSubsequence(a, b + [x])
    ensures IsSubsequence(a + [x], b + [x])
  {
    assert (b + [x])[..|b|] == b;
    assert (a + [x])[..|a|] == a;
    SubsequenceWeaken(a, b, x);
  }

  /** Appending to the longer sequence keeps a subsequence one. */
  lemma {:induction false} SubsequenceWeaken<T>(a: seq<T>, b: seq<T>, x: T)
    requires IsSubsequence(a, b)
    ensures IsSubsequence(a, b + [x])
    decreases |b|, 1
  {
    assert (b + [x])[..|b|] == b;
    if a != [] && a[|a| - 1] == x {
      SubsequenceDropLast(a, b);
    }
  }

  /** Dropping the last element of a subsequence keeps it one. */
  lemma {:induction false} SubsequenceDropLast<T>(a: seq<T>, b: seq<T>)
    requires a != [] && IsSubsequence(a, b)
    ensures IsSubsequence(a[..|a| - 1], b)
    decreases |b|, 0
  {
    var b' := b[..|b| - 1];
    assert b' + [b[|b| - 1]] == b;
    if a[|a| - 1] == b[|b| - 1] {
      SubsequenceWeaken(a[..|a| - 1], b', b[|b| - 1]);
    } else {
      SubsequenceDropLast(a, b');
      SubsequenceWeaken(a[..|a| - 1], b', b[|b| - 1]);
    }
  }

  lemma {:induction false} FilterIsSubsequence<T>(s: seq<T>, p: T -> bool)
    ensures IsSubsequence(Filter(s, p), s)
    decreases |s|
  {
    if s != [] {
      var init := s[..|s| - 1];
      FilterIsSubsequence(init, p);
      assert init + [s[|s| - 1]] == s;
      SubsequenceExtend(Filter(init, p), init, s[|s| - 1]);
      if p(s[|s| - 1]) {
        assert Filter(s, p) == Filter(init, p) + [s[|s| - 1]];
      } else {
        assert Filter(s, p) == Filter(init, p);
      }
    }
  }

  /** No element occurs twice. */
  predicate NoDuplicates<T(==)>(s: seq<T>) {
    forall i, j :: 0 <= i < j < |s| ==> s[i] != s[j]
  }

  /** The elements of `s`, each kept at its first occurrence. */
  function Distinct<T(==)>(s: seq<T>): (r: seq<T>)
    ensures NoDuplicates(r)
    ensures forall x :: x in r ==> x in s
    ensures forall x :: x in s ==> x in r
    decreases |s|
  {
    if s == [] then []
    else
      var r := Distinct(s[..|s| - 1]);
      assert forall x :: x in s ==> x in s[..|s| - 1] || x == s[|s| - 1];
      if s[|s| - 1] in r then r else r + [s[|s| - 1]]
  }

  lemma {:induction false} DistinctOfDistinct<T>(s: seq<T>)
    requires NoDuplicates(s)
    ensures Distinct(s) == s
    decreases |s|
  {
    if s != [] {
      DistinctOfDistinct(s[..|s| - 1]);
      assert s[|s| - 1] !in s[..|s| - 1];
    }
  }

  lemma {:induction false} DistinctIsSubsequence<T>(s: seq<T>)
    ensures IsSubsequence(Distinct(s), s)
    decreases |s|
  {
    if s != [] {
      var init := s[..|s| - 1];
      DistinctIsSubsequence(init);
      assert init + [s[|s| - 1]] == s;
      SubsequenceExtend(Distinct(init), init, s[|s| - 1]);
    }
  }

  /** The keys of the elements of `s`, in order. */
  function Keys<T, K>(s: seq<T>, key: T -> K): (r: seq<K>)
    ensures |r| == |s| && forall i :: 0 <= i < |s| ==> r[i] == key(s[i])
  {
    seq(|s|, i requires 0 <= i < |s| => key(s[i]))
  }

  /** The elements of `s` whose key was not taken by an earlier element: the first
      element per key wins. */
  function DedupBy<T, K(==)>(s: seq<T>, key: T -> K): (r: seq<T>)
    ensures NoDuplicates(Keys(r, key))
    ensures forall x :: x in r ==> x in s
    ensures forall x :: x in s ==> key(x) in Keys(r, key)
    decreases |s|
  {
    if s == [] then []
    else
      var r := DedupBy(s[..|s| - 1], key);
      var x := s[|s| - 1];
      assert forall y :: y in s ==> y in s[..|s| - 1] || y == x;
      if key(x) in Keys(r, key) then r
      else
        assert Keys(r + [x], key) == Keys(r, key) + [key(x)];
        r + [x]
  }

  /** The element kept for a key is the first element of `s` with that key. */
  lemma {:induction false} DedupByFirst<T, K>(s: seq<T>, key: T -> K, i: nat)
    requires i < |s|
    requires forall j :: 0 <= j < i ==> key(s[j]) != key(s[i])
    ensures s[i] in DedupBy(s, key)
    decreases |s|
  {
    var init := s[..|s| - 1];
    if i < |s| - 1 {
      DedupByFirst(init, key, i);
    } else {
      var r := DedupBy(init, key);
      forall k | 0 <= k < |r|
        ensures Keys(r, key)[k] != key(s[i])
      {
        assert r[k] in init;
      }
    }
  }

  /** An element is kept only if no earlier element shares its key. */
  lemma {:induction false} DedupByOnlyFirst<T, K>(s: seq<T>, key: T -> K, x: T)
    requires x in DedupBy(s, key)
    ensures exists i :: 0 <= i < |s| && s[i] == x && forall j :: 0 <= j < i ==> key(s[j]) != key(x)
    decreases |s|
  {
    var init := s[..|s| - 1];
    var r := DedupBy(init, key);
    if x in r {
      DedupByOnlyFirst(init, key, x);
      var i :| 0 <= i < |init| && init[i] == x && forall j :: 0 <= j < i ==> key(init[j]) != key(x);
      forall j | 0 <= j < i
        ensures key(s[j]) != key(x)
      {
        assert s[j] == init[j];
      }
      assert s[i] == x;
    } else {
      var last := |s| - 1;
      assert x == s[last] && key(x) !in Keys(r, key);
      forall j | 0 <= j < last
        ensures key(s[j]) != key(x)
      {
        assert s[j] == init[j];
        assert key(init[j]) in Keys(r, key);
      }
      assert 0 <= last < |s| && s[last] == x;
    }
  }

  lemma {:induction false} DedupByIsSubsequence<T, K>(s: seq<T>, key: T -> K)
    ensures IsSubsequence(DedupBy(s, key), s)
    decreases |s|
  {
    if s != [] {
      var init := s[..|s| - 1];
      DedupByIsSubsequence(init, key);
      assert init + [s[|s| - 1]] == s;
      SubsequenceExtend(DedupBy(init, key), init, s[|s| - 1]);
    }
  }

  /** Concatenation of a sequence of sequences. */
  function Flatten<T>(ss: seq<seq<T>>): (r: seq<T>)
    decreases |ss|
  {
    if ss == [] then [] else Flatten(ss[..|ss| - 1]) + ss[|ss| - 1]
  }

  lemma {:induction false} FlattenAppend<T>(a: seq<seq<T>>, b: seq<seq<T>>)
    ensures Flatten(a + b) == Flatten(a) + Flatten(b)
    decreases |b|
  {
    if b == [] {
      assert a + b == a;
    } else {
      assert (a + b)[..|a + b| - 1] == a + b[..|b| - 1];
      FlattenAppend(a, b[..|b| - 1]);
    }
  }

  /** Number of occurrences of `x` in `s`. */
  function Count<T(==)>(s: seq<T>, x: T): (n: nat)
    ensures n == 0 <==> x !in s
    decreases |s|
  {
    if s == [] then 0
    else
      assert x in s <==> x in s[..|s| - 1] || x == s[|s| - 1] by {
        assert s == s[..|s| - 1] + [s[|s| - 1]];
      }
      Count(s[..|s| - 1], x) + (if s[|s| - 1] == x then 1 else 0)
  }
}
