/** Generic ordering and grouping vocabulary: the first-occurrence order that
    `Distinct` keeps, concatenating per-element values, and a dict that collects
    those values under each element's key in element order (what a Python loop
    that extends `groups[key]` builds). */
module Groups {
  import opened Seqs

  /** `Distinct` keeps the order of first occurrence: an earlier element of the
      result first occurs earlier in `s`. */
  lemma {:induction false} DistinctFirstIndexOrder<T>(s: seq<T>)
    ensures forall i, j :: 0 <= i < j < |Distinct(s)| ==> FirstIndex(s, Distinct(s)[i]) < FirstIndex(s, Distinct(s)[j])
    decreases |s|
  {
    if s != [] {
      var init := s[..|s| - 1];
      var x := s[|s| - 1];
      var r0 := Distinct(init);
      DistinctFirstIndexOrder(init);
      assert s == init + [x];
      forall y | y in r0
        ensures FirstIndex(s, y) == FirstIndex(init, y)
      {
        FirstIndexAppendEarlier(init, x, y);
      }
      if x !in r0 {
        FirstIndexAppendNew(init, x);
      }
    }
  }

  /** Appending to a sequence does not move the first occurrence of an element
      already in it. */
  lemma FirstIndexAppendEarlier<T>(init: seq<T>, x: T, y: T)
    requires y in init
    ensures FirstIndex(init + [x], y) == FirstIndex(init, y)
  {
    var i := FirstIndex(init, y);
    var k := FirstIndex(init + [x], y);
    assert (init + [x])[i] == y;
    assert k <= i;
    assert init[k] == y;
  }

  /** A new element appended first occurs at the end. */
  lemma FirstIndexAppendNew<T>(init: seq<T>, x: T)
    requires x !in init
    ensures FirstIndex(init + [x], x) == |init|
  {
    assert (init + [x])[|init|] == x;
    assert forall j :: 0 <= j < |init| ==> (init + [x])[j] == init[j];
  }

  /** The concatenation of `val(x)` over the elements `x` of `s`. */
  function Concat<T, V>(s: seq<T>, val: T -> seq<V>): (r: seq<V>)
    decreases |s|
  {
    if s == [] then [] else Concat(s[..|s| - 1], val) + val(s[|s| - 1])
  }

  /** `Concat` is `Flatten` of the mapped sequence `vs`, kept as one recursion so
      that its lemmas unfold one element at a time. */
  lemma {:induction false} ConcatIsFlatten<T, V>(s: seq<T>, val: T -> seq<V>, vs: seq<seq<V>>)
    requires |vs| == |s|
    requires forall i :: 0 <= i < |s| ==> vs[i] == val(s[i])
    ensures Concat(s, val) == Flatten(vs)
    decreases |s|
  {
    if s != [] {
      ConcatIsFlatten(s[..|s| - 1], val, vs[..|vs| - 1]);
    }
  }

  lemma {:induction false} ConcatPairsLength<T, V>(s: seq<T>, val: T -> seq<V>)
    requires forall x :: x in s ==> |val(x)| == 2
    ensures |Concat(s, val)| == 2 * |s|
    decreases |s|
  {
    if s != [] {
      ConcatPairsLength(s[..|s| - 1], val);
    }
  }

  lemma {:induction false} ConcatAppend<T, V>(a: seq<T>, b: seq<T>, val: T -> seq<V>)
    ensures Concat(a + b, val) == Concat(a, val) + Concat(b, val)
    decreases |b|
  {
    if b == [] {
      assert a + b == a;
    } else {
      assert (a + b)[..|a + b| - 1] == a + b[..|b| - 1];
      ConcatAppend(a, b[..|b| - 1], val);
    }
  }

  /** The test "has key `k`". */
  function SameKey<T(!new), K(==)>(key: T -> K, k: K): (p: T -> bool)
    ensures forall x :: p(x) <==> key(x) == k
  {
    (x: T) => key(x) == k
  }

  /** A dict from each key to the concatenated values of its elements, filled
      in element order. */
  function GroupBy<T, K(==,!new), V>(s: seq<T>, key: T -> K, val: T -> seq<V>): (r: map<K, seq<V>>)
    ensures forall k :: k in r <==> k in Keys(s, key)
    decreases |s|
  {
    if s == [] then map[]
    else
      var init := s[..|s| - 1];
      var x := s[|s| - 1];
      var m := GroupBy(init, key, val);
      assert Keys(s, key) == Keys(init, key) + [key(x)];
      m[key(x) := (if key(x) in m then m[key(x)] else []) + val(x)]
  }

  /** The values collected under a key are those of its own elements, in order. */
  lemma {:induction false} GroupByIsConcat<T(!new), K(!new), V>(s: seq<T>, key: T -> K, val: T -> seq<V>, k: K)
    requires k in Keys(s, key)
    ensures GroupBy(s, key, val)[k] == Concat(Filter(s, SameKey(key, k)), val)
    decreases |s|
  {
    var init := s[..|s| - 1];
    var x := s[|s| - 1];
    var p := SameKey(key, k);
    var m := GroupBy(init, key, val);
    assert s == init + [x];
    assert Keys(s, key) == Keys(init, key) + [key(x)];
    assert GroupBy(s, key, val) == m[key(x) := (if key(x) in m then m[key(x)] else []) + val(x)];
    FilterAppend(init, [x], p);
    assert Filter([x], p) == (if key(x) == k then [x] else []) by {
      assert [x][..0] == [];
    }
    if key(x) != k {
      assert Filter(s, p) == Filter(init, p);
      GroupByIsConcat(init, key, val, k);
    } else {
      assert Filter(s, p) == Filter(init, p) + [x];
      ConcatAppend(Filter(init, p), [x], val);
      assert Concat([x], val) == val(x) by {
        assert [x][..0] == [];
      }
      if k in Keys(init, key) {
        GroupByIsConcat(init, key, val, k);
      } else {
        FilterNone(init, p);
      }
    }
  }
}
