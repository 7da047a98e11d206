/** The bucket sort of `sort_by_resolution_inside_same_channel` (vavoo/vavoo2.py):
    items are gathered into buckets by a key, the buckets appear in the order their
    key first occurs, and every bucket with more than one item is stably sorted by a
    rank. The module is generic in the item type, the key and the rank; the channel
    list instantiates them in module Lists. */
module Buckets {
  import opened Seqs
  import opened Groups
  import opened Ranking

  /** The ranks the resolution sort can produce: a variant rank 0..4, or 99 for
      an item the resolution cache does not know. */
  const SortRanks: seq<nat> := [0, 1, 2, 3, 4, 99]

  lemma SortRanksIncreasing()
    ensures StrictlyIncreasing(SortRanks)
  {
  }

  /** The predicate "has key `k`". */
  function HasKey<T, K(==)>(key: T -> K, k: K): T -> bool {
    x => key(x) == k
  }

  /** The bucket of key `k`: the items with that key, in their order. */
  function Bucket<T, K(==)>(s: seq<T>, key: T -> K, k: K): seq<T> {
    Filter(s, HasKey(key, k))
  }

  /** The keys of the buckets, in the order they first occur. */
  function BucketOrder<T, K(==)>(s: seq<T>, key: T -> K): (ks: seq<K>)
    ensures NoDuplicates(ks)
    ensures forall x :: x in s ==> key(x) in ks
  {
    Distinct(Keys(s, key))
  }

  /** The buckets of the keys `ks`, in that order. */
  function BucketsOf<T, K(==)>(s: seq<T>, key: T -> K, ks: seq<K>): (r: seq<seq<T>>)
    ensures |r| == |ks|
  {
    seq(|ks|, j requires 0 <= j < |ks| => Bucket(s, key, ks[j]))
  }

  /** A bucket as it enters the output: a single item as it is, a larger bucket
      sorted by rank (Python's `list.sort` is stable). */
  function SortBucket<T>(b: seq<T>, rank: T -> nat): seq<T> {
    if |b| == 1 then b else SortByRanks(b, rank, SortRanks)
  }

  /** The buckets of the keys `ks`, each as it enters the output. */
  function SortedBuckets<T, K(==)>(s: seq<T>, key: T -> K, rank: T -> nat, ks: seq<K>): (r: seq<seq<T>>)
    ensures |r| == |ks|
  {
    seq(|ks|, j requires 0 <= j < |ks| => SortBucket(Bucket(s, key, ks[j]), rank))
  }

  /** The result: the buckets in first-occurrence order of their key, concatenated. */
  function BucketSort<T, K(==)>(s: seq<T>, key: T -> K, rank: T -> nat): seq<T> {
    Flatten(SortedBuckets(s, key, rank, BucketOrder(s, key)))
  }

  // ---------------------------------------------------------------------------
  // The loops

  /** A new item extends the key order only when its key is new. */
  lemma OrderStep<T, K>(s: seq<T>, key: T -> K, x: T)
    ensures Distinct(Keys(s + [x], key))
            == if key(x) in Distinct(Keys(s, key)) then Distinct(Keys(s, key)) else Distinct(Keys(s, key)) + [key(x)]
  {
    assert Keys(s + [x], key)[..|s|] == Keys(s, key);
  }

  /** Appending an item extends the bucket of its key only. */
  lemma BucketStep<T, K>(s: seq<T>, key: T -> K, x: T, k: K)
    ensures Bucket(s + [x], key, k) == Bucket(s, key, k) + (if key(x) == k then [x] else [])
  {
    assert (s + [x])[..|s + [x]| - 1] == s;
  }

  /** A key no item has opens an empty bucket. */
  lemma NewBucket<T, K>(s: seq<T>, key: T -> K, ks: seq<K>, k: K)
    requires k !in Keys(s, key)
    ensures BucketsOf(s, key, ks + [k]) == BucketsOf(s, key, ks) + [[]]
  {
    forall x | x in s
      ensures !HasKey(key, k)(x)
    {
      var i :| 0 <= i < |s| && s[i] == x;
      assert Keys(s, key)[i] == key(x);
    }
    FilterNone(s, HasKey(key, k));
  }

  /** Appending an item to the bucket of its key keeps every bucket equal to the
      items of its key. */
  lemma AddToBucket<T, K>(s: seq<T>, key: T -> K, x: T, ks: seq<K>, slot: nat)
    requires NoDuplicates(ks)
    requires slot < |ks| && ks[slot] == key(x)
    ensures BucketsOf(s + [x], key, ks) == BucketsOf(s, key, ks)[slot := BucketsOf(s, key, ks)[slot] + [x]]
  {
    var before := BucketsOf(s, key, ks);
    forall j | 0 <= j < |ks|
      ensures before[slot := before[slot] + [x]][j] == Bucket(s + [x], key, ks[j])
    {
      BucketStep(s, key, x, ks[j]);
      if j != slot {
        assert ks[j] != ks[slot];
      }
    }
  }

  /** What the gathering loop keeps after the items `s`: the keys in first-occurrence
      order, their buckets, and `index_map` locating each key's bucket. */
  ghost predicate Gathered<T, K>(s: seq<T>, key: T -> K, order: seq<K>, buckets: seq<seq<T>>,
                                     indexMap: map<K, nat>) {
    && order == Distinct(Keys(s, key))
    && buckets == BucketsOf(s, key, order)
    && (forall j :: 0 <= j < |order| ==> order[j] in indexMap)
    && (forall k :: k in indexMap ==> indexMap[k] < |order| && order[indexMap[k]] == k)
  }

  /** An item whose key has a bucket joins it. */
  lemma KnownKeyStep<T, K>(s: seq<T>, key: T -> K, x: T, order: seq<K>, buckets: seq<seq<T>>, indexMap: map<K, nat>)
    requires Gathered(s, key, order, buckets, indexMap) && key(x) in indexMap
    ensures var idx := indexMap[key(x)];
            idx < |buckets| && Gathered(s + [x], key, order, buckets[idx := buckets[idx] + [x]], indexMap)
  {
    OrderStep(s, key, x);
    AddToBucket(s, key, x, order, indexMap[key(x)]);
  }

  /** An item with a new key opens a bucket at the end. */
  lemma NewKeyStep<T, K>(s: seq<T>, key: T -> K, x: T, order: seq<K>, buckets: seq<seq<T>>, indexMap: map<K, nat>)
    requires Gathered(s, key, order, buckets, indexMap) && key(x) !in indexMap
    ensures var grown := buckets + [[]];
            Gathered(s + [x], key, order + [key(x)], grown[|buckets| := grown[|buckets|] + [x]],
                     indexMap[key(x) := |buckets|])
  {
    var k := key(x);
    OrderStep(s, key, x);
    assert k !in order;
    assert k !in Keys(s, key);
    NewBucket(s, key, order, k);
    AddToBucket(s, key, x, order + [k], |order|);
  }

  /** The first loop of `sort_by_resolution_inside_same_channel`: gathers the
      buckets, with `index_map` giving each key's bucket position. */
  method GatherBuckets<T, K(==)>(items: seq<T>, key: T -> K) returns (buckets: seq<seq<T>>, ghost order: seq<K>)
    ensures order == BucketOrder(items, key)
    ensures buckets == BucketsOf(items, key, order)
  {
    buckets := [];
    order := [];
    var indexMap: map<K, nat> := map[];
    var i := 0;
    while i < |items|
      invariant i <= |items|
      invariant Gathered(items[..i], key, order, buckets, indexMap)
    {
      var x := items[i];
      var k := key(x);
      if k !in indexMap {
        NewKeyStep(items[..i], key, x, order, buckets, indexMap);
        indexMap := indexMap[k := |buckets|];
        buckets := buckets + [[]];
        order := order + [k];
      } else {
        KnownKeyStep(items[..i], key, x, order, buckets, indexMap);
      }
      var idx := indexMap[k];
      buckets := buckets[idx := buckets[idx] + [x]];
      assert items[..i + 1] == items[..i] + [x];
      i := i + 1;
    }
    assert items[..|items|] == items;
  }

  /** `sort_by_resolution_inside_same_channel`, for any key and rank. */
  method SortInsideBuckets<T, K(==)>(items: seq<T>, key: T -> K, rank: T -> nat) returns (out: seq<T>)
    ensures out == BucketSort(items, key, rank)
  {
    var buckets, order := GatherBuckets(items, key);
    ghost var sorted := SortedBuckets(items, key, rank, order);
    out := [];
    var j := 0;
    while j < |buckets|
      invariant j <= |buckets|
      invariant out == Flatten(sorted[..j])
    {
      var b := buckets[j];
      assert sorted[..j + 1][..j] == sorted[..j];
      if |b| == 1 {
        out := out + b;
      } else {
        out := out + SortByRanks(b, rank, SortRanks);
      }
      j := j + 1;
    }
    assert sorted[..|buckets|] == sorted;
  }

  // ---------------------------------------------------------------------------
  // What the result is

  /** Concatenating sequences that are permutations of each other, pairwise. */
  lemma {:induction false} FlattenMultiset<T>(a: seq<seq<T>>, b: seq<seq<T>>)
    requires |a| == |b| && forall j :: 0 <= j < |a| ==> multiset(a[j]) == multiset(b[j])
    ensures multiset(Flatten(a)) == multiset(Flatten(b))
    decreases |a|
  {
    if a != [] {
      FlattenMultiset(a[..|a| - 1], b[..|b| - 1]);
    }
  }

  /** The buckets of distinct keys together hold exactly the items whose key is
      one of them. */
  lemma {:induction false} BucketsPartition<T, K>(s: seq<T>, key: T -> K, ks: seq<K>)
    requires NoDuplicates(ks)
    ensures multiset(Flatten(BucketsOf(s, key, ks))) == multiset(Filter(s, x => key(x) in ks))
    decreases |ks|
  {
    var bs := BucketsOf(s, key, ks);
    if ks == [] {
      FilterNone(s, x => key(x) in ks);
    } else {
      var init := ks[..|ks| - 1];
      var last := ks[|ks| - 1];
      BucketsPartition(s, key, init);
      assert bs[..|bs| - 1] == BucketsOf(s, key, init);
      assert forall k :: k in ks <==> k in init || k == last;
      assert last !in init;
      FilterUnion(s, x => key(x) in init, HasKey(key, last), x => key(x) in ks);
    }
  }

  /** A bucket as it enters the output is a permutation of the bucket. */
  lemma SortBucketPermutes<T>(b: seq<T>, rank: T -> nat)
    requires forall x :: x in b ==> rank(x) in SortRanks
    ensures multiset(SortBucket(b, rank)) == multiset(b)
  {
    if |b| != 1 {
      SortRanksIncreasing();
      SortIsPermutation(b, rank, SortRanks);
    }
  }

  /** The bucket sort is a permutation of its input. */
  lemma BucketSortIsPermutation<T, K>(s: seq<T>, key: T -> K, rank: T -> nat)
    requires forall x :: x in s ==> rank(x) in SortRanks
    ensures multiset(BucketSort(s, key, rank)) == multiset(s)
  {
    var ks := BucketOrder(s, key);
    var bs := BucketsOf(s, key, ks);
    forall j | 0 <= j < |ks|
      ensures multiset(SortedBuckets(s, key, rank, ks)[j]) == multiset(bs[j])
    {
      SortBucketPermutes(bs[j], rank);
    }
    FlattenMultiset(SortedBuckets(s, key, rank, ks), bs);
    BucketsPartition(s, key, ks);
    FilterAll(s, x => key(x) in ks);
  }

  /** Each output block holds the items of one key, the keys in first-occurrence
      order; a single item stays as it is, and a larger bucket is ordered by rank
      with equal ranks in input order. */
  lemma BucketSortBlocks<T, K>(s: seq<T>, key: T -> K, rank: T -> nat, j: nat)
    requires j < |BucketOrder(s, key)|
    ensures var k := BucketOrder(s, key)[j];
            var block := SortedBuckets(s, key, rank, BucketOrder(s, key))[j];
            (forall x :: x in block ==> x in s && key(x) == k)
            && (|Bucket(s, key, k)| == 1 ==> block == Bucket(s, key, k))
            && (|Bucket(s, key, k)| != 1 ==>
                  SortedBy(block, rank)
                  && forall r :: r in SortRanks ==> RankClass(block, rank, r) == RankClass(Bucket(s, key, k), rank, r))
  {
    var k := BucketOrder(s, key)[j];
    var b := Bucket(s, key, k);
    if |b| != 1 {
      SortRanksIncreasing();
      SortedByRank(b, rank, SortRanks);
      forall r | r in SortRanks
        ensures RankClass(SortByRanks(b, rank, SortRanks), rank, r) == RankClass(b, rank, r)
      {
        SortStable(b, rank, SortRanks, r);
      }
    }
  }

  /** The keys of the blocks are those of the input, each once, in the order they
      first occur. */
  lemma BucketOrderFirstOccurrence<T, K>(s: seq<T>, key: T -> K)
    ensures IsSubsequence(BucketOrder(s, key), Keys(s, key))
    ensures forall k :: k in BucketOrder(s, key) <==> k in Keys(s, key)
    ensures var ks := BucketOrder(s, key);
            forall i, j :: 0 <= i < j < |ks| ==> FirstIndex(Keys(s, key), ks[i]) < FirstIndex(Keys(s, key), ks[j])
  {
    DistinctIsSubsequence(Keys(s, key));
    DistinctFirstIndexOrder(Keys(s, key));
  }
}
