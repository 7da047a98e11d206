/** The resolution-driven passes over the channel list of vavoo/vavoo2.py:
    `sort_by_resolution_inside_same_channel`, `deduplicate_by_name` and
    `apply_res_cache`. The resolution cache is a parameter (a map from channel id to
    the resolved stream and its best variant); a missing id is "not cached". */
module Lists {
  import opened Text
  import opened Seqs
  import opened Ranking
  import opened Names
  import opened Catalog
  import opened Buckets

  // ---------------------------------------------------------------------------
  // sort_by_resolution_inside_same_channel

  /** The sort rank of an item: 99 when the cache does not know it, otherwise the
      variant rank of its cached height and frame rate. */
  function CachedRank(cache: ResCache): Channel -> nat {
    (c: Channel) => if c.id in cache then EntryRank(cache[c.id]) else 99
  }

  /** Every sort rank is one of the ranks the sort orders by. */
  lemma CachedRankInRanks(cache: ResCache, c: Channel)
    ensures CachedRank(cache)(c) in SortRanks
    ensures CachedRank(cache)(c) == 99 <==> c.id !in cache
  {
  }

  /** The bucket key of an item: `channel_main_key` of its name. */
  function MainKeyOf(): Channel -> MainKey {
    (c: Channel) => ChannelMainKey(c.name)
  }

  /** `sort_by_resolution_inside_same_channel`: items with the same main key are
      gathered in the order their key first occurs, and each group of more than one
      is stably sorted by cached resolution rank. */
  method SortByResolutionInsideSameChannel(items: seq<Channel>, cache: ResCache) returns (out: seq<Channel>)
    ensures out == BucketSort(items, MainKeyOf(), CachedRank(cache))
    ensures multiset(out) == multiset(items)
  {
    out := SortInsideBuckets(items, MainKeyOf(), CachedRank(cache));
    SortIsPermutationOfInput(items, cache);
  }

  /** The resolution sort only reorders the list. */
  lemma SortIsPermutationOfInput(items: seq<Channel>, cache: ResCache)
    ensures multiset(BucketSort(items, MainKeyOf(), CachedRank(cache))) == multiset(items)
  {
    forall x | x in items
      ensures CachedRank(cache)(x) in SortRanks
    {
      CachedRankInRanks(cache, x);
    }
    BucketSortIsPermutation(items, MainKeyOf(), CachedRank(cache));
  }

  // ---------------------------------------------------------------------------
  // apply_res_cache

  /** "The cache knows this item." */
  function IsCached(cache: ResCache): Channel -> bool {
    (c: Channel) => c.id in cache
  }

  /** `apply_res_cache`: keeps the cached items, in order, and sets each one's
      resolved stream to the cached one; uncached items are dropped untouched. */
  method ApplyResCache(items: seq<Channel>, cache: ResCache) returns (out: seq<Channel>)
    modifies set c | c in items
    ensures out == Filter(items, IsCached(cache))
    ensures forall c :: c in items && c.id in cache ==> c.resolvedUrl == Some(cache[c.id].url)
    ensures forall c :: c in items && c.id !in cache ==> c.resolvedUrl == old(c.resolvedUrl)
    ensures forall c :: c in items ==> c.group == old(c.group)
  {
    out := [];
    for i := 0 to |items|
      invariant out == Filter(items[..i], IsCached(cache))
      invariant forall c :: c in items[..i] && c.id in cache ==> c.resolvedUrl == Some(cache[c.id].url)
      invariant forall c :: c in items && c !in items[..i] ==> c.resolvedUrl == old(c.resolvedUrl)
      invariant forall c :: c in items && c.id !in cache ==> c.resolvedUrl == old(c.resolvedUrl)
      invariant forall c :: c in items ==> c.group == old(c.group)
    {
      var item := items[i];
      assert items[..i + 1] == items[..i] + [item];
      if item.id in cache {
        item.resolvedUrl := Some(cache[item.id].url);
        out := out + [item];
      }
    }
    assert items[..|items|] == items;
  }

  /** The kept items are exactly the cached ones, in input order. */
  lemma ApplyResCacheKeeps(items: seq<Channel>, cache: ResCache, c: Channel)
    requires c in items
    ensures c in Filter(items, IsCached(cache)) <==> c.id in cache
    ensures IsSubsequence(Filter(items, IsCached(cache)), items)
  {
    if c.id in cache {
      FilterKeeps(items, IsCached(cache), c);
    }
    FilterIsSubsequence(items, IsCached(cache));
  }

  // ---------------------------------------------------------------------------
  // deduplicate_by_name

  /** An entry of the `best` dictionary: the best rank seen for a key and its item. */
  datatype Best = Best(rank: nat, item: Channel)

  /** The rank of a cached item. */
  function RankIn(cache: ResCache, c: Channel): nat
    requires c.id in cache
  {
    EntryRank(cache[c.id])
  }

  /** The state after the loop of `deduplicate_by_name` has seen `s`: the keys in
      the order they entered the dictionary, and the dictionary. An uncached item
      is skipped; a cached one enters when its key is new or its rank is strictly
      better than the best so far. */
  function Bests(s: seq<Channel>, cache: ResCache, key: Channel -> string): (r: (seq<string>, map<string, Best>))
    ensures forall j :: 0 <= j < |r.0| ==> r.0[j] in r.1
    ensures forall k :: k in r.1 ==> k in r.0
    decreases |s|
  {
    if s == [] then ([], map[])
    else
      var prev := Bests(s[..|s| - 1], cache, key);
      var c := s[|s| - 1];
      if c.id !in cache then prev
      else
        var rank := RankIn(cache, c);
        var k := key(c);
        if k !in prev.1 then (prev.0 + [k], prev.1[k := Best(rank, c)])
        else if rank < prev.1[k].rank then (prev.0, prev.1[k := Best(rank, c)])
        else prev
  }

  /** The result of `deduplicate_by_name`: the kept items in dictionary order. */
  function Deduplicated(s: seq<Channel>, cache: ResCache, key: Channel -> string): seq<Channel> {
    var b := Bests(s, cache, key);
    seq(|b.0|, j requires 0 <= j < |b.0| => b.1[b.0[j]].item)
  }

  /** `deduplicate_by_name` for any name key. */
  method DeduplicateBy(items: seq<Channel>, cache: ResCache, key: Channel -> string) returns (r: seq<Channel>)
    ensures r == Deduplicated(items, cache, key)
  {
    var order: seq<string> := [];
    var best: map<string, Best> := map[];
    for i := 0 to |items|
      invariant (order, best) == Bests(items[..i], cache, key)
    {
      var item := items[i];
      assert items[..i + 1] == items[..i] + [item];
      var k := key(item);
      if item.id in cache {
        var rank := EntryRank(cache[item.id]);
        if k !in best || rank < best[k].rank {
          if k !in best {
            order := order + [k];
          }
          best := best[k := Best(rank, item)];
        }
      }
    }
    assert items[..|items|] == items;
    r := seq(|order|, j requires 0 <= j < |order| => best[order[j]].item);
  }

  /** The key `deduplicate_by_name` compares: `dedup_name_key` of the name. */
  function NameKey(): Channel -> string {
    (c: Channel) => DedupNameKey(c.name)
  }

  /** `deduplicate_by_name`. */
  method DeduplicateByName(items: seq<Channel>, cache: ResCache) returns (r: seq<Channel>)
    ensures r == Deduplicated(items, cache, NameKey())
  {
    r := DeduplicateBy(items, cache, NameKey());
  }

  /** The entry `e` for key `k` holds a cached item of `s` with that key and its rank. */
  ghost predicate EntryOf(s: seq<Channel>, cache: ResCache, key: Channel -> string, k: string, e: Best) {
    e.item in s && e.item.id in cache && key(e.item) == k && e.rank == RankIn(cache, e.item)
  }

  /** Every dictionary entry holds a cached item of `s` under its own key, with its
      rank. */
  lemma {:induction false} BestsSound(s: seq<Channel>, cache: ResCache, key: Channel -> string)
    ensures forall k :: k in Bests(s, cache, key).1 ==> EntryOf(s, cache, key, k, Bests(s, cache, key).1[k])
    decreases |s|
  {
    if s != [] {
      var init := s[..|s| - 1];
      BestsSound(init, cache, key);
      var prev := Bests(init, cache, key).1;
      var b := Bests(s, cache, key).1;
      forall k | k in b
        ensures EntryOf(s, cache, key, k, b[k])
      {
        if k in prev && b[k] == prev[k] {
          assert EntryOf(init, cache, key, k, prev[k]);
        } else {
          assert b[k].item == s[|s| - 1];
        }
      }
    }
  }

  /** Every cached item's key has an entry, and its rank is at least the entry's. */
  lemma {:induction false} BestsMinimal(s: seq<Channel>, cache: ResCache, key: Channel -> string)
    ensures var b := Bests(s, cache, key).1;
            forall y :: y in s && y.id in cache ==> key(y) in b && b[key(y)].rank <= RankIn(cache, y)
    decreases |s|
  {
    if s != [] {
      var init := s[..|s| - 1];
      BestsMinimal(init, cache, key);
      assert forall y :: y in s ==> y in init || y == s[|s| - 1];
    }
  }

  /** The entry for a key is the earliest item among those of least rank: every
      cached item before it with the same key has a strictly greater rank. */
  lemma {:induction false} BestsEarliest(s: seq<Channel>, cache: ResCache, key: Channel -> string, k: string)
    requires k in Bests(s, cache, key).1
    ensures var e := Bests(s, cache, key).1[k];
            exists i :: 0 <= i < |s| && s[i] == e.item
              && forall j :: 0 <= j < i && s[j].id in cache && key(s[j]) == k ==> RankIn(cache, s[j]) > e.rank
    decreases |s|
  {
    var init := s[..|s| - 1];
    var c := s[|s| - 1];
    var prev := Bests(init, cache, key).1;
    var e := Bests(s, cache, key).1[k];
    if k in prev && e == prev[k] {
      BestsEarliest(init, cache, key, k);
      EarliestGrows(s, init, cache, key, k, e);
    } else {
      assert e.item == c && e.rank == RankIn(cache, c);
      assert k in prev ==> e.rank < prev[k].rank;
      BeatsEarlier(init, cache, key, k, e.rank);
      EarliestAtEnd(s, init, cache, key, k, e);
    }
  }

  /** An earliest-of-least-rank position in a prefix stays one in the whole sequence. */
  lemma EarliestGrows(s: seq<Channel>, init: seq<Channel>, cache: ResCache, key: Channel -> string, k: string, e: Best)
    requires |s| > 0 && init == s[..|s| - 1]
    requires exists i :: 0 <= i < |init| && init[i] == e.item
               && forall j :: 0 <= j < i && init[j].id in cache && key(init[j]) == k ==> RankIn(cache, init[j]) > e.rank
    ensures exists i :: 0 <= i < |s| && s[i] == e.item
              && forall j :: 0 <= j < i && s[j].id in cache && key(s[j]) == k ==> RankIn(cache, s[j]) > e.rank
  {
    var i :| 0 <= i < |init| && init[i] == e.item
             && forall j :: 0 <= j < i && init[j].id in cache && key(init[j]) == k ==> RankIn(cache, init[j]) > e.rank;
    assert s[i] == e.item;
    forall j | 0 <= j < i && s[j].id in cache && key(s[j]) == k
      ensures RankIn(cache, s[j]) > e.rank
    {
      assert s[j] == init[j];
    }
  }

  /** The last item is the earliest of least rank when it beats every earlier item. */
  lemma EarliestAtEnd(s: seq<Channel>, init: seq<Channel>, cache: ResCache, key: Channel -> string, k: string, e: Best)
    requires |s| > 0 && init == s[..|s| - 1] && s[|s| - 1] == e.item
    requires forall j :: 0 <= j < |init| && init[j].id in cache && key(init[j]) == k ==> RankIn(cache, init[j]) > e.rank
    ensures exists i :: 0 <= i < |s| && s[i] == e.item
              && forall j :: 0 <= j < i && s[j].id in cache && key(s[j]) == k ==> RankIn(cache, s[j]) > e.rank
  {
    forall j | 0 <= j < |s| - 1 && s[j].id in cache && key(s[j]) == k
      ensures RankIn(cache, s[j]) > e.rank
    {
      assert s[j] == init[j];
    }
  }

  /** A rank below the entry for `k` (or any rank, when `k` has none) is below the
      rank of every cached item with key `k`. */
  lemma BeatsEarlier(s: seq<Channel>, cache: ResCache, key: Channel -> string, k: string, rank: nat)
    requires k in Bests(s, cache, key).1 ==> rank < Bests(s, cache, key).1[k].rank
    ensures forall j :: 0 <= j < |s| && s[j].id in cache && key(s[j]) == k ==> RankIn(cache, s[j]) > rank
  {
    BestsMinimal(s, cache, key);
    forall j | 0 <= j < |s| && s[j].id in cache && key(s[j]) == k
      ensures RankIn(cache, s[j]) > rank
    {
      assert s[j] in s;
    }
  }

  /** The dictionary order is the order in which keys first occur among the cached
      items. */
  lemma {:induction false} BestsOrder(s: seq<Channel>, cache: ResCache, key: Channel -> string)
    ensures Bests(s, cache, key).0 == Distinct(Keys(Filter(s, IsCached(cache)), key))
    decreases |s|
  {
    if s != [] {
      var init := s[..|s| - 1];
      var c := s[|s| - 1];
      BestsOrder(init, cache, key);
      var f := Filter(init, IsCached(cache));
      var prev := Bests(init, cache, key);
      if c.id in cache {
        assert Filter(s, IsCached(cache)) == f + [c];
        var ks := Keys(f + [c], key);
        assert ks[..|ks| - 1] == Keys(f, key) && ks[|ks| - 1] == key(c);
        assert key(c) in prev.1 <==> key(c) in prev.0;
      } else {
        assert Filter(s, IsCached(cache)) == f;
      }
    }
  }

  /** The entries of the dictionary are keyed by distinct keys, each once in the
      order. */
  lemma OrderIsDistinct(s: seq<Channel>, cache: ResCache, key: Channel -> string)
    ensures NoDuplicates(Bests(s, cache, key).0)
  {
    BestsOrder(s, cache, key);
  }

  /** Deduplication keeps only cached items of the input, and no two of them share a
      key. */
  lemma DedupKeepsCachedOnce(items: seq<Channel>, cache: ResCache, key: Channel -> string)
    ensures forall x :: x in Deduplicated(items, cache, key) ==> x in items && x.id in cache
    ensures Keys(Deduplicated(items, cache, key), key) == Bests(items, cache, key).0
    ensures NoDuplicates(Keys(Deduplicated(items, cache, key), key))
  {
    var d := Deduplicated(items, cache, key);
    BestsSound(items, cache, key);
    OrderIsDistinct(items, cache, key);
    forall x | x in d
      ensures x in items && x.id in cache
    {
      var b := Bests(items, cache, key);
      var j :| 0 <= j < |d| && d[j] == x;
      assert b.0[j] in b.1 && x == b.1[b.0[j]].item;
    }
  }

  /** The keys of the result are the keys of the cached items, each once, in the
      order they first occur. */
  lemma DedupKeyOrder(items: seq<Channel>, cache: ResCache, key: Channel -> string)
    ensures Keys(Deduplicated(items, cache, key), key) == Distinct(Keys(Filter(items, IsCached(cache)), key))
  {
    DedupKeepsCachedOnce(items, cache, key);
    BestsOrder(items, cache, key);
  }

  /** Every cached item is represented by a kept item with its key whose rank is at
      least as good. */
  lemma DedupKeepsBest(items: seq<Channel>, cache: ResCache, key: Channel -> string, y: Channel)
    requires y in items && y.id in cache
    ensures exists x :: x in Deduplicated(items, cache, key) && key(x) == key(y)
              && x.id in cache && RankIn(cache, x) <= RankIn(cache, y)
  {
    var b := Bests(items, cache, key);
    BestsMinimal(items, cache, key);
    BestsSound(items, cache, key);
    var j := FirstIndex(b.0, key(y));
    var x := b.1[key(y)].item;
    assert Deduplicated(items, cache, key)[j] == x;
  }

  /** A kept item is the earliest of least rank for its key: some occurrence of it
      has only strictly worse cached items with its key before it. */
  lemma DedupKeepsEarliest(items: seq<Channel>, cache: ResCache, key: Channel -> string, x: Channel)
    requires x in Deduplicated(items, cache, key)
    ensures x.id in cache
    ensures exists i :: 0 <= i < |items| && items[i] == x
              && forall j :: 0 <= j < i && items[j].id in cache && key(items[j]) == key(x) ==>
                   RankIn(cache, items[j]) > RankIn(cache, x)
  {
    var b := Bests(items, cache, key);
    BestsSound(items, cache, key);
    var j :| 0 <= j < |b.0| && b.1[b.0[j]].item == x;
    BestsEarliest(items, cache, key, b.0[j]);
  }
}
