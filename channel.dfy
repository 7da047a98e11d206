/** The channel records the list transformations of vavoo/vavoo2.py pass along,
    and the resolution cache they consult. */
module Catalog {
  import opened Text
  import opened Names
  import opened Variants

  /** One catalog item. The source keeps it as a dict; the keys it never writes
      after creation are constants here, and the two it writes in place
      (`group`, `resolved_url`) are mutable fields. */
  class Channel {
    const id: string
    const url: string
    const name: string
    /** `_key`: the normalised name the reference table is matched against. */
    const key: string
    /** `_base`: the base name channels are grouped by. */
    const base: string
    var group: string
    var resolvedUrl: Option<string>

    /** An item with the given fields, no group and no resolved URL. */
    constructor (id: string, url: string, name: string, key: string, base: string)
      ensures this.id == id && this.url == url && this.name == name && this.key == key && this.base == base
      ensures group == "" && resolvedUrl == None
    {
      this.id := id;
      this.url := url;
      this.name := name;
      this.key := key;
      this.base := base;
      group := "";
      resolvedUrl := None;
    }
  }

  /** An item as the catalog loader builds it from an `iptv` entry: the name is
      canonicalised first and both keys are derived from the canonical name. */
  method NewItem(id: string, url: string, rawName: string) returns (c: Channel)
    ensures fresh(c) && c.id == id && c.url == url
    ensures c.name == Canonicalize(rawName)
    ensures c.key == NormKey(c.name) && c.base == BaseName(c.name)
    ensures c.group == "" && c.resolvedUrl == None
  {
    var name := Canonicalize(rawName);
    c := new Channel(id, url, name, NormKey(name), BaseName(name));
  }

  /** A resolution-cache entry: the resolved stream and the best variant's
      height and frame rate. */
  datatype CacheEntry = CacheEntry(url: string, height: int, fps: int)

  /** `shared_state.res_cache`, keyed by channel id; a missing key is "not cached". */
  type ResCache = map<string, CacheEntry>

  /** The preference rank of a cached entry. */
  function EntryRank(e: CacheEntry): (r: nat)
    ensures r <= 4
  {
    VariantRank(e.height, e.fps)
  }

  /** No two items of `s` share an id. */
  predicate DistinctIds(s: seq<Channel>) {
    forall i, j :: 0 <= i < j < |s| ==> s[i].id != s[j].id
  }

  /** The ids of the items of `s`. */
  function IdsOf(s: seq<Channel>): set<string> {
    set c | c in s :: c.id
  }

  /** Appending an item adds its id. */
  lemma IdsOfAppend(s: seq<Channel>, c: Channel)
    ensures IdsOf(s + [c]) == IdsOf(s) + {c.id}
  {
    assert forall x :: x in s + [c] <==> x in s || x == c;
  }

  /** Under distinct ids, an id names one item. */
  lemma SameIdSameItem(s: seq<Channel>, x: Channel, y: Channel)
    requires DistinctIds(s) && x in s && y in s && x.id == y.id
    ensures x == y
  {
    var i :| 0 <= i < |s| && s[i] == x;
    var j :| 0 <= j < |s| && s[j] == y;
  }

  /** Dropping the last item keeps ids distinct, and the last id is not among the others. */
  lemma DistinctIdsInit(s: seq<Channel>)
    requires s != [] && DistinctIds(s)
    ensures DistinctIds(s[..|s| - 1])
    ensures s[|s| - 1].id !in IdsOf(s[..|s| - 1])
  {
    var init := s[..|s| - 1];
    forall x | x in init
      ensures x.id != s[|s| - 1].id
    {
      var j :| 0 <= j < |init| && init[j] == x;
      assert s[j] == x;
    }
  }
}
