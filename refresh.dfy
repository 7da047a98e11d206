/** The refresh request queue of the Vavoo worker: `request_refresh` appends a
    region to the shared force (and, when asked, rebuild) queue and raises the
    refresh event; `consume_refresh_request` drains both queues and decides which
    regions the worker refreshes. */

module Refresh {
  import opened Text
  import opened Seqs
  import opened Groups
  import opened Settings

  /** `(region or "*").upper()`: a missing or empty region means every region. */
  function RequestedRegion(region: Option<string>): (rg: string)
    ensures rg != ""
    ensures region.None? || region.value == "" ==> rg == "*"
    ensures region.Some? && region.value != "" ==> |rg| == |region.value|
    ensures Upper(rg) == rg
  {
    UpperOfUpper(if region.Some? then region.value else "");
    assert Upper("*") == "*";
    if region.None? || region.value == "" then "*" else Upper(region.value)
  }

  /** `(r or "").upper()` when that is not empty. */
  function UpperNonEmpty(): string -> Option<string> {
    (r: string) => if r == "" then None else Some(Upper(r))
  }

  /** The `uniq` list: the upper-cased non-empty regions, each at its first
      occurrence. */
  function UniqueUpper(regions: seq<string>): seq<string> {
    Distinct(Collected(regions, UpperNonEmpty()))
  }

  /** The upper-cased regions of the combined playlists. */
  function CombinedRegions(playlists: seq<Playlist>): (r: set<string>)
    decreases |playlists|
  {
    if playlists == [] then {}
    else CombinedRegions(playlists[..|playlists| - 1]) + UpperSet(playlists[|playlists| - 1].regions)
  }

  function UpperSet(rs: seq<string>): (r: set<string>)
    decreases |rs|
  {
    if rs == [] then {} else UpperSet(rs[..|rs| - 1]) + {Upper(rs[|rs| - 1])}
  }

  /** The `all_regions` set: every locale's region as stored, and every combined
      playlist region upper-cased. */
  function AllRegions(locales: seq<Locale>, playlists: seq<Playlist>): set<string> {
    (set l | l in locales :: l.region) + CombinedRegions(playlists)
  }

  // ---------------------------------------------------------------------------
  // Properties of the specification functions
  // ---------------------------------------------------------------------------

  lemma {:induction false} UpperSetMembers(rs: seq<string>)
    ensures forall u :: u in UpperSet(rs) <==> exists r :: r in rs && Upper(r) == u
    decreases |rs|
  {
    if rs != [] {
      UpperSetMembers(rs[..|rs| - 1]);
      assert forall r :: r in rs <==> r in rs[..|rs| - 1] || r == rs[|rs| - 1];
    }
  }

  lemma {:induction false} CombinedRegionsMembers(playlists: seq<Playlist>)
    ensures forall u :: u in CombinedRegions(playlists) <==>
      exists p, r :: p in playlists && r in p.regions && Upper(r) == u
    decreases |playlists|
  {
    if playlists != [] {
      var init := playlists[..|playlists| - 1];
      var last := playlists[|playlists| - 1];
      CombinedRegionsMembers(init);
      UpperSetMembers(last.regions);
      assert forall p :: p in playlists <==> p in init || p == last;
    }
  }

  /** A region is refreshed under "*" exactly when a locale names it or a combined
      playlist names it in any letter case. */
  lemma AllRegionsMembers(locales: seq<Locale>, playlists: seq<Playlist>, u: string)
    ensures u in AllRegions(locales, playlists) <==>
      (exists l :: l in locales && l.region == u) ||
      (exists p, r :: p in playlists && r in p.regions && Upper(r) == u)
  {
    CombinedRegionsMembers(playlists);
  }

  /** The `uniq` list holds no region twice, holds no empty region, and holds
      exactly the upper-cased forms of the requested non-empty regions. */
  lemma UniqueUpperMembers(regions: seq<string>)
    ensures NoDuplicates(UniqueUpper(regions))
    ensures "" !in UniqueUpper(regions)
    ensures forall u :: u in UniqueUpper(regions) <==> exists r :: r in regions && r != "" && Upper(r) == u
  {
    CollectedMembers(regions, UpperNonEmpty());
  }

  /** `uniq` keeps the order in which regions were first requested. */
  lemma UniqueUpperInOrder(regions: seq<string>)
    ensures IsSubsequence(UniqueUpper(regions), Collected(regions, UpperNonEmpty()))
    ensures var u := UniqueUpper(regions);
            var c := Collected(regions, UpperNonEmpty());
            forall i, j :: 0 <= i < j < |u| ==> FirstIndex(c, u[i]) < FirstIndex(c, u[j])
  {
    DistinctIsSubsequence(Collected(regions, UpperNonEmpty()));
    DistinctFirstIndexOrder(Collected(regions, UpperNonEmpty()));
  }

  /** The force queue built by a run of requests. */
  function Requested(reqs: seq<Option<string>>): (q: seq<string>)
    ensures |q| == |reqs|
    decreases |reqs|
  {
    if reqs == [] then [] else Requested(reqs[..|reqs| - 1]) + [RequestedRegion(reqs[|reqs| - 1])]
  }

  lemma {:induction false} RequestedAt(reqs: seq<Option<string>>, i: nat)
    requires i < |reqs|
    ensures Requested(reqs)[i] == RequestedRegion(reqs[i])
    decreases |reqs|
  {
    if i < |reqs| - 1 {
      RequestedAt(reqs[..|reqs| - 1], i);
    }
  }

  /** A queue of regions all posted through `request_refresh` is already upper-case
      and free of empty entries, so `uniq` only drops repeats. */
  lemma RequestedCollected(reqs: seq<Option<string>>)
    ensures Collected(Requested(reqs), UpperNonEmpty()) == Requested(reqs)
  {
    var q := Requested(reqs);
    forall i | 0 <= i < |q|
      ensures UpperNonEmpty()(q[i]) == Some(q[i])
    {
      RequestedAt(reqs, i);
    }
    CollectedFixed(q, UpperNonEmpty());
  }

  lemma {:induction false} CollectedFixed<T>(xs: seq<T>, f: T -> Option<T>)
    requires forall i :: 0 <= i < |xs| ==> f(xs[i]) == Some(xs[i])
    ensures Collected(xs, f) == xs
    decreases |xs|
  {
    if xs != [] {
      CollectedFixed(xs[..|xs| - 1], f);
    }
  }

  /** Every requested region reaches the worker once, in the order of its first
      request. */
  lemma RequestedRegionsRefreshed(reqs: seq<Option<string>>)
    ensures UniqueUpper(Requested(reqs)) == Distinct(Requested(reqs))
    ensures forall i :: 0 <= i < |reqs| ==> RequestedRegion(reqs[i]) in UniqueUpper(Requested(reqs))
  {
    RequestedCollected(reqs);
    var q := Requested(reqs);
    forall i | 0 <= i < |reqs|
      ensures RequestedRegion(reqs[i]) in Distinct(q)
    {
      RequestedAt(reqs, i);
      assert q[i] in q;
    }
  }

  /** A request without a region asks for everything. */
  lemma MissingRegionIsEverything(reqs: seq<Option<string>>, i: nat)
    requires i < |reqs| && (reqs[i].None? || reqs[i].value == "")
    ensures "*" in Requested(reqs)
  {
    RequestedAt(reqs, i);
    assert Requested(reqs)[i] == "*";
  }

  // ---------------------------------------------------------------------------
  // The queue
  // ---------------------------------------------------------------------------

  /** FORCE_REGIONS, REBUILD_REGIONS and the FORCE_REFRESH event. */
  class RefreshQueue {
    var force: seq<string>
    var rebuild: seq<string>
    var signalled: bool

    constructor ()
      ensures force == [] && rebuild == [] && !signalled
    {
      force := [];
      rebuild := [];
      signalled := false;
    }

    /** `request_refresh(region, rebuild)` */
    method RequestRefresh(region: Option<string>, rebuildToo: bool)
      modifies this
      ensures force == old(force) + [RequestedRegion(region)]
      ensures rebuild == old(rebuild) + (if rebuildToo then [RequestedRegion(region)] else [])
      ensures signalled
    {
      var rg := RequestedRegion(region);
      force := force + [rg];
      if rebuildToo {
        rebuild := rebuild + [rg];
      }
      signalled := true;
    }

    /** `consume_refresh_request()`: the regions to refresh (None when nothing was
        requested) and the regions whose playlists are rebuilt. Under "*" the list
        comes from a set, so its order is left open. */
    method ConsumeRefreshRequest(locales: seq<Locale>, playlists: seq<Playlist>)
      returns (regions: Option<seq<string>>, rebuildSet: set<string>)
      modifies this
      ensures force == [] && rebuild == [] && signalled == old(signalled)
      ensures old(force) == [] ==>
        regions.None? && rebuildSet == set r | r in old(rebuild)
      ensures old(force) != [] && ("*" in old(force) || "*" in old(rebuild)) ==>
        regions.Some? && NoDuplicates(regions.value) &&
        (forall u :: u in regions.value <==> u in AllRegions(locales, playlists)) &&
        rebuildSet == AllRegions(locales, playlists)
      ensures old(force) != [] && "*" !in old(force) && "*" !in old(rebuild) ==>
        regions == Some(UniqueUpper(old(force))) && rebuildSet == set r | r in old(rebuild)
    {
      var pending: seq<string> := [];
      ghost var f0 := force;
      while |force| > 0
        invariant pending + force == f0
        invariant rebuild == old(rebuild) && signalled == old(signalled)
        decreases |force|
      {
        pending := pending + [force[0]];
        force := force[1..];
      }
      assert pending == f0;

      rebuildSet := {};
      ghost var r0 := rebuild;
      ghost var drained: seq<string> := [];
      while |rebuild| > 0
        invariant drained + rebuild == r0
        invariant rebuildSet == set r | r in drained
        invariant force == [] && signalled == old(signalled)
        decreases |rebuild|
      {
        drained := drained + [rebuild[0]];
        rebuildSet := rebuildSet + {rebuild[0]};
        rebuild := rebuild[1..];
      }
      assert drained == r0;
      assert ("*" in rebuildSet) == ("*" in r0);

      if pending == [] {
        return None, rebuildSet;
      }

      if "*" in pending || "*" in rebuildSet {
        var all := AllRegionsOf(locales, playlists);
        var list := ListOfSet(all);
        return Some(list), all;
      }

      var uniq := UniqueRegions(pending);
      return Some(uniq), rebuildSet;
    }
  }

  /** The `all_regions` set comprehension and loop. */
  method AllRegionsOf(locales: seq<Locale>, playlists: seq<Playlist>) returns (all: set<string>)
    ensures all == AllRegions(locales, playlists)
  {
    all := set l | l in locales :: l.region;
    ghost var base := all;
    for i := 0 to |playlists|
      invariant all == base + CombinedRegions(playlists[..i])
    {
      assert playlists[..i + 1][..i] == playlists[..i];
      var rs := playlists[i].regions;
      for j := 0 to |rs|
        invariant all == base + CombinedRegions(playlists[..i]) + UpperSet(rs[..j])
      {
        assert rs[..j + 1][..j] == rs[..j];
        all := all + {Upper(rs[j])};
      }
      assert rs[..|rs|] == rs;
    }
    assert playlists[..|playlists|] == playlists;
  }

  /** `list(s)`: the elements of a set, each once, in no particular order. */
  method ListOfSet(s: set<string>) returns (list: seq<string>)
    ensures NoDuplicates(list)
    ensures forall u :: u in list <==> u in s
  {
    list := [];
    var rest := s;
    while rest != {}
      invariant NoDuplicates(list)
      invariant forall u :: u in list <==> u in s && u !in rest
      invariant rest <= s
      decreases |rest|
    {
      var u :| u in rest;
      list := list + [u];
      rest := rest - {u};
    }
  }

  lemma UniqueStep(regions: seq<string>, i: nat)
    requires i < |regions|
    ensures var u := UniqueUpper(regions[..i]);
            UniqueUpper(regions[..i + 1]) ==
              if regions[i] == "" || Upper(regions[i]) in u then u else u + [Upper(regions[i])]
  {
    var f := UpperNonEmpty();
    assert regions[..i + 1][..i] == regions[..i];
    var c := Collected(regions[..i], f);
    if regions[i] == "" {
      assert Collected(regions[..i + 1], f) == c;
    } else {
      var c' := c + [Upper(regions[i])];
      assert Collected(regions[..i + 1], f) == c';
      assert c'[..|c'| - 1] == c;
    }
  }

  lemma ElementsAppend(xs: seq<string>, x: string)
    ensures (set u | u in xs + [x]) == (set u | u in xs) + {x}
  {
  }

  /** The `uniq`/`seen` loop. */
  method UniqueRegions(regions: seq<string>) returns (uniq: seq<string>)
    ensures uniq == UniqueUpper(regions)
  {
    uniq := [];
    var seen: set<string> := {};
    for i := 0 to |regions|
      invariant uniq == UniqueUpper(regions[..i])
      invariant seen == set u | u in uniq
    {
      UniqueStep(regions, i);
      var r := Upper(regions[i]);
      if r != "" && r !in seen {
        ElementsAppend(uniq, r);
        uniq := uniq + [r];
        seen := seen + {r};
      }
    }
    assert regions[..|regions|] == regions;
  }
}
