/** The locale and combined-playlist settings of vavoo/vavoo2.py (`CONFIG["LOCALES"]`,
    `CONFIG["COMBINED_PLAYLISTS"]`, `CONFIG["FILTER_*"]`): how `api_set_config`
    normalises what the settings page posts, what `save_config_to_disk` writes and
    how `load_config_from_disk` reads it back. JSON values are given their expected
    types; a missing key of a JSON object is `None`. */
module Settings {
  import opened Text
  import opened Seqs

  /** A `(lang, region)` pair. */
  datatype Locale = Locale(lang: string, region: string)

  /** A combined playlist: a name and the regions it merges. */
  datatype Playlist = Playlist(name: string, regions: seq<string>)

  // ---------------------------------------------------------------------------
  // Collecting the well-formed entries of a list

  /** The values `f` accepts, in order: the shape of every "for x in …: if ok:
      append" loop of the settings code. */
  function Collected<T, U>(xs: seq<T>, f: T -> Option<U>): (r: seq<U>)
    ensures |r| <= |xs|
    decreases |xs|
  {
    if xs == [] then []
    else
      var x := xs[|xs| - 1];
      Collected(xs[..|xs| - 1], f) + (if f(x).Some? then [f(x).value] else [])
  }

  /** Every collected value is `f` of an input and every accepted input's value is
      collected. */
  lemma {:induction false} CollectedMembers<T, U>(xs: seq<T>, f: T -> Option<U>)
    ensures forall u :: u in Collected(xs, f) <==> exists x :: x in xs && f(x) == Some(u)
    decreases |xs|
  {
    if xs != [] {
      var init := xs[..|xs| - 1];
      CollectedMembers(init, f);
      assert forall x :: x in xs <==> x in init || x == xs[|xs| - 1];
    }
  }

  /** The append loop. */
  method CollectSome<T, U>(xs: seq<T>, f: T -> Option<U>) returns (r: seq<U>)
    ensures r == Collected(xs, f)
  {
    r := [];
    for i := 0 to |xs|
      invariant r == Collected(xs[..i], f)
    {
      assert xs[..i + 1] == xs[..i] + [xs[i]];
      var o := f(xs[i]);
      if o.Some? {
        r := r + [o.value];
      }
    }
    assert xs[..|xs|] == xs;
  }

  /** `seen` holds exactly the keys of `r`. */
  ghost predicate SeenKeys<T, K>(r: seq<T>, key: T -> K, seen: set<K>) {
    seen == set j | 0 <= j < |r| :: key(r[j])
  }

  lemma SeenStep<T, K>(r: seq<T>, key: T -> K, seen: set<K>, x: T)
    requires SeenKeys(r, key, seen)
    ensures SeenKeys(r + [x], key, seen + {key(x)})
    ensures key(x) in seen <==> key(x) in Keys(r, key)
  {
    var r' := r + [x];
    assert (set j | 0 <= j < |r'| :: key(r'[j])) == seen + {key(x)} by {
      assert forall j :: 0 <= j < |r| ==> r'[j] == r[j];
      assert r'[|r|] == x;
    }
    if key(x) in Keys(r, key) {
      var j :| 0 <= j < |r| && Keys(r, key)[j] == key(x);
    }
  }

  lemma DedupByStep<T, K>(xs: seq<T>, key: T -> K, i: nat)
    requires i < |xs|
    ensures var r := DedupBy(xs[..i], key);
            DedupBy(xs[..i + 1], key) == if key(xs[i]) in Keys(r, key) then r else r + [xs[i]]
  {
    assert xs[..i + 1][..i] == xs[..i];
  }

  /** The `seen` loop: keeps the first entry per key. */
  method KeepFirstPerKey<T, K(==)>(xs: seq<T>, key: T -> K) returns (r: seq<T>)
    ensures r == DedupBy(xs, key)
  {
    r := [];
    var seen: set<K> := {};
    for i := 0 to |xs|
      invariant r == DedupBy(xs[..i], key)
      invariant SeenKeys(r, key, seen)
    {
      var x := xs[i];
      DedupByStep(xs, key, i);
      SeenStep(r, key, seen, x);
      if key(x) !in seen {
        r := r + [x];
        seen := seen + {key(x)};
      }
    }
    assert xs[..|xs|] == xs;
  }

  // ---------------------------------------------------------------------------
  // api_set_config

  /** A locale object as posted: `lang` and `region`, either possibly missing. */
  datatype LocaleInput = LocaleInput(lang: Option<string>, region: Option<string>)

  /** A combined playlist as posted. */
  datatype PlaylistInput = PlaylistInput(name: Option<string>, regions: seq<string>)

  /** The posted settings; `None` where the key is absent. LOCALES and
      COMBINED_PLAYLISTS default to empty lists. */
  datatype ConfigUpdate = ConfigUpdate(
    filterEnabled: Option<bool>,
    filterKeywords: Option<seq<string>>,
    locales: seq<LocaleInput>,
    playlists: seq<PlaylistInput>)

  /** `x or ""` for an optional string. */
  function OrEmpty(o: Option<string>): string {
    if o.Some? then o.value else ""
  }

  /** A posted locale: lang stripped, region stripped and upper-cased; kept only when
      both are non-empty. */
  function PostedLocale(): LocaleInput -> Option<Locale> {
    (x: LocaleInput) =>
      var lang := Strip(OrEmpty(x.lang));
      var region := Upper(Strip(OrEmpty(x.region)));
      if lang != "" && region != "" then Some(Locale(lang, region)) else None
  }

  /** The regions of a posted playlist: the non-empty ones, upper-cased. */
  function PostedRegions(rs: seq<string>): (r: seq<string>)
    ensures |r| <= |rs|
    ensures forall j :: 0 <= j < |r| ==> r[j] != "" && Upper(r[j]) == r[j]
    decreases |rs|
  {
    if rs == [] then []
    else
      var x := rs[|rs| - 1];
      UpperOfUpper(x);
      PostedRegions(rs[..|rs| - 1]) + (if x != "" then [Upper(x)] else [])
  }

  /** A posted playlist: kept when it has a non-empty name and at least two regions. */
  function PostedPlaylist(): PlaylistInput -> Option<Playlist> {
    (c: PlaylistInput) =>
      var regions := PostedRegions(c.regions);
      if c.name.Some? && c.name.value != "" && |regions| >= 2 then Some(Playlist(c.name.value, regions))
      else None
  }

  /** The posted keywords: stripped, the empty ones dropped. */
  function PostedKeywords(xs: seq<string>): (r: seq<string>)
    ensures forall j :: 0 <= j < |r| ==> r[j] != "" && Strip(r[j]) == r[j]
    decreases |xs|
  {
    if xs == [] then []
    else
      var x := xs[|xs| - 1];
      StripIdempotent(x);
      PostedKeywords(xs[..|xs| - 1]) + (if Strip(x) != "" then [Strip(x)] else [])
  }

  function RegionOf(): Locale -> string { (l: Locale) => l.region }
  function NameOf(): Playlist -> string { (p: Playlist) => p.name }

  /** A stored locale is well formed: both parts non-empty and stripped, the region
      upper-case. */
  predicate GoodLocale(l: Locale) {
    l.lang != "" && l.region != "" && Strip(l.lang) == l.lang && Strip(l.region) == l.region
    && Upper(l.region) == l.region
  }

  /** A stored playlist is well formed: a non-empty name and at least two non-empty
      upper-case regions. */
  predicate GoodPlaylist(p: Playlist) {
    p.name != "" && |p.regions| >= 2 && forall j :: 0 <= j < |p.regions| ==> p.regions[j] != "" && Upper(p.regions[j]) == p.regions[j]
  }

  /** What `api_set_config` stores as LOCALES. */
  function SetLocales(xs: seq<LocaleInput>): seq<Locale> {
    DedupBy(Collected(xs, PostedLocale()), RegionOf())
  }

  /** What `api_set_config` stores as COMBINED_PLAYLISTS. */
  function SetPlaylists(xs: seq<PlaylistInput>): seq<Playlist> {
    DedupBy(Collected(xs, PostedPlaylist()), NameOf())
  }

  /** Upper-casing a stripped string leaves it stripped. */
  lemma UpperStripped(s: string)
    requires Strip(s) == s
    ensures Strip(Upper(s)) == Upper(s)
  {
    var u := Upper(s);
    if u != [] {
      assert s[0] == Strip(s)[0] && s[|s| - 1] == Strip(s)[|s| - 1];
    }
    StripStripped(u);
  }

  /** Every posted locale that is kept is well formed. */
  lemma PostedLocaleGood(x: LocaleInput)
    ensures PostedLocale()(x).Some? ==> GoodLocale(PostedLocale()(x).value)
    ensures PostedLocale()(x).Some? <==> Strip(OrEmpty(x.lang)) != "" && Strip(OrEmpty(x.region)) != ""
  {
    var s := Strip(OrEmpty(x.region));
    StripIdempotent(OrEmpty(x.lang));
    StripIdempotent(OrEmpty(x.region));
    UpperStripped(s);
    UpperOfUpper(s);
  }

  /** The stored locales are well formed, their regions are distinct, and each is
      the first posted locale for its region. */
  lemma SetLocalesMeaning(xs: seq<LocaleInput>)
    ensures forall l :: l in SetLocales(xs) ==> GoodLocale(l)
    ensures NoDuplicates(Keys(SetLocales(xs), RegionOf()))
    ensures forall x :: x in xs && PostedLocale()(x).Some? ==>
              PostedLocale()(x).value.region in Keys(SetLocales(xs), RegionOf())
  {
    var c := Collected(xs, PostedLocale());
    CollectedMembers(xs, PostedLocale());
    forall l | l in SetLocales(xs)
      ensures GoodLocale(l)
    {
      var x :| x in xs && PostedLocale()(x) == Some(l);
      PostedLocaleGood(x);
    }
    forall x | x in xs && PostedLocale()(x).Some?
      ensures PostedLocale()(x).value.region in Keys(SetLocales(xs), RegionOf())
    {
      assert PostedLocale()(x).value in c;
    }
  }

  /** The locale kept for a region is the first posted one for that region. */
  lemma SetLocalesFirst(xs: seq<LocaleInput>, l: Locale)
    requires l in SetLocales(xs)
    ensures exists i :: 0 <= i < |Collected(xs, PostedLocale())| && Collected(xs, PostedLocale())[i] == l
              && forall j :: 0 <= j < i ==> Collected(xs, PostedLocale())[j].region != l.region
  {
    DedupByOnlyFirst(Collected(xs, PostedLocale()), RegionOf(), l);
  }

  /** The stored playlists are well formed and have distinct names. */
  lemma SetPlaylistsMeaning(xs: seq<PlaylistInput>)
    ensures forall p :: p in SetPlaylists(xs) ==> GoodPlaylist(p)
    ensures NoDuplicates(Keys(SetPlaylists(xs), NameOf()))
  {
    CollectedMembers(xs, PostedPlaylist());
  }

  /** A posted playlist with fewer than two non-empty regions is dropped. */
  lemma ShortPlaylistDropped(c: PlaylistInput)
    requires |Filter(c.regions, (r: string) => r != "")| < 2
    ensures PostedPlaylist()(c) == None
  {
    RegionsCount(c.regions);
  }

  lemma {:induction false} RegionsCount(rs: seq<string>)
    ensures |PostedRegions(rs)| == |Filter(rs, (r: string) => r != "")|
    decreases |rs|
  {
    if rs != [] {
      RegionsCount(rs[..|rs| - 1]);
    }
  }

  // ---------------------------------------------------------------------------
  // save_config_to_disk / load_config_from_disk

  /** A LOCALES entry of the file: a two-element list, an object with optional
      `lang` and `region`, or anything else. */
  datatype LocaleEntry = PairEntry(l: string, r: string) | ObjectEntry(lang: Option<string>, region: Option<string>) | OtherEntry

  /** A COMBINED_PLAYLISTS entry of the file: an object with an optional name and an
      optional list of regions, or anything else. */
  datatype PlaylistEntry = PlaylistObject(name: Option<string>, regions: Option<seq<string>>) | OtherPlaylist

  /** The settings as the file holds them; a flag or keyword list the file lacks
      is `None`. */
  datatype SavedSettings = SavedSettings(filterEnabled: Option<bool>, filterKeywords: Option<seq<string>>,
                                         locales: seq<LocaleEntry>, playlists: seq<PlaylistEntry>)

  /** How `save_config_to_disk` writes a locale: `[lang, region.upper()]`. */
  function SavedLocale(): Locale -> Option<LocaleEntry> {
    (l: Locale) => Some(PairEntry(l.lang, Upper(l.region)))
  }

  /** How it writes a playlist: only with at least two regions, upper-cased. */
  function SavedPlaylist(): Playlist -> Option<PlaylistEntry> {
    (p: Playlist) => if |p.regions| >= 2 then Some(PlaylistObject(Some(p.name), Some(UpperAll(p.regions)))) else None
  }

  function UpperAll(rs: seq<string>): (r: seq<string>)
    ensures |r| == |rs| && forall j :: 0 <= j < |rs| ==> r[j] == Upper(rs[j])
  {
    seq(|rs|, j requires 0 <= j < |rs| => Upper(rs[j]))
  }

  /** `save_config_to_disk`: the flag and keywords as they are, the locales and
      playlists converted. */
  function Save(filterEnabled: bool, filterKeywords: seq<string>, locales: seq<Locale>, playlists: seq<Playlist>): SavedSettings {
    SavedSettings(Some(filterEnabled), Some(filterKeywords),
                  Collected(locales, SavedLocale()), Collected(playlists, SavedPlaylist()))
  }

  /** How `load_config_from_disk` reads a locale entry: a pair always; an object
      only with non-empty `lang` and `region`; both parts stripped and the region
      upper-cased. */
  function LoadedLocale(): LocaleEntry -> Option<Locale> {
    (e: LocaleEntry) =>
      match e
      case PairEntry(l, r) => Some(Locale(Strip(l), Upper(Strip(r))))
      case ObjectEntry(lang, region) =>
        if OrEmpty(lang) != "" && OrEmpty(region) != "" then
          Some(Locale(Strip(OrEmpty(lang)), Upper(Strip(OrEmpty(region)))))
        else None
      case OtherEntry => None
  }

  /** The regions of a loaded playlist: stripped and upper-cased, the blank ones
      dropped. */
  function LoadedRegions(rs: seq<string>): (r: seq<string>)
    ensures |r| <= |rs|
    decreases |rs|
  {
    if rs == [] then []
    else
      var x := rs[|rs| - 1];
      LoadedRegions(rs[..|rs| - 1]) + (if Strip(x) != "" then [Upper(Strip(x))] else [])
  }

  /** How it reads a playlist entry: a non-empty name and a list of regions, at
      least two of them left after cleaning; the name is stripped. */
  function LoadedPlaylist(): PlaylistEntry -> Option<Playlist> {
    (e: PlaylistEntry) =>
      match e
      case PlaylistObject(name, regions) =>
        if name.None? || name.value == "" || regions.None? then None
        else
          var regs := LoadedRegions(regions.value);
          if |regs| >= 2 then Some(Playlist(Strip(name.value), regs)) else None
      case OtherPlaylist => None
  }

  /** The locale a missing or empty LOCALES falls back to. */
  const DefaultLocales: seq<Locale> := [Locale("de", "DE")]

  /** What `load_config_from_disk` stores as LOCALES. */
  function LoadLocales(entries: seq<LocaleEntry>): (r: seq<Locale>)
    ensures r != []
  {
    var ls := Collected(entries, LoadedLocale());
    if ls == [] then DefaultLocales else ls
  }

  // ---------------------------------------------------------------------------
  // The settings object

  /** The settings this model covers. */
  class Config {
    var filterEnabled: bool
    var filterKeywords: seq<string>
    var locales: seq<Locale>
    var playlists: seq<Playlist>

    /** The defaults of `CONFIG`. */
    constructor ()
      ensures !filterEnabled && filterKeywords == [] && locales == DefaultLocales && playlists == []
    {
      filterEnabled := false;
      filterKeywords := [];
      locales := DefaultLocales;
      playlists := [];
    }

    /** The settings are as `api_set_config` leaves them. */
    ghost predicate Normalised()
      reads this
    {
      (forall j :: 0 <= j < |locales| ==> GoodLocale(locales[j]))
      && NoDuplicates(Keys(locales, RegionOf()))
      && (forall j :: 0 <= j < |playlists| ==> GoodPlaylist(playlists[j]))
      && NoDuplicates(Keys(playlists, NameOf()))
    }

    /** `api_set_config`: the flags and keywords change only when posted; LOCALES
        and COMBINED_PLAYLISTS are always replaced by the cleaned posted lists. */
    method SetConfig(data: ConfigUpdate)
      modifies this
      ensures filterEnabled == (if data.filterEnabled.Some? then data.filterEnabled.value else old(filterEnabled))
      ensures filterKeywords == (if data.filterKeywords.Some? then PostedKeywords(data.filterKeywords.value) else old(filterKeywords))
      ensures locales == SetLocales(data.locales)
      ensures playlists == SetPlaylists(data.playlists)
      ensures Normalised()
    {
      if data.filterEnabled.Some? {
        filterEnabled := data.filterEnabled.value;
      }
      if data.filterKeywords.Some? {
        filterKeywords := PostedKeywords(data.filterKeywords.value);
      }
      var newPlaylists := CollectSome(data.playlists, PostedPlaylist());
      var newLocales := CollectSome(data.locales, PostedLocale());
      locales := KeepFirstPerKey(newLocales, RegionOf());
      playlists := KeepFirstPerKey(newPlaylists, NameOf());
      SetLocalesMeaning(data.locales);
      SetPlaylistsMeaning(data.playlists);
    }

    /** What `save_config_to_disk` writes. */
    function Saved(): SavedSettings
      reads this
    {
      Save(filterEnabled, filterKeywords, locales, playlists)
    }

    /** `load_config_from_disk`; `None` is a missing file. A missing file resets
        only LOCALES and COMBINED_PLAYLISTS. A present file replaces every
        setting: a flag or keyword list it lacks reads as its default, as the
        readers' `CONFIG.get` does after `CONFIG.clear()`. */
    method LoadFromDisk(file: Option<SavedSettings>)
      modifies this
      ensures file.None? ==> locales == DefaultLocales && playlists == []
      ensures file.None? ==> filterEnabled == old(filterEnabled) && filterKeywords == old(filterKeywords)
      ensures file.Some? ==> locales == LoadLocales(file.value.locales)
      ensures file.Some? ==> playlists == Collected(file.value.playlists, LoadedPlaylist())
      ensures file.Some? ==> filterEnabled == (file.value.filterEnabled == Some(true))
      ensures file.Some? ==> filterKeywords == (if file.value.filterKeywords.Some? then file.value.filterKeywords.value else [])
    {
      if file.None? {
        locales := DefaultLocales;
        playlists := [];
        return;
      }
      filterEnabled := file.value.filterEnabled == Some(true);
      filterKeywords := if file.value.filterKeywords.Some? then file.value.filterKeywords.value else [];
      var loaded := CollectSome(file.value.locales, LoadedLocale());
      locales := if loaded == [] then DefaultLocales else loaded;
      playlists := CollectSome(file.value.playlists, LoadedPlaylist());
    }
  }

  // ---------------------------------------------------------------------------
  // Round trip

  /** Reading back a saved well-formed locale gives the locale. */
  lemma LocaleRoundTrip(l: Locale)
    requires GoodLocale(l)
    ensures LoadedLocale()(SavedLocale()(l).value) == Some(l)
  {
    UpperOfUpper(l.region);
  }

  /** `g` undoes `f` on `x`. */
  ghost predicate Undoes<T, U>(f: T -> Option<U>, g: U -> Option<T>, x: T) {
    f(x).Some? && g(f(x).value) == Some(x)
  }

  /** Applying `f` then `g` to every element, where `g` undoes `f`, gives the
      elements back. */
  lemma {:induction false} CollectedRoundTrip<T, U>(xs: seq<T>, f: T -> Option<U>, g: U -> Option<T>)
    requires forall j :: 0 <= j < |xs| ==> Undoes(f, g, xs[j])
    ensures Collected(Collected(xs, f), g) == xs
    decreases |xs|
  {
    if xs != [] {
      var init := xs[..|xs| - 1];
      var x := xs[|xs| - 1];
      assert forall j :: 0 <= j < |init| ==> init[j] == xs[j];
      CollectedRoundTrip(init, f, g);
      assert Undoes(f, g, x);
      var mid := Collected(xs, f);
      assert mid == Collected(init, f) + [f(x).value];
      assert mid[..|mid| - 1] == Collected(init, f);
      assert xs == init + [x];
    }
  }

  /** Saving the locales `api_set_config` stores and reading them back gives them
      again. */
  lemma LocalesRoundTrip(ls: seq<Locale>)
    requires forall j :: 0 <= j < |ls| ==> GoodLocale(ls[j])
    ensures Collected(Collected(ls, SavedLocale()), LoadedLocale()) == ls
  {
    forall j | 0 <= j < |ls|
      ensures Undoes(SavedLocale(), LoadedLocale(), ls[j])
    {
      LocaleRoundTrip(ls[j]);
    }
    CollectedRoundTrip(ls, SavedLocale(), LoadedLocale());
  }

  /** Save then load gives the locales back, unless there are none: then the
      default locale comes back. */
  lemma LoadSavedLocales(ls: seq<Locale>)
    requires forall j :: 0 <= j < |ls| ==> GoodLocale(ls[j])
    ensures LoadLocales(Collected(ls, SavedLocale())) == if ls == [] then DefaultLocales else ls
  {
    LocalesRoundTrip(ls);
  }

  /** Cleaning regions that are already clean changes nothing. */
  lemma {:induction false} CleanRegionsRoundTrip(rs: seq<string>)
    requires forall j :: 0 <= j < |rs| ==> Strip(rs[j]) == rs[j] && rs[j] != "" && Upper(rs[j]) == rs[j]
    ensures LoadedRegions(rs) == rs
    decreases |rs|
  {
    if rs != [] {
      var init := rs[..|rs| - 1];
      var x := rs[|rs| - 1];
      CleanRegionsRoundTrip(init);
      assert Strip(x) == x && x != "" && Upper(x) == x;
      assert rs == init + [x];
    }
  }

  /** A stored playlist whose name and regions carry no surrounding whitespace is
      read back unchanged. (`api_set_config` does not strip them, and
      `load_config_from_disk` does.) */
  lemma PlaylistRoundTrip(p: Playlist)
    requires GoodPlaylist(p) && Strip(p.name) == p.name
    requires forall j :: 0 <= j < |p.regions| ==> Strip(p.regions[j]) == p.regions[j]
    ensures LoadedPlaylist()(SavedPlaylist()(p).value) == Some(p)
  {
    assert UpperAll(p.regions) == p.regions;
    CleanRegionsRoundTrip(p.regions);
  }
}
