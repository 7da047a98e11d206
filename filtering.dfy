/** The keyword filter of vavoo/vavoo2.py: `parse_filter_config` turns the
    FILTER_KEYWORDS setting into keywords and keyword-to-group mappings, and
    `apply_filter_to_first_region` keeps, for the first configured region only, the
    channels whose lower-cased name contains a keyword. */
module Filtering {
  import opened Text
  import opened Seqs
  import opened Catalog
  import opened Settings

  // ---------------------------------------------------------------------------
  // parse_filter_config

  /** What one entry contributes: nothing when empty; otherwise its keyword (the
      part before the first ':' when there is one, stripped and lower-cased) and,
      with a ':', the group after it, stripped. */
  function ParseEntry(item: string): (r: Option<(string, Option<string>)>)
    ensures r.None? <==> item == ""
    ensures r.Some? && r.value.1.Some? <==> item != "" && ':' in item
  {
    if item == "" then None
    else
      match SplitFirst(item, ':')
      case Some((kw, gt)) => Some((Lower(Strip(kw)), Some(Strip(gt))))
      case None => Some((Lower(Strip(item)), None))
  }

  /** `ParseEntry` as a value. */
  function EntryParser(): string -> Option<(string, Option<string>)> {
    (item: string) => ParseEntry(item)
  }

  /** The keywords and mappings after the entries `xs`, each parsed by `entry`. A
      later mapping for the same keyword replaces an earlier one. */
  function ParsedWith(xs: seq<string>, entry: string -> Option<(string, Option<string>)>): (r: (seq<string>, map<string, string>))
    decreases |xs|
  {
    if xs == [] then ([], map[])
    else
      var prev := ParsedWith(xs[..|xs| - 1], entry);
      match entry(xs[|xs| - 1])
      case None => prev
      case Some((kw, None)) => (prev.0 + [kw], prev.1)
      case Some((kw, Some(group))) => (prev.0 + [kw], prev.1[kw := group])
  }

  /** The keywords and mappings `parse_filter_config` returns for `xs`. */
  function ParsedFilter(xs: seq<string>): (seq<string>, map<string, string>) {
    ParsedWith(xs, EntryParser())
  }

  /** `parse_filter_config`. */
  method ParseFilterConfig(keywordsList: seq<string>) returns (keywords: seq<string>, mappings: map<string, string>)
    ensures (keywords, mappings) == ParsedFilter(keywordsList)
  {
    keywords := [];
    mappings := map[];
    for i := 0 to |keywordsList|
      invariant (keywords, mappings) == ParsedFilter(keywordsList[..i])
    {
      var item := keywordsList[i];
      assert keywordsList[..i + 1] == keywordsList[..i] + [item];
      if item == "" {
        continue;
      }
      var split := SplitFirst(item, ':');
      if split.Some? {
        var kw := Lower(Strip(split.value.0));
        var gt := Strip(split.value.1);
        keywords := keywords + [kw];
        mappings := mappings[kw := gt];
      } else {
        keywords := keywords + [Lower(Strip(item))];
      }
    }
    assert keywordsList[..|keywordsList|] == keywordsList;
  }

  /** The keyword an entry contributes, if any. */
  function KeywordOf(entry: string -> Option<(string, Option<string>)>): string -> Option<string> {
    (item: string) => if entry(item).Some? then Some(entry(item).value.0) else None
  }

  /** The keywords are those the entries contribute, one each, in order; every
      mapped keyword is one of them. */
  lemma {:induction false} ParsedKeywords(xs: seq<string>, entry: string -> Option<(string, Option<string>)>)
    ensures ParsedWith(xs, entry).0 == Collected(xs, KeywordOf(entry))
    ensures forall k :: k in ParsedWith(xs, entry).1 ==> k in ParsedWith(xs, entry).0
    decreases |xs|
  {
    if xs != [] {
      ParsedKeywords(xs[..|xs| - 1], entry);
    }
  }

  /** "Entry `i` maps keyword `k`." */
  ghost predicate MapsAt(xs: seq<string>, entry: string -> Option<(string, Option<string>)>, i: int, k: string) {
    0 <= i < |xs| && entry(xs[i]).Some? && entry(xs[i]).value.0 == k && entry(xs[i]).value.1.Some?
  }

  /** A keyword has a mapping exactly when some entry maps it. */
  lemma {:induction false} ParsedMappingExists(xs: seq<string>, entry: string -> Option<(string, Option<string>)>, k: string)
    ensures k in ParsedWith(xs, entry).1 <==> exists i :: MapsAt(xs, entry, i, k)
    decreases |xs|
  {
    if xs != [] {
      var init := xs[..|xs| - 1];
      ParsedMappingExists(init, entry, k);
      assert k in ParsedWith(xs, entry).1 ==> k in ParsedWith(init, entry).1 || MapsAt(xs, entry, |xs| - 1, k);
      if exists i :: MapsAt(init, entry, i, k) {
        var i :| MapsAt(init, entry, i, k);
        assert MapsAt(xs, entry, i, k);
      }
      if exists i :: MapsAt(xs, entry, i, k) {
        var i :| MapsAt(xs, entry, i, k);
        if i < |init| {
          assert MapsAt(init, entry, i, k);
        }
      }
    }
  }

  /** The mapping of a keyword is the group of the last entry that maps it. */
  lemma {:induction false} ParsedMappingIsLast(xs: seq<string>, entry: string -> Option<(string, Option<string>)>, k: string, i: nat)
    requires MapsAt(xs, entry, i, k)
    requires forall j :: i < j < |xs| ==> !MapsAt(xs, entry, j, k)
    ensures k in ParsedWith(xs, entry).1 && ParsedWith(xs, entry).1[k] == entry(xs[i]).value.1.value
    decreases |xs|
  {
    var init := xs[..|xs| - 1];
    if i < |xs| - 1 {
      assert !MapsAt(xs, entry, |xs| - 1, k);
      assert MapsAt(init, entry, i, k);
      forall j | i < j < |init|
        ensures !MapsAt(init, entry, j, k)
      {
        assert !MapsAt(xs, entry, j, k);
      }
      ParsedMappingIsLast(init, entry, k, i);
    }
  }

  /** With the entry parser of `parse_filter_config`: the keywords are those of the
      non-empty entries, and a ':' entry's group is the mapping of its keyword unless
      a later ':' entry names the same keyword. */
  lemma ParseFilterMeaning(xs: seq<string>, i: nat)
    requires i < |xs| && xs[i] != "" && ':' in xs[i]
    requires forall j :: i < j < |xs| ==> !MapsAt(xs, EntryParser(), j, ParseEntry(xs[i]).value.0)
    ensures ParsedFilter(xs).0 == Collected(xs, KeywordOf(EntryParser()))
    ensures ParseEntry(xs[i]).value.0 in ParsedFilter(xs).1
    ensures ParsedFilter(xs).1[ParseEntry(xs[i]).value.0] == ParseEntry(xs[i]).value.1.value
  {
    ParsedKeywords(xs, EntryParser());
    var k := ParseEntry(xs[i]).value.0;
    assert MapsAt(xs, EntryParser(), i, k);
    ParsedMappingIsLast(xs, EntryParser(), k, i);
  }

  // ---------------------------------------------------------------------------
  // apply_filter_to_first_region

  /** The position of the first keyword that occurs in `name` (`|keywords|` when
      none does). */
  function MatchIndex(keywords: seq<string>, name: string): (i: nat)
    ensures i <= |keywords|
    ensures i < |keywords| ==> Contains(name, keywords[i])
    ensures forall j :: 0 <= j < i ==> !Contains(name, keywords[j])
    decreases |keywords|
  {
    if keywords == [] then 0
    else if Contains(name, keywords[0]) then 0
    else 1 + MatchIndex(keywords[1..], name)
  }

  /** The inner loop: the first keyword contained in `name`, if any. */
  method FindMatch(keywords: seq<string>, name: string) returns (matched: Option<string>)
    ensures matched.Some? <==> MatchIndex(keywords, name) < |keywords|
    ensures matched.Some? ==> matched.value == keywords[MatchIndex(keywords, name)]
  {
    matched := None;
    var i := 0;
    while i < |keywords|
      invariant i <= |keywords|
      invariant forall j :: 0 <= j < i ==> !Contains(name, keywords[j])
    {
      if Contains(name, keywords[i]) {
        matched := Some(keywords[i]);
        return;
      }
      i := i + 1;
    }
  }

  /** `str.lower` as a value. */
  function Lowered(): string -> string {
    (s: string) => Lower(s)
  }

  /** The keyword an item's name, lower-cased by `lower`, matches, if any. */
  function Matched(keywords: seq<string>, lower: string -> string, c: Channel): Option<string> {
    var i := MatchIndex(keywords, lower(c.name));
    if i < |keywords| then Some(keywords[i]) else None
  }

  /** `Matched` as a value. */
  function MatchOf(keywords: seq<string>, lower: string -> string): Channel -> Option<string> {
    (c: Channel) => Matched(keywords, lower, c)
  }

  /** An item is kept when the keyword it matched is not empty (an empty matched
      keyword is falsy). */
  function KeptBy(matchOf: Channel -> Option<string>): Channel -> bool {
    (c: Channel) => matchOf(c).Some? && matchOf(c).value != ""
  }

  /** The items the filter keeps. */
  function Selected(keywords: seq<string>, lower: string -> string): Channel -> bool {
    KeptBy(MatchOf(keywords, lower))
  }

  /** An item is kept exactly when some non-empty keyword occurs in its lower-cased
      name and no keyword before it does. */
  lemma SelectedMeaning(keywords: seq<string>, lower: string -> string, c: Channel)
    ensures Selected(keywords, lower)(c) <==>
              exists i :: 0 <= i < |keywords| && keywords[i] != "" && Contains(lower(c.name), keywords[i])
                          && forall j :: 0 <= j < i ==> !Contains(lower(c.name), keywords[j])
  {
    var m := MatchIndex(keywords, lower(c.name));
    if exists i :: 0 <= i < |keywords| && keywords[i] != "" && Contains(lower(c.name), keywords[i])
                   && forall j :: 0 <= j < i ==> !Contains(lower(c.name), keywords[j]) {
      var i :| 0 <= i < |keywords| && keywords[i] != "" && Contains(lower(c.name), keywords[i])
               && forall j :: 0 <= j < i ==> !Contains(lower(c.name), keywords[j]);
      assert m == i;
    }
  }

  /** Without empty keywords, an item is kept exactly when its lower-cased name
      contains some keyword. */
  lemma SelectedWithoutEmptyKeywords(keywords: seq<string>, lower: string -> string, c: Channel)
    requires forall j :: 0 <= j < |keywords| ==> keywords[j] != ""
    ensures Selected(keywords, lower)(c) <==> exists i :: 0 <= i < |keywords| && Contains(lower(c.name), keywords[i])
  {
  }

  /** The empty keyword occurs in every name, so an empty first keyword drops every
      item. */
  lemma EmptyFirstKeywordDropsAll(keywords: seq<string>, lower: string -> string, c: Channel)
    requires keywords != [] && keywords[0] == ""
    ensures !Selected(keywords, lower)(c)
  {
    assert OccursAt(lower(c.name), keywords[0], 0);
  }

  /** The group a kept item is given: the mapping of the keyword it matched, if
      that keyword has one. */
  function GroupBy(matchOf: Channel -> Option<string>, mappings: map<string, string>, c: Channel): Option<string> {
    if KeptBy(matchOf)(c) && matchOf(c).value in mappings then Some(mappings[matchOf(c).value]) else None
  }

  /** The group the filter gives an item, if any. */
  function MappedGroup(keywords: seq<string>, mappings: map<string, string>, lower: string -> string, c: Channel): Option<string> {
    GroupBy(MatchOf(keywords, lower), mappings, c)
  }

  /** The filter applies: it is enabled, there is a locale, and `region` is the
      first locale's region, ignoring case. */
  predicate Applies(enabled: bool, locales: seq<Locale>, region: string) {
    enabled && locales != [] && Upper(region) == Upper(locales[0].region)
  }

  /** The groups after the loop has seen `items[..i]`: every item has its group
      from `before` or the group its keyword maps to, and every item seen so far
      whose keyword maps to a group has it. */
  ghost predicate GroupsSoFar(items: seq<Channel>, i: int, matchOf: Channel -> Option<string>,
                              mappings: map<string, string>, before: map<Channel, string>)
    reads set c | c in items
  {
    (forall c :: c in items ==>
       c in before && (c.group == before[c] || (GroupBy(matchOf, mappings, c).Some? && c.group == GroupBy(matchOf, mappings, c).value)))
    && forall k :: 0 <= k < i && 0 <= k < |items| && GroupBy(matchOf, mappings, items[k]).Some? ==>
         items[k].group == GroupBy(matchOf, mappings, items[k]).value
  }

  /** After the whole list every item has its mapped group, if any, and otherwise
      its group from `before`. */
  lemma GroupsDone(items: seq<Channel>, matchOf: Channel -> Option<string>,
                   mappings: map<string, string>, before: map<Channel, string>)
    requires GroupsSoFar(items, |items|, matchOf, mappings, before)
    ensures forall c :: c in items ==>
              c in before && c.group == (if GroupBy(matchOf, mappings, c).Some? then GroupBy(matchOf, mappings, c).value else before[c])
  {
    forall c | c in items
      ensures c.group == (if GroupBy(matchOf, mappings, c).Some? then GroupBy(matchOf, mappings, c).value else before[c])
    {
      var k :| 0 <= k < |items| && items[k] == c;
    }
  }

  /** The loop of `apply_filter_to_first_region`: keeps the items whose matched
      keyword is not empty, in order, and gives each the group its keyword maps to.
      `matchOf` names, for the proof, the keyword the inner loop finds. */
  method FilterItems(items: seq<Channel>, keywords: seq<string>, mappings: map<string, string>,
                     lower: string -> string, ghost matchOf: Channel -> Option<string>) returns (out: seq<Channel>)
    requires forall c :: c in items ==> matchOf(c) == Matched(keywords, lower, c)
    modifies (set c | c in items)`group
    ensures out == Filter(items, KeptBy(matchOf))
    ensures forall c :: c in items ==> c.resolvedUrl == old(c.resolvedUrl)
    ensures forall c :: c in items ==>
              c.group == (if GroupBy(matchOf, mappings, c).Some? then GroupBy(matchOf, mappings, c).value else old(c.group))
  {
    ghost var before := map c | c in items :: c.group;
    out := [];
    var i := 0;
    while i < |items|
      invariant i <= |items|
      invariant out == Filter(items[..i], KeptBy(matchOf))
      invariant GroupsSoFar(items, i, matchOf, mappings, before)
    {
      var item := items[i];
      FilterStep(items, KeptBy(matchOf), i);
      var keep := FilterOne(items, i, keywords, mappings, lower, matchOf, before);
      if keep {
        out := out + [item];
      }
      i := i + 1;
    }
    assert items[..i] == items;
    GroupsDone(items, matchOf, mappings, before);
  }

  /** One pass of the loop, on `items[i]`: finds the item's keyword, gives the item
      its mapped group, and says whether the item is kept. */
  method FilterOne(items: seq<Channel>, i: nat, keywords: seq<string>, mappings: map<string, string>,
                   lower: string -> string, ghost matchOf: Channel -> Option<string>, ghost before: map<Channel, string>)
    returns (keep: bool)
    requires i < |items| && matchOf(items[i]) == Matched(keywords, lower, items[i])
    requires GroupsSoFar(items, i, matchOf, mappings, before)
    modifies {items[i]}`group
    ensures keep == KeptBy(matchOf)(items[i])
    ensures GroupsSoFar(items, i + 1, matchOf, mappings, before)
  {
    var item := items[i];
    var matched := FindMatch(keywords, lower(item.name));
    keep := matched.Some? && matched.value != "";
    if keep && matched.value in mappings {
      item.group := mappings[matched.value];
    }
  }

  /** `apply_filter_to_first_region`; `enabled`, `locales` and `rawKeywords` are
      FILTER_ENABLED, LOCALES and FILTER_KEYWORDS. */
  method ApplyFilterToFirstRegion(items: seq<Channel>, region: string, enabled: bool, locales: seq<Locale>,
                                  rawKeywords: seq<string>) returns (out: seq<Channel>)
    modifies (set c | c in items)`group
    ensures !Applies(enabled, locales, region) ==> out == items
    ensures Applies(enabled, locales, region) && rawKeywords == [] ==> out == []
    ensures Applies(enabled, locales, region) && rawKeywords != [] ==>
              out == Filter(items, Selected(ParsedFilter(rawKeywords).0, Lowered()))
    ensures forall c :: c in items ==> c.resolvedUrl == old(c.resolvedUrl)
    ensures forall c :: c in items ==>
              c.group == (if Applies(enabled, locales, region) && rawKeywords != []
                             && MappedGroup(ParsedFilter(rawKeywords).0, ParsedFilter(rawKeywords).1, Lowered(), c).Some?
                          then MappedGroup(ParsedFilter(rawKeywords).0, ParsedFilter(rawKeywords).1, Lowered(), c).value
                          else old(c.group))
  {
    if !enabled || locales == [] || Upper(region) != Upper(locales[0].region) {
      return items;
    }
    if rawKeywords == [] {
      return [];
    }
    var keywords, mappings := ParseFilterConfig(rawKeywords);
    out := FilterItems(items, keywords, mappings, Lowered(), MatchOf(keywords, Lowered()));
  }

  /** The filtered list is a subsequence of the input, and an item is in it exactly
      when it is selected. */
  lemma FilterKeepsOrder(items: seq<Channel>, keywords: seq<string>, c: Channel)
    requires c in items
    ensures IsSubsequence(Filter(items, Selected(keywords, Lowered())), items)
    ensures c in Filter(items, Selected(keywords, Lowered())) <==> Selected(keywords, Lowered())(c)
  {
    FilterIsSubsequence(items, Selected(keywords, Lowered()));
    if Selected(keywords, Lowered())(c) {
      FilterKeeps(items, Selected(keywords, Lowered()), c);
    }
  }
}
