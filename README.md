# Vavoo channel lists and the M3U group extractor, in Dafny

This project models two parts of an IPTV toolkit and proves properties of the
model.

The first part is the channel-list pipeline of the Vavoo proxy
(`vavoo/vavoo2.py`). The proxy fetches the Vavoo catalog for a region and
normalises every channel name (`canonicalize_channel_name`, `norm_key`,
`base_name`). For Germany, `group_channels` orders the channels by a
reference table and gives each one a group. The keyword filter
(`parse_filter_config`, `apply_filter_to_first_region`) then trims the list of
the first configured region. The resolution cache (`apply_res_cache`,
`deduplicate_by_name`, `sort_by_resolution_inside_same_channel`) keeps and
orders channels by the preference rank of their best HLS variant
(`variant_rank`, `parse_master_variants`, `select_best_variant`). Around this
pipeline the model also covers:

- the refresh queue (`request_refresh`, `consume_refresh_request`);
- how `LOCALES` and `COMBINED_PLAYLISTS` are normalised when posted, saved
  and loaded;
- how the `/vavoo` and `/vavoo_variant` routes rewrite playlist lines;
- the numbering of repeated names in the full-HLS export.

The second part is the M3U group extractor of the MAC-to-M3U tool
(`mac-to-m3u-main/mac-to-m3u-main/m3u_group_extractor.py`):

- `sanitize_filename`;
- the answer mapping of `get_extraction_mode`;
- the scan and bucketing of `extract_groups_by_query`, with the files it
  writes.

Modules:

- `Text`, `Seqs`, `Groups`, `Pattern` and `Ranking` give string operations,
  sequence helpers, first-occurrence order and grouping by key, a small
  regular-expression matcher and Python's stable sort by a small key.
- `Names` holds the name normalisers.
- `Variants` holds HLS variants and their rank.
- `Catalog` holds the channel record and the resolution cache.
- `Buckets` and `Lists` hold the resolution passes.
- `Grouping` holds `group_channels`.
- `Filtering` holds the keyword filter.
- `Settings` holds the configuration.
- `Refresh` holds the refresh queue.
- `Rewrite` holds playlist rewriting and the export.
- `Extractor` holds the group extractor.

Catalog items are dicts that the source changes in place. They are modelled
by the class `Catalog.Channel`:

- `group` and `resolved_url` are mutable fields;
- the fields the source never writes are constants.

Methods that change items state the new value of both mutable fields for every
item; the grouping and filtering methods may write only `group`. The list each
method returns is tied to a specification function. The lemmas beside that
function prove what the source promises: permutation, stability, order of
first occurrence, first or best per key, and round trips.

The docstring of `sanitize_filename` gives `"USA: Sports (HD)"` to
`"USA_Sports_HD.m3u"`. The code keeps the colon as `-`, which gives
`"USA-_Sports_HD.m3u"`. The model follows the code and proves the general
form of this (`Extractor.ColonSpaceBecomesHyphenUnderscore`).

## Model

| member | source | states |
|---|---|---|
| Names.CanonicalRule | vavoo/vavoo2.py:555-583 | every replacement the rules produce is one of the ten canonical names |
| Names.Canonicalize | vavoo/vavoo2.py:548-585 | the result is the stripped name or one of the canonical names |
| Names.CanonicalizeOfStripped | vavoo/vavoo2.py:552-553 | canonicalising depends only on the stripped name |
| Names.CanonicalizeStable | vavoo/vavoo2.py:548-585 | a second pass leaves the result unchanged, for every name whose result is not "AXN Black" |
| Names.CanonicalizeNotIdempotent | vavoo/vavoo2.py:577-583 | "Sony AXN" becomes "AXN Black", and a second pass turns that into "AXN White" because the later `axn ` prefix rule catches it |
| Names.ChannelMainKey | vavoo/vavoo2.py:587-602 | the trailing number is below 100, and the base has no lower-case letter, single spaces and no surrounding whitespace |
| Names.MainKeyWithoutNumber | vavoo/vavoo2.py:596-602 | a name that does not end in a digit has no number, and its base is the upper-cased name with whitespace collapsed and stripped |
| Names.MainKeySplitsNumber | vavoo/vavoo2.py:593-600 | a name followed by a space and a number below 100 is split into that name's collapsed, stripped, upper-case form and the number |
| Names.TrailingNumberAt | vavoo/vavoo2.py:596 | a match is a space followed by one or two digits that end the string |
| Names.RemovePlusFrom | vavoo/vavoo2.py:440-443 | the result is never longer than the input |
| Names.RemovePlusCounts | vavoo/vavoo2.py:440-443 | exactly the `+` signs that do not start a `+1`/`+24` time shift are removed; every other character keeps its count |
| Names.DroppedPlus | vavoo/vavoo2.py:443 | each dropped position holds a `+` that is not followed by a time shift |
| Names.TimeshiftKept | vavoo/vavoo2.py:443 | a name without `+` that ends in `+1` is returned unchanged |
| Names.RemovePlusKeepsAllButPlus | vavoo/vavoo2.py:443 | when every `+` starts a time shift, the text is unchanged |
| Names.DedupNameKey | vavoo/vavoo2.py:809-819 | the key has no upper-case letter, single spaces only and no surrounding whitespace |
| Names.NormKey | vavoo/vavoo2.py:948-960 | the key holds only lower-case ASCII letters and digits |
| Names.NormKeyIgnoresCase | vavoo/vavoo2.py:951 | the key does not depend on letter case |
| Names.BaseTail | vavoo/vavoo2.py:999-1000 | after the trailing number is dropped, the text has single spaces, is stripped and keeps only `[A-Z0-9 ]` |
| Names.BaseName | vavoo/vavoo2.py:985-1001 | the base holds only capitals, digits and single inner spaces |
| Names.Canon | vavoo/vavoo2.py:1012-1019 | the key holds only lower-case ASCII letters and digits |
| Names.CanonOfKey | vavoo/vavoo2.py:1012-1019 | a key already in canonical form with no trailing `hd`/`4k` is a fixed point |
| Names.QualityEndNoMatch | vavoo/vavoo2.py:1016 | the trailing quality pattern matches nowhere in a key that does not end in `hd` or `4k` |
| Names.TvgStem | vavoo/vavoo2.py:437 | the stem holds only lower-case letters and digits, each exactly as often as in the lower-cased name |
| Names.TvgStemAppend | vavoo/vavoo2.py:437 | the stem of a concatenation is the concatenation of the stems, so the name's order is kept |
| Names.TvgStemOfChar | vavoo/vavoo2.py:437 | one character gives itself lower-cased when that is a letter or digit, and nothing otherwise |
| Names.BuildTvgId | vavoo/vavoo2.py:431-438 | outside Germany the id is the name; for Germany it ends in `.de` after the stem: only lower-case letters and digits, each as often as in the lower-cased name |
| Names.TvgIdIgnoresCase | vavoo/vavoo2.py:437-438 | the German id does not depend on letter case |
| Names.MapValue | vavoo/vavoo2.py:303-310 | an empty value is returned as is; otherwise the result is the mapping's entry for the stripped, lower-cased value, or the value itself when there is none |
| Names.MapValueNormalises | vavoo/vavoo2.py:308-310 | values that differ only in case and surrounding whitespace map alike |
| Variants.VariantRank | vavoo/vavoo2.py:1352-1361 | ranks 0..3 are the positions of (1080,50), (720,50), (1080,25), (720,25) in the preference list; every other pair gets rank 4, in both directions |
| Variants.RankIsPosition | vavoo/vavoo2.py:1352-1361 | each preferred pair gets the rank of its position |
| Variants.ParseInt | vavoo/vavoo2.py:509 | `int()` succeeds only on text that is not blank after stripping |
| Variants.ParseIntOfNat | vavoo/vavoo2.py:509 | `int(str(n)) == n` |
| Variants.AttrsFrom | vavoo/vavoo2.py:505 | every pair `findall` returns has a non-empty name of capitals and `-`, and a non-empty value without `,` |
| Variants.LookupIsLast | vavoo/vavoo2.py:505-508 | `dict(pairs).get` finds a key exactly when a pair has it, and returns the value of the last such pair |
| Variants.ResolutionHeight | vavoo/vavoo2.py:508-509 | a height is read only from text with exactly two `x`-separated integers, and it is the second |
| Variants.ResolutionHeightOf | vavoo/vavoo2.py:508-509 | `"WxH"` written from two numbers gives back H |
| Variants.MasterEntry | vavoo/vavoo2.py:504-516 | a stream line on the last line fails (IndexError); a successful entry's URL is the base joined with the stripped next line |
| Variants.StreamInfIndices | vavoo/vavoo2.py:503-504 | the positions listed are exactly the `#EXT-X-STREAM-INF` lines |
| Variants.ParseMasterVariants | vavoo/vavoo2.py:499-517 | the loop's result is the scan specification over all lines |
| Variants.MasterFailureSticks | vavoo/vavoo2.py:499-517 | once an entry raises, the whole parse fails with that error |
| Variants.MasterSucceeds | vavoo/vavoo2.py:499-517 | the parse succeeds exactly when every stream entry parses |
| Variants.MasterVariantsAreEntries | vavoo/vavoo2.py:499-517 | on success there is one variant per stream line, in order, each that line's entry |
| Variants.TrailingStreamInfFails | vavoo/vavoo2.py:506 | a playlist that ends with a stream line makes the parse fail |
| Variants.BaseOf | vavoo/vavoo2.py:648 | the base ends in `/` and is the URL up to and including its last `/`, or the URL plus `/` when it has none |
| Variants.LenientEntry | vavoo/vavoo2.py:655-677 | an entry with no next line or a blank one is skipped; a kept entry's URL is the base joined with the stripped next line |
| Variants.CollectStep | vavoo/vavoo2.py:651-677 | one more line extends the lenient scan by that line's entry, if any |
| Variants.CollectFailureSticks | vavoo/vavoo2.py:650-677 | a failure of the lenient scan is final |
| Variants.CollectFailsOnlyOnBandwidth | vavoo/vavoo2.py:670 | the lenient scan fails only on a stream line whose BANDWIDTH is present but not an integer |
| Variants.CollectedHaveUri | vavoo/vavoo2.py:657-677 | every collected variant comes from a stream line followed by a non-blank line, whose URL it carries |
| Variants.ScanVariants | vavoo/vavoo2.py:650-677 | the loop computes the lenient scan |
| Variants.SelectBestVariant | vavoo/vavoo2.py:637-691 | it fails exactly when the scan fails; with no variants it falls back to probing; otherwise it returns a variant of least rank, the earliest of that rank |
| Ranking.RankClass | vavoo/vavoo2.py:632 | a rank class holds only input elements of that rank |
| Ranking.SortByRanks | vavoo/vavoo2.py:632 | the sorted list holds only input elements whose rank is listed |
| Ranking.SortIsPermutation | vavoo/vavoo2.py:632 | the stable sort is a permutation of its input when every rank is listed |
| Ranking.SortedByRank | vavoo/vavoo2.py:632 | the sort's output is ordered by rank |
| Ranking.SortStable | vavoo/vavoo2.py:632 | elements of equal rank keep their input order |
| Ranking.SortHead | vavoo/vavoo2.py:679-681 | the first sorted element has the least rank and is the earliest of that rank |
| Buckets.BucketOrder | vavoo/vavoo2.py:608-613 | bucket keys are distinct and cover every item's key |
| Buckets.BucketsOf | vavoo/vavoo2.py:608-615 | there is one bucket per key |
| Buckets.SortedBuckets | vavoo/vavoo2.py:618-633 | there is one output block per key |
| Buckets.GatherBuckets | vavoo/vavoo2.py:605-615 | the gathering loop builds, for each key in order of first occurrence, the items with that key in input order |
| Buckets.SortInsideBuckets | vavoo/vavoo2.py:604-635 | the result is the buckets in first-occurrence order, each a single item as is or a larger bucket stably sorted by rank |
| Buckets.BucketSortIsPermutation | vavoo/vavoo2.py:604-635 | the bucket sort is a permutation of its input |
| Buckets.BucketSortBlocks | vavoo/vavoo2.py:618-633 | block j holds the items of the j-th key, ordered by rank, and equal ranks keep input order |
| Buckets.BucketOrderFirstOccurrence | vavoo/vavoo2.py:608-613 | the block keys are exactly the input keys, a subsequence of them, and any two block keys come in the order of their first occurrence in the input |
| Buckets.BucketsPartition | vavoo/vavoo2.py:608-615 | the buckets of distinct keys together hold exactly the items with those keys |
| Catalog.NewItem | vavoo/vavoo2.py:1153-1164 | a new item's name is the canonicalised raw name; `_key` and `_base` are `norm_key` and `base_name` of that name; it has no group and no resolved URL |
| Catalog.EntryRank | vavoo/vavoo2.py:627-630 | a cached entry's rank is at most 4 |
| Lists.CachedRankInRanks | vavoo/vavoo2.py:623-630 | the sort rank is one of 0..4 or 99, and 99 exactly for items the cache does not know |
| Lists.SortByResolutionInsideSameChannel | vavoo/vavoo2.py:604-635 | the result is the bucket sort keyed by `channel_main_key` and ranked by the cache, and a permutation of the input |
| Lists.SortIsPermutationOfInput | vavoo/vavoo2.py:604-635 | the resolution sort only reorders the list |
| Lists.ApplyResCache | vavoo/vavoo2.py:847-859 | it keeps the cached items in order; each one's resolved URL becomes the cached URL; uncached items and all groups are untouched |
| Lists.ApplyResCacheKeeps | vavoo/vavoo2.py:847-859 | an item is kept exactly when its id is cached, and the result is a subsequence of the input |
| Lists.Bests | vavoo/vavoo2.py:822-837 | the key order and the `best` dictionary hold the same keys |
| Lists.DeduplicateBy | vavoo/vavoo2.py:821-839 | the loop computes the dictionary's items in insertion order |
| Lists.DeduplicateByName | vavoo/vavoo2.py:821-839 | `deduplicate_by_name` keyed by `dedup_name_key` |
| Lists.BestsSound | vavoo/vavoo2.py:836-837 | every entry holds a cached item of the input under its own key, with that item's rank |
| Lists.BestsMinimal | vavoo/vavoo2.py:836-837 | every cached item's key has an entry whose rank is at most that item's |
| Lists.BestsEarliest | vavoo/vavoo2.py:836 | the entry for a key is the earliest item of least rank (a tie does not replace it) |
| Lists.BestsOrder | vavoo/vavoo2.py:822-839 | the dictionary order is the first-occurrence order of keys among the cached items |
| Lists.OrderIsDistinct | vavoo/vavoo2.py:822-839 | the dictionary keys are distinct |
| Lists.DedupKeepsCachedOnce | vavoo/vavoo2.py:821-839 | only cached input items are kept, and no two kept items share a key |
| Lists.DedupKeyOrder | vavoo/vavoo2.py:821-839 | the kept items' keys are the cached items' keys, each once, in order of first occurrence |
| Lists.DedupKeepsBest | vavoo/vavoo2.py:821-839 | every cached item is represented by a kept item with its key and a rank no worse |
| Lists.DedupKeepsEarliest | vavoo/vavoo2.py:821-839 | a kept item is cached and the earliest of least rank for its key |
| Grouping.KeysOf | vavoo/vavoo2.py:1179-1183 | `ref_order` lists the key of every table entry, in table order |
| Grouping.TitlesOf | vavoo/vavoo2.py:1179-1182 | the titles are the group title of every table entry, in table order |
| Grouping.LastTitle | vavoo/vavoo2.py:1181-1182 | a key has a title exactly when some assignment sets it |
| Grouping.LastTitleIsLast | vavoo/vavoo2.py:1181-1182 | a key gets the title of its last assignment |
| Grouping.LastTitleStep | vavoo/vavoo2.py:1182 | one assignment changes only its own key's entry |
| Grouping.RefMapOf | vavoo/vavoo2.py:1177-1183 | `ref_map` holds exactly the keys assigned so far |
| Grouping.RefMapOfIsLast | vavoo/vavoo2.py:1177-1183 | `ref_map` holds, for every key, the title of its last assignment |
| Grouping.BuildRefIndex | vavoo/vavoo2.py:1177-1183 | the loop builds `ref_order` as the table's keys and `ref_map` as the last-title map |
| Grouping.RefIndexMeaning | vavoo/vavoo2.py:1177-1183 | `ref_map` knows exactly the listed keys, each with the group of its last table entry |
| Grouping.Bases | vavoo/vavoo2.py:1186-1188 | the `_base` of every item, in order |
| Grouping.CountBases | vavoo/vavoo2.py:1185-1188 | `base_count` holds exactly the non-empty bases, each with its number of items |
| Grouping.SpecialGroup | vavoo/vavoo2.py:1190-1255 | a special group is always one of the group names the rules use |
| Grouping.PublicAndEarlyRules | vavoo/vavoo2.py:1198-1219 | the early rules return only listed group names |
| Grouping.SkyRules | vavoo/vavoo2.py:1220-1241 | the Sky rules return only listed group names |
| Grouping.SportAndDocuRules | vavoo/vavoo2.py:1242-1255 | the remaining rules return only listed group names |
| Grouping.SpecialGroupIgnoresCase | vavoo/vavoo2.py:1193 | the special group does not depend on letter case |
| Grouping.RestGroup | vavoo/vavoo2.py:1270-1276 | an unmatched item's group is a special group, or its base when at least five items share it, or "Germany" |
| Grouping.Pick | vavoo/vavoo2.py:1261-1265 | the inner loop picks only items with key k, and their ids join `used` |
| Grouping.RefPass | vavoo/vavoo2.py:1257-1265 | the reference loops place only items whose key is listed, and record their ids |
| Grouping.RestOf | vavoo/vavoo2.py:1267-1269 | the rest holds only items whose id was not used |
| Grouping.PickIsClass | vavoo/vavoo2.py:1260-1265 | with distinct ids, the loop for `ref_order[m]` picks exactly the items whose key first occurs at m, in catalog order |
| Grouping.RefPassIsSort | vavoo/vavoo2.py:1257-1265 | after n keys the placed items are those of reference position below n, stably sorted by that position |
| Grouping.RestOfIsClass | vavoo/vavoo2.py:1267-1277 | the items left are exactly the unlisted ones, in catalog order |
| Grouping.GroupOrderIsSort | vavoo/vavoo2.py:1257-1279 | the German order is a stable sort of the catalog by first reference position, with unlisted items last |
| Grouping.RanksListed | vavoo/vavoo2.py:1257-1279 | every item's position is between 0 and the length of `ref_order` |
| Grouping.GroupOrderIsPermutation | vavoo/vavoo2.py:1257-1279 | the German order is a permutation of the catalog |
| Grouping.GroupOrderIsSorted | vavoo/vavoo2.py:1257-1279 | reference-matched items come first, in reference-table order |
| Grouping.GroupOrderIsStable | vavoo/vavoo2.py:1257-1279 | items of equal reference position, the unmatched ones included, keep catalog order |
| Grouping.RefPartMembers | vavoo/vavoo2.py:1257-1265 | the reference part holds exactly the items whose key the table lists |
| Grouping.GroupChannels | vavoo/vavoo2.py:1173-1279 | other regions pass through unchanged; for DE the result is the reference order, each placed item gets its table group and each other item its rest group; only groups are written |
| Grouping.ReferencePass | vavoo/vavoo2.py:1257-1265 | the nested loops compute the reference pass and set each placed item's group from `ref_map`; only groups are written |
| Grouping.PickPass | vavoo/vavoo2.py:1261-1265 | the inner loop picks as specified and sets the picked items' group, no other field and no other item's |
| Grouping.ChooseRestGroup | vavoo/vavoo2.py:1270-1276 | the chosen group is the rest-group specification |
| Grouping.RestPass | vavoo/vavoo2.py:1267-1277 | the rest loop appends the unused items in order, each with its rest group, and changes no other item and no other field |
| Filtering.ParseEntry | vavoo/vavoo2.py:1285-1294 | an empty entry contributes nothing; an entry has a group exactly when it contains `:` |
| Filtering.ParseFilterConfig | vavoo/vavoo2.py:1281-1295 | the loop computes the keywords and mappings specification |
| Filtering.ParsedKeywords | vavoo/vavoo2.py:1285-1294 | the keywords are those the entries contribute, one each, in order; every mapped keyword is a keyword |
| Filtering.ParsedMappingExists | vavoo/vavoo2.py:1288-1292 | a keyword is mapped exactly when some entry maps it |
| Filtering.ParsedMappingIsLast | vavoo/vavoo2.py:1292 | a keyword's mapping is the group of the last entry that maps it |
| Filtering.ParseFilterMeaning | vavoo/vavoo2.py:1281-1295 | with the source's entry parser, a `:` entry's group is its keyword's mapping unless a later entry maps it |
| Filtering.MatchIndex | vavoo/vavoo2.py:1318-1322 | the matched keyword is contained in the name and no earlier keyword is |
| Filtering.FindMatch | vavoo/vavoo2.py:1318-1322 | the inner loop finds the first keyword contained in the name, if any |
| Filtering.SelectedMeaning | vavoo/vavoo2.py:1316-1329 | an item is kept exactly when the first keyword its lower-cased name contains is not empty |
| Filtering.SelectedWithoutEmptyKeywords | vavoo/vavoo2.py:1316-1329 | without empty keywords, an item is kept exactly when its name contains some keyword |
| Filtering.EmptyFirstKeywordDropsAll | vavoo/vavoo2.py:1319-1324 | an empty first keyword matches every name and is falsy, so every item is dropped |
| Filtering.GroupsDone | vavoo/vavoo2.py:1316-1329 | after the loop every item has its mapped group, if any, and otherwise its old group |
| Filtering.FilterItems | vavoo/vavoo2.py:1316-1331 | the loop keeps the selected items in order and gives each kept item whose keyword is mapped that group; dropped items and unmapped ones keep theirs, and resolved URLs are untouched |
| Filtering.FilterOne | vavoo/vavoo2.py:1317-1329 | one pass decides keep or drop and sets the mapped group |
| Filtering.ApplyFilterToFirstRegion | vavoo/vavoo2.py:1297-1331 | the list is unchanged unless the filter is enabled, a locale exists and the region is the first one; with no keywords the list is empty; otherwise it is the filtered list |
| Filtering.FilterKeepsOrder | vavoo/vavoo2.py:1316-1331 | the filtered list is a subsequence of the input, and an item is in it exactly when it is selected |
| Settings.Collected | vavoo/vavoo2.py:1868-1873 | the append loop's result is no longer than its input |
| Settings.CollectedMembers | vavoo/vavoo2.py:1868-1873 | a value is collected exactly when some input yields it |
| Settings.CollectSome | vavoo/vavoo2.py:381-394 | the loop computes the collected values |
| Settings.KeepFirstPerKey | vavoo/vavoo2.py:1875-1888 | the `seen` loop keeps the first entry per key |
| Seqs.DedupBy | vavoo/vavoo2.py:1875-1888 | the kept entries have distinct keys, come from the input and cover every input key |
| Seqs.DedupByFirst | vavoo/vavoo2.py:1875-1880 | the first entry for a key is kept |
| Seqs.DedupByOnlyFirst | vavoo/vavoo2.py:1875-1880 | an entry is kept only if no earlier entry shares its key |
| Settings.PostedRegions | vavoo/vavoo2.py:1861 | the posted regions are the non-empty ones, upper-cased |
| Settings.PostedKeywords | vavoo/vavoo2.py:1849-1853 | the posted keywords are non-empty and stripped |
| Settings.UpperStripped | vavoo/vavoo2.py:1871 | upper-casing a stripped string leaves it stripped |
| Settings.PostedLocaleGood | vavoo/vavoo2.py:1868-1873 | a posted locale is kept exactly when lang and region are non-empty after stripping, and a kept one is well formed |
| Settings.SetLocalesMeaning | vavoo/vavoo2.py:1868-1890 | stored locales are well formed and have distinct regions, and every posted good locale's region is stored |
| Settings.SetLocalesFirst | vavoo/vavoo2.py:1875-1880 | each stored locale is one of the accepted posted ones |
| Settings.SetPlaylistsMeaning | vavoo/vavoo2.py:1858-1890 | stored playlists are well formed and have distinct names |
| Settings.ShortPlaylistDropped | vavoo/vavoo2.py:1862 | a posted playlist with fewer than two non-empty regions is dropped |
| Settings.RegionsCount | vavoo/vavoo2.py:1861 | the posted regions are as many as the non-empty ones |
| Settings.UpperAll | vavoo/vavoo2.py:407 | every region is upper-cased, one for one |
| Settings.LoadedRegions | vavoo/vavoo2.py:388 | cleaning regions never adds any |
| Settings.LoadLocales | vavoo/vavoo2.py:368-379 | the loaded LOCALES is never empty |
| Settings.Config.constructor | vavoo/vavoo2.py:65-71 | the defaults: filter off, no keywords, locale ("de", "DE"), no combined playlists |
| Settings.Config.SetConfig | vavoo/vavoo2.py:1846-1890 | the flag and keywords change only when posted; LOCALES and COMBINED_PLAYLISTS become the normalised, first-per-key posted lists |
| Settings.Config.LoadFromDisk | vavoo/vavoo2.py:354-396 | with no file the LOCALES and COMBINED_PLAYLISTS defaults are set and the filter settings kept; otherwise every setting is replaced from the file: the loaded locales, or the default when none, the well-formed playlists, and the file's flag and keywords, or their defaults when absent |
| Settings.LocaleRoundTrip | vavoo/vavoo2.py:368-379 | loading a saved well-formed locale gives it back |
| Settings.LocalesRoundTrip | vavoo/vavoo2.py:368-379 | saving stored locales and loading them gives the same list |
| Settings.LoadSavedLocales | vavoo/vavoo2.py:368-379 | save then load gives the locales back, or the default when there are none |
| Settings.CleanRegionsRoundTrip | vavoo/vavoo2.py:388 | cleaning regions that are already clean changes nothing |
| Settings.PlaylistRoundTrip | vavoo/vavoo2.py:381-394 | a stored playlist whose name and regions are stripped reads back unchanged |
| Refresh.RequestedRegion | vavoo/vavoo2.py:425 | a missing or empty region becomes `*`; the result is non-empty and upper-case, with the input's length |
| Refresh.UpperSetMembers | vavoo/vavoo2.py:1511-1512 | the set holds exactly the upper-cased regions |
| Refresh.CombinedRegionsMembers | vavoo/vavoo2.py:1510-1512 | the set holds exactly the upper-cased regions of the combined playlists |
| Refresh.AllRegionsMembers | vavoo/vavoo2.py:1509-1513 | under `*` a region is refreshed exactly when a locale names it or a combined playlist names it in any case |
| Refresh.UniqueUpperMembers | vavoo/vavoo2.py:1515-1521 | `uniq` has no repeats and no empty entry, and holds exactly the upper-cased non-empty requested regions |
| Refresh.UniqueUpperInOrder | vavoo/vavoo2.py:1515-1521 | `uniq` is a subsequence of the non-empty upper-cased regions, and any two of its regions come in the order of their first request |
| Refresh.Requested | vavoo/vavoo2.py:424-429 | the force queue has one entry per request |
| Refresh.RequestedAt | vavoo/vavoo2.py:425-426 | entry i of the queue is request i's region |
| Refresh.RequestedCollected | vavoo/vavoo2.py:1517-1519 | queued regions are already upper-case and non-empty |
| Refresh.RequestedRegionsRefreshed | vavoo/vavoo2.py:424-429 | every requested region reaches the worker once, in order of first request |
| Refresh.MissingRegionIsEverything | vavoo/vavoo2.py:425 | a request without a region asks for every region |
| Refresh.RefreshQueue.constructor | vavoo/vavoo2.py:424-429 | both queues start empty and the event is clear |
| Refresh.RefreshQueue.RequestRefresh | vavoo/vavoo2.py:424-429 | the region is appended to the force queue, and to the rebuild queue when asked; the event is set |
| Refresh.RefreshQueue.ConsumeRefreshRequest | vavoo/vavoo2.py:1495-1523 | both queues are drained; with nothing forced the result is None; with `*` it is every configured region (and all rebuild); otherwise the unique regions in request order |
| Refresh.AllRegionsOf | vavoo/vavoo2.py:1509-1512 | the loop computes the `all_regions` set |
| Refresh.ListOfSet | vavoo/vavoo2.py:1513 | `list(s)` holds each element of the set once |
| Refresh.UniqueRegions | vavoo/vavoo2.py:1515-1523 | the `uniq` loop computes the unique upper-cased regions |
| Rewrite.PatchSegmentLines | vavoo/vavoo2.py:2022-2034 | one output line per input line, each rewritten as `/vavoo` does |
| Rewrite.PatchVariantLines | vavoo/vavoo2.py:2113-2130 | one output line per input line, each rewritten as `/vavoo_variant` does |
| Rewrite.ProxyLineIsUri | vavoo/vavoo2.py:2027 | a rewritten URL is neither blank nor a tag |
| Rewrite.SegmentLinesKeepShape | vavoo/vavoo2.py:2026-2032 | in proxy mode tags and blanks stay in place and every other line becomes one `/segment` URL: the playlist keeps its shape |
| Rewrite.VariantLinesKeepShape | vavoo/vavoo2.py:2116-2130 | tags and blanks stay in place, and every other line becomes one `/vavoo_variant` URL |
| Rewrite.VariantUriLine | vavoo/vavoo2.py:2123-2130 | an absolute URI is carried unchanged and a relative one is joined to the base |
| Rewrite.CleanChannelName | vavoo/vavoo2.py:2437-2443 | the cleaned name is stripped |
| Rewrite.CleanWithoutDot | vavoo/vavoo2.py:2437-2443 | a name without a dot is only stripped |
| Rewrite.CleanDropsSuffix | vavoo/vavoo2.py:2437-2443 | a one-letter suffix after a space and a dot is dropped |
| Rewrite.NameCountsCount | vavoo/vavoo2.py:2500-2501 | `name_counts` counts each name once per written occurrence |
| Rewrite.ExportOut | vavoo/vavoo2.py:2492-2505 | the output is the header plus two lines per written item |
| Rewrite.KeptOfFilter | vavoo/vavoo2.py:2495-2499 | the written names and URLs are those of the items with a URL, in order |
| Rewrite.ExportEntry | vavoo/vavoo2.py:2492-2505 | after the header, the j-th written item's lines are its numbered name and its URL |
| Rewrite.ExportNameEntry | vavoo/vavoo2.py:2500-2504 | the name line of the j-th written item carries its occurrence number |
| Rewrite.ExportUrlEntry | vavoo/vavoo2.py:2505 | the line after it is the item's URL |
| Rewrite.ExportLines | vavoo/vavoo2.py:2492-2505 | the loop computes the export specification |
| Rewrite.ExportItem | vavoo/vavoo2.py:2496-2505 | one turn of the loop keeps the output and `name_counts` equal to the export specification and the name counts of the channels seen so far, with this channel appended |
| Rewrite.FullHlsExport | vavoo/vavoo2.py:2492-2505 | the export with `clean_channel_name` names |
| Rewrite.FirstKeepsName | vavoo/vavoo2.py:2502 | the first written channel of a name keeps it unnumbered |
| Rewrite.LaterGetsNumber | vavoo/vavoo2.py:2502 | the k-th written channel of a name, k >= 2, is shown as "name (k)" |
| Rewrite.CountPrefix | vavoo/vavoo2.py:2501-2502 | the count through an occurrence is one more than before it, and exactly one at a first occurrence |
| Extractor.FilenameChar | mac-to-m3u-main/mac-to-m3u-main/m3u_group_extractor.py:26 | each character is replaced by exactly one character |
| Extractor.StemOfChar | mac-to-m3u-main/mac-to-m3u-main/m3u_group_extractor.py:26-28 | each character contributes at most one safe character |
| Extractor.SanitizeStem | mac-to-m3u-main/mac-to-m3u-main/m3u_group_extractor.py:26-28 | the stem is no longer than the name and holds only word characters and `-` |
| Extractor.SanitizeFilename | mac-to-m3u-main/mac-to-m3u-main/m3u_group_extractor.py:20-29 | the file name ends in `.m3u`, is at most four characters longer than the name, and its stem is safe |
| Extractor.SanitizeStemStep | mac-to-m3u-main/mac-to-m3u-main/m3u_group_extractor.py:26-28 | sanitising works character by character |
| Extractor.SanitizeStemHasNoSeparators | mac-to-m3u-main/mac-to-m3u-main/m3u_group_extractor.py:26-28 | no space, colon or vertical bar survives |
| Extractor.SanitizeKeepsSafeName | mac-to-m3u-main/mac-to-m3u-main/m3u_group_extractor.py:26-28 | a name of word characters and `-` is kept as is |
| Extractor.SanitizeStemIdempotent | mac-to-m3u-main/mac-to-m3u-main/m3u_group_extractor.py:26-28 | sanitising twice is sanitising once |
| Extractor.SanitizeStemAppend | mac-to-m3u-main/mac-to-m3u-main/m3u_group_extractor.py:26-28 | the stem of a concatenation is the concatenation of the stems |
| Extractor.ColonSpaceBecomesHyphenUnderscore | mac-to-m3u-main/mac-to-m3u-main/m3u_group_extractor.py:23-28 | `": "` becomes `"-_"`, as the code does and unlike the documented example |
| Extractor.SanitizeCollides | mac-to-m3u-main/mac-to-m3u-main/m3u_group_extractor.py:26-29 | the distinct titles "A:B" and "A" + bar + "B" share the file name "A-B.m3u" |
| Extractor.StemSteps | mac-to-m3u-main/mac-to-m3u-main/m3u_group_extractor.py:26-28 | the stem equals its character-by-character description |
| Extractor.ModeOfChoice | mac-to-m3u-main/mac-to-m3u-main/m3u_group_extractor.py:66-72 | the answer selects separate exactly for "s"/"separate" and combined exactly for "c"/"combined", ignoring case |
| Extractor.ModeIgnoresCase | mac-to-m3u-main/mac-to-m3u-main/m3u_group_extractor.py:68 | upper-casing the answer does not change the mode |
| Extractor.GetExtractionMode | mac-to-m3u-main/mac-to-m3u-main/m3u_group_extractor.py:63-73 | the prompt returns the mode of the first valid answer, after rejecting all earlier ones |
| Extractor.TitleAt | mac-to-m3u-main/mac-to-m3u-main/m3u_group_extractor.py:97 | a match is a case-insensitive `group-title="` followed by a non-empty run without quotes and a closing quote |
| Extractor.TitleAtFinds | mac-to-m3u-main/mac-to-m3u-main/m3u_group_extractor.py:97 | every such occurrence is a match |
| Extractor.FindTitle | mac-to-m3u-main/mac-to-m3u-main/m3u_group_extractor.py:97-99 | `re.search` returns the leftmost match, or none when no position matches |
| Extractor.GroupTitle | mac-to-m3u-main/mac-to-m3u-main/m3u_group_extractor.py:97-99 | the group title of a line is its leftmost match |
| Extractor.MatchOf | mac-to-m3u-main/mac-to-m3u-main/m3u_group_extractor.py:95-103 | a line is selected exactly when it starts with `#EXTINF`, has a group title and that title contains the lower-cased query; its URL is the next line, or empty at the end |
| Extractor.Matches | mac-to-m3u-main/mac-to-m3u-main/m3u_group_extractor.py:95-103 | at most one entry per line scanned |
| Extractor.MatchesStep | mac-to-m3u-main/mac-to-m3u-main/m3u_group_extractor.py:95-103 | one more line adds its entry, if it is selected |
| Extractor.MatchesMembers | mac-to-m3u-main/mac-to-m3u-main/m3u_group_extractor.py:95-103 | an entry is selected exactly when some selected line produces it |
| Extractor.SelectedEntries | mac-to-m3u-main/mac-to-m3u-main/m3u_group_extractor.py:95-103 | every selected entry's info line starts with `#EXTINF`, its group title is the entry's title, and the lower-cased title contains the query |
| Extractor.Pairs | mac-to-m3u-main/mac-to-m3u-main/m3u_group_extractor.py:108-112 | two lines per entry |
| Extractor.PairsAt | mac-to-m3u-main/mac-to-m3u-main/m3u_group_extractor.py:108-112 | entry j sits at lines 2j (info) and 2j+1 (URL) |
| Extractor.GroupOrder | mac-to-m3u-main/mac-to-m3u-main/m3u_group_extractor.py:106-107 | every title of the entries, each once, and no other |
| Extractor.Buckets | mac-to-m3u-main/mac-to-m3u-main/m3u_group_extractor.py:106-110 | the dictionary's keys are exactly the titles |
| Extractor.InGroup | mac-to-m3u-main/mac-to-m3u-main/m3u_group_extractor.py:106-110 | the entries of one title, in order |
| Extractor.EntryStep | mac-to-m3u-main/mac-to-m3u-main/m3u_group_extractor.py:105-112 | a new entry extends the pairs, opens a group only for a new title and extends only its own bucket |
| Extractor.BucketIsGroup | mac-to-m3u-main/mac-to-m3u-main/m3u_group_extractor.py:106-110 | a title's bucket holds the lines of exactly the entries with that title, in order |
| Extractor.GroupFile | mac-to-m3u-main/mac-to-m3u-main/m3u_group_extractor.py:126-132 | a group's file starts with the header, holds two lines per entry, and reports the number of entries with that title |
| Extractor.GroupFiles | mac-to-m3u-main/mac-to-m3u-main/m3u_group_extractor.py:126-132 | one file per title, in order |
| Extractor.CombinedFile | mac-to-m3u-main/mac-to-m3u-main/m3u_group_extractor.py:143-150 | the combined file is named after the query, holds the header and every entry's lines, and reports all entries |
| Extractor.EntryInOwnGroup | mac-to-m3u-main/mac-to-m3u-main/m3u_group_extractor.py:106-110 | every entry lands in the group of its own title |
| Extractor.GroupOrderIsFirstAppearance | mac-to-m3u-main/mac-to-m3u-main/m3u_group_extractor.py:106-107 | the group order is a subsequence of the entries' titles, and any two groups come in the order of the first appearance of their title |
| Extractor.ScanSkip | mac-to-m3u-main/mac-to-m3u-main/m3u_group_extractor.py:95-100 | a line that is not selected leaves the scan state as it is |
| Extractor.ScanSeparate | mac-to-m3u-main/mac-to-m3u-main/m3u_group_extractor.py:105-110 | in separate mode a selected line extends its title's bucket |
| Extractor.ScanCombined | mac-to-m3u-main/mac-to-m3u-main/m3u_group_extractor.py:111-112 | in combined mode a selected line extends the combined list |
| Extractor.AddToGroup | mac-to-m3u-main/mac-to-m3u-main/m3u_group_extractor.py:106-110 | the title gets a bucket if new, then the entry's two lines are appended to it |
| Extractor.ScanGroups | mac-to-m3u-main/mac-to-m3u-main/m3u_group_extractor.py:94-112 | the count is the number of selected lines; in separate mode the groups are the titles' buckets in first-appearance order; in combined mode the combined list holds all pairs |
| Extractor.ScanLine | mac-to-m3u-main/mac-to-m3u-main/m3u_group_extractor.py:96-112 | one line advances the scan state |
| Extractor.SeparateFiles | mac-to-m3u-main/mac-to-m3u-main/m3u_group_extractor.py:126-132 | one file per group, in dictionary order |
| Extractor.ExtractGroupsByQuery | mac-to-m3u-main/mac-to-m3u-main/m3u_group_extractor.py:76-154 | the count is the number of matching channels; nothing is written when it is 0; otherwise one combined file or one file per title in first-appearance order |

## Left out

- Network, files, threads, processes and clocks are not modelled. This covers:
  - the catalog fetch and link resolution;
  - ffmpeg and ffprobe;
  - the resolution workers;
  - Flask routes beyond their line loops;
  - the file reads and writes of both programs.

  Their results enter as parameters (the lines of a playlist, the resolution
  cache, the saved settings), and the extractor returns the files it would
  write as values.
- The MAC-address scanner, the database, the login and the status pages are not
  part of this model.
- Case mapping is ASCII only, and `\w` and `\d` are ASCII only. Python's Unicode
  case mapping and `re.IGNORECASE` for other letters are not modelled.
  `\s` and `str.strip` use Python's full whitespace set.
- `str.splitlines` and `"\n".join` are not modelled. The model works on lists
  of lines. In the extractor, lines keep whatever terminator the caller gives
  them.
- `urljoin` and `int(float(s))` are function parameters (`Variants.Env`,
  the `join` parameter of `Rewrite`). The model states what is joined, not
  the joined URL.
- `Variants.SelectBestVariant`: the `ffprobe` fallback and the default
  variant are one `Success(None)` result, because probing is I/O.
- `REF_DATA` is a flattened table of (channel, group) pairs in iteration
  order. Nothing else of its JSON shape is kept.
- `group_channels` takes a region string. The `isinstance` guards of the name
  functions are not modelled, because every name here is a string.
- Python's stable `list.sort` is modelled by its specification: the
  concatenation of rank classes (`Ranking.SortByRanks`). It is not modelled
  as an in-place merge sort.
- The other CONFIG keys are not modelled: `RES`, `PLAYLIST_REBUILD_ON_START`,
  `STREAM_MODE` and the credentials. The flags are not coerced with `bool()`;
  a posted flag is already a boolean.
- `Refresh.RefreshQueue.ConsumeRefreshRequest`: under `*` the source returns
  `list(all_regions)` in set order. The model promises each region once, in
  an unspecified order.
- `Settings.PlaylistRoundTrip` holds only for names and regions without
  surrounding whitespace. `api_set_config` does not strip them, and loading
  does, so other names change on a round trip.
- `Variants.ParseInt` reads an optional sign and ASCII digits. Python's
  underscores and Unicode digits are not modelled.
- Filter keywords that are not strings (the `isinstance` test of
  `parse_filter_config`) cannot occur: keywords are strings here.
- `Extractor.GetExtractionMode` reads a finite list of answers. When the
  answers run out it returns no mode, where the source would keep prompting
  or fail on end of input.
- `main` of the extractor is not modelled: the file menu, the empty-query
  check and the console colours.

