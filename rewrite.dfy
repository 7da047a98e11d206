/** Playlist text produced by the Vavoo proxy (vavoo/vavoo2.py): the media and
    variant playlists whose URI lines are pointed back at the proxy, and the
    full-HLS export that numbers repeated channel names. Playlists arrive already
    split into lines; `urljoin` is a parameter. */
module Rewrite {
  import opened Text
  import opened Seqs
  import opened Pattern
  import opened Names
  import opened Variants

  // ---------------------------------------------------------------------------
  // URI lines of media and variant playlists

  /** `not line or line.startswith("#")`: blank lines and tags are copied. */
  predicate IsPassThrough(line: string) {
    line == "" || StartsWith(line, "#")
  }

  /** `http://{public_host()}:{public_port()}` */
  function Origin(host: string, port: nat): string {
    "http://" + host + ":" + NatToString(port)
  }

  /** `STREAM_MODE`: segments through the proxy, or straight from the origin. */
  datatype StreamMode = Proxy | Direct

  /** One line of a media playlist as `/vavoo` serves it. */
  function SegmentLine(line: string, base: string, mode: StreamMode, host: string, port: nat,
                       join: (string, string) -> string): string
  {
    if IsPassThrough(line) then line
    else if mode == Proxy then Origin(host, port) + "/segment?u=" + join(base, line)
    else join(base, line)
  }

  /** One line of a variant playlist as `/vavoo_variant` serves it: the line is
      judged and joined after stripping, tags keep their original spacing. */
  function VariantLine(line: string, base: string, host: string, port: nat,
                       join: (string, string) -> string): string
  {
    var s := Strip(line);
    if IsPassThrough(s) then line
    else if StartsWith(s, "http://") || StartsWith(s, "https://") then Origin(host, port) + "/vavoo_variant?u=" + s
    else Origin(host, port) + "/vavoo_variant?u=" + join(base, s)
  }

  /** The `patched` loop of `/vavoo`. */
  method PatchSegmentLines(lines: seq<string>, u: string, mode: StreamMode, host: string, port: nat,
                           join: (string, string) -> string) returns (patched: seq<string>)
    ensures |patched| == |lines|
    ensures forall i :: 0 <= i < |lines| ==> patched[i] == SegmentLine(lines[i], BaseOf(u), mode, host, port, join)
  {
    var base := BaseOf(u);
    patched := [];
    for i := 0 to |lines|
      invariant |patched| == i
      invariant forall k :: 0 <= k < i ==> patched[k] == SegmentLine(lines[k], base, mode, host, port, join)
    {
      var line := lines[i];
      if line == "" || StartsWith(line, "#") {
        patched := patched + [line];
      } else {
        var absUrl := join(base, line);
        if mode == Proxy {
          patched := patched + [Origin(host, port) + "/segment?u=" + absUrl];
        } else {
          patched := patched + [absUrl];
        }
      }
    }
  }

  /** The `patched` loop of `/vavoo_variant`. */
  method PatchVariantLines(lines: seq<string>, u: string, host: string, port: nat,
                           join: (string, string) -> string) returns (patched: seq<string>)
    ensures |patched| == |lines|
    ensures forall i :: 0 <= i < |lines| ==> patched[i] == VariantLine(lines[i], BaseOf(u), host, port, join)
  {
    var base := BaseOf(u);
    patched := [];
    for i := 0 to |lines|
      invariant |patched| == i
      invariant forall k :: 0 <= k < i ==> patched[k] == VariantLine(lines[k], base, host, port, join)
    {
      var s := Strip(lines[i]);
      if s == "" || StartsWith(s, "#") {
        patched := patched + [lines[i]];
      } else if StartsWith(s, "http://") || StartsWith(s, "https://") {
        patched := patched + [Origin(host, port) + "/vavoo_variant?u=" + s];
      } else {
        patched := patched + [Origin(host, port) + "/vavoo_variant?u=" + join(base, s)];
      }
    }
  }

  /** A line starting with a letter is neither blank nor a tag, before or after
      stripping. */
  lemma ProxyLineIsUri(line: string)
    requires StartsWith(line, "http://")
    ensures !IsPassThrough(line)
    ensures !IsPassThrough(Strip(line))
  {
    assert line[0] == 'h' && !IsSpace(line[0]);
    assert SkipSpaces(line, 0) == 0;
    RStripKeeps(line);
    assert Strip(line) != [] && Strip(line)[0] == 'h';
  }

  lemma OriginIsHttp(host: string, port: nat, rest: string)
    ensures StartsWith(Origin(host, port) + rest, "http://")
  {
    assert (Origin(host, port) + rest)[..7] == "http://";
  }

  /** In proxy mode `/vavoo` keeps tags and blank lines in place and turns every
      other line into exactly one proxy URL: the playlist keeps its shape. */
  lemma SegmentLinesKeepShape(line: string, base: string, host: string, port: nat,
                              join: (string, string) -> string)
    ensures IsPassThrough(line) ==> SegmentLine(line, base, Proxy, host, port, join) == line
    ensures IsPassThrough(SegmentLine(line, base, Proxy, host, port, join)) <==> IsPassThrough(line)
    ensures !IsPassThrough(line) ==>
      SegmentLine(line, base, Proxy, host, port, join) == Origin(host, port) + "/segment?u=" + join(base, line)
  {
    if !IsPassThrough(line) {
      OriginIsHttp(host, port, "/segment?u=" + join(base, line));
      assert Origin(host, port) + "/segment?u=" + join(base, line) == Origin(host, port) + ("/segment?u=" + join(base, line));
      ProxyLineIsUri(Origin(host, port) + ("/segment?u=" + join(base, line)));
    }
  }

  /** `/vavoo_variant` keeps tags and blank lines in place and turns every other
      line into one proxy URL. */
  lemma VariantLinesKeepShape(line: string, base: string, host: string, port: nat,
                              join: (string, string) -> string)
    ensures IsPassThrough(Strip(line)) ==> VariantLine(line, base, host, port, join) == line
    ensures IsPassThrough(Strip(VariantLine(line, base, host, port, join))) <==> IsPassThrough(Strip(line))
    ensures !IsPassThrough(Strip(line)) ==>
      exists target :: VariantLine(line, base, host, port, join) == Origin(host, port) + "/vavoo_variant?u=" + target
  {
    if IsPassThrough(Strip(line)) {
      StripIdempotent(line);
    } else {
      VariantUriLine(line, base, host, port, join);
    }
  }

  /** A URI line of a variant playlist becomes a proxy URL that carries the
      absolute URL unchanged and the relative one joined to the base. */
  lemma VariantUriLine(line: string, base: string, host: string, port: nat,
                       join: (string, string) -> string)
    requires !IsPassThrough(Strip(line))
    ensures var s := Strip(line);
            var target := if StartsWith(s, "http://") || StartsWith(s, "https://") then s else join(base, s);
            VariantLine(line, base, host, port, join) == Origin(host, port) + "/vavoo_variant?u=" + target &&
            !IsPassThrough(Strip(VariantLine(line, base, host, port, join)))
  {
    var s := Strip(line);
    var target := if StartsWith(s, "http://") || StartsWith(s, "https://") then s else join(base, s);
    OriginIsHttp(host, port, "/vavoo_variant?u=" + target);
    assert Origin(host, port) + "/vavoo_variant?u=" + target == Origin(host, port) + ("/vavoo_variant?u=" + target);
    ProxyLineIsUri(Origin(host, port) + ("/vavoo_variant?u=" + target));
  }

  // ---------------------------------------------------------------------------
  // The full-HLS export

  /** A catalogue item as the export reads it: `name` and `url` may be missing. */
  datatype CatalogItem = CatalogItem(name: Option<string>, url: Option<string>)

  predicate IsAsciiLetter(c: char) { IsUpper(c) || IsLower(c) }
  predicate IsDot(c: char) { c == '.' }

  /** `\s*\.[a-z]\s*$` under IGNORECASE: a one-letter suffix such as " .b". */
  const LetterSuffix: seq<seq<Elem>> := [[Star(IsSpace), One(IsDot), One(IsAsciiLetter), Star(IsSpace), AtEnd]]

  /** `clean_channel_name`: the one-letter suffix removed, then stripped. */
  function CleanChannelName(name: string): (r: string)
    ensures Strip(r) == r
  {
    StripIdempotent(Sub(LetterSuffix, Nothing, name));
    Strip(Sub(LetterSuffix, Nothing, name))
  }

  /** A name without a dot is only stripped. */
  lemma CleanWithoutDot(name: string)
    requires '.' !in name
    ensures CleanChannelName(name) == Strip(name)
  {
    assert ConsumesOne(LetterSuffix[0], IsDot) by {
      assert LetterSuffix[0][1].One?;
    }
    NoMatchWithout(LetterSuffix, name, IsDot);
    SubNoMatch(LetterSuffix, Nothing, name);
  }

  /** A one-letter suffix after a space is dropped: "RTL .c" is shown as "RTL". */
  lemma CleanDropsSuffix(base: string, c: char)
    requires '.' !in base && base != [] && !IsSpace(base[|base| - 1]) && IsAsciiLetter(c)
    ensures CleanChannelName(base + " ." + [c]) == Strip(base)
  {
    var s := base + " ." + [c];
    var n := |base|;
    forall q | 0 <= q < n
      ensures !MatchesNonEmpty(LetterSuffix, s, q)
    {
      SuffixMissesBase(base, c, q);
    }
    SuffixMatchesEnd(base, c);
    SubFromUpTo(LetterSuffix, Nothing, s, 0, n);
    assert s[0..n] + "" == base;
    assert Sub(LetterSuffix, Nothing, s) == base;
  }

  /** The suffix pattern cannot start inside the dot-free base. */
  lemma SuffixMissesBase(base: string, c: char, q: nat)
    requires '.' !in base && base != [] && !IsSpace(base[|base| - 1]) && q < |base|
    ensures !MatchesNonEmpty(LetterSuffix, base + " ." + [c], q)
  {
    var s := base + " ." + [c];
    var n := |base|;
    var pat := LetterSuffix[0];
    assert LetterSuffix[1..] == [];
    var e := RunEnd(s, IsSpace, q);
    assert s[n - 1] == base[n - 1];
    assert e < n;
    assert s[e] == base[e];
    assert MatchElems(pat, s, q) == MatchElems(pat[1..], s, e);
  }

  /** At the end of the base the suffix " .c" matches and is removed. */
  lemma SuffixMatchesEnd(base: string, c: char)
    requires IsAsciiLetter(c)
    ensures var s := base + " ." + [c];
            SubFrom(LetterSuffix, Nothing, s, |base|) == ""
  {
    var s := base + " ." + [c];
    var n := |base|;
    SuffixMatchAt(s, n);
    assert !MatchesNonEmpty(LetterSuffix, s, n + 3);
  }

  /** A space, a dot and a letter ending the string match the suffix pattern. */
  lemma SuffixMatchAt(s: string, n: nat)
    requires n + 3 == |s| && IsSpace(s[n]) && s[n + 1] == '.' && IsAsciiLetter(s[n + 2])
    ensures MatchAt(LetterSuffix, s, n) == Some(n + 3)
  {
    var pat := LetterSuffix[0];
    assert LetterSuffix[1..] == [];
    assert pat[1..][1..] == pat[2..] && pat[2..][1..] == pat[3..] && pat[3..][1..] == pat[4..];
    assert RunEnd(s, IsSpace, n + 1) == n + 1;
    assert RunEnd(s, IsSpace, n) == n + 1;
    assert RunEnd(s, IsSpace, n + 3) == n + 3;
    assert MatchElems(pat[4..], s, n + 3) == Some(n + 3);
    assert MatchElems(pat[3..], s, n + 3) == Some(n + 3);
    assert MatchElems(pat[2..], s, n + 2) == Some(n + 3);
    assert MatchElems(pat[1..], s, n + 1) == Some(n + 3);
  }

  /** Before the first match, substitution copies the text. */
  lemma {:induction false} SubFromUpTo(alts: seq<seq<Elem>>, repl: string -> string, s: string, p: nat, n: nat)
    requires p <= n <= |s|
    requires forall q :: p <= q < n ==> !MatchesNonEmpty(alts, s, q)
    ensures SubFrom(alts, repl, s, p) == s[p..n] + SubFrom(alts, repl, s, n)
    decreases n - p
  {
    if p < n {
      SubFromUpTo(alts, repl, s, p + 1, n);
      var rest := SubFrom(alts, repl, s, n);
      assert !MatchesNonEmpty(alts, s, p);
      assert SubFrom(alts, repl, s, p) == [s[p]] + SubFrom(alts, repl, s, p + 1);
      SliceCons(s, p, n, rest);
    }
  }

  lemma SliceCons(s: string, p: nat, n: nat, rest: string)
    requires p < n <= |s|
    ensures [s[p]] + (s[p + 1..n] + rest) == s[p..n] + rest
  {
    assert s[p..n] == [s[p]] + s[p + 1..n];
  }

  /** `clean_channel_name(channel.get("name", "NoName"))` */
  function ItemName(it: CatalogItem): string {
    CleanChannelName(if it.name.Some? then it.name.value else "NoName")
  }

  /** `channel.get("url")` is truthy. */
  predicate HasUrl(it: CatalogItem) {
    it.url.Some? && it.url.value != ""
  }

  /** The name shown for the `k`-th channel called `name`. */
  function FinalName(name: string, k: nat): string {
    if k == 1 then name else name + " (" + NatToString(k) + ")"
  }

  function CountOf(counts: map<string, nat>, name: string): nat {
    if name in counts then counts[name] else 0
  }

  /** `name_counts` after the names `names`. */
  function NameCounts(names: seq<string>): map<string, nat>
    decreases |names|
  {
    if names == [] then map[]
    else
      var prev := NameCounts(names[..|names| - 1]);
      var n := names[|names| - 1];
      prev[n := CountOf(prev, n) + 1]
  }

  /** Each name is counted once per occurrence. */
  lemma {:induction false} NameCountsCount(names: seq<string>, n: string)
    ensures CountOf(NameCounts(names), n) == Count(names, n)
    decreases |names|
  {
    if names != [] {
      NameCountsCount(names[..|names| - 1], n);
    }
  }

  /** The url written for an item (items without one are never written). */
  function UrlOf(it: CatalogItem): string {
    if it.url.Some? then it.url.value else ""
  }

  /** The `#EXTINF` line of the `k`-th channel called `name`. */
  function Extinf(name: string, k: nat): string {
    "#EXTINF:-1," + FinalName(name, k)
  }

  // The export is stated over any item type: `keep` says whether an item is
  // written, `nameOf` and `urlOf` what is written for it, and `entry` the
  // `#EXTINF` line of the `k`-th written item of a name.

  /** The export lines after the items `items`: each written item gets the
      number of earlier written items of its name, plus one. */
  function ExportOut<T>(items: seq<T>, keep: T -> bool, nameOf: T -> string, urlOf: T -> string, entry: (string, nat) -> string)
    : (lines: seq<string>)
    ensures |lines| == 1 + 2 * |KeptNames(items, keep, nameOf)| && lines[0] == "#EXTM3U"
    decreases |items|
  {
    if items == [] then ["#EXTM3U"]
    else
      var init := items[..|items| - 1];
      ExportAppend(ExportOut(init, keep, nameOf, urlOf, entry), KeptNames(init, keep, nameOf), items[|items| - 1], keep, nameOf, urlOf, entry)
  }

  /** The lines `prev` after one more item, the names written so far being `names0`. */
  function ExportAppend<T>(prev: seq<string>, names0: seq<string>, it: T, keep: T -> bool, nameOf: T -> string, urlOf: T -> string,
                           entry: (string, nat) -> string): seq<string>
  {
    if !keep(it) then prev
    else prev + [entry(nameOf(it), Count(names0, nameOf(it)) + 1), urlOf(it)]
  }

  /** The names of the written items, in order. */
  function KeptNames<T>(items: seq<T>, keep: T -> bool, nameOf: T -> string): (names: seq<string>)
    decreases |items|
  {
    if items == [] then []
    else
      var it := items[|items| - 1];
      KeptNames(items[..|items| - 1], keep, nameOf) + (if keep(it) then [nameOf(it)] else [])
  }

  /** The urls of the written items, in order. */
  function KeptUrls<T>(items: seq<T>, keep: T -> bool, urlOf: T -> string): (urls: seq<string>)
    decreases |items|
  {
    if items == [] then []
    else
      var it := items[|items| - 1];
      KeptUrls(items[..|items| - 1], keep, urlOf) + (if keep(it) then [urlOf(it)] else [])
  }

  /** The kept names and urls are those of the items `keep` selects. */
  lemma {:induction false} KeptOfFilter<T>(items: seq<T>, keep: T -> bool, nameOf: T -> string, urlOf: T -> string)
    ensures |KeptNames(items, keep, nameOf)| == |KeptUrls(items, keep, urlOf)| == |Filter(items, keep)|
    ensures forall j :: 0 <= j < |Filter(items, keep)| ==>
      KeptNames(items, keep, nameOf)[j] == nameOf(Filter(items, keep)[j]) &&
      KeptUrls(items, keep, urlOf)[j] == urlOf(Filter(items, keep)[j])
    decreases |items|
  {
    if items != [] {
      KeptOfFilter(items[..|items| - 1], keep, nameOf, urlOf);
    }
  }

  /** The export, independently of the loop: after the header come two lines per
      written item, in order; the item's name carries the number of times it has
      been seen so far among written items, and the others are neither written
      nor counted. */
  lemma {:induction false} ExportEntry<T>(items: seq<T>, keep: T -> bool, nameOf: T -> string, urlOf: T -> string, entry: (string, nat) -> string, j: nat)
    requires j < |KeptNames(items, keep, nameOf)|
    ensures var names := KeptNames(items, keep, nameOf);
            var urls := KeptUrls(items, keep, urlOf);
            var lines := ExportOut(items, keep, nameOf, urlOf, entry);
            j < |urls| &&
            lines[1 + 2 * j] == entry(names[j], Count(names[..j + 1], names[j])) &&
            lines[2 + 2 * j] == urls[j]
  {
    KeptLengths(items, keep, nameOf, urlOf);
    ExportNameEntry(items, keep, nameOf, urlOf, entry, j);
    ExportUrlEntry(items, keep, nameOf, urlOf, entry, j);
  }

  lemma {:induction false} ExportNameEntry<T>(items: seq<T>, keep: T -> bool, nameOf: T -> string, urlOf: T -> string, entry: (string, nat) -> string, j: nat)
    requires j < |KeptNames(items, keep, nameOf)|
    ensures var names := KeptNames(items, keep, nameOf);
            ExportOut(items, keep, nameOf, urlOf, entry)[1 + 2 * j] == entry(names[j], Count(names[..j + 1], names[j]))
    decreases |items|
  {
    var init := items[..|items| - 1];
    if keep(items[|items| - 1]) && j == |KeptNames(init, keep, nameOf)| {
      ExportEntryLast(items, keep, nameOf, urlOf, entry);
    } else {
      ExportEarlier(items, keep, nameOf, urlOf, entry, j);
      ExportNameEntry(init, keep, nameOf, urlOf, entry, j);
    }
  }

  /** An entry written before the last item keeps its line and its name. */
  lemma ExportEarlier<T>(items: seq<T>, keep: T -> bool, nameOf: T -> string, urlOf: T -> string, entry: (string, nat) -> string, j: nat)
    requires items != [] && j < |KeptNames(items, keep, nameOf)|
    requires !(keep(items[|items| - 1]) && j == |KeptNames(items[..|items| - 1], keep, nameOf)|)
    ensures var init := items[..|items| - 1];
            var names := KeptNames(items, keep, nameOf);
            var names0 := KeptNames(init, keep, nameOf);
            j < |names0| && names[j] == names0[j] && names[..j + 1] == names0[..j + 1] &&
            ExportOut(items, keep, nameOf, urlOf, entry)[1 + 2 * j] == ExportOut(init, keep, nameOf, urlOf, entry)[1 + 2 * j]
  {
    NamesEarlier(items, keep, nameOf, j);
    ExportPrefix(items, keep, nameOf, urlOf, entry);
  }

  lemma NamesEarlier<T>(items: seq<T>, keep: T -> bool, nameOf: T -> string, j: nat)
    requires items != [] && j < |KeptNames(items, keep, nameOf)|
    requires !(keep(items[|items| - 1]) && j == |KeptNames(items[..|items| - 1], keep, nameOf)|)
    ensures var names := KeptNames(items, keep, nameOf);
            var names0 := KeptNames(items[..|items| - 1], keep, nameOf);
            j < |names0| && names[j] == names0[j] && names[..j + 1] == names0[..j + 1]
  {
    var names := KeptNames(items, keep, nameOf);
    var names0 := KeptNames(items[..|items| - 1], keep, nameOf);
    var tail := if keep(items[|items| - 1]) then [nameOf(items[|items| - 1])] else [];
    assert names == names0 + tail;
    AppendKeepsPrefix(names0, tail, j);
  }

  lemma AppendKeepsPrefix(a: seq<string>, t: seq<string>, j: nat)
    requires j < |a|
    ensures (a + t)[j] == a[j] && (a + t)[..j + 1] == a[..j + 1]
  {
    assert (a + t)[..j + 1] == a[..j + 1];
  }

  /** The lines after fewer items are a prefix of the lines after more. */
  lemma ExportPrefix<T>(items: seq<T>, keep: T -> bool, nameOf: T -> string, urlOf: T -> string, entry: (string, nat) -> string)
    requires items != []
    ensures ExportOut(items[..|items| - 1], keep, nameOf, urlOf, entry) <= ExportOut(items, keep, nameOf, urlOf, entry)
  {
    var prev := ExportOut(items[..|items| - 1], keep, nameOf, urlOf, entry);
    var lines := ExportOut(items, keep, nameOf, urlOf, entry);
    if keep(items[|items| - 1]) {
      assert lines == prev + [lines[|prev|], lines[|prev| + 1]];
    }
  }

  lemma {:induction false} ExportUrlEntry<T>(items: seq<T>, keep: T -> bool, nameOf: T -> string, urlOf: T -> string, entry: (string, nat) -> string, j: nat)
    requires j < |KeptUrls(items, keep, urlOf)|
    ensures |ExportOut(items, keep, nameOf, urlOf, entry)| > 2 + 2 * j
    ensures ExportOut(items, keep, nameOf, urlOf, entry)[2 + 2 * j] == KeptUrls(items, keep, urlOf)[j]
    decreases |items|
  {
    var init := items[..|items| - 1];
    var it := items[|items| - 1];
    var urls := KeptUrls(items, keep, urlOf);
    var urls0 := KeptUrls(init, keep, urlOf);
    var prev := ExportOut(init, keep, nameOf, urlOf, entry);
    var lines := ExportOut(items, keep, nameOf, urlOf, entry);
    KeptLengths(init, keep, nameOf, urlOf);
    KeptLengths(items, keep, nameOf, urlOf);
    if keep(it) {
      assert urls == urls0 + [urlOf(it)];
      assert lines == prev + [lines[|prev|], urlOf(it)];
      if j < |urls0| {
        ExportUrlEntry(init, keep, nameOf, urlOf, entry, j);
        assert lines[2 + 2 * j] == prev[2 + 2 * j];
      }
    } else {
      assert urls == urls0;
      assert lines == prev;
      ExportUrlEntry(init, keep, nameOf, urlOf, entry, j);
    }
  }

  /** The entry of the last item, when it is written. */
  lemma ExportEntryLast<T>(items: seq<T>, keep: T -> bool, nameOf: T -> string, urlOf: T -> string, entry: (string, nat) -> string)
    requires items != [] && keep(items[|items| - 1])
    ensures var names := KeptNames(items, keep, nameOf);
            var j := |names| - 1;
            j >= 0 &&
            ExportOut(items, keep, nameOf, urlOf, entry)[1 + 2 * j] == entry(names[j], Count(names[..j + 1], names[j]))
  {
    var init := items[..|items| - 1];
    ExportLastStep(items, keep, nameOf, urlOf, entry);
    LastEntryAt(ExportOut(items, keep, nameOf, urlOf, entry), KeptNames(items, keep, nameOf),
                ExportOut(init, keep, nameOf, urlOf, entry), KeptNames(init, keep, nameOf), items[|items| - 1], keep, nameOf, urlOf, entry);
  }

  /** The lines and names after a non-empty sequence of items, one item at a time. */
  lemma ExportLastStep<T>(items: seq<T>, keep: T -> bool, nameOf: T -> string, urlOf: T -> string, entry: (string, nat) -> string)
    requires items != []
    ensures ExportOut(items, keep, nameOf, urlOf, entry)
              == ExportAppend(ExportOut(items[..|items| - 1], keep, nameOf, urlOf, entry), KeptNames(items[..|items| - 1], keep, nameOf),
                              items[|items| - 1], keep, nameOf, urlOf, entry)
    ensures KeptNames(items, keep, nameOf)
              == KeptNames(items[..|items| - 1], keep, nameOf) + (if keep(items[|items| - 1]) then [nameOf(items[|items| - 1])] else [])
  {
  }

  /** Appending one kept item's pair of lines puts its numbered entry at the position
      of the last kept name. */
  lemma LastEntryAt<T>(lines: seq<string>, names: seq<string>, lines0: seq<string>, names0: seq<string>, it: T,
                       keep: T -> bool, nameOf: T -> string, urlOf: T -> string, entry: (string, nat) -> string)
    requires keep(it) && |lines0| == 1 + 2 * |names0|
    requires lines == ExportAppend(lines0, names0, it, keep, nameOf, urlOf, entry)
    requires names == names0 + (if keep(it) then [nameOf(it)] else [])
    ensures var j := |names| - 1;
            j >= 0 && lines[1 + 2 * j] == entry(names[j], Count(names[..j + 1], names[j]))
  {
    LastCount(names0, nameOf(it));
  }

  /** The count of the last name in a sequence ending with it. */
  lemma LastCount(names0: seq<string>, name: string)
    ensures var names := names0 + [name];
            names[..|names0| + 1] == names && Count(names, name) == Count(names0, name) + 1
  {
    var names := names0 + [name];
    assert names[..|names| - 1] == names0;
  }

  lemma KeptLengths<T>(items: seq<T>, keep: T -> bool, nameOf: T -> string, urlOf: T -> string)
    ensures |KeptNames(items, keep, nameOf)| == |KeptUrls(items, keep, urlOf)|
  {
    KeptOfFilter(items, keep, nameOf, urlOf);
  }

  /** The export loop. */
  method ExportLines(items: seq<CatalogItem>, nameOf: CatalogItem -> string) returns (output: seq<string>)
    ensures output == ExportOut(items, HasUrl, nameOf, UrlOf, Extinf)
  {
    output := ["#EXTM3U"];
    var nameCounts: map<string, nat> := map[];
    ghost var done: seq<CatalogItem> := [];
    for i := 0 to |items|
      invariant done == items[..i]
      invariant output == ExportOut(done, HasUrl, nameOf, UrlOf, Extinf)
      invariant nameCounts == NameCounts(KeptNames(done, HasUrl, nameOf))
    {
      var it := items[i];
      assert items[..i + 1] == done + [it];
      output, nameCounts := ExportItem(output, nameCounts, it, nameOf, done);
      done := done + [it];
    }
    assert items[..|items|] == items;
  }

  /** One turn of the export loop: an item with a URL gets its numbered `#EXTINF`
      line and its URL, and its name is counted; any other item is passed over. */
  method ExportItem(output: seq<string>, nameCounts: map<string, nat>, it: CatalogItem, nameOf: CatalogItem -> string,
                    ghost done: seq<CatalogItem>)
    returns (output': seq<string>, nameCounts': map<string, nat>)
    requires output == ExportOut(done, HasUrl, nameOf, UrlOf, Extinf)
    requires nameCounts == NameCounts(KeptNames(done, HasUrl, nameOf))
    ensures output' == ExportOut(done + [it], HasUrl, nameOf, UrlOf, Extinf)
    ensures nameCounts' == NameCounts(KeptNames(done + [it], HasUrl, nameOf))
  {
    var name := nameOf(it);
    if it.url.Some? && it.url.value != "" {
      var n := (if name in nameCounts then nameCounts[name] else 0) + 1;
      assert n == CountOf(nameCounts, name) + 1;
      NameCountsCount(KeptNames(done, HasUrl, nameOf), name);
      CountWritten(done, it, nameOf, nameCounts, n);
      ExportWritten(done, it, HasUrl, nameOf, UrlOf, Extinf, n);
      nameCounts' := nameCounts[name := n];
      var finalName := if n == 1 then name else name + " (" + NatToString(n) + ")";
      output' := output + ["#EXTINF:-1," + finalName, it.url.value];
    } else {
      ExportSkipped(done, it, nameOf);
      output', nameCounts' := output, nameCounts;
    }
  }

  /** An item without a URL is neither written nor counted. */
  lemma ExportSkipped(done: seq<CatalogItem>, it: CatalogItem, nameOf: CatalogItem -> string)
    requires !HasUrl(it)
    ensures KeptNames(done + [it], HasUrl, nameOf) == KeptNames(done, HasUrl, nameOf)
    ensures ExportOut(done + [it], HasUrl, nameOf, UrlOf, Extinf) == ExportOut(done, HasUrl, nameOf, UrlOf, Extinf)
  {
    assert (done + [it])[..|done|] == done;
  }

  /** An item with a URL has its name counted once more. */
  lemma CountWritten(done: seq<CatalogItem>, it: CatalogItem, nameOf: CatalogItem -> string, counts: map<string, nat>, n: nat)
    requires HasUrl(it) && counts == NameCounts(KeptNames(done, HasUrl, nameOf))
    requires n == CountOf(counts, nameOf(it)) + 1
    ensures NameCounts(KeptNames(done + [it], HasUrl, nameOf)) == counts[nameOf(it) := n]
  {
    var names0 := KeptNames(done, HasUrl, nameOf);
    KeptNamesStep(done, it, HasUrl, nameOf);
    CountsAppend(KeptNames(done + [it], HasUrl, nameOf), names0, nameOf(it), counts, n);
  }

  lemma CountsAppend(names: seq<string>, names0: seq<string>, name: string, counts: map<string, nat>, n: nat)
    requires names == names0 + [name] && counts == NameCounts(names0) && n == CountOf(counts, name) + 1
    ensures NameCounts(names) == counts[name := n]
  {
    NameCountsAppend(names0, name);
  }

  /** Appending a written item whose name was written `n - 1` times before appends
      its `n`-th entry and its url. */
  lemma ExportWritten<T>(done: seq<T>, it: T, keep: T -> bool, nameOf: T -> string, urlOf: T -> string,
                         entry: (string, nat) -> string, n: nat)
    requires keep(it) && n == Count(KeptNames(done, keep, nameOf), nameOf(it)) + 1
    ensures ExportOut(done + [it], keep, nameOf, urlOf, entry)
              == ExportOut(done, keep, nameOf, urlOf, entry) + [entry(nameOf(it), n), urlOf(it)]
  {
    var s := done + [it];
    assert s[..|s| - 1] == done && s[|s| - 1] == it;
    var prev := ExportOut(done, keep, nameOf, urlOf, entry);
    var names0 := KeptNames(done, keep, nameOf);
    assert ExportOut(s, keep, nameOf, urlOf, entry) == ExportAppend(prev, names0, it, keep, nameOf, urlOf, entry);
    assert ExportAppend(prev, names0, it, keep, nameOf, urlOf, entry) == prev + [entry(nameOf(it), n), urlOf(it)];
  }

  /** Appending a written item appends its name. */
  lemma KeptNamesStep<T>(done: seq<T>, it: T, keep: T -> bool, nameOf: T -> string)
    requires keep(it)
    ensures KeptNames(done + [it], keep, nameOf) == KeptNames(done, keep, nameOf) + [nameOf(it)]
  {
    var s := done + [it];
    assert s[..|s| - 1] == done && s[|s| - 1] == it;
  }

  /** Counting one more name. */
  lemma NameCountsAppend(names0: seq<string>, name: string)
    ensures NameCounts(names0 + [name]) == NameCounts(names0)[name := CountOf(NameCounts(names0), name) + 1]
  {
    assert (names0 + [name])[..|names0|] == names0;
  }

  /** The full-HLS export of the catalogue. */
  method FullHlsExport(items: seq<CatalogItem>) returns (output: seq<string>)
    ensures output == ExportOut(items, HasUrl, ItemName, UrlOf, Extinf)
  {
    output := ExportLines(items, ItemName);
  }

  /** The first written channel of a name keeps it as is. */
  lemma FirstKeepsName<T>(items: seq<T>, keep: T -> bool, nameOf: T -> string, urlOf: T -> string, j: nat)
    requires j < |KeptNames(items, keep, nameOf)|
    requires var names := KeptNames(items, keep, nameOf); names[j] !in names[..j]
    ensures ExportOut(items, keep, nameOf, urlOf, Extinf)[1 + 2 * j] == "#EXTINF:-1," + KeptNames(items, keep, nameOf)[j]
  {
    ExportEntry(items, keep, nameOf, urlOf, Extinf, j);
    CountPrefix(KeptNames(items, keep, nameOf), j);
  }

  /** The k-th written channel of a name, for k of 2 or more, is shown as
      "name (k)". */
  lemma LaterGetsNumber<T>(items: seq<T>, keep: T -> bool, nameOf: T -> string, urlOf: T -> string, j: nat)
    requires j < |KeptNames(items, keep, nameOf)|
    requires var names := KeptNames(items, keep, nameOf); names[j] in names[..j]
    ensures var names := KeptNames(items, keep, nameOf);
            var k := Count(names[..j + 1], names[j]);
            k >= 2 &&
            ExportOut(items, keep, nameOf, urlOf, Extinf)[1 + 2 * j] == "#EXTINF:-1," + names[j] + " (" + NatToString(k) + ")"
  {
    ExportEntry(items, keep, nameOf, urlOf, Extinf, j);
    var names := KeptNames(items, keep, nameOf);
    CountPrefix(names, j);
    ExtinfNumbered(names[j], Count(names[..j + 1], names[j]));
  }

  lemma ExtinfNumbered(name: string, k: nat)
    requires k >= 2
    ensures Extinf(name, k) == "#EXTINF:-1," + name + " (" + NatToString(k) + ")"
  {
    var tag, num := "#EXTINF:-1,", " (" + NatToString(k) + ")";
    assert name + " (" + NatToString(k) + ")" == name + num;
    assert tag + (name + num) == tag + name + num;
  }

  /** Counting through position `j`: one more than before it, and exactly one
      when the element has not occurred before. */
  lemma CountPrefix(names: seq<string>, j: nat)
    requires j < |names|
    ensures Count(names[..j + 1], names[j]) == Count(names[..j], names[j]) + 1
    ensures Count(names[..j], names[j]) == 0 <==> names[j] !in names[..j]
  {
    assert names[..j + 1][..j] == names[..j];
  }
}
