/** The group extractor of the MAC-to-M3U tool: it scans the lines of an M3U
    playlist for `#EXTINF` entries whose `group-title` attribute contains a
    query (case-insensitively), and writes the matching entries (the info line
    and the line after it) either into one file per group title or into one
    combined file. File names come from `SanitizeFilename`. Reading and
    writing the files is left out: the model computes the list of files with
    their names, lines and the channel count that is reported for each. */
module Extractor {
  import opened Text
  import opened Seqs
  import opened Groups
  import opened Pattern

  // ---------------------------------------------------------------------------
  // File names
  // ---------------------------------------------------------------------------

  /** The replacement chain applied first: a space becomes `_`, a colon and a
      vertical bar become `-`. */
  function FilenameChar(c: char): (r: string)
    ensures |r| == 1
    ensures c == ' ' ==> r == "_"
    ensures c == ':' || c == '|' ==> r == "-"
    ensures c != ' ' && c != ':' && c != '|' ==> r == [c]
  {
    if c == ' ' then "_" else if c == ':' || c == '|' then "-" else [c]
  }

  /** The characters `[\w-]` that survive the second step. */
  predicate FilenameKeep(c: char) {
    IsWordChar(c) || c == '-'
  }

  /** What `FilenameKeep` keeps of the replacement of one character. */
  function StemOfChar(c: char): (r: string)
    ensures |r| <= 1
  {
    if c == ' ' then "_"
    else if c == ':' || c == '|' then "-"
    else if FilenameKeep(c) then [c]
    else ""
  }

  /** The name with the replacements made and every other character outside
      `[\w-]` deleted. */
  function SanitizeStem(name: string): (r: string)
    ensures |r| <= |name|
    ensures forall k :: 0 <= k < |r| ==> FilenameKeep(r[k])
    decreases |name|
  {
    MapCharsLength(name);
    KeepChars(MapChars(name, FilenameChar), FilenameKeep)
  }

  /** `sanitize_filename`: the stem followed by the `.m3u` extension. */
  function SanitizeFilename(name: string): (r: string)
    ensures EndsWith(r, ".m3u")
    ensures |r| <= |name| + 4
    ensures forall k :: 0 <= k < |r| - 4 ==> FilenameKeep(r[k])
  {
    var stem := SanitizeStem(name);
    assert (stem + ".m3u")[|stem|..] == ".m3u";
    stem + ".m3u"
  }

  lemma {:induction false} MapCharsLength(s: string)
    ensures |MapChars(s, FilenameChar)| == |s|
    decreases |s|
  {
    if s != [] {
      MapCharsLength(s[..|s| - 1]);
    }
  }

  /** The stem is built one character at a time: each character of the name
      contributes what `StemOfChar` says, independently of its neighbours. */
  lemma SanitizeStemStep(name: string, c: char)
    ensures SanitizeStem(name + [c]) == SanitizeStem(name) + StemOfChar(c)
  {
    var m := MapChars(name, FilenameChar);
    assert (name + [c])[..|name|] == name;
    assert MapChars(name + [c], FilenameChar) == m + FilenameChar(c);
    var d := FilenameChar(c)[0];
    assert FilenameChar(c) == [d];
    assert (m + [d])[..|m|] == m;
  }

  /** The stem contains neither a space, nor a colon, nor a vertical bar. */
  lemma SanitizeStemHasNoSeparators(name: string)
    ensures ' ' !in SanitizeStem(name) && ':' !in SanitizeStem(name) && '|' !in SanitizeStem(name)
  {
    var r := SanitizeStem(name);
    forall k | 0 <= k < |r|
      ensures r[k] != ' ' && r[k] != ':' && r[k] != '|'
    {
      assert FilenameKeep(r[k]);
    }
  }

  /** A name made only of `[\w-]` characters is kept as it is. */
  lemma SanitizeKeepsSafeName(name: string)
    requires forall k :: 0 <= k < |name| ==> FilenameKeep(name[k])
    ensures SanitizeStem(name) == name
    ensures SanitizeFilename(name) == name + ".m3u"
  {
    MapCharsIdentity(name, FilenameChar);
    KeepCharsAll(name, FilenameKeep);
  }

  /** Sanitizing a stem again changes nothing. */
  lemma SanitizeStemIdempotent(name: string)
    ensures SanitizeStem(SanitizeStem(name)) == SanitizeStem(name)
  {
    SanitizeKeepsSafeName(SanitizeStem(name));
  }

  /** Sanitizing works piece by piece. */
  lemma SanitizeStemAppend(a: string, b: string)
    ensures SanitizeStem(a + b) == SanitizeStem(a) + SanitizeStem(b)
  {
    StemSteps(a);
    StemSteps(b);
    StemSteps(a + b);
    StemByCharsAppend(a, b);
  }

  lemma {:induction false} StemByCharsAppend(a: string, b: string)
    ensures StemByChars(a + b) == StemByChars(a) + StemByChars(b)
    decreases |b|
  {
    if b == [] {
      assert a + b == a;
    } else {
      assert (a + b)[..|a + b| - 1] == a + b[..|b| - 1];
      StemByCharsAppend(a, b[..|b| - 1]);
    }
  }

  /** A colon followed by a space, as in "USA: Sports", becomes "-_": the
      colon is not dropped as the function's own documentation example
      ("USA: Sports (HD)" to "USA_Sports_HD.m3u") suggests; the code gives
      "USA-_Sports_HD.m3u". */
  lemma ColonSpaceBecomesHyphenUnderscore(a: string, b: string)
    ensures SanitizeStem(a + ": " + b) == SanitizeStem(a) + "-_" + SanitizeStem(b)
  {
    SanitizeStemAppend(a + ": ", b);
    SanitizeStemAppend(a, ": ");
    StemOfColonSpace();
  }

  lemma StemOfColonSpace()
    ensures SanitizeStem(": ") == "-_"
  {
    SanitizeStemStep([':'], ' ');
    SanitizeStemStep([], ':');
    assert [':'] + [' '] == ": ";
    assert [] + [':'] == [':'];
  }

  /** Two different group titles can share one file name. */
  lemma SanitizeCollides()
    ensures SanitizeFilename("A:B") == SanitizeFilename("A|B") == "A-B.m3u"
  {
    StemSteps("A:B");
    StemSteps("A|B");
  }

  /** The stem of a name, assembled from `StemOfChar` of each character. */
  function StemByChars(name: string): (r: string)
    decreases |name|
  {
    if name == [] then [] else StemByChars(name[..|name| - 1]) + StemOfChar(name[|name| - 1])
  }

  /** `SanitizeStem` agrees with the character-by-character description. */
  lemma {:induction false} StemSteps(name: string)
    ensures SanitizeStem(name) == StemByChars(name)
    decreases |name|
  {
    if name != [] {
      var init := name[..|name| - 1];
      StemSteps(init);
      assert init + [name[|name| - 1]] == name;
      SanitizeStemStep(init, name[|name| - 1]);
    }
  }

  // ---------------------------------------------------------------------------
  // Extraction mode
  // ---------------------------------------------------------------------------

  datatype Mode = Separate | Combined

  /** The answer to the mode prompt, read case-insensitively; `None` for an
      answer that makes the prompt ask again. */
  function ModeOfChoice(choice: string): (r: Option<Mode>)
    ensures r == Some(Separate) <==> Lower(choice) in ["s", "separate"]
    ensures r == Some(Combined) <==> Lower(choice) in ["c", "combined"]
  {
    var c := Lower(choice);
    if c == "s" || c == "separate" then Some(Separate)
    else if c == "c" || c == "combined" then Some(Combined)
    else None
  }

  /** Case does not matter. */
  lemma ModeIgnoresCase(choice: string)
    ensures ModeOfChoice(Upper(choice)) == ModeOfChoice(choice)
  {
    assert Lower(Upper(choice)) == Lower(choice) by {
      forall i | 0 <= i < |choice|
        ensures Lower(Upper(choice))[i] == Lower(choice)[i]
      {
        assert Upper(choice)[i] == UpperChar(choice[i]);
      }
    }
  }

  /** `get_extraction_mode`: ask until an answer names a mode. The answers
      the user would type are given in order; `asked` is how many were read.
      When they run out without a valid one the result is `None`. */
  method GetExtractionMode(answers: seq<string>) returns (mode: Option<Mode>, asked: nat)
    ensures asked <= |answers|
    ensures forall k :: 0 <= k < asked - 1 ==> ModeOfChoice(answers[k]).None?
    ensures mode.Some? ==> 1 <= asked && ModeOfChoice(answers[asked - 1]) == mode
    ensures mode.None? ==> asked == |answers| && forall k :: 0 <= k < |answers| ==> ModeOfChoice(answers[k]).None?
  {
    asked := 0;
    while asked < |answers|
      invariant asked <= |answers|
      invariant forall k :: 0 <= k < asked ==> ModeOfChoice(answers[k]).None?
    {
      var choice := ModeOfChoice(answers[asked]);
      asked := asked + 1;
      if choice.Some? {
        return choice, asked;
      }
    }
    return None, asked;
  }

  // ---------------------------------------------------------------------------
  // The group title of an entry
  // ---------------------------------------------------------------------------

  /** The literal part of `group-title="([^"]+)"`, compared case-insensitively. */
  const TitleTag: string := "group-title=\""

  predicate NotQuote(c: char) { c != '"' }

  /** The group captured when `group-title="([^"]+)"` is tried at position `p`:
      the tag, one or more characters other than a quote, and a closing quote. */
  function TitleAt(line: string, p: nat): (r: Option<string>)
    ensures r.Some? ==>
      p + |TitleTag| + |r.value| < |line|
      && Lower(line[p..p + |TitleTag|]) == TitleTag
      && r.value == line[p + |TitleTag|..p + |TitleTag| + |r.value|]
      && r.value != [] && '"' !in r.value
      && line[p + |TitleTag| + |r.value|] == '"'
  {
    var s := p + |TitleTag|;
    if s <= |line| && Lower(line[p..s]) == TitleTag then
      var e := RunEnd(line, NotQuote, s);
      if s < e < |line| then Some(line[s..e]) else None
    else None
  }

  /** Conversely, a tag followed by a non-empty quote-free text and a quote is
      matched at that position, capturing exactly that text. */
  lemma TitleAtFinds(line: string, p: nat, t: string)
    requires p + |TitleTag| + |t| < |line|
    requires Lower(line[p..p + |TitleTag|]) == TitleTag
    requires t == line[p + |TitleTag|..p + |TitleTag| + |t|]
    requires t != [] && '"' !in t
    requires line[p + |TitleTag| + |t|] == '"'
    ensures TitleAt(line, p) == Some(t)
  {
    var s := p + |TitleTag|;
    var e := RunEnd(line, NotQuote, s);
    assert e == s + |t|;
  }

  /** The leftmost match at or after `p` (`re.search`). */
  function FindTitle(line: string, p: nat): (r: Option<string>)
    ensures r.Some? ==>
      (exists q: nat :: p <= q < |line| && TitleAt(line, q) == r
        && forall k: nat :: p <= k < q ==> TitleAt(line, k).None?)
    ensures r.None? ==> forall k: nat :: p <= k ==> TitleAt(line, k).None?
    decreases |line| - p
  {
    if p >= |line| then None
    else if TitleAt(line, p).Some? then TitleAt(line, p)
    else FindTitle(line, p + 1)
  }

  /** The group title of an `#EXTINF` line, if it has one. */
  function GroupTitle(line: string): (r: Option<string>)
    ensures r.Some? ==> r.value != [] && '"' !in r.value
  {
    FindTitle(line, 0)
  }

  // ---------------------------------------------------------------------------
  // Selection
  // ---------------------------------------------------------------------------

  /** The present values `pick(i)` for `i < n`, in order of `i`. */
  function Picked<T>(n: nat, pick: nat -> Option<T>): (r: seq<T>)
    ensures |r| <= n
    decreases n
  {
    if n == 0 then []
    else Picked(n - 1, pick) + (match pick(n - 1) case Some(x) => [x] case None => [])
  }

  lemma {:induction false} PickedMembers<T>(n: nat, pick: nat -> Option<T>, x: T)
    ensures x in Picked(n, pick) <==> exists i :: 0 <= i < n && pick(i) == Some(x)
    decreases n
  {
    if n > 0 {
      PickedMembers(n - 1, pick, x);
      if x in Picked(n, pick) && x !in Picked(n - 1, pick) {
        assert pick(n - 1) == Some(x);
      }
    }
  }

  /** One matching channel: its group title, its `#EXTINF` line and the line
      after it (empty when the info line is the last one). */
  datatype Entry = Entry(title: string, info: string, url: string)

  /** What line `i` contributes: an `#EXTINF` line with a group title that
      contains the lower-cased query. */
  function MatchOf(lines: seq<string>, i: nat, queryLower: string): (r: Option<Entry>)
    requires i < |lines|
    ensures r.Some? <==>
      StartsWith(lines[i], "#EXTINF") && GroupTitle(lines[i]).Some?
      && Contains(Lower(GroupTitle(lines[i]).value), queryLower)
    ensures r.Some? ==>
      (r.value.info == lines[i] && Some(r.value.title) == GroupTitle(lines[i])
        && r.value.url == (if i + 1 < |lines| then lines[i + 1] else ""))
  {
    if StartsWith(lines[i], "#EXTINF") then
      match GroupTitle(lines[i])
      case Some(t) =>
        if Contains(Lower(t), queryLower) then
          Some(Entry(t, lines[i], if i + 1 < |lines| then lines[i + 1] else ""))
        else None
      case None => None
    else None
  }

  /** `pick(i)` for every line index, `None` past the end. */
  function LineMatch(lines: seq<string>, queryLower: string): (f: nat -> Option<Entry>)
  {
    (i: nat) => if i < |lines| then MatchOf(lines, i, queryLower) else None
  }

  /** The matching channels among the first `n` lines, in file order. */
  function Matches(lines: seq<string>, n: nat, queryLower: string): (r: seq<Entry>)
    requires n <= |lines|
    ensures |r| <= n
  {
    Picked(n, LineMatch(lines, queryLower))
  }

  /** One more line adds its match, if any, at the end. */
  lemma MatchesStep(lines: seq<string>, i: nat, queryLower: string)
    requires i < |lines|
    ensures Matches(lines, i + 1, queryLower) ==
      Matches(lines, i, queryLower)
      + (match MatchOf(lines, i, queryLower) case Some(e) => [e] case None => [])
  {
    assert LineMatch(lines, queryLower)(i) == MatchOf(lines, i, queryLower);
  }

  /** An entry is selected exactly when some line yields it. */
  lemma MatchesMembers(lines: seq<string>, queryLower: string, e: Entry)
    ensures e in Matches(lines, |lines|, queryLower) <==>
      exists i :: 0 <= i < |lines| && MatchOf(lines, i, queryLower) == Some(e)
  {
    var f := LineMatch(lines, queryLower);
    PickedMembers(|lines|, f, e);
    if e in Matches(lines, |lines|, queryLower) {
      var i :| 0 <= i < |lines| && f(i) == Some(e);
      assert MatchOf(lines, i, queryLower) == Some(e);
    }
    if exists i :: 0 <= i < |lines| && MatchOf(lines, i, queryLower) == Some(e) {
      var i :| 0 <= i < |lines| && MatchOf(lines, i, queryLower) == Some(e);
      assert f(i) == Some(e);
    }
  }

  /** Every selected entry is an `#EXTINF` line whose group title contains the
      query, lower-cased on both sides. */
  lemma SelectedEntries(lines: seq<string>, queryLower: string, e: Entry)
    requires e in Matches(lines, |lines|, queryLower)
    ensures StartsWith(e.info, "#EXTINF")
    ensures GroupTitle(e.info) == Some(e.title)
    ensures Contains(Lower(e.title), queryLower)
  {
    MatchesMembers(lines, queryLower, e);
  }

  // ---------------------------------------------------------------------------
  // Grouping
  // ---------------------------------------------------------------------------

  function TitleOf(e: Entry): string { e.title }

  /** The two lines an entry contributes to a playlist. */
  function LinesOf(e: Entry): seq<string> { [e.info, e.url] }

  /** The lines written for some entries: each entry's info line and url line. */
  function Pairs(es: seq<Entry>): (r: seq<string>)
    ensures |r| == 2 * |es|
  {
    ConcatPairsLength(es, LinesOf);
    Concat(es, LinesOf)
  }

  /** Entry `j` occupies lines `2j` and `2j + 1`. */
  lemma {:induction false} PairsAt(es: seq<Entry>, j: nat)
    requires j < |es|
    ensures Pairs(es)[2 * j] == es[j].info && Pairs(es)[2 * j + 1] == es[j].url
    decreases |es|
  {
    var init := es[..|es| - 1];
    assert Pairs(es) == Pairs(init) + LinesOf(es[|es| - 1]);
    if j < |es| - 1 {
      PairsAt(init, j);
    }
  }

  function Titles(es: seq<Entry>): (r: seq<string>)
    ensures |r| == |es| && forall i :: 0 <= i < |es| ==> r[i] == es[i].title
  {
    Keys(es, TitleOf)
  }

  /** Group titles in order of first appearance (insertion order of the dict). */
  function GroupOrder(es: seq<Entry>): (r: seq<string>)
    ensures NoDuplicates(r)
    ensures forall t :: t in r <==> t in Titles(es)
  {
    Distinct(Titles(es))
  }

  /** The dict of per-group lines, built entry by entry. */
  function Buckets(es: seq<Entry>): (r: map<string, seq<string>>)
    ensures forall t :: t in r <==> t in Titles(es)
  {
    GroupBy(es, TitleOf, LinesOf)
  }

  /** The entries whose title is `t`, in their order. */
  function InGroup(es: seq<Entry>, t: string): (r: seq<Entry>)
    ensures forall e :: e in r <==> e in es && e.title == t
  {
    var r := Filter(es, SameKey(TitleOf, t));
    forall e | e in es && e.title == t
      ensures e in r
    {
      FilterKeeps(es, SameKey(TitleOf, t), e);
    }
    r
  }

  /** Adding one entry at the end: what each view of the entries becomes. */
  lemma EntryStep(es: seq<Entry>, e: Entry)
    ensures Pairs(es + [e]) == Pairs(es) + [e.info, e.url]
    ensures GroupOrder(es + [e]) ==
      if e.title in GroupOrder(es) then GroupOrder(es) else GroupOrder(es) + [e.title]
    ensures Buckets(es + [e]) ==
      Buckets(es)[e.title := (if e.title in Buckets(es) then Buckets(es)[e.title] else []) + [e.info, e.url]]
  {
    assert (es + [e])[..|es|] == es;
    var ts := Titles(es);
    assert Titles(es + [e]) == ts + [e.title];
    assert (ts + [e.title])[..|ts|] == ts;
  }

  /** The lines collected for a group are those of its own entries, in file order. */
  lemma BucketIsGroup(es: seq<Entry>, t: string)
    requires t in Titles(es)
    ensures Buckets(es)[t] == Pairs(InGroup(es, t))
  {
    GroupByIsConcat(es, TitleOf, LinesOf, t);
  }

  /** A written playlist: its file name, its lines and the channel count reported. */
  datatype OutFile = OutFile(name: string, lines: seq<string>, count: nat)

  const Header: string := "#EXTM3U\n"

  /** The file for group `t` in separate mode. */
  function GroupFile(es: seq<Entry>, t: string): (f: OutFile)
    ensures |f.lines| == 1 + 2 * f.count && f.lines[0] == Header
    ensures f.count == |InGroup(es, t)|
  {
    var g := InGroup(es, t);
    OutFile(SanitizeFilename(t), [Header] + Pairs(g), |g|)
  }

  /** The files for the groups `ts`, in that order. */
  function GroupFiles(es: seq<Entry>, ts: seq<string>): (r: seq<OutFile>)
    ensures |r| == |ts|
    ensures forall k :: 0 <= k < |ts| ==> r[k] == GroupFile(es, ts[k])
    decreases |ts|
  {
    if ts == [] then [] else GroupFiles(es, ts[..|ts| - 1]) + [GroupFile(es, ts[|ts| - 1])]
  }

  /** The single file in combined mode. */
  function CombinedFile(query: string, es: seq<Entry>): (f: OutFile)
    ensures |f.lines| == 1 + 2 * f.count && f.lines[0] == Header
    ensures f.count == |es|
    ensures f.name == SanitizeFilename(query + "_combined")
  {
    OutFile(SanitizeFilename(query + "_combined"), [Header] + Pairs(es), |es|)
  }

  /** Each selected entry is written to the file of its own group and to no other. */
  lemma EntryInOwnGroup(es: seq<Entry>, e: Entry)
    requires e in es
    ensures e.title in GroupOrder(es)
    ensures e in InGroup(es, e.title)
    ensures forall t :: t != e.title ==> e !in InGroup(es, t)
  {
    assert e.title in Titles(es) by {
      var i :| 0 <= i < |es| && es[i] == e;
      assert Titles(es)[i] == e.title;
    }
  }

  /** The group files come in the order in which their titles first appear. */
  lemma GroupOrderIsFirstAppearance(es: seq<Entry>)
    ensures IsSubsequence(GroupOrder(es), Titles(es))
    ensures var g := GroupOrder(es);
            forall i, j :: 0 <= i < j < |g| ==> FirstIndex(Titles(es), g[i]) < FirstIndex(Titles(es), g[j])
  {
    DistinctIsSubsequence(Titles(es));
    DistinctFirstIndexOrder(Titles(es));
  }

  /** What the scan has collected from the matches `pick` yields for the
      first `i` lines: their number, and either the group order and per-group
      lines (separate mode) or the combined lines (combined mode). */
  ghost predicate Scanned(pick: nat -> Option<Entry>, i: nat, mode: Mode, total: nat,
                          order: seq<string>, groups: map<string, seq<string>>, combined: seq<string>)
  {
    var ms := Picked(i, pick);
    total == |ms|
    && (mode == Separate ==> order == GroupOrder(ms) && groups == Buckets(ms) && combined == [])
    && (mode == Combined ==> combined == Pairs(ms) && order == [] && groups == map[])
  }

  lemma MapUpdateTwice<K, V>(m: map<K, V>, k: K, a: V, b: V)
    ensures m[k := a][k := b] == m[k := b]
  {
  }

  /** A line without a match changes nothing. */
  lemma ScanSkip(pick: nat -> Option<Entry>, i: nat, mode: Mode, total: nat,
                 order: seq<string>, groups: map<string, seq<string>>, combined: seq<string>)
    requires Scanned(pick, i, mode, total, order, groups, combined)
    requires pick(i).None?
    ensures Scanned(pick, i + 1, mode, total, order, groups, combined)
  {
    assert Picked(i + 1, pick) == Picked(i, pick);
  }

  /** In separate mode a match extends the bucket of its title, creating it
      (and recording the title) on first sight. */
  lemma ScanSeparate(pick: nat -> Option<Entry>, i: nat, total: nat,
                     order: seq<string>, groups: map<string, seq<string>>, e: Entry)
    requires Scanned(pick, i, Separate, total, order, groups, [])
    requires pick(i) == Some(e)
    ensures e.title in groups <==> e.title in order
    ensures Scanned(pick, i + 1, Separate, total + 1,
      if e.title in groups then order else order + [e.title],
      groups[e.title := (if e.title in groups then groups[e.title] else []) + [e.info, e.url]],
      [])
  {
    var prev := Picked(i, pick);
    assert Picked(i + 1, pick) == prev + [e];
    EntryStep(prev, e);
  }

  /** In combined mode a match appends its two lines. */
  lemma ScanCombined(pick: nat -> Option<Entry>, i: nat, total: nat, combined: seq<string>, e: Entry)
    requires Scanned(pick, i, Combined, total, [], map[], combined)
    requires pick(i) == Some(e)
    ensures Scanned(pick, i + 1, Combined, total + 1, [], map[], combined + [e.info, e.url])
  {
    var prev := Picked(i, pick);
    assert Picked(i + 1, pick) == prev + [e];
    EntryStep(prev, e);
  }

  /** The separate-mode body of the scanning loop: create the group's list on
      first sight, then extend it with the entry's two lines. */
  method AddToGroup(order: seq<string>, groups: map<string, seq<string>>, e: Entry)
    returns (order': seq<string>, groups': map<string, seq<string>>)
    ensures order' == if e.title in groups then order else order + [e.title]
    ensures groups' == groups[e.title := (if e.title in groups then groups[e.title] else []) + [e.info, e.url]]
  {
    order', groups' := order, groups;
    if e.title !in groups' {
      order' := order' + [e.title];
      groups' := groups'[e.title := []];
    }
    groups' := groups'[e.title := groups'[e.title] + [e.info, e.url]];
    if e.title !in groups {
      assert [] + [e.info, e.url] == [e.info, e.url];
      MapUpdateTwice(groups, e.title, [], [e.info, e.url]);
    }
  }

  /** The scanning loop of `extract_groups_by_query`: one pass over the lines,
      counting the matches and collecting them per group in order of first
      appearance (separate mode) or in one list (combined mode). */
  method ScanGroups(lines: seq<string>, queryLower: string, mode: Mode)
    returns (total: nat, order: seq<string>, groups: map<string, seq<string>>, combined: seq<string>)
    ensures total == |Matches(lines, |lines|, queryLower)|
    ensures mode == Separate ==>
      order == GroupOrder(Matches(lines, |lines|, queryLower))
      && groups == Buckets(Matches(lines, |lines|, queryLower)) && combined == []
    ensures mode == Combined ==>
      combined == Pairs(Matches(lines, |lines|, queryLower)) && order == [] && groups == map[]
  {
    order, groups, combined := [], map[], [];
    total := 0;
    assert Titles([]) == [];
    var pick := LineMatch(lines, queryLower);
    for i := 0 to |lines|
      invariant Scanned(pick, i, mode, total, order, groups, combined)
    {
      total, order, groups, combined := ScanLine(pick, i, mode, total, order, groups, combined);
    }
  }

  /** The body of the scanning loop for line `i`. */
  method ScanLine(pick: nat -> Option<Entry>, i: nat, mode: Mode, total: nat,
                  order: seq<string>, groups: map<string, seq<string>>, combined: seq<string>)
    returns (total': nat, order': seq<string>, groups': map<string, seq<string>>, combined': seq<string>)
    requires Scanned(pick, i, mode, total, order, groups, combined)
    ensures Scanned(pick, i + 1, mode, total', order', groups', combined')
  {
    total', order', groups', combined' := total, order, groups, combined;
    var found := pick(i);
    if found.Some? {
      var e := found.value;
      if mode == Separate {
        ScanSeparate(pick, i, total, order, groups, e);
        order', groups' := AddToGroup(order, groups, e);
      } else {
        ScanCombined(pick, i, total, combined, e);
        combined' := combined + [e.info, e.url];
      }
      total' := total + 1;
    } else {
      ScanSkip(pick, i, mode, total, order, groups, combined);
    }
  }

  /** The separate-mode output loop: one file per group, in dict order, named
      after the sanitized title and reporting half the number of its lines
      as the channel count. */
  method SeparateFiles(ghost ms: seq<Entry>, order: seq<string>, groups: map<string, seq<string>>)
    returns (files: seq<OutFile>)
    requires order == GroupOrder(ms) && groups == Buckets(ms)
    ensures files == GroupFiles(ms, order)
  {
    files := [];
    for k := 0 to |order|
      invariant files == GroupFiles(ms, order[..k])
    {
      assert order[..k + 1][..k] == order[..k];
      var t := order[k];
      BucketIsGroup(ms, t);
      var bucket := groups[t];
      assert |bucket| / 2 == |InGroup(ms, t)|;
      var f := OutFile(SanitizeFilename(t), [Header] + bucket, |bucket| / 2);
      assert f == GroupFile(ms, t);
      files := files + [f];
    }
    assert order[..|order|] == order;
  }

  /** `extract_groups_by_query`: scan the lines, then produce one file per
      group (separate mode) or one combined file. No file is produced when
      nothing matches. */
  method ExtractGroupsByQuery(lines: seq<string>, query: string, mode: Mode)
    returns (total: nat, files: seq<OutFile>)
    ensures total == |Matches(lines, |lines|, Lower(query))|
    ensures total == 0 ==> files == []
    ensures total > 0 && mode == Combined ==>
      files == [CombinedFile(query, Matches(lines, |lines|, Lower(query)))]
    ensures total > 0 && mode == Separate ==>
      var ms := Matches(lines, |lines|, Lower(query));
      files == GroupFiles(ms, GroupOrder(ms))
  {
    var queryLower := Lower(query);
    var order, groups, combined;
    total, order, groups, combined := ScanGroups(lines, queryLower, mode);
    ghost var ms := Matches(lines, |lines|, queryLower);
    if total == 0 {
      return total, [];
    }
    if mode == Separate {
      files := SeparateFiles(ms, order, groups);
    } else {
      files := [OutFile(SanitizeFilename(query + "_combined"), [Header] + combined, total)];
    }
  }
}
