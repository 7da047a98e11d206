/** `group_channels` of vavoo/vavoo2.py: for the German list, channels named in the
    reference table come first, in table order, and take the table's group; the
    others keep their catalog order and get a group from their name. */
module Grouping {
  import opened Text
  import opened Seqs
  import opened Pattern
  import opened Names
  import opened Ranking
  import opened Catalog

  // ---------------------------------------------------------------------------
  // The reference table

  /** `REF_DATA`, flattened in iteration order: every reference channel with the
      title of the group it is listed under. */
  const RefTable: seq<(string, string)> := [
    ("Das Erste", "OeR"), ("ZDF", "OeR"), ("phoenix", "OeR"), ("ARD-alpha", "OeR"), ("ZDFneo", "OeR"),
    ("ONE", "OeR"), ("ZDFinfo", "OeR"), ("ARTE", "OeR"), ("3sat", "OeR"), ("WDR Köln", "OeR"),
    ("NDR Niedersachsen", "OeR"), ("SWR Rheinland-Pfalz", "OeR"), ("SR", "OeR"), ("RBB Berlin", "OeR"),
    ("MDR Sachsen", "OeR"), ("hr-fernsehen", "OeR"), ("BR Nord", "OeR"), ("ORF 1", "OeR"), ("ORF 2", "OeR"),
    ("tagesschau24", "OeR"), ("ntv", "OeR"), ("WELT", "OeR"), ("euronews", "OeR"), ("CNN Europe", "OeR"),
    ("Al Jazeera English", "OeR"), ("RTL", "Private"), ("SAT.1", "Private"), ("ProSieben", "Private"),
    ("Kabel Eins", "Private"), ("RTLZWEI", "Private"), ("Super RTL", "Private"), ("VOX", "Private"),
    ("DMAX", "Private"), ("RTLup", "Private"), ("RTL Crime", "Private"), ("RTL Passion", "Private"),
    ("NITRO", "Private"), ("ProSieben MAXX", "Private"), ("ProSieben FUN", "Private"),
    ("SAT.1 emotions", "Private"), ("SAT.1 GOLD", "Private"), ("VOXup", "Private"), ("sixx", "Private"),
    ("Romance TV", "Private"), ("TLC", "Private"), ("TELE 5", "Private"), ("DF1", "Private"),
    ("Comedy Central", "Private"), ("Sky One", "Sky"), ("Sky Replay", "Sky"), ("Sky Showcase", "Sky"),
    ("Sky Atlantic", "Sky"), ("Sky Action", "Sky"), ("Sky Cinema Highlights", "Sky"),
    ("Sky Cinema Classics", "Sky"), ("Sky Cinema Family", "Sky"), ("Sky Cinema Premieren", "Sky"),
    ("Sky Krimi", "Sky"), ("SyFy", "Sky"), ("WarnerTV Film", "Sky"), ("WarnerTV Serie", "Sky"),
    ("WarnerTV Comedy", "Sky"), ("Universal TV", "Sky"), ("13th Street", "Sky"),
    ("Kabel Eins CLASSICS", "Sky"), ("KinoweltTV", "Sky"), ("AXN White", "Sky"), ("AXN Black", "Sky"),
    ("Heimatkanal", "Sky"), ("Sky Crime", "Doku"), ("Sky Documentaries", "Doku"), ("Sky Nature", "Doku"),
    ("Animal Planet", "Doku"), ("GEO Television", "Doku"), ("Discovery Channel", "Doku"),
    ("National Geographic WILD", "Doku"), ("National Geographic", "Doku"), ("History", "Doku"),
    ("Crime + Investigation", "Doku"), ("Curiosity Channel", "Doku"), ("SPIEGEL Geschichte", "Doku"),
    ("Welt der Wunder", "Doku"), ("N24 Doku", "Doku"), ("Kabel Eins Doku", "Doku"), ("HGTV", "Doku"),
    ("RTL Living", "Doku"), ("travelxp", "Doku"), ("BonGusto", "Doku"), ("Marco Polo TV", "Doku"),
    ("DAZN 1", "Bundesliga"), ("DAZN 2", "Bundesliga"), ("Sky Sport Bundesliga", "Bundesliga"),
    ("Sky Sport Bundesliga 1", "Bundesliga"), ("Sky Sport Bundesliga 2", "Bundesliga"),
    ("Sky Sport Bundesliga 3", "Bundesliga"), ("Sky Sport Bundesliga 4", "Bundesliga"),
    ("Sky Sport Bundesliga 5", "Bundesliga"), ("Sky Sport Bundesliga 6", "Bundesliga"),
    ("Sky Sport Bundesliga 7", "Bundesliga"), ("Sky Sport Bundesliga 8", "Bundesliga"),
    ("Sky Sport Bundesliga 9", "Bundesliga"), ("Sky Sport Bundesliga 10", "Bundesliga"), ("DAZN 1", "Dazn"),
    ("DAZN 2", "Dazn"), ("DAZN RISE", "Dazn"), ("DAZN FAST+", "Dazn"), ("Eurosport 1", "Dazn"),
    ("Eurosport 2", "Dazn"), ("SPORTDIGITAL FUSSBALL", "Dazn"), ("Billiard TV", "Dazn"),
    ("Red Bull TV", "Dazn"), ("PowerSports World", "Dazn"), ("ACL Cornhole TV", "Dazn"),
    ("PLL Network", "Dazn"), ("Unbeaten", "Dazn"), ("MLB Network", "Dazn"), ("NFL Network", "Dazn"),
    ("Sky Sport F1", "Sport"), ("Sky Sport Top Event", "Sport"), ("Sky Sport Premier League", "Sport"),
    ("Sky Sport Mix", "Sport"), ("Sky Sport Tennis", "Sport"), ("Sky Sport Golf", "Sport"),
    ("Sky Sport News", "Sport"), ("Sky Sport 1", "Sport"), ("Sky Sport 2", "Sport"),
    ("Sky Sport 3", "Sport"), ("Sky Sport 4", "Sport"), ("Sky Sport 5", "Sport"), ("Sky Sport 6", "Sport"),
    ("Sky Sport 7", "Sport"), ("Sky Sport 8", "Sport"), ("Sky Sport 9", "Sport"), ("Sky Sport 10", "Sport"),
    ("Sky Sport Austria 1", "Sport"), ("Sky Sport Austria 2", "Sport"), ("Sky Sport Austria 3", "Sport"),
    ("Sky Sport Austria 4", "Sport"), ("Sky Sport Austria 5", "Sport"), ("Sky Sport Austria 6", "Sport"),
    ("Sky Sport Austria 7", "Sport"), ("SPORT1", "Sport"), ("SPORTDIGITAL1+", "Sport"),
    ("ORF Sport +", "Sport"), ("auto motor sport channel", "Sport"), ("Eurosport 1", "Sport"),
    ("Eurosport 2", "Sport"), ("DAZN RISE", "Sport"), ("DAZN FAST", "Sport"), ("MOTORVISION+", "Sport"),
    ("eSportsONE", "Sport"), ("More Than Sports TV", "Sport"), ("Sportdigital EDGE", "Sport"),
    ("Red Bull TV Extreme", "Sport"), ("Sport 1 - myTeamTV", "Magenta Sport"),
    ("Sport 2 - myTeamTV", "Magenta Sport"), ("Sport 3 - myTeamTV", "Magenta Sport"),
    ("Sport 4 - myTeamTV", "Magenta Sport"), ("Sport 5 - myTeamTV", "Magenta Sport"),
    ("Sport 6 - myTeamTV", "Magenta Sport"), ("Sport 7 - myTeamTV", "Magenta Sport"),
    ("Sport 8 - myTeamTV", "Magenta Sport"), ("Sport 9 - myTeamTV", "Magenta Sport"),
    ("Sport 10 - myTeamTV", "Magenta Sport"), ("Sport 11 - myTeamTV", "Magenta Sport"),
    ("Sport 12 - myTeamTV", "Magenta Sport"), ("Sport 13 - myTeamTV", "Magenta Sport"),
    ("Sport 14 - myTeamTV", "Magenta Sport"), ("Sport 15 - myTeamTV", "Magenta Sport"),
    ("Sport 16 - myTeamTV", "Magenta Sport"), ("Sport 17 - myTeamTV", "Magenta Sport"),
    ("Sport 18 - myTeamTV", "Magenta Sport")
  ]

  /** `ref_order`: the key `key` gives every entry of a reference table, in table
      order (`group_channels` uses `norm_key`). */
  function KeysOf(table: seq<(string, string)>, key: string -> string): (r: seq<string>)
    ensures |r| == |table|
    ensures forall i :: 0 <= i < |table| ==> r[i] == key(table[i].0)
  {
    seq(|table|, i requires 0 <= i < |table| => key(table[i].0))
  }

  /** The group titles of a reference table, in table order. */
  function TitlesOf(table: seq<(string, string)>): (r: seq<string>)
    ensures |r| == |table|
    ensures forall i :: 0 <= i < |table| ==> r[i] == table[i].1
  {
    seq(|table|, i requires 0 <= i < |table| => table[i].1)
  }

  /** `ref_map[k]` after the first `n` (key, title) assignments: a later
      assignment to the same key overwrites an earlier one. */
  function LastTitle(keys: seq<string>, titles: seq<string>, n: nat, k: string): (g: Option<string>)
    requires |keys| == |titles| && n <= |keys|
    ensures g.None? <==> forall i :: 0 <= i < n ==> keys[i] != k
  {
    if n == 0 then None
    else if keys[n - 1] == k then Some(titles[n - 1])
    else LastTitle(keys, titles, n - 1, k)
  }

  /** A key the table lists gets the title of its last entry. */
  lemma {:induction false} LastTitleIsLast(keys: seq<string>, titles: seq<string>, n: nat, k: string, i: nat)
    requires |keys| == |titles| && i < n <= |keys|
    requires keys[i] == k && forall j :: i < j < n ==> keys[j] != k
    ensures LastTitle(keys, titles, n, k) == Some(titles[i])
    decreases n
  {
    if n - 1 != i {
      LastTitleIsLast(keys, titles, n - 1, k, i);
    }
  }

  /** One more assignment changes only the entry of its own key. */
  lemma LastTitleStep(keys: seq<string>, titles: seq<string>, i: nat)
    requires |keys| == |titles| && i < |keys|
    ensures LastTitle(keys, titles, i + 1, keys[i]) == Some(titles[i])
    ensures forall k :: k != keys[i] ==> LastTitle(keys, titles, i + 1, k) == LastTitle(keys, titles, i, k)
  {
  }

  /** The group the table gives key `k`, if it lists it. */
  function RefGroup(table: seq<(string, string)>, k: string): Option<string> {
    LastTitle(KeysOf(table, NormKey), TitlesOf(table), |table|, k)
  }

  /** `ref_map` after the first `n` assignments `ref_map[keys[i]] = titles[i]`. */
  function RefMapOf(keys: seq<string>, titles: seq<string>, n: nat): (m: map<string, string>)
    requires |keys| == |titles| && n <= |keys|
    ensures forall k :: k in m <==> k in keys[..n]
  {
    if n == 0 then map[]
    else
      assert keys[..n] == keys[..n - 1] + [keys[n - 1]];
      RefMapOf(keys, titles, n - 1)[keys[n - 1] := titles[n - 1]]
  }

  /** The map holds, for every key, the title of its last assignment. */
  lemma {:induction false} RefMapOfIsLast(keys: seq<string>, titles: seq<string>, n: nat, k: string)
    requires |keys| == |titles| && n <= |keys|
    ensures LastTitle(keys, titles, n, k) == (if k in RefMapOf(keys, titles, n) then Some(RefMapOf(keys, titles, n)[k]) else None)
  {
    if n > 0 {
      RefMapOfIsLast(keys, titles, n - 1, k);
    }
  }

  /** The loop over `REF_DATA` that builds `ref_map` and `ref_order`. */
  method BuildRefIndex(table: seq<(string, string)>, key: string -> string)
    returns (refMap: map<string, string>, refOrder: seq<string>)
    ensures refOrder == KeysOf(table, key)
    ensures refMap == RefMapOf(refOrder, TitlesOf(table), |table|)
  {
    ghost var keys := KeysOf(table, key);
    ghost var titles := TitlesOf(table);
    refMap := map[];
    refOrder := [];
    var i := 0;
    while i < |table|
      invariant i <= |table|
      invariant refOrder == keys[..i]
      invariant refMap == RefMapOf(keys, titles, i)
    {
      var k := key(table[i].0);
      assert keys[i] == k;
      assert keys[..i + 1] == keys[..i] + [k];
      refMap := refMap[k := table[i].1];
      refOrder := refOrder + [k];
      i := i + 1;
    }
    assert keys[..|table|] == keys;
  }

  /** What `BuildRefIndex` returns: `ref_order` lists the keys, and `ref_map` holds
      exactly those keys, each with the group of its last table entry. */
  lemma RefIndexMeaning(table: seq<(string, string)>, k: string)
    ensures k in RefMapOf(KeysOf(table, NormKey), TitlesOf(table), |table|) <==> k in KeysOf(table, NormKey)
    ensures k in RefMapOf(KeysOf(table, NormKey), TitlesOf(table), |table|) ==>
              RefGroup(table, k) == Some(RefMapOf(KeysOf(table, NormKey), TitlesOf(table), |table|)[k])
  {
    assert KeysOf(table, NormKey)[..|table|] == KeysOf(table, NormKey);
    RefMapOfIsLast(KeysOf(table, NormKey), TitlesOf(table), |table|, k);
  }

  // ---------------------------------------------------------------------------
  // Groups for the channels the table does not place

  /** The `_base` of every item, in order. */
  function Bases(s: seq<Channel>): (r: seq<string>)
    ensures |r| == |s| && forall i :: 0 <= i < |s| ==> r[i] == s[i].base
  {
    seq(|s|, i requires 0 <= i < |s| => s[i].base)
  }

  /** The `base_count` loop: how many items carry each non-empty base name. */
  method CountBases(items: seq<Channel>) returns (m: map<string, nat>)
    ensures forall b :: b in m <==> b != "" && b in Bases(items)
    ensures forall b :: b in m ==> m[b] == multiset(Bases(items))[b]
  {
    m := map[];
    var i := 0;
    while i < |items|
      invariant i <= |items|
      invariant forall b :: b in m <==> b != "" && b in Bases(items)[..i]
      invariant forall b :: b in m ==> m[b] == multiset(Bases(items)[..i])[b]
    {
      var b := items[i].base;
      assert Bases(items)[..i + 1] == Bases(items)[..i] + [b];
      if b != "" {
        m := m[b := (if b in m then m[b] else 0) + 1];
      }
      i := i + 1;
    }
    assert Bases(items)[..|items|] == Bases(items);
  }

  const WordStart: seq<seq<Elem>> := [
    [AtStart, Lit("WDR"), Boundary], [AtStart, Lit("MDR"), Boundary], [AtStart, Lit("NDR"), Boundary],
    [AtStart, Lit("RBB"), Boundary], [AtStart, Lit("RBW"), Boundary]]
  const RtlNitro: seq<seq<Elem>> := [[Boundary, Lit("RTL"), Star(IsSpace), Lit("NITRO"), Boundary]]
  const BrTv: seq<seq<Elem>> := [
    [Boundary, Lit("BR"), Boundary], [Boundary, Lit("BR"), Plus(IsSpace), Lit("TV"), Boundary]]
  const Swr: seq<seq<Elem>> := [[AtStart, Lit("SWR"), Boundary]]
  const ServusTv: seq<seq<Elem>> := [[Boundary, Lit("SERVUS"), Star(IsSpace), Lit("TV"), Boundary]]
  const Silverline: seq<seq<Elem>> := [[Boundary, Lit("SILVERLINE"), Boundary]]
  const SkyNumber: seq<seq<Elem>> := [[Boundary, Lit("SKY"), Star(IsSpace), Plus(IsDigit), Boundary]]
  const SkyBest: seq<seq<Elem>> := [
    [Boundary, Lit("SKY"), Star(IsSpace), Lit("BEST"), Star(IsSpace), Lit("OF"), Boundary],
    [Boundary, Lit("SKY"), Star(IsSpace), Lit("BEST"), Boundary]]
  const SkyBundesligaNumber: seq<seq<Elem>> :=
    [[Boundary, Lit("SKY"), Star(IsSpace), Lit("BUNDESLIGA"), Plus(IsDigit), Boundary]]
  const SkyGenre: seq<seq<Elem>> := [
    [Boundary, Lit("SKY"), Star(IsSpace), Lit("CLASSICS"), Boundary],
    [Boundary, Lit("SKY"), Star(IsSpace), Lit("COMEDY"), Boundary],
    [Boundary, Lit("SKY"), Star(IsSpace), Lit("FAMILY"), Boundary],
    [Boundary, Lit("SKY"), Star(IsSpace), Lit("FUN"), Boundary],
    [Boundary, Lit("SKY"), Star(IsSpace), Lit("HITS"), Boundary],
    [Boundary, Lit("SKY"), Star(IsSpace), Lit("SPECIAL"), Boundary],
    [Boundary, Lit("SKY"), Star(IsSpace), Lit("THRILLER"), Boundary]]
  const SkySeries: seq<seq<Elem>> := [[Boundary, Lit("SKY"), Star(IsSpace), Lit("SERIEN"), Star(IsSpace),
    Opt('&'), Star(IsSpace), Lit("SHOWS"), Boundary]]
  const DbLiga: seq<seq<Elem>> := [[Boundary, Lit("DB"), Plus(IsSpace), Lit("LIGA"), Boundary]]

  /** The group names `special_group` can return. */
  const SpecialGroups: set<string> :=
    {"OeR", "Private", "Sport", "Sky", "BLUETV", "Bundesliga", "Sky Select", "DB LIGA", "Dazn", "Doku"}

  /** The name `special_group` tests: upper-cased, with "KABEL 1" and the "S."
      abbreviations spelled out. */
  function SpecialForm(name: string): string {
    Sub(SDot, Const("SKY "), Sub(SDotSport, Const("SKY SPORT"), Sub(KabelOne, Const("KABEL EINS"), Upper(name))))
  }

  /** `special_group`: the group a channel name implies, the first rule that
      applies deciding. */
  function SpecialGroup(name: string): (g: Option<string>)
    ensures g.Some? ==> g.value in SpecialGroups
  {
    var up := SpecialForm(name);
    var first := PublicAndEarlyRules(up);
    if first.Some? then first else
    var second := SkyRules(up);
    if second.Some? then second else SportAndDocuRules(up)
  }

  /** The rules up to the `BLUETV` prefix. */
  function PublicAndEarlyRules(up: string): (g: Option<string>)
    ensures g.Some? ==> g.value in SpecialGroups
  {
    if MatchesStart(WordStart, up) then Some("OeR")
    else if Search(RtlNitro, up) then Some("Private")
    else if MatchesStart(BrTv, up) then Some("OeR")
    else if StartsWith(up, "EURONEWS") then Some("Sport")
    else if MatchesStart(Swr, up) then Some("OeR")
    else if StartsWith(up, "WELT") then Some("OeR")
    else if StartsWith(up, "SKY PREMIEREN") then Some("Sky")
    else if Contains(up, "EUROSPORT") then Some("Sport")
    else if Search(ServusTv, up) then Some("Private")
    else if StartsWith(up, "BLUETV") then Some("BLUETV")
    else None
  }

  /** The rules from `SILVERLINE` to `SKY SELECT`. */
  function SkyRules(up: string): (g: Option<string>)
    ensures g.Some? ==> g.value in SpecialGroups
  {
    if Search(Silverline, up) then Some("Sky")
    else if MatchesStart(SkyNumber, up) then Some("Sky")
    else if Search(SkyBest, up) then Some("Sky")
    else if Search(SkyBundesligaNumber, up) then Some("Bundesliga")
    else if Search(SkyGenre, up) then Some("Sky")
    else if Search(SkySeries, up) then Some("Sky")
    else if StartsWith(up, "SKY BOX") then Some("Sky")
    else if StartsWith(up, "SKY CINEMA") then Some("Sky")
    else if StartsWith(up, "TNT") then Some("Sky")
    else if StartsWith(up, "WARNER") then Some("Sky")
    else if Contains(up, "SKY SELECT") then Some("Sky Select")
    else None
  }

  /** The remaining rules, from the Bundesliga names on. */
  function SportAndDocuRules(up: string): (g: Option<string>)
    ensures g.Some? ==> g.value in SpecialGroups
  {
    if Contains(up, "SKY SPORT BUNDESLIGA") || Search(SkyBundesliga, up) then Some("Bundesliga")
    else if Search(DbLiga, up) then Some("DB LIGA")
    else if StartsWith(up, "DAZN") || Contains(up, "DAZN SPORT") then Some("Dazn")
    else if StartsWith(up, "SKY SPORT") then Some("Sport")
    else if Contains(up, "SPORT DIGITAL") || Contains(up, "SPORTDIGITAL") then Some("Sport")
    else if Contains(up, "MOTOR") || Contains(up, "AUTO") then Some("Sport")
    else if Contains(up, "NAT GEO") then Some("Doku")
    else if Contains(up, "SPIEGEL") then Some("Doku")
    else None
  }

  /** The special group ignores the case of the name. */
  lemma SpecialGroupIgnoresCase(name: string)
    ensures SpecialGroup(Upper(name)) == SpecialGroup(name)
  {
    UpperOfUpper(name);
    assert SpecialForm(Upper(name)) == SpecialForm(name);
  }

  /** The group of an item the reference table does not place: its special group,
      else its base name when at least five items share it, else "Germany". */
  function RestGroup(c: Channel, items: seq<Channel>): (g: string)
    ensures g in SpecialGroups || g == "Germany" || (g == c.base && multiset(Bases(items))[g] >= 5)
  {
    match SpecialGroup(c.name)
    case Some(sg) => sg
    case None => if c.base != "" && multiset(Bases(items))[c.base] >= 5 then c.base else "Germany"
  }

  // ---------------------------------------------------------------------------
  // The order `group_channels` produces

  /** The inner reference loop for key `k` over `s`: the items it picks, and the
      ids used afterwards. */
  function Pick(s: seq<Channel>, k: string, used: set<string>): (r: (seq<Channel>, set<string>))
    ensures used <= r.1
    ensures forall c :: c in r.0 ==> c in s && c.key == k && c.id in r.1
    decreases |s|
  {
    if s == [] then ([], used)
    else
      var prev := Pick(s[..|s| - 1], k, used);
      var c := s[|s| - 1];
      if c.key == k && c.id !in prev.1 then (prev.0 + [c], prev.1 + {c.id}) else prev
  }

  /** The outer reference loop over the first `n` keys of `ref_order`. */
  function RefPass(items: seq<Channel>, keys: seq<string>, n: nat): (r: (seq<Channel>, set<string>))
    requires n <= |keys|
    ensures forall c :: c in r.0 ==> c in items && c.key in keys && c.id in r.1
    decreases n
  {
    if n == 0 then ([], {})
    else
      var prev := RefPass(items, keys, n - 1);
      var p := Pick(items, keys[n - 1], prev.1);
      (prev.0 + p.0, p.1)
  }

  /** The items the reference loop places, in the order it places them. */
  function RefPart(items: seq<Channel>, keys: seq<string>): seq<Channel> {
    RefPass(items, keys, |keys|).0
  }

  /** `used` after the reference loop. */
  function UsedIds(items: seq<Channel>, keys: seq<string>): set<string> {
    RefPass(items, keys, |keys|).1
  }

  /** The items whose id the reference loop did not use, in their order. */
  function RestOf(s: seq<Channel>, used: set<string>): (r: seq<Channel>)
    ensures forall c :: c in r ==> c in s && c.id !in used
    decreases |s|
  {
    if s == [] then []
    else RestOf(s[..|s| - 1], used) + (if s[|s| - 1].id !in used then [s[|s| - 1]] else [])
  }

  /** The list `group_channels` returns for the German region. */
  function GroupOrder(items: seq<Channel>, keys: seq<string>): seq<Channel> {
    RefPart(items, keys) + RestOf(items, UsedIds(items, keys))
  }

  // ---------------------------------------------------------------------------
  // The order is a stable sort by reference position

  /** The position that decides an item's place: the first index of its key in
      `ref_order`, or `|keys|` for an item the table does not list. */
  function RefRank(keys: seq<string>): Channel -> nat {
    (c: Channel) => FirstIndex(keys, c.key)
  }

  /** With distinct ids, the inner loop for key `keys[m]` picks exactly the items
      whose key first occurs at `m`, when `used` holds the ids of the items whose
      key occurs earlier. */
  lemma {:induction false} PickIsClass(s: seq<Channel>, keys: seq<string>, m: nat, used: set<string>)
    requires m < |keys| && DistinctIds(s)
    requires forall c :: c in s ==> (c.id in used <==> FirstIndex(keys, c.key) < m)
    ensures Pick(s, keys[m], used).0 == RankClass(s, RefRank(keys), m)
    ensures Pick(s, keys[m], used).1 == used + IdsOf(RankClass(s, RefRank(keys), m))
    decreases |s|
  {
    if s != [] {
      var init, c := s[..|s| - 1], s[|s| - 1];
      DistinctIdsInit(s);
      PickIsClass(init, keys, m, used);
      var cls := RankClass(init, RefRank(keys), m);
      assert c.id !in IdsOf(cls);
      assert (c.key == keys[m] && c.id !in used) <==> FirstIndex(keys, c.key) == m;
      if FirstIndex(keys, c.key) == m {
        assert RankClass(s, RefRank(keys), m) == cls + [c];
        IdsOfAppend(cls, c);
      } else {
        assert RankClass(s, RefRank(keys), m) == cls;
      }
    }
  }

  /** After the first `n` keys, the reference loop has placed the items of rank
      below `n` in rank order, each rank in catalog order, and used their ids. */
  lemma {:induction false} RefPassIsSort(items: seq<Channel>, keys: seq<string>, n: nat)
    requires DistinctIds(items) && n <= |keys|
    ensures RefPass(items, keys, n).0 == SortByRanks(items, RefRank(keys), Range(n))
    ensures forall c :: c in items ==> (c.id in RefPass(items, keys, n).1 <==> FirstIndex(keys, c.key) < n)
  {
    if n > 0 {
      RefPassIsSort(items, keys, n - 1);
      var prev := RefPass(items, keys, n - 1);
      PickIsClass(items, keys, n - 1, prev.1);
      assert Range(n)[..n - 1] == Range(n - 1);
      var cls := RankClass(items, RefRank(keys), n - 1);
      forall c | c in items
        ensures c.id in prev.1 + IdsOf(cls) <==> FirstIndex(keys, c.key) < n
      {
        if c.id in IdsOf(cls) {
          var x :| x in cls && x.id == c.id;
          SameIdSameItem(items, x, c);
        } else if FirstIndex(keys, c.key) == n - 1 {
          RankClassKeeps(items, RefRank(keys), n - 1, c);
        }
      }
    }
  }

  /** The items the reference loop leaves are those of rank `|keys|`, in catalog order. */
  lemma {:induction false} RestOfIsClass(s: seq<Channel>, keys: seq<string>, used: set<string>)
    requires forall c :: c in s ==> (c.id in used <==> FirstIndex(keys, c.key) < |keys|)
    ensures RestOf(s, used) == RankClass(s, RefRank(keys), |keys|)
    decreases |s|
  {
    if s != [] {
      RestOfIsClass(s[..|s| - 1], keys, used);
    }
  }

  /** `group_channels`' German order is Python's stable sort of the catalog by
      reference position. */
  lemma GroupOrderIsSort(items: seq<Channel>, keys: seq<string>)
    requires DistinctIds(items)
    ensures GroupOrder(items, keys) == SortByRanks(items, RefRank(keys), Range(|keys| + 1))
  {
    RefPassIsSort(items, keys, |keys|);
    RestOfIsClass(items, keys, UsedIds(items, keys));
    assert Range(|keys| + 1)[..|keys|] == Range(|keys|);
  }

  /** Every item's rank is one of `0..|keys|`. */
  lemma RanksListed(items: seq<Channel>, keys: seq<string>)
    ensures forall c :: c in items ==> RefRank(keys)(c) in Range(|keys| + 1)
  {
    forall c | c in items
      ensures RefRank(keys)(c) in Range(|keys| + 1)
    {
      assert Range(|keys| + 1)[FirstIndex(keys, c.key)] == FirstIndex(keys, c.key);
    }
  }

  /** The German order is a permutation of the catalog. */
  lemma GroupOrderIsPermutation(items: seq<Channel>, keys: seq<string>)
    requires DistinctIds(items)
    ensures multiset(GroupOrder(items, keys)) == multiset(items)
  {
    GroupOrderIsSort(items, keys);
    RanksListed(items, keys);
    SortIsPermutation(items, RefRank(keys), Range(|keys| + 1));
  }

  /** Reference-matched items come first, in reference-table order; the others follow. */
  lemma GroupOrderIsSorted(items: seq<Channel>, keys: seq<string>)
    requires DistinctIds(items)
    ensures SortedBy(GroupOrder(items, keys), RefRank(keys))
  {
    GroupOrderIsSort(items, keys);
    SortedByRank(items, RefRank(keys), Range(|keys| + 1));
  }

  /** Items of equal reference position keep their catalog order; in particular the
      unmatched items keep theirs. */
  lemma GroupOrderIsStable(items: seq<Channel>, keys: seq<string>, r: nat)
    requires DistinctIds(items) && r <= |keys|
    ensures RankClass(GroupOrder(items, keys), RefRank(keys), r) == RankClass(items, RefRank(keys), r)
  {
    GroupOrderIsSort(items, keys);
    assert Range(|keys| + 1)[r] == r;
    SortStable(items, RefRank(keys), Range(|keys| + 1), r);
  }

  /** The reference part holds exactly the items whose key the table lists. */
  lemma RefPartMembers(items: seq<Channel>, keys: seq<string>, c: Channel)
    requires DistinctIds(items)
    ensures c in RefPart(items, keys) <==> c in items && c.key in keys
  {
    if c in items && c.key in keys {
      RefPassIsSort(items, keys, |keys|);
      GroupOrderIsPermutation(items, keys);
      assert c in multiset(GroupOrder(items, keys));
      assert c !in RestOf(items, UsedIds(items, keys));
    }
  }

  // ---------------------------------------------------------------------------
  // `group_channels`

  /** The outcome of grouping for "DE": `r` is the reference order, every placed item
      carries its table group and every other item its rest group. */
  ghost predicate GroupedBy(items: seq<Channel>, r: seq<Channel>, table: seq<(string, string)>)
    reads set c | c in items
  {
    var keys := KeysOf(table, NormKey);
    && r == GroupOrder(items, keys)
    && (forall c :: c in RefPart(items, keys) ==> RefGroup(table, c.key) == Some(c.group))
    && (forall c :: c in RestOf(items, UsedIds(items, keys)) ==> c.group == RestGroup(c, items))
  }

  /** `group_channels` over any reference table: other regions pass through untouched;
      for "DE" the items are reordered as `GroupOrder` says and each item gets its group. */
  method GroupByTable(items: seq<Channel>, region: string, table: seq<(string, string)>) returns (r: seq<Channel>)
    modifies (set c | c in items)`group
    ensures Upper(region) != "DE" ==> r == items && forall c :: c in items ==> c.group == old(c.group)
    ensures Upper(region) == "DE" ==> GroupedBy(items, r, table)
    ensures forall c :: c in items && c !in r ==> c.group == old(c.group)
  {
    if Upper(region) != "DE" {
      return items;
    }
    var refMap, refOrder := BuildRefIndex(table, NormKey);
    var baseCount := CountBases(items);
    forall k | k in refOrder
      ensures k in refMap && RefGroup(table, k) == Some(refMap[k])
    {
      RefIndexMeaning(table, k);
    }
    var ordered, used := ReferencePass(items, refMap, refOrder);
    var rest := RestPass(items, used, baseCount, ordered);
    r := ordered + rest;
  }

  /** `group_channels`: other regions pass through untouched; for "DE" the items
      are reordered as `GroupOrder` says and each item gets its group. */
  method GroupChannels(items: seq<Channel>, region: string) returns (r: seq<Channel>)
    modifies (set c | c in items)`group
    ensures Upper(region) != "DE" ==> r == items && forall c :: c in items ==> c.group == old(c.group)
    ensures Upper(region) == "DE" ==> GroupedBy(items, r, RefTable)
    ensures forall c :: c in items && c !in r ==> c.group == old(c.group)
  {
    r := GroupByTable(items, region, RefTable);
  }

  /** The two nested reference loops. */
  method ReferencePass(items: seq<Channel>, refMap: map<string, string>, refOrder: seq<string>)
    returns (ordered: seq<Channel>, used: set<string>)
    requires forall k :: k in refOrder ==> k in refMap
    modifies (set c | c in items)`group
    ensures (ordered, used) == RefPass(items, refOrder, |refOrder|)
    ensures forall c :: c in ordered ==> c.key in refMap && c.group == refMap[c.key]
    ensures forall c :: c in items && c !in ordered ==> c.group == old(c.group)
  {
    ordered := [];
    used := {};
    var n := 0;
    while n < |refOrder|
      invariant n <= |refOrder|
      invariant (ordered, used) == RefPass(items, refOrder, n)
      invariant forall c :: c in ordered ==> c.key in refMap && c.group == refMap[c.key]
      invariant forall c :: c in items && c !in ordered ==> c.group == old(c.group)
    {
      var k := refOrder[n];
      var picked, usedNow := PickPass(items, k, refMap[k], used, ordered);
      ordered := ordered + picked;
      used := usedNow;
      n := n + 1;
    }
  }

  /** The inner reference loop for key `k`, which sets the group of what it picks. */
  method PickPass(items: seq<Channel>, k: string, group: string, used: set<string>, ordered: seq<Channel>)
    returns (picked: seq<Channel>, usedNow: set<string>)
    requires forall c :: c in ordered ==> c.id in used
    modifies (set c | c in items)`group
    ensures (picked, usedNow) == Pick(items, k, used)
    ensures forall c :: c in picked ==> c.group == group
    ensures forall c :: c in ordered ==> c.group == old(c.group)
    ensures forall c :: c in items && c !in picked ==> c.group == old(c.group)
  {
    picked := [];
    usedNow := used;
    var j := 0;
    while j < |items|
      invariant j <= |items|
      invariant (picked, usedNow) == Pick(items[..j], k, used)
      invariant forall c :: c in picked ==> c.group == group
      invariant forall c :: c in ordered ==> c.group == old(c.group)
      invariant forall c :: c in items && c !in picked ==> c.group == old(c.group)
    {
      var c := items[j];
      assert items[..j + 1][..j] == items[..j];
      if c.key == k && c.id !in usedNow {
        c.group := group;
        picked := picked + [c];
        usedNow := usedNow + {c.id};
      }
      j := j + 1;
    }
    assert items[..|items|] == items;
  }

  /** The group of an item the reference loop left, with the counts from `CountBases`. */
  method ChooseRestGroup(c: Channel, items: seq<Channel>, baseCount: map<string, nat>) returns (g: string)
    requires forall b :: b in baseCount <==> b != "" && b in Bases(items)
    requires forall b :: b in baseCount ==> baseCount[b] == multiset(Bases(items))[b]
    ensures g == RestGroup(c, items)
  {
    var sg := SpecialGroup(c.name);
    if sg.Some? {
      g := sg.value;
    } else if c.base in baseCount && baseCount[c.base] >= 5 {
      g := c.base;
    } else {
      g := "Germany";
    }
  }

  /** One more item extends `RestOf` by that item exactly when its id is unused. */
  lemma RestOfStep(s: seq<Channel>, i: nat, used: set<string>)
    requires i < |s|
    ensures RestOf(s[..i + 1], used) == RestOf(s[..i], used) + (if s[i].id !in used then [s[i]] else [])
  {
    assert s[..i + 1][..i] == s[..i];
  }

  /** The loop over the items the reference loop left. */
  method RestPass(items: seq<Channel>, used: set<string>, baseCount: map<string, nat>, ordered: seq<Channel>)
    returns (rest: seq<Channel>)
    requires forall b :: b in baseCount <==> b != "" && b in Bases(items)
    requires forall b :: b in baseCount ==> baseCount[b] == multiset(Bases(items))[b]
    requires forall c :: c in ordered ==> c.id in used
    modifies (set c | c in items)`group
    ensures rest == RestOf(items, used)
    ensures forall c :: c in rest ==> c.group == RestGroup(c, items)
    ensures forall c :: c in ordered ==> c.group == old(c.group)
    ensures forall c :: c in items && c !in rest ==> c.group == old(c.group)
  {
    rest := [];
    var i := 0;
    while i < |items|
      invariant i <= |items|
      invariant rest == RestOf(items[..i], used)
      invariant forall c :: c in rest ==> c.group == RestGroup(c, items)
      invariant forall c :: c in ordered ==> c.group == old(c.group)
      invariant forall c :: c in items && c !in rest ==> c.group == old(c.group)
    {
      var c := items[i];
      RestOfStep(items, i, used);
      if c.id !in used {
        var g := ChooseRestGroup(c, items, baseCount);
        c.group := g;
        rest := rest + [c];
      }
      i := i + 1;
    }
    assert items[..|items|] == items;
  }
}
