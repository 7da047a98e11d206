/** The channel-name normalisers of vavoo/vavoo2.py. Each one is a chain of
    case mapping, literal tests and `re.sub` calls. The regular expressions are
    written with the `Pattern` matcher, the two that use a lookahead or a lazy
    group are spelled out by hand. */
module Names {
  import opened Text
  import opened Pattern

  // ---------------------------------------------------------------------------
  // `canonicalize_channel_name`

  /** The rules of `canonicalize_channel_name`, tried in order on the stripped,
      lower-cased name: the replacement name of the first rule that applies. */
  function CanonicalRule(low: string): (r: Option<string>)
    ensures r.Some? ==> r.value in CanonicalNames
  {
    if Contains(low, "rtl 2") || Contains(low, "rtl zwei") then Some("RTL ZWEI")
    else if Contains(low, "ard das erste") then Some("Das Erste")
    else if low == "discovery" || StartsWith(low, "discovery ") then Some("Discovery Channel")
    else if Contains(low, "history channel") then Some("History")
    else if Contains(low, "n24 docu") || Contains(low, "n24 doku") then Some("N24 Doku")
    else if Contains(low, "kabel 1 doku") || Contains(low, "kabel eins doku") then Some("Kabel eins Doku")
    else if Contains(low, "spiegel tv wissen") || low == "spiegel wissen" then Some("Spiegel Geschichte")
    else if Contains(low, "sky nostalgie") then Some("Sky Cinema Classics")
    else if Contains(low, "sony axn") || low == "axn" then Some("AXN Black")
    else if Contains(low, "sony channel") then Some("AXN White")
    else if low == "axn" || StartsWith(low, "axn ") then Some("AXN White")
    else None
  }

  const CanonicalNames: seq<string> := ["RTL ZWEI", "Das Erste", "Discovery Channel", "History", "N24 Doku",
    "Kabel eins Doku", "Spiegel Geschichte", "Sky Cinema Classics", "AXN Black", "AXN White"]

  /** `canonicalize_channel_name`: a few catalog names are replaced by the name
      the channel carries today; every other name is only stripped. */
  function Canonicalize(name: string): (r: string)
    ensures r == Strip(name) || r in CanonicalNames
  {
    var s := Strip(name);
    match CanonicalRule(Lower(s))
    case Some(c) => c
    case None => s
  }

  /** A character of `sub` that `s` lacks rules out `sub` occurring in `s`. */
  lemma NotContainsByChar(s: string, sub: string, c: char)
    requires c in sub && c !in s
    ensures !Contains(s, sub)
  {
  }

  lemma NotContainsLonger(s: string, sub: string)
    requires |sub| > |s|
    ensures !Contains(s, sub)
  {
  }

  lemma RuleForRtlZwei()
    ensures CanonicalRule("rtl zwei") == Some("RTL ZWEI")
  {
    assert OccursAt("rtl zwei", "rtl zwei", 0);
    NotContainsByChar("rtl zwei", "rtl 2", '2');
  }

  lemma MissesDasErste1()
    ensures !Contains("das erste", "rtl 2")
    ensures !Contains("das erste", "rtl zwei")
    ensures !Contains("das erste", "ard das erste")
  {
    NotContainsByChar("das erste", "rtl 2", 'l');
    NotContainsByChar("das erste", "rtl zwei", 'l');
    NotContainsLonger("das erste", "ard das erste");
  }

  lemma MissesDasErste2()
    ensures !Contains("das erste", "history channel")
    ensures !Contains("das erste", "n24 docu")
    ensures !Contains("das erste", "n24 doku")
  {
    NotContainsLonger("das erste", "history channel");
    NotContainsByChar("das erste", "n24 docu", 'n');
    NotContainsByChar("das erste", "n24 doku", 'n');
  }

  lemma MissesDasErste3()
    ensures !Contains("das erste", "kabel 1 doku")
    ensures !Contains("das erste", "kabel eins doku")
    ensures !Contains("das erste", "spiegel tv wissen")
  {
    NotContainsLonger("das erste", "kabel 1 doku");
    NotContainsLonger("das erste", "kabel eins doku");
    NotContainsLonger("das erste", "spiegel tv wissen");
  }

  lemma MissesDasErste4()
    ensures !Contains("das erste", "sky nostalgie")
    ensures !Contains("das erste", "sony axn")
    ensures !Contains("das erste", "sony channel")
  {
    NotContainsLonger("das erste", "sky nostalgie");
    NotContainsByChar("das erste", "sony axn", 'o');
    NotContainsLonger("das erste", "sony channel");
  }

  lemma RuleForDasErste()
    ensures CanonicalRule("das erste") == None
  {
    MissesDasErste1();
    MissesDasErste2();
    MissesDasErste3();
    MissesDasErste4();
    assert "das erste"[0] != 'a';
  }

  lemma RuleForDiscoveryChannel()
    ensures CanonicalRule("discovery channel") == Some("Discovery Channel")
  {
    NotContainsByChar("discovery channel", "rtl 2", 't');
    NotContainsByChar("discovery channel", "rtl zwei", 't');
    NotContainsByChar("discovery channel", "ard das erste", 't');
    assert StartsWith("discovery channel", "discovery ");
  }

  lemma MissesHistory1()
    ensures !Contains("history", "rtl 2")
    ensures !Contains("history", "rtl zwei")
    ensures !Contains("history", "ard das erste")
  {
    NotContainsByChar("history", "rtl 2", 'l');
    NotContainsLonger("history", "rtl zwei");
    NotContainsLonger("history", "ard das erste");
  }

  lemma MissesHistory2()
    ensures !Contains("history", "history channel")
    ensures !Contains("history", "n24 docu")
    ensures !Contains("history", "n24 doku")
  {
    NotContainsLonger("history", "history channel");
    NotContainsLonger("history", "n24 docu");
    NotContainsLonger("history", "n24 doku");
  }

  lemma MissesHistory3()
    ensures !Contains("history", "kabel 1 doku")
    ensures !Contains("history", "kabel eins doku")
    ensures !Contains("history", "spiegel tv wissen")
  {
    NotContainsLonger("history", "kabel 1 doku");
    NotContainsLonger("history", "kabel eins doku");
    NotContainsLonger("history", "spiegel tv wissen");
  }

  lemma MissesHistory4()
    ensures !Contains("history", "sky nostalgie")
    ensures !Contains("history", "sony axn")
    ensures !Contains("history", "sony channel")
  {
    NotContainsLonger("history", "sky nostalgie");
    NotContainsLonger("history", "sony axn");
    NotContainsLonger("history", "sony channel");
  }

  lemma RuleForHistory()
    ensures CanonicalRule("history") == None
  {
    MissesHistory1();
    MissesHistory2();
    MissesHistory3();
    MissesHistory4();
    assert "history"[0] != 'a';
  }

  lemma RuleForN24Doku()
    ensures CanonicalRule("n24 doku") == Some("N24 Doku")
  {
    NotContainsByChar("n24 doku", "rtl 2", 'r');
    NotContainsByChar("n24 doku", "rtl zwei", 'r');
    NotContainsLonger("n24 doku", "ard das erste");
    NotContainsLonger("n24 doku", "history channel");
    assert OccursAt("n24 doku", "n24 doku", 0);
    NotContainsByChar("n24 doku", "n24 docu", 'c');
  }

  lemma MissesKabelEinsDoku1()
    ensures !Contains("kabel eins doku", "rtl 2")
    ensures !Contains("kabel eins doku", "rtl zwei")
    ensures !Contains("kabel eins doku", "ard das erste")
  {
    NotContainsByChar("kabel eins doku", "rtl 2", 'r');
    NotContainsByChar("kabel eins doku", "rtl zwei", 'r');
    NotContainsByChar("kabel eins doku", "ard das erste", 'r');
  }

  lemma MissesKabelEinsDoku2()
    ensures !Contains("kabel eins doku", "history channel")
    ensures !Contains("kabel eins doku", "n24 docu")
    ensures !Contains("kabel eins doku", "n24 doku")
  {
    NotContainsByChar("kabel eins doku", "history channel", 'h');
    NotContainsByChar("kabel eins doku", "n24 docu", '2');
    NotContainsByChar("kabel eins doku", "n24 doku", '2');
  }

  lemma MissesKabelEinsDoku3()
    ensures !Contains("kabel eins doku", "kabel 1 doku")
  {
    NotContainsByChar("kabel eins doku", "kabel 1 doku", '1');
  }

  lemma RuleForKabelEinsDoku()
    ensures CanonicalRule("kabel eins doku") == Some("Kabel eins Doku")
  {
    MissesKabelEinsDoku1();
    MissesKabelEinsDoku2();
    MissesKabelEinsDoku3();
    assert "kabel eins doku"[0] != 'd';
    assert OccursAt("kabel eins doku", "kabel eins doku", 0);
  }

  lemma MissesSpiegelGeschichte1()
    ensures !Contains("spiegel geschichte", "rtl 2")
    ensures !Contains("spiegel geschichte", "rtl zwei")
    ensures !Contains("spiegel geschichte", "ard das erste")
  {
    NotContainsByChar("spiegel geschichte", "rtl 2", 'r');
    NotContainsByChar("spiegel geschichte", "rtl zwei", 'r');
    NotContainsByChar("spiegel geschichte", "ard das erste", 'a');
  }

  lemma MissesSpiegelGeschichte2()
    ensures !Contains("spiegel geschichte", "history channel")
    ensures !Contains("spiegel geschichte", "n24 docu")
    ensures !Contains("spiegel geschichte", "n24 doku")
  {
    NotContainsByChar("spiegel geschichte", "history channel", 'o');
    NotContainsByChar("spiegel geschichte", "n24 docu", 'n');
    NotContainsByChar("spiegel geschichte", "n24 doku", 'n');
  }

  lemma MissesSpiegelGeschichte3()
    ensures !Contains("spiegel geschichte", "kabel 1 doku")
    ensures !Contains("spiegel geschichte", "kabel eins doku")
    ensures !Contains("spiegel geschichte", "spiegel tv wissen")
  {
    NotContainsByChar("spiegel geschichte", "kabel 1 doku", 'k');
    NotContainsByChar("spiegel geschichte", "kabel eins doku", 'k');
    NotContainsByChar("spiegel geschichte", "spiegel tv wissen", 'v');
  }

  lemma MissesSpiegelGeschichte4()
    ensures !Contains("spiegel geschichte", "sky nostalgie")
    ensures !Contains("spiegel geschichte", "sony axn")
    ensures !Contains("spiegel geschichte", "sony channel")
  {
    NotContainsByChar("spiegel geschichte", "sky nostalgie", 'k');
    NotContainsByChar("spiegel geschichte", "sony axn", 'o');
    NotContainsByChar("spiegel geschichte", "sony channel", 'o');
  }

  lemma RuleForSpiegelGeschichte()
    ensures CanonicalRule("spiegel geschichte") == None
  {
    MissesSpiegelGeschichte1();
    MissesSpiegelGeschichte2();
    MissesSpiegelGeschichte3();
    MissesSpiegelGeschichte4();
    assert "spiegel geschichte"[0] != 'd';
    assert "spiegel geschichte"[0] != 'a';
  }

  lemma MissesSkyCinemaClassics1()
    ensures !Contains("sky cinema classics", "rtl 2")
    ensures !Contains("sky cinema classics", "rtl zwei")
    ensures !Contains("sky cinema classics", "ard das erste")
  {
    NotContainsByChar("sky cinema classics", "rtl 2", 'r');
    NotContainsByChar("sky cinema classics", "rtl zwei", 'r');
    NotContainsByChar("sky cinema classics", "ard das erste", 'r');
  }

  lemma MissesSkyCinemaClassics2()
    ensures !Contains("sky cinema classics", "history channel")
    ensures !Contains("sky cinema classics", "n24 docu")
    ensures !Contains("sky cinema classics", "n24 doku")
  {
    NotContainsByChar("sky cinema classics", "history channel", 'h');
    NotContainsByChar("sky cinema classics", "n24 docu", '2');
    NotContainsByChar("sky cinema classics", "n24 doku", '2');
  }

  lemma MissesSkyCinemaClassics3()
    ensures !Contains("sky cinema classics", "kabel 1 doku")
    ensures !Contains("sky cinema classics", "kabel eins doku")
  {
    NotContainsByChar("sky cinema classics", "kabel 1 doku", 'b');
    NotContainsByChar("sky cinema classics", "kabel eins doku", 'b');
  }

  lemma MissesSkyCinemaClassics5()
    ensures !Contains("sky cinema classics", "spiegel tv wissen")
  {
    NotContainsByChar("sky cinema classics", "spiegel tv wissen", 'p');
  }

  lemma MissesSkyCinemaClassics4()
    ensures !Contains("sky cinema classics", "sky nostalgie")
    ensures !Contains("sky cinema classics", "sony axn")
    ensures !Contains("sky cinema classics", "sony channel")
  {
    NotContainsByChar("sky cinema classics", "sky nostalgie", 'o');
    NotContainsByChar("sky cinema classics", "sony axn", 'o');
    NotContainsByChar("sky cinema classics", "sony channel", 'o');
  }

  lemma RuleForSkyCinemaClassics()
    ensures CanonicalRule("sky cinema classics") == None
  {
    MissesSkyCinemaClassics1();
    MissesSkyCinemaClassics2();
    MissesSkyCinemaClassics3();
    MissesSkyCinemaClassics4();
    MissesSkyCinemaClassics5();
    assert "sky cinema classics"[0] != 'd';
    assert "sky cinema classics"[0] != 'a';
  }

  lemma MissesAxnBlack1()
    ensures !Contains("axn black", "rtl 2")
    ensures !Contains("axn black", "rtl zwei")
    ensures !Contains("axn black", "ard das erste")
  {
    NotContainsByChar("axn black", "rtl 2", 'r');
    NotContainsByChar("axn black", "rtl zwei", 'r');
    NotContainsLonger("axn black", "ard das erste");
  }

  lemma MissesAxnBlack2()
    ensures !Contains("axn black", "history channel")
    ensures !Contains("axn black", "n24 docu")
    ensures !Contains("axn black", "n24 doku")
  {
    NotContainsLonger("axn black", "history channel");
    NotContainsByChar("axn black", "n24 docu", '2');
    NotContainsByChar("axn black", "n24 doku", '2');
  }

  lemma MissesAxnBlack3()
    ensures !Contains("axn black", "kabel 1 doku")
    ensures !Contains("axn black", "kabel eins doku")
    ensures !Contains("axn black", "spiegel tv wissen")
  {
    NotContainsLonger("axn black", "kabel 1 doku");
    NotContainsLonger("axn black", "kabel eins doku");
    NotContainsLonger("axn black", "spiegel tv wissen");
  }

  lemma MissesAxnBlack4()
    ensures !Contains("axn black", "sky nostalgie")
    ensures !Contains("axn black", "sony axn")
    ensures !Contains("axn black", "sony channel")
  {
    NotContainsLonger("axn black", "sky nostalgie");
    NotContainsByChar("axn black", "sony axn", 's');
    NotContainsLonger("axn black", "sony channel");
  }

  lemma RuleForAxnBlack()
    ensures CanonicalRule("axn black") == Some("AXN White")
  {
    MissesAxnBlack1();
    MissesAxnBlack2();
    MissesAxnBlack3();
    MissesAxnBlack4();
    assert StartsWith("axn black", "axn ");
  }

  lemma MissesAxnWhite1()
    ensures !Contains("axn white", "rtl 2")
    ensures !Contains("axn white", "rtl zwei")
    ensures !Contains("axn white", "ard das erste")
  {
    NotContainsByChar("axn white", "rtl 2", 'r');
    NotContainsByChar("axn white", "rtl zwei", 'r');
    NotContainsLonger("axn white", "ard das erste");
  }

  lemma MissesAxnWhite2()
    ensures !Contains("axn white", "history channel")
    ensures !Contains("axn white", "n24 docu")
    ensures !Contains("axn white", "n24 doku")
  {
    NotContainsLonger("axn white", "history channel");
    NotContainsByChar("axn white", "n24 docu", '2');
    NotContainsByChar("axn white", "n24 doku", '2');
  }

  lemma MissesAxnWhite3()
    ensures !Contains("axn white", "kabel 1 doku")
    ensures !Contains("axn white", "kabel eins doku")
    ensures !Contains("axn white", "spiegel tv wissen")
  {
    NotContainsLonger("axn white", "kabel 1 doku");
    NotContainsLonger("axn white", "kabel eins doku");
    NotContainsLonger("axn white", "spiegel tv wissen");
  }

  lemma MissesAxnWhite4()
    ensures !Contains("axn white", "sky nostalgie")
    ensures !Contains("axn white", "sony axn")
    ensures !Contains("axn white", "sony channel")
  {
    NotContainsLonger("axn white", "sky nostalgie");
    NotContainsByChar("axn white", "sony axn", 's');
    NotContainsLonger("axn white", "sony channel");
  }

  lemma RuleForAxnWhite()
    ensures CanonicalRule("axn white") == Some("AXN White")
  {
    MissesAxnWhite1();
    MissesAxnWhite2();
    MissesAxnWhite3();
    MissesAxnWhite4();
    assert StartsWith("axn white", "axn ");
  }

  /** Canonicalizing depends on the name only after stripping. */
  lemma CanonicalizeOfStripped(name: string)
    ensures Canonicalize(Strip(name)) == Canonicalize(name)
  {
    StripIdempotent(name);
  }

  /** A stripped name whose lower-case form no rule matches, or a rule maps back
      to the name, is left as it is. */
  lemma FixedByRule(name: string, low: string)
    requires Strip(name) == name && Lower(name) == low
    requires CanonicalRule(low) == None || CanonicalRule(low) == Some(name)
    ensures Canonicalize(name) == name
  {
  }

  lemma FixedRtlZwei()
    ensures Canonicalize("RTL ZWEI") == "RTL ZWEI"
  {
    LowerRtlZwei();
    StripStripped("RTL ZWEI");
    RuleForRtlZwei();
    FixedByRule("RTL ZWEI", "rtl zwei");
  }

  lemma LowerSonyAxn()
    ensures Lower("Sony AXN") == "sony axn"
  {
  }

  lemma LowerAxnBlack()
    ensures Lower("AXN Black") == "axn black"
  {
  }

  lemma LowerRtlZwei()
    ensures Lower("RTL ZWEI") == "rtl zwei"
  {
  }

  lemma FixedDasErste()
    ensures Canonicalize("Das Erste") == "Das Erste"
  {
    LowerDasErste();
    StripStripped("Das Erste");
    RuleForDasErste();
    FixedByRule("Das Erste", "das erste");
  }

  lemma LowerDasErste()
    ensures Lower("Das Erste") == "das erste"
  {
  }

  lemma FixedDiscoveryChannel()
    ensures Canonicalize("Discovery Channel") == "Discovery Channel"
  {
    LowerDiscoveryChannel();
    StripStripped("Discovery Channel");
    RuleForDiscoveryChannel();
    FixedByRule("Discovery Channel", "discovery channel");
  }

  lemma LowerDiscoveryChannel()
    ensures Lower("Discovery Channel") == "discovery channel"
  {
  }

  lemma FixedHistory()
    ensures Canonicalize("History") == "History"
  {
    LowerHistory();
    StripStripped("History");
    RuleForHistory();
    FixedByRule("History", "history");
  }

  lemma LowerHistory()
    ensures Lower("History") == "history"
  {
  }

  lemma FixedN24Doku()
    ensures Canonicalize("N24 Doku") == "N24 Doku"
  {
    LowerN24Doku();
    StripStripped("N24 Doku");
    RuleForN24Doku();
    FixedByRule("N24 Doku", "n24 doku");
  }

  lemma LowerN24Doku()
    ensures Lower("N24 Doku") == "n24 doku"
  {
  }

  lemma FixedKabelEinsDoku()
    ensures Canonicalize("Kabel eins Doku") == "Kabel eins Doku"
  {
    LowerKabelEinsDoku();
    StripStripped("Kabel eins Doku");
    RuleForKabelEinsDoku();
    FixedByRule("Kabel eins Doku", "kabel eins doku");
  }

  lemma LowerKabelEinsDoku()
    ensures Lower("Kabel eins Doku") == "kabel eins doku"
  {
  }

  lemma FixedSpiegelGeschichte()
    ensures Canonicalize("Spiegel Geschichte") == "Spiegel Geschichte"
  {
    LowerSpiegelGeschichte();
    StripStripped("Spiegel Geschichte");
    RuleForSpiegelGeschichte();
    FixedByRule("Spiegel Geschichte", "spiegel geschichte");
  }

  lemma LowerSpiegelGeschichte()
    ensures Lower("Spiegel Geschichte") == "spiegel geschichte"
  {
  }

  lemma FixedSkyCinemaClassics()
    ensures Canonicalize("Sky Cinema Classics") == "Sky Cinema Classics"
  {
    LowerSkyCinemaClassics();
    StripStripped("Sky Cinema Classics");
    RuleForSkyCinemaClassics();
    FixedByRule("Sky Cinema Classics", "sky cinema classics");
  }

  lemma LowerSkyCinemaClassics()
    ensures Lower("Sky Cinema Classics") == "sky cinema classics"
  {
  }

  lemma FixedAxnWhite()
    ensures Canonicalize("AXN White") == "AXN White"
  {
    LowerAxnWhite();
    StripStripped("AXN White");
    RuleForAxnWhite();
    FixedByRule("AXN White", "axn white");
  }

  lemma LowerAxnWhite()
    ensures Lower("AXN White") == "axn white"
  {
  }

  /** Every replacement name except "AXN Black" is left as it is by a second pass,
      and so is every name the rules do not touch. */
  lemma CanonicalizeStable(name: string)
    requires Canonicalize(name) != "AXN Black"
    ensures Canonicalize(Canonicalize(name)) == Canonicalize(name)
  {
    var c := Canonicalize(name);
    if c == Strip(name) {
      CanonicalizeOfStripped(name);
    } else {
      if c == "RTL ZWEI" {
        FixedRtlZwei();
      } else if c == "Das Erste" {
        FixedDasErste();
      } else if c == "Discovery Channel" {
        FixedDiscoveryChannel();
      } else if c == "History" {
        FixedHistory();
      } else if c == "N24 Doku" {
        FixedN24Doku();
      } else if c == "Kabel eins Doku" {
        FixedKabelEinsDoku();
      } else if c == "Spiegel Geschichte" {
        FixedSpiegelGeschichte();
      } else if c == "Sky Cinema Classics" {
        FixedSkyCinemaClassics();
      } else {
        assert c == "AXN White";
        FixedAxnWhite();
      }
    }
  }

  /** "Sony AXN" becomes "AXN Black", which a second pass turns into "AXN White":
      the `axn ` prefix rule also catches the name the earlier rule produced. */
  lemma CanonicalizeNotIdempotent()
    ensures Canonicalize("Sony AXN") == "AXN Black"
    ensures Canonicalize(Canonicalize("Sony AXN")) == "AXN White"
  {
    SonyAxnToBlack();
    BlackToWhite();
  }

  lemma SonyAxnToBlack()
    ensures Canonicalize("Sony AXN") == "AXN Black"
  {
    StripStripped("Sony AXN");
    LowerSonyAxn();
    RuleForSonyAxn();
  }

  lemma BlackToWhite()
    ensures Canonicalize("AXN Black") == "AXN White"
  {
    StripStripped("AXN Black");
    LowerAxnBlack();
    RuleForAxnBlack();
  }

  lemma MissesSonyAxn1()
    ensures !Contains("sony axn", "rtl 2")
    ensures !Contains("sony axn", "rtl zwei")
    ensures !Contains("sony axn", "ard das erste")
  {
    NotContainsByChar("sony axn", "rtl 2", 'r');
    NotContainsByChar("sony axn", "rtl zwei", 'r');
    NotContainsLonger("sony axn", "ard das erste");
  }

  lemma MissesSonyAxn2()
    ensures !Contains("sony axn", "history channel")
    ensures !Contains("sony axn", "n24 docu")
    ensures !Contains("sony axn", "n24 doku")
  {
    NotContainsLonger("sony axn", "history channel");
    NotContainsByChar("sony axn", "n24 docu", '2');
    NotContainsByChar("sony axn", "n24 doku", '2');
  }

  lemma MissesSonyAxn3()
    ensures !Contains("sony axn", "kabel 1 doku")
    ensures !Contains("sony axn", "kabel eins doku")
    ensures !Contains("sony axn", "spiegel tv wissen")
  {
    NotContainsLonger("sony axn", "kabel 1 doku");
    NotContainsLonger("sony axn", "kabel eins doku");
    NotContainsLonger("sony axn", "spiegel tv wissen");
  }

  lemma MissesSonyAxn4()
    ensures !Contains("sony axn", "sky nostalgie")
  {
    NotContainsLonger("sony axn", "sky nostalgie");
  }

  lemma RuleForSonyAxn()
    ensures CanonicalRule("sony axn") == Some("AXN Black")
  {
    MissesSonyAxn1();
    MissesSonyAxn2();
    MissesSonyAxn3();
    MissesSonyAxn4();
    assert OccursAt("sony axn", "sony axn", 0);
  }

  // ---------------------------------------------------------------------------
  // `channel_main_key`

  /** A channel name without its trailing number, and that number. */
  datatype MainKey = MainKey(base: string, num: Option<nat>)

  /** The one- or two-digit number at the end of `s`, preceded by a space: the
      position of that space. */
  function TrailingNumberAt(s: string): (r: Option<nat>)
    ensures r.Some? ==>
              r.value + 1 < |s| <= r.value + 3 && s[r.value] == ' ' && AllDigitsFrom(s, r.value + 1)
  {
    if |s| >= 3 && s[|s| - 3] == ' ' && IsDigit(s[|s| - 2]) && IsDigit(s[|s| - 1]) then Some(|s| - 3)
    else if |s| >= 2 && s[|s| - 2] == ' ' && IsDigit(s[|s| - 1]) then Some(|s| - 2)
    else None
  }

  predicate AllDigitsFrom(s: string, i: nat) {
    forall k :: i <= k < |s| ==> IsDigit(s[k])
  }

  /** `channel_main_key`: upper-cased with whitespace runs collapsed, then a
      trailing ` <1 or 2 digits>` is split off as the number
      (`re.search(r"(.*?)(?:\s+(\d{1,2}))$", s)`); both parts are stripped. */
  function ChannelMainKey(name: string): (r: MainKey)
    ensures r.num.Some? ==> r.num.value < 100
    ensures Tidy(r.base)
    ensures forall k :: 0 <= k < |r.base| ==> !IsLower(r.base[k])
  {
    SplitMainKey(Upper(name))
  }

  /** The key of an upper-cased name: spaces collapsed, then a trailing number split off. */
  function SplitMainKey(u: string): (r: MainKey)
    ensures r.num.Some? ==> r.num.value < 100
    ensures Tidy(r.base)
    ensures (forall k :: 0 <= k < |u| ==> !IsLower(u[k])) ==> forall k :: 0 <= k < |r.base| ==> !IsLower(r.base[k])
  {
    var s := CollapseSpaces(u);
    CollapseStripTidy(u);
    CollapseNoLower(u);
    match TrailingNumberAt(s)
    case None => MainKey(Strip(s), None)
    case Some(p) =>
      NumberedKey(u, p);
      MainKey(Strip(s[..p]), Some(DigitsValue(s[p + 1..])))
  }

  /** A trailing number of at most two digits is below 100, and the text before it
      strips to a tidy base. */
  lemma NumberedKey(u: string, p: nat)
    requires TrailingNumberAt(CollapseSpaces(u)) == Some(p)
    ensures p + 1 < |CollapseSpaces(u)|
    ensures DigitsValue(CollapseSpaces(u)[p + 1..]) < 100
    ensures Tidy(Strip(CollapseSpaces(u)[..p]))
  {
    var s := CollapseSpaces(u);
    CollapseStripTidy(u);
    var digits := s[p + 1..];
    assert forall k :: 0 <= k < |digits| ==> digits[k] == s[p + 1 + k];
    DigitsBelow(digits);
    TidyPrefix(s, p);
  }

  /** A name that does not end in a digit has no number, and its key is the
      upper-cased, collapsed and stripped name. */
  lemma MainKeyWithoutNumber(name: string)
    requires name == [] || !IsDigit(name[|name| - 1])
    ensures ChannelMainKey(name) == MainKey(Strip(CollapseSpaces(Upper(name))), None)
  {
    var u := Upper(name);
    if u != [] {
      assert !IsDigit(u[|u| - 1]);
      if !IsSpace(u[|u| - 1]) {
        CollapseLast(u);
      }
    }
  }

  lemma {:induction false} DigitsBelow(s: string)
    requires forall k :: 0 <= k < |s| ==> IsDigit(s[k])
    requires |s| <= 2
    ensures DigitsValue(s) < 100
  {
    if |s| == 2 {
      assert DigitsValue(s[..1]) < 10;
    }
  }

  lemma TidyPrefix(s: string, p: nat)
    requires p <= |s| && Tidy(Strip(s))
    requires forall k :: 0 <= k < |s| && IsSpace(s[k]) ==> s[k] == ' '
    requires forall k :: 0 <= k && k + 1 < |s| ==> !(s[k] == ' ' && s[k + 1] == ' ')
    ensures Tidy(Strip(s[..p]))
  {
    var t := s[..p];
    var r := Strip(t);
    var j := SkipSpaces(t, 0);
    forall k | 0 <= k < |r|
      ensures r[k] == s[j + k]
    {
    }
  }

  lemma {:induction false} CollapseAppendNonSpace(s: string, c: char)
    requires !IsSpace(c)
    ensures CollapseSpaces(s + [c]) == CollapseSpaces(s) + [c]
  {
    assert (s + [c])[..|s|] == s;
  }

  /** Characters other than whitespace appended to a string survive whitespace
      collapsing unchanged. */
  lemma {:induction false} CollapseAppendWord(u: string, w: string)
    requires forall k :: 0 <= k < |w| ==> !IsSpace(w[k])
    ensures CollapseSpaces(u + w) == CollapseSpaces(u) + w
    decreases |w|
  {
    if w != [] {
      var init := w[..|w| - 1];
      var last := w[|w| - 1];
      assert w == init + [last];
      calc {
        CollapseSpaces(u + w);
        { assert u + w == (u + init) + [last]; }
        CollapseSpaces((u + init) + [last]);
        { CollapseAppendNonSpace(u + init, last); }
        CollapseSpaces(u + init) + [last];
        { CollapseAppendWord(u, init); }
        (CollapseSpaces(u) + init) + [last];
        CollapseSpaces(u) + w;
      }
    } else {
      assert u + w == u;
    }
  }

  /** A space followed by one or two digits at the end is found as the trailing number. */
  lemma TrailingNumberFound(c: string, digits: string)
    requires c != [] && c[|c| - 1] == ' '
    requires 1 <= |digits| <= 2 && forall k :: 0 <= k < |digits| ==> IsDigit(digits[k])
    ensures TrailingNumberAt(c + digits) == Some(|c| - 1)
  {
    var s := c + digits;
    assert s[|c| - 1] == ' ';
    if |digits| == 2 {
      assert s[|s| - 2] == digits[0] && s[|s| - 1] == digits[1];
    } else {
      assert s[|s| - 1] == digits[0];
      assert !IsDigit(' ');
    }
  }

  /** `channel_main_key` when the collapsed name ends in a number. */
  lemma ChannelMainKeyAt(name: string, s: string, p: nat)
    requires s == CollapseSpaces(Upper(name)) && TrailingNumberAt(s) == Some(p)
    ensures ChannelMainKey(name) == MainKey(Strip(s[..p]), Some(DigitsValue(s[p + 1..])))
  {
  }

  lemma UpperWithNumber(name: string, digits: string)
    requires forall k :: 0 <= k < |digits| ==> IsDigit(digits[k])
    ensures Upper(name + " " + digits) == Upper(name) + " " + digits
  {
    var a := Upper(name + " " + digits);
    var b := Upper(name) + " " + digits;
    assert |a| == |b|;
    forall k | 0 <= k < |a|
      ensures a[k] == b[k]
    {
      if k < |name| {
      } else if k == |name| {
      } else {
        assert (name + " " + digits)[k] == digits[k - |name| - 1];
      }
    }
  }

  /** A name followed by a space and a number below 100 is split into the name's
      own key and that number. */
  lemma MainKeySplitsNumber(name: string, n: nat)
    requires n < 100
    ensures ChannelMainKey(name + " " + NatToString(n)) == MainKey(Strip(CollapseSpaces(Upper(name))), Some(n))
  {
    var digits := NatToString(n);
    NatToStringShort(n);
    var u := Upper(name) + " ";
    UpperWithNumber(name, digits);
    assert u[..|u| - 1] == Upper(name);
    var c := CollapseSpaces(u);
    assert c != [] && c[|c| - 1] == ' ';
    CollapseAppendWord(u, digits);
    var s := c + digits;
    assert s == CollapseSpaces(Upper(name + " " + digits));
    TrailingNumberFound(c, digits);
    ChannelMainKeyAt(name + " " + digits, s, |c| - 1);
    assert s[|c|..] == digits;
    assert s[..|c| - 1] == c[..|c| - 1];
    BaseBeforeSpace(Upper(name));
    DigitsValueOfNat(n);
  }

  lemma NatToStringShort(n: nat)
    requires n < 100
    ensures 1 <= |NatToString(n)| <= 2
  {
  }

  /** The collapsed text before the separating space strips to the collapsed name. */
  lemma BaseBeforeSpace(u: string)
    ensures var c := CollapseSpaces(u + " ");
      c != [] && Strip(c[..|c| - 1]) == Strip(CollapseSpaces(u))
  {
    var c := CollapseSpaces(u + " ");
    var x := CollapseSpaces(u);
    CollapseAppendSpace(u);
    if u != [] && IsSpace(u[|u| - 1]) {
      StripDropLastSpace(x);
    } else {
      assert c[..|c| - 1] == x;
    }
  }

  lemma StripDropLastSpace(x: string)
    requires x != [] && x[|x| - 1] == ' '
    ensures Strip(x[..|x| - 1]) == Strip(x)
  {
    assert x == x[..|x| - 1] + [' '];
    StripAppendSpace(x[..|x| - 1], ' ');
  }

  lemma CollapseAppendSpace(u: string)
    ensures CollapseSpaces(u + " ") ==
      if u != [] && IsSpace(u[|u| - 1]) then CollapseSpaces(u) else CollapseSpaces(u) + [' ']
  {
    assert (u + " ")[..|u|] == u;
  }

  // ---------------------------------------------------------------------------
  // `remove_plus_unless_timeshift` and `dedup_name_key`

  /** The lookahead `\s*(1|24)\b` holds at `p`. */
  predicate TimeshiftAhead(s: string, p: nat)
    requires p <= |s|
  {
    var q := SkipSpaces(s, p);
    (OccursAt(s, "1", q) && IsBoundary(s, q + 1)) || (OccursAt(s, "24", q) && IsBoundary(s, q + 2))
  }

  function RemovePlusFrom(s: string, p: nat): (r: string)
    requires p <= |s|
    ensures |r| <= |s| - p
    decreases |s| - p
  {
    if p == |s| then []
    else if s[p] == '+' && !TimeshiftAhead(s, p + 1) then RemovePlusFrom(s, p + 1)
    else [s[p]] + RemovePlusFrom(s, p + 1)
  }

  /** `remove_plus_unless_timeshift`: drops every `+` except those of a `+1` or
      `+24` time-shift suffix. */
  function RemovePlusUnlessTimeshift(s: string): string {
    RemovePlusFrom(s, 0)
  }

  /** Exactly the `+` signs that do not start a time shift are removed; every other
      character is kept in order. */
  lemma {:induction false} RemovePlusCounts(s: string, p: nat)
    requires p <= |s|
    ensures |RemovePlusFrom(s, p)| == |s| - p - |DroppedPlus(s, p)|
    ensures forall c :: c != '+' ==> multiset(RemovePlusFrom(s, p))[c] == multiset(s[p..])[c]
    decreases |s| - p
  {
    if p < |s| {
      RemovePlusCounts(s, p + 1);
      assert s[p..] == [s[p]] + s[p + 1..];
      if s[p] == '+' && !TimeshiftAhead(s, p + 1) {
        assert RemovePlusFrom(s, p) == RemovePlusFrom(s, p + 1);
      } else {
        assert RemovePlusFrom(s, p) == [s[p]] + RemovePlusFrom(s, p + 1);
      }
    }
  }

  /** Positions at or after `p` holding a `+` that is removed. */
  function DroppedPlus(s: string, p: nat): (r: seq<nat>)
    requires p <= |s|
    ensures forall k :: k in r ==> p <= k < |s| && s[k] == '+' && !TimeshiftAhead(s, k + 1)
    decreases |s| - p
  {
    if p == |s| then []
    else
      var rest := DroppedPlus(s, p + 1);
      if s[p] == '+' && !TimeshiftAhead(s, p + 1) then [p] + rest else rest
  }

  /** A name with a time-shift `+1` keeps its `+`. */
  lemma TimeshiftKept(a: string)
    requires forall k :: 0 <= k < |a| ==> a[k] != '+'
    ensures RemovePlusUnlessTimeshift(a + "+1") == a + "+1"
  {
    var s := a + "+1";
    assert s[|a|] == '+' && s[|a| + 1] == '1';
    assert SkipSpaces(s, |a| + 1) == |a| + 1;
    assert OccursAt(s, "1", |a| + 1);
    assert TimeshiftAhead(s, |a| + 1);
    RemovePlusKeepsAllButPlus(s, 0);
  }

  lemma {:induction false} RemovePlusKeepsAllButPlus(s: string, p: nat)
    requires p <= |s|
    requires forall k :: p <= k < |s| && s[k] == '+' ==> TimeshiftAhead(s, k + 1)
    ensures RemovePlusFrom(s, p) == s[p..]
    decreases |s| - p
  {
    if p < |s| {
      RemovePlusKeepsAllButPlus(s, p + 1);
      assert s[p..] == [s[p]] + s[p + 1..];
    }
  }

  predicate NotCloseParen(c: char) { c != ')' }
  predicate NotCloseBracket(c: char) { c != ']' }

  /** `\([^)]*\)` */
  const Parenthesised: seq<seq<Elem>> := [[Lit("("), Star(NotCloseParen), Lit(")")]]
  /** `\[[^\]]*\]` */
  const Bracketed: seq<seq<Elem>> := [[Lit("["), Star(NotCloseBracket), Lit("]")]]

  function Nothing(m: string): string { "" }

  /** `dedup_name_key`: time-shift-free `+` dropped, lower-cased, `(...)` and
      `[...]` groups removed, whitespace collapsed and stripped. */
  function DedupNameKey(name: string): (r: string)
    ensures Tidy(r)
    ensures forall k :: 0 <= k < |r| ==> !IsUpper(r[k])
  {
    var n := Lower(RemovePlusUnlessTimeshift(name));
    var n1 := Sub(Parenthesised, Nothing, n);
    var n2 := Sub(Bracketed, Nothing, n1);
    SubKeeps(Parenthesised, Nothing, n, NotUpper);
    SubKeeps(Bracketed, Nothing, n1, NotUpper);
    CollapseStripTidy(n2);
    CollapseStripKeeps(n2, NotUpper);
    Strip(CollapseSpaces(n2))
  }

  predicate NotUpper(c: char) { !IsUpper(c) }

  // ---------------------------------------------------------------------------
  // `norm_key` and `base_name`

  /** `\bKABEL\s*1\b` */
  const KabelOne: seq<seq<Elem>> := [[Boundary, Lit("KABEL"), Star(IsSpace), Lit("1"), Boundary]]
  /** `\bPRO\s*7\b` */
  const ProSeven: seq<seq<Elem>> := [[Boundary, Lit("PRO"), Star(IsSpace), Lit("7"), Boundary]]
  /** `\bS\.\s*SPORT\b` */
  const SDotSport: seq<seq<Elem>> := [[Boundary, Lit("S."), Star(IsSpace), Lit("SPORT"), Boundary]]
  /** `\bS\.\s*` */
  const SDot: seq<seq<Elem>> := [[Boundary, Lit("S."), Star(IsSpace)]]
  /** `\bSKY\s+BUNDESLIGA\b` */
  const SkyBundesliga: seq<seq<Elem>> := [[Boundary, Lit("SKY"), Plus(IsSpace), Lit("BUNDESLIGA"), Boundary]]

  predicate IsRegionSuffixChar(c: char) { c == 'S' || c == 'B' || c == ' ' || c == 'C' }
  /** `\s*\.[SB C]$` */
  const RegionSuffix: seq<seq<Elem>> := [[Star(IsSpace), Lit("."), One(IsRegionSuffixChar), AtEnd]]

  /** `(?:4K|UHD|FHD|HD\+?|SD|HEVC|H\.?265|H\.?264|AVC|ʜᴅ)` */
  const QualityTags: seq<seq<Elem>> := [
    [Lit("4K")], [Lit("UHD")], [Lit("FHD")], [Lit("HD"), Opt('+')], [Lit("SD")], [Lit("HEVC")],
    [Lit("H"), Opt('.'), Lit("265")], [Lit("H"), Opt('.'), Lit("264")], [Lit("AVC")],
    [Lit("\U{29c}\U{1d05}")]]

  /** `\s+\d+\s*$` */
  const TrailingNumber: seq<seq<Elem>> := [[Plus(IsSpace), Plus(IsDigit), Star(IsSpace), AtEnd]]

  function Const(text: string): string -> string {
    _ => text
  }

  /** The rewrites `norm_key` and `base_name` share, after upper-casing. */
  function ExpandAbbreviations(n: string): string {
    Sub(SkyBundesliga, Const("SKY SPORT BUNDESLIGA"),
      Sub(SDot, Const("SKY "),
        Sub(ProSeven, Const("PROSIEBEN"),
          Sub(KabelOne, Const("KABEL EINS"), n))))
  }

  function Unqualified(n: string): string {
    Sub(QualityTags, Nothing, Sub(RegionSuffix, Nothing, n))
  }

  /** `norm_key`: the matching key of a channel name, lower-case letters and digits only. */
  function NormKey(name: string): (r: string)
    ensures forall k :: 0 <= k < |r| ==> IsAlnumLower(r[k])
  {
    var n := Unqualified(ExpandAbbreviations(Upper(name)));
    var n1 := Sub(Parenthesised, Nothing, n);
    Lower(KeepChars(n1, IsAlnumUpper))
  }

  /** The key ignores letter case. */
  lemma NormKeyIgnoresCase(name: string)
    ensures NormKey(Lower(name)) == NormKey(name)
  {
    assert Upper(Lower(name)) == Upper(name);
  }

  predicate IsBaseChar(c: char) { IsAlnumUpper(c) || c == ' ' }

  function BlankOut(c: char): string {
    if IsBaseChar(c) then [c] else " "
  }

  /** The rewrites of `base_name` before characters outside `[A-Z0-9 ]` become spaces. */
  function BaseRewrites(n: string): string {
    var n1 := Sub(SkyBundesliga, Const("SKY SPORT BUNDESLIGA"),
      Sub(SDot, Const("SKY "),
        Sub(SDotSport, Const("SKY SPORT"),
          Sub(ProSeven, Const("PROSIEBEN"),
            Sub(KabelOne, Const("KABEL EINS"), n)))));
    Sub(Parenthesised, Nothing, Sub(Bracketed, Nothing, Unqualified(n1)))
  }

  /** The last steps of `base_name`: trailing number dropped, whitespace collapsed and stripped. */
  function BaseTail(n: string): (r: string)
    requires forall k :: 0 <= k < |n| ==> IsBaseChar(n[k])
    ensures Tidy(r)
    ensures forall k :: 0 <= k < |r| ==> IsBaseChar(r[k])
  {
    var n1 := Sub(TrailingNumber, Nothing, n);
    SubKeeps(TrailingNumber, Nothing, n, IsBaseChar);
    CollapseStripTidy(n1);
    CollapseStripKeeps(n1, IsBaseChar);
    Strip(CollapseSpaces(n1))
  }

  /** `base_name`: the name without qualifiers, brackets and trailing number, in
      capitals and digits separated by single spaces. */
  function BaseName(name: string): (r: string)
    ensures Tidy(r)
    ensures forall k :: 0 <= k < |r| ==> IsBaseChar(r[k])
  {
    BaseTail(BlankedOut(BaseRewrites(Upper(name))))
  }

  /** `re.sub(r"[^A-Z0-9 ]", " ", n)`. */
  function BlankedOut(n: string): (r: string)
    ensures forall k :: 0 <= k < |r| ==> IsBaseChar(r[k])
  {
    MapCharsKeeps(n, BlankOut, IsBaseChar);
    MapChars(n, BlankOut)
  }

  // ---------------------------------------------------------------------------
  // `canon`

  predicate IsSportSeparator(c: char) { c == '.' || c == '-' || IsSpace(c) }
  predicate NotAlnumLower(c: char) { !IsAlnumLower(c) }

  /** `(^|[^a-z0-9])s[\.\-\s]+sport([^a-z0-9]|$)`, its alternatives in the order
      Python tries them. */
  const SSport: seq<seq<Elem>> := [
    [AtStart, Lit("s"), Plus(IsSportSeparator), Lit("sport"), One(NotAlnumLower)],
    [AtStart, Lit("s"), Plus(IsSportSeparator), Lit("sport"), AtEnd],
    [One(NotAlnumLower), Lit("s"), Plus(IsSportSeparator), Lit("sport"), One(NotAlnumLower)],
    [One(NotAlnumLower), Lit("s"), Plus(IsSportSeparator), Lit("sport"), AtEnd]]

  /** The replacement `\1skysport\2`: the match starts with `s` exactly when group 1
      is empty and ends with `t` exactly when group 2 is empty. */
  function SkySport(m: string): string {
    (if m != [] && m[0] != 's' then [m[0]] else [])
    + "skysport"
    + (if m != [] && m[|m| - 1] != 't' then [m[|m| - 1]] else [])
  }

  predicate IsSignChar(c: char) { c == '+' || c == '-' }
  /** `\s*[+-]\s*\d*` */
  const SignedOffset: seq<seq<Elem>> := [[Star(IsSpace), One(IsSignChar), Star(IsSpace), Star(IsDigit)]]
  /** `(hd|uhd|4k)$` */
  const QualityEnd: seq<seq<Elem>> := [[Lit("hd"), AtEnd], [Lit("uhd"), AtEnd], [Lit("4k"), AtEnd]]

  function AmpersandToAnd(c: char): string {
    if c == '&' then "and" else [c]
  }

  /** `canon`: the key logos are looked up by, lower-case letters and digits only. */
  function Canon(name: string): (r: string)
    ensures forall k :: 0 <= k < |r| ==> IsAlnumLower(r[k])
  {
    var s := Sub(SSport, SkySport, Lower(name));
    var s1 := Sub(QualityEnd, Nothing, Sub(SignedOffset, Nothing, s));
    KeepChars(MapChars(s1, AmpersandToAnd), IsAlnumLower)
  }

  /** `(hd|uhd|4k)$` matches only at the end of a key ending in one of them. */
  lemma QualityEndNoMatch(s: string)
    requires forall k :: 0 <= k < |s| ==> IsAlnumLower(s[k])
    requires !EndsWith(s, "hd") && !EndsWith(s, "4k")
    ensures forall p :: 0 <= p <= |s| ==> MatchAt(QualityEnd, s, p).None?
  {
    forall p | 0 <= p <= |s|
      ensures MatchAt(QualityEnd, s, p).None?
    {
      if MatchAt(QualityEnd, s, p).Some? {
        var i :| 0 <= i < |QualityEnd| && MatchElems(QualityEnd[i], s, p) == MatchAt(QualityEnd, s, p);
        QualityAltNoMatch(s, p, i);
      }
    }
  }

  lemma QualityAltNoMatch(s: string, p: nat, i: nat)
    requires p <= |s| && i < |QualityEnd|
    requires forall k :: 0 <= k < |s| ==> IsAlnumLower(s[k])
    requires !EndsWith(s, "hd") && !EndsWith(s, "4k")
    ensures MatchElems(QualityEnd[i], s, p).None?
  {
    if MatchElems(QualityEnd[i], s, p).Some? {
      LitAtEndMatch(s, p, QualityEnd[i]);
      if i == 1 {
        UhdEndsHd(s);
      }
      assert false;
    }
  }

  lemma UhdEndsHd(s: string)
    requires EndsWith(s, "uhd")
    ensures EndsWith(s, "hd")
  {
    assert s[|s| - 2..] == s[|s| - 3..][1..];
  }

  lemma LitAtEndMatch(s: string, p: nat, pat: seq<Elem>)
    requires p <= |s| && |pat| == 2 && pat[0].Lit? && pat[1].AtEnd?
    requires forall k :: 0 <= k < |s| ==> IsAlnumLower(s[k])
    requires MatchElems(pat, s, p).Some?
    ensures EndsWith(s, pat[0].text)
  {
    var t := pat[0].text;
    assert OccursAt(s, t, p);
    var rest := pat[1..];
    assert rest[0].AtEnd?;
    assert MatchElems(rest, s, p + |t|).Some?;
    assert IsEnd(s, p + |t|);
  }

  /** `canon` leaves a key that is already in its form (lower-case letters and
      digits, no trailing quality tag) as it is. */
  lemma CanonOfKey(s: string)
    requires forall k :: 0 <= k < |s| ==> IsAlnumLower(s[k])
    requires !EndsWith(s, "hd") && !EndsWith(s, "4k")
    ensures Canon(s) == s
  {
    assert Lower(s) == s;
    forall i | 0 <= i < |SSport|
      ensures ConsumesOne(SSport[i], NotAlnumLower)
    {
      assert SSport[i][2].Plus?;
    }
    NoMatchWithout(SSport, s, NotAlnumLower);
    SubNoMatch(SSport, SkySport, s);
    assert SignedOffset[0][1].One?;
    NoMatchWithout(SignedOffset, s, NotAlnumLower);
    SubNoMatch(SignedOffset, Nothing, s);
    QualityEndNoMatch(s);
    SubNoMatch(QualityEnd, Nothing, s);
    MapCharsIdentity(s, AmpersandToAnd);
    KeepCharsAll(s, IsAlnumLower);
  }

  // ---------------------------------------------------------------------------
  // `build_tvg_id` and `map_value`

  /** The part of a German tvg-id before `.de`: the name's letters and digits,
      lower-cased, each as often as in the name and nothing else. */
  function TvgStem(name: string): (r: string)
    ensures forall k :: 0 <= k < |r| ==> IsAlnumLower(r[k])
    ensures forall c :: IsAlnumLower(c) ==> multiset(r)[c] == multiset(Lower(name))[c]
  {
    KeepCharsCounts(Lower(name), IsAlnumLower);
    KeepChars(Lower(name), IsAlnumLower)
  }

  /** The stem keeps the order of the name's characters: the stem of a
      concatenation is the concatenation of the stems. */
  lemma TvgStemAppend(a: string, b: string)
    ensures TvgStem(a + b) == TvgStem(a) + TvgStem(b)
  {
    assert Lower(a + b) == Lower(a) + Lower(b);
    KeepCharsAppend(Lower(a), Lower(b), IsAlnumLower);
  }

  /** A single character contributes itself, lower-cased, exactly when it is a
      letter or a digit. */
  lemma TvgStemOfChar(c: char)
    ensures TvgStem([c]) == if IsAlnumLower(LowerChar(c)) then [LowerChar(c)] else []
  {
    assert Lower([c]) == [LowerChar(c)];
    assert Lower([c])[..0] == [];
  }

  /** `build_tvg_id`: for Germany the lower-cased letters and digits of the name
      followed by `.de`; for every other region the name itself. */
  function BuildTvgId(name: string, region: string): (r: string)
    ensures Upper(region) != "DE" ==> r == name
    ensures Upper(region) == "DE" ==>
              EndsWith(r, ".de") && forall k :: 0 <= k < |r| - 3 ==> IsAlnumLower(r[k])
    ensures Upper(region) == "DE" ==>
              forall c :: IsAlnumLower(c) ==> multiset(r[..|r| - 3])[c] == multiset(Lower(name))[c]
    ensures Upper(region) == "DE" ==> r[..|r| - 3] == TvgStem(name)
  {
    if Upper(region) != "DE" then name
    else
      var p := TvgStem(name);
      assert (p + ".de")[..|p|] == p;
      p + ".de"
  }

  /** For Germany the id depends only on the name's letters and digits, whatever
      their case. */
  lemma TvgIdIgnoresCase(name: string, region: string)
    requires Upper(region) == "DE"
    ensures BuildTvgId(Upper(name), region) == BuildTvgId(name, region)
  {
    assert Lower(Upper(name)) == Lower(name);
  }

  /** `map_value`: the mapping's entry for the stripped, lower-cased value, or the
      value itself when there is none. An empty value is returned as it is. */
  function MapValue(mapping: map<string, string>, value: string): (r: string)
    ensures value == [] ==> r == []
    ensures value != [] && Lower(Strip(value)) in mapping ==> r == mapping[Lower(Strip(value))]
    ensures value != [] && Lower(Strip(value)) !in mapping ==> r == value
  {
    if value == [] then value
    else
      var key := Lower(Strip(value));
      if key in mapping then mapping[key] else value
  }

  /** Values that differ only in case and surrounding whitespace map alike when the
      mapping knows them. */
  lemma MapValueNormalises(mapping: map<string, string>, a: string, b: string)
    requires a != [] && b != []
    requires Lower(Strip(a)) == Lower(Strip(b)) && Lower(Strip(a)) in mapping
    ensures MapValue(mapping, a) == MapValue(mapping, b)
  {
  }
}
