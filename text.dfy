/** The string primitives the playlist code relies on (Python's `str` methods),
    stated over `seq<char>`. Case mapping, digits and word characters are ASCII
    only; whitespace is the full set Python's `str.isspace` accepts. */
module Text {

  /** Python's `str.isspace` (and so `\s`, `strip()` and `split()`). */
  predicate IsSpace(c: char) {
    c == ' ' || ('\t' <= c <= '\r') || ('\U{1c}' <= c <= '\U{1f}') || c == '\U{85}' || c == '\U{a0}'
    || c == '\U{1680}' || ('\U{2000}' <= c <= '\U{200a}') || c == '\U{2028}' || c == '\U{2029}'
    || c == '\U{202f}' || c == '\U{205f}' || c == '\U{3000}'
  }

  predicate IsDigit(c: char) { '0' <= c <= '9' }
  predicate IsUpper(c: char) { 'A' <= c <= 'Z' }
  predicate IsLower(c: char) { 'a' <= c <= 'z' }
  predicate IsAlnumUpper(c: char) { IsUpper(c) || IsDigit(c) }
  predicate IsAlnumLower(c: char) { IsLower(c) || IsDigit(c) }

  /** `\w`: letters, digits and the underscore. */
  predicate IsWordChar(c: char) { IsUpper(c) || IsLower(c) || IsDigit(c) || c == '_' }

  function LowerChar(c: char): (r: char)
    ensures !IsUpper(r)
    ensures IsUpper(c) ==> IsLower(r) && r as int == c as int + 32
    ensures !IsUpper(c) ==> r == c
  {
    if IsUpper(c) then (c as int + 32) as char else c
  }

  function UpperChar(c: char): (r: char)
    ensures !IsLower(r)
    ensures IsLower(c) ==> IsUpper(r) && r as int == c as int - 32
    ensures !IsLower(c) ==> r == c
  {
    if IsLower(c) then (c as int - 32) as char else c
  }

  /** `s.lower()` */
  function Lower(s: string): (r: string)
    ensures |r| == |s|
    ensures forall i :: 0 <= i < |s| ==> r[i] == LowerChar(s[i])
  {
    seq(|s|, i requires 0 <= i < |s| => LowerChar(s[i]))
  }

  /** `s.upper()` */
  function Upper(s: string): (r: string)
    ensures |r| == |s|
    ensures forall i :: 0 <= i < |s| ==> r[i] == UpperChar(s[i])
  {
    seq(|s|, i requires 0 <= i < |s| => UpperChar(s[i]))
  }

  lemma LowerIdempotent(s: string)
    ensures Lower(Lower(s)) == Lower(s)
  {
  }

  /** Index of the first character that is not whitespace, scanning from `i`. */
  function SkipSpaces(s: string, i: nat): (j: nat)
    requires i <= |s|
    ensures i <= j <= |s|
    ensures forall k :: i <= k < j ==> IsSpace(s[k])
    ensures j < |s| ==> !IsSpace(s[j])
    decreases |s| - i
  {
    if i < |s| && IsSpace(s[i]) then SkipSpaces(s, i + 1) else i
  }

  /** `s.lstrip()` */
  function LStrip(s: string): (r: string)
    ensures r == s[SkipSpaces(s, 0)..]
    ensures r != [] ==> !IsSpace(r[0])
  {
    s[SkipSpaces(s, 0)..]
  }

  /** `s.rstrip()` */
  function RStrip(s: string): (r: string)
    ensures |r| <= |s| && r == s[..|r|]
    ensures forall k :: |r| <= k < |s| ==> IsSpace(s[k])
    ensures r != [] ==> !IsSpace(r[|r| - 1])
  {
    if s != [] && IsSpace(s[|s| - 1]) then RStrip(s[..|s| - 1]) else s
  }

  /** `s.strip()` */
  function Strip(s: string): (r: string)
    ensures r != [] ==> !IsSpace(r[0]) && !IsSpace(r[|r| - 1])
    ensures |r| <= |s|
    ensures SkipSpaces(s, 0) + |r| <= |s| && r == s[SkipSpaces(s, 0)..SkipSpaces(s, 0) + |r|]
  {
    RStrip(LStrip(s))
  }

  /** Stripping a string whose ends are not whitespace changes nothing. */
  lemma {:induction false} StripStripped(s: string)
    requires s != [] ==> !IsSpace(s[0]) && !IsSpace(s[|s| - 1])
    ensures Strip(s) == s
  {
    assert SkipSpaces(s, 0) == 0;
    assert LStrip(s) == s;
  }

  lemma StripIdempotent(s: string)
    ensures Strip(Strip(s)) == Strip(s)
  {
    StripStripped(Strip(s));
  }

  /** The stripped string is empty exactly when `s` is all whitespace. */
  lemma {:induction false} StripEmpty(s: string)
    ensures Strip(s) == [] <==> forall k :: 0 <= k < |s| ==> IsSpace(s[k])
  {
    var j := SkipSpaces(s, 0);
    if j < |s| {
      assert !IsSpace(s[j]);
      RStripKeeps(s[j..]);
    }
  }

  lemma {:induction false} RStripKeeps(s: string)
    requires s != [] && !IsSpace(s[0])
    ensures RStrip(s) != []
    decreases |s|
  {
    if IsSpace(s[|s| - 1]) {
      assert |s| > 1;
      RStripKeeps(s[..|s| - 1]);
    }
  }

  lemma UpperOfUpper(s: string)
    ensures Upper(Upper(s)) == Upper(s)
  {
  }

  /** `re.sub(r"\s+", " ", s)`: every run of whitespace becomes one space. */
  function CollapseSpaces(s: string): (r: string)
    ensures |r| <= |s|
    ensures r == [] <==> s == []
    ensures s != [] ==> (r[|r| - 1] == ' ' <==> IsSpace(s[|s| - 1]))
    ensures forall k :: 0 <= k < |r| ==> r[k] == ' ' || !IsSpace(r[k])
    ensures forall k :: 0 <= k && k + 1 < |r| ==> !(r[k] == ' ' && r[k + 1] == ' ')
    decreases |s|
  {
    if s == [] then []
    else
      var init := CollapseSpaces(s[..|s| - 1]);
      var c := s[|s| - 1];
      if !IsSpace(c) then init + [c]
      else if |s| > 1 && IsSpace(s[|s| - 2]) then init
      else
        assert init != [] ==> s[..|s| - 1][|s| - 2] == s[|s| - 2] && init[|init| - 1] != ' ';
        init + [' ']
  }

  /** Collapsing whitespace adds no lower-case letter. */
  lemma {:induction false} CollapseNoLower(s: string)
    ensures (forall k :: 0 <= k < |s| ==> !IsLower(s[k])) ==>
              forall k :: 0 <= k < |CollapseSpaces(s)| ==> !IsLower(CollapseSpaces(s)[k])
    decreases |s|
  {
    if s != [] {
      CollapseNoLower(s[..|s| - 1]);
    }
  }

  /** A last character that is not whitespace stays last. */
  lemma CollapseLast(s: string)
    requires s != [] && !IsSpace(s[|s| - 1])
    ensures CollapseSpaces(s)[|CollapseSpaces(s)| - 1] == s[|s| - 1]
  {
  }

  /** No whitespace at either end, and single spaces between words. */
  predicate Tidy(s: string) {
    (s != [] ==> !IsSpace(s[0]) && !IsSpace(s[|s| - 1]))
    && (forall k :: 0 <= k < |s| && IsSpace(s[k]) ==> s[k] == ' ')
    && (forall k :: 0 <= k && k + 1 < |s| ==> !(s[k] == ' ' && s[k + 1] == ' '))
  }

  /** `re.sub(r"\s+", " ", s).strip()` leaves a tidy string. */
  lemma CollapseStripTidy(s: string)
    ensures Tidy(Strip(CollapseSpaces(s)))
  {
    var c := CollapseSpaces(s);
    var r := Strip(c);
    var j := SkipSpaces(c, 0);
    forall k | 0 <= k < |r|
      ensures r[k] == c[j + k]
    {
    }
  }

  lemma {:induction false} SkipSpacesAppend(s: string, c: char, i: nat)
    requires i <= |s| && IsSpace(c)
    ensures SkipSpaces(s + [c], i) == if SkipSpaces(s, i) < |s| then SkipSpaces(s, i) else |s| + 1
    decreases |s| - i
  {
    if i < |s| && IsSpace(s[i]) {
      SkipSpacesAppend(s, c, i + 1);
    }
  }

  /** Whitespace appended to a string is stripped away again. */
  lemma StripAppendSpace(s: string, c: char)
    requires IsSpace(c)
    ensures Strip(s + [c]) == Strip(s)
  {
    SkipSpacesAppend(s, c, 0);
    var j := SkipSpaces(s, 0);
    if j < |s| {
      assert LStrip(s + [c]) == LStrip(s) + [c];
      assert (LStrip(s) + [c])[..|LStrip(s)|] == LStrip(s);
    } else {
      assert LStrip(s) == [];
    }
  }

  /** A character property that holds of every character of `s` and of the space
      holds of every character of `s` with its whitespace collapsed and stripped. */
  /** Collapsing keeps a character property that holds of the input and of ' '. */
  lemma {:induction false} CollapseKeeps(s: string, ok: char -> bool)
    requires ok(' ')
    requires forall k :: 0 <= k < |s| ==> ok(s[k])
    ensures forall k :: 0 <= k < |CollapseSpaces(s)| ==> ok(CollapseSpaces(s)[k])
    decreases |s|
  {
    if s != [] {
      CollapseKeeps(s[..|s| - 1], ok);
    }
  }

  lemma CollapseStripKeeps(s: string, ok: char -> bool)
    requires ok(' ')
    requires forall k :: 0 <= k < |s| ==> ok(s[k])
    ensures forall k :: 0 <= k < |Strip(CollapseSpaces(s))| ==> ok(Strip(CollapseSpaces(s))[k])
  {
    CollapseKeeps(s, ok);
    var c := CollapseSpaces(s);
    var r := Strip(c);
    var j := SkipSpaces(c, 0);
    forall k | 0 <= k < |r|
      ensures ok(r[k])
    {
      assert r[k] == c[j + k];
    }
  }

  /** `prefix` occurs at position `i` of `s`. */
  predicate OccursAt(s: string, sub: string, i: nat) {
    i + |sub| <= |s| && s[i..i + |sub|] == sub
  }

  /** `sub in s` */
  predicate Contains(s: string, sub: string) {
    exists i: nat :: i + |sub| <= |s| && OccursAt(s, sub, i)
  }

  /** `s.startswith(prefix)` */
  predicate StartsWith(s: string, prefix: string) {
    |prefix| <= |s| && s[..|prefix|] == prefix
  }

  /** `s.endswith(suffix)` */
  predicate EndsWith(s: string, suffix: string) {
    |suffix| <= |s| && s[|s| - |suffix|..] == suffix
  }

  lemma StartsWithContains(s: string, prefix: string)
    requires StartsWith(s, prefix)
    ensures Contains(s, prefix)
  {
    assert OccursAt(s, prefix, 0);
  }

  /** Index of the first occurrence of `c` in `s`, if any. */
  function IndexOf(s: string, c: char): (r: Option<nat>)
    ensures r.Some? ==> r.value < |s| && s[r.value] == c && c !in s[..r.value]
    ensures r.None? ==> c !in s
  {
    if s == [] then None
    else if s[0] == c then Some(0)
    else match IndexOf(s[1..], c)
      case None => None
      case Some(k) => Some(k + 1)
  }

  /** `s.split(c, 1)` when `c in s`: the text before the first `c` and the text after it. */
  function SplitFirst(s: string, c: char): (r: Option<(string, string)>)
    ensures r.None? <==> c !in s
    ensures r.Some? ==> c !in r.value.0 && s == r.value.0 + [c] + r.value.1
  {
    match IndexOf(s, c)
    case None => None
    case Some(k) => Some((s[..k], s[k + 1..]))
  }

  /** `sep.join(parts)` */
  function Join(sep: string, parts: seq<string>): string {
    if |parts| == 0 then ""
    else if |parts| == 1 then parts[0]
    else parts[0] + sep + Join(sep, parts[1..])
  }

  /** `s.split(c)`: the pieces between the occurrences of `c`. */
  function SplitOn(s: string, c: char): (r: seq<string>)
    ensures |r| >= 1
    ensures forall k :: 0 <= k < |r| ==> c !in r[k]
    decreases |s|
  {
    match SplitFirst(s, c)
    case None => [s]
    case Some((a, b)) => [a] + SplitOn(b, c)
  }

  lemma {:induction false} IndexOfAfter(a: string, c: char, b: string)
    requires c !in a
    ensures IndexOf(a + [c] + b, c) == Some(|a|)
    decreases |a|
  {
    if a != [] {
      IndexOfAfter(a[1..], c, b);
      assert (a + [c] + b)[1..] == a[1..] + [c] + b;
    }
  }

  /** Two pieces free of the separator split back apart. */
  lemma SplitOnPair(a: string, c: char, b: string)
    requires c !in a && c !in b
    ensures SplitOn(a + [c] + b, c) == [a, b]
  {
    IndexOfAfter(a, c, b);
    var s := a + [c] + b;
    assert s[..|a|] == a && s[|a| + 1..] == b;
  }

  /** Joining the pieces with the separator gives back the string. */
  lemma {:induction false} JoinSplitOn(s: string, c: char)
    ensures Join([c], SplitOn(s, c)) == s
    decreases |s|
  {
    match SplitFirst(s, c)
    case None =>
    case Some((a, b)) =>
      JoinSplitOn(b, c);
      var rest := SplitOn(b, c);
      assert ([a] + rest)[1..] == rest;
  }

  /** Decimal rendering of a natural number (Python's `str(n)` for `n >= 0`). */
  function NatToString(n: nat): (r: string)
    ensures r != [] && forall k :: 0 <= k < |r| ==> IsDigit(r[k])
    decreases n
  {
    var d := ['0' + (n % 10) as char];
    if n < 10 then d else NatToString(n / 10) + d
  }

  function DigitValue(c: char): (d: nat)
    requires IsDigit(c)
    ensures d < 10
  {
    c as int - '0' as int
  }

  /** Value of a string of decimal digits. */
  function DigitsValue(s: string): (n: nat)
    requires forall k :: 0 <= k < |s| ==> IsDigit(s[k])
    decreases |s|
  {
    if s == [] then 0 else DigitsValue(s[..|s| - 1]) * 10 + DigitValue(s[|s| - 1])
  }

  predicate AllDigits(s: string) {
    s != [] && forall k :: 0 <= k < |s| ==> IsDigit(s[k])
  }

  lemma {:induction false} DigitsValueOfNat(n: nat)
    ensures DigitsValue(NatToString(n)) == n
    decreases n
  {
    if n >= 10 {
      DigitsValueOfNat(n / 10);
      var s := NatToString(n);
      assert s[..|s| - 1] == NatToString(n / 10);
    }
  }

  datatype Option<+T> = None | Some(value: T)

  /** The outcome of a step that raises an exception in the source. */
  datatype Result<+T> = Success(value: T) | Failure(error: string)
}
