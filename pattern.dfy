/** A small matcher for the regular expressions the name normalisers use.

    A pattern is a list of alternatives, each a sequence of elements, tried in
    order at a position (Python's leftmost-first alternation). Repetition is
    greedy and never gives characters back. That coincides with Python's
    backtracking matcher for every pattern written with it in this project,
    because each repeated class or optional character is followed by an element
    that cannot match what the repetition consumed (a literal outside the class,
    a word boundary after a maximal digit run, or nothing at all).

    `Sub` is `re.sub` for patterns that never match the empty string; the
    replacement is a function of the matched text so that `\1`-style group
    references can be written out. */
module Pattern {
  import opened Text

  datatype Elem =
    | Lit(text: string)            // the literal text
    | Opt(c: char)                 // `c?`
    | One(cls: char -> bool)       // one character of the class
    | Star(cls: char -> bool)      // `[cls]*`, maximal
    | Plus(cls: char -> bool)      // `[cls]+`, maximal
    | Boundary                     // `\b`
    | AtStart                      // `^`
    | AtEnd                        // `$`

  /** `\b` at position `p`: exactly one side of `p` is a word character. */
  predicate IsBoundary(s: string, p: nat)
    requires p <= |s|
  {
    (p > 0 && IsWordChar(s[p - 1])) != (p < |s| && IsWordChar(s[p]))
  }

  /** `$` without MULTILINE: the end of the string, or just before a final line break. */
  predicate IsEnd(s: string, p: nat) {
    p == |s| || (p + 1 == |s| && s[p] == '\n')
  }

  /** End of the maximal run of class characters starting at `p`. */
  function RunEnd(s: string, cls: char -> bool, p: nat): (e: nat)
    requires p <= |s|
    ensures p <= e <= |s|
    ensures forall k :: p <= k < e ==> cls(s[k])
    ensures e < |s| ==> !cls(s[e])
    decreases |s| - p
  {
    if p < |s| && cls(s[p]) then RunEnd(s, cls, p + 1) else p
  }

  /** End of the match of the element sequence `pat` starting at `p`, if it matches. */
  function MatchElems(pat: seq<Elem>, s: string, p: nat): (r: Option<nat>)
    requires p <= |s|
    ensures r.Some? ==> p <= r.value <= |s|
    decreases |pat|
  {
    if pat == [] then Some(p)
    else
      match pat[0]
      case Lit(t) => if OccursAt(s, t, p) then MatchElems(pat[1..], s, p + |t|) else None
      case Opt(c) => if p < |s| && s[p] == c then MatchElems(pat[1..], s, p + 1) else MatchElems(pat[1..], s, p)
      case One(cls) => if p < |s| && cls(s[p]) then MatchElems(pat[1..], s, p + 1) else None
      case Star(cls) => MatchElems(pat[1..], s, RunEnd(s, cls, p))
      case Plus(cls) =>
        var e := RunEnd(s, cls, p);
        if e > p then MatchElems(pat[1..], s, e) else None
      case Boundary => if IsBoundary(s, p) then MatchElems(pat[1..], s, p) else None
      case AtStart => if p == 0 then MatchElems(pat[1..], s, p) else None
      case AtEnd => if IsEnd(s, p) then MatchElems(pat[1..], s, p) else None
  }

  /** End of the match of the first alternative that matches at `p`. */
  function MatchAt(alts: seq<seq<Elem>>, s: string, p: nat): (r: Option<nat>)
    requires p <= |s|
    ensures r.Some? ==> p <= r.value <= |s|
    ensures r.Some? ==> exists i :: 0 <= i < |alts| && MatchElems(alts[i], s, p) == r
    ensures r.None? ==> forall i :: 0 <= i < |alts| ==> MatchElems(alts[i], s, p).None?
    decreases |alts|
  {
    if alts == [] then None
    else
      var first := MatchElems(alts[0], s, p);
      if first.Some? then first
      else
        var rest := MatchAt(alts[1..], s, p);
        assert forall i :: 1 <= i < |alts| ==> alts[i] == alts[1..][i - 1];
        rest
  }

  /** `re.match`: the pattern matches at the start. */
  predicate MatchesStart(alts: seq<seq<Elem>>, s: string) {
    MatchAt(alts, s, 0).Some?
  }

  /** `re.search`: the pattern matches somewhere. */
  predicate Search(alts: seq<seq<Elem>>, s: string) {
    exists p: nat :: p <= |s| && MatchAt(alts, s, p).Some?
  }

  /** A non-empty match of the pattern starts at `p`. */
  predicate MatchesNonEmpty(alts: seq<seq<Elem>>, s: string, p: nat)
    requires p <= |s|
  {
    MatchAt(alts, s, p).Some? && MatchAt(alts, s, p).value > p
  }

  /** `re.sub(pattern, repl, s[p:])`, matching against the whole of `s` so that `\b`
      and `^` see the characters before `p`. */
  function SubFrom(alts: seq<seq<Elem>>, repl: string -> string, s: string, p: nat): string
    requires p <= |s|
    decreases |s| - p
  {
    if MatchesNonEmpty(alts, s, p) then
      var e := MatchAt(alts, s, p).value;
      repl(s[p..e]) + SubFrom(alts, repl, s, e)
    else if p == |s| then ""
    else [s[p]] + SubFrom(alts, repl, s, p + 1)
  }

  /** `re.sub(pattern, repl, s)` */
  function Sub(alts: seq<seq<Elem>>, repl: string -> string, s: string): string {
    SubFrom(alts, repl, s, 0)
  }

  /** Where the pattern never matches, substitution changes nothing. */
  lemma {:induction false} SubFromNoMatch(alts: seq<seq<Elem>>, repl: string -> string, s: string, p: nat)
    requires p <= |s|
    requires forall q :: p <= q <= |s| ==> !MatchesNonEmpty(alts, s, q)
    ensures SubFrom(alts, repl, s, p) == s[p..]
    decreases |s| - p
  {
    if p < |s| {
      SubFromNoMatch(alts, repl, s, p + 1);
      assert s[p..] == [s[p]] + s[p + 1..];
    }
  }

  lemma SubNoMatch(alts: seq<seq<Elem>>, repl: string -> string, s: string)
    requires forall q :: 0 <= q <= |s| ==> !MatchesNonEmpty(alts, s, q)
    ensures Sub(alts, repl, s) == s
  {
    SubFromNoMatch(alts, repl, s, 0);
  }

  /** A property of characters that holds of the input and of every replacement
      holds of the output. */
  lemma {:induction false} SubFromKeeps(alts: seq<seq<Elem>>, repl: string -> string, s: string, p: nat, ok: char -> bool)
    requires p <= |s|
    requires forall k :: p <= k < |s| ==> ok(s[k])
    requires forall m: string, k :: 0 <= k < |repl(m)| ==> ok(repl(m)[k])
    ensures forall k :: 0 <= k < |SubFrom(alts, repl, s, p)| ==> ok(SubFrom(alts, repl, s, p)[k])
    decreases |s| - p
  {
    if MatchesNonEmpty(alts, s, p) {
      SubFromKeeps(alts, repl, s, MatchAt(alts, s, p).value, ok);
    } else if p < |s| {
      SubFromKeeps(alts, repl, s, p + 1, ok);
    }
  }

  lemma SubKeeps(alts: seq<seq<Elem>>, repl: string -> string, s: string, ok: char -> bool)
    requires forall k :: 0 <= k < |s| ==> ok(s[k])
    requires forall m: string, k :: 0 <= k < |repl(m)| ==> ok(repl(m)[k])
    ensures forall k :: 0 <= k < |Sub(alts, repl, s)| ==> ok(Sub(alts, repl, s)[k])
  {
    SubFromKeeps(alts, repl, s, 0, ok);
  }

  /** Deleting every match never lengthens the text. */
  lemma {:induction false} SubFromDeleteShorter(alts: seq<seq<Elem>>, s: string, p: nat)
    requires p <= |s|
    ensures |SubFrom(alts, _ => "", s, p)| <= |s| - p
    decreases |s| - p
  {
    if MatchesNonEmpty(alts, s, p) {
      SubFromDeleteShorter(alts, s, MatchAt(alts, s, p).value);
    } else if p < |s| {
      SubFromDeleteShorter(alts, s, p + 1);
    }
  }

  /** Every match of `pat` consumes a character satisfying `need`: some element
      takes one character from a class inside `need`. */
  predicate ConsumesOne(pat: seq<Elem>, need: char -> bool) {
    exists i :: 0 <= i < |pat| && (pat[i].One? || pat[i].Plus?) && forall c :: pat[i].cls(c) ==> need(c)
  }

  lemma {:induction false} MatchConsumes(pat: seq<Elem>, s: string, p: nat, need: char -> bool)
    requires p <= |s| && ConsumesOne(pat, need)
    requires MatchElems(pat, s, p).Some?
    ensures exists k :: p <= k < MatchElems(pat, s, p).value && need(s[k])
    decreases |pat|
  {
    var i :| 0 <= i < |pat| && (pat[i].One? || pat[i].Plus?) && forall c :: pat[i].cls(c) ==> need(c);
    MatchSplit(pat, s, p);
    if i == 0 {
      assert need(s[p]);
      assert p < MatchElems(pat, s, p).value;
    } else {
      assert pat[1..][i - 1] == pat[i];
      MatchConsumes(pat[1..], s, Step(pat[0], s, p).value, need);
    }
  }

  /** Where the first element of a pattern leaves the match, if it matches at all. */
  function Step(e: Elem, s: string, p: nat): (r: Option<nat>)
    requires p <= |s|
    ensures r.Some? ==> p <= r.value <= |s|
  {
    match e
    case Lit(t) => if OccursAt(s, t, p) then Some(p + |t|) else None
    case Opt(c) => if p < |s| && s[p] == c then Some(p + 1) else Some(p)
    case One(cls) => if p < |s| && cls(s[p]) then Some(p + 1) else None
    case Star(cls) => Some(RunEnd(s, cls, p))
    case Plus(cls) =>
      var e := RunEnd(s, cls, p);
      if e > p then Some(e) else None
    case Boundary => if IsBoundary(s, p) then Some(p) else None
    case AtStart => if p == 0 then Some(p) else None
    case AtEnd => if IsEnd(s, p) then Some(p) else None
  }

  /** A match is the first element's step followed by the match of the rest. */
  lemma MatchSplit(pat: seq<Elem>, s: string, p: nat)
    requires p <= |s| && pat != []
    ensures MatchElems(pat, s, p) == match Step(pat[0], s, p)
                                     case None => None
                                     case Some(q) => MatchElems(pat[1..], s, q)
  {
    match pat[0]
    case Lit(t) =>
    case Opt(c) =>
    case One(cls) =>
    case Star(cls) =>
    case Plus(cls) =>
    case Boundary =>
    case AtStart =>
    case AtEnd =>
  }


  /** A pattern each of whose alternatives needs a `need` character matches nowhere
      in a text without one. */
  lemma NoMatchWithout(alts: seq<seq<Elem>>, s: string, need: char -> bool)
    requires forall i :: 0 <= i < |alts| ==> ConsumesOne(alts[i], need)
    requires forall k :: 0 <= k < |s| ==> !need(s[k])
    ensures forall p :: 0 <= p <= |s| ==> MatchAt(alts, s, p).None?
  {
    forall p | 0 <= p <= |s|
      ensures MatchAt(alts, s, p).None?
    {
      if MatchAt(alts, s, p).Some? {
        var i :| 0 <= i < |alts| && MatchElems(alts[i], s, p) == MatchAt(alts, s, p);
        MatchConsumes(alts[i], s, p, need);
      }
    }
  }

  /** The characters of `s` that satisfy `keep`, in order (`re.sub(r"[^...]", "", s)`). */
  function KeepChars(s: string, keep: char -> bool): (r: string)
    ensures |r| <= |s|
    ensures forall k :: 0 <= k < |r| ==> keep(r[k])
    decreases |s|
  {
    if s == [] then []
    else KeepChars(s[..|s| - 1], keep) + (if keep(s[|s| - 1]) then [s[|s| - 1]] else [])
  }

  lemma {:induction false} KeepCharsAll(s: string, keep: char -> bool)
    requires forall k :: 0 <= k < |s| ==> keep(s[k])
    ensures KeepChars(s, keep) == s
    decreases |s|
  {
    if s != [] {
      KeepCharsAll(s[..|s| - 1], keep);
      assert s == s[..|s| - 1] + [s[|s| - 1]];
    }
  }

  /** Each kept character occurs as often as in `s`; no other character occurs. */
  lemma {:induction false} KeepCharsCounts(s: string, keep: char -> bool)
    ensures forall c :: multiset(KeepChars(s, keep))[c] == if keep(c) then multiset(s)[c] else 0
    decreases |s|
  {
    if s != [] {
      var init := s[..|s| - 1];
      var x := s[|s| - 1];
      KeepCharsCounts(init, keep);
      assert s == init + [x];
    }
  }

  /** Filtering characters works piece by piece. */
  lemma {:induction false} KeepCharsAppend(a: string, b: string, keep: char -> bool)
    ensures KeepChars(a + b, keep) == KeepChars(a, keep) + KeepChars(b, keep)
    decreases |b|
  {
    if b == [] {
      assert a + b == a;
    } else {
      assert (a + b)[..|a + b| - 1] == a + b[..|b| - 1];
      KeepCharsAppend(a, b[..|b| - 1], keep);
    }
  }

  /** Every character of `s` replaced by `f` of it (`re.sub(r"[^...]", " ", s)`, `str.replace`). */
  function MapChars(s: string, f: char -> string): (r: string)
    decreases |s|
  {
    if s == [] then [] else MapChars(s[..|s| - 1], f) + f(s[|s| - 1])
  }

  lemma {:induction false} MapCharsIdentity(s: string, f: char -> string)
    requires forall k :: 0 <= k < |s| ==> f(s[k]) == [s[k]]
    ensures MapChars(s, f) == s
    decreases |s|
  {
    if s != [] {
      MapCharsIdentity(s[..|s| - 1], f);
      assert s == s[..|s| - 1] + [s[|s| - 1]];
    }
  }

  lemma {:induction false} MapCharsKeeps(s: string, f: char -> string, ok: char -> bool)
    requires forall c, k :: 0 <= k < |f(c)| ==> ok(f(c)[k])
    ensures forall k :: 0 <= k < |MapChars(s, f)| ==> ok(MapChars(s, f)[k])
    decreases |s|
  {
    if s != [] {
      MapCharsKeeps(s[..|s| - 1], f, ok);
      var a, b := MapChars(s[..|s| - 1], f), f(s[|s| - 1]);
      assert forall k :: |a| <= k < |a + b| ==> (a + b)[k] == b[k - |a|];
    }
  }
}
