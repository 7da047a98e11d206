/** HLS master playlists: the attributes of `#EXT-X-STREAM-INF` lines, the two
    scans that turn such a playlist into stream variants, and the rank that orders
    variants by preference (vavoo/vavoo2.py). The playlist arrives already split
    into lines; `urljoin` and the float conversion of `FRAME-RATE` are parameters. */
module Variants {
  import opened Text
  import opened Pattern
  import opened Ranking

  /** One stream of a master playlist. */
  datatype Variant = Variant(url: string, height: int, fps: int, bandwidth: int)

  /** Height and frame rate in order of preference; every other pair comes last. */
  const Preferred: seq<(int, int)> := [(1080, 50), (720, 50), (1080, 25), (720, 25)]

  /** `variant_rank`: 0 is best. */
  function VariantRank(height: int, fps: int): (r: nat)
    ensures r <= 4
    ensures r < 4 ==> Preferred[r] == (height, fps)
    ensures r == 4 <==> (height, fps) !in Preferred
  {
    if height == 1080 && fps == 50 then 0
    else if height == 720 && fps == 50 then 1
    else if height == 1080 && fps == 25 then 2
    else if height == 720 && fps == 25 then 3
    else 4
  }

  /** A pair has the rank of its position in the preference list. */
  lemma RankIsPosition(k: nat)
    requires k < |Preferred|
    ensures VariantRank(Preferred[k].0, Preferred[k].1) == k
  {
  }

  function Rank(v: Variant): nat {
    VariantRank(v.height, v.fps)
  }

  /** The ranks `variant_rank` can return, in increasing order. */
  const VariantRanks: seq<nat> := [0, 1, 2, 3, 4]

  // ---------------------------------------------------------------------------
  // Integers as Python's `int(str)` reads them

  /** `int(s)`: surrounding whitespace, an optional sign, then decimal digits. */
  function ParseInt(s: string): (r: Option<int>)
    ensures r.Some? ==> Strip(s) != []
  {
    var t := Strip(s);
    if t == [] then None
    else
      var negative := t[0] == '-';
      var digits := if t[0] == '-' || t[0] == '+' then t[1..] else t;
      if AllDigits(digits) then
        var v: int := DigitsValue(digits);
        Some(if negative then -v else v)
      else None
  }

  /** `int(str(n)) == n` */
  lemma ParseIntOfNat(n: nat)
    ensures ParseInt(NatToString(n)) == Some(n)
  {
    var s := NatToString(n);
    StripStripped(s);
    DigitsValueOfNat(n);
  }

  // ---------------------------------------------------------------------------
  // Attributes: `dict(re.findall(r'([A-Z\-]+)=([^,]+)', line))`

  predicate IsAttrNameChar(c: char) { IsUpper(c) || c == '-' }
  predicate IsAttrValueChar(c: char) { c != ',' }

  /** The `(name, value)` pairs `findall` returns, scanning from `p`. */
  function AttrsFrom(s: string, p: nat): (r: seq<(string, string)>)
    requires p <= |s|
    ensures forall k :: 0 <= k < |r| ==> r[k].0 != [] && r[k].1 != [] && ',' !in r[k].1
    ensures forall k :: 0 <= k < |r| ==> forall c :: c in r[k].0 ==> IsAttrNameChar(c)
    decreases |s| - p
  {
    if p == |s| then []
    else
      var k := RunEnd(s, IsAttrNameChar, p);
      if k > p && k + 1 < |s| && s[k] == '=' && IsAttrValueChar(s[k + 1]) then
        var v := RunEnd(s, IsAttrValueChar, k + 1);
        [(s[p..k], s[k + 1..v])] + AttrsFrom(s, v)
      else AttrsFrom(s, p + 1)
  }

  function Attrs(line: string): seq<(string, string)> {
    AttrsFrom(line, 0)
  }

  /** `dict(pairs).get(key)`: a later pair overwrites an earlier one. */
  function Lookup(pairs: seq<(string, string)>, key: string): Option<string>
    decreases |pairs|
  {
    if pairs == [] then None
    else if pairs[|pairs| - 1].0 == key then Some(pairs[|pairs| - 1].1)
    else Lookup(pairs[..|pairs| - 1], key)
  }

  /** The lookup finds a key exactly when some pair has it, and then returns the value
      of the last such pair. */
  lemma {:induction false} LookupIsLast(pairs: seq<(string, string)>, key: string)
    ensures var r := Lookup(pairs, key);
            (r.None? <==> forall k :: 0 <= k < |pairs| ==> pairs[k].0 != key) &&
            (r.Some? ==> exists k :: (0 <= k < |pairs| && pairs[k] == (key, r.value)
               && forall j :: k < j < |pairs| ==> pairs[j].0 != key))
    decreases |pairs|
  {
    if pairs != [] && pairs[|pairs| - 1].0 != key {
      var init := pairs[..|pairs| - 1];
      LookupIsLast(init, key);
      assert forall k :: 0 <= k < |init| ==> pairs[k] == init[k];
      LookupPast(pairs, key, Lookup(init, key));
    }
  }

  /** A last pair with another name leaves the lookup over the earlier pairs unchanged. */
  lemma LookupPast(pairs: seq<(string, string)>, key: string, r: Option<string>)
    requires |pairs| > 0 && pairs[|pairs| - 1].0 != key
    requires r.None? <==> forall k :: 0 <= k < |pairs| - 1 ==> pairs[k].0 != key
    requires r.Some? ==> exists k :: (0 <= k < |pairs| - 1 && pairs[k] == (key, r.value)
      && forall j :: k < j < |pairs| - 1 ==> pairs[j].0 != key)
    ensures r.None? <==> forall k :: 0 <= k < |pairs| ==> pairs[k].0 != key
    ensures r.Some? ==> exists k :: (0 <= k < |pairs| && pairs[k] == (key, r.value)
      && forall j :: k < j < |pairs| ==> pairs[j].0 != key)
  {
  }

  /** `_, h = map(int, res.split("x"))`: exactly two integer pieces, the second one is the height. */
  function ResolutionHeight(res: string): (r: Option<int>)
    ensures r.Some? ==> |SplitOn(res, 'x')| == 2 && ParseInt(SplitOn(res, 'x')[1]) == r
  {
    var parts := SplitOn(res, 'x');
    if |parts| == 2 && ParseInt(parts[0]).Some? && ParseInt(parts[1]).Some? then ParseInt(parts[1])
    else None
  }

  lemma ResolutionHeightOf(w: nat, h: nat)
    ensures ResolutionHeight(NatToString(w) + "x" + NatToString(h)) == Some(h)
  {
    var a, b := NatToString(w), NatToString(h);
    assert 'x' !in a && 'x' !in b;
    SplitOnPair(a, 'x', b);
    ParseIntOfNat(w);
    ParseIntOfNat(h);
  }

  function OrElse(o: Option<string>, d: string): string {
    if o.Some? then o.value else d
  }

  const StreamInfTag: string := "#EXT-X-STREAM-INF"

  predicate IsStreamInf(line: string) {
    StartsWith(line, StreamInfTag)
  }

  /** Parameters standing for library code: `urljoin(base, ref)` and `int(float(s))`. */
  datatype Env = Env(join: (string, string) -> string, truncFloat: string -> Option<int>)

  // ---------------------------------------------------------------------------
  // `parse_master_variants`: every failure raises

  /** The variant of the `#EXT-X-STREAM-INF` line at `i`, whose URI is the next line. */
  function MasterEntry(lines: seq<string>, i: nat, baseUrl: string, env: Env): (r: Result<Variant>)
    requires i < |lines|
    ensures i + 1 == |lines| ==> r.Failure?
    ensures r.Success? ==> r.value.url == env.join(baseUrl, Strip(lines[i + 1]))
  {
    if i + 1 >= |lines| then Failure("IndexError: no URI line after the stream entry")
    else
      var attrs := Attrs(lines[i]);
      var uri := Strip(lines[i + 1]);
      match ResolutionHeight(OrElse(Lookup(attrs, "RESOLUTION"), "0x0"))
      case None => Failure("ValueError: RESOLUTION")
      case Some(h) =>
        var fps := match Lookup(attrs, "FRAME-RATE")
          case None => Some(0)
          case Some(f) => env.truncFloat(f);
        if fps.None? then Failure("ValueError: FRAME-RATE")
        else
          var bw := match Lookup(attrs, "BANDWIDTH")
            case None => Some(0)
            case Some(b) => ParseInt(b);
          if bw.None? then Failure("ValueError: BANDWIDTH")
          else Success(Variant(env.join(baseUrl, uri), h, fps.value, bw.value))
  }

  /** The result of scanning the first `n` lines. */
  function MasterVariants(lines: seq<string>, n: nat, baseUrl: string, env: Env): Result<seq<Variant>>
    requires n <= |lines|
  {
    if n == 0 then Success([])
    else
      match MasterVariants(lines, n - 1, baseUrl, env)
      case Failure(e) => Failure(e)
      case Success(vs) =>
        if !IsStreamInf(lines[n - 1]) then Success(vs)
        else
          match MasterEntry(lines, n - 1, baseUrl, env)
          case Failure(e) => Failure(e)
          case Success(v) => Success(vs + [v])
  }

  /** Positions of the `#EXT-X-STREAM-INF` lines among the first `n`. */
  function StreamInfIndices(lines: seq<string>, n: nat): (r: seq<nat>)
    requires n <= |lines|
    ensures forall k :: 0 <= k < |r| ==> r[k] < n && IsStreamInf(lines[r[k]])
    ensures forall i :: 0 <= i < n && IsStreamInf(lines[i]) ==> i in r
  {
    if n == 0 then []
    else StreamInfIndices(lines, n - 1) + if IsStreamInf(lines[n - 1]) then [n - 1] else []
  }

  /** `parse_master_variants` */
  method ParseMasterVariants(lines: seq<string>, baseUrl: string, env: Env) returns (r: Result<seq<Variant>>)
    ensures r == MasterVariants(lines, |lines|, baseUrl, env)
  {
    var variants: seq<Variant> := [];
    var i := 0;
    while i < |lines|
      invariant i <= |lines|
      invariant MasterVariants(lines, i, baseUrl, env) == Success(variants)
    {
      MasterStep(lines, i, baseUrl, env, variants);
      if IsStreamInf(lines[i]) {
        var e := MasterEntry(lines, i, baseUrl, env);
        if e.Failure? {
          MasterFailureSticks(lines, i + 1, |lines|, baseUrl, env);
          return Failure(e.error);
        }
        variants := variants + [e.value];
      }
      i := i + 1;
    }
    return Success(variants);
  }

  /** One more line of the scan. */
  lemma MasterStep(lines: seq<string>, i: nat, baseUrl: string, env: Env, vs: seq<Variant>)
    requires i < |lines| && MasterVariants(lines, i, baseUrl, env) == Success(vs)
    ensures !IsStreamInf(lines[i]) ==> MasterVariants(lines, i + 1, baseUrl, env) == Success(vs)
    ensures IsStreamInf(lines[i]) ==>
      var e := MasterEntry(lines, i, baseUrl, env);
      MasterVariants(lines, i + 1, baseUrl, env) == if e.Failure? then Failure(e.error) else Success(vs + [e.value])
  {
  }

  /** Once a line fails, the whole scan fails with that error. */
  lemma {:induction false} MasterFailureSticks(lines: seq<string>, m: nat, n: nat, baseUrl: string, env: Env)
    requires m <= n <= |lines|
    requires MasterVariants(lines, m, baseUrl, env).Failure?
    ensures MasterVariants(lines, n, baseUrl, env) == MasterVariants(lines, m, baseUrl, env)
    decreases n - m
  {
    if m < n {
      MasterFailureSticks(lines, m, n - 1, baseUrl, env);
    }
  }

  /** The scan succeeds exactly when every stream entry parses. */
  lemma {:induction false} MasterSucceeds(lines: seq<string>, n: nat, baseUrl: string, env: Env)
    requires n <= |lines|
    ensures MasterVariants(lines, n, baseUrl, env).Success? <==>
      forall i :: 0 <= i < n && IsStreamInf(lines[i]) ==> MasterEntry(lines, i, baseUrl, env).Success?
    decreases n
  {
    if n > 0 {
      MasterSucceeds(lines, n - 1, baseUrl, env);
    }
  }

  /** On success the variants are the entries of the stream lines, one each, in order. */
  lemma {:induction false} MasterVariantsAreEntries(lines: seq<string>, n: nat, baseUrl: string, env: Env)
    requires n <= |lines|
    requires MasterVariants(lines, n, baseUrl, env).Success?
    ensures |MasterVariants(lines, n, baseUrl, env).value| == |StreamInfIndices(lines, n)|
    ensures forall k :: 0 <= k < |StreamInfIndices(lines, n)| ==>
      MasterEntry(lines, StreamInfIndices(lines, n)[k], baseUrl, env) == Success(MasterVariants(lines, n, baseUrl, env).value[k])
    decreases n
  {
    if n > 0 {
      var prev := MasterVariants(lines, n - 1, baseUrl, env);
      assert prev.Success?;
      MasterVariantsAreEntries(lines, n - 1, baseUrl, env);
      var idx := StreamInfIndices(lines, n - 1);
      if IsStreamInf(lines[n - 1]) {
        assert StreamInfIndices(lines, n) == idx + [n - 1];
        var e := MasterEntry(lines, n - 1, baseUrl, env);
        assert MasterVariants(lines, n, baseUrl, env) == Success(prev.value + [e.value]);
      } else {
        assert StreamInfIndices(lines, n) == idx;
      }
    }
  }

  /** A stream entry on the last line makes the whole scan fail. */
  lemma TrailingStreamInfFails(lines: seq<string>, baseUrl: string, env: Env)
    requires lines != [] && IsStreamInf(lines[|lines| - 1])
    ensures MasterVariants(lines, |lines|, baseUrl, env).Failure?
  {
    MasterSucceeds(lines, |lines|, baseUrl, env);
  }

  // ---------------------------------------------------------------------------
  // `select_best_variant`: entries without a URI are skipped, unreadable
  // resolutions and frame rates count as 0

  /** `master_url.rsplit("/", 1)[0] + "/"` */
  function BaseOf(u: string): (r: string)
    ensures EndsWith(r, "/")
    ensures '/' !in u ==> r == u + "/"
    ensures '/' in u ==> |r| <= |u| && r == u[..|r|] && '/' !in u[|r|..]
    decreases |u|
  {
    if u == [] then "/"
    else if u[|u| - 1] == '/' then u
    else if '/' in u[..|u| - 1] then BaseOf(u[..|u| - 1])
    else u + "/"
  }

  /** The variant of the stream line at `i`: `None` when it is skipped. */
  function LenientEntry(lines: seq<string>, i: nat, base: string, env: Env): (r: Result<Option<Variant>>)
    requires i < |lines|
    ensures r.Success? && r.value.Some? ==>
      i + 1 < |lines| && Strip(lines[i + 1]) != [] && r.value.value.url == env.join(base, Strip(lines[i + 1]))
    ensures (i + 1 == |lines| || Strip(lines[i + 1]) == []) ==> r == Success(None)
  {
    if i + 1 >= |lines| || Strip(lines[i + 1]) == [] then Success(None)
    else
      match LenientVariant(Attrs(lines[i]), env.join(base, Strip(lines[i + 1])), env)
      case Failure(e) => Failure(e)
      case Success(v) => Success(Some(v))
  }

  /** The variant at `url` with the attributes `attrs`: an unreadable resolution or
      frame rate counts as 0, an unreadable bandwidth is an error. */
  function LenientVariant(attrs: seq<(string, string)>, url: string, env: Env): (r: Result<Variant>)
    ensures r.Success? ==> r.value.url == url
    ensures r.Failure? <==> Lookup(attrs, "BANDWIDTH").Some? && ParseInt(Lookup(attrs, "BANDWIDTH").value).None?
  {
    var h := match ResolutionHeight(OrElse(Lookup(attrs, "RESOLUTION"), "0x0"))
      case None => 0
      case Some(h) => h;
    var fps := match Lookup(attrs, "FRAME-RATE")
      case None => 0
      case Some(f) => match env.truncFloat(f) case None => 0 case Some(x) => x;
    var bw := match Lookup(attrs, "BANDWIDTH")
      case None => Some(0)
      case Some(b) => ParseInt(b);
    if bw.None? then Failure("ValueError: BANDWIDTH")
    else Success(Variant(url, h, fps, bw.value))
  }

  /** The variants collected from the first `n` lines. */
  function CollectVariants(lines: seq<string>, n: nat, base: string, env: Env): Result<seq<Variant>>
    requires n <= |lines|
  {
    if n == 0 then Success([])
    else
      match CollectVariants(lines, n - 1, base, env)
      case Failure(e) => Failure(e)
      case Success(vs) =>
        if !IsStreamInf(lines[n - 1]) then Success(vs)
        else
          match LenientEntry(lines, n - 1, base, env)
          case Failure(e) => Failure(e)
          case Success(None) => Success(vs)
          case Success(Some(v)) => Success(vs + [v])
  }

  lemma CollectStep(lines: seq<string>, i: nat, base: string, env: Env, vs: seq<Variant>)
    requires i < |lines| && CollectVariants(lines, i, base, env) == Success(vs)
    ensures !IsStreamInf(lines[i]) ==> CollectVariants(lines, i + 1, base, env) == Success(vs)
    ensures IsStreamInf(lines[i]) ==>
              CollectVariants(lines, i + 1, base, env) ==
              match LenientEntry(lines, i, base, env)
              case Failure(e) => Failure(e)
              case Success(None) => Success(vs)
              case Success(Some(v)) => Success(vs + [v])
  {
  }

  lemma {:induction false} CollectFailureSticks(lines: seq<string>, m: nat, n: nat, base: string, env: Env)
    requires m <= n <= |lines|
    requires CollectVariants(lines, m, base, env).Failure?
    ensures CollectVariants(lines, n, base, env) == CollectVariants(lines, m, base, env)
    decreases n - m
  {
    if m < n {
      CollectFailureSticks(lines, m, n - 1, base, env);
    }
  }

  /** Only an unreadable bandwidth can make the lenient scan fail. */
  lemma {:induction false} CollectFailsOnlyOnBandwidth(lines: seq<string>, n: nat, base: string, env: Env)
    requires n <= |lines|
    requires CollectVariants(lines, n, base, env).Failure?
    ensures exists i :: (0 <= i < n && IsStreamInf(lines[i]) && i + 1 < |lines|
      && Lookup(Attrs(lines[i]), "BANDWIDTH").Some? && ParseInt(Lookup(Attrs(lines[i]), "BANDWIDTH").value).None?)
    decreases n
  {
    if CollectVariants(lines, n - 1, base, env).Failure? {
      CollectFailsOnlyOnBandwidth(lines, n - 1, base, env);
    }
  }

  /** Every collected variant comes from a stream line with a non-empty next line. */
  lemma {:induction false} CollectedHaveUri(lines: seq<string>, n: nat, base: string, env: Env)
    requires n <= |lines|
    requires CollectVariants(lines, n, base, env).Success?
    ensures forall v :: v in CollectVariants(lines, n, base, env).value ==>
      exists i :: 0 <= i < n && IsStreamInf(lines[i]) && i + 1 < |lines| && Strip(lines[i + 1]) != []
        && v.url == env.join(base, Strip(lines[i + 1]))
    decreases n
  {
    if n > 0 {
      CollectedHaveUri(lines, n - 1, base, env);
    }
  }

  /** `best` is what a stable sort by rank puts first: a variant of least rank,
      and the earliest one of that rank. */
  predicate IsBest(best: Variant, vs: seq<Variant>) {
    best in vs && (forall v :: v in vs ==> Rank(best) <= Rank(v))
    && RankClass(vs, Rank, Rank(best)) != [] && RankClass(vs, Rank, Rank(best))[0] == best
  }

  /** The scan loop of `select_best_variant`. */
  method ScanVariants(lines: seq<string>, base: string, env: Env) returns (r: Result<seq<Variant>>)
    ensures r == CollectVariants(lines, |lines|, base, env)
  {
    var variants: seq<Variant> := [];
    var i := 0;
    while i < |lines|
      invariant i <= |lines|
      invariant CollectVariants(lines, i, base, env) == Success(variants)
    {
      CollectStep(lines, i, base, env, variants);
      if IsStreamInf(lines[i]) {
        var e := LenientEntry(lines, i, base, env);
        if e.Failure? {
          CollectFailureSticks(lines, i + 1, |lines|, base, env);
          return Failure(e.error);
        }
        if e.value.Some? {
          variants := variants + [e.value.value];
        }
      }
      i := i + 1;
    }
    return Success(variants);
  }

  /** The variant `select_best_variant` returns after fetching the playlist at
      `masterUrl`: `Success(None)` stands for falling back to `ffprobe`. */
  method SelectBestVariant(lines: seq<string>, masterUrl: string, env: Env) returns (r: Result<Option<Variant>>)
    ensures r.Failure? <==> CollectVariants(lines, |lines|, BaseOf(masterUrl), env).Failure?
    ensures r.Success? ==> (r.value.None? <==> CollectVariants(lines, |lines|, BaseOf(masterUrl), env).value == [])
    ensures r.Success? && r.value.Some? ==> IsBest(r.value.value, CollectVariants(lines, |lines|, BaseOf(masterUrl), env).value)
  {
    var scanned := ScanVariants(lines, BaseOf(masterUrl), env);
    if scanned.Failure? {
      return Failure(scanned.error);
    }
    var variants := scanned.value;
    if variants == [] {
      return Success(None);
    }
    var sorted := SortByRanks(variants, Rank, VariantRanks);
    SortHead(variants, Rank, VariantRanks);
    return Success(Some(sorted[0]));
  }
}
