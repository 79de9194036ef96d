/**
 * The pure decisions of the report-driven tracking agent: the ticker and company
 * name read from a report's file name, the price fields of a trading scenario
 * turned into numbers, the default scenario, the sector-concentration test and
 * the rule ladder that decides whether a holding is sold.
 */
module TrackingRules {
  import opened Wrappers
  import opened Text
  import opened Format
  import opened PyValue
  import opened ReSub

  // ---------------------------------------------------------------------------
  // Ticker and company name from a report path
  // ---------------------------------------------------------------------------

  /** The path without the slashes it ends with. */
  function DropTrailingSlashes(p: string): (r: string)
    ensures |r| <= |p| && r == p[..|r|]
    ensures |r| > 0 ==> r[|r| - 1] != '/'
  {
    if |p| > 0 && p[|p| - 1] == '/' then DropTrailingSlashes(p[..|p| - 1]) else p
  }

  /** The last component of a '/'-separated path, as `Path(p).name`. */
  function BaseName(path: string): (r: string)
    ensures '/' !in r
  {
    var p := DropTrailingSlashes(path);
    match LastIndexOf(p, '/')
    case None => p
    case Some(i) => p[i + 1..]
  }

  /** `Path(p).stem`: the name without its last suffix; a name whose only dot is its first or last character keeps it. */
  function Stem(path: string): (r: string)
    ensures '/' !in r
  {
    var name := BaseName(path);
    match LastIndexOf(name, '.')
    case Some(i) => if 0 < i < |name| - 1 then name[..i] else name
    case None => name
  }

  /** End of the run of characters satisfying `p` that starts at `i`. */
  function RunEnd(s: string, i: nat, p: char -> bool): (k: nat)
    requires i <= |s|
    ensures i <= k <= |s|
    ensures k < |s| ==> !p(s[k])
    decreases |s| - i
  {
    if i == |s| || !p(s[i]) then i else RunEnd(s, i + 1, p)
  }

  /** Every character of the run satisfies `p`. */
  lemma {:induction false} RunEndSpan(s: string, i: nat, p: char -> bool)
    requires i <= |s|
    ensures forall j :: i <= j < RunEnd(s, i, p) ==> p(s[j])
    decreases |s| - i
  {
    if i < |s| && p(s[i]) { RunEndSpan(s, i + 1, p); }
  }

  predicate NotUnderscore(c: char) { c != '_' }

  /** `re.match(r'^([A-Za-z0-9]+)_([^_]+)', stem)`, giving its two groups. */
  function TickerPattern(stem: string): (r: Option<(string, string)>)
    ensures r.Some? ==> var (t, n) := r.value;
      |t| > 0 && (forall j :: 0 <= j < |t| ==> IsAsciiAlnum(t[j]))
      && |n| > 0 && '_' !in n
      && StartsWith(stem, t + "_" + n)
      && (|stem| == |t| + 1 + |n| || stem[|t| + 1 + |n|] == '_')
  {
    var k := RunEnd(stem, 0, IsAsciiAlnum);
    RunEndSpan(stem, 0, IsAsciiAlnum);
    if 0 < k && k + 1 < |stem| && stem[k] == '_' && stem[k + 1] != '_' then
      var e := RunEnd(stem, k + 1, NotUnderscore);
      RunEndSpan(stem, k + 1, NotUnderscore);
      assert stem[..e] == stem[..k] + "_" + stem[k + 1..e];
      Some((stem[..k], stem[k + 1..e]))
    else None
  }

  /**
   * A stem that starts with an alphanumeric ticker, '_', and a name without '_'
   * followed by the end or another '_' yields exactly that ticker and name: the
   * names `save_report` and the report generators write are read back.
   */
  lemma TickerPatternReadsBack(t: string, n: string, rest: string)
    requires |t| > 0 && forall j :: 0 <= j < |t| ==> IsAsciiAlnum(t[j])
    requires |n| > 0 && '_' !in n
    requires rest == "" || rest[0] == '_'
    ensures TickerPattern(t + "_" + n + rest) == Some((t, n))
  {
    var s := t + "_" + n + rest;
    assert s[|t|] == '_';
    assert forall j :: 0 <= j < |t| ==> s[j] == t[j];
    assert RunEnd(s, 0, IsAsciiAlnum) == |t| by { RunEndAt(s, 0, |t|, IsAsciiAlnum); }
    assert s[|t| + 1] == n[0];
    assert forall j :: |t| + 1 <= j < |t| + 1 + |n| ==> s[j] == n[j - |t| - 1];
    assert RunEnd(s, |t| + 1, NotUnderscore) == |t| + 1 + |n| by {
      RunEndAt(s, |t| + 1, |t| + 1 + |n|, NotUnderscore);
    }
    assert s[..|t|] == t;
    assert s[|t| + 1..|t| + 1 + |n|] == n;
  }

  /** A run of `p`-characters that stops at `k` is what `RunEnd` finds. */
  lemma {:induction false} RunEndAt(s: string, i: nat, k: nat, p: char -> bool)
    requires i <= k <= |s|
    requires forall j :: i <= j < k ==> p(s[j])
    requires k < |s| ==> !p(s[k])
    ensures RunEnd(s, i, p) == k
    decreases k - i
  {
    if i < k { RunEndAt(s, i + 1, k, p); }
  }

  /**
   * `_extract_ticker_info`: the pattern's two groups when the stem matches it,
   * else the first two '_'-separated pieces when there are at least two, else two
   * empty strings.
   */
  function ExtractTickerInfo(path: string): (r: (string, string))
    ensures TickerPattern(Stem(path)).Some? ==> r == TickerPattern(Stem(path)).value
    ensures '_' !in Stem(path) ==> r == ("", "")
    ensures r != ("", "") ==> '_' in Stem(path)
  {
    var stem := Stem(path);
    match TickerPattern(stem)
    case Some(groups) => groups
    case None =>
      var parts := Split(stem, '_');
      if |parts| >= 2 then
        JoinHasSeparator(parts, "_");
        (parts[0], parts[1])
      else ("", "")
  }

  /** Joining two or more pieces puts the separator in the result. */
  lemma JoinHasSeparator(parts: seq<string>, sep: string)
    requires |parts| >= 2 && |sep| == 1
    ensures sep[0] in Join(parts, sep)
  {
    var j := Join(parts, sep);
    assert j == parts[0] + sep + Join(parts[1..], sep);
    assert j[|parts[0]|] == sep[0];
  }

  // ---------------------------------------------------------------------------
  // Price fields of a scenario
  // ---------------------------------------------------------------------------

  function Pow10(n: nat): (r: real)
    ensures r >= 1.0
  {
    if n == 0 then 1.0 else 10.0 * Pow10(n - 1)
  }

  /** End of `\d+(?:\.\d+)?` at a digit: the longest digit run, then a point and digits if a digit follows the point. */
  function NumberEnd(s: string, i: nat): (k: nat)
    requires i < |s| && IsDigit(s[i])
    ensures i < k <= |s|
  {
    var j := RunEnd(s, i, IsDigit);
    if j + 1 < |s| && s[j] == '.' && IsDigit(s[j + 1]) then RunEnd(s, j + 1, IsDigit) else j
  }

  /** `float()` of the number that starts at the digit at `i`. */
  function NumberValue(s: string, i: nat): (x: real)
    requires i < |s| && IsDigit(s[i])
    ensures x >= 0.0
  {
    var j := RunEnd(s, i, IsDigit);
    RunEndSpan(s, i, IsDigit);
    var whole := DigitsValue(s[i..j]) as real;
    if j + 1 < |s| && s[j] == '.' && IsDigit(s[j + 1]) then
      var k := RunEnd(s, j + 1, IsDigit);
      RunEndSpan(s, j + 1, IsDigit);
      whole + DigitsValue(s[j + 1..k]) as real / Pow10(k - j - 1)
    else whole
  }

  predicate IsRangeDash(c: char) { c == '-' || c == '~' }

  /**
   * The range pattern `(\d+(?:\.\d+)?)\s*[-~]\s*(\d+(?:\.\d+)?)` tried at `i`,
   * giving the midpoint of its two numbers. Every quantifier is greedy and no
   * shorter choice can let the rest match, so the first choice is the only one.
   */
  function RangeAt(s: string, i: nat): (r: Option<real>)
    requires i <= |s|
  {
    if i < |s| && IsDigit(s[i]) then
      var e := NumberEnd(s, i);
      var d := SpaceEnd(s, e);
      if d < |s| && IsRangeDash(s[d]) then
        var b := SpaceEnd(s, d + 1);
        if b < |s| && IsDigit(s[b]) then Some((NumberValue(s, i) + NumberValue(s, b)) / 2.0)
        else None
      else None
    else None
  }

  /** `re.search` of the range pattern from `i`: the leftmost start that matches. */
  function FirstRange(s: string, i: nat): (r: Option<real>)
    requires i <= |s|
    ensures r.None? ==> forall j :: i <= j <= |s| ==> RangeAt(s, j).None?
    ensures r.Some? ==> r.value >= 0.0
    decreases |s| - i
  {
    if RangeAt(s, i).Some? then RangeAt(s, i)
    else if i == |s| then None
    else FirstRange(s, i + 1)
  }

  /** `re.search(r'(\d+(?:\.\d+)?)', s)` from `i`: the number at the first digit. */
  function FirstNumber(s: string, i: nat): (r: Option<real>)
    requires i <= |s|
    ensures r.None? <==> forall j :: i <= j < |s| ==> !IsDigit(s[j])
    ensures r.Some? ==> r.value >= 0.0
    decreases |s| - i
  {
    if i == |s| then None
    else if IsDigit(s[i]) then Some(NumberValue(s, i))
    else FirstNumber(s, i + 1)
  }

  /** The string case of `_parse_price_value`: commas dropped, then a range's midpoint, else the first number, else 0. */
  function ParsePriceText(text: string): (x: real)
    ensures x >= 0.0
  {
    var t := RemoveChar(text, ',');
    match FirstRange(t, 0)
    case Some(m) => m
    case None =>
      match FirstNumber(t, 0)
      case Some(n) => n
      case None => 0.0
  }

  /** Commas are dropped first, so dropping them beforehand changes nothing. */
  lemma ParsePriceIgnoresCommas(text: string)
    ensures ParsePriceText(RemoveChar(text, ',')) == ParsePriceText(text)
  {
    var t := RemoveChar(text, ',');
    assert RemoveChar(t, ',') == t;
  }

  /** `_parse_price_value`: a number (a bool counts as one) as itself, a string parsed, anything else 0. */
  function ParsePriceValue(v: Value): (x: real)
    ensures Number(v).Some? ==> x == Number(v).value
    ensures v.Str? ==> x == ParsePriceText(v.s)
    ensures !v.Str? && Number(v).None? ==> x == 0.0
  {
    match v
    case Str(s) => ParsePriceText(s)
    case _ => match Number(v) case Some(n) => n case None => 0.0
  }

  /** A string without any digit parses to 0. */
  lemma ParsePriceNoDigits(text: string)
    requires forall j :: 0 <= j < |text| ==> !IsDigit(text[j])
    ensures ParsePriceText(text) == 0.0
  {
    var t := RemoveChar(text, ',');
    NoDigitsAfterRemove(text);
    assert forall j :: 0 <= j <= |t| ==> RangeAt(t, j).None?;
    assert FirstRange(t, 0).None? by { NoRangeFrom(t, 0); }
  }

  lemma {:induction false} NoDigitsAfterRemove(s: string)
    requires forall j :: 0 <= j < |s| ==> !IsDigit(s[j])
    ensures forall j :: 0 <= j < |RemoveChar(s, ',')| ==> !IsDigit(RemoveChar(s, ',')[j])
    decreases |s|
  {
    if |s| > 0 {
      assert forall j :: 0 <= j < |s[1..]| ==> !IsDigit(s[1..][j]) by {
        forall j | 0 <= j < |s[1..]| ensures !IsDigit(s[1..][j]) { assert s[1..][j] == s[j + 1]; }
      }
      NoDigitsAfterRemove(s[1..]);
    }
  }

  lemma {:induction false} NoRangeFrom(t: string, i: nat)
    requires i <= |t| && forall j :: i <= j <= |t| ==> RangeAt(t, j).None?
    ensures FirstRange(t, i).None?
    decreases |t| - i
  {
    if i < |t| { NoRangeFrom(t, i + 1); }
  }

  /** A digit string runs to its end or to the first non-digit after it. */
  lemma DigitsRunEnd(s: string, i: nat, d: string)
    requires i + |d| <= |s| && s[i..i + |d|] == d && |d| > 0 && AllDigits(d)
    requires i + |d| < |s| ==> !IsDigit(s[i + |d|])
    ensures RunEnd(s, i, IsDigit) == i + |d|
  {
    forall j | i <= j < i + |d| ensures IsDigit(s[j]) { assert s[j] == d[j - i]; }
    RunEndAt(s, i, i + |d|, IsDigit);
  }

  /** A digit string followed by neither a digit nor a point is read as its value. */
  lemma NumberAtDigits(t: string, i: nat, A: string)
    requires |A| > 0 && AllDigits(A) && i + |A| <= |t| && t[i..i + |A|] == A
    requires i + |A| < |t| ==> !IsDigit(t[i + |A|]) && t[i + |A|] != '.'
    ensures IsDigit(t[i]) && NumberEnd(t, i) == i + |A| && NumberValue(t, i) == DigitsValue(A) as real
  {
    assert t[i] == A[0];
    DigitsRunEnd(t, i, A);
  }

  /** Neither digits nor whitespace contain a comma. */
  lemma NoCommaInRange(A: string, w1: string, dash: char, w2: string, B: string)
    requires AllDigits(A) && AllDigits(B) && AllSpace(w1) && AllSpace(w2) && IsRangeDash(dash)
    ensures ',' !in A + w1 + [dash] + w2 + B
  {
    assert forall j :: 0 <= j < |A| ==> A[j] != ',' by { assert forall j :: 0 <= j < |A| ==> IsDigit(A[j]); }
    assert forall j :: 0 <= j < |B| ==> B[j] != ',' by { assert forall j :: 0 <= j < |B| ==> IsDigit(B[j]); }
    assert forall j :: 0 <= j < |w1| ==> w1[j] != ',' by { assert forall j :: 0 <= j < |w1| ==> IsSpace(w1[j]); }
    assert forall j :: 0 <= j < |w2| ==> w2[j] != ',' by { assert forall j :: 0 <= j < |w2| ==> IsSpace(w2[j]); }
  }

  /**
   * A range written as two digit strings around '-' or '~', with any whitespace
   * on either side of the dash, parses to the midpoint of the two numbers.
   */
  lemma ParsePriceOfRange(A: string, w1: string, dash: char, w2: string, B: string)
    requires |A| > 0 && AllDigits(A) && |B| > 0 && AllDigits(B)
    requires AllSpace(w1) && AllSpace(w2) && IsRangeDash(dash)
    ensures ParsePriceText(A + w1 + [dash] + w2 + B) == (DigitsValue(A) + DigitsValue(B)) as real / 2.0
  {
    var t := A + w1 + [dash] + w2 + B;
    NoCommaInRange(A, w1, dash, w2, B);
    var d := |A| + |w1|;
    var bs := d + 1 + |w2|;
    assert t[..|A|] == A && t[|A|..d] == w1 && t[d] == dash && t[d + 1..bs] == w2 && t[bs..] == B;
    assert |A| < |t| ==> !IsDigit(t[|A|]) && t[|A|] != '.' by {
      if |w1| > 0 { assert t[|A|] == w1[0]; SpaceIsNoNumber(w1[0]); } else { assert t[|A|] == dash; }
    }
    RangeOfPieces(t, |A|, d, bs);
  }

  /** The same, stated on the positions of the pieces inside one comma-free text. */
  lemma RangeOfPieces(t: string, e: nat, d: nat, bs: nat)
    requires 0 < e <= d < bs < |t| && ',' !in t
    requires AllDigits(t[..e]) && (e < |t| ==> !IsDigit(t[e]) && t[e] != '.')
    requires AllSpace(t[e..d]) && IsRangeDash(t[d]) && AllSpace(t[d + 1..bs]) && AllDigits(t[bs..])
    ensures ParsePriceText(t) == (DigitsValue(t[..e]) + DigitsValue(t[bs..])) as real / 2.0
  {
    var A, B := t[..e], t[bs..];
    assert t[0..e] == A && t[bs..bs + |B|] == B;
    NumberAtDigits(t, 0, A);
    NumberAtDigits(t, bs, B);
    SpaceRunEnd(t, e, d);
    SpaceRunEnd(t, d + 1, bs);
    RangeAtParts(t, e, d, bs);
    ParsePriceAtStart(t);
  }

  /** A comma-free text with a range at its start parses to that range's midpoint. */
  lemma ParsePriceAtStart(t: string)
    requires ',' !in t && RangeAt(t, 0).Some?
    ensures ParsePriceText(t) == RangeAt(t, 0).value
  {
    assert RemoveChar(t, ',') == t;
  }

  /** The range pattern matches at 0 once its pieces are located. */
  lemma RangeAtParts(t: string, e: nat, d: nat, b: nat)
    requires 0 < |t| && IsDigit(t[0]) && NumberEnd(t, 0) == e
    requires e <= |t| && SpaceEnd(t, e) == d && d < |t| && IsRangeDash(t[d])
    requires SpaceEnd(t, d + 1) == b && b < |t| && IsDigit(t[b])
    ensures RangeAt(t, 0) == Some((NumberValue(t, 0) + NumberValue(t, b)) / 2.0)
  {
  }

  /** In particular for two whole numbers as `str()` writes them. */
  lemma ParsePriceOfWholeRange(a: nat, b: nat, w1: string, dash: char, w2: string)
    requires AllSpace(w1) && AllSpace(w2) && IsRangeDash(dash)
    ensures ParsePriceText(NatToString(a) + w1 + [dash] + w2 + NatToString(b)) == (a + b) as real / 2.0
  {
    ParsePriceOfRange(NatToString(a), w1, dash, w2, NatToString(b));
  }

  /** Whitespace is neither a digit nor a decimal point. */
  lemma SpaceIsNoNumber(c: char)
    requires IsSpace(c)
    ensures !IsDigit(c) && c != '.'
  {
  }

  // ---------------------------------------------------------------------------
  // Scenario defaults and slot limits
  // ---------------------------------------------------------------------------

  /** `_default_scenario`: the scenario used when none could be extracted. */
  function DefaultScenario(): map<string, Value>
  {
    map[
      "portfolio_analysis" := Str("분석 실패"),
      "buy_score" := Int(0),
      "decision" := Str("관망"),
      "target_price" := Int(0),
      "stop_loss" := Int(0),
      "investment_period" := Str("단기"),
      "rationale" := Str("분석 실패"),
      "sector" := Str("알 수 없음"),
      "considerations" := Str("분석 실패")
    ]
  }

  const MaxSlots: int := 10
  const MaxSameSector: nat := 3
  const SectorConcentrationRatio: real := 0.3

  /** `scenario.get('max_portfolio_size', max_slots)`, a string converted by `int()` and falling back to `max_slots`. */
  function MaxPortfolioSize(scenario: map<string, Value>, maxSlots: int): (v: Value)
    ensures "max_portfolio_size" !in scenario ==> v == Int(maxSlots)
    ensures "max_portfolio_size" in scenario && scenario["max_portfolio_size"].Str? ==>
      v == Int(ParseInt(scenario["max_portfolio_size"].s).GetOr(maxSlots))
    ensures "max_portfolio_size" in scenario && !scenario["max_portfolio_size"].Str? ==> v == scenario["max_portfolio_size"]
  {
    var v := Get(scenario, "max_portfolio_size", Int(maxSlots));
    if v.Str? then
      match ParseInt(v.s)
      case Some(n) => Int(n)
      case None => Int(maxSlots)
    else v
  }

  /** `current_slots >= max_portfolio_size`; `None` where Python cannot compare the two. */
  function AtPortfolioLimit(slots: nat, limit: Value): (r: Option<bool>)
    ensures r.Some? <==> Number(limit).Some?
    ensures r.Some? ==> r.value == (slots as real >= Number(limit).value)
  {
    match Number(limit)
    case Some(x) => Some(slots as real >= x)
    case None => None
  }

  // ---------------------------------------------------------------------------
  // Sector concentration
  // ---------------------------------------------------------------------------

  /** The `sector` entries of the stored scenarios that are objects having one, in table order. */
  function SectorsOf(scenarios: seq<Value>): (r: seq<Value>)
    ensures |r| <= |scenarios|
  {
    if |scenarios| == 0 then []
    else
      var v := scenarios[0];
      (if v.Dict? && "sector" in v.fields then [v.fields["sector"]] else []) + SectorsOf(scenarios[1..])
  }

  /** Whether `s` is counted as the same sector as `sector`: both strings, equal after lower-casing. */
  predicate SameSector(s: Value, sector: Value)
  {
    s.Str? && sector.Str? && Lower(s.s) == Lower(sector.s)
  }

  /**
   * `sum(1 for s in sectors if s and s.lower() == sector.lower())`: `None` when a
   * truthy entry is not a string or the sector is not one (`lower` then raises).
   */
  function SameSectorCount(sectors: seq<Value>, sector: Value): (r: Option<nat>)
    ensures r.None? <==> exists k :: 0 <= k < |sectors| && Truthy(sectors[k]) && !(sectors[k].Str? && sector.Str?)
    ensures r.Some? ==> r.value <= |sectors|
  {
    if |sectors| == 0 then Some(0)
    else
      var s := sectors[0];
      var rest := SameSectorCount(sectors[1..], sector);
      assert forall k :: 1 <= k < |sectors| ==> sectors[k] == sectors[1..][k - 1];
      if Truthy(s) && !(s.Str? && sector.Str?) then None
      else match rest
        case None =>
          var k :| 0 <= k < |sectors[1..]| && Truthy(sectors[1..][k]) && !(sectors[1..][k].Str? && sector.Str?);
          assert sectors[k + 1] == sectors[1..][k];
          None
        case Some(c) => Some(c + if Truthy(s) && SameSector(s, sector) then 1 else 0)
  }

  /** `SectorsOf` reads the stored scenarios one at a time, in order. */
  lemma {:induction false} SectorsOfSnoc(scenarios: seq<Value>, v: Value)
    ensures SectorsOf(scenarios + [v]) == SectorsOf(scenarios) + (if v.Dict? && "sector" in v.fields then [v.fields["sector"]] else [])
    decreases |scenarios|
  {
    if |scenarios| == 0 {
      assert scenarios + [v] == [v];
    } else {
      assert (scenarios + [v])[1..] == scenarios[1..] + [v];
      SectorsOfSnoc(scenarios[1..], v);
    }
  }

  /** The count read one entry at a time: an entry that would raise makes the whole count raise. */
  lemma {:induction false} SameSectorCountSnoc(sectors: seq<Value>, s: Value, sector: Value)
    ensures SameSectorCount(sectors + [s], sector) ==
      if Truthy(s) && !(s.Str? && sector.Str?) then None
      else match SameSectorCount(sectors, sector)
        case None => None
        case Some(c) => Some(c + if Truthy(s) && SameSector(s, sector) then 1 else 0)
    decreases |sectors|
  {
    if |sectors| == 0 {
      assert sectors + [s] == [s];
      assert [s][1..] == [];
    } else {
      assert (sectors + [s])[0] == sectors[0];
      assert (sectors + [s])[1..] == sectors[1..] + [s];
      SameSectorCountSnoc(sectors[1..], s, sector);
    }
  }

  /** The number of entries counted as the same sector. */
  function CountSame(sectors: seq<Value>, sector: Value): (n: nat)
    ensures n <= |sectors|
  {
    if |sectors| == 0 then 0
    else (if Truthy(sectors[0]) && SameSector(sectors[0], sector) then 1 else 0) + CountSame(sectors[1..], sector)
  }

  /**
   * `_check_sector_diversity` over the stored scenarios: no limit without a known
   * sector or when counting raises; otherwise the sector is over-weighted, and
   * the answer False, iff it has at least three holdings or at least 30% of the
   * holdings that name a sector.
   */
  function SectorDiverse(sector: Value, scenarios: seq<Value>): (ok: bool)
    ensures !Truthy(sector) || sector == Str("알 수 없음") ==> ok
    ensures SameSectorCount(SectorsOf(scenarios), sector).None? ==> ok
  {
    if !Truthy(sector) || sector == Str("알 수 없음") then true
    else
      var sectors := SectorsOf(scenarios);
      match SameSectorCount(sectors, sector)
      case None => true
      case Some(c) =>
        !(c >= MaxSameSector || (|sectors| > 0 && c as real / |sectors| as real >= SectorConcentrationRatio))
  }

  /** When counting does not raise, it counts exactly the entries equal to the sector ignoring case. */
  lemma {:induction false} SameSectorCountIsCount(sectors: seq<Value>, sector: Value)
    requires SameSectorCount(sectors, sector).Some?
    ensures SameSectorCount(sectors, sector) == Some(CountSame(sectors, sector))
    decreases |sectors|
  {
    if |sectors| > 0 {
      assert SameSectorCount(sectors[1..], sector).Some?;
      SameSectorCountIsCount(sectors[1..], sector);
    }
  }

  /** The rule in plain terms, for a named sector every holding's sector entry can be compared with. */
  lemma SectorDiverseRule(sector: string, scenarios: seq<Value>)
    requires sector != "" && sector != "알 수 없음"
    requires forall k :: 0 <= k < |SectorsOf(scenarios)| ==> !Truthy(SectorsOf(scenarios)[k]) || SectorsOf(scenarios)[k].Str?
    ensures var sectors := SectorsOf(scenarios); var c := CountSame(sectors, Str(sector));
      !SectorDiverse(Str(sector), scenarios) <==>
        (c >= 3 || (|sectors| > 0 && c as real / |sectors| as real >= 0.3))
  {
    var sectors := SectorsOf(scenarios);
    assert SameSectorCount(sectors, Str(sector)).Some?;
    SameSectorCountIsCount(sectors, Str(sector));
  }

  /** With no holdings, every sector may be bought. */
  lemma SectorDiverseWhenEmpty(sector: Value)
    ensures SectorDiverse(sector, [])
  {
  }

  /** A sector already held three times is refused. */
  lemma SectorRefusedAtThree(sector: string, scenarios: seq<Value>)
    requires sector != "" && sector != "알 수 없음"
    requires forall k :: 0 <= k < |SectorsOf(scenarios)| ==> !Truthy(SectorsOf(scenarios)[k]) || SectorsOf(scenarios)[k].Str?
    requires CountSame(SectorsOf(scenarios), Str(sector)) >= 3
    ensures !SectorDiverse(Str(sector), scenarios)
  {
    SectorDiverseRule(sector, scenarios);
  }

  /** The sector test ignores ASCII case: lower-casing the sector asked about changes nothing. */
  lemma {:induction false} CountSameIgnoresCase(sectors: seq<Value>, sector: string)
    ensures CountSame(sectors, Str(Lower(sector))) == CountSame(sectors, Str(sector))
    decreases |sectors|
  {
    LowerIdempotent(sector);
    if |sectors| > 0 { CountSameIgnoresCase(sectors[1..], sector); }
  }

  lemma LowerIdempotent(s: string)
    ensures Lower(Lower(s)) == Lower(s)
  {
    assert forall i :: 0 <= i < |s| ==> LowerChar(LowerChar(s[i])) == LowerChar(s[i]);
  }

  // ---------------------------------------------------------------------------
  // The sell ladder
  // ---------------------------------------------------------------------------

  datatype Decision = Decision(sell: bool, reason: string)

  const AnalysisError := Decision(false, "분석 오류")

  /** `((current_price - buy_price) / buy_price) * 100`. */
  function ProfitRate(buy: real, current: real): (p: real)
    requires buy != 0.0
    ensures buy > 0.0 ==> (p > 0.0 <==> current > buy) && (p < 0.0 <==> current < buy)
  {
    (current - buy) / buy * 100.0
  }

  /** `scenario_data.get('investment_period', default)` of the stored scenario; the default when it is not an object. */
  function PeriodOf(scenario: Value, default: string): (v: Value)
    ensures !scenario.Dict? ==> v == Str(default)
  {
    match GetIn(scenario, "investment_period", Str(default))
    case Some(v) => v
    case None => Str(default)
  }

  /** The quantities the rules compare, once all of them could be computed. */
  datatype Facts = Facts(current: real, stop: real, target: real, profit: real, days: int, period: Value)

  datatype BaseRule = StopHit | TargetHit | ShortTermGain | ShortTermLoss | Gain10 | Loss5 | StaleLoss30 | Gain60 | LongTermLoss

  /** The rules in the order the base agent tries them. */
  const BaseLadder: seq<BaseRule> := [StopHit, TargetHit, ShortTermGain, ShortTermLoss, Gain10, Loss5, StaleLoss30, Gain60, LongTermLoss]

  predicate BaseFires(rule: BaseRule, f: Facts)
  {
    match rule
    case StopHit => f.stop > 0.0 && f.current <= f.stop
    case TargetHit => f.target > 0.0 && f.current >= f.target
    case ShortTermGain => f.period == Str("단기") && f.days >= 15 && f.profit >= 5.0
    case ShortTermLoss => f.period == Str("단기") && f.days >= 10 && f.profit <= -3.0
    case Gain10 => f.profit >= 10.0
    case Loss5 => f.profit <= -5.0
    case StaleLoss30 => f.days >= 30 && f.profit < 0.0
    case Gain60 => f.days >= 60 && f.profit >= 3.0
    case LongTermLoss => f.period == Str("장기") && f.days >= 90 && f.profit < 0.0
  }

  /** "(보유일: {days}일, 수익률: {profit:.2f}%)". */
  function HeldFor(f: Facts): string
  {
    "(보유일: " + IntToString(f.days) + "일, 수익률: " + Fixed2(f.profit) + "%)"
  }

  function BaseReason(rule: BaseRule, f: Facts): string
  {
    match rule
    case StopHit => "손절매 조건 도달 (손절가: " + Amount(f.stop) + "원)"
    case TargetHit => "목표가 달성 (목표가: " + Amount(f.target) + "원)"
    case ShortTermGain => "단기 투자 목표 달성 " + HeldFor(f)
    case ShortTermLoss => "단기 투자 손실 방어 " + HeldFor(f)
    case Gain10 => "수익률 10% 이상 달성 (현재 수익률: " + Fixed2(f.profit) + "%)"
    case Loss5 => "손실 -5% 이상 발생 (현재 수익률: " + Fixed2(f.profit) + "%)"
    case StaleLoss30 => "30일 이상 보유 중이며 손실 상태 " + HeldFor(f)
    case Gain60 => "60일 이상 보유 중이며 3% 이상 수익 " + HeldFor(f)
    case LongTermLoss => "장기 투자 손실 정리 " + HeldFor(f)
  }

  /** The ladder read as first-match: sell with the reason of the first rule of `BaseLadder` that fires, or keep with "계속 보유". */
  function BaseLadderOutcome(f: Facts): Decision
  {
    match FirstBaseFiring(BaseLadder, f)
    case Some(k) => Decision(true, BaseReason(BaseLadder[k], f))
    case None => Decision(false, "계속 보유")
  }

  /** The first rule of `rules` that fires. */
  function FirstBaseFiring(rules: seq<BaseRule>, f: Facts): (r: Option<nat>)
    ensures r.Some? ==> r.value < |rules| && BaseFires(rules[r.value], f)
    ensures r.Some? ==> forall k :: 0 <= k < r.value ==> !BaseFires(rules[k], f)
    ensures r.None? ==> forall k :: 0 <= k < |rules| ==> !BaseFires(rules[k], f)
  {
    FirstBaseFiringFrom(rules, f, 0)
  }

  /** The first rule of `rules` from position `i` on that fires. */
  function FirstBaseFiringFrom(rules: seq<BaseRule>, f: Facts, i: nat): (r: Option<nat>)
    requires i <= |rules|
    ensures r.Some? ==> i <= r.value < |rules| && BaseFires(rules[r.value], f)
    ensures r.Some? ==> forall k :: i <= k < r.value ==> !BaseFires(rules[k], f)
    ensures r.None? ==> forall k :: i <= k < |rules| ==> !BaseFires(rules[k], f)
    decreases |rules| - i
  {
    if i == |rules| then None
    else if BaseFires(rules[i], f) then Some(i)
    else FirstBaseFiringFrom(rules, f, i + 1)
  }

  /**
   * `_analyze_sell_decision` of the base agent, on one holding: its buy and current
   * price, its target and stop (numbers unless the scenario supplied something
   * else), the days since the buy date (`None` when that date does not parse) and
   * its stored scenario. A zero buy price, an unparsable date or a target or stop
   * Python cannot compare with 0 ends in `(False, "분석 오류")`.
   */
  function BaseSellDecision(buy: real, current: real, target: Value, stop: Value, days: Option<int>, scenario: Value): (d: Decision)
    ensures buy == 0.0 || days.None? || Number(stop).None? ==> d == AnalysisError
  {
    if buy == 0.0 || days.None? then AnalysisError
    else
      var p := ProfitRate(buy, current);
      var n := days.value;
      var period := PeriodOf(scenario, "중기");
      match Number(stop)
      case None => AnalysisError
      case Some(sl) =>
        if sl > 0.0 && current <= sl then Decision(true, "손절매 조건 도달 (손절가: " + Amount(sl) + "원)")
        else match Number(target)
          case None => AnalysisError
          case Some(tp) => BaseAfterStop(Facts(current, sl, tp, p, n, period))
  }

  /** The ladder once the stop is not hit, in the order of the code, ending in "계속 보유". */
  function BaseAfterStop(f: Facts): Decision
  {
    if BaseFires(TargetHit, f) then Decision(true, "목표가 달성 (목표가: " + Amount(f.target) + "원)")
    else if BaseFires(ShortTermGain, f) then Decision(true, "단기 투자 목표 달성 " + HeldFor(f))
    else if BaseFires(ShortTermLoss, f) then Decision(true, "단기 투자 손실 방어 " + HeldFor(f))
    else if BaseFires(Gain10, f) then Decision(true, "수익률 10% 이상 달성 (현재 수익률: " + Fixed2(f.profit) + "%)")
    else if BaseFires(Loss5, f) then Decision(true, "손실 -5% 이상 발생 (현재 수익률: " + Fixed2(f.profit) + "%)")
    else if BaseFires(StaleLoss30, f) then Decision(true, "30일 이상 보유 중이며 손실 상태 " + HeldFor(f))
    else if BaseFires(Gain60, f) then Decision(true, "60일 이상 보유 중이며 3% 이상 수익 " + HeldFor(f))
    else if BaseFires(LongTermLoss, f) then Decision(true, "장기 투자 손실 정리 " + HeldFor(f))
    else Decision(false, "계속 보유")
  }

  /** The facts the ladder sees for a holding whose inputs are all usable. */
  function BaseFacts(buy: real, current: real, target: Value, stop: Value, days: Option<int>, scenario: Value): Facts
    requires buy != 0.0 && days.Some? && Number(stop).Some? && Number(target).Some?
  {
    Facts(current, Number(stop).value, Number(target).value, ProfitRate(buy, current), days.value, PeriodOf(scenario, "중기"))
  }

  /**
   * The base ladder is first-match: the holding is sold for the first rule of
   * `BaseLadder` that fires, with that rule's reason, and kept with "계속 보유"
   * when none fires.
   */
  lemma BaseSellDecisionFirstMatch(buy: real, current: real, target: Value, stop: Value, days: Option<int>, scenario: Value)
    requires buy != 0.0 && days.Some? && Number(stop).Some? && Number(target).Some?
    ensures var f := BaseFacts(buy, current, target, stop, days, scenario);
      var d := BaseSellDecision(buy, current, target, stop, days, scenario);
      d == BaseLadderOutcome(f)
  {
    var f := BaseFacts(buy, current, target, stop, days, scenario);
    BaseSellDecisionLadder(buy, current, target, stop, days, scenario);
    if BaseFires(StopHit, f) {
      BaseStopFirst(f);
    } else {
      BaseAfterStopFirstMatch(f);
    }
  }

  /** With usable inputs, the decision is the stop check and then the rest of the ladder on the holding's facts. */
  lemma BaseSellDecisionLadder(buy: real, current: real, target: Value, stop: Value, days: Option<int>, scenario: Value)
    requires buy != 0.0 && days.Some? && Number(stop).Some? && Number(target).Some?
    ensures var f := BaseFacts(buy, current, target, stop, days, scenario);
      BaseSellDecision(buy, current, target, stop, days, scenario)
        == if BaseFires(StopHit, f) then Decision(true, BaseReason(StopHit, f)) else BaseAfterStop(f)
  {
  }

  /** The rest of the ladder sells exactly when one of its rules fires. */
  lemma BaseAfterStopSellsIfAnyFires(f: Facts)
    ensures BaseAfterStop(f).sell <==>
      BaseFires(TargetHit, f) || BaseFires(ShortTermGain, f) || BaseFires(ShortTermLoss, f) || BaseFires(Gain10, f)
      || BaseFires(Loss5, f) || BaseFires(StaleLoss30, f) || BaseFires(Gain60, f) || BaseFires(LongTermLoss, f)
  {
  }

  /** A stop that is hit is the first rule of the ladder to fire. */
  lemma BaseStopFirst(f: Facts)
    requires BaseFires(StopHit, f)
    ensures FirstBaseFiring(BaseLadder, f) == Some(0) && BaseLadder[0] == StopHit
  {
    assert BaseLadder[0] == StopHit;
  }

  /** The rules after the stop check are first-match over the rest of the ladder. */
  lemma BaseAfterStopFirstMatch(f: Facts)
    requires !BaseFires(StopHit, f)
    ensures BaseAfterStop(f) == BaseLadderOutcome(f)
  {
    if BaseFires(TargetHit, f) || BaseFires(ShortTermGain, f) || BaseFires(ShortTermLoss, f) || BaseFires(Gain10, f) {
      BaseLadderHead(f);
    } else {
      BaseLadderTail(f);
    }
  }

  /** The ladder after the stop check when one of its first four rules fires. */
  lemma BaseLadderHead(f: Facts)
    requires !BaseFires(StopHit, f)
    requires BaseFires(TargetHit, f) || BaseFires(ShortTermGain, f) || BaseFires(ShortTermLoss, f) || BaseFires(Gain10, f)
    ensures BaseAfterStop(f) == BaseLadderOutcome(f)
  {
    var L := BaseLadder;
    assert L[0] == StopHit && L[1] == TargetHit && L[2] == ShortTermGain && L[3] == ShortTermLoss && L[4] == Gain10;
    assert L[5] == Loss5 && L[6] == StaleLoss30 && L[7] == Gain60 && L[8] == LongTermLoss;
    assert FirstBaseFiring(L, f) == FirstBaseFiringFrom(L, f, 1);
    if BaseFires(TargetHit, f) {
      assert FirstBaseFiringFrom(L, f, 1) == Some(1);
      assert BaseAfterStop(f) == Decision(true, BaseReason(TargetHit, f));
    } else {
      assert FirstBaseFiringFrom(L, f, 1) == FirstBaseFiringFrom(L, f, 2);
      if BaseFires(ShortTermGain, f) {
        assert FirstBaseFiringFrom(L, f, 2) == Some(2);
        assert BaseAfterStop(f) == Decision(true, BaseReason(ShortTermGain, f));
      } else {
        assert FirstBaseFiringFrom(L, f, 2) == FirstBaseFiringFrom(L, f, 3);
        if BaseFires(ShortTermLoss, f) {
          assert FirstBaseFiringFrom(L, f, 3) == Some(3);
          assert BaseAfterStop(f) == Decision(true, BaseReason(ShortTermLoss, f));
        } else {
          assert FirstBaseFiringFrom(L, f, 3) == FirstBaseFiringFrom(L, f, 4);
          assert FirstBaseFiringFrom(L, f, 4) == Some(4);
          assert BaseAfterStop(f) == Decision(true, BaseReason(Gain10, f));
        }
      }
    }
  }

  /** The ladder after the stop check when none of its first four rules fires. */
  lemma BaseLadderTail(f: Facts)
    requires !BaseFires(StopHit, f)
    requires !BaseFires(TargetHit, f) && !BaseFires(ShortTermGain, f) && !BaseFires(ShortTermLoss, f) && !BaseFires(Gain10, f)
    ensures BaseAfterStop(f) == BaseLadderOutcome(f)
  {
    BaseTailIndex(f);
    BaseLadderRules();
    if !BaseFires(StaleLoss30, f) {
      BaseLongTermLossDead(f);
    }
  }

  /** Past the first five rules, the first rule to fire is the first of the later ones, `LongTermLoss` never being one. */
  lemma BaseTailIndex(f: Facts)
    requires !BaseFires(StopHit, f)
    requires !BaseFires(TargetHit, f) && !BaseFires(ShortTermGain, f) && !BaseFires(ShortTermLoss, f) && !BaseFires(Gain10, f)
    ensures FirstBaseFiring(BaseLadder, f) ==
      if BaseFires(Loss5, f) then Some(5)
      else if BaseFires(StaleLoss30, f) then Some(6)
      else if BaseFires(Gain60, f) then Some(7)
      else None
  {
    var L := BaseLadder;
    BaseLadderRules();
    assert FirstBaseFiring(L, f) == FirstBaseFiringFrom(L, f, 0);
    BaseSkip(L, f, 0);
    BaseSkip(L, f, 1);
    BaseSkip(L, f, 2);
    BaseSkip(L, f, 3);
    BaseSkip(L, f, 4);
    if BaseFires(Loss5, f) {
      BaseHit(L, f, 5);
    } else {
      BaseSkip(L, f, 5);
      if BaseFires(StaleLoss30, f) {
        BaseHit(L, f, 6);
      } else {
        BaseSkip(L, f, 6);
        if BaseFires(Gain60, f) {
          BaseHit(L, f, 7);
        } else {
          BaseSkip(L, f, 7);
          BaseLongTermLossDead(f);
          BaseSkip(L, f, 8);
        }
      }
    }
  }

  /**
   * `LongTermLoss` never decides: whenever it fires, the 30-day loss rule before
   * it fires too, so the ladder stops there first.
   */
  lemma BaseLongTermLossDead(f: Facts)
    ensures BaseFires(LongTermLoss, f) ==> BaseFires(StaleLoss30, f)
  {
  }

  /** The ladder in the order of the code. */
  lemma BaseLadderRules()
    ensures |BaseLadder| == 9
    ensures BaseLadder[0] == StopHit && BaseLadder[1] == TargetHit && BaseLadder[2] == ShortTermGain
    ensures BaseLadder[3] == ShortTermLoss && BaseLadder[4] == Gain10 && BaseLadder[5] == Loss5
    ensures BaseLadder[6] == StaleLoss30 && BaseLadder[7] == Gain60 && BaseLadder[8] == LongTermLoss
  {
  }

  /** A rule that does not fire passes the search on to the next one. */
  lemma BaseSkip(rules: seq<BaseRule>, f: Facts, i: nat)
    requires i < |rules| && !BaseFires(rules[i], f)
    ensures FirstBaseFiringFrom(rules, f, i) == FirstBaseFiringFrom(rules, f, i + 1)
  {
  }

  /** A rule that fires ends the search. */
  lemma BaseHit(rules: seq<BaseRule>, f: Facts, i: nat)
    requires i < |rules| && BaseFires(rules[i], f)
    ensures FirstBaseFiringFrom(rules, f, i) == Some(i)
  {
  }

  /** A holding is sold exactly when one of the rules fires. */
  lemma BaseSellsIffSomeRuleFires(buy: real, current: real, target: Value, stop: Value, days: Option<int>, scenario: Value)
    requires buy != 0.0 && days.Some? && Number(stop).Some? && Number(target).Some?
    ensures var f := BaseFacts(buy, current, target, stop, days, scenario);
      BaseSellDecision(buy, current, target, stop, days, scenario).sell <==> exists k :: 0 <= k < |BaseLadder| && BaseFires(BaseLadder[k], f)
  {
    BaseSellDecisionFirstMatch(buy, current, target, stop, days, scenario);
  }

  /** A target Python cannot compare matters only when the stop has not been hit. */
  lemma BaseTargetErrorAfterStop(buy: real, current: real, target: Value, stop: Value, days: Option<int>, scenario: Value)
    requires buy != 0.0 && days.Some? && Number(stop).Some? && Number(target).None?
    ensures var sl := Number(stop).value;
      BaseSellDecision(buy, current, target, stop, days, scenario) ==
        if sl > 0.0 && current <= sl then Decision(true, "손절매 조건 도달 (손절가: " + Amount(sl) + "원)") else AnalysisError
  {
  }
}
