/**
 * The dashboard data generator (`examples/generate_dashboard_json.py`): the rows
 * read from the tracking database get their JSON columns decoded and, for the
 * holdings, a profit rate and a holding period; the brokerage portfolio gets
 * weights; and four summaries are computed from these lists.
 *
 * A database row is the `dict` built from it (`dict_from_row`). `json.loads` is
 * the parameter `decode` (`None` for a `JSONDecodeError`), `datetime.strptime`
 * with the format "%Y-%m-%d %H:%M:%S" is the parameter `parse` (seconds,
 * `None` when the text does not fit the format) and `datetime.now()` is the
 * parameter `now` in seconds. Every `None` result of an operation below is
 * an exception leaving it.
 */
module Dashboard {
  import opened Wrappers
  import opened Text
  import opened PyValue
  import DomesticTrading

  /** A database row as `dict_from_row` returns it. */
  type Row = map<string, Value>

  // ---------------------------------------------------------------- JSON columns

  /**
   * `parse_json_field`: an empty or missing column reads as `{}`, and so does text
   * `json.loads` rejects. A column that is truthy but not text makes `json.loads`
   * raise a `TypeError`, which is not caught.
   */
  function ParseJsonField(field: Value, decode: string -> Option<Value>): (r: Option<Value>)
    ensures !Truthy(field) ==> r == Some(Dict(map[]))
    ensures field.Str? && decode(field.s).None? ==> r == Some(Dict(map[]))
    ensures field.Str? && |field.s| > 0 && decode(field.s).Some? ==> r == decode(field.s)
    ensures r.None? <==> Truthy(field) && !field.Str?
  {
    if !Truthy(field) then Some(Dict(map[]))
    else if !field.Str? then None
    else match decode(field.s)
      case None => Some(Dict(map[]))
      case Some(v) => Some(v)
  }

  /** `row[column] = parse_json_field(row.get(column, ''))`. */
  function WithParsed(row: Row, column: string, decode: string -> Option<Value>): (r: Option<Row>)
    ensures r.Some? <==> ParseJsonField(Get(row, column, Str("")), decode).Some?
    ensures r.Some? ==> r.value.Keys == row.Keys + {column}
    ensures r.Some? ==> r.value[column] == ParseJsonField(Get(row, column, Str("")), decode).value
    ensures r.Some? ==> forall k :: k in row && k != column ==> r.value[k] == row[k]
  {
    match ParseJsonField(Get(row, column, Str("")), decode)
    case None => None
    case Some(v) => Some(row[column := v])
  }

  /**
   * The loop of `get_trading_history` (column "scenario"), `get_watchlist_history`
   * (column "scenario") and `get_holding_decisions` (column "full_json_data"):
   * every row in query order, with its JSON column decoded.
   */
  method ParseColumn(rows: seq<Row>, column: string, decode: string -> Option<Value>) returns (parsed: Option<seq<Row>>)
    ensures parsed.Some? <==> forall i :: 0 <= i < |rows| ==> WithParsed(rows[i], column, decode).Some?
    ensures parsed.Some? ==> |parsed.value| == |rows|
    ensures parsed.Some? ==> forall i :: 0 <= i < |rows| ==> parsed.value[i] == WithParsed(rows[i], column, decode).value
  {
    var out: seq<Row> := [];
    var i := 0;
    while i < |rows|
      invariant 0 <= i <= |rows|
      invariant |out| == i
      invariant forall j :: 0 <= j < i ==> WithParsed(rows[j], column, decode).Some? && out[j] == WithParsed(rows[j], column, decode).value
    {
      var row := WithParsed(rows[i], column, decode);
      if row.None? {
        return None;
      }
      out := out + [row.value];
      i := i + 1;
    }
    return Some(out);
  }

  /**
   * `get_holding_decisions`: the query's rows (`None` when the query raises, as it
   * does without the table) with "full_json_data" decoded; any exception inside
   * gives [].
   */
  method HoldingDecisions(rows: Option<seq<Row>>, decode: string -> Option<Value>) returns (decisions: seq<Row>)
    ensures rows.None? ==> decisions == []
    ensures rows.Some? && (exists i :: 0 <= i < |rows.value| && WithParsed(rows.value[i], "full_json_data", decode).None?) ==> decisions == []
    ensures rows.Some? && (forall i :: 0 <= i < |rows.value| ==> WithParsed(rows.value[i], "full_json_data", decode).Some?) ==>
      |decisions| == |rows.value| && forall i :: 0 <= i < |rows.value| ==> decisions[i] == WithParsed(rows.value[i], "full_json_data", decode).value
  {
    if rows.None? {
      return [];
    }
    var parsed := ParseColumn(rows.value, "full_json_data", decode);
    if parsed.None? {
      return [];
    }
    decisions := parsed.value;
  }

  // ---------------------------------------------------------------- holdings

  /**
   * The profit rate of a holding: `(current - buy) / buy * 100` when `buy > 0`,
   * else 0. Comparing or subtracting something that is not a number raises.
   */
  function ProfitRate(buy: Value, current: Value): (r: Option<Value>)
    ensures Less(Int(0), buy) == Some(false) ==> r == Some(Int(0))
    ensures Less(Int(0), buy).None? ==> r.None?
    ensures Less(Int(0), buy) == Some(true) ==> (r.Some? <==> Number(current).Some?)
    ensures r.Some? && Less(Int(0), buy) == Some(true) ==>
      var b := Number(buy).value; var c := Number(current).value;
      b > 0.0 && r.value.Float? && r.value.r * b == (c - b) * 100.0
    ensures r.Some? && r.value.Float? ==> (r.value.r > 0.0 <==> Number(current).value > Number(buy).value)
    ensures r.Some? && r.value.Float? ==> (r.value.r == 0.0 <==> Number(current).value == Number(buy).value)
  {
    match Less(Int(0), buy)
    case None => None
    case Some(positive) =>
      if !positive then Some(Int(0))
      else match Number(current)
        case None => None
        case Some(c) =>
          var b := Number(buy).value;
          RateSign(c - b, b);
          Some(Float((c - b) / b * 100.0))
  }

  /** A change over a positive base, in percent, has the change's sign. */
  lemma RateSign(d: real, b: real)
    requires b > 0.0
    ensures d / b * 100.0 * b == d * 100.0
    ensures d / b * 100.0 > 0.0 <==> d > 0.0
    ensures d / b * 100.0 == 0.0 <==> d == 0.0
  {
    var q := d / b;
    assert q * b == d;
    if d > 0.0 {
      assert q > 0.0;
    } else if d < 0.0 {
      assert q < 0.0;
    } else {
      assert q == 0.0;
    }
  }

  const SecondsPerDay := 86400

  /**
   * The holding period in whole days, `(now - buy_dt).days`, which rounds down;
   * 0 for an empty date and for one `strptime` rejects (a bare `except`, which
   * also catches the `TypeError` of a date that is not text).
   */
  function HoldingDays(buyDate: Value, parse: string -> Option<int>, now: int): (d: int)
    ensures !Truthy(buyDate) || !buyDate.Str? || parse(buyDate.s).None? ==> d == 0
    ensures buyDate.Str? && |buyDate.s| > 0 && parse(buyDate.s).Some? ==>
      SecondsPerDay * d <= now - parse(buyDate.s).value < SecondsPerDay * (d + 1)
  {
    if !Truthy(buyDate) || !buyDate.Str? then 0
    else match parse(buyDate.s)
      case None => 0
      case Some(t) => (now - t) / SecondsPerDay
  }

  /**
   * One holding of `get_stock_holdings`: its "scenario" decoded, and the
   * "profit_rate" and "holding_days" it gets; the other columns are kept.
   */
  function Enrich(row: Row, decode: string -> Option<Value>, parse: string -> Option<int>, now: int): (r: Option<Row>)
    ensures r.Some? <==> ParseJsonField(Get(row, "scenario", Str("")), decode).Some? &&
                         ProfitRate(Get(row, "buy_price", Int(0)), Get(row, "current_price", Int(0))).Some?
    ensures r.Some? ==> r.value.Keys == row.Keys + {"scenario", "profit_rate", "holding_days"}
    ensures r.Some? ==> r.value["scenario"] == ParseJsonField(Get(row, "scenario", Str("")), decode).value
    ensures r.Some? ==> r.value["profit_rate"] == ProfitRate(Get(row, "buy_price", Int(0)), Get(row, "current_price", Int(0))).value
    ensures r.Some? ==> r.value["holding_days"] == Int(HoldingDays(Get(row, "buy_date", Str("")), parse, now))
    ensures r.Some? ==> forall k :: k in row && k !in {"scenario", "profit_rate", "holding_days"} ==> r.value[k] == row[k]
  {
    var scenario := ParseJsonField(Get(row, "scenario", Str("")), decode);
    var profit := ProfitRate(Get(row, "buy_price", Int(0)), Get(row, "current_price", Int(0)));
    if scenario.None? || profit.None? then None
    else
      var days := HoldingDays(Get(row, "buy_date", Str("")), parse, now);
      Some(row["scenario" := scenario.value]["profit_rate" := profit.value]["holding_days" := Int(days)])
  }

  /** `get_stock_holdings`: every row in query order, enriched. */
  method StockHoldings(rows: seq<Row>, decode: string -> Option<Value>, parse: string -> Option<int>, now: int)
    returns (holdings: Option<seq<Row>>)
    ensures holdings.Some? <==> forall i :: 0 <= i < |rows| ==> Enrich(rows[i], decode, parse, now).Some?
    ensures holdings.Some? ==> |holdings.value| == |rows|
    ensures holdings.Some? ==> forall i :: 0 <= i < |rows| ==> holdings.value[i] == Enrich(rows[i], decode, parse, now).value
  {
    var out: seq<Row> := [];
    var i := 0;
    while i < |rows|
      invariant 0 <= i <= |rows|
      invariant |out| == i
      invariant forall j :: 0 <= j < i ==> Enrich(rows[j], decode, parse, now).Some? && out[j] == Enrich(rows[j], decode, parse, now).value
    {
      var holding := Enrich(rows[i], decode, parse, now);
      if holding.None? {
        return None;
      }
      out := out + [holding.value];
      i := i + 1;
    }
    return Some(out);
  }

  // ---------------------------------------------------------------- sums and counts

  /** `[row.get(key, default) for row in rows]`. */
  function Column(rows: seq<Row>, key: string, default: Value): (r: seq<Value>)
    ensures |r| == |rows|
    ensures forall i :: 0 <= i < |rows| ==> r[i] == Get(rows[i], key, default)
  {
    seq(|rows|, i requires 0 <= i < |rows| => Get(rows[i], key, default))
  }

  /** `sum(values)`: defined when every value is a number. */
  function SumOf(values: seq<Value>): (r: Option<real>)
    ensures r.Some? <==> forall i :: 0 <= i < |values| ==> Number(values[i]).Some?
    ensures |values| == 0 ==> r == Some(0.0)
  {
    if |values| == 0 then Some(0.0)
    else
      var init := values[..|values| - 1];
      assert forall i :: 0 <= i < |init| ==> init[i] == values[i];
      match SumOf(init)
      case None => None
      case Some(s) =>
        match Number(values[|values| - 1])
        case None => None
        case Some(x) => Some(s + x)
  }

  /** `sum(1 for v in values if v > 0)`: comparing something that is not a number with 0 raises. */
  function Wins(values: seq<Value>): (r: Option<nat>)
    ensures r.Some? <==> forall i :: 0 <= i < |values| ==> Less(Int(0), values[i]).Some?
    ensures r.Some? ==> r.value <= |values|
    ensures r.Some? ==> (r.value == |values| <==> forall i :: 0 <= i < |values| ==> Less(Int(0), values[i]) == Some(true))
    ensures r.Some? ==> (r.value == 0 <==> forall i :: 0 <= i < |values| ==> Less(Int(0), values[i]) == Some(false))
  {
    if |values| == 0 then Some(0)
    else
      var init := values[..|values| - 1];
      var last := values[|values| - 1];
      assert forall i :: 0 <= i < |init| ==> init[i] == values[i];
      match Wins(init)
      case None => None
      case Some(n) =>
        match Less(Int(0), last)
        case None => None
        case Some(win) => Some(if win then n + 1 else n)
  }

  /** `sum(1 for v in values if v)`. */
  function TruthyCount(values: seq<Value>): (r: nat)
    ensures r <= |values|
    ensures r == |values| <==> forall i :: 0 <= i < |values| ==> Truthy(values[i])
    ensures r == 0 <==> forall i :: 0 <= i < |values| ==> !Truthy(values[i])
  {
    if |values| == 0 then 0
    else
      var init := values[..|values| - 1];
      assert forall i :: 0 <= i < |init| ==> init[i] == values[i];
      TruthyCount(init) + (if Truthy(values[|values| - 1]) then 1 else 0)
  }

  // ---------------------------------------------------------------- distributions

  /** A `dict` of counts in insertion order, keyed by what Python's `==` identifies. */
  type Tally = seq<(Key, nat)>

  predicate Distinct(t: Tally)
  {
    forall i, j :: 0 <= i < j < |t| ==> t[i].0 != t[j].0
  }

  /** `t.get(k, 0)`. */
  function Count(t: Tally, k: Key): (n: nat)
    ensures (forall i :: 0 <= i < |t| ==> t[i].0 != k) ==> n == 0
  {
    if |t| == 0 then 0
    else if t[0].0 == k then t[0].1
    else Count(t[1..], k)
  }

  /** `sum(t.values())`. */
  function Total(t: Tally): nat
  {
    if |t| == 0 then 0 else t[0].1 + Total(t[1..])
  }

  /** The keys of the dict. */
  function Keys(t: Tally): (ks: set<Key>)
    ensures forall i :: 0 <= i < |t| ==> t[i].0 in ks
  {
    if |t| == 0 then {}
    else
      assert forall i :: 1 <= i < |t| ==> t[i] == t[1..][i - 1];
      {t[0].0} + Keys(t[1..])
  }

  /** A key no entry has is not among the keys. */
  lemma {:induction false} AbsentKey(t: Tally, k: Key)
    requires forall i :: 0 <= i < |t| ==> t[i].0 != k
    ensures k !in Keys(t)
  {
    if |t| > 0 {
      assert forall i :: 0 <= i < |t| - 1 ==> t[1..][i] == t[i + 1];
      AbsentKey(t[1..], k);
    }
  }

  lemma KeysCons(x: (Key, nat), t: Tally)
    ensures Keys([x] + t) == {x.0} + Keys(t)
  {
    assert ([x] + t)[1..] == t;
  }

  /** `t[k] = t.get(k, 0) + 1`: a new key goes last. */
  function Bump(t: Tally, k: Key): (r: Tally)
    requires Distinct(t)
    ensures Distinct(r)
    ensures Keys(r) == Keys(t) + {k}
    ensures Total(r) == Total(t) + 1
    ensures forall j :: Count(r, j) == Count(t, j) + (if j == k then 1 else 0)
  {
    if |t| == 0 then
      assert forall j :: Count([(k, 1)], j) == (if j == k then 1 else 0) by {
        forall j ensures Count([(k, 1)], j) == (if j == k then 1 else 0) {
          assert [(k, 1)][1..] == [];
        }
      }
      [(k, 1)]
    else if t[0].0 == k then
      var r := [(k, t[0].1 + 1)] + t[1..];
      assert r[1..] == t[1..];
      assert forall j :: j != k ==> Count(r, j) == Count(t[1..], j);
      assert Keys(r) == Keys(t) by {
        assert forall i :: 1 <= i < |t| ==> r[i] == t[i];
      }
      r
    else
      var tail := t[1..];
      assert forall i :: 0 <= i < |tail| ==> tail[i] == t[i + 1];
      var rest := Bump(tail, k);
      var r := [t[0]] + rest;
      assert r[1..] == rest;
      AbsentKey(tail, t[0].0);
      KeysCons(t[0], tail);
      assert [t[0]] + tail == t;
      KeysCons(t[0], rest);
      r
  }

  /**
   * The dict key a holding is counted under: `scenario.get(field, default)` of its
   * `h.get('scenario', {})`. A scenario that is not a dict (a decoded list, say)
   * raises `AttributeError`; a key that is a list or dict raises `TypeError`.
   */
  function GroupKey(h: Row, field: string, default: string): (k: Option<Key>)
    ensures k.Some? <==> var s := Get(h, "scenario", Dict(map[])); s.Dict? && Hashable(Get(s.fields, field, Str(default)))
    ensures k.Some? ==> var s := Get(h, "scenario", Dict(map[])); k.value == KeyOf(Get(s.fields, field, Str(default)))
    ensures GroupKey(h, field, default).Some? && (var s := Get(h, "scenario", Dict(map[])); field !in s.fields) ==> k == Some(StrKey(default))
  {
    match GetIn(Get(h, "scenario", Dict(map[])), field, Str(default))
    case None => None
    case Some(v) => if Hashable(v) then Some(KeyOf(v)) else None
  }

  /** How many of the holdings are counted under key `k`. */
  function Occurs(hs: seq<Row>, field: string, default: string, k: Key): (n: nat)
    ensures n <= |hs|
  {
    if |hs| == 0 then 0
    else Occurs(hs[..|hs| - 1], field, default, k) + (if GroupKey(hs[|hs| - 1], field, default) == Some(k) then 1 else 0)
  }

  lemma OccursNext(hs: seq<Row>, field: string, default: string, i: nat)
    requires i < |hs|
    ensures forall k :: Occurs(hs[..i + 1], field, default, k) == Occurs(hs[..i], field, default, k) + (if GroupKey(hs[i], field, default) == Some(k) then 1 else 0)
  {
    assert hs[..i + 1][..i] == hs[..i];
  }

  /** `t` holds the counts of the holdings `hs`. */
  ghost predicate Tallies(t: Tally, hs: seq<Row>, field: string, default: string)
  {
    forall k :: Count(t, k) == Occurs(hs, field, default, k)
  }

  lemma TalliesNext(t: Tally, hs: seq<Row>, field: string, default: string, i: nat)
    requires i < |hs| && Distinct(t) && Tallies(t, hs[..i], field, default)
    requires GroupKey(hs[i], field, default).Some?
    ensures Tallies(Bump(t, GroupKey(hs[i], field, default).value), hs[..i + 1], field, default)
  {
    OccursNext(hs, field, default, i);
  }

  /**
   * A distribution loop of `calculate_portfolio_summary`: one count per holding,
   * under the key `GroupKey` gives it, so the counts add up to the number of
   * holdings.
   */
  method Distribution(hs: seq<Row>, field: string, default: string) returns (d: Option<Tally>)
    ensures d.Some? <==> forall i :: 0 <= i < |hs| ==> GroupKey(hs[i], field, default).Some?
    ensures d.Some? ==> Distinct(d.value) && Total(d.value) == |hs|
    ensures d.Some? ==> forall k :: Count(d.value, k) == Occurs(hs, field, default, k)
  {
    var t: Tally := [];
    var i := 0;
    while i < |hs|
      invariant 0 <= i <= |hs|
      invariant Distinct(t) && Total(t) == i
      invariant forall j :: 0 <= j < i ==> GroupKey(hs[j], field, default).Some?
      invariant Tallies(t, hs[..i], field, default)
    {
      var g := GroupKey(hs[i], field, default);
      if g.None? {
        return None;
      }
      TalliesNext(t, hs, field, default, i);
      t := Bump(t, g.value);
      i := i + 1;
    }
    assert hs[..i] == hs;
    return Some(t);
  }

  // ---------------------------------------------------------------- summaries

  /** The number of slots the portfolio summary measures usage against. */
  const Slots := 10

  /** `calculate_portfolio_summary`; an empty portfolio has no distributions. */
  datatype PortfolioSummary = PortfolioSummary(totalStocks: nat, totalProfit: real, avgProfitRate: real,
                                               slotUsage: string, slotPercentage: real,
                                               distributions: Option<(Tally, Tally)>)

  /** The summary of `n` holdings with the given profit sum and distributions. */
  function PortfolioOf(n: nat, total: real, sectors: Tally, periods: Tally): (s: PortfolioSummary)
    requires n > 0
    ensures s.totalStocks == n && s.totalProfit == total && s.avgProfitRate * (n as real) == total
    ensures s.slotUsage == NatToString(n) + "/10" && s.slotPercentage == (n * Slots) as real
    ensures s.distributions == Some((sectors, periods))
  {
    var avg := total / (n as real);
    assert avg * (n as real) == total;
    PortfolioSummary(n, total, avg, NatToString(n) + "/" + NatToString(Slots), (n as real) / (Slots as real) * 100.0,
                     Some((sectors, periods)))
  }

  method SummarizePortfolio(hs: seq<Row>) returns (s: Option<PortfolioSummary>)
    ensures |hs| == 0 ==> s == Some(PortfolioSummary(0, 0.0, 0.0, "0/10", 0.0, None))
    ensures |hs| > 0 ==> (s.Some? <==> SumOf(Column(hs, "profit_rate", Int(0))).Some? &&
                                       (forall i :: 0 <= i < |hs| ==> GroupKey(hs[i], "sector", "기타").Some?) &&
                                       (forall i :: 0 <= i < |hs| ==> GroupKey(hs[i], "investment_period", "단기").Some?))
    ensures |hs| > 0 && s.Some? ==>
      s.value.distributions.Some? &&
      s.value == PortfolioOf(|hs|, SumOf(Column(hs, "profit_rate", Int(0))).value,
                             s.value.distributions.value.0, s.value.distributions.value.1)
    ensures |hs| > 0 && s.Some? && s.value.distributions.Some? ==>
      (var (sectors, periods) := s.value.distributions.value;
       Distinct(sectors) && Total(sectors) == |hs| && Distinct(periods) && Total(periods) == |hs| &&
       (forall k :: Count(sectors, k) == Occurs(hs, "sector", "기타", k)) &&
       (forall k :: Count(periods, k) == Occurs(hs, "investment_period", "단기", k)))
  {
    if |hs| == 0 {
      return Some(PortfolioSummary(0, 0.0, 0.0, "0/10", 0.0, None));
    }
    var total := SumOf(Column(hs, "profit_rate", Int(0)));
    if total.None? {
      return None;
    }
    var sectors := Distribution(hs, "sector", "기타");
    if sectors.None? {
      return None;
    }
    var periods := Distribution(hs, "investment_period", "단기");
    if periods.None? {
      return None;
    }
    s := Some(PortfolioOf(|hs|, total.value, sectors.value, periods.value));
  }

  /** `calculate_trading_summary`. */
  datatype TradingSummary = TradingSummary(totalTrades: nat, winCount: nat, lossCount: nat, winRate: real,
                                           avgProfitRate: real, avgHoldingDays: real)

  /** The summary of `n` trades, `wins` of them won, with the given profit and day sums. */
  function TradingOf(n: nat, wins: nat, profit: real, days: real): (t: TradingSummary)
    requires 0 < n && wins <= n
    ensures t.totalTrades == n && t.winCount == wins && t.winCount + t.lossCount == n
    ensures t.winRate * (n as real) == (wins as real) * 100.0 && 0.0 <= t.winRate <= 100.0
    ensures t.winRate == 100.0 <==> wins == n
    ensures t.winRate == 0.0 <==> wins == 0
    ensures t.avgProfitRate * (n as real) == profit && t.avgHoldingDays * (n as real) == days
  {
    WinRateBounds(wins, n);
    TradingSummary(n, wins, n - wins, (wins as real) / (n as real) * 100.0, profit / (n as real), days / (n as real))
  }

  function SummarizeTrading(history: seq<Row>): (r: Option<TradingSummary>)
    ensures |history| == 0 ==> r == Some(TradingSummary(0, 0, 0, 0.0, 0.0, 0.0))
    ensures |history| > 0 ==> (r.Some? <==> Wins(Column(history, "profit_rate", Int(0))).Some? &&
                                            SumOf(Column(history, "profit_rate", Int(0))).Some? &&
                                            SumOf(Column(history, "holding_days", Int(0))).Some?)
    ensures |history| > 0 && r.Some? ==>
      r == Some(TradingOf(|history|, Wins(Column(history, "profit_rate", Int(0))).value,
                          SumOf(Column(history, "profit_rate", Int(0))).value, SumOf(Column(history, "holding_days", Int(0))).value))
  {
    if |history| == 0 then Some(TradingSummary(0, 0, 0, 0.0, 0.0, 0.0))
    else
      var rates := Column(history, "profit_rate", Int(0));
      match Wins(rates)
      case None => None
      case Some(wins) =>
        match SumOf(rates)
        case None => None
        case Some(profit) =>
          match SumOf(Column(history, "holding_days", Int(0)))
          case None => None
          case Some(days) => Some(TradingOf(|history|, wins, profit, days))
  }

  /** A share of a positive count, in percent, lies in [0, 100] and is 100 only for the whole. */
  lemma WinRateBounds(w: nat, n: nat)
    requires 0 < n && w <= n
    ensures (w as real) / (n as real) * 100.0 * (n as real) == (w as real) * 100.0
    ensures 0.0 <= (w as real) / (n as real) * 100.0 <= 100.0
    ensures (w as real) / (n as real) * 100.0 == 100.0 <==> w == n
    ensures (w as real) / (n as real) * 100.0 == 0.0 <==> w == 0
  {
    var q := (w as real) / (n as real);
    assert q * (n as real) == w as real;
    assert 0.0 <= q <= 1.0;
    if q == 1.0 {
      assert w as real == n as real;
    }
  }

  /** `get_ai_decision_summary`. */
  datatype DecisionSummary = DecisionSummary(totalDecisions: nat, sellSignals: nat, holdSignals: nat,
                                             adjustmentNeeded: nat, avgConfidence: real)

  /** The summary of `n` decisions, `sells` of them to sell and `adjust` asking for an adjustment. */
  function DecisionsOf(n: nat, sells: nat, adjust: nat, confidence: real): (d: DecisionSummary)
    requires 0 < n && sells <= n
    ensures d.totalDecisions == n && d.sellSignals == sells && d.sellSignals + d.holdSignals == n
    ensures d.adjustmentNeeded == adjust && d.avgConfidence * (n as real) == confidence
    ensures adjust <= n ==> d.adjustmentNeeded <= d.totalDecisions
  {
    DecisionSummary(n, sells, n - sells, adjust, confidence / (n as real))
  }

  function SummarizeDecisions(ds: seq<Row>): (r: Option<DecisionSummary>)
    ensures |ds| == 0 ==> r == Some(DecisionSummary(0, 0, 0, 0, 0.0))
    ensures |ds| > 0 ==> (r.Some? <==> SumOf(Column(ds, "confidence", Int(0))).Some?)
    ensures |ds| > 0 && r.Some? ==>
      r == Some(DecisionsOf(|ds|, TruthyCount(Column(ds, "should_sell", Bool(false))),
                            TruthyCount(Column(ds, "portfolio_adjustment_needed", Bool(false))),
                            SumOf(Column(ds, "confidence", Int(0))).value))
    ensures r.Some? ==> r.value.adjustmentNeeded <= r.value.totalDecisions
  {
    if |ds| == 0 then Some(DecisionSummary(0, 0, 0, 0, 0.0))
    else
      var n := |ds|;
      var sells := TruthyCount(Column(ds, "should_sell", Bool(false)));
      var adjust := TruthyCount(Column(ds, "portfolio_adjustment_needed", Bool(false)));
      match SumOf(Column(ds, "confidence", Int(0)))
      case None => None
      case Some(c) => Some(DecisionsOf(n, sells, adjust, c))
  }

  // ---------------------------------------------------------------- the brokerage portfolio

  /** A row of the real-trading portfolio as the dashboard shows it. */
  datatype Holding = Holding(ticker: string, name: string, quantity: int, avgPrice: real, currentPrice: real,
                             value: real, profit: real, profitRate: real, sector: string, weight: real)

  const RealSector := "실전투자"

  /** The dict built for one brokerage row, its weight still 0. */
  function FormatStock(e: DomesticTrading.Entry): (h: Holding)
    ensures h.ticker == e.code && h.name == e.name && h.quantity == e.quantity && h.value == e.evalAmount
    ensures h.avgPrice == e.avgPrice && h.currentPrice == e.currentPrice && h.profit == e.profitAmount && h.profitRate == e.profitRate
    ensures h.sector == RealSector && h.weight == 0.0
  {
    Holding(e.code, e.name, e.quantity, e.avgPrice, e.currentPrice, e.evalAmount, e.profitAmount, e.profitRate, RealSector, 0.0)
  }

  /** `sum(s["value"] for s in portfolio)`. */
  function ValueSum(hs: seq<Holding>): real
  {
    if |hs| == 0 then 0.0 else ValueSum(hs[..|hs| - 1]) + hs[|hs| - 1].value
  }

  /** The sum of the weights. */
  function WeightSum(hs: seq<Holding>): real
  {
    if |hs| == 0 then 0.0 else WeightSum(hs[..|hs| - 1]) + hs[|hs| - 1].weight
  }

  /** Every holding with `weight = value / total * 100`. */
  function Weighted(hs: seq<Holding>, total: real): (r: seq<Holding>)
    requires total > 0.0
    ensures |r| == |hs|
    ensures forall i :: 0 <= i < |hs| ==> r[i] == hs[i].(weight := hs[i].value / total * 100.0)
  {
    seq(|hs|, i requires 0 <= i < |hs| => hs[i].(weight := hs[i].value / total * 100.0))
  }

  /** The weights of a weighted portfolio add up to its share of `total`, in percent. */
  lemma {:induction false} WeightedSum(hs: seq<Holding>, total: real)
    requires total > 0.0
    ensures WeightSum(Weighted(hs, total)) == ValueSum(hs) / total * 100.0
  {
    if |hs| > 0 {
      var init := hs[..|hs| - 1];
      var x := hs[|hs| - 1].value;
      WeightedSum(init, total);
      assert Weighted(hs, total)[..|hs| - 1] == Weighted(init, total);
      assert (ValueSum(init) + x) / total == ValueSum(init) / total + x / total;
    }
  }

  /** So weighting by the portfolio's own total gives weights that add up to 100. */
  lemma WeightsMakeHundred(hs: seq<Holding>)
    requires ValueSum(hs) > 0.0
    ensures WeightSum(Weighted(hs, ValueSum(hs))) == 100.0
  {
    var v := ValueSum(hs);
    WeightedSum(hs, v);
    assert v / v == 1.0;
  }

  /** Formatting leaves every weight at 0, so they add up to 0. */
  lemma {:induction false} UnweightedSum(hs: seq<Holding>)
    requires forall i :: 0 <= i < |hs| ==> hs[i].weight == 0.0
    ensures WeightSum(hs) == 0.0
  {
    if |hs| > 0 {
      UnweightedSum(hs[..|hs| - 1]);
    }
  }

  /** The loop assigning the weights in place. */
  method AssignWeights(a: array<Holding>, total: real)
    requires total > 0.0
    modifies a
    ensures a[..] == Weighted(old(a[..]), total)
  {
    var i := 0;
    while i < a.Length
      invariant 0 <= i <= a.Length
      invariant forall j :: 0 <= j < i ==> a[j] == old(a[j]).(weight := old(a[j]).value / total * 100.0)
      invariant forall j :: i <= j < a.Length ==> a[j] == old(a[j])
    {
      a[i] := a[i].(weight := a[i].value / total * 100.0);
      i := i + 1;
    }
  }

  /**
   * `get_kis_trading_data`: without the brokerage module, or when creating the
   * trader raises, an empty portfolio and `{}`; otherwise the portfolio of the
   * first balance inquiry, formatted and weighted when its total value is positive,
   * and the account summary of the second.
   */
  method KisTradingData(available: bool, created: bool, positions: DomesticTrading.Balance, totals: DomesticTrading.Balance)
    returns (portfolio: seq<Holding>, account: DomesticTrading.Account)
    ensures !available || !created ==> portfolio == [] && account == DomesticTrading.EmptyAccount
    ensures available && created ==> account == DomesticTrading.AccountSummary(totals)
    ensures available && created ==> |portfolio| == |DomesticTrading.Portfolio(positions)|
    ensures available && created ==> forall i :: 0 <= i < |portfolio| ==>
      portfolio[i].(weight := 0.0) == FormatStock(DomesticTrading.Portfolio(positions)[i])
    ensures ValueSum(portfolio) > 0.0 ==> WeightSum(portfolio) == 100.0
    ensures ValueSum(portfolio) <= 0.0 ==> forall i :: 0 <= i < |portfolio| ==> portfolio[i].weight == 0.0
  {
    if !available || !created {
      return [], DomesticTrading.EmptyAccount;
    }
    var entries := DomesticTrading.Portfolio(positions);
    account := DomesticTrading.AccountSummary(totals);
    var formatted := seq(|entries|, i requires 0 <= i < |entries| => FormatStock(entries[i]));
    var total := ValueSum(formatted);
    if total > 0.0 {
      var a := new Holding[|formatted|](i requires 0 <= i < |formatted| => formatted[i]);
      assert a[..] == formatted;
      AssignWeights(a, total);
      portfolio := a[..];
      WeightsMakeHundred(formatted);
      WeightedValues(formatted, total);
    } else {
      portfolio := formatted;
    }
  }

  /** Weighting keeps the values, so a weighted portfolio keeps its total. */
  lemma {:induction false} WeightedValues(hs: seq<Holding>, total: real)
    requires total > 0.0
    ensures ValueSum(Weighted(hs, total)) == ValueSum(hs)
  {
    if |hs| > 0 {
      WeightedValues(hs[..|hs| - 1], total);
      assert Weighted(hs, total)[..|hs| - 1] == Weighted(hs[..|hs| - 1], total);
    }
  }

  /** `calculate_real_trading_summary`; an amount missing from the account summary reads as 0. */
  datatype RealSummary = RealSummary(totalStocks: nat, totalEvalAmount: real, totalProfitAmount: real,
                                     totalProfitRate: real, availableAmount: real)

  /**
   * Zeros when both the portfolio and the account summary are empty (`None`
   * counts as empty); otherwise the portfolio's size and the account's totals.
   * A `None` account beside a non-empty portfolio raises `AttributeError`.
   */
  function SummarizeRealTrading(portfolio: seq<Holding>, account: DomesticTrading.Account): (r: Option<RealSummary>)
    ensures |portfolio| == 0 && !account.Account? ==> r == Some(RealSummary(0, 0.0, 0.0, 0.0, 0.0))
    ensures r.None? <==> |portfolio| > 0 && account.NoAccount?
    ensures r.Some? ==> r.value.totalStocks == |portfolio|
    ensures account.Account? ==> r == Some(RealSummary(|portfolio|, account.totalEval, account.profit, account.rate, account.available))
    ensures account.EmptyAccount? ==> r == Some(RealSummary(|portfolio|, 0.0, 0.0, 0.0, 0.0))
  {
    if |portfolio| == 0 && !account.Account? then Some(RealSummary(0, 0.0, 0.0, 0.0, 0.0))
    else match account
      case NoAccount => None
      case EmptyAccount => Some(RealSummary(|portfolio|, 0.0, 0.0, 0.0, 0.0))
      case Account(totalEval, profit, rate, _, available) => Some(RealSummary(|portfolio|, totalEval, profit, rate, available))
  }

  /** Without the brokerage the real-trading summary is all zeros. */
  method UnavailableSummary(positions: DomesticTrading.Balance, totals: DomesticTrading.Balance) returns (r: Option<RealSummary>)
    ensures r == Some(RealSummary(0, 0.0, 0.0, 0.0, 0.0))
  {
    var portfolio, account := KisTradingData(false, true, positions, totals);
    r := SummarizeRealTrading(portfolio, account);
  }
}
