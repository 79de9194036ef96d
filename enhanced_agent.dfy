/**
 * The enhanced tracking agent: the base agent's tables together with the market
 * condition, the per-ticker volatility cache and the `watchlist_history` table.
 * It fills in a missing target or stop from the stock's volatility before a buy,
 * gates entries on the scenario's `buy_score` against its `min_score`, records
 * every report it does not buy in the watchlist with a notice, and applies the
 * target and stop adjustments an analysis proposes for a holding.
 *
 * As for the base agent, each operation is a transition function on `EState`,
 * the lemmas are stated about those, and the class `EnhancedAgent` is proved to
 * make exactly those transitions.
 */
module EnhancedAgent {
  import opened Wrappers
  import opened Text
  import opened Format
  import opened PyValue
  import opened TrackingRules
  import opened TrackingAgent
  import opened EnhancedRules

  // ---------------------------------------------------------------------------
  // State and inputs
  // ---------------------------------------------------------------------------

  /** A row of `watchlist_history`; the columns after `reason` are read from the scenario when the row is written. */
  datatype WatchRow = WatchRow(ticker: string, name: string, price: real, date: string, buyScore: Value, minScore: Value,
    decision: Value, reason: string, scenario: map<string, Value>, sector: Value)

  /** The base tables, the market condition, the volatility cache and the watchlist. */
  datatype EState = EState(t: Tables, condition: int, cache: map<string, real>, watchlist: seq<WatchRow>)

  /** How fetching 60 days of closes for a ticker ends: an error, no rows, or the volatility of the daily returns. */
  datatype VolFetch = VolFailed | NoData | Vol(v: real)

  /** What the enhanced agent reads from the market data service. */
  datatype Market = Market(volatility: string -> VolFetch, trend: string -> TrendData)

  /** What `_analyze_simple_market_condition` computes from a month of both indices, or the failure of that fetch. */
  datatype IndexData = IndexFailed | Indices(kospiSlope: real, kosdaqSlope: real, kospiVol: real, kosdaqVol: real)

  /** The builder of the notice for a report that is not bought. */
  type SkipNotice = (string, string, real, Value, Value, map<string, Value>, string) -> string

  // ---------------------------------------------------------------------------
  // Market condition and volatility
  // ---------------------------------------------------------------------------

  /**
   * `_analyze_simple_market_condition`: the condition of the two slopes is kept
   * and returned with the mean volatility. When the fetch fails nothing changes
   * and (0, 0) is returned; when only the logging insert fails the condition is
   * kept but (0, 0) is returned.
   */
  function MarketStep(condition: int, d: IndexData, logged: bool): (r: (int, (int, real)))
    ensures d.IndexFailed? ==> r == (condition, (0, 0.0))
    ensures d.Indices? ==> r.0 == MarketCondition(d.kospiSlope, d.kosdaqSlope)
    ensures d.Indices? && logged ==> r.1 == (r.0, (d.kospiVol + d.kosdaqVol) / 2.0)
    ensures d.Indices? && !logged ==> r.1 == (0, 0.0)
  {
    match d
    case IndexFailed => (condition, (0, 0.0))
    case Indices(ks, qs, kv, qv) =>
      var c := MarketCondition(ks, qs);
      if logged then (c, (c, (kv + qv) / 2.0)) else (c, (0, 0.0))
  }

  /**
   * `_get_stock_volatility`: a cached value is returned as it is; a computed
   * value is stored and returned; no rows or an error give 15 without storing.
   */
  function Volatility(cache: map<string, real>, m: Market, ticker: string): (r: (real, map<string, real>))
  {
    if ticker in cache then (cache[ticker], cache)
    else match m.volatility(ticker)
      case Vol(v) => (v, cache[ticker := v])
      case _ => (DefaultVolatility, cache)
  }

  /** Asking twice gives the same volatility, and the second time leaves the cache alone. */
  lemma VolatilityIdempotent(cache: map<string, real>, m: Market, ticker: string)
    ensures var first := Volatility(cache, m, ticker);
      Volatility(first.1, m, ticker) == first || (ticker !in first.1 && Volatility(first.1, m, ticker) == (DefaultVolatility, first.1) && first.0 == DefaultVolatility)
  {
  }

  /** The cache only grows: an entry once stored never changes, and only the ticker asked for can be added. */
  lemma VolatilityKeepsEntries(cache: map<string, real>, m: Market, ticker: string)
    ensures var r := Volatility(cache, m, ticker);
      (forall k :: k in cache ==> k in r.1 && r.1[k] == cache[k])
      && (forall k :: k in r.1 && k !in cache ==> k == ticker && m.volatility(ticker) == Vol(r.0))
      && (ticker in cache ==> r.0 == cache[ticker])
      && (ticker !in r.1 ==> r.0 == DefaultVolatility && !m.volatility(ticker).Vol?)
  {
  }

  // ---------------------------------------------------------------------------
  // Buying with dynamic target and stop
  // ---------------------------------------------------------------------------

  /** Python's `v <= 0`: `None` where the comparison raises. */
  function AtMostZero(v: Value): (r: Option<bool>)
    ensures Number(v).Some? <==> r.Some?
    ensures r.Some? ==> r.value == (Number(v).value <= 0.0)
  {
    match Less(Int(0), v)
    case Some(b) => Some(!b)
    case None => None
  }

  /** The outcome of filling one price of the scenario: whether the comparison raised, the scenario and the cache after it. */
  datatype Fill = Fill(raised: bool, scenario: map<string, Value>, cache: map<string, real>)

  /**
   * One half of the `buy_stock` override: when the scenario's `key` (0 when
   * missing) is at most 0, it is replaced by the dynamic price for the
   * ticker's volatility; when it cannot be compared with 0 the buy raises.
   */
  function FillPrice(cache: map<string, real>, condition: int, m: Market, ticker: string, price: real,
                     scenario: map<string, Value>, key: string, isTarget: bool): (f: Fill)
    ensures f.raised <==> Number(Get(scenario, key, Int(0))).None?
    ensures f.raised ==> f.scenario == scenario && f.cache == cache
    ensures AtMostZero(Get(scenario, key, Int(0))) == Some(false) ==> f == Fill(false, scenario, cache)
    ensures AtMostZero(Get(scenario, key, Int(0))) == Some(true) ==>
      var v := Volatility(cache, m, ticker);
      f == Fill(false, scenario[key := Float(if isTarget then DynamicTarget(price, v.0, condition) else DynamicStop(price, v.0, condition))], v.1)
  {
    match AtMostZero(Get(scenario, key, Int(0)))
    case None => Fill(true, scenario, cache)
    case Some(false) => Fill(false, scenario, cache)
    case Some(true) =>
      var v := Volatility(cache, m, ticker);
      var p := if isTarget then DynamicTarget(price, v.0, condition) else DynamicStop(price, v.0, condition);
      Fill(false, scenario[key := Float(p)], v.1)
  }

  /**
   * The `buy_stock` override: fill in the target, then the stop, then buy as the
   * base agent does with that scenario. A raised comparison refuses the buy;
   * a volatility cached on the way stays cached.
   */
  function EnhancedBuy(s: EState, n: Notices, maxSlots: int, m: Market, ticker: string, name: string, price: real,
                       scenario: map<string, Value>, rankMsg: string, now: string): (r: (bool, EState))
    ensures r.1.condition == s.condition && r.1.watchlist == s.watchlist
  {
    var a := FillPrice(s.cache, s.condition, m, ticker, price, scenario, "target_price", true);
    if a.raised then (false, s)
    else
      var b := FillPrice(a.cache, s.condition, m, ticker, price, a.scenario, "stop_loss", false);
      if b.raised then (false, s.(cache := b.cache))
      else
        var bought := Buy(s.t, n, maxSlots, ticker, name, price, b.scenario, rankMsg, now);
        (bought.0, s.(t := bought.1, cache := b.cache))
  }

  /** The scenario the override hands to the base buy. */
  function FilledScenario(s: EState, m: Market, ticker: string, price: real, scenario: map<string, Value>): map<string, Value>
  {
    var a := FillPrice(s.cache, s.condition, m, ticker, price, scenario, "target_price", true);
    FillPrice(a.cache, s.condition, m, ticker, price, a.scenario, "stop_loss", false).scenario
  }

  /** A positive target and stop from the caller pass through unchanged. */
  lemma PositivePricesPassThrough(s: EState, m: Market, ticker: string, price: real, scenario: map<string, Value>)
    requires AtMostZero(Get(scenario, "target_price", Int(0))) == Some(false)
    requires AtMostZero(Get(scenario, "stop_loss", Int(0))) == Some(false)
    ensures FilledScenario(s, m, ticker, price, scenario) == scenario
  {
  }

  /**
   * Once filled, the target lies above and the stop below a positive buy price
   * whenever the scenario had no positive value of its own.
   */
  lemma {:induction false} FilledPricesAreOrdered(s: EState, m: Market, ticker: string, price: real, scenario: map<string, Value>)
    requires price > 0.0
    requires AtMostZero(Get(scenario, "target_price", Int(0))) == Some(true)
    requires AtMostZero(Get(scenario, "stop_loss", Int(0))) == Some(true)
    ensures var sc := FilledScenario(s, m, ticker, price, scenario);
      "target_price" in sc && "stop_loss" in sc && sc["target_price"].Float? && sc["stop_loss"].Float?
      && sc["stop_loss"].r < price < sc["target_price"].r
  {
    var a := FillPrice(s.cache, s.condition, m, ticker, price, scenario, "target_price", true);
    var v := Volatility(s.cache, m, ticker);
    assert a.scenario == scenario["target_price" := Float(DynamicTarget(price, v.0, s.condition))];
    assert Get(a.scenario, "stop_loss", Int(0)) == Get(scenario, "stop_loss", Int(0));
    var w := Volatility(a.cache, m, ticker);
    var b := FillPrice(a.cache, s.condition, m, ticker, price, a.scenario, "stop_loss", false);
    assert b.scenario == a.scenario["stop_loss" := Float(DynamicStop(price, w.0, s.condition))];
  }

  /** The stop is filled with the volatility the target was: the first lookup is cached or the fallback, and both lookups agree. */
  lemma FillUsesOneVolatility(s: EState, m: Market, ticker: string)
    ensures var v := Volatility(s.cache, m, ticker);
      Volatility(v.1, m, ticker).0 == v.0
  {
  }

  // ---------------------------------------------------------------------------
  // The entry gate of `process_reports`
  // ---------------------------------------------------------------------------

  /** What the enhanced batch does with a candidate: buy it, hold it back with a decision and a reason, or raise. */
  datatype Gate = Enter | HoldBack(decision: Value, reason: string) | GateRaises

  function BuyScore(a: Analysis): Value requires a.Candidate? { Get(a.scenario, "buy_score", Int(0)) }

  function MinScore(a: Analysis): Value requires a.Candidate? { Get(a.scenario, "min_score", Int(0)) }

  /**
   * The gate: a candidate decided "진입" whose score is not below the minimum
   * and whose sector may be bought is entered. Otherwise the reason is the
   * sector first, then the score (which turns "진입" into "관망"), then the
   * decision; a score Python cannot compare raises wherever it is compared.
   */
  function EntryGate(a: Analysis): (g: Gate)
    requires a.Candidate?
  {
    var entry := a.decision == Str("진입");
    var lt := Less(BuyScore(a), MinScore(a));
    if entry && lt.None? then GateRaises
    else if entry && lt == Some(false) && a.diverse then Enter
    else if !a.diverse then HoldBack(a.decision, "산업군 '" + Show(a.sector) + "' 과다 투자 방지")
    else match lt
      case None => GateRaises
      case Some(true) => HoldBack(if entry then Str("관망") else a.decision,
                                  "매수 점수 부족 (" + Show(BuyScore(a)) + " < " + Show(MinScore(a)) + ")")
      case Some(false) => HoldBack(a.decision, "분석 결정이 '관망'")
  }

  /** A candidate is bought exactly when it is decided "진입", its score is not below the minimum and its sector may be bought. */
  lemma EntryGateEnters(a: Analysis)
    requires a.Candidate?
    ensures EntryGate(a) == Enter <==>
      a.decision == Str("진입") && Less(BuyScore(a), MinScore(a)) == Some(false) && a.diverse
  {
  }

  /** The reason a candidate is held back: the sector before the score before the decision. */
  lemma EntryGateReasons(a: Analysis)
    requires a.Candidate? && EntryGate(a).HoldBack?
    ensures var g := EntryGate(a);
      (!a.diverse <==> g.reason == "산업군 '" + Show(a.sector) + "' 과다 투자 방지")
      && (a.diverse && Less(BuyScore(a), MinScore(a)) == Some(true) <==> StartsWith(g.reason, "매수 점수 부족 ("))
      && (a.diverse && Less(BuyScore(a), MinScore(a)) == Some(false) <==> g.reason == "분석 결정이 '관망'")
      && (a.diverse && Less(BuyScore(a), MinScore(a)) == Some(true) && a.decision == Str("진입") ==> g.decision == Str("관망"))
      && (g.decision != a.decision ==> g.decision == Str("관망") && a.decision == Str("진입"))
  {
    var g := EntryGate(a);
    var sectorReason := "산업군 '" + Show(a.sector) + "' 과다 투자 방지";
    var scoreReason := "매수 점수 부족 (" + Show(BuyScore(a)) + " < " + Show(MinScore(a)) + ")";
    assert StartsWith(scoreReason, "매수 점수 부족 (") by { assert scoreReason[..|"매수 점수 부족 ("|] == "매수 점수 부족 ("; }
    assert !StartsWith(sectorReason, "매수 점수 부족 (") by { assert sectorReason[0] != '매'; }
    assert !StartsWith("분석 결정이 '관망'", "매수 점수 부족 (") by { assert "분석 결정이 '관망'"[0] != "매수 점수 부족 ("[0]; }
    assert sectorReason != "분석 결정이 '관망'" by { assert sectorReason[0] != "분석 결정이 '관망'"[0]; }
  }

  /** A raised gate needs a score that cannot be compared, and a sector that may be bought or an entry decision. */
  lemma EntryGateRaises(a: Analysis)
    requires a.Candidate?
    ensures EntryGate(a) == GateRaises <==>
      Less(BuyScore(a), MinScore(a)).None? && (a.decision == Str("진입") || a.diverse)
  {
  }

  /** A value `sqlite3` can bind: `None`, a bool, a 64-bit integer, a float or a string. */
  predicate Bindable(v: Value)
  {
    v.Null? || v.Bool? || (v.Int? && Int64(v.i)) || v.Float? || v.Str?
  }

  /**
   * `_save_watchlist_item` inserts the row unless a `NOT NULL` column gets
   * `None` or a column value cannot be bound.
   */
  predicate Insertable(row: WatchRow)
  {
    var sc := row.scenario;
    !row.buyScore.Null? && !row.minScore.Null? && !row.decision.Null?
    && Bindable(row.buyScore) && Bindable(row.minScore) && Bindable(row.decision) && Bindable(row.sector)
    && Bindable(Get(sc, "target_price", Int(0))) && Bindable(Get(sc, "stop_loss", Int(0)))
    && Bindable(Get(sc, "investment_period", Str("단기"))) && Bindable(Get(sc, "portfolio_analysis", Str("")))
    && Bindable(Get(sc, "valuation_analysis", Str(""))) && Bindable(Get(sc, "sector_outlook", Str("")))
    && Bindable(Get(sc, "market_condition", Str(""))) && Bindable(Get(sc, "rationale", Str("")))
  }

  /** The notice for a report that is not bought. */
  function SkipMessage(name: string, ticker: string, price: real, buyScore: Value, decision: Value,
                       scenario: map<string, Value>, reason: string): (msg: string)
    ensures StartsWith(msg, "⚠️ 매수 보류: " + name + "(" + ticker + ")\n")
  {
    var head := "⚠️ 매수 보류: " + name + "(" + ticker + ")\n";
    var tail := "현재가: " + Amount(price) + "원\n"
      + "매수 점수: " + Show(buyScore) + "/10\n"
      + "결정: " + Show(decision) + "\n"
      + "시장 상태: " + Show(Get(scenario, "market_condition", Null)) + "\n"
      + "산업군: " + Show(Get(scenario, "sector", Str("알 수 없음"))) + "\n"
      + "보류 이유: " + reason + "\n"
      + "분석 의견: " + Show(Get(scenario, "rationale", Str("정보 없음")));
    StartsWithConcat(head, tail);
    head + tail
  }

  function StandardSkip(): SkipNotice
  {
    (name: string, ticker: string, price: real, buyScore: Value, decision: Value, scenario: map<string, Value>, reason: string) =>
      SkipMessage(name, ticker, price, buyScore, decision, scenario, reason)
  }

  /** Holding a candidate back queues its notice and writes its watchlist row when the row can be inserted. */
  function HoldBackStep(s: EState, skip: SkipNotice, a: Analysis, decision: Value, reason: string, now: string): (r: EState)
    requires a.Candidate?
    ensures r.t.holdings == s.t.holdings && r.t.history == s.t.history && r.condition == s.condition && r.cache == s.cache
    ensures r.t.queue == s.t.queue + [skip(a.name, a.ticker, a.price, BuyScore(a), decision, a.scenario, reason)]
  {
    var msg := skip(a.name, a.ticker, a.price, BuyScore(a), decision, a.scenario, reason);
    var row := WatchRow(a.ticker, a.name, a.price, now, BuyScore(a), MinScore(a), decision, reason, a.scenario, a.sector);
    EState(s.t.(queue := s.t.queue + [msg]), s.condition, s.cache, if Insertable(row) then s.watchlist + [row] else s.watchlist)
  }

  /** One report of the enhanced batch: whether it raised, whether it bought, and the state after it. */
  function EReportStep(s: EState, n: Notices, skip: SkipNotice, maxSlots: int, w: World, m: Market, r: Report): (x: (bool, bool, EState))
    ensures x.0 ==> !x.1 && x.2 == s
    ensures x.2.condition == s.condition
  {
    var a := Analyze(s.t.holdings, w, r);
    if !a.Candidate? then (false, false, s)
    else GateStep(s, n, skip, maxSlots, w, m, a, EntryGate(a))
  }

  /** What a candidate leads to once the gate has ruled on it. */
  function GateStep(s: EState, n: Notices, skip: SkipNotice, maxSlots: int, w: World, m: Market, a: Analysis, g: Gate): (x: (bool, bool, EState))
    requires a.Candidate?
    ensures x.0 <==> g.GateRaises?
    ensures x.0 ==> !x.1 && x.2 == s
    ensures x.2.condition == s.condition
  {
    match g
    case GateRaises => (true, false, s)
    case Enter =>
      var b := EnhancedBuy(s, n, maxSlots, m, a.ticker, a.name, a.price, a.scenario, a.rankMsg, w.now);
      (false, b.0, b.1)
    case HoldBack(d, reason) => (false, false, HoldBackStep(s, skip, a, d, reason, w.now))
  }

  /** Every candidate that is not bought leaves exactly one notice, and a row exactly when the row can be inserted. */
  lemma HeldBackLeavesOneNotice(s: EState, n: Notices, skip: SkipNotice, maxSlots: int, w: World, m: Market, r: Report)
    requires var a := Analyze(s.t.holdings, w, r); a.Candidate? && EntryGate(a).HoldBack?
    ensures var a := Analyze(s.t.holdings, w, r);
      var g := EntryGate(a);
      var x := EReportStep(s, n, skip, maxSlots, w, m, r);
      var row := WatchRow(a.ticker, a.name, a.price, w.now, BuyScore(a), MinScore(a), g.decision, g.reason, a.scenario, a.sector);
      !x.0 && !x.1 && x.2.t.holdings == s.t.holdings
      && |x.2.t.queue| == |s.t.queue| + 1 && x.2.t.queue[|s.t.queue|] == skip(a.name, a.ticker, a.price, BuyScore(a), g.decision, a.scenario, g.reason)
      && (Insertable(row) ==> x.2.watchlist == s.watchlist + [row])
      && (!Insertable(row) ==> x.2.watchlist == s.watchlist)
  {
  }

  /** The enhanced batch's buying half, report by report; it stops at the first report that raises. */
  datatype EBatch = EBatch(aborted: bool, buys: nat, state: EState)

  function EBuyPhase(s: EState, n: Notices, skip: SkipNotice, maxSlots: int, w: World, m: Market, reports: seq<Report>): (b: EBatch)
    ensures b.buys <= |reports|
    ensures b.state.condition == s.condition
    decreases |reports|, 1
  {
    if |reports| == 0 then EBatch(false, 0, s) else EBuyFrom(s, n, skip, maxSlots, w, m, reports)
  }

  /** The buying half from the first of the reports on: that report's step, then the others unless it raised. */
  function EBuyFrom(s: EState, n: Notices, skip: SkipNotice, maxSlots: int, w: World, m: Market, reports: seq<Report>): (b: EBatch)
    requires |reports| > 0
    ensures b.buys <= |reports|
    ensures b.state.condition == s.condition
    decreases |reports|, 0
  {
    var x := EReportStep(s, n, skip, maxSlots, w, m, reports[0]);
    if x.0 then EBatch(true, 0, s)
    else
      var rest := EBuyPhase(x.2, n, skip, maxSlots, w, m, reports[1..]);
      rest.(buys := rest.buys + if x.1 then 1 else 0)
  }

  /** A report step keeps the tables valid. */
  lemma EReportStepValid(s: EState, n: Notices, skip: SkipNotice, maxSlots: int, w: World, m: Market, r: Report)
    requires ValidTables(s.t, maxSlots)
    ensures ValidTables(EReportStep(s, n, skip, maxSlots, w, m, r).2.t, maxSlots)
  {
    var a := Analyze(s.t.holdings, w, r);
    if a.Candidate? {
      GateStepValid(s, n, skip, maxSlots, w, m, a, EntryGate(a));
    }
  }

  lemma GateStepValid(s: EState, n: Notices, skip: SkipNotice, maxSlots: int, w: World, m: Market, a: Analysis, g: Gate)
    requires a.Candidate? && ValidTables(s.t, maxSlots)
    ensures ValidTables(GateStep(s, n, skip, maxSlots, w, m, a, g).2.t, maxSlots)
  {
    if g == Enter {
      var sc := FilledScenario(s, m, a.ticker, a.price, a.scenario);
      BuyKeepsValid(s.t, n, maxSlots, a.ticker, a.name, a.price, sc, a.rankMsg, w.now);
    }
  }

  /** The buying half keeps the tables valid. */
  lemma {:induction false} EBuyPhaseValid(s: EState, n: Notices, skip: SkipNotice, maxSlots: int, w: World, m: Market, reports: seq<Report>)
    requires ValidTables(s.t, maxSlots)
    ensures ValidTables(EBuyPhase(s, n, skip, maxSlots, w, m, reports).state.t, maxSlots)
    decreases |reports|
  {
    if |reports| > 0 {
      EReportStepValid(s, n, skip, maxSlots, w, m, reports[0]);
      EBuyPhaseValid(EReportStep(s, n, skip, maxSlots, w, m, reports[0]).2, n, skip, maxSlots, w, m, reports[1..]);
    }
  }

  /** `b` is `a` with messages appended. */
  predicate QueueExtends(a: seq<string>, b: seq<string>)
  {
    |a| <= |b| && b[..|a|] == a
  }

  lemma QueueExtendsTrans(a: seq<string>, b: seq<string>, c: seq<string>)
    requires QueueExtends(a, b) && QueueExtends(b, c)
    ensures QueueExtends(a, c)
  {
    assert c[..|a|] == c[..|b|][..|a|];
  }

  /** A buy appends at most its notice to the queue. */
  lemma BuyExtendsQueue(t: Tables, n: Notices, maxSlots: int, ticker: string, name: string, price: real, scenario: map<string, Value>, rankMsg: string, now: string)
    ensures QueueExtends(t.queue, Buy(t, n, maxSlots, ticker, name, price, scenario, rankMsg, now).1.queue)
  {
    var m := n.buy(ticker, name, price, scenario, rankMsg);
    if m.Some? {
      assert (t.queue + [m.value])[..|t.queue|] == t.queue;
    }
  }

  /** A report step appends at most one notice to the queue. */
  lemma EReportStepExtendsQueue(s: EState, n: Notices, skip: SkipNotice, maxSlots: int, w: World, m: Market, r: Report)
    ensures QueueExtends(s.t.queue, EReportStep(s, n, skip, maxSlots, w, m, r).2.t.queue)
  {
    var a := Analyze(s.t.holdings, w, r);
    if a.Candidate? {
      GateStepExtendsQueue(s, n, skip, maxSlots, w, m, a, EntryGate(a));
    }
  }

  lemma GateStepExtendsQueue(s: EState, n: Notices, skip: SkipNotice, maxSlots: int, w: World, m: Market, a: Analysis, g: Gate)
    requires a.Candidate?
    ensures QueueExtends(s.t.queue, GateStep(s, n, skip, maxSlots, w, m, a, g).2.t.queue)
  {
    match g
    case Enter =>
      BuyExtendsQueue(s.t, n, maxSlots, a.ticker, a.name, a.price, FilledScenario(s, m, a.ticker, a.price, a.scenario), a.rankMsg, w.now);
    case HoldBack(d, reason) =>
      var q := HoldBackStep(s, skip, a, d, reason, w.now).t.queue;
      assert q[..|s.t.queue|] == s.t.queue;
    case GateRaises =>
  }

  /** The buying half only ever appends to the queue: the notices of earlier runs stay as they were. */
  lemma {:induction false} EBuyPhaseExtendsQueue(s: EState, n: Notices, skip: SkipNotice, maxSlots: int, w: World, m: Market, reports: seq<Report>)
    ensures QueueExtends(s.t.queue, EBuyPhase(s, n, skip, maxSlots, w, m, reports).state.t.queue)
    decreases |reports|
  {
    if |reports| > 0 {
      var x := EReportStep(s, n, skip, maxSlots, w, m, reports[0]);
      if !x.0 {
        EReportStepExtendsQueue(s, n, skip, maxSlots, w, m, reports[0]);
        EBuyPhaseExtendsQueue(x.2, n, skip, maxSlots, w, m, reports[1..]);
        QueueExtendsTrans(s.t.queue, x.2.t.queue, EBuyPhase(x.2, n, skip, maxSlots, w, m, reports[1..]).state.t.queue);
      }
    }
  }

  /**
   * The buying half run from `s` over `reports` ends in `b`: `EBuyPhase`,
   * through `EResumed` from no buys, which keeps a checked contract from
   * unfolding the reports' analysis.
   */
  ghost predicate EBatched(s: EState, n: Notices, skip: SkipNotice, maxSlots: int, w: World, m: Market, reports: seq<Report>, b: EBatch)
  {
    EResumed(s, n, skip, maxSlots, w, m, reports, 0) == b
  }

  /** What the buying loop knows after `i` reports: the state now and the buys so far, then the rest. */
  ghost predicate EBoughtSoFar(start: EState, n: Notices, skip: SkipNotice, maxSlots: int, w: World, m: Market,
                               reports: seq<Report>, i: nat, s: EState, buys: nat)
    requires i <= |reports|
  {
    EBatched(start, n, skip, maxSlots, w, m, reports, EResumed(s, n, skip, maxSlots, w, m, reports[i..], buys))
  }

  /** The buying half run from `s` over `rest`, on top of `buys` already made. */
  ghost function EResumed(s: EState, n: Notices, skip: SkipNotice, maxSlots: int, w: World, m: Market,
                          rest: seq<Report>, buys: nat): EBatch
  {
    var b := EBuyPhase(s, n, skip, maxSlots, w, m, rest);
    b.(buys := b.buys + buys)
  }

  lemma EBoughtSoFarStart(start: EState, n: Notices, skip: SkipNotice, maxSlots: int, w: World, m: Market, reports: seq<Report>)
    ensures EBoughtSoFar(start, n, skip, maxSlots, w, m, reports, 0, start, 0)
  {
    assert reports[0..] == reports;
    var b := EBuyPhase(start, n, skip, maxSlots, w, m, reports);
    assert b.(buys := b.buys + 0) == b;
  }

  /** After the last report the batch ends, not raised, with the state and the buys the loop has. */
  lemma EBoughtSoFarEnd(start: EState, n: Notices, skip: SkipNotice, maxSlots: int, w: World, m: Market,
                        reports: seq<Report>, s: EState, buys: nat)
    requires EBoughtSoFar(start, n, skip, maxSlots, w, m, reports, |reports|, s, buys)
    ensures EBatched(start, n, skip, maxSlots, w, m, reports, EBatch(false, buys, s))
  {
    assert reports[|reports|..] == [];
  }

  /** One report of the loop: it ends the batch raised, or moves the loop on with its state and its buy. */
  lemma EBoughtSoFarNext(start: EState, n: Notices, skip: SkipNotice, maxSlots: int, w: World, m: Market,
                         reports: seq<Report>, i: nat, s: EState, buys: nat)
    requires i < |reports| && EBoughtSoFar(start, n, skip, maxSlots, w, m, reports, i, s, buys)
    ensures var x := EReportStep(s, n, skip, maxSlots, w, m, reports[i]);
      if x.0 then EBuyPhase(start, n, skip, maxSlots, w, m, reports) == EBatch(true, buys, s)
      else EBoughtSoFar(start, n, skip, maxSlots, w, m, reports, i + 1, x.2, buys + if x.1 then 1 else 0)
  {
    assert reports[i..][0] == reports[i] && reports[i..][1..] == reports[i + 1..];
    assert EBuyPhase(s, n, skip, maxSlots, w, m, reports[i..]) == EBuyFrom(s, n, skip, maxSlots, w, m, reports[i..]);
  }

  /**
   * `process_reports` of the enhanced agent: refresh and decide on every
   * holding with `decide`, then gate and buy from the reports in order; the
   * counts of buys and sells, or (0, 0) when the batch raised part way (its
   * changes so far stay).
   */
  function EProcess(s: EState, n: Notices, skip: SkipNotice, maxSlots: int, w: World, m: Market,
                    decide: Holding -> Decision, reports: seq<Report>): (r: ((nat, nat), EState))
  {
    var upd := UpdateAll(s.t, n, s.t.holdings, w, decide);
    var b := EBuyPhase(s.(t := upd.0), n, skip, maxSlots, w, m, reports);
    if b.aborted then ((0, 0), b.state) else ((b.buys, |upd.1|), b.state)
  }

  /** The batch's counts and invariant: at most one buy per report, the sells are the update's sales, and the tables stay valid. */
  lemma EProcessCounts(s: EState, n: Notices, skip: SkipNotice, maxSlots: int, w: World, m: Market,
                       decide: Holding -> Decision, reports: seq<Report>)
    requires ValidTables(s.t, maxSlots)
    ensures var r := EProcess(s, n, skip, maxSlots, w, m, decide, reports);
      r.0.0 <= |reports| && ValidTables(r.1.t, maxSlots) && r.1.condition == s.condition
      && (r.0 != (0, 0) ==> r.0.1 == |UpdateAll(s.t, n, s.t.holdings, w, decide).1|)
  {
    var upd := UpdateAll(s.t, n, s.t.holdings, w, decide);
    UpdateAllValid(s.t, n, s.t.holdings, w, decide, maxSlots);
    EBuyPhaseValid(s.(t := upd.0), n, skip, maxSlots, w, m, reports);
  }

  /**
   * The decision the enhanced agent falls back to when its analysis of a
   * holding fails: the trend-aware ladder with the stock's trend and the
   * market condition.
   */
  function FallbackDecide(w: World, m: Market, condition: int): (decide: Holding -> Decision)
    ensures forall h :: decide(h) == FallbackSellDecision(h.buyPrice, h.currentPrice, h.target, h.stop, w.daysSince(h.buyDate),
                                                          h.scenario, AnalyzeTrend(m.trend(h.ticker)), condition)
  {
    (h: Holding) => FallbackSellDecision(h.buyPrice, h.currentPrice, h.target, h.stop, w.daysSince(h.buyDate),
                                        h.scenario, AnalyzeTrend(m.trend(h.ticker)), condition)
  }

  // ---------------------------------------------------------------------------
  // Portfolio adjustment
  // ---------------------------------------------------------------------------

  /** `UPDATE stock_holdings SET target_price = ? WHERE ticker = ?`. */
  function SetTarget(hs: seq<Holding>, ticker: string, v: Value): (r: seq<Holding>)
    ensures |r| == |hs|
    ensures forall k :: 0 <= k < |hs| ==> r[k] == if hs[k].ticker == ticker then hs[k].(target := v) else hs[k]
  {
    seq(|hs|, k requires 0 <= k < |hs| => if hs[k].ticker == ticker then hs[k].(target := v) else hs[k])
  }

  /** `UPDATE stock_holdings SET stop_loss = ? WHERE ticker = ?`. */
  function SetStop(hs: seq<Holding>, ticker: string, v: Value): (r: seq<Holding>)
    ensures |r| == |hs|
    ensures forall k :: 0 <= k < |hs| ==> r[k] == if hs[k].ticker == ticker then hs[k].(stop := v) else hs[k]
  {
    seq(|hs|, k requires 0 <= k < |hs| => if hs[k].ticker == ticker then hs[k].(stop := v) else hs[k])
  }

  /** A proposed price: `None` for a missing or null one, else its lenient conversion, used only when positive. */
  function Proposed(adjustment: map<string, Value>, key: string): (x: Option<real>)
    ensures x.Some? ==> x.value > 0.0
    ensures x.Some? <==> !Get(adjustment, key, Null).Null? && SafeNumber(Get(adjustment, key, Null)) > 0.0
  {
    var v := Get(adjustment, key, Null);
    if v.Null? then None
    else
      var x := SafeNumber(v);
      if x > 0.0 then Some(x) else None
  }

  function UrgencyEmoji(urgency: string): string
  {
    if urgency == "high" then "🚨" else if urgency == "medium" then "⚠️" else if urgency == "low" then "💡" else "🔄"
  }

  /** The adjustment notice: what changed, why, how urgent, and the summary's trend and market impact when there is a summary. */
  function AdjustmentMessage(ticker: string, name: string, updates: string, reason: Value, urgency: string, summary: Option<map<string, Value>>): (msg: string)
    ensures StartsWith(msg, UrgencyEmoji(urgency) + " 포트폴리오 조정: " + name + "(" + ticker + ")\n" + updates)
  {
    var head := UrgencyEmoji(urgency) + " 포트폴리오 조정: " + name + "(" + ticker + ")\n" + updates;
    var tail := "조정 근거: " + Show(reason) + "\n"
      + "긴급도: " + Upper(urgency) + "\n"
      + match summary
        case None => ""
        case Some(f) => "기술적 추세: " + Show(Get(f, "technical_trend", Str("N/A"))) + "\n"
                        + "시장 환경 영향: " + Show(Get(f, "market_condition_impact", Str("N/A")));
    StartsWithConcat(head, tail);
    head + tail
  }

  /**
   * `_process_portfolio_adjustment`: nothing unless the adjustment is needed
   * and its urgency is not "low"; then a positive proposed target and stop are
   * written to the ticker's row, and when either was written the notice is
   * queued. A non-object adjustment or a non-string urgency raises before any
   * change; a summary that is neither empty nor an object raises after the
   * writes, before the notice.
   */
  function Adjust(t: Tables, ticker: string, name: string, adjustment: Value, summary: Value): (r: Tables)
    ensures r.history == t.history
  {
    match AdjustGate(adjustment)
    case None => t
    case Some((f, urgency)) => AdjustWith(t, ticker, name, f, urgency, summary)
  }

  /** An adjustment past the gate, given its fields and its urgency. */
  function AdjustWith(t: Tables, ticker: string, name: string, f: map<string, Value>, urgency: string, summary: Value): (r: Tables)
    ensures r.history == t.history
  {
    var target := Proposed(f, "new_target_price");
    var stop := Proposed(f, "new_stop_loss");
    if target.None? && stop.None? then t
    else
      var hs := AdjustedHoldings(t.holdings, ticker, target, stop);
      if Truthy(summary) && !summary.Dict? then t.(holdings := hs)
      else
        var msg := AdjustmentMessage(ticker, name, UpdateLines(target, stop), Get(f, "reason", Str("AI 분석 결과")), urgency,
                                     if Truthy(summary) then Some(summary.fields) else None);
        t.(holdings := hs, queue := t.queue + [msg])
  }

  /** Whether the adjustment goes ahead: its fields and its lower-cased urgency, which is not "low". */
  function AdjustGate(adjustment: Value): (g: Option<(map<string, Value>, string)>)
    ensures g.Some? <==> (adjustment.Dict? && Truthy(Get(adjustment.fields, "needed", Bool(false)))
      && Get(adjustment.fields, "urgency", Str("low")).Str? && Lower(Get(adjustment.fields, "urgency", Str("low")).s) != "low")
    ensures g.Some? ==> g.value == (adjustment.fields, Lower(Get(adjustment.fields, "urgency", Str("low")).s))
  {
    if !adjustment.Dict? || !Truthy(Get(adjustment.fields, "needed", Bool(false))) then None
    else match Get(adjustment.fields, "urgency", Str("low"))
      case Str(u) => if Lower(u) == "low" then None else Some((adjustment.fields, Lower(u)))
      case _ => None
  }

  /** The two `UPDATE`s: the ticker's rows get the proposed target and stop that are present. */
  function AdjustedHoldings(hs: seq<Holding>, ticker: string, target: Option<real>, stop: Option<real>): (r: seq<Holding>)
    ensures |r| == |hs|
    ensures forall k :: 0 <= k < |hs| ==> r[k] == if hs[k].ticker != ticker then hs[k] else hs[k].(
      target := if target.Some? then Float(target.value) else hs[k].target,
      stop := if stop.Some? then Float(stop.value) else hs[k].stop)
  {
    var hs1 := if target.Some? then SetTarget(hs, ticker, Float(target.value)) else hs;
    if stop.Some? then SetStop(hs1, ticker, Float(stop.value)) else hs1
  }

  /** The lines of the notice that say what was adjusted. */
  function UpdateLines(target: Option<real>, stop: Option<real>): string
  {
    (if target.Some? then TargetLine(target.value) else "") + (if stop.Some? then StopLine(stop.value) else "")
  }

  function TargetLine(x: real): string { "목표가: " + Amount(x) + "원으로 조정\n" }

  function StopLine(x: real): string { "손절가: " + Amount(x) + "원으로 조정\n" }

  /** An adjustment that is not needed, or whose urgency is "low", changes nothing. */
  lemma AdjustNeededAndUrgent(t: Tables, ticker: string, name: string, adjustment: Value, summary: Value)
    requires adjustment.Dict?
    requires !Truthy(Get(adjustment.fields, "needed", Bool(false)))
      || Get(adjustment.fields, "urgency", Str("low")) == Str("low")
      || (Get(adjustment.fields, "urgency", Str("low")).Str? && Lower(Get(adjustment.fields, "urgency", Str("low")).s) == "low")
    ensures Adjust(t, ticker, name, adjustment, summary) == t
  {
  }

  /**
   * An adjustment touches only the ticker's row and only its target and stop:
   * the target becomes the proposed value when one is positive, likewise the
   * stop, and every other row stays as it was.
   */
  lemma AdjustTouchesOnlyTargetAndStop(t: Tables, ticker: string, name: string, adjustment: Value, summary: Value)
    ensures var r := Adjust(t, ticker, name, adjustment, summary);
      |r.holdings| == |t.holdings|
      && forall k :: 0 <= k < |t.holdings| ==>
        var h, g := t.holdings[k], r.holdings[k];
        g == h.(target := g.target, stop := g.stop)
        && (h.ticker != ticker ==> g == h)
        && (g.target != h.target ==> adjustment.Dict? && g.target.Float? && Proposed(adjustment.fields, "new_target_price") == Some(g.target.r))
        && (g.stop != h.stop ==> adjustment.Dict? && g.stop.Float? && Proposed(adjustment.fields, "new_stop_loss") == Some(g.stop.r))
  {
    AdjustHoldingsCases(t, ticker, name, adjustment, summary);
  }

  /** The rows after an adjustment are the rows before it, or those rows with the proposed prices written. */
  lemma AdjustHoldingsCases(t: Tables, ticker: string, name: string, adjustment: Value, summary: Value)
    ensures var r := Adjust(t, ticker, name, adjustment, summary);
      r.holdings == t.holdings
      || (adjustment.Dict? && r.holdings == AdjustedHoldings(t.holdings, ticker,
            Proposed(adjustment.fields, "new_target_price"), Proposed(adjustment.fields, "new_stop_loss")))
  {
    match AdjustGate(adjustment)
    case None =>
    case Some((f, urgency)) =>
      assert f == adjustment.fields;
  }

  /** A notice is queued exactly when a price was written and the summary is empty or an object; it is the only thing queued. */
  lemma AdjustQueuesNotice(t: Tables, ticker: string, name: string, adjustment: Value, summary: Value)
    ensures var r := Adjust(t, ticker, name, adjustment, summary);
      var wrote := adjustment.Dict? && Truthy(Get(adjustment.fields, "needed", Bool(false)))
        && Get(adjustment.fields, "urgency", Str("low")).Str? && Lower(Get(adjustment.fields, "urgency", Str("low")).s) != "low"
        && (Proposed(adjustment.fields, "new_target_price").Some? || Proposed(adjustment.fields, "new_stop_loss").Some?);
      (r.queue != t.queue <==> wrote && (!Truthy(summary) || summary.Dict?))
      && (r.queue == t.queue || (|r.queue| == |t.queue| + 1 && r.queue[..|t.queue|] == t.queue))
      && (r.holdings != t.holdings ==> wrote)
  {
  }

  /** When the adjustment goes ahead, a positive proposed target is written to every row of the ticker. */
  lemma AdjustWritesProposedTarget(t: Tables, ticker: string, name: string, adjustment: Value, summary: Value)
    requires AdjustGate(adjustment).Some?
    requires Proposed(AdjustGate(adjustment).value.0, "new_target_price").Some?
    ensures var r := Adjust(t, ticker, name, adjustment, summary);
      forall k :: 0 <= k < |t.holdings| && t.holdings[k].ticker == ticker ==>
        r.holdings[k].target == Float(Proposed(adjustment.fields, "new_target_price").value)
  {
  }

  /** A proposal written as text, "85,000원", sets the target to 85000. */
  lemma AdjustReadsWonText(t: Tables, ticker: string, name: string, adjustment: Value, summary: Value, n: nat)
    requires AdjustGate(adjustment).Some?
    requires n > 0
    requires Get(adjustment.fields, "new_target_price", Null) == Str(Grouped(n) + "원")
    ensures var r := Adjust(t, ticker, name, adjustment, summary);
      forall k :: 0 <= k < |t.holdings| && t.holdings[k].ticker == ticker ==> r.holdings[k].target == Float(n as real)
  {
    SafeNumberOfWon(n);
    assert Proposed(adjustment.fields, "new_target_price") == Some(n as real);
    AdjustWritesProposedTarget(t, ticker, name, adjustment, summary);
  }

  // ---------------------------------------------------------------------------
  // The agent
  // ---------------------------------------------------------------------------

  class EnhancedAgent {
    /** The base agent's tables and queue. */
    const base: Agent
    var condition: int
    var cache: map<string, real>
    var watchlist: seq<WatchRow>
    const skip: SkipNotice

    function State(): EState
      reads this, base
    {
      EState(base.State(), condition, cache, watchlist)
    }

    /** A new agent over the tables in its database: neutral market, empty cache. */
    constructor(holdings: seq<Holding>, history: seq<Trade>, hasBot: bool)
      ensures State() == EState(Tables(holdings, history, []), Neutral, map[], [])
      ensures base.maxSlots == MaxSlots && base.notices == Standard() && base.hasBot == hasBot && skip == StandardSkip()
      ensures fresh(base)
    {
      base := new Agent(holdings, history, hasBot);
      condition := Neutral;
      cache := map[];
      watchlist := [];
      skip := StandardSkip();
    }

    /** `_analyze_simple_market_condition`. */
    method AnalyzeMarketCondition(d: IndexData, logged: bool) returns (result: (int, real))
      modifies this
      ensures (condition, result) == MarketStep(old(condition), d, logged)
      ensures cache == old(cache) && watchlist == old(watchlist)
    {
      if d.IndexFailed? {
        return (0, 0.0);
      }
      var c := MarketCondition(d.kospiSlope, d.kosdaqSlope);
      condition := c;
      if !logged {
        return (0, 0.0);
      }
      result := (c, (d.kospiVol + d.kosdaqVol) / 2.0);
    }

    /** `_get_stock_volatility`. */
    method GetStockVolatility(ticker: string, m: Market) returns (v: real)
      modifies this
      ensures (v, cache) == Volatility(old(cache), m, ticker)
      ensures condition == old(condition) && watchlist == old(watchlist)
    {
      if ticker in cache {
        return cache[ticker];
      }
      var fetched := m.volatility(ticker);
      if fetched.Vol? {
        cache := cache[ticker := fetched.v];
        return fetched.v;
      }
      v := DefaultVolatility;
    }

    /** `_dynamic_stop_loss`. */
    method DynamicStopLoss(ticker: string, price: real, m: Market) returns (stop: real)
      modifies this
      ensures var v := Volatility(old(cache), m, ticker); stop == DynamicStop(price, v.0, condition) && cache == v.1
      ensures condition == old(condition) && watchlist == old(watchlist)
    {
      var v := GetStockVolatility(ticker, m);
      stop := DynamicStop(price, v, condition);
    }

    /** `_dynamic_target_price`. */
    method DynamicTargetPrice(ticker: string, price: real, m: Market) returns (target: real)
      modifies this
      ensures var v := Volatility(old(cache), m, ticker); target == DynamicTarget(price, v.0, condition) && cache == v.1
      ensures condition == old(condition) && watchlist == old(watchlist)
    {
      var v := GetStockVolatility(ticker, m);
      target := DynamicTarget(price, v, condition);
    }

    /** The `buy_stock` override. */
    method BuyStock(ticker: string, name: string, price: real, scenario: map<string, Value>, rankMsg: string, now: string, m: Market)
      returns (ok: bool)
      modifies this, base
      ensures (ok, State()) == EnhancedBuy(old(State()), base.notices, base.maxSlots, m, ticker, name, price, scenario, rankMsg, now)
    {
      var sc := scenario;
      var t := AtMostZero(Get(sc, "target_price", Int(0)));
      if t.None? {
        return false;
      }
      if t.value {
        var target := DynamicTargetPrice(ticker, price, m);
        sc := sc["target_price" := Float(target)];
      }
      var s := AtMostZero(Get(sc, "stop_loss", Int(0)));
      if s.None? {
        return false;
      }
      if s.value {
        var stop := DynamicStopLoss(ticker, price, m);
        sc := sc["stop_loss" := Float(stop)];
      }
      ok := base.BuyStock(ticker, name, price, sc, rankMsg, now);
    }

    /** Holding a candidate back: queue its notice, then write its watchlist row when it can be inserted. */
    method HoldBack(a: Analysis, decision: Value, reason: string, now: string)
      requires a.Candidate?
      modifies base, this
      ensures State() == HoldBackStep(old(State()), skip, a, decision, reason, now)
    {
      base.messages := base.messages + [skip(a.name, a.ticker, a.price, BuyScore(a), decision, a.scenario, reason)];
      var row := WatchRow(a.ticker, a.name, a.price, now, BuyScore(a), MinScore(a), decision, reason, a.scenario, a.sector);
      if Insertable(row) {
        watchlist := watchlist + [row];
      }
    }

    /** One report of the enhanced `process_reports`. */
    method ProcessReport(r: Report, w: World, m: Market) returns (raised: bool, bought: bool)
      modifies this, base
      ensures (raised, bought, State()) == EReportStep(old(State()), base.notices, skip, base.maxSlots, w, m, r)
    {
      var a := base.AnalyzeReport(r, w);
      if !a.Candidate? {
        return false, false;
      }
      var g := EntryGate(a);
      if g.GateRaises? {
        return true, false;
      }
      if g.Enter? {
        bought := BuyStock(a.ticker, a.name, a.price, a.scenario, a.rankMsg, w.now, m);
        return false, bought;
      }
      HoldBack(a, g.decision, g.reason, w.now);
      return false, false;
    }

    /** The buying half of the enhanced `process_reports`. */
    method BuyFromReports(reports: seq<Report>, w: World, m: Market) returns (aborted: bool, buys: nat)
      modifies this, base
      ensures EBatched(old(State()), base.notices, skip, base.maxSlots, w, m, reports, EBatch(aborted, buys, State()))
    {
      ghost var start := State();
      buys := 0;
      var i := 0;
      EBoughtSoFarStart(start, base.notices, skip, base.maxSlots, w, m, reports);
      while i < |reports|
        invariant 0 <= i <= |reports|
        invariant EBoughtSoFar(start, base.notices, skip, base.maxSlots, w, m, reports, i, State(), buys)
      {
        var raised, bought := NextReport(start, reports, i, buys, w, m);
        if raised {
          return true, buys;
        }
        if bought {
          buys := buys + 1;
        }
        i := i + 1;
      }
      EBoughtSoFarEnd(start, base.notices, skip, base.maxSlots, w, m, reports, State(), buys);
      aborted := false;
    }

    /** One turn of the buying loop: the batch ends raised, or the loop moves on. */
    method NextReport(ghost start: EState, reports: seq<Report>, i: nat, ghost buys: nat, w: World, m: Market) returns (raised: bool, bought: bool)
      requires i < |reports| && EBoughtSoFar(start, base.notices, skip, base.maxSlots, w, m, reports, i, State(), buys)
      modifies this, base
      ensures raised ==> EBatched(start, base.notices, skip, base.maxSlots, w, m, reports, EBatch(true, buys, State()))
      ensures !raised ==> EBoughtSoFar(start, base.notices, skip, base.maxSlots, w, m, reports, i + 1, State(), buys + if bought then 1 else 0)
    {
      EBoughtSoFarNext(start, base.notices, skip, base.maxSlots, w, m, reports, i, State(), buys);
      raised, bought := ProcessReport(reports[i], w, m);
    }

    /** `process_reports` of the enhanced agent, deciding on each holding with `decide`. */
    method ProcessReports(reports: seq<Report>, w: World, m: Market, decide: Holding -> Decision) returns (buys: nat, sells: nat)
      modifies this, base
      ensures ((buys, sells), State()) == EProcess(old(State()), base.notices, skip, base.maxSlots, w, m, decide, reports)
    {
      var sold := base.UpdateHoldings(w, decide);
      var aborted;
      aborted, buys := BuyFromReports(reports, w, m);
      if aborted {
        return 0, 0;
      }
      sells := |sold|;
    }

    /** The two `UPDATE`s of a portfolio adjustment, and the lines of the notice that report them. */
    method WriteProposals(ticker: string, target: Option<real>, stop: Option<real>) returns (updates: string)
      modifies base
      ensures base.holdings == AdjustedHoldings(old(base.holdings), ticker, target, stop)
      ensures base.history == old(base.history) && base.messages == old(base.messages)
      ensures updates == UpdateLines(target, stop)
    {
      updates := "";
      if target.Some? {
        base.holdings := SetTarget(base.holdings, ticker, Float(target.value));
        updates := TargetLine(target.value);
      }
      if stop.Some? {
        base.holdings := SetStop(base.holdings, ticker, Float(stop.value));
        updates := updates + StopLine(stop.value);
      } else {
        assert updates + "" == updates;
      }
    }

    /** `_process_portfolio_adjustment` for one holding. */
    method ProcessPortfolioAdjustment(ticker: string, name: string, adjustment: Value, summary: Value)
      modifies base
      ensures base.State() == Adjust(old(base.State()), ticker, name, adjustment, summary)
    {
      var gate := AdjustGate(adjustment);
      if gate.Some? {
        ApplyAdjustment(ticker, name, gate.value.0, gate.value.1, summary);
      }
    }

    /** `_process_portfolio_adjustment` past the gate. */
    method ApplyAdjustment(ticker: string, name: string, f: map<string, Value>, urgency: string, summary: Value)
      modifies base
      ensures base.State() == AdjustWith(old(base.State()), ticker, name, f, urgency, summary)
    {
      var target := Proposed(f, "new_target_price");
      var stop := Proposed(f, "new_stop_loss");
      if target.None? && stop.None? {
        return;
      }
      var updates := WriteProposals(ticker, target, stop);
      if Truthy(summary) && !summary.Dict? {
        return;
      }
      var msg := AdjustmentMessage(ticker, name, updates, Get(f, "reason", Str("AI 분석 결과")), urgency,
                                   if Truthy(summary) then Some(summary.fields) else None);
      base.messages := base.messages + [msg];
    }
  }
}
