/**
 * The pure rules of the enhanced tracking agent: stop-loss and target prices
 * scaled by a stock's volatility and the market condition, the market condition
 * from the regression slopes of the two indices, the short-term trend bucket of a
 * stock's closes, the trend-aware fallback sell ladder, and the lenient number
 * conversion applied to prices an AI suggests.
 *
 * Slopes and volatilities are computed by numeric libraries outside this model;
 * they are inputs here.
 */
module EnhancedRules {
  import opened Wrappers
  import opened Text
  import opened Format
  import opened PyValue
  import opened TrackingRules

  // ---------------------------------------------------------------------------
  // Market condition
  // ---------------------------------------------------------------------------

  /** `simple_market_condition`: a bull, neutral or bear market. */
  const Bull: int := 1
  const Neutral: int := 0
  const Bear: int := -1

  /** A bull market when both index slopes rise, a bear market when both fall, neutral otherwise. */
  function MarketCondition(kospiSlope: real, kosdaqSlope: real): (c: int)
    ensures c == Bull <==> kospiSlope > 0.0 && kosdaqSlope > 0.0
    ensures c == Bear <==> kospiSlope < 0.0 && kosdaqSlope < 0.0
    ensures c == Bull || c == Neutral || c == Bear
  {
    if kospiSlope > 0.0 && kosdaqSlope > 0.0 then Bull
    else if kospiSlope < 0.0 && kosdaqSlope < 0.0 then Bear
    else Neutral
  }


  // ---------------------------------------------------------------------------
  // Volatility-scaled stop and target
  // ---------------------------------------------------------------------------

  /** The assumed market volatility in percent, also the volatility of a stock whose prices cannot be fetched. */
  const DefaultVolatility: real := 15.0

  function Min(a: real, b: real): real { if b < a then b else a }

  function Max(a: real, b: real): real { if b > a then b else a }

  /** `min(max(x, lo), hi)`. */
  function Clamp(x: real, lo: real, hi: real): (r: real)
    requires lo <= hi
    ensures lo <= r <= hi
    ensures lo <= x <= hi ==> r == x
  {
    Min(Max(x, lo), hi)
  }

  /** The clamp keeps order: it never turns a smaller value into a larger one. */
  lemma ClampMonotone(x: real, y: real, lo: real, hi: real)
    requires lo <= hi && x <= y
    ensures Clamp(x, lo, hi) <= Clamp(y, lo, hi)
  {
  }

  /**
   * The stop-loss distance in percent: 5% scaled by the stock's volatility
   * relative to 15%, clamped to [3, 15], then ×0.8 in a bear market and ×1.2 in
   * a bull market, without clamping again.
   */
  function StopPct(volatility: real, condition: int): (pct: real)
    ensures 2.4 <= pct <= 18.0
    ensures condition != Bull && condition != Bear ==> 3.0 <= pct <= 15.0
  {
    var pct := Clamp(5.0 * (volatility / DefaultVolatility), 3.0, 15.0);
    if condition == Bear then pct * 0.8
    else if condition == Bull then pct * 1.2
    else pct
  }

  /**
   * The target distance in percent: 10% scaled by the relative volatility,
   * clamped to [5, 30], then ×1.3 in a bull market and ×0.7 in a bear market.
   */
  function TargetPct(volatility: real, condition: int): (pct: real)
    ensures 3.5 <= pct <= 39.0
    ensures condition != Bull && condition != Bear ==> 5.0 <= pct <= 30.0
  {
    var pct := Clamp(10.0 * (volatility / DefaultVolatility), 5.0, 30.0);
    if condition == Bull then pct * 1.3
    else if condition == Bear then pct * 0.7
    else pct
  }

  /** `_dynamic_stop_loss`: the buy price less the stop distance. */
  function DynamicStop(buy: real, volatility: real, condition: int): (stop: real)
    ensures buy > 0.0 ==> 0.0 < stop < buy
  {
    Below(buy, StopPct(volatility, condition))
  }

  /** `_dynamic_target_price`: the buy price plus the target distance. */
  function DynamicTarget(buy: real, volatility: real, condition: int): (target: real)
    ensures buy > 0.0 ==> target > buy
  {
    Above(buy, TargetPct(volatility, condition))
  }

  /** `price * (1 - pct/100)`. */
  function Below(price: real, pct: real): (r: real)
    ensures price > 0.0 && 0.0 < pct < 100.0 ==> 0.0 < r < price
  {
    price * (1.0 - pct / 100.0)
  }

  /** `price * (1 + pct/100)`. */
  function Above(price: real, pct: real): (r: real)
    ensures price > 0.0 && pct > 0.0 ==> r > price
  {
    price * (1.0 + pct / 100.0)
  }


  /** A more volatile stock gets a stop at least as far below and a target at least as far above the buy price. */
  lemma WiderForMoreVolatile(buy: real, v1: real, v2: real, condition: int)
    requires buy > 0.0 && v1 <= v2
    ensures DynamicStop(buy, v2, condition) <= DynamicStop(buy, v1, condition)
    ensures DynamicTarget(buy, v1, condition) <= DynamicTarget(buy, v2, condition)
  {
    PctMonotone(v1, v2, condition);
    ScaledMonotone(buy, StopPct(v1, condition), StopPct(v2, condition));
    ScaledMonotone(buy, TargetPct(v1, condition), TargetPct(v2, condition));
  }

  lemma ScaledMonotone(buy: real, p1: real, p2: real)
    requires buy > 0.0 && p1 <= p2
    ensures Below(buy, p2) <= Below(buy, p1)
    ensures Above(buy, p1) <= Above(buy, p2)
  {
    MulMonotone(buy, 1.0 - p2 / 100.0, 1.0 - p1 / 100.0);
    MulMonotone(buy, 1.0 + p1 / 100.0, 1.0 + p2 / 100.0);
  }

  lemma MulMonotone(a: real, x: real, y: real)
    requires a >= 0.0 && x <= y
    ensures a * x <= a * y
  {
    assert a * y - a * x == a * (y - x);
  }

  /** Both distances grow with the volatility. */
  lemma {:induction false} PctMonotone(v1: real, v2: real, condition: int)
    requires v1 <= v2
    ensures StopPct(v1, condition) <= StopPct(v2, condition)
    ensures TargetPct(v1, condition) <= TargetPct(v2, condition)
  {
    assert v1 / DefaultVolatility <= v2 / DefaultVolatility;
    ClampMonotone(5.0 * (v1 / DefaultVolatility), 5.0 * (v2 / DefaultVolatility), 3.0, 15.0);
    ClampMonotone(10.0 * (v1 / DefaultVolatility), 10.0 * (v2 / DefaultVolatility), 5.0, 30.0);
  }

  /** A bull market widens both distances and a bear market narrows both, relative to a neutral one. */
  lemma ConditionScalesDistances(volatility: real)
    ensures StopPct(volatility, Bear) < StopPct(volatility, Neutral) < StopPct(volatility, Bull)
    ensures TargetPct(volatility, Bear) < TargetPct(volatility, Neutral) < TargetPct(volatility, Bull)
  {
  }

  /** A stock bought at 10,000 with volatility 30% in a bull market: stop 8,800 and target 12,600. */
  lemma DynamicPricesExample()
    ensures DynamicStop(10000.0, 30.0, Bull) == 8800.0
    ensures DynamicTarget(10000.0, 30.0, Bull) == 12600.0
  {
  }

  // ---------------------------------------------------------------------------
  // Trend of a stock
  // ---------------------------------------------------------------------------

  /** The trend bucket of a normalized slope: strong or weak rise, neutral, weak or strong fall. */
  function TrendBucket(norm: real): (trend: int)
    ensures -2 <= trend <= 2
    ensures trend == 2 <==> norm > 0.15
    ensures trend == -2 <==> norm < -0.15
    ensures trend > 0 <==> norm > 0.05
    ensures trend < 0 <==> norm < -0.05
  {
    if norm > 0.15 then 2
    else if norm > 0.05 then 1
    else if norm < -0.15 then -2
    else if norm < -0.05 then -1
    else 0
  }

  /** A steeper slope never gets a lower bucket. */
  lemma TrendBucketMonotone(a: real, b: real)
    requires a <= b
    ensures TrendBucket(a) <= TrendBucket(b)
  {
  }

  function SeqMax(xs: seq<real>): (m: real)
    requires |xs| > 0
    ensures m in xs && forall k :: 0 <= k < |xs| ==> xs[k] <= m
  {
    if |xs| == 1 then xs[0]
    else
      var rest := SeqMax(xs[1..]);
      assert forall k :: 1 <= k < |xs| ==> xs[k] == xs[1..][k - 1];
      if xs[0] >= rest then xs[0] else rest
  }

  function SeqMin(xs: seq<real>): (m: real)
    requires |xs| > 0
    ensures m in xs && forall k :: 0 <= k < |xs| ==> m <= xs[k]
  {
    if |xs| == 1 then xs[0]
    else
      var rest := SeqMin(xs[1..]);
      assert forall k :: 1 <= k < |xs| ==> xs[k] == xs[1..][k - 1];
      if xs[0] <= rest then xs[0] else rest
  }

  /** The regression slope scaled by the number of closes over their range; 0 for a flat series. */
  function NormalizedSlope(slope: real, closes: seq<real>): (norm: real)
    requires |closes| > 0
    ensures norm > 0.0 <==> slope > 0.0 && SeqMax(closes) > SeqMin(closes)
    ensures norm < 0.0 <==> slope < 0.0 && SeqMax(closes) > SeqMin(closes)
  {
    var range := SeqMax(closes) - SeqMin(closes);
    if range > 0.0 then Scaled(slope, |closes| as real, range) else 0.0
  }

  /** `x * n / d` for positive `n` and `d`, which keeps the sign of `x`. */
  function Scaled(x: real, n: real, d: real): (r: real)
    requires n > 0.0 && d > 0.0
    ensures r > 0.0 <==> x > 0.0
    ensures r < 0.0 <==> x < 0.0
  {
    ScaledSign(x, n, d);
    x * n / d
  }

  lemma ScaledSign(x: real, n: real, d: real)
    requires n > 0.0 && d > 0.0
    ensures x * n / d > 0.0 <==> x > 0.0
    ensures x * n / d < 0.0 <==> x < 0.0
  {
    if x > 0.0 {
      assert x * n > 0.0;
    } else if x < 0.0 {
      assert (-x) * n > 0.0;
      assert x * n < 0.0;
    } else {
      assert x * n == 0.0;
    }
  }

  /** What `_analyze_trend` gets: the fetch failed, or the closes with their regression slope. */
  datatype TrendData = TrendFailed | Closes(closes: seq<real>, slope: real)

  /** `_analyze_trend`: neutral without data, else the bucket of the normalized slope. */
  function AnalyzeTrend(d: TrendData): (trend: int)
    ensures -2 <= trend <= 2
    ensures d.TrendFailed? || |d.closes| == 0 ==> trend == 0
    ensures trend > 0 ==> d.Closes? && d.slope > 0.0
    ensures trend < 0 ==> d.Closes? && d.slope < 0.0
  {
    match d
    case TrendFailed => 0
    case Closes(closes, slope) => if |closes| == 0 then 0 else TrendBucket(NormalizedSlope(slope, closes))
  }

  /** A series that never moves has range 0, so its trend is neutral whatever the slope. */
  lemma {:induction false} FlatSeriesIsNeutral(closes: seq<real>, slope: real)
    requires |closes| > 0 && forall k :: 0 <= k < |closes| ==> closes[k] == closes[0]
    ensures AnalyzeTrend(Closes(closes, slope)) == 0
  {
    assert SeqMax(closes) in closes && SeqMin(closes) in closes;
    assert SeqMax(closes) == SeqMin(closes);
  }

  // ---------------------------------------------------------------------------
  // The fallback sell ladder
  // ---------------------------------------------------------------------------

  /** The facts of the base ladder together with the stock's trend and the market condition. */
  datatype Scene = Scene(f: Facts, trend: int, condition: int)

  datatype FallbackRule = StopRule | TargetRule | BearProfit | ShortGain | ShortLoss | TenPercentGain | StaleLoss | SixtyDayGain | LongLoss | SevereLoss

  /** The rules in the order the fallback tries them. */
  const FallbackLadder: seq<FallbackRule> := [StopRule, TargetRule, BearProfit, ShortGain, ShortLoss, TenPercentGain, StaleLoss, SixtyDayGain, LongLoss, SevereLoss]

  predicate FallbackFires(rule: FallbackRule, s: Scene)
  {
    var f := s.f;
    match rule
    case StopRule => f.stop > 0.0 && f.current <= f.stop
    case TargetRule => f.target > 0.0 && f.current >= f.target
    case BearProfit => s.condition == Bear && s.trend < 0 && f.profit > 3.0
    case ShortGain => f.period == Str("단기") && f.days >= 15 && f.profit >= 5.0 && s.trend < 2
    case ShortLoss => f.period == Str("단기") && f.days >= 10 && f.profit <= -3.0 && s.trend < 2
    case TenPercentGain => f.profit >= 10.0 && s.trend < 2
    case StaleLoss => f.days >= 30 && f.profit < 0.0 && s.trend < 1
    case SixtyDayGain => f.days >= 60 && f.profit >= 3.0 && s.trend < 1
    case LongLoss => f.period == Str("장기") && f.days >= 90 && f.profit < 0.0 && s.trend < 1
    case SevereLoss => (f.stop == 0.0 || f.current > f.stop) && f.profit <= -5.0 && s.trend < 1
  }

  /** What a rule that fires decides; a hit stop or target is held through a strong rise. */
  function FallbackOutcome(rule: FallbackRule, s: Scene): Decision
  {
    var f := s.f;
    match rule
    case StopRule =>
      if s.trend >= 2 && f.profit > -7.0 then Decision(false, "손절 유예 (강한 상승 추세)")
      else Decision(true, "손절매 조건 도달 (손절가: " + Amount(f.stop) + "원)")
    case TargetRule =>
      if s.trend >= 2 then Decision(false, "목표가 달성했으나 강한 상승 추세로 보유 유지")
      else Decision(true, "목표가 달성 (목표가: " + Amount(f.target) + "원)")
    case BearProfit => Decision(true, "약세장 + 하락 추세에서 수익 확보 (수익률: " + Fixed2(f.profit) + "%)")
    case ShortGain => Decision(true, "단기 투자 목표 달성 " + HeldFor(f))
    case ShortLoss => Decision(true, "단기 투자 손실 방어 " + HeldFor(f))
    case TenPercentGain => Decision(true, "수익률 10% 이상 달성 (현재 수익률: " + Fixed2(f.profit) + "%)")
    case StaleLoss => Decision(true, "30일 이상 보유 중이며 손실 상태 " + HeldFor(f))
    case SixtyDayGain => Decision(true, "60일 이상 보유 중이며 3% 이상 수익 " + HeldFor(f))
    case LongLoss => Decision(true, "장기 투자 손실 정리 " + HeldFor(f))
    case SevereLoss => Decision(true, "심각한 손실 발생 (현재 수익률: " + Fixed2(f.profit) + "%)")
  }

  function TrendText(trend: int): string
  {
    if trend == 2 then "강한 상승 추세"
    else if trend == 1 then "약한 상승 추세"
    else if trend == 0 then "중립 추세"
    else if trend == -1 then "약한 하락 추세"
    else if trend == -2 then "강한 하락 추세"
    else "알 수 없는 추세"
  }

  /** The decision when no rule fires. */
  function KeepHolding(s: Scene): Decision
  {
    Decision(false, "계속 보유 (추세: " + TrendText(s.trend) + ", 수익률: " + Fixed2(s.f.profit) + "%)")
  }

  /** The ladder read as first-match: the outcome of the first rule of `FallbackLadder` that fires, or "계속 보유" with the trend. */
  function FallbackLadderOutcome(s: Scene): Decision
  {
    match FirstFallbackFiring(FallbackLadder, s)
    case Some(k) => FallbackOutcome(FallbackLadder[k], s)
    case None => KeepHolding(s)
  }

  /** The first rule of `rules` that fires. */
  function FirstFallbackFiring(rules: seq<FallbackRule>, s: Scene): (r: Option<nat>)
    ensures r.Some? ==> r.value < |rules| && FallbackFires(rules[r.value], s)
    ensures r.Some? ==> forall k :: 0 <= k < r.value ==> !FallbackFires(rules[k], s)
    ensures r.None? ==> forall k :: 0 <= k < |rules| ==> !FallbackFires(rules[k], s)
  {
    FirstFallbackFiringFrom(rules, s, 0)
  }

  /** The first rule of `rules` from position `i` on that fires. */
  function FirstFallbackFiringFrom(rules: seq<FallbackRule>, s: Scene, i: nat): (r: Option<nat>)
    requires i <= |rules|
    ensures r.Some? ==> i <= r.value < |rules| && FallbackFires(rules[r.value], s)
    ensures r.Some? ==> forall k :: i <= k < r.value ==> !FallbackFires(rules[k], s)
    ensures r.None? ==> forall k :: i <= k < |rules| ==> !FallbackFires(rules[k], s)
    decreases |rules| - i
  {
    if i == |rules| then None
    else if FallbackFires(rules[i], s) then Some(i)
    else FirstFallbackFiringFrom(rules, s, i + 1)
  }

  /**
   * The ladder once the stop is not hit, in the order of the code: target, bear
   * market profit, the short-horizon pair, a 10% gain, the 30- and 60-day rules,
   * the long-horizon rule and a severe loss; the four last-but-one rules give way
   * to a strong rise, the others to any rise.
   */
  function FallbackAfterStop(s: Scene): Decision
  {
    var f := s.f;
    var p := f.profit;
    if FallbackFires(TargetRule, s) then
      if s.trend >= 2 then Decision(false, "목표가 달성했으나 강한 상승 추세로 보유 유지")
      else Decision(true, "목표가 달성 (목표가: " + Amount(f.target) + "원)")
    else if FallbackFires(BearProfit, s) then Decision(true, "약세장 + 하락 추세에서 수익 확보 (수익률: " + Fixed2(p) + "%)")
    else if FallbackFires(ShortGain, s) then Decision(true, "단기 투자 목표 달성 " + HeldFor(f))
    else if FallbackFires(ShortLoss, s) then Decision(true, "단기 투자 손실 방어 " + HeldFor(f))
    else if FallbackFires(TenPercentGain, s) then Decision(true, "수익률 10% 이상 달성 (현재 수익률: " + Fixed2(p) + "%)")
    else if FallbackFires(StaleLoss, s) then Decision(true, "30일 이상 보유 중이며 손실 상태 " + HeldFor(f))
    else if FallbackFires(SixtyDayGain, s) then Decision(true, "60일 이상 보유 중이며 3% 이상 수익 " + HeldFor(f))
    else if FallbackFires(LongLoss, s) then Decision(true, "장기 투자 손실 정리 " + HeldFor(f))
    else if FallbackFires(SevereLoss, s) then Decision(true, "심각한 손실 발생 (현재 수익률: " + Fixed2(p) + "%)")
    else KeepHolding(s)
  }

  /**
   * `_fallback_sell_decision` on one holding, given its trend and the market
   * condition. A zero buy price, an unparsable buy date, a stop Python cannot
   * compare with 0, or such a target once the stop is not hit, ends in
   * `(False, "분석 오류")`.
   */
  function FallbackSellDecision(buy: real, current: real, target: Value, stop: Value, days: Option<int>,
                                scenario: Value, trend: int, condition: int): (d: Decision)
    ensures buy == 0.0 || days.None? || Number(stop).None? ==> d == AnalysisError
  {
    if buy == 0.0 || days.None? then AnalysisError
    else
      var p := ProfitRate(buy, current);
      match Number(stop)
      case None => AnalysisError
      case Some(sl) =>
        if sl > 0.0 && current <= sl then
          if trend >= 2 && p > -7.0 then Decision(false, "손절 유예 (강한 상승 추세)")
          else Decision(true, "손절매 조건 도달 (손절가: " + Amount(sl) + "원)")
        else match Number(target)
          case None => AnalysisError
          case Some(tp) => FallbackAfterStop(Scene(Facts(current, sl, tp, p, days.value, PeriodOf(scenario, "중기")), trend, condition))
  }

  /** The scene the ladder sees for a holding whose inputs are all usable. */
  function FallbackScene(buy: real, current: real, target: Value, stop: Value, days: Option<int>,
                         scenario: Value, trend: int, condition: int): Scene
    requires buy != 0.0 && days.Some? && Number(stop).Some? && Number(target).Some?
  {
    Scene(Facts(current, Number(stop).value, Number(target).value, ProfitRate(buy, current), days.value, PeriodOf(scenario, "중기")),
      trend, condition)
  }

  /** The rules after the stop check are first-match over the rest of the ladder. */
  lemma FallbackAfterStopFirstMatch(s: Scene)
    requires !FallbackFires(StopRule, s)
    ensures FallbackAfterStop(s) == FallbackLadderOutcome(s)
  {
    if FallbackFires(TargetRule, s) || FallbackFires(BearProfit, s) || FallbackFires(ShortGain, s) || FallbackFires(ShortLoss, s) {
      FallbackLadderHead(s);
    } else {
      FallbackLadderTail(s);
    }
  }

  /** The ladder after the stop check when one of its first four rules fires. */
  lemma FallbackLadderHead(s: Scene)
    requires !FallbackFires(StopRule, s)
    requires FallbackFires(TargetRule, s) || FallbackFires(BearProfit, s) || FallbackFires(ShortGain, s) || FallbackFires(ShortLoss, s)
    ensures FallbackAfterStop(s) == FallbackLadderOutcome(s)
  {
    var L := FallbackLadder;
    assert L[0] == StopRule && L[1] == TargetRule && L[2] == BearProfit && L[3] == ShortGain && L[4] == ShortLoss;
    assert L[5] == TenPercentGain && L[6] == StaleLoss && L[7] == SixtyDayGain && L[8] == LongLoss && L[9] == SevereLoss;
    assert FirstFallbackFiring(L, s) == FirstFallbackFiringFrom(L, s, 1);
    if FallbackFires(TargetRule, s) {
      assert FirstFallbackFiringFrom(L, s, 1) == Some(1);
      assert FallbackAfterStop(s) == FallbackOutcome(TargetRule, s);
    } else {
      assert FirstFallbackFiringFrom(L, s, 1) == FirstFallbackFiringFrom(L, s, 2);
      if FallbackFires(BearProfit, s) {
        assert FirstFallbackFiringFrom(L, s, 2) == Some(2);
        assert FallbackAfterStop(s) == FallbackOutcome(BearProfit, s);
      } else {
        assert FirstFallbackFiringFrom(L, s, 2) == FirstFallbackFiringFrom(L, s, 3);
        if FallbackFires(ShortGain, s) {
          assert FirstFallbackFiringFrom(L, s, 3) == Some(3);
          assert FallbackAfterStop(s) == FallbackOutcome(ShortGain, s);
        } else {
          assert FirstFallbackFiringFrom(L, s, 3) == FirstFallbackFiringFrom(L, s, 4);
          assert FirstFallbackFiringFrom(L, s, 4) == Some(4);
          assert FallbackAfterStop(s) == FallbackOutcome(ShortLoss, s);
        }
      }
    }
  }

  /** The ladder after the stop check when none of its first four rules fires. */
  lemma FallbackLadderTail(s: Scene)
    requires !FallbackFires(StopRule, s)
    requires !FallbackFires(TargetRule, s) && !FallbackFires(BearProfit, s) && !FallbackFires(ShortGain, s) && !FallbackFires(ShortLoss, s)
    ensures FallbackAfterStop(s) == FallbackLadderOutcome(s)
  {
    FallbackTailForm(s);
    FallbackTailIndex(s);
    FallbackLadderRules();
    if !FallbackFires(StaleLoss, s) {
      FallbackLongLossDead(s);
    }
  }

  /** Past the first five rules, the first rule to fire is the first of the later ones, `LongLoss` never being one. */
  lemma FallbackTailIndex(s: Scene)
    requires !FallbackFires(StopRule, s)
    requires !FallbackFires(TargetRule, s) && !FallbackFires(BearProfit, s) && !FallbackFires(ShortGain, s) && !FallbackFires(ShortLoss, s)
    ensures FirstFallbackFiring(FallbackLadder, s) ==
      if FallbackFires(TenPercentGain, s) then Some(5)
      else if FallbackFires(StaleLoss, s) then Some(6)
      else if FallbackFires(SixtyDayGain, s) then Some(7)
      else if FallbackFires(SevereLoss, s) then Some(9)
      else None
  {
    var L := FallbackLadder;
    FallbackLadderRules();
    assert FirstFallbackFiring(L, s) == FirstFallbackFiringFrom(L, s, 0);
    FallbackSkip(L, s, 0);
    FallbackSkip(L, s, 1);
    FallbackSkip(L, s, 2);
    FallbackSkip(L, s, 3);
    FallbackSkip(L, s, 4);
    if FallbackFires(TenPercentGain, s) {
      FallbackHit(L, s, 5);
    } else {
      FallbackSkip(L, s, 5);
      if FallbackFires(StaleLoss, s) {
        FallbackHit(L, s, 6);
      } else {
        FallbackSkip(L, s, 6);
        if FallbackFires(SixtyDayGain, s) {
          FallbackHit(L, s, 7);
        } else {
          FallbackSkip(L, s, 7);
          FallbackLongLossDead(s);
          FallbackSkip(L, s, 8);
          if FallbackFires(SevereLoss, s) {
            FallbackHit(L, s, 9);
          } else {
            FallbackSkip(L, s, 9);
          }
        }
      }
    }
  }

  /**
   * `LongLoss` never decides: whenever it fires, the 30-day loss rule before it
   * fires too, so the ladder stops there first.
   */
  lemma FallbackLongLossDead(s: Scene)
    ensures FallbackFires(LongLoss, s) ==> FallbackFires(StaleLoss, s)
  {
  }

  /** The ladder in the order of the code. */
  lemma FallbackLadderRules()
    ensures |FallbackLadder| == 10
    ensures FallbackLadder[0] == StopRule && FallbackLadder[1] == TargetRule && FallbackLadder[2] == BearProfit
    ensures FallbackLadder[3] == ShortGain && FallbackLadder[4] == ShortLoss && FallbackLadder[5] == TenPercentGain
    ensures FallbackLadder[6] == StaleLoss && FallbackLadder[7] == SixtyDayGain && FallbackLadder[8] == LongLoss
    ensures FallbackLadder[9] == SevereLoss
  {
  }

  /** A rule that does not fire passes the search on to the next one. */
  lemma FallbackSkip(rules: seq<FallbackRule>, s: Scene, i: nat)
    requires i < |rules| && !FallbackFires(rules[i], s)
    ensures FirstFallbackFiringFrom(rules, s, i) == FirstFallbackFiringFrom(rules, s, i + 1)
  {
  }

  /** A rule that fires ends the search. */
  lemma FallbackHit(rules: seq<FallbackRule>, s: Scene, i: nat)
    requires i < |rules| && FallbackFires(rules[i], s)
    ensures FirstFallbackFiringFrom(rules, s, i) == Some(i)
  {
  }

  /** Past the first four rules, the rest of the ladder is the outcome of the first later rule that fires. */
  lemma FallbackTailForm(s: Scene)
    requires !FallbackFires(TargetRule, s) && !FallbackFires(BearProfit, s) && !FallbackFires(ShortGain, s) && !FallbackFires(ShortLoss, s)
    ensures FallbackAfterStop(s) ==
      if FallbackFires(TenPercentGain, s) then FallbackOutcome(TenPercentGain, s)
      else if FallbackFires(StaleLoss, s) then FallbackOutcome(StaleLoss, s)
      else if FallbackFires(SixtyDayGain, s) then FallbackOutcome(SixtyDayGain, s)
      else if FallbackFires(LongLoss, s) then FallbackOutcome(LongLoss, s)
      else if FallbackFires(SevereLoss, s) then FallbackOutcome(SevereLoss, s)
      else KeepHolding(s)
  {
  }

  /**
   * The fallback is first-match: the outcome of the first rule of
   * `FallbackLadder` that fires, or "계속 보유" with the trend when none fires.
   */
  lemma FallbackFirstMatch(buy: real, current: real, target: Value, stop: Value, days: Option<int>,
                           scenario: Value, trend: int, condition: int)
    requires buy != 0.0 && days.Some? && Number(stop).Some? && Number(target).Some?
    ensures var s := FallbackScene(buy, current, target, stop, days, scenario, trend, condition);
      var d := FallbackSellDecision(buy, current, target, stop, days, scenario, trend, condition);
      d == FallbackLadderOutcome(s)
  {
    var s := FallbackScene(buy, current, target, stop, days, scenario, trend, condition);
    FallbackSellDecisionLadder(buy, current, target, stop, days, scenario, trend, condition);
    if FallbackFires(StopRule, s) {
      FallbackStopFirst(s);
    } else {
      FallbackAfterStopFirstMatch(s);
    }
  }

  /** With usable inputs, the decision is the stop check and then the rest of the ladder on the holding's scene. */
  lemma FallbackSellDecisionLadder(buy: real, current: real, target: Value, stop: Value, days: Option<int>,
                                   scenario: Value, trend: int, condition: int)
    requires buy != 0.0 && days.Some? && Number(stop).Some? && Number(target).Some?
    ensures var s := FallbackScene(buy, current, target, stop, days, scenario, trend, condition);
      FallbackSellDecision(buy, current, target, stop, days, scenario, trend, condition)
        == if FallbackFires(StopRule, s) then FallbackOutcome(StopRule, s) else FallbackAfterStop(s)
  {
  }

  /** A stop that is hit is the first rule of the ladder to fire. */
  lemma FallbackStopFirst(s: Scene)
    requires FallbackFires(StopRule, s)
    ensures FirstFallbackFiring(FallbackLadder, s) == Some(0) && FallbackLadder[0] == StopRule
  {
    assert FallbackLadder[0] == StopRule;
  }

  /**
   * With no trend, outside a bear market and with a non-negative stop, the
   * fallback sells exactly when the base ladder does.
   */
  lemma FallbackAgreesWithBaseWhenFlat(buy: real, current: real, target: Value, stop: Value,
                                       days: Option<int>, scenario: Value, condition: int)
    requires buy != 0.0 && days.Some? && Number(stop).Some? && Number(target).Some?
    requires condition != Bear && Number(stop).value >= 0.0
    ensures FallbackSellDecision(buy, current, target, stop, days, scenario, 0, condition).sell
      == BaseSellDecision(buy, current, target, stop, days, scenario).sell
  {
    var f := BaseFacts(buy, current, target, stop, days, scenario);
    if !(f.stop > 0.0 && current <= f.stop) {
      BaseSellsAfterStop(buy, current, target, stop, days, scenario);
      FallbackAfterStopSells(Scene(f, 0, condition));
    }
  }

  /** Once the stop is not hit, the base agent sells when any later rule fires. */
  lemma BaseSellsAfterStop(buy: real, current: real, target: Value, stop: Value, days: Option<int>, scenario: Value)
    requires buy != 0.0 && days.Some? && Number(stop).Some? && Number(target).Some?
    requires var sl := Number(stop).value; !(sl > 0.0 && current <= sl)
    ensures var f := BaseFacts(buy, current, target, stop, days, scenario);
      BaseSellDecision(buy, current, target, stop, days, scenario).sell <==>
        (f.target > 0.0 && f.current >= f.target) || (f.period == Str("단기") && f.days >= 15 && f.profit >= 5.0)
        || (f.period == Str("단기") && f.days >= 10 && f.profit <= -3.0) || f.profit >= 10.0 || f.profit <= -5.0
        || (f.days >= 30 && f.profit < 0.0) || (f.days >= 60 && f.profit >= 3.0)
        || (f.period == Str("장기") && f.days >= 90 && f.profit < 0.0)
  {
    BaseSellDecisionLadder(buy, current, target, stop, days, scenario);
    BaseAfterStopSellsIfAnyFires(BaseFacts(buy, current, target, stop, days, scenario));
  }

  /** With no trend and no bear market every rule after the stop sells, and a severe loss needs no stop hit. */
  lemma FallbackAfterStopSells(s: Scene)
    requires s.trend == 0 && s.condition != Bear && s.f.stop >= 0.0 && !(s.f.stop > 0.0 && s.f.current <= s.f.stop)
    ensures var f := s.f;
      FallbackAfterStop(s).sell <==>
        (f.target > 0.0 && f.current >= f.target) || (f.period == Str("단기") && f.days >= 15 && f.profit >= 5.0)
        || (f.period == Str("단기") && f.days >= 10 && f.profit <= -3.0) || f.profit >= 10.0 || f.profit <= -5.0
        || (f.days >= 30 && f.profit < 0.0) || (f.days >= 60 && f.profit >= 3.0)
        || (f.period == Str("장기") && f.days >= 90 && f.profit < 0.0)
  {
    FallbackAfterStopSellsIfAnyFires(s);
  }

  /** Below a strong rise, the rest of the ladder sells exactly when one of its rules fires. */
  lemma FallbackAfterStopSellsIfAnyFires(s: Scene)
    requires s.trend < 2
    ensures FallbackAfterStop(s).sell <==>
      FallbackFires(TargetRule, s) || FallbackFires(BearProfit, s) || FallbackFires(ShortGain, s) || FallbackFires(ShortLoss, s)
      || FallbackFires(TenPercentGain, s) || FallbackFires(StaleLoss, s) || FallbackFires(SixtyDayGain, s)
      || FallbackFires(LongLoss, s) || FallbackFires(SevereLoss, s)
  {
  }

  // ---------------------------------------------------------------------------
  // Lenient number conversion
  // ---------------------------------------------------------------------------

  /** The exponent of a float literal: an optional sign and at least one digit. */
  function ParseExponent(t: string): (r: Option<int>)
  {
    if |t| > 1 && (t[0] == '+' || t[0] == '-') && AllDigits(t[1..]) then
      Some(if t[0] == '-' then -(DigitsValue(t[1..]) as int) else DigitsValue(t[1..]) as int)
    else if |t| > 0 && AllDigits(t) then Some(DigitsValue(t) as int)
    else None
  }

  /** Digits with at most one decimal point and at least one digit. */
  function Mantissa(t: string): (r: Option<real>)
    ensures |t| > 0 && AllDigits(t) ==> r == Some(DigitsValue(t) as real)
    ensures r.Some? ==> r.value >= 0.0
  {
    match IndexOfChar(t, '.')
    case None => if |t| > 0 && AllDigits(t) then Some(DigitsValue(t) as real) else None
    case Some(i) =>
      var whole := t[..i];
      var frac := t[i + 1..];
      if (|whole| > 0 || |frac| > 0) && AllDigits(whole) && AllDigits(frac) then
        NonnegScaled(DigitsValue(frac) as real, Pow10(|frac|));
        Some(DigitsValue(whole) as real + DigitsValue(frac) as real / Pow10(|frac|))
      else None
  }

  /** `m` times ten to the power `e`. */
  function Scale(m: real, e: int): (r: real)
    ensures m >= 0.0 ==> r >= 0.0
  {
    if e >= 0 then
      NonnegScaled(m, Pow10(e));
      m * Pow10(e)
    else
      NonnegScaled(m, Pow10(-e));
      m / Pow10(-e)
  }

  lemma NonnegScaled(a: real, b: real)
    requires b >= 1.0
    ensures a >= 0.0 ==> a * b >= 0.0 && a / b >= 0.0
  {
  }

  /** An unsigned decimal float literal with an optional exponent. */
  function ParseUnsigned(t: string): (r: Option<real>)
    ensures r.Some? ==> r.value >= 0.0
  {
    match FirstExponentMark(t, 0)
    case None => Mantissa(t)
    case Some(i) =>
      match (Mantissa(t[..i]), ParseExponent(t[i + 1..]))
      case (Some(m), Some(e)) => Some(Scale(m, e))
      case _ => None
  }

  function FirstExponentMark(t: string, from: nat): (r: Option<nat>)
    requires from <= |t|
    ensures r.Some? ==> from <= r.value < |t| && (t[r.value] == 'e' || t[r.value] == 'E')
    ensures r.None? ==> forall k :: from <= k < |t| ==> t[k] != 'e' && t[k] != 'E'
    decreases |t| - from
  {
    if from == |t| then None
    else if t[from] == 'e' || t[from] == 'E' then Some(from)
    else FirstExponentMark(t, from + 1)
  }

  /** `float(s)` for decimal literals: surrounding whitespace, an optional sign, a mantissa and an optional exponent. */
  function ParseFloat(s: string): (r: Option<real>)
  {
    var t := Strip(s);
    if |t| > 0 && (t[0] == '+' || t[0] == '-') then
      match ParseUnsigned(t[1..])
      case Some(x) => Some(if t[0] == '-' then -x else x)
      case None => None
    else ParseUnsigned(t)
  }

  /** `float()` reads back the digits `str()` writes for a natural number. */
  lemma ParseFloatOfNat(n: nat)
    ensures ParseFloat(NatToString(n)) == Some(n as real)
  {
    var t := NatToString(n);
    StripNoSpace(t);
    assert !(t[0] == '+' || t[0] == '-') by { assert IsDigit(t[0]); }
    assert FirstExponentMark(t, 0).None?;
  }

  /**
   * `_safe_number_conversion`: a number (a bool counts as 0 or 1) as a float; a
   * string with its commas, spaces and '원' removed, read as a float, 0 when
   * nothing is left or it does not read; anything else 0.
   */
  function SafeNumber(v: Value): (x: real)
    ensures Number(v).Some? ==> x == Number(v).value
    ensures !v.Str? && Number(v).None? ==> x == 0.0
  {
    match v
    case Str(s) =>
      var cleaned := RemoveChar(RemoveChar(RemoveChar(s, ','), ' '), '원');
      if cleaned == "" then 0.0
      else (match ParseFloat(cleaned)
        case Some(x) => x
        case None => 0.0)
    case _ =>
      match Number(v)
      case Some(x) => x
      case None => 0.0
  }

  /** A price written with thousands separators and a trailing '원' converts to its value: "85,000원" is 85000. */
  lemma SafeNumberOfWon(n: nat)
    ensures SafeNumber(Str(Grouped(n) + "원")) == n as real
  {
    WonCleaned(n);
    ParseFloatOfNat(n);
    SafeNumberOfText(Grouped(n) + "원", NatToString(n), n as real);
  }

  /** A string whose cleaned text reads as `x` converts to `x`. */
  lemma SafeNumberOfText(s: string, cleaned: string, x: real)
    requires RemoveChar(RemoveChar(RemoveChar(s, ','), ' '), '원') == cleaned
    requires cleaned != "" && ParseFloat(cleaned) == Some(x)
    ensures SafeNumber(Str(s)) == x
  {
  }

  /** Deleting ',', ' ' and '원' from "85,000원" leaves "85000". */
  lemma WonCleaned(n: nat)
    ensures RemoveChar(RemoveChar(RemoveChar(Grouped(n) + "원", ','), ' '), '원') == NatToString(n)
  {
    var d := NatToString(n);
    var a := d + "원";
    RemoveCharConcat(Grouped(n), "원", ',');
    assert RemoveChar("원", ',') == "원";
    assert RemoveChar(Grouped(n) + "원", ',') == a;
    assert ' ' !in a by {
      forall k | 0 <= k < |a| ensures a[k] != ' ' {
        if k < |d| { assert a[k] == d[k] && IsDigit(d[k]); }
      }
    }
    WonRemoved(d);
  }

  /** Deleting '원' from digits followed by '원' leaves the digits. */
  lemma WonRemoved(d: string)
    requires AllDigits(d)
    ensures RemoveChar(d + "원", '원') == d
  {
    RemoveCharConcat(d, "원", '원');
    assert RemoveChar("원", '원') == "";
    assert '원' !in d by {
      forall k | 0 <= k < |d| ensures d[k] != '원' { assert IsDigit(d[k]); }
    }
    assert d + "" == d;
  }

  predicate NoDigit(s: string) { forall k :: 0 <= k < |s| ==> !IsDigit(s[k]) }

  /** Text with no digit yields 0. */
  lemma SafeNumberOfWordsIsZero(s: string)
    requires NoDigit(s)
    ensures SafeNumber(Str(s)) == 0.0
  {
    RemoveCharKeepsNoDigit(s, ',');
    RemoveCharKeepsNoDigit(RemoveChar(s, ','), ' ');
    RemoveCharKeepsNoDigit(RemoveChar(RemoveChar(s, ','), ' '), '원');
    var cleaned := RemoveChar(RemoveChar(RemoveChar(s, ','), ' '), '원');
    if cleaned != "" {
      NoDigitNoFloat(cleaned);
    }
  }

  lemma {:induction false} RemoveCharKeepsNoDigit(s: string, c: char)
    requires NoDigit(s)
    ensures NoDigit(RemoveChar(s, c))
    decreases |s|
  {
    if |s| > 0 {
      assert NoDigit(s[1..]) by {
        forall k | 0 <= k < |s[1..]| ensures !IsDigit(s[1..][k]) { assert s[1..][k] == s[k + 1]; }
      }
      RemoveCharKeepsNoDigit(s[1..], c);
      var rest := RemoveChar(s[1..], c);
      if s[0] != c {
        assert RemoveChar(s, c) == [s[0]] + rest;
        forall k | 0 <= k < |[s[0]] + rest| ensures !IsDigit(([s[0]] + rest)[k]) {
          if k > 0 { assert ([s[0]] + rest)[k] == rest[k - 1]; }
        }
      }
    }
  }

  /** A literal needs a digit. */
  lemma NoDigitNoFloat(t: string)
    requires NoDigit(t)
    ensures ParseFloat(t).None?
  {
    var u := Strip(t);
    NoDigitStrip(t);
    if |u| > 0 && (u[0] == '+' || u[0] == '-') {
      assert NoDigit(u[1..]) by {
        forall k | 0 <= k < |u[1..]| ensures !IsDigit(u[1..][k]) { assert u[1..][k] == u[k + 1]; }
      }
      NoDigitUnsigned(u[1..]);
    } else {
      NoDigitUnsigned(u);
    }
  }

  lemma NoDigitStrip(t: string)
    requires NoDigit(t)
    ensures NoDigit(Strip(t))
  {
    var l := LStrip(t);
    assert forall k :: 0 <= k < |l| ==> l[k] == t[|t| - |l| + k];
    var r := RStrip(l);
    assert forall k :: 0 <= k < |r| ==> r[k] == l[k];
  }

  lemma NoDigitUnsigned(t: string)
    requires NoDigit(t)
    ensures ParseUnsigned(t).None?
  {
    match FirstExponentMark(t, 0)
    case None => NoDigitMantissa(t);
    case Some(i) =>
      assert NoDigit(t[..i]) by {
        forall k | 0 <= k < i ensures !IsDigit(t[..i][k]) { assert t[..i][k] == t[k]; }
      }
      NoDigitMantissa(t[..i]);
  }

  lemma NoDigitMantissa(t: string)
    requires NoDigit(t)
    ensures Mantissa(t).None?
  {
    match IndexOfChar(t, '.')
    case None =>
      if |t| > 0 { assert !IsDigit(t[0]); }
    case Some(i) =>
      var whole := t[..i];
      var frac := t[i + 1..];
      if |whole| > 0 { assert whole[0] == t[0]; }
      if |frac| > 0 { assert frac[0] == t[i + 1]; }
  }
}
