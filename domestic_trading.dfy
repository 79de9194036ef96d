/**
 * The order rules of the brokerage client (trading/domestic_stock_trading.py):
 * which kind of order the clock selects, the auto-trading switch, how many
 * shares a fixed amount buys, the full-holding sells, the portfolio filter, the
 * account summary and the records of the asynchronous buy and sell.
 *
 * The brokerage is an input: a quote is `Some(price)` or `None` when the price
 * lookup failed, a portfolio snapshot is what `get_portfolio` returned at that
 * moment, and `Reply` is the brokerage's answer to an order. What the client
 * submits is an output, `Order`; a path that submits nothing returns `None`.
 */
module DomesticTrading {
  import opened Wrappers
  import opened Text
  import opened Format
  import PyValue

  // ---------------------------------------------------------------- settings

  /** The client's settings: the mode ("demo" or "real"), the server it selects, the amount per stock and the auto-trading switch. */
  datatype Config = Config(mode: string, env: string, buyAmount: int, autoTrading: bool)

  /** `__init__`: the demo server for the demo mode and the production one for any other; an amount of 0 or `None` takes the configured default. */
  function Init(mode: string, buyAmount: Option<int>, autoTrading: bool, defaultAmount: int): (c: Config)
    ensures c.env == "vps" <==> mode == "demo"
    ensures c.mode == mode && c.autoTrading == autoTrading
    ensures c.buyAmount == Resolve(buyAmount, defaultAmount)
  {
    Config(mode, if mode == "demo" then "vps" else "prod", Resolve(buyAmount, defaultAmount), autoTrading)
  }

  /** `x if x else fallback` for an optional amount: `None` and 0 are both falsy. */
  function Resolve(x: Option<int>, fallback: int): int
  {
    if x.Some? && x.value != 0 then x.value else fallback
  }

  /** The amount a buy spends: the caller's when it is given and not 0, else the client's. */
  function AmountFor(c: Config, buyAmount: Option<int>): (a: int)
    ensures buyAmount.Some? && buyAmount.value != 0 ==> a == buyAmount.value
    ensures buyAmount.None? || buyAmount.value == 0 ==> a == c.buyAmount
  {
    Resolve(buyAmount, c.buyAmount)
  }

  /** Passing a resolved amount on, as `_execute_buy_stock` passes it to `smart_buy`, resolves to the same amount. */
  lemma AmountForResolved(c: Config, buyAmount: Option<int>)
    ensures AmountFor(c, Some(AmountFor(c, buyAmount))) == AmountFor(c, buyAmount)
  {
  }

  // ---------------------------------------------------------------- routing

  /** A time of day as `datetime.time` compares it, in microseconds since midnight. */
  function At(h: nat, m: nat, s: nat): nat
  {
    ((h * 60 + m) * 60 + s) * 1000000
  }

  datatype Route = Market | Closing | Reserved

  /** The order kind `smart_buy` and `smart_sell_all` pick: regular session 09:00-15:30, after-hours closing price 15:40-16:00, both ends included; a reservation for the next day otherwise. */
  function RouteAt(t: nat): Route
  {
    if At(9, 0, 0) <= t <= At(15, 30, 0) then Market
    else if At(15, 40, 0) <= t <= At(16, 0, 0) then Closing
    else Reserved
  }

  /** Outside the two windows, including the ten minutes between them and any instant after 16:00:00, the order is a reservation. */
  lemma ReservedOutsideWindows(t: nat)
    ensures RouteAt(t) == Reserved <==> t < At(9, 0, 0) || At(15, 30, 0) < t < At(15, 40, 0) || At(16, 0, 0) < t
  {
  }

  /** The edges of the windows: 15:30:00 is still regular, 15:30:01 and 15:39:59 are reserved, 15:40:00 and 16:00:00 are closing-price, 16:00:01 is reserved. */
  lemma RouteEdges()
    ensures RouteAt(At(9, 0, 0)) == Market && RouteAt(At(15, 30, 0)) == Market
    ensures RouteAt(At(15, 30, 1)) == Reserved && RouteAt(At(15, 39, 59)) == Reserved
    ensures RouteAt(At(15, 40, 0)) == Closing && RouteAt(At(16, 0, 0)) == Closing
    ensures RouteAt(At(16, 0, 1)) == Reserved && RouteAt(At(8, 59, 59)) == Reserved
    ensures RouteAt(At(15, 30, 0) + 1) == Reserved
  {
  }

  // ---------------------------------------------------------------- quantities

  /** `math.floor(a / b)`, the float quotient taken as exact. */
  function FloorDiv(a: int, b: int): (q: int)
    requires b != 0
    ensures b > 0 ==> q * b <= a < q * b + b
    ensures b < 0 ==> q * b >= a > q * b + b
  {
    if b > 0 then a / b else (-a) / (-b)
  }

  /** For a positive price, a zero count means exactly that the price is above a non-negative amount. */
  lemma FloorDivZero(a: int, b: int)
    requires b > 0
    ensures FloorDiv(a, b) == 0 <==> 0 <= a < b
  {
    var q := FloorDiv(a, b);
    if q >= 1 {
      assert q * b >= b by { MulAtLeast(q, b); }
    } else if q <= -1 {
      assert q * b + b <= 0 by { MulAtLeast(-q, b); }
    }
  }

  lemma MulAtLeast(q: int, b: int)
    requires q >= 1 && b > 0
    ensures q * b >= b
  {
    assert q * b - b == (q - 1) * b;
  }

  /** The share count a buy path computes before it submits, or the division by a zero price that raises. */
  datatype Count = Count(n: int) | DivisionByZero

  /** `calculate_buy_quantity`: 0 when the quote failed, floor(amount / price) otherwise; a zero price raises `ZeroDivisionError`, which no caller inside the client catches. */
  function BuyQuantity(c: Config, buyAmount: Option<int>, quote: Option<int>): (k: Count)
    ensures quote.None? ==> k == Count(0)
    ensures k.DivisionByZero? <==> quote == Some(0)
    ensures quote.Some? && quote.value > 0 ==> k.Count? && k.n * quote.value <= AmountFor(c, buyAmount) < k.n * quote.value + quote.value
  {
    match quote
    case None => Count(0)
    case Some(price) => if price == 0 then DivisionByZero else Count(FloorDiv(AmountFor(c, buyAmount), price))
  }

  // ---------------------------------------------------------------- orders and results

  /** The dict every synchronous entry point returns; the limit price, order type and period fields appear only on the paths that set them. */
  datatype TradeResult = TradeResult(success: bool, orderNo: Option<string>, stockCode: string, quantity: int, message: string,
                                     limitPrice: Option<int>, orderType: Option<string>, periodType: Option<string>)

  /** The brokerage's answer to a submitted order: accepted with an order number, refused with a code and a message, or an exception on the way. */
  datatype Reply = Accepted(orderNo: string) | Refused(code: string, text: string) | Raised(error: string)

  /**
   * A submitted order: a cash order (`order-cash`, with its transaction id,
   * `ORD_DVSN`, `ORD_UNPR` and `SLL_TYPE`) or a reservation (`order-resv`, with
   * `SLL_BUY_DVSN_CD`, `ORD_DVSN_CD` and the end date, "" for an ordinary one).
   */
  datatype Order =
    | CashOrder(trId: string, code: string, division: string, quantity: int, unitPrice: string, sellType: string)
    | ReservedOrder(code: string, quantity: int, unitPrice: string, side: string, division: string, endDate: string)

  /** One call of an entry point: a record and the order it submitted, if any; or the exception it lets out. */
  datatype Outcome = Done(result: TradeResult, sent: Option<Order>) | Raises(error: string)

  const ZeroDivision := "division by zero"
  const BuyDisabled := "자동매매가 비활성화되어 있습니다. 매수 작업을 수행할 수 없습니다. (AUTO_TRADING=False)"
  const SellDisabled := "자동매매가 비활성화되어 있습니다. 매도 작업을 수행할 수 없습니다. (AUTO_TRADING=False)"
  const NothingHeld := "보유 수량이 없습니다"

  /** A record of a path that submitted nothing. */
  function Refusal(code: string, message: string): TradeResult
  {
    TradeResult(false, None, code, 0, message, None, None, None)
  }

  /** The record of a submitted order, from the reply: the success text, or a prefix followed by the error. */
  function Answer(code: string, quantity: int, reply: Reply, done: string, refused: string, raised: string): (r: TradeResult)
    ensures r.success <==> reply.Accepted?
    ensures r.orderNo == (if reply.Accepted? then Some(reply.orderNo) else None)
    ensures r.stockCode == code && r.quantity == quantity
  {
    match reply
    case Accepted(no) => TradeResult(true, Some(no), code, quantity, done, None, None, None)
    case Refused(ec, em) => TradeResult(false, None, code, quantity, refused + ec + " - " + em, None, None, None)
    case Raised(e) => TradeResult(false, None, code, quantity, raised + e, None, None, None)
  }

  function OrderQuantity(o: Order): int
  {
    match o
    case CashOrder(_, _, _, q, _, _) => q
    case ReservedOrder(_, q, _, _, _, _) => q
  }

  function OrderCode(o: Order): string
  {
    match o
    case CashOrder(_, code, _, _, _, _) => code
    case ReservedOrder(code, _, _, _, _, _) => code
  }

  /**
   * What every entry point keeps: a record either comes with the order it
   * submitted, for the stock asked and with the record's quantity, and succeeds
   * exactly when the brokerage accepted it (carrying its order number), or
   * comes without one, failed and with quantity 0.
   */
  predicate Honest(o: Outcome, code: string, reply: Reply)
  {
    o.Done? ==>
      o.result.stockCode == code &&
      (o.result.success <==> o.sent.Some? && reply.Accepted?) &&
      (o.result.orderNo.Some? <==> o.result.success) &&
      (o.result.success ==> o.result.orderNo == Some(reply.orderNo)) &&
      (o.sent.Some? ==> OrderCode(o.sent.value) == code && OrderQuantity(o.sent.value) == o.result.quantity && o.result.quantity != 0) &&
      (o.sent.None? ==> o.result.quantity == 0)
  }

  /** The transaction id of a cash buy: the real-account one only for the mode "real". */
  function BuyTrId(c: Config): string
  {
    if c.mode == "real" then "TTTC0012U" else "VTTC0012U"
  }

  /** The transaction id of a cash sell: the real-account one only for the mode "real". */
  function SellTrId(c: Config): string
  {
    if c.mode == "real" then "TTTC0011U" else "VTTC0011U"
  }

  /** The order-type text of a reservation: from the code's table of `ORD_DVSN_CD` values, "" for any other. */
  function OrderTypeText(division: string, unitPrice: string): string
  {
    if division == "01" then "시장가"
    else if division == "00" then "지정가(" + unitPrice + "원)"
    else if division == "05" then "장전 시간외"
    else ""
  }

  /** The period text of a reservation: a period reservation up to the end date when one is given, else an ordinary one. */
  function PeriodText(endDate: string): string
  {
    if endDate != "" then "기간예약(~" + endDate + ")" else "일반예약"
  }

  /** "({q}주)". */
  function Shares(q: int): string
  {
    "(" + IntToString(q) + "주)"
  }

  // ---------------------------------------------------------------- buying

  /** `buy_market_price`: a market order for floor(amount / price) shares. */
  function BuyMarketPrice(c: Config, code: string, buyAmount: Option<int>, quote: Option<int>, reply: Reply): (o: Outcome)
    ensures !c.autoTrading ==> o == Done(Refusal(code, BuyDisabled), None)
    ensures o.Raises? <==> c.autoTrading && quote == Some(0)
    ensures Honest(o, code, reply)
    ensures o.Done? && o.sent.Some? ==> BuyQuantity(c, buyAmount, quote) == Count(o.result.quantity)
    ensures o.Done? && o.sent.Some? ==> o.sent.value == CashOrder(BuyTrId(c), code, "01", o.result.quantity, "0", "")
    ensures c.autoTrading && BuyQuantity(c, buyAmount, quote) == Count(0) ==> o == Done(Refusal(code, "매수 가능 수량이 0입니다 (현재가가 매수금액보다 높음)"), None)
  {
    if !c.autoTrading then Done(Refusal(code, BuyDisabled), None)
    else match BuyQuantity(c, buyAmount, quote)
      case DivisionByZero => Raises(ZeroDivision)
      case Count(q) =>
        if q == 0 then Done(Refusal(code, "매수 가능 수량이 0입니다 (현재가가 매수금액보다 높음)"), None)
        else Done(Answer(code, q, reply, "시장가 매수 주문 완료 " + Shares(q), "매수 주문 실패: ", "매수 주문 중 오류: "),
                  Some(CashOrder(BuyTrId(c), code, "01", q, "0", "")))
  }

  /** `buy_limit_price`: a limit order for floor(amount / limit) shares; every record carries the limit, and a zero limit raises. */
  function BuyLimitPrice(c: Config, code: string, limit: int, buyAmount: Option<int>, reply: Reply): (o: Outcome)
    ensures !c.autoTrading ==> o.Done? && o.sent.None? && !o.result.success && o.result.quantity == 0
    ensures o.Raises? <==> c.autoTrading && limit == 0
    ensures Honest(o, code, reply)
    ensures o.Done? ==> o.result.limitPrice == Some(limit)
    ensures o.Done? && o.sent.Some? ==> limit != 0 && o.result.quantity == FloorDiv(AmountFor(c, buyAmount), limit)
    ensures o.Done? && o.sent.Some? ==> o.sent.value == CashOrder(BuyTrId(c), code, "00", o.result.quantity, IntToString(limit), "")
  {
    if !c.autoTrading then Done(Refusal(code, BuyDisabled).(limitPrice := Some(limit)), None)
    else if limit == 0 then Raises(ZeroDivision)
    else
      var amount := AmountFor(c, buyAmount);
      var q := FloorDiv(amount, limit);
      if q == 0 then
        Done(Refusal(code, "매수 가능 수량이 0입니다 (지정가 " + Amount(limit as real) + "원 > 매수금액 " + Amount(amount as real) + "원)").(limitPrice := Some(limit)), None)
      else
        var r := Answer(code, q, reply, "지정가 매수 주문 완료 (" + IntToString(q) + "주 x " + Amount(limit as real) + "원)", "매수 주문 실패: ", "매수 주문 중 오류: ");
        Done(r.(limitPrice := Some(limit)), Some(CashOrder(BuyTrId(c), code, "00", q, IntToString(limit), "")))
  }

  /** `buy_closing_price`: an after-hours order at the closing price (`ORD_DVSN` "02"). */
  function BuyClosingPrice(c: Config, code: string, buyAmount: Option<int>, quote: Option<int>, reply: Reply): (o: Outcome)
    ensures !c.autoTrading ==> o == Done(Refusal(code, BuyDisabled), None)
    ensures o.Raises? <==> c.autoTrading && quote == Some(0)
    ensures Honest(o, code, reply)
    ensures o.Done? && o.sent.Some? ==> BuyQuantity(c, buyAmount, quote) == Count(o.result.quantity)
    ensures o.Done? && o.sent.Some? ==> o.sent.value == CashOrder(BuyTrId(c), code, "02", o.result.quantity, "0", "")
  {
    if !c.autoTrading then Done(Refusal(code, BuyDisabled), None)
    else match BuyQuantity(c, buyAmount, quote)
      case DivisionByZero => Raises(ZeroDivision)
      case Count(q) =>
        if q == 0 then Done(Refusal(code, "매수 가능 수량이 0입니다"), None)
        else Done(Answer(code, q, reply, "시간외 종가 매수 주문 완료 " + Shares(q), "매수 주문 실패: ", "매수 주문 중 오류: "),
                  Some(CashOrder(BuyTrId(c), code, "02", q, "0", "")))
  }

  /** `buy_reserved_order`: a market-order reservation for the next trading day; the order type and period appear on success only. */
  function BuyReservedOrder(c: Config, code: string, buyAmount: Option<int>, endDate: string, quote: Option<int>, reply: Reply): (o: Outcome)
    ensures !c.autoTrading ==> o == Done(Refusal(code, BuyDisabled), None)
    ensures o.Raises? <==> c.autoTrading && quote == Some(0)
    ensures Honest(o, code, reply)
    ensures o.Done? && o.sent.Some? ==> BuyQuantity(c, buyAmount, quote) == Count(o.result.quantity)
    ensures o.Done? && o.sent.Some? ==> o.sent.value == ReservedOrder(code, o.result.quantity, "0", "02", "01", endDate)
    ensures o.Done? && o.result.success ==> o.result.orderType == Some("시장가") && o.result.periodType == Some(PeriodText(endDate))
  {
    if !c.autoTrading then Done(Refusal(code, BuyDisabled), None)
    else match BuyQuantity(c, buyAmount, quote)
      case DivisionByZero => Raises(ZeroDivision)
      case Count(q) =>
        if q == 0 then Done(Refusal(code, "매수 가능 수량이 0입니다"), None)
        else Done(Reservation(code, q, "02", endDate, reply, "예약주문 매수 완료 ("), Some(ReservedOrder(code, q, "0", "02", "01", endDate)))
  }

  /** The record of a market-order reservation for `q` shares. */
  function Reservation(code: string, q: int, side: string, endDate: string, reply: Reply, done: string): (r: TradeResult)
    ensures r.success <==> reply.Accepted?
    ensures r.orderNo == (if reply.Accepted? then Some(reply.orderNo) else None)
    ensures r.stockCode == code && r.quantity == q
    ensures r.success ==> r.orderType == Some("시장가") && r.periodType == Some(PeriodText(endDate))
  {
    var kind := OrderTypeText("01", "0");
    var period := PeriodText(endDate);
    var r := Answer(code, q, reply, done + IntToString(q) + "주, " + kind + ", " + period + ")", "예약주문 실패: ", "예약주문 중 오류: ");
    if r.success then r.(orderType := Some(kind), periodType := Some(period)) else r
  }

  /** `smart_buy`: the buy path the clock selects, an ordinary reservation outside the two windows. */
  function SmartBuy(c: Config, code: string, buyAmount: Option<int>, t: nat, quote: Option<int>, reply: Reply): (o: Outcome)
    ensures !c.autoTrading ==> o == Done(Refusal(code, BuyDisabled), None)
    ensures o.Raises? <==> c.autoTrading && quote == Some(0)
    ensures Honest(o, code, reply)
    ensures o.Done? && o.sent.Some? ==> BuyQuantity(c, buyAmount, quote) == Count(o.result.quantity)
    ensures o.Done? && o.sent.Some? ==> OrderRoute(o.sent.value) == RouteAt(t)
  {
    if !c.autoTrading then Done(Refusal(code, BuyDisabled), None)
    else match RouteAt(t)
      case Market => BuyMarketPrice(c, code, buyAmount, quote, reply)
      case Closing => BuyClosingPrice(c, code, buyAmount, quote, reply)
      case Reserved => BuyReservedOrder(c, code, buyAmount, "", quote, reply)
  }

  /** The window an order belongs to, read off the order itself: a market cash order, a closing-price cash order ("02" to buy, "06" to sell) or a reservation. */
  function OrderRoute(o: Order): Route
  {
    match o
    case CashOrder(_, _, division, _, _, _) => if division == "01" then Market else if division == "02" || division == "06" then Closing else Reserved
    case ReservedOrder(_, _, _, _, _, _) => Reserved
  }

  // ---------------------------------------------------------------- the portfolio

  /** A row of the balance inquiry (`output1`), its numbers already converted. */
  datatype Entry = Entry(code: string, name: string, quantity: int, avgPrice: real, currentPrice: real,
                         evalAmount: real, profitAmount: real, profitRate: real)

  /** `output1` as the brokerage sends it: a list, or a single row that may be empty. */
  datatype Rows = RowList(rows: seq<Entry>) | OneRow(row: Option<Entry>)

  /** The account totals of the balance inquiry (`output2[0]`); `None` for an empty one. */
  datatype Totals = Totals(totalEval: real, profitSum: real, purchaseSum: real, deposit: real, orderable: real)

  /** The balance inquiry's answer: the rows and the list `output2`, a refusal, or an exception (a malformed number included). */
  datatype Balance = BalanceOk(output1: Rows, output2: seq<Option<Totals>>) | BalanceRefused | BalanceRaised

  /** `[output1] if output1 else []` for a single row. */
  function RowsOf(r: Rows): seq<Entry>
  {
    match r
    case RowList(rows) => rows
    case OneRow(row) => if row.Some? then [row.value] else []
  }

  /** The rows with a positive quantity, in their order. */
  function HeldRows(rows: seq<Entry>): (r: seq<Entry>)
    ensures |r| <= |rows|
    ensures forall e :: e in r <==> e in rows && e.quantity > 0
  {
    if |rows| == 0 then []
    else if rows[0].quantity > 0 then [rows[0]] + HeldRows(rows[1..])
    else HeldRows(rows[1..])
  }

  /** The filter keeps the order of the rows: filtering a concatenation concatenates the filtered parts. */
  lemma {:induction false} HeldRowsConcat(a: seq<Entry>, b: seq<Entry>)
    ensures HeldRows(a + b) == HeldRows(a) + HeldRows(b)
    decreases |a|
  {
    if |a| == 0 {
      assert a + b == b;
    } else {
      assert (a + b)[0] == a[0] && (a + b)[1..] == a[1..] + b;
      HeldRowsConcat(a[1..], b);
    }
  }

  /**
   * `get_portfolio`: the rows holding a positive quantity; [] when the inquiry
   * is refused or raises, and also when `output2` is an empty list, since
   * `output2[0]` is read before the rows.
   */
  function Portfolio(b: Balance): (p: seq<Entry>)
    ensures forall e :: e in p ==> e.quantity > 0
    ensures !b.BalanceOk? ==> p == []
    ensures b.BalanceOk? && |b.output2| > 0 ==> forall e :: e in RowsOf(b.output1) && e.quantity > 0 ==> e in p
  {
    match b
    case BalanceOk(rows, totals) => if |totals| == 0 then [] else HeldRows(RowsOf(rows))
    case _ => []
  }

  /** One more row extends the filtered prefix by that row exactly when its quantity is positive. */
  lemma HeldRowsNext(rows: seq<Entry>, i: nat)
    requires i < |rows|
    ensures HeldRows(rows[..i + 1]) == HeldRows(rows[..i]) + (if rows[i].quantity > 0 then [rows[i]] else [])
  {
    HeldRowsConcat(rows[..i], [rows[i]]);
    assert rows[..i + 1] == rows[..i] + [rows[i]];
  }

  /** The loop of `get_portfolio`, appending every row with a positive quantity. */
  method GetPortfolio(b: Balance) returns (p: seq<Entry>)
    ensures p == Portfolio(b)
  {
    if !b.BalanceOk? || |b.output2| == 0 {
      return [];
    }
    var rows := RowsOf(b.output1);
    p := [];
    var i := 0;
    while i < |rows|
      invariant 0 <= i <= |rows|
      invariant p == HeldRows(rows[..i])
    {
      HeldRowsNext(rows, i);
      if rows[i].quantity > 0 {
        p := p + [rows[i]];
      }
      i := i + 1;
    }
    assert rows[..i] == rows;
  }

  /** The first entry of `p` from `i` on for the code. */
  function FindEntryFrom(p: seq<Entry>, code: string, i: nat): (k: Option<nat>)
    requires i <= |p|
    ensures k.Some? ==> i <= k.value < |p| && p[k.value].code == code
    ensures k.Some? ==> forall j :: i <= j < k.value ==> p[j].code != code
    ensures k.None? ==> forall j :: i <= j < |p| ==> p[j].code != code
    decreases |p| - i
  {
    if i == |p| then None
    else if p[i].code == code then Some(i)
    else FindEntryFrom(p, code, i + 1)
  }

  /** The first entry of `p` for the code. */
  function FindEntry(p: seq<Entry>, code: string): (k: Option<nat>)
    ensures k.Some? ==> k.value < |p| && p[k.value].code == code && forall j :: 0 <= j < k.value ==> p[j].code != code
    ensures k.None? ==> forall j :: 0 <= j < |p| ==> p[j].code != code
  {
    FindEntryFrom(p, code, 0)
  }

  /** `get_holding_quantity` on a snapshot: the quantity of the first entry for the code, 0 without one. */
  function HeldQuantity(p: seq<Entry>, code: string): int
  {
    match FindEntry(p, code)
    case Some(k) => p[k].quantity
    case None => 0
  }

  /** On a snapshot of positive quantities the held quantity is never negative, and it is 0 exactly when the code has no entry. */
  lemma HeldQuantityOfPositive(p: seq<Entry>, code: string)
    requires forall e :: e in p ==> e.quantity > 0
    ensures HeldQuantity(p, code) >= 0
    ensures HeldQuantity(p, code) == 0 <==> forall e :: e in p ==> e.code != code
  {
    match FindEntry(p, code)
    case Some(k) => assert p[k] in p;
    case None =>
  }

  /** On a portfolio as `get_portfolio` returns it, the held quantity is never negative, and it is 0 exactly when the code has no entry. */
  lemma HeldQuantityOfPortfolio(b: Balance, code: string)
    ensures HeldQuantity(Portfolio(b), code) >= 0
    ensures HeldQuantity(Portfolio(b), code) == 0 <==> forall e :: e in Portfolio(b) ==> e.code != code
  {
    HeldQuantityOfPositive(Portfolio(b), code);
  }

  /** The loop of `get_holding_quantity`, returning at the first entry for the code. */
  method GetHoldingQuantity(p: seq<Entry>, code: string) returns (q: int)
    ensures q == HeldQuantity(p, code)
  {
    var i := 0;
    while i < |p|
      invariant 0 <= i <= |p|
      invariant FindEntryFrom(p, code, i) == FindEntry(p, code)
    {
      if p[i].code == code {
        return p[i].quantity;
      }
      i := i + 1;
    }
    return 0;
  }

  // ---------------------------------------------------------------- selling

  /** `sell_all_market_price`: a market sell of the whole holding. */
  function SellAllMarketPrice(c: Config, code: string, held: seq<Entry>, reply: Reply): (o: Outcome)
    ensures o.Done? && Honest(o, code, reply)
    ensures !c.autoTrading ==> o == Done(Refusal(code, SellDisabled), None)
    ensures c.autoTrading && HeldQuantity(held, code) == 0 ==> o == Done(Refusal(code, NothingHeld), None)
    ensures o.sent.Some? ==> o.sent.value == CashOrder(SellTrId(c), code, "01", HeldQuantity(held, code), "0", "01")
  {
    var q := HeldQuantity(held, code);
    if !c.autoTrading then Done(Refusal(code, SellDisabled), None)
    else if q == 0 then Done(Refusal(code, NothingHeld), None)
    else Done(Answer(code, q, reply, "시장가 전량 매도 주문 완료 " + Shares(q), "매도 주문 실패: ", "매도 주문 중 오류: "),
              Some(CashOrder(SellTrId(c), code, "01", q, "0", "01")))
  }

  /** `sell_all_closing_price`: an after-hours sell of the whole holding (`ORD_DVSN` "06"). */
  function SellAllClosingPrice(c: Config, code: string, held: seq<Entry>, reply: Reply): (o: Outcome)
    ensures o.Done? && Honest(o, code, reply)
    ensures !c.autoTrading ==> o == Done(Refusal(code, SellDisabled), None)
    ensures c.autoTrading && HeldQuantity(held, code) == 0 ==> o == Done(Refusal(code, NothingHeld), None)
    ensures o.sent.Some? ==> o.sent.value == CashOrder(SellTrId(c), code, "06", HeldQuantity(held, code), "0", "01")
  {
    var q := HeldQuantity(held, code);
    if !c.autoTrading then Done(Refusal(code, SellDisabled), None)
    else if q == 0 then Done(Refusal(code, NothingHeld), None)
    else Done(Answer(code, q, reply, "시간외 종가 매도 완료 " + Shares(q), "매도 실패: ", "매도 중 오류: "),
              Some(CashOrder(SellTrId(c), code, "06", q, "0", "01")))
  }

  /** `sell_all_reserved_order`: a market-order reservation selling the whole holding. */
  function SellAllReservedOrder(c: Config, code: string, endDate: string, held: seq<Entry>, reply: Reply): (o: Outcome)
    ensures o.Done? && Honest(o, code, reply)
    ensures !c.autoTrading ==> o == Done(Refusal(code, SellDisabled), None)
    ensures c.autoTrading && HeldQuantity(held, code) == 0 ==> o == Done(Refusal(code, NothingHeld), None)
    ensures o.sent.Some? ==> o.sent.value == ReservedOrder(code, HeldQuantity(held, code), "0", "01", "01", endDate)
    ensures o.result.success ==> o.result.orderType == Some("시장가") && o.result.periodType == Some(PeriodText(endDate))
  {
    var q := HeldQuantity(held, code);
    if !c.autoTrading then Done(Refusal(code, SellDisabled), None)
    else if q == 0 then Done(Refusal(code, NothingHeld), None)
    else Done(Reservation(code, q, "01", endDate, reply, "예약주문 매도 완료 ("), Some(ReservedOrder(code, q, "0", "01", "01", endDate)))
  }

  /** `smart_sell_all`: the sell path the clock selects; whichever it is, it orders the whole holding of the snapshot it reads. */
  function SmartSellAll(c: Config, code: string, t: nat, held: seq<Entry>, reply: Reply): (o: Outcome)
    ensures o.Done? && Honest(o, code, reply)
    ensures !c.autoTrading ==> o == Done(Refusal(code, SellDisabled), None)
    ensures c.autoTrading && HeldQuantity(held, code) == 0 ==> o == Done(Refusal(code, NothingHeld), None)
    ensures o.sent.Some? ==> OrderQuantity(o.sent.value) == HeldQuantity(held, code) && OrderRoute(o.sent.value) == RouteAt(t)
  {
    if !c.autoTrading then Done(Refusal(code, SellDisabled), None)
    else match RouteAt(t)
      case Market => SellAllMarketPrice(c, code, held, reply)
      case Closing => SellAllClosingPrice(c, code, held, reply)
      case Reserved => SellAllReservedOrder(c, code, "", held, reply)
  }

  /** With auto-trading off, every entry point refuses before any lookup: failed, no order number, quantity 0, nothing submitted. */
  lemma DisabledRefusesEverything(c: Config, code: string, buyAmount: Option<int>, limit: int, endDate: string, t: nat,
                                  quote: Option<int>, held: seq<Entry>, reply: Reply)
    requires !c.autoTrading
    ensures forall o :: o in [BuyMarketPrice(c, code, buyAmount, quote, reply), BuyLimitPrice(c, code, limit, buyAmount, reply),
                             BuyClosingPrice(c, code, buyAmount, quote, reply), BuyReservedOrder(c, code, buyAmount, endDate, quote, reply),
                             SmartBuy(c, code, buyAmount, t, quote, reply), SellAllMarketPrice(c, code, held, reply),
                             SellAllClosingPrice(c, code, held, reply), SellAllReservedOrder(c, code, endDate, held, reply),
                             SmartSellAll(c, code, t, held, reply)] ==>
      o.Done? && o.sent.None? && !o.result.success && o.result.orderNo.None? && o.result.quantity == 0
  {
  }

  // ---------------------------------------------------------------- the account summary

  /** What `get_account_summary` returns: `None`, an empty dict, or the five totals. */
  datatype Account = NoAccount | EmptyAccount | Account(totalEval: real, profit: real, rate: real, deposit: real, available: real)

  /** `round(x, 2)` over the reals: the nearest hundredth, ties to the even one. */
  function Round2(x: real): (r: real)
    ensures -0.005 <= r - x <= 0.005
  {
    (RoundHalfEven(x * 100.0) as real) / 100.0
  }

  /**
   * `get_account_summary`: the totals with the profit rate against the purchase
   * sum (1 when that sum is 0), rounded to hundredths; an empty dict for empty
   * totals or an exception; and `None` when the inquiry is refused, since that
   * branch falls off the end of the method.
   */
  function AccountSummary(b: Balance): (a: Account)
    ensures a.NoAccount? <==> b.BalanceRefused?
    ensures a.Account? ==> b.BalanceOk? && |b.output2| > 0 && b.output2[0].Some?
    ensures a.Account? ==> var t := b.output2[0].value;
      -0.005 <= a.rate - t.profitSum / (if t.purchaseSum == 0.0 then 1.0 else t.purchaseSum) * 100.0 <= 0.005
  {
    match b
    case BalanceRefused => NoAccount
    case BalanceRaised => EmptyAccount
    case BalanceOk(_, totals) =>
      if |totals| == 0 || totals[0].None? then EmptyAccount
      else
        var t := totals[0].value;
        var purchase := if t.purchaseSum == 0.0 then 1.0 else t.purchaseSum;
        Account(t.totalEval, t.profitSum, Round2(t.profitSum / purchase * 100.0), t.deposit, t.orderable)
  }

  // ---------------------------------------------------------------- asynchronous buy and sell

  /** What a sold position adds to the sell record: its average price, profit amount and profit rate. */
  datatype Position = Position(avgPrice: real, profitAmount: real, profitRate: real)

  /** The dict `async_buy_stock` and `async_sell_stock` return; `amount` is `total_amount` for a buy and `estimated_amount` for a sell. */
  datatype AsyncRecord = AsyncRecord(success: bool, stockCode: string, currentPrice: int, quantity: int, amount: int,
                                     orderNo: Option<string>, message: string, timestamp: string, position: Option<Position>)

  /** A record together with the order that produced it. */
  datatype Run = Run(record: AsyncRecord, sent: Option<Order>)

  /** The record both asynchronous paths start from. */
  function Blank(code: string, stamp: string): AsyncRecord
  {
    AsyncRecord(false, code, 0, 0, 0, None, "", stamp, None)
  }

  const AsyncBuyError := "비동기 매수 API 실행 중 오류: "
  const AsyncSellError := "비동기 매도 API 실행 중 오류: "

  /**
   * `_execute_buy_stock`: a first quote fixes the price and the count the record
   * reports, then `smart_buy` runs with the resolved amount and looks the price
   * up again (`quote2`) for the count it orders. A zero first price raises
   * inside the `try` and is reported; so is an exception out of `smart_buy`.
   */
  function BuyRun(c: Config, code: string, buyAmount: Option<int>, stamp: string, quote: Option<int>, t: nat, quote2: Option<int>, reply: Reply): (x: Run)
    ensures x.record.stockCode == code && x.record.timestamp == stamp && x.record.position.None?
  {
    var amount := AmountFor(c, buyAmount);
    var blank := Blank(code, stamp);
    match quote
    case None => Run(blank.(message := "현재가 조회 실패"), None)
    case Some(price) =>
      var priced := blank.(currentPrice := price);
      if price == 0 then Run(priced.(message := AsyncBuyError + ZeroDivision), None)
      else
        var q := FloorDiv(amount, price);
        if q == 0 then Run(priced.(message := "매수 가능 수량이 0입니다 (매수금액: " + Amount(amount as real) + "원)"), None)
        else BuyAfterCount(c, code, priced.(quantity := q, amount := q * price), amount, t, quote2, reply)
  }

  /** The rest of `_execute_buy_stock` once the count is known: the record succeeds exactly when `smart_buy` does. */
  function BuyAfterCount(c: Config, code: string, counted: AsyncRecord, amount: int, t: nat, quote2: Option<int>, reply: Reply): (x: Run)
    requires !counted.success
    ensures x.record == counted.(success := x.record.success, orderNo := x.record.orderNo, message := x.record.message)
    ensures var o := SmartBuy(c, code, Some(amount), t, quote2, reply);
      (x.record.success <==> o.Done? && o.result.success) && (o.Done? ==> x.sent == o.sent) && (o.Raises? ==> x.sent.None?)
    ensures x.record.success ==> x.record.orderNo == SmartBuy(c, code, Some(amount), t, quote2, reply).result.orderNo
    ensures !x.record.success ==> x.record.orderNo == counted.orderNo
  {
    match SmartBuy(c, code, Some(amount), t, quote2, reply)
    case Raises(e) => Run(counted.(message := AsyncBuyError + e), None)
    case Done(r, sent) =>
      if r.success then
        Run(counted.(success := true, orderNo := r.orderNo, message := BoughtText(counted.quantity, counted.currentPrice, counted.amount)), sent)
      else Run(counted.(message := "매수 실패: " + r.message), sent)
  }

  /** A buy record that reports a count reports the amount as that count at the first price. */
  lemma BuyRecordAmount(c: Config, code: string, buyAmount: Option<int>, stamp: string, quote: Option<int>, t: nat, quote2: Option<int>, reply: Reply)
    ensures var x := BuyRun(c, code, buyAmount, stamp, quote, t, quote2, reply);
      x.record.amount == x.record.quantity * x.record.currentPrice &&
      (x.record.quantity != 0 <==> quote.Some? && quote.value != 0 && FloorDiv(AmountFor(c, buyAmount), quote.value) != 0)
  {
  }

  /**
   * A buy record succeeds exactly when the first quote gives a positive count
   * and the routed buy then succeeds. When both lookups see the same price, the
   * order submitted is for the count the record reports.
   */
  lemma BuySucceedsIff(c: Config, code: string, buyAmount: Option<int>, stamp: string, quote: Option<int>, t: nat, quote2: Option<int>, reply: Reply)
    ensures var x := BuyRun(c, code, buyAmount, stamp, quote, t, quote2, reply);
      x.record.success <==> (quote.Some? && quote.value != 0 && FloorDiv(AmountFor(c, buyAmount), quote.value) != 0 &&
                             SmartBuy(c, code, Some(AmountFor(c, buyAmount)), t, quote2, reply).Done? &&
                             SmartBuy(c, code, Some(AmountFor(c, buyAmount)), t, quote2, reply).result.success)
    ensures var x := BuyRun(c, code, buyAmount, stamp, quote, t, quote2, reply);
      quote2 == quote && x.sent.Some? ==> OrderQuantity(x.sent.value) == x.record.quantity
  {
    var x := BuyRun(c, code, buyAmount, stamp, quote, t, quote2, reply);
    var amount := AmountFor(c, buyAmount);
    AmountForResolved(c, buyAmount);
    if quote2 == quote && x.sent.Some? {
      var o := SmartBuy(c, code, Some(amount), t, quote2, reply);
      assert o.Done? && o.sent == x.sent;
      assert BuyQuantity(c, Some(amount), quote2) == Count(o.result.quantity);
    }
  }

  /**
   * `_execute_sell_stock` after the first lookup: the target entry must hold a
   * positive quantity, a second lookup (`recheck`) must still show one, and then
   * `smart_sell_all` sells the whole holding of its own lookup (`final`). The
   * estimated amount is the count times the quote only when the quote is positive.
   */
  function SellRun(c: Config, code: string, stamp: string, first: seq<Entry>, quote: Option<int>, recheck: seq<Entry>,
                   t: nat, final: seq<Entry>, reply: Reply): (x: Run)
    ensures x.record.stockCode == code && x.record.timestamp == stamp
  {
    var blank := Blank(code, stamp);
    match FindEntry(first, code)
    case None => Run(blank.(message := "포트폴리오에 " + code + " 종목이 없습니다"), None)
    case Some(k) =>
      var target := first[k];
      if target.quantity <= 0 then Run(blank.(message := code + " 보유 수량이 0입니다"), None)
      else
        var priced := if quote.Some? then blank.(currentPrice := quote.value) else blank;
        if HeldQuantity(recheck, code) <= 0 then Run(priced.(message := code + " 최종 확인 시 보유 수량이 0입니다"), None)
        else SellAfterChecks(c, code, priced, target, t, final, reply)
  }

  /** The rest of `_execute_sell_stock` once both checks passed. */
  function SellAfterChecks(c: Config, code: string, priced: AsyncRecord, target: Entry, t: nat, final: seq<Entry>, reply: Reply): (x: Run)
    requires !priced.success
    ensures x.sent == SmartSellAll(c, code, t, final, reply).sent
    ensures x.record.success <==> SmartSellAll(c, code, t, final, reply).result.success
    ensures x.record.success ==> x.record.quantity == SmartSellAll(c, code, t, final, reply).result.quantity
    ensures x.record.success ==> x.record.position == Some(Position(target.avgPrice, target.profitAmount, target.profitRate))
    ensures x.record.success ==> x.record.amount == (if priced.currentPrice > 0 then x.record.quantity * priced.currentPrice else priced.amount)
    ensures !x.record.success ==> x.record == priced.(message := x.record.message)
    ensures x.record.currentPrice == priced.currentPrice && x.record.stockCode == priced.stockCode && x.record.timestamp == priced.timestamp
  {
    var o := SmartSellAll(c, code, t, final, reply);
    if o.result.success then
      var q := o.result.quantity;
      var estimated := if priced.currentPrice > 0 then q * priced.currentPrice else priced.amount;
      var sold := priced.(success := true, quantity := q, orderNo := o.result.orderNo, amount := estimated,
                          position := Some(Position(target.avgPrice, target.profitAmount, target.profitRate)));
      Run(sold.(message := SoldText(q, target.avgPrice, estimated, target.profitRate)), o.sent)
    else Run(priced.(message := "매도 실패: " + o.result.message), o.sent)
  }

  /**
   * The defences of `_execute_sell_stock`: nothing is sold when the first
   * lookup has no entry for the code, its quantity is not positive, or the
   * re-check shows none.
   */
  lemma SellGuards(c: Config, code: string, stamp: string, first: seq<Entry>, quote: Option<int>, recheck: seq<Entry>,
                   t: nat, final: seq<Entry>, reply: Reply)
    requires FindEntry(first, code).None? || first[FindEntry(first, code).value].quantity <= 0 || HeldQuantity(recheck, code) <= 0
    ensures var x := SellRun(c, code, stamp, first, quote, recheck, t, final, reply);
      x.sent.None? && !x.record.success && x.record.orderNo.None? && x.record.quantity == 0
  {
  }

  /**
   * A successful async sell ordered the whole holding of the last lookup
   * (positive on a snapshot of positive quantities, as `get_portfolio`
   * returns), reports that quantity, and estimates the amount as quantity times price
   * when the quote was positive, 0 otherwise.
   */
  lemma SellSoldAll(c: Config, code: string, stamp: string, first: seq<Entry>, quote: Option<int>, recheck: seq<Entry>,
                    t: nat, final: seq<Entry>, reply: Reply)
    requires SellRun(c, code, stamp, first, quote, recheck, t, final, reply).record.success
    ensures var x := SellRun(c, code, stamp, first, quote, recheck, t, final, reply);
      x.sent.Some? && OrderQuantity(x.sent.value) == HeldQuantity(final, code) == x.record.quantity != 0
    ensures (forall e :: e in final ==> e.quantity > 0) ==> SellRun(c, code, stamp, first, quote, recheck, t, final, reply).record.quantity > 0
    ensures var x := SellRun(c, code, stamp, first, quote, recheck, t, final, reply);
      x.record.amount == (if quote.Some? && quote.value > 0 then x.record.quantity * quote.value else 0)
  {
    var x := SellRun(c, code, stamp, first, quote, recheck, t, final, reply);
    var blank := Blank(code, stamp);
    assert FindEntry(first, code).Some?;
    var target := first[FindEntry(first, code).value];
    var priced := if quote.Some? then blank.(currentPrice := quote.value) else blank;
    assert x == SellAfterChecks(c, code, priced, target, t, final, reply);
    HeldQuantityPositiveSold(c, code, t, final, reply);
    if forall e :: e in final ==> e.quantity > 0 {
      HeldQuantityOfPositive(final, code);
    }
  }

  /** A successful full sell sold a positive holding. */
  lemma HeldQuantityPositiveSold(c: Config, code: string, t: nat, final: seq<Entry>, reply: Reply)
    requires SmartSellAll(c, code, t, final, reply).result.success
    ensures var o := SmartSellAll(c, code, t, final, reply);
      o.sent.Some? && OrderQuantity(o.sent.value) == HeldQuantity(final, code) == o.result.quantity != 0
  {
  }

  /** "매수 완료: {q}주 x {price:,}원 = {total:,}원". */
  function BoughtText(q: int, price: int, total: int): string
  {
    "매수 완료: " + IntToString(q) + "주 x " + Amount(price as real) + "원 = " + Amount(total as real) + "원"
  }

  /** "매도 완료: {q}주 (평균단가: {avg:,.0f}원, 예상금액: {estimated:,}원, 수익률: {rate:+.2f}%)". */
  function SoldText(q: int, avg: real, estimated: int, rate: real): string
  {
    "매도 완료: " + IntToString(q) + "주 (평균단가: " + Amount(avg) + "원, 예상금액: " + Amount(estimated as real) + "원, 수익률: " + SignedFixed2(rate) + "%)"
  }

  /** The record a timed-out request returns, whatever its run had done by then. */
  function TimeoutRecord(code: string, what: string, timeout: real, stamp: string): (r: AsyncRecord)
    ensures !r.success && r.quantity == 0 && r.amount == 0 && r.currentPrice == 0 && r.orderNo.None? && r.position.None?
    ensures r.stockCode == code && r.timestamp == stamp
  {
    AsyncRecord(false, code, 0, 0, 0, None, what + " 요청 타임아웃 (" + PyValue.FloatText(timeout) + "초)", stamp, None)
  }

  // ---------------------------------------------------------------- the client object

  /**
   * The client as an object: its settings and the per-stock lock table
   * `_stock_locks`. A lock is represented by a number; `lockCount` numbers the
   * next one created.
   */
  class Trader {
    var config: Config
    var locks: map<string, nat>
    var lockCount: nat

    /** Every lock in the table was created before the next one. */
    ghost predicate Valid()
      reads this
    {
      forall k :: k in locks ==> locks[k] < lockCount
    }

    constructor (c: Config)
      ensures Valid() && config == c && locks == map[] && lockCount == 0
    {
      config := c;
      locks := map[];
      lockCount := 0;
    }

    /** `_get_stock_lock`: the stock's lock, created on first use; every later call returns the same one. */
    method GetStockLock(code: string) returns (lock: nat)
      requires Valid()
      modifies this`locks, this`lockCount
      ensures Valid() && code in locks && lock == locks[code]
      ensures code in old(locks) ==> locks == old(locks) && lockCount == old(lockCount)
      ensures code !in old(locks) ==> locks == old(locks)[code := lock] && forall k :: k in old(locks) ==> old(locks)[k] != lock
    {
      if code !in locks {
        locks := locks[code := lockCount];
        lockCount := lockCount + 1;
      }
      lock := locks[code];
    }

    /** `_execute_buy_stock`, filling the record field by field. */
    method ExecuteBuyStock(code: string, buyAmount: Option<int>, stamp: string, quote: Option<int>, t: nat, quote2: Option<int>, reply: Reply)
      returns (result: AsyncRecord, sent: Option<Order>)
      requires Valid()
      modifies this`locks, this`lockCount
      ensures Valid() && code in locks && (code in old(locks) ==> locks == old(locks))
      ensures Run(result, sent) == BuyRun(config, code, buyAmount, stamp, quote, t, quote2, reply)
    {
      var amount := AmountFor(config, buyAmount);
      result := Blank(code, stamp);
      sent := None;
      var lock := GetStockLock(code);
      if quote.None? {
        result := result.(message := "현재가 조회 실패");
        return;
      }
      var price := quote.value;
      result := result.(currentPrice := price);
      if price == 0 {
        result := result.(message := AsyncBuyError + ZeroDivision);
        return;
      }
      var q := FloorDiv(amount, price);
      if q == 0 {
        result := result.(message := "매수 가능 수량이 0입니다 (매수금액: " + Amount(amount as real) + "원)");
        return;
      }
      result := result.(quantity := q);
      result := result.(amount := q * price);
      var o := SmartBuy(config, code, Some(amount), t, quote2, reply);
      if o.Raises? {
        result := result.(message := AsyncBuyError + o.error);
      } else if o.result.success {
        result := result.(success := true);
        result := result.(orderNo := o.result.orderNo);
        result := result.(message := BoughtText(q, price, result.amount));
        sent := o.sent;
      } else {
        result := result.(message := "매수 실패: " + o.result.message);
        sent := o.sent;
      }
    }

    /** `_execute_sell_stock`, searching the first snapshot for the stock and filling the record field by field. */
    method ExecuteSellStock(code: string, stamp: string, first: seq<Entry>, quote: Option<int>, recheck: seq<Entry>, t: nat, final: seq<Entry>, reply: Reply)
      returns (result: AsyncRecord, sent: Option<Order>)
      requires Valid()
      modifies this`locks, this`lockCount
      ensures Valid() && code in locks && (code in old(locks) ==> locks == old(locks))
      ensures Run(result, sent) == SellRun(config, code, stamp, first, quote, recheck, t, final, reply)
    {
      result := Blank(code, stamp);
      sent := None;
      var lock := GetStockLock(code);
      var i := 0;
      var found := false;
      while i < |first| && !found
        invariant 0 <= i <= |first|
        invariant !found ==> FindEntryFrom(first, code, i) == FindEntry(first, code)
        invariant found ==> i < |first| && FindEntry(first, code) == Some(i)
        decreases |first| - i, if found then 0 else 1
      {
        if first[i].code == code {
          found := true;
        } else {
          i := i + 1;
        }
      }
      if !found {
        result := result.(message := "포트폴리오에 " + code + " 종목이 없습니다");
        return;
      }
      var target := first[i];
      if target.quantity <= 0 {
        result := result.(message := code + " 보유 수량이 0입니다");
        return;
      }
      if quote.Some? {
        result := result.(currentPrice := quote.value);
      }
      var holding := GetHoldingQuantity(recheck, code);
      if holding <= 0 {
        result := result.(message := code + " 최종 확인 시 보유 수량이 0입니다");
        return;
      }
      var o := SmartSellAll(config, code, t, final, reply);
      sent := o.sent;
      if o.result.success {
        result := result.(success := true);
        result := result.(quantity := o.result.quantity);
        result := result.(orderNo := o.result.orderNo);
        if result.currentPrice > 0 {
          result := result.(amount := result.quantity * result.currentPrice);
        }
        result := result.(position := Some(Position(target.avgPrice, target.profitAmount, target.profitRate)));
        result := result.(message := SoldText(result.quantity, target.avgPrice, result.amount, target.profitRate));
      } else {
        result := result.(message := "매도 실패: " + o.result.message);
      }
    }

    /** `async_buy_stock`: the run's record, or the timeout record when the request timed out. */
    method AsyncBuyStock(code: string, buyAmount: Option<int>, timeout: real, timedOut: bool, stamp: string, lateStamp: string,
                         quote: Option<int>, t: nat, quote2: Option<int>, reply: Reply)
      returns (result: AsyncRecord, sent: Option<Order>)
      requires Valid()
      modifies this`locks, this`lockCount
      ensures Valid()
      ensures timedOut ==> result == TimeoutRecord(code, "매수", timeout, lateStamp)
      ensures !timedOut ==> Run(result, sent) == BuyRun(config, code, buyAmount, stamp, quote, t, quote2, reply)
    {
      result, sent := ExecuteBuyStock(code, buyAmount, stamp, quote, t, quote2, reply);
      if timedOut {
        result := TimeoutRecord(code, "매수", timeout, lateStamp);
      }
    }

    /** `async_sell_stock`: the run's record, or the timeout record when the request timed out. */
    method AsyncSellStock(code: string, timeout: real, timedOut: bool, stamp: string, lateStamp: string,
                          first: seq<Entry>, quote: Option<int>, recheck: seq<Entry>, t: nat, final: seq<Entry>, reply: Reply)
      returns (result: AsyncRecord, sent: Option<Order>)
      requires Valid()
      modifies this`locks, this`lockCount
      ensures Valid()
      ensures timedOut ==> result == TimeoutRecord(code, "매도", timeout, lateStamp)
      ensures !timedOut ==> Run(result, sent) == SellRun(config, code, stamp, first, quote, recheck, t, final, reply)
    {
      result, sent := ExecuteSellStock(code, stamp, first, quote, recheck, t, final, reply);
      if timedOut {
        result := TimeoutRecord(code, "매도", timeout, lateStamp);
      }
    }
  }
}
