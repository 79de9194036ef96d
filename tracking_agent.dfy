/**
 * The base tracking agent's state and batch: the `stock_holdings` table (one row
 * per ticker), the `trading_history` table and the queue of Telegram messages;
 * buying from an analysed report, selling a holding, refreshing every holding
 * and deciding on it, processing a batch of reports and sending the queue.
 *
 * Each operation is a transition function on `Tables`, about which the lemmas
 * are stated; the class `Agent` holds the same tables in fields and its methods
 * are proved to make exactly those transitions.
 */
module TrackingAgent {
  import opened Wrappers
  import opened Text
  import opened Format
  import opened PyValue
  import opened TrackingRules
  import opened TrackingMessages
  import EnhancedRules

  /** A row of `stock_holdings`; `scenario` is the stored JSON document, `target` and `stop` the `REAL` columns. */
  datatype Holding = Holding(ticker: string, name: string, buyPrice: real, buyDate: string,
    currentPrice: real, lastUpdated: string, scenario: Value, target: Value, stop: Value)

  /** A row of `trading_history`. */
  datatype Trade = Trade(ticker: string, name: string, buyPrice: real, buyDate: string,
    sellPrice: real, sellDate: string, profitRate: real, holdingDays: int, scenario: Value)

  /** An entry of the list `update_holdings` returns. */
  datatype Sale = Sale(ticker: string, name: string, buyPrice: real, sellPrice: real, profitRate: real, reason: string)

  /**
   * What a run sees of the outside world: the time stamp it writes, the whole
   * days elapsed since a stored time stamp (`None` when the stamp does not
   * parse), and the latest close of a ticker (`None` when it is not listed or
   * the lookup fails).
   */
  datatype World = World(now: string, daysSince: string -> Option<int>, close: string -> Option<real>)

  datatype Tables = Tables(holdings: seq<Holding>, history: seq<Trade>, queue: seq<string>)

  /**
   * The builders of the two notices the agent queues: the buy notice (`None`
   * where building it raises) and the sell notice. The transitions take them as
   * a parameter; the agent uses `Standard()`.
   */
  datatype Notices = Notices(
    buy: (string, string, real, map<string, Value>, string) -> Option<string>,
    sell: (string, string, real, real, real, int, string) -> string)

  function Standard(): Notices
  {
    Notices(
      (ticker: string, name: string, price: real, scenario: map<string, Value>, rankMsg: string) => BuyMessage(ticker, name, price, scenario, rankMsg),
      (ticker: string, name: string, buy: real, sell: real, profit: real, days: int, reason: string) => SellMessage(ticker, name, buy, sell, profit, days, reason))
  }

  /** The agent's notices: the buy notice names the stock bought, and fails exactly where a target, a stop or the scenario section cannot be formatted; the sell notice names the stock sold. */
  lemma StandardNotices(ticker: string, name: string, price: real, scenario: map<string, Value>, rankMsg: string,
                        buy: real, sell: real, profit: real, days: int, reason: string)
    ensures var m := Standard().buy(ticker, name, price, scenario, rankMsg);
      (m.Some? <==>
        AmountOf(Get(scenario, "target_price", Int(0))).Some? && AmountOf(Get(scenario, "stop_loss", Int(0))).Some?
        && ScenarioSection(Get(scenario, "trading_scenarios", Dict(map[])), price).Some?)
      && (m.Some? ==> StartsWith(m.value, BuyTitle(ticker, name)))
    ensures StartsWith(Standard().sell(ticker, name, buy, sell, profit, days, reason), "📉 매도: " + name + "(" + ticker + ")\n")
  {
  }

  // ---------------------------------------------------------------------------
  // The holdings table
  // ---------------------------------------------------------------------------

  /** `ticker` is the table's primary key. */
  predicate UniqueTickers(hs: seq<Holding>)
  {
    forall i, j :: 0 <= i < j < |hs| ==> hs[i].ticker != hs[j].ticker
  }

  /** The state the agent keeps: no ticker twice and no more rows than slots. */
  predicate ValidTables(t: Tables, maxSlots: int)
  {
    UniqueTickers(t.holdings) && |t.holdings| <= maxSlots
  }

  predicate Held(hs: seq<Holding>, ticker: string)
  {
    exists i :: 0 <= i < |hs| && hs[i].ticker == ticker
  }

  /** The `scenario` column, in table order. */
  function Scenarios(hs: seq<Holding>): (r: seq<Value>)
    ensures |r| == |hs| && forall k :: 0 <= k < |hs| ==> r[k] == hs[k].scenario
  {
    seq(|hs|, k requires 0 <= k < |hs| => hs[k].scenario)
  }

  /** `SELECT current_price FROM stock_holdings WHERE ticker = ?`: the price of the first matching row, 0 without one. */
  function StoredPrice(hs: seq<Holding>, ticker: string): (p: real)
    ensures !Held(hs, ticker) ==> p == 0.0
  {
    if |hs| == 0 then 0.0
    else if hs[0].ticker == ticker then hs[0].currentPrice
    else
      assert Held(hs[1..], ticker) ==> Held(hs, ticker) by {
        if Held(hs[1..], ticker) { var i :| 0 <= i < |hs[1..]| && hs[1..][i].ticker == ticker; assert hs[i + 1] == hs[1..][i]; }
      }
      StoredPrice(hs[1..], ticker)
  }

  /** With unique tickers, the stored price is the price of the one row of the ticker. */
  lemma {:induction false} StoredPriceOfRow(hs: seq<Holding>, i: nat)
    requires UniqueTickers(hs) && i < |hs|
    ensures StoredPrice(hs, hs[i].ticker) == hs[i].currentPrice
    decreases i
  {
    if i > 0 {
      assert hs[0].ticker != hs[i].ticker;
      assert hs[1..][i - 1] == hs[i];
      StoredPriceOfRow(hs[1..], i - 1);
    }
  }

  /** `_get_current_stock_price`: the latest close when there is one, else the stored price, else 0. */
  function Quote(hs: seq<Holding>, w: World, ticker: string): (p: real)
    ensures w.close(ticker).Some? ==> p == w.close(ticker).value
    ensures w.close(ticker).None? && !Held(hs, ticker) ==> p == 0.0
  {
    match w.close(ticker)
    case Some(x) => x
    case None => StoredPrice(hs, ticker)
  }

  /** The range of a signed 64-bit integer, the widest that `sqlite3` can bind. */
  predicate Int64(i: int)
  {
    -0x8000_0000_0000_0000 <= i < 0x8000_0000_0000_0000
  }

  /**
   * A value written to a `REAL` column: numbers become floats, text that is a
   * well-formed decimal literal is converted to the float it denotes (SQLite's
   * column affinity), other text and NULL stay as they are. A list, an object
   * and an integer outside the signed 64-bit range cannot be bound at all
   * (`sqlite3` raises `OverflowError` for the latter).
   */
  function StoreReal(v: Value): (r: Option<Value>)
    ensures r.None? <==> v.List? || v.Dict? || (v.Int? && !Int64(v.i))
    ensures Number(v).Some? && !(v.Int? && !Int64(v.i)) ==> r == Some(Float(Number(v).value))
    ensures v.Str? && EnhancedRules.ParseFloat(v.s).Some? ==> r == Some(Float(EnhancedRules.ParseFloat(v.s).value))
    ensures v.Str? && EnhancedRules.ParseFloat(v.s).None? ==> r == Some(v)
    ensures v.Str? && ParseInt(v.s).Some? ==> r == Some(Float(ParseInt(v.s).value as real))
  {
    match v
    case List(_) => None
    case Dict(_) => None
    case Int(i) => if Int64(i) then Some(Float(i as real)) else None
    case Str(s) =>
      ParseFloatOfInt(s);
      Some(match EnhancedRules.ParseFloat(s) case Some(x) => Float(x) case None => v)
    case _ => match Number(v) case Some(x) => Some(Float(x)) case None => Some(v)
  }

  /** A target price of 10^19, which `json` reads as an `int`, cannot be bound, so the buy fails. */
  lemma StoreRealOverflow()
    ensures StoreReal(Int(10000000000000000000)).None?
    ensures StoreReal(Int(9223372036854775807)) == Some(Float(9223372036854775807.0))
  {
  }

  /** Text that reads as an integer reads as the same number as a float. */
  lemma ParseFloatOfInt(s: string)
    ensures ParseInt(s).Some? ==> EnhancedRules.ParseFloat(s) == Some(ParseInt(s).value as real)
  {
    var t := Strip(s);
    if ParseInt(s).None? {
    } else if (t[0] == '-' || t[0] == '+') && |t| > 1 && AllDigits(t[1..]) {
      DigitsNoExponent(t[1..]);
    } else {
      DigitsNoExponent(t);
    }
  }

  /** Digits hold no exponent mark. */
  lemma DigitsNoExponent(t: string)
    requires AllDigits(t)
    ensures EnhancedRules.FirstExponentMark(t, 0).None?
  {
    forall k | 0 <= k < |t| ensures t[k] != 'e' && t[k] != 'E' { assert IsDigit(t[k]); }
  }

  /** Digits, one point at `i`, and digits: a decimal literal with a fraction. */
  predicate DecimalText(t: string, i: nat)
  {
    0 < i < |t| - 1 && t[i] == '.' && AllDigits(t[..i]) && AllDigits(t[i + 1..])
  }

  /** The number written as the digits `w`, a point and the digits `f`. */
  function DecimalValue(w: string, f: string): real
    requires AllDigits(w) && AllDigits(f)
  {
    DigitsValue(w) as real + DigitsValue(f) as real / Pow10(|f|)
  }

  /** A price written with a decimal fraction is stored as the float it denotes. */
  lemma StoreRealOfDecimal(t: string, i: nat)
    requires DecimalText(t, i)
    ensures StoreReal(Str(t)) == Some(Float(DecimalValue(t[..i], t[i + 1..])))
  {
    ParseFloatOfDecimal(t, i);
    StoreRealOfFloat(t, DecimalValue(t[..i], t[i + 1..]));
  }

  lemma StoreRealOfFloat(t: string, x: real)
    requires EnhancedRules.ParseFloat(t) == Some(x)
    ensures StoreReal(Str(t)) == Some(Float(x))
  {
  }

  /** `float()` of a decimal literal with a fraction. */
  lemma ParseFloatOfDecimal(t: string, i: nat)
    requires DecimalText(t, i)
    ensures EnhancedRules.ParseFloat(t) == Some(DecimalValue(t[..i], t[i + 1..]))
  {
    DecimalEnds(t, i);
    DecimalNoMark(t, i);
    ParseFloatOfMantissa(t);
    DecimalPointAt(t, i);
    MantissaAt(t, i);
  }

  /** Unsigned text with no exponent mark reads as its mantissa. */
  lemma ParseFloatOfMantissa(t: string)
    requires |t| > 0 && Strip(t) == t && IsDigit(t[0]) && EnhancedRules.FirstExponentMark(t, 0).None?
    ensures EnhancedRules.ParseFloat(t) == EnhancedRules.Mantissa(t)
  {
    assert !(t[0] == '+' || t[0] == '-');
    assert EnhancedRules.ParseUnsigned(t) == EnhancedRules.Mantissa(t);
  }

  lemma DecimalEnds(t: string, i: nat)
    requires DecimalText(t, i)
    ensures Strip(t) == t && IsDigit(t[0])
  {
    assert t[0] == t[..i][0] && IsDigit(t[0]);
    assert t[|t| - 1] == t[i + 1..][|t| - i - 2] && IsDigit(t[|t| - 1]);
    StripPlain(t);
  }

  lemma DecimalNoMark(t: string, i: nat)
    requires DecimalText(t, i)
    ensures EnhancedRules.FirstExponentMark(t, 0).None?
  {
    forall k | 0 <= k < |t| ensures t[k] != 'e' && t[k] != 'E' {
      if k < i { assert t[k] == t[..i][k]; }
      else if k > i { assert t[k] == t[i + 1..][k - i - 1]; }
    }
  }

  lemma DecimalPointAt(t: string, i: nat)
    requires DecimalText(t, i)
    ensures IndexOfChar(t, '.') == Some(i)
  {
    forall k | 0 <= k < i ensures t[..i][k] != '.' { assert IsDigit(t[..i][k]); }
  }

  /** The mantissa of digits around the first point. */
  lemma MantissaAt(t: string, i: nat)
    requires IndexOfChar(t, '.') == Some(i) && i > 0 && AllDigits(t[..i]) && AllDigits(t[i + 1..])
    ensures EnhancedRules.Mantissa(t) == Some(DecimalValue(t[..i], t[i + 1..]))
  {
  }

  /** Text that does not begin or end with white space is its own `strip()`. */
  lemma StripPlain(t: string)
    requires |t| > 0 && !IsSpace(t[0]) && !IsSpace(t[|t| - 1])
    ensures Strip(t) == t
  {
    assert LeadingSpace(t) == 0;
    assert LStrip(t) == t;
    assert TrailingSpace(t) == 0;
  }

  /** A target price such as "85000.5" is stored as the float 85000.5. */
  lemma DecimalKept()
    ensures StoreReal(Str("85000.5")) == Some(Float(85000.5))
  {
    var t := "85000.5";
    assert t[..5] == "85000" && t[6..] == "5";
    assert DecimalText(t, 5);
    StoreRealOfDecimal(t, 5);
    DecimalValueExample();
  }

  lemma DecimalValueExample()
    ensures DecimalValue("85000", "5") == 85000.5
  {
    assert DigitsValue("85000") == 85000 by {
      assert "85000"[..4] == "8500" && "8500"[..3] == "850" && "850"[..2] == "85" && "85"[..1] == "8" && "8"[..0] == "";
    }
    assert DigitsValue("5") == 5 by { assert "5"[..0] == ""; }
    assert Pow10(1) == 10.0;
  }

  /** A price written with thousands separators, such as "85,000", is not a decimal literal and stays text. */
  lemma GroupedKept()
    ensures StoreReal(Str("85,000")) == Some(Str("85,000"))
  {
    GroupedNotFloat("85,000");
  }

  /** Digits grouped with commas are no float literal. */
  lemma GroupedNotFloat(t: string)
    requires |t| > 1 && IsDigit(t[0]) && IsDigit(t[|t| - 1]) && ',' in t
    requires forall j :: 0 <= j < |t| ==> IsDigit(t[j]) || t[j] == ','
    ensures EnhancedRules.ParseFloat(t).None?
  {
    StripPlain(t);
    var k :| 0 <= k < |t| && t[k] == ',';
    assert EnhancedRules.FirstExponentMark(t, 0).None?;
    assert IndexOfChar(t, '.').None?;
    assert !AllDigits(t) by { assert !IsDigit(t[k]); }
  }

  /** The table without the rows of `ticker` (`DELETE ... WHERE ticker = ?`). */
  function Without(hs: seq<Holding>, ticker: string): (r: seq<Holding>)
    ensures |r| <= |hs|
    ensures forall k :: 0 <= k < |r| ==> r[k].ticker != ticker
  {
    if |hs| == 0 then []
    else (if hs[0].ticker == ticker then [] else [hs[0]]) + Without(hs[1..], ticker)
  }

  /** Deleting a ticker that is not held changes nothing. */
  lemma {:induction false} WithoutAbsent(hs: seq<Holding>, ticker: string)
    requires !Held(hs, ticker)
    ensures Without(hs, ticker) == hs
    decreases |hs|
  {
    if |hs| > 0 {
      assert !Held(hs[1..], ticker) by {
        forall j | 0 <= j < |hs| - 1 ensures hs[1..][j].ticker != ticker {
          assert hs[1..][j] == hs[j + 1];
        }
      }
      WithoutAbsent(hs[1..], ticker);
      assert Without(hs, ticker) == [hs[0]] + hs[1..];
      assert hs == [hs[0]] + hs[1..];
    }
  }

  /** The tail of a table with unique tickers has unique tickers and does not hold the head's ticker. */
  lemma UniqueTail(hs: seq<Holding>)
    requires UniqueTickers(hs) && |hs| > 0
    ensures UniqueTickers(hs[1..]) && !Held(hs[1..], hs[0].ticker)
  {
    forall j | 0 <= j < |hs| - 1 ensures hs[1..][j] == hs[j + 1] { }
  }

  /** With unique tickers, deleting a held ticker removes exactly its one row and keeps the order of the others. */
  lemma {:induction false} WithoutRow(hs: seq<Holding>, i: nat)
    requires UniqueTickers(hs) && i < |hs|
    ensures Without(hs, hs[i].ticker) == hs[..i] + hs[i + 1..]
    decreases i
  {
    var t := hs[i].ticker;
    var tail := hs[1..];
    UniqueTail(hs);
    if i == 0 {
      WithoutAbsent(tail, t);
      assert Without(hs, t) == [] + tail;
    } else {
      assert hs[0].ticker != t;
      assert tail[i - 1] == hs[i];
      WithoutRow(tail, i - 1);
      assert Without(hs, t) == [hs[0]] + Without(tail, t);
      ConsSplit(hs, i);
    }
  }

  /** Deleting rows keeps the tickers unique. */
  lemma {:induction false} WithoutUnique(hs: seq<Holding>, ticker: string)
    requires UniqueTickers(hs)
    ensures UniqueTickers(Without(hs, ticker))
    decreases |hs|
  {
    if |hs| > 0 {
      assert UniqueTickers(hs[1..]);
      WithoutUnique(hs[1..], ticker);
      assert !Held(hs[1..], hs[0].ticker) by {
        forall i | 0 <= i < |hs| - 1 ensures hs[1..][i].ticker != hs[0].ticker {
          assert hs[1..][i] == hs[i + 1];
        }
      }
      WithoutKeepsAbsent(hs[1..], ticker, hs[0].ticker);
    }
  }

  /** Deleting rows adds no ticker. */
  lemma {:induction false} WithoutKeepsAbsent(hs: seq<Holding>, ticker: string, x: string)
    requires !Held(hs, x)
    ensures !Held(Without(hs, ticker), x)
    decreases |hs|
  {
    if |hs| > 0 {
      assert !Held(hs[1..], x) by {
        forall i | 0 <= i < |hs| - 1 ensures hs[1..][i].ticker != x {
          assert hs[1..][i] == hs[i + 1];
        }
      }
      WithoutKeepsAbsent(hs[1..], ticker, x);
      var head: seq<Holding> := if hs[0].ticker == ticker then [] else [hs[0]];
      var rest := Without(hs[1..], ticker);
      forall k | 0 <= k < |head + rest| ensures (head + rest)[k].ticker != x {
        if k >= |head| { assert (head + rest)[k] == rest[k - |head|]; }
      }
    }
  }

  /** `UPDATE stock_holdings SET current_price = ?, last_updated = ? WHERE ticker = ?`. */
  function SetPrice(hs: seq<Holding>, ticker: string, price: real, now: string): (r: seq<Holding>)
    ensures |r| == |hs|
    ensures forall k :: 0 <= k < |hs| ==> r[k].ticker == hs[k].ticker
    ensures forall k :: 0 <= k < |hs| && hs[k].ticker != ticker ==> r[k] == hs[k]
  {
    seq(|hs|, k requires 0 <= k < |hs| => if hs[k].ticker == ticker then hs[k].(currentPrice := price, lastUpdated := now) else hs[k])
  }

  // ---------------------------------------------------------------------------
  // Buying
  // ---------------------------------------------------------------------------

  /** The row `buy_stock` inserts: bought now at `price`, with the scenario and its target and stop as stored. */
  function NewHolding(ticker: string, name: string, price: real, scenario: map<string, Value>, now: string, target: Value, stop: Value): Holding
  {
    Holding(ticker, name, price, now, price, now, Dict(scenario), target, stop)
  }

  /**
   * `buy_stock`: refused for a held ticker, with every slot taken, or when the
   * scenario's `max_portfolio_size` is reached or cannot be compared; refused too
   * when the target or stop cannot be bound. Otherwise the row is inserted and
   * then the notice is built; when building it raises, the inserted row stays
   * but the answer is False and nothing is queued.
   */
  function Buy(t: Tables, n: Notices, maxSlots: int, ticker: string, name: string, price: real, scenario: map<string, Value>, rankMsg: string, now: string): (r: (bool, Tables))
    ensures r.1.history == t.history
  {
    if !HasRoom(t.holdings, maxSlots, ticker, scenario) then (false, t)
    else
      var target := StoreReal(Get(scenario, "target_price", Int(0)));
      var stop := StoreReal(Get(scenario, "stop_loss", Int(0)));
      if target.None? || stop.None? then (false, t)
      else
        var inserted := t.(holdings := t.holdings + [NewHolding(ticker, name, price, scenario, now, target.value, stop.value)]);
        match n.buy(ticker, name, price, scenario, rankMsg)
        case Some(m) => (true, inserted.(queue := t.queue + [m]))
        case None => (false, inserted)
  }

  /** The checks before a buy: a new ticker, a free slot, and the scenario's portfolio size not reached (nor incomparable). */
  predicate HasRoom(hs: seq<Holding>, maxSlots: int, ticker: string, scenario: map<string, Value>)
  {
    !Held(hs, ticker) && |hs| < maxSlots && AtPortfolioLimit(|hs|, MaxPortfolioSize(scenario, maxSlots)) == Some(false)
  }

  /** Past its checks, a buy inserts the row, and then queues the notice or reports failure. */
  lemma BuyInserts(t: Tables, n: Notices, maxSlots: int, ticker: string, name: string, price: real, scenario: map<string, Value>, rankMsg: string, now: string)
    requires HasRoom(t.holdings, maxSlots, ticker, scenario)
    requires StoreReal(Get(scenario, "target_price", Int(0))).Some? && StoreReal(Get(scenario, "stop_loss", Int(0))).Some?
    ensures var row := NewHolding(ticker, name, price, scenario, now, StoreReal(Get(scenario, "target_price", Int(0))).value, StoreReal(Get(scenario, "stop_loss", Int(0))).value);
      var m := n.buy(ticker, name, price, scenario, rankMsg);
      Buy(t, n, maxSlots, ticker, name, price, scenario, rankMsg, now) ==
      if m.Some? then (true, Tables(t.holdings + [row], t.history, t.queue + [m.value])) else (false, t.(holdings := t.holdings + [row]))
  {
  }

  /** A buy of a held ticker, or with every slot or the scenario's portfolio size used up, changes nothing. */
  lemma BuyRefused(t: Tables, n: Notices, maxSlots: int, ticker: string, name: string, price: real, scenario: map<string, Value>, rankMsg: string, now: string)
    requires Held(t.holdings, ticker) || |t.holdings| >= maxSlots
      || AtPortfolioLimit(|t.holdings|, MaxPortfolioSize(scenario, maxSlots)) != Some(false)
    ensures Buy(t, n, maxSlots, ticker, name, price, scenario, rankMsg, now) == (false, t)
  {
  }

  /** A buy is refused only by its checks, before anything is written, or by the notice, after the row is written. */
  lemma BuyFailsCleanly(t: Tables, n: Notices, maxSlots: int, ticker: string, name: string, price: real, scenario: map<string, Value>, rankMsg: string, now: string)
    ensures var r := Buy(t, n, maxSlots, ticker, name, price, scenario, rankMsg, now);
      !r.0 ==> r.1.queue == t.queue && (r.1 == t || |r.1.holdings| == |t.holdings| + 1)
  {
  }

  /**
   * A buy succeeds exactly when the ticker is new, a slot and the scenario's
   * portfolio size leave room, the target and stop can be stored and the notice
   * can be built; it then adds exactly one holding for the ticker at the given
   * price and queues exactly one notice, which names the company and the ticker.
   */
  lemma BuySucceeds(t: Tables, n: Notices, maxSlots: int, ticker: string, name: string, price: real, scenario: map<string, Value>, rankMsg: string, now: string)
    ensures var r := Buy(t, n, maxSlots, ticker, name, price, scenario, rankMsg, now);
      var target := StoreReal(Get(scenario, "target_price", Int(0)));
      var stop := StoreReal(Get(scenario, "stop_loss", Int(0)));
      var m := n.buy(ticker, name, price, scenario, rankMsg);
      (r.0 <==> HasRoom(t.holdings, maxSlots, ticker, scenario) && target.Some? && stop.Some? && m.Some?) &&
      (r.0 ==>
        r.1.holdings == t.holdings + [NewHolding(ticker, name, price, scenario, now, target.value, stop.value)]
        && r.1.queue == t.queue + [m.value])
  {
  }

  /** When the notice cannot be built, the holding has already been inserted, yet the buy reports failure. */
  lemma BuyNoticeFailureKeepsRow(t: Tables, n: Notices, maxSlots: int, ticker: string, name: string, price: real, scenario: map<string, Value>, rankMsg: string, now: string)
    requires !Held(t.holdings, ticker) && |t.holdings| < maxSlots
    requires AtPortfolioLimit(|t.holdings|, MaxPortfolioSize(scenario, maxSlots)) == Some(false)
    requires StoreReal(Get(scenario, "target_price", Int(0))).Some? && StoreReal(Get(scenario, "stop_loss", Int(0))).Some?
    requires n.buy(ticker, name, price, scenario, rankMsg).None?
    ensures var r := Buy(t, n, maxSlots, ticker, name, price, scenario, rankMsg, now);
      !r.0 && |r.1.holdings| == |t.holdings| + 1 && r.1.holdings[|t.holdings|].ticker == ticker && r.1.queue == t.queue
  {
  }

  /** A buy keeps the tickers unique and the rows within the slots. */
  lemma BuyKeepsValid(t: Tables, n: Notices, maxSlots: int, ticker: string, name: string, price: real, scenario: map<string, Value>, rankMsg: string, now: string)
    requires ValidTables(t, maxSlots)
    ensures ValidTables(Buy(t, n, maxSlots, ticker, name, price, scenario, rankMsg, now).1, maxSlots)
  {
    var r := Buy(t, n, maxSlots, ticker, name, price, scenario, rankMsg, now);
    if r.1.holdings != t.holdings {
      var hs := r.1.holdings;
      assert !Held(t.holdings, ticker);
      assert hs[..|t.holdings|] == t.holdings && hs[|t.holdings|].ticker == ticker;
      forall i, j | 0 <= i < j < |hs| ensures hs[i].ticker != hs[j].ticker {
        if j == |t.holdings| { assert hs[i] == t.holdings[i]; } else { assert hs[i] == t.holdings[i] && hs[j] == t.holdings[j]; }
      }
    }
  }

  // ---------------------------------------------------------------------------
  // Selling
  // ---------------------------------------------------------------------------

  /**
   * `sell_stock` of a holding (as refreshed by the update): refused when the buy
   * price is 0 or the buy date does not parse; otherwise one history row with
   * the profit rate and the days held is appended, the ticker's row is deleted
   * and the sell notice is queued.
   */
  function Sell(t: Tables, n: Notices, s: Holding, reason: string, w: World): (r: (bool, Tables))
    ensures r.0 <==> s.buyPrice != 0.0 && w.daysSince(s.buyDate).Some?
    ensures !r.0 ==> r.1 == t
  {
    if s.buyPrice == 0.0 then (false, t)
    else match w.daysSince(s.buyDate)
      case None => (false, t)
      case Some(days) =>
        var p := ProfitRate(s.buyPrice, s.currentPrice);
        var trade := Trade(s.ticker, s.name, s.buyPrice, s.buyDate, s.currentPrice, w.now, p, days, s.scenario);
        (true, Tables(Without(t.holdings, s.ticker), t.history + [trade],
          t.queue + [n.sell(s.ticker, s.name, s.buyPrice, s.currentPrice, p, days, reason)]))
  }

  /**
   * A sale of the holding in row `i` removes exactly that row, appends exactly one
   * history row recording the sale at the current price with
   * `(current - buy) / buy * 100` as its profit rate, and queues one notice.
   */
  lemma SellMovesRowToHistory(t: Tables, n: Notices, i: nat, s: Holding, reason: string, w: World)
    requires UniqueTickers(t.holdings) && i < |t.holdings| && s.ticker == t.holdings[i].ticker
    requires s.buyPrice != 0.0 && w.daysSince(s.buyDate).Some?
    ensures var r := Sell(t, n, s, reason, w);
      r.0 && r.1.holdings == t.holdings[..i] + t.holdings[i + 1..] && UniqueTickers(r.1.holdings)
      && |r.1.history| == |t.history| + 1 && r.1.history[..|t.history|] == t.history
      && r.1.history[|t.history|].ticker == s.ticker && r.1.history[|t.history|].sellPrice == s.currentPrice
      && r.1.history[|t.history|].profitRate == ProfitRate(s.buyPrice, s.currentPrice)
      && |r.1.queue| == |t.queue| + 1
  {
    WithoutRow(t.holdings, i);
    WithoutUnique(t.holdings, s.ticker);
  }

  // ---------------------------------------------------------------------------
  // Refreshing the holdings
  // ---------------------------------------------------------------------------

  /** Python's `v == 0` for a stored column value. */
  predicate IsZero(v: Value)
  {
    Number(v) == Some(0.0)
  }

  /**
   * The holding as `update_holdings` hands it to the decision: the new price, and
   * the target and stop taken from the stored scenario where the stored column
   * is 0 and the scenario, an object, has one.
   */
  function Refreshed(h: Holding, price: real): (r: Holding)
    ensures r == h.(currentPrice := price, target := r.target, stop := r.stop)
    ensures r.target != h.target ==>
      IsZero(h.target) && h.scenario.Dict? && "target_price" in h.scenario.fields && r.target == h.scenario.fields["target_price"]
    ensures r.stop != h.stop ==>
      IsZero(h.stop) && h.scenario.Dict? && "stop_loss" in h.scenario.fields && r.stop == h.scenario.fields["stop_loss"]
    ensures !h.scenario.Dict? ==> r.target == h.target && r.stop == h.stop
  {
    var sc := h.scenario;
    var target := if sc.Dict? && "target_price" in sc.fields && IsZero(h.target) then sc.fields["target_price"] else h.target;
    var stop := if sc.Dict? && "stop_loss" in sc.fields && IsZero(h.stop) then sc.fields["stop_loss"] else h.stop;
    h.(currentPrice := price, target := target, stop := stop)
  }

  /** The price the update uses: the quote, or the stored price when the quote is not positive. */
  function RefreshPrice(t: Tables, h: Holding, w: World): (p: real)
    ensures Quote(t.holdings, w, h.ticker) > 0.0 ==> p == Quote(t.holdings, w, h.ticker)
    ensures Quote(t.holdings, w, h.ticker) <= 0.0 ==> p == h.currentPrice
  {
    var q := Quote(t.holdings, w, h.ticker);
    if q <= 0.0 then h.currentPrice else q
  }

  /**
   * One pass of the `update_holdings` loop: refresh the holding, ask `decide`;
   * a sale that goes through reports a `Sale`, a failed sale changes nothing, and
   * a hold only stores the new price and time stamp of that ticker.
   */
  function UpdateStep(t: Tables, n: Notices, h: Holding, w: World, decide: Holding -> Decision): (r: (Tables, Option<Sale>))
  {
    var price := RefreshPrice(t, h, w);
    var s := Refreshed(h, price);
    var d := decide(s);
    if d.sell then
      var sold := Sell(t, n, s, d.reason, w);
      if sold.0 then (sold.1, Some(Sale(h.ticker, h.name, h.buyPrice, price, ProfitRate(h.buyPrice, price), d.reason)))
      else (t, None)
    else (t.(holdings := SetPrice(t.holdings, h.ticker, price, w.now)), None)
  }

  /** `update_holdings` over the rows read at its start, in order. */
  function UpdateAll(t: Tables, n: Notices, snapshot: seq<Holding>, w: World, decide: Holding -> Decision): (r: (Tables, seq<Sale>))
    decreases |snapshot|
  {
    if |snapshot| == 0 then (t, [])
    else
      var step := UpdateStep(t, n, snapshot[0], w, decide);
      var rest := UpdateAll(step.0, n, snapshot[1..], w, decide);
      (rest.0, (if step.1.Some? then [step.1.value] else []) + rest.1)
  }

  /** A holding that is kept only gets its price and time stamp stored; history and queue are untouched. */
  lemma UpdateStepHold(t: Tables, n: Notices, h: Holding, w: World, decide: Holding -> Decision)
    requires !decide(Refreshed(h, RefreshPrice(t, h, w))).sell
    ensures UpdateStep(t, n, h, w, decide) == (t.(holdings := SetPrice(t.holdings, h.ticker, RefreshPrice(t, h, w), w.now)), None)
    ensures forall k :: 0 <= k < |t.holdings| && t.holdings[k].ticker == h.ticker ==>
      UpdateStep(t, n, h, w, decide).0.holdings[k] == t.holdings[k].(currentPrice := RefreshPrice(t, h, w), lastUpdated := w.now)
  {
  }

  /** A step sells, appending one history row and one notice for that sale, or else leaves history and queue alone. */
  lemma UpdateStepRecords(t: Tables, n: Notices, h: Holding, w: World, decide: Holding -> Decision)
    ensures var r := UpdateStep(t, n, h, w, decide);
      Extends(r.0.history, t.history) && Matches(r.0.history[|t.history|..], if r.1.Some? then [r.1.value] else [])
      && |r.0.queue| == |t.queue| + (if r.1.Some? then 1 else 0)
  {
    var r := UpdateStep(t, n, h, w, decide);
    if r.1.Some? {
      assert r.0.history[|t.history|..] == [r.0.history[|t.history|]];
    } else {
      assert r.0.history[|t.history|..] == [];
    }
  }

  /** A step keeps the tickers unique and never adds a row. */
  lemma UpdateStepValid(t: Tables, n: Notices, h: Holding, w: World, decide: Holding -> Decision, maxSlots: int)
    requires ValidTables(t, maxSlots)
    ensures ValidTables(UpdateStep(t, n, h, w, decide).0, maxSlots)
    ensures |UpdateStep(t, n, h, w, decide).0.holdings| <= |t.holdings|
  {
    var r := UpdateStep(t, n, h, w, decide);
    if r.1.Some? {
      var s := Refreshed(h, RefreshPrice(t, h, w));
      WithoutUnique(t.holdings, s.ticker);
    } else if r.0.holdings != t.holdings {
      var hs := r.0.holdings;
      assert forall k :: 0 <= k < |hs| ==> hs[k].ticker == t.holdings[k].ticker;
    }
  }

  /** `b` is `a` with rows appended. */
  predicate Extends(b: seq<Trade>, a: seq<Trade>)
  {
    |a| <= |b| && b[..|a|] == a
  }

  /** A history row that records the sale: the same holding, price and profit rate. */
  predicate Records(tr: Trade, s: Sale)
  {
    tr.ticker == s.ticker && tr.name == s.name && tr.buyPrice == s.buyPrice
    && tr.sellPrice == s.sellPrice && tr.profitRate == s.profitRate
  }

  /** History rows that record the sales one to one, in order. */
  predicate Matches(trades: seq<Trade>, sales: seq<Sale>)
  {
    |trades| == |sales| && forall k :: 0 <= k < |trades| ==> Records(trades[k], sales[k])
  }

  lemma MatchesAppend(t1: seq<Trade>, s1: seq<Sale>, t2: seq<Trade>, s2: seq<Sale>)
    requires Matches(t1, s1) && Matches(t2, s2)
    ensures Matches(t1 + t2, s1 + s2)
  {
    forall k | 0 <= k < |t1 + t2| ensures Records((t1 + t2)[k], (s1 + s2)[k]) {
      if k < |t1| { assert (t1 + t2)[k] == t1[k] && (s1 + s2)[k] == s1[k]; }
      else { assert (t1 + t2)[k] == t2[k - |t1|] && (s1 + s2)[k] == s2[k - |t1|]; }
    }
  }

  /** Appending twice is appending the two suffixes. */
  lemma ExtendsTwice(h0: seq<Trade>, h1: seq<Trade>, h2: seq<Trade>)
    requires Extends(h1, h0) && Extends(h2, h1)
    ensures Extends(h2, h0) && h2[|h0|..] == h1[|h0|..] + h2[|h1|..]
  {
    assert h2[..|h0|] == h2[..|h1|][..|h0|];
    assert h2[|h0|..] == h2[|h0|..|h1|] + h2[|h1|..];
    assert h2[|h0|..|h1|] == h2[..|h1|][|h0|..];
  }

  /**
   * Over the whole update, history grows by exactly the sales reported: one row
   * per sale, in order, recording the same holding, price and profit rate.
   */
  lemma {:induction false} UpdateAllRecordsSales(t: Tables, n: Notices, snapshot: seq<Holding>, w: World, decide: Holding -> Decision)
    ensures var r := UpdateAll(t, n, snapshot, w, decide);
      Extends(r.0.history, t.history) && Matches(r.0.history[|t.history|..], r.1)
    decreases |snapshot|
  {
    if |snapshot| == 0 {
      assert t.history[|t.history|..] == [];
    } else {
      var step := UpdateStep(t, n, snapshot[0], w, decide);
      UpdateStepRecords(t, n, snapshot[0], w, decide);
      UpdateAllRecordsSales(step.0, n, snapshot[1..], w, decide);
      var rest := UpdateAll(step.0, n, snapshot[1..], w, decide);
      ExtendsTwice(t.history, step.0.history, rest.0.history);
      MatchesAppend(step.0.history[|t.history|..], if step.1.Some? then [step.1.value] else [],
        rest.0.history[|step.0.history|..], rest.1);
    }
  }

  /** One notice is queued per sale. */
  lemma {:induction false} UpdateAllQueuesNotices(t: Tables, n: Notices, snapshot: seq<Holding>, w: World, decide: Holding -> Decision)
    ensures var r := UpdateAll(t, n, snapshot, w, decide);
      |r.0.queue| == |t.queue| + |r.1| && r.0.queue[..|t.queue|] == t.queue
    decreases |snapshot|
  {
    if |snapshot| > 0 {
      var step := UpdateStep(t, n, snapshot[0], w, decide);
      UpdateStepRecords(t, n, snapshot[0], w, decide);
      UpdateAllQueuesNotices(step.0, n, snapshot[1..], w, decide);
      var rest := UpdateAll(step.0, n, snapshot[1..], w, decide);
      assert step.0.queue[..|t.queue|] == t.queue;
      assert rest.0.queue[..|t.queue|] == rest.0.queue[..|step.0.queue|][..|t.queue|];
    }
  }

  /** The update keeps the tickers unique and never adds a row. */
  lemma {:induction false} UpdateAllValid(t: Tables, n: Notices, snapshot: seq<Holding>, w: World, decide: Holding -> Decision, maxSlots: int)
    requires ValidTables(t, maxSlots)
    ensures ValidTables(UpdateAll(t, n, snapshot, w, decide).0, maxSlots)
    ensures |UpdateAll(t, n, snapshot, w, decide).0.holdings| <= |t.holdings|
    decreases |snapshot|
  {
    if |snapshot| > 0 {
      UpdateStepValid(t, n, snapshot[0], w, decide, maxSlots);
      UpdateAllValid(UpdateStep(t, n, snapshot[0], w, decide).0, n, snapshot[1..], w, decide, maxSlots);
    }
  }

  /** What the refresh loop knows after `i` rows of the snapshot: the tables now, the sales so far, then the rest. */
  ghost predicate UpdatedSoFar(start: Tables, n: Notices, snapshot: seq<Holding>, w: World, decide: Holding -> Decision,
                               i: nat, t: Tables, sold: seq<Sale>)
    requires i <= |snapshot|
  {
    var rest := UpdateAll(t, n, snapshot[i..], w, decide);
    (rest.0, sold + rest.1) == UpdateAll(start, n, snapshot, w, decide)
  }

  /** One row of the refresh loop: its step moves the loop on. */
  lemma UpdatedSoFarNext(start: Tables, n: Notices, snapshot: seq<Holding>, w: World, decide: Holding -> Decision,
                         i: nat, t: Tables, sold: seq<Sale>)
    requires i < |snapshot| && UpdatedSoFar(start, n, snapshot, w, decide, i, t, sold)
    ensures var step := UpdateStep(t, n, snapshot[i], w, decide);
      UpdatedSoFar(start, n, snapshot, w, decide, i + 1, step.0, sold + if step.1.Some? then [step.1.value] else [])
  {
    assert snapshot[i..][0] == snapshot[i] && snapshot[i..][1..] == snapshot[i + 1..];
    var step := UpdateStep(t, n, snapshot[i], w, decide);
    var rest := UpdateAll(step.0, n, snapshot[i + 1..], w, decide);
    var now: seq<Sale> := if step.1.Some? then [step.1.value] else [];
    assert sold + (now + rest.1) == (sold + now) + rest.1;
  }

  /** The base agent's decision for a refreshed holding. */
  function BaseDecide(w: World): Holding -> Decision
  {
    (h: Holding) => BaseSellDecision(h.buyPrice, h.currentPrice, h.target, h.stop, w.daysSince(h.buyDate), h.scenario)
  }

  // ---------------------------------------------------------------------------
  // Reports and the batch
  // ---------------------------------------------------------------------------

  /** A report to process: its file path, the scenario extracted from it, and the trading-value ranking note. */
  datatype Report = Report(path: string, scenario: Value, rankMsg: string)

  /** The outcome of `analyze_report`. */
  datatype Analysis =
    | NoTicker
    | NoPrice
    | Raised
    | AlreadyHeld(ticker: string, name: string)
    | Candidate(ticker: string, name: string, price: real, scenario: map<string, Value>,
                decision: Value, sector: Value, diverse: bool, rankMsg: string)

  /**
   * `analyze_report`: the ticker and company from the file name, then held or
   * not, then the current price, then the scenario (which must be an object for
   * `get`), its sector and whether that sector may still be bought.
   */
  function Analyze(hs: seq<Holding>, w: World, r: Report): (a: Analysis)
    ensures a.Candidate? ==>
      (a.ticker, a.name) == ExtractTickerInfo(r.path) && a.ticker != "" && a.name != ""
      && !Held(hs, a.ticker) && a.price == Quote(hs, w, a.ticker) && a.price > 0.0
      && a.diverse == SectorDiverse(a.sector, Scenarios(hs))
    ensures a.AlreadyHeld? ==> Held(hs, a.ticker)
  {
    var info := ExtractTickerInfo(r.path);
    var ticker := info.0;
    var name := info.1;
    if ticker == "" || name == "" then NoTicker
    else if Held(hs, ticker) then AlreadyHeld(ticker, name)
    else
      var price := Quote(hs, w, ticker);
      if price <= 0.0 then NoPrice
      else if !r.scenario.Dict? then Raised
      else
        var sc := r.scenario.fields;
        var sector := Get(sc, "sector", Str("알 수 없음"));
        Candidate(ticker, name, price, sc, Get(sc, "decision", Str("관망")), sector, SectorDiverse(sector, Scenarios(hs)), r.rankMsg)
  }

  /** The buying half of `process_reports`: `aborted` when a comparison made for the skip log raises. */
  datatype Batch = Batch(aborted: bool, buys: nat, tables: Tables)

  /** Whether the base agent tries to buy from this analysis: a candidate of a sector that may be bought, decided "진입". */
  predicate BaseEntry(a: Analysis)
  {
    a.Candidate? && a.diverse && a.decision == Str("진입")
  }

  /** Whether a report that is not an entry raises in the comparison made for the skip log. */
  predicate SkipRaises(a: Analysis)
  {
    a.Candidate? && a.diverse && Less(Get(a.scenario, "buy_score", Int(0)), Get(a.scenario, "min_score", Int(0))).None?
  }

  /** One report of the buying loop: whether it raised, whether it bought, and the tables after it. */
  function ReportStep(t: Tables, n: Notices, maxSlots: int, w: World, r: Report): (s: (bool, bool, Tables))
    ensures s.0 ==> !s.1 && s.2 == t
    ensures !BaseEntry(Analyze(t.holdings, w, r)) ==> !s.1 && s.2 == t
  {
    var a := Analyze(t.holdings, w, r);
    if BaseEntry(a) then
      var bought := Buy(t, n, maxSlots, a.ticker, a.name, a.price, a.scenario, a.rankMsg, w.now);
      (false, bought.0, bought.1)
    else (SkipRaises(a), false, t)
  }

  /** The buying half of `process_reports`, report by report; it stops at the first report that raises. */
  function BuyPhase(t: Tables, n: Notices, maxSlots: int, w: World, reports: seq<Report>): (b: Batch)
    ensures b.buys <= |reports|
    decreases |reports|, 1
  {
    if |reports| == 0 then Batch(false, 0, t) else BuyFrom(t, n, maxSlots, w, reports)
  }

  /** The buying half from the first of the reports on: that report's step, then the others unless it raised. */
  function BuyFrom(t: Tables, n: Notices, maxSlots: int, w: World, reports: seq<Report>): (b: Batch)
    requires |reports| > 0
    ensures b.buys <= |reports|
    decreases |reports|, 0
  {
    var s := ReportStep(t, n, maxSlots, w, reports[0]);
    if s.0 then Batch(true, 0, t)
    else
      var rest := BuyPhase(s.2, n, maxSlots, w, reports[1..]);
      rest.(buys := rest.buys + if s.1 then 1 else 0)
  }

  /** A report that is not an entry leaves the tables as they are (or stops the batch). */
  lemma BuyPhaseSkips(t: Tables, n: Notices, maxSlots: int, w: World, reports: seq<Report>)
    requires |reports| > 0 && !BaseEntry(Analyze(t.holdings, w, reports[0]))
    ensures var b := BuyPhase(t, n, maxSlots, w, reports);
      b == BuyPhase(t, n, maxSlots, w, reports[1..]) || (b.aborted && b.tables == t)
  {
  }

  /** The buying half keeps the tables valid. */
  lemma {:induction false} BuyPhaseValid(t: Tables, n: Notices, maxSlots: int, w: World, reports: seq<Report>)
    requires ValidTables(t, maxSlots)
    ensures ValidTables(BuyPhase(t, n, maxSlots, w, reports).tables, maxSlots)
    decreases |reports|
  {
    if |reports| > 0 {
      var a := Analyze(t.holdings, w, reports[0]);
      if BaseEntry(a) {
        BuyKeepsValid(t, n, maxSlots, a.ticker, a.name, a.price, a.scenario, a.rankMsg, w.now);
        BuyPhaseValid(ReportStep(t, n, maxSlots, w, reports[0]).2, n, maxSlots, w, reports[1..]);
      } else {
        BuyPhaseValid(t, n, maxSlots, w, reports[1..]);
      }
    }
  }

  /**
   * The buying half run from `t` over `reports` ends in `b`: `BuyPhase`,
   * through `Resumed` from no buys, which keeps a checked contract from
   * unfolding the reports' analysis.
   */
  ghost predicate Batched(t: Tables, n: Notices, maxSlots: int, w: World, reports: seq<Report>, b: Batch)
  {
    Resumed(t, n, maxSlots, w, reports, 0) == b
  }

  /** What the buying loop knows after `i` reports: the tables now and the buys so far, then the rest. */
  ghost predicate BoughtSoFar(start: Tables, n: Notices, maxSlots: int, w: World, reports: seq<Report>,
                              i: nat, t: Tables, buys: nat)
    requires i <= |reports|
  {
    Batched(start, n, maxSlots, w, reports, Resumed(t, n, maxSlots, w, reports[i..], buys))
  }

  /** The buying half run from `t` over `rest`, on top of `buys` already made. */
  ghost function Resumed(t: Tables, n: Notices, maxSlots: int, w: World, rest: seq<Report>, buys: nat): Batch
  {
    var b := BuyPhase(t, n, maxSlots, w, rest);
    b.(buys := b.buys + buys)
  }

  /** Before the first report nothing is bought. */
  lemma BoughtSoFarStart(start: Tables, n: Notices, maxSlots: int, w: World, reports: seq<Report>)
    ensures BoughtSoFar(start, n, maxSlots, w, reports, 0, start, 0)
  {
    assert reports[0..] == reports;
    var b := BuyPhase(start, n, maxSlots, w, reports);
    assert b.(buys := b.buys + 0) == b;
  }

  /** After the last report the batch ends, not raised, with the tables and the buys the loop has. */
  lemma BoughtSoFarEnd(start: Tables, n: Notices, maxSlots: int, w: World, reports: seq<Report>, t: Tables, buys: nat)
    requires BoughtSoFar(start, n, maxSlots, w, reports, |reports|, t, buys)
    ensures Batched(start, n, maxSlots, w, reports, Batch(false, buys, t))
  {
    assert reports[|reports|..] == [];
  }

  /** One report of the buying loop: it ends the batch raised, or moves the loop on with its tables and its buy. */
  lemma BoughtSoFarNext(start: Tables, n: Notices, maxSlots: int, w: World, reports: seq<Report>,
                        i: nat, t: Tables, buys: nat)
    requires i < |reports| && BoughtSoFar(start, n, maxSlots, w, reports, i, t, buys)
    ensures var s := ReportStep(t, n, maxSlots, w, reports[i]);
      if s.0 then BuyPhase(start, n, maxSlots, w, reports) == Batch(true, buys, t)
      else BoughtSoFar(start, n, maxSlots, w, reports, i + 1, s.2, buys + if s.1 then 1 else 0)
  {
    assert reports[i..][0] == reports[i] && reports[i..][1..] == reports[i + 1..];
    assert BuyPhase(t, n, maxSlots, w, reports[i..]) == BuyFrom(t, n, maxSlots, w, reports[i..]);
  }

  /**
   * `process_reports` of the base agent: refresh and sell first, then buy from
   * the reports in order; the counts of buys and sells, or (0, 0) when the batch
   * raised part way (its changes so far stay).
   */
  function ProcessBase(t: Tables, n: Notices, maxSlots: int, w: World, reports: seq<Report>): (r: ((nat, nat), Tables))
  {
    var upd := UpdateAll(t, n, t.holdings, w, BaseDecide(w));
    var b := BuyPhase(upd.0, n, maxSlots, w, reports);
    if b.aborted then ((0, 0), b.tables) else ((b.buys, |upd.1|), b.tables)
  }

  /** The batch's counts: at most one buy per report, and the sells are the sales the update reported. */
  lemma ProcessBaseCounts(t: Tables, n: Notices, maxSlots: int, w: World, reports: seq<Report>)
    requires ValidTables(t, maxSlots)
    ensures var r := ProcessBase(t, n, maxSlots, w, reports);
      r.0.0 <= |reports| && ValidTables(r.1, maxSlots)
      && (r.0 != (0, 0) ==> r.0.1 == |UpdateAll(t, n, t.holdings, w, BaseDecide(w)).1|)
  {
    var upd := UpdateAll(t, n, t.holdings, w, BaseDecide(w));
    UpdateAllValid(t, n, t.holdings, w, BaseDecide(w), maxSlots);
    BuyPhaseValid(upd.0, n, maxSlots, w, reports);
  }

  // ---------------------------------------------------------------------------
  // Sending the queue
  // ---------------------------------------------------------------------------

  /** How one call of the bot's `send_message` ends. */
  datatype Delivery = Delivered | Refused | Crashed

  /** The texts of one message sent in order until one is not delivered: the texts tried and how the last try ended. */
  function SendParts(texts: seq<string>, deliver: string -> Delivery): (r: (seq<string>, Delivery))
    ensures |r.0| <= |texts| && r.0 == texts[..|r.0|]
    ensures r.1 == Delivered <==> AllDelivered(texts, deliver)
  {
    if |texts| == 0 then ([], Delivered)
    else match deliver(texts[0])
      case Delivered =>
        var rest := SendParts(texts[1..], deliver);
        assert forall k :: 1 <= k < |texts| ==> texts[k] == texts[1..][k - 1];
        ([texts[0]] + rest.0, rest.1)
      case other => ([texts[0]], other)
  }

  /** Past a delivered prefix, sending goes on with the rest. */
  lemma {:induction false} SendPartsPrefix(texts: seq<string>, deliver: string -> Delivery, j: nat)
    requires j <= |texts| && AllDelivered(texts[..j], deliver)
    ensures SendParts(texts, deliver) == (texts[..j] + SendParts(texts[j..], deliver).0, SendParts(texts[j..], deliver).1)
    decreases j
  {
    if j > 0 {
      var pre := texts[..j];
      assert deliver(texts[0]) == Delivered by { assert pre[0] == texts[0]; }
      var rest := texts[1..];
      var pre1 := rest[..j - 1];
      forall k | 0 <= k < j - 1 ensures deliver(pre1[k]) == Delivered { assert pre1[k] == pre[k + 1]; }
      SendPartsPrefix(rest, deliver, j - 1);
      ConsPrefix(texts, j);
      var tail := SendParts(texts[j..], deliver);
      assert SendParts(texts, deliver) == ([texts[0]] + SendParts(rest, deliver).0, SendParts(rest, deliver).1);
      AppendAssoc([texts[0]], pre1, tail.0);
    } else {
      assert texts[0..] == texts && texts[..0] + SendParts(texts, deliver).0 == SendParts(texts, deliver).0;
    }
  }

  /** When every part is delivered, all of them are sent. */
  lemma SendPartsAllDelivered(texts: seq<string>, deliver: string -> Delivery)
    requires AllDelivered(texts, deliver)
    ensures SendParts(texts, deliver) == (texts, Delivered)
  {
    assert texts[..|texts|] == texts;
    SendPartsPrefix(texts, deliver, |texts|);
    assert texts[|texts|..] == [];
  }

  /** The texts sent for a queue, whether some send was refused, and whether one crashed (which stops everything). */
  datatype SendResult = SendResult(sent: seq<string>, refused: bool, crashed: bool)

  function SendQueue(queue: seq<string>, deliver: string -> Delivery): (r: SendResult)
    decreases |queue|
  {
    if |queue| == 0 then SendResult([], false, false)
    else
      var first := SendParts(Outgoing(queue[0]), deliver);
      if first.1 == Crashed then SendResult(first.0, false, true)
      else
        var rest := SendQueue(queue[1..], deliver);
        SendResult(first.0 + rest.sent, first.1 == Refused || rest.refused, rest.crashed)
  }

  /** Every text of every queued message, in order. */
  function AllOutgoing(queue: seq<string>): seq<string>
  {
    if |queue| == 0 then [] else Outgoing(queue[0]) + AllOutgoing(queue[1..])
  }

  /**
   * `send_telegram_message`: without a bot nothing is sent and the queue is kept;
   * otherwise the summary is queued last and everything is sent, and the queue is
   * emptied unless a send crashed. The answer is True iff no send was refused.
   */
  function Telegram(t: Tables, hasBot: bool, summary: string, deliver: string -> Delivery): (r: (bool, seq<string>, Tables))
    ensures !hasBot ==> r == (false, [], t)
  {
    if !hasBot then (false, [], t)
    else
      var q := t.queue + [summary];
      var s := SendQueue(q, deliver);
      if s.crashed then (false, s.sent, t.(queue := q)) else (!s.refused, s.sent, t.(queue := []))
  }

  /** Every one of `texts` is delivered when sent. */
  predicate AllDelivered(texts: seq<string>, deliver: string -> Delivery)
  {
    forall k :: 0 <= k < |texts| ==> deliver(texts[k]) == Delivered
  }

  lemma AllDeliveredSplit(a: seq<string>, b: seq<string>, deliver: string -> Delivery)
    requires AllDelivered(a + b, deliver)
    ensures AllDelivered(a, deliver) && AllDelivered(b, deliver)
  {
    forall k | 0 <= k < |a| ensures deliver(a[k]) == Delivered { assert (a + b)[k] == a[k]; }
    forall k | 0 <= k < |b| ensures deliver(b[k]) == Delivered { assert (a + b)[|a| + k] == b[k]; }
  }

  /** When every send is delivered, every text of every message goes out in order and nothing is refused or crashes. */
  lemma {:induction false} SendQueueAllDelivered(queue: seq<string>, deliver: string -> Delivery)
    requires AllDelivered(AllOutgoing(queue), deliver)
    ensures SendQueue(queue, deliver) == SendResult(AllOutgoing(queue), false, false)
    decreases |queue|
  {
    if |queue| > 0 {
      AllDeliveredSplit(Outgoing(queue[0]), AllOutgoing(queue[1..]), deliver);
      SendQueueAllDelivered(queue[1..], deliver);
      SendPartsAllDelivered(Outgoing(queue[0]), deliver);
    }
  }

  /** With every send delivered, the answer is True, every text goes out, and the queue is emptied. */
  lemma TelegramAllDelivered(t: Tables, summary: string, deliver: string -> Delivery)
    requires AllDelivered(AllOutgoing(t.queue + [summary]), deliver)
    ensures Telegram(t, true, summary, deliver) == (true, AllOutgoing(t.queue + [summary]), t.(queue := []))
  {
    SendQueueAllDelivered(t.queue + [summary], deliver);
  }

  /** Only a crash keeps the queue; otherwise it is empty afterwards, whatever was refused. */
  lemma TelegramEmptiesQueue(t: Tables, summary: string, deliver: string -> Delivery)
    ensures var r := Telegram(t, true, summary, deliver);
      r.2.holdings == t.holdings && r.2.history == t.history &&
      (SendQueue(t.queue + [summary], deliver).crashed ==> !r.0 && r.2.queue == t.queue + [summary]) &&
      (!SendQueue(t.queue + [summary], deliver).crashed ==> r.2.queue == [])
  {
  }

  // ---------------------------------------------------------------------------
  // The agent
  // ---------------------------------------------------------------------------

  class Agent {
    var holdings: seq<Holding>
    var history: seq<Trade>
    var messages: seq<string>
    const maxSlots: int
    const hasBot: bool
    const notices: Notices

    function State(): Tables
      reads this
    {
      Tables(holdings, history, messages)
    }

    predicate Valid()
      reads this
    {
      ValidTables(State(), maxSlots)
    }

    /** A new agent over the tables already in its database, with ten slots and an empty message queue. */
    constructor(holdings: seq<Holding>, history: seq<Trade>, hasBot: bool)
      ensures State() == Tables(holdings, history, []) && maxSlots == MaxSlots && this.hasBot == hasBot
      ensures notices == Standard()
    {
      this.holdings := holdings;
      this.history := history;
      messages := [];
      maxSlots := MaxSlots;
      this.hasBot := hasBot;
      notices := Standard();
    }

    /** `_check_sector_diversity`: collect the sectors of the stored scenarios, then count the same sector. */
    method CheckSectorDiversity(sector: Value) returns (ok: bool)
      ensures ok == SectorDiverse(sector, Scenarios(holdings))
    {
      if !Truthy(sector) || sector == Str("알 수 없음") {
        return true;
      }
      var sectors := CollectSectors(holdings);
      var count := CountSameSector(sectors, sector);
      if count.None? {
        return true;
      }
      var c := count.value;
      ok := !(c >= MaxSameSector || (|sectors| > 0 && c as real / |sectors| as real >= SectorConcentrationRatio));
    }

    /** `analyze_report` on the agent's current tables. */
    method AnalyzeReport(r: Report, w: World) returns (a: Analysis)
      ensures a == Analyze(holdings, w, r)
    {
      var info := ExtractTickerInfo(r.path);
      var ticker, name := info.0, info.1;
      if ticker == "" || name == "" {
        return NoTicker;
      }
      if Held(holdings, ticker) {
        return AlreadyHeld(ticker, name);
      }
      var price := Quote(holdings, w, ticker);
      if price <= 0.0 {
        return NoPrice;
      }
      if !r.scenario.Dict? {
        return Raised;
      }
      var sc := r.scenario.fields;
      var sector := Get(sc, "sector", Str("알 수 없음"));
      var diverse := CheckSectorDiversity(sector);
      a := Candidate(ticker, name, price, sc, Get(sc, "decision", Str("관망")), sector, diverse, r.rankMsg);
    }

    /** `buy_stock`. */
    method BuyStock(ticker: string, name: string, price: real, scenario: map<string, Value>, rankMsg: string, now: string) returns (ok: bool)
      modifies this
      ensures (ok, State()) == Buy(old(State()), notices, maxSlots, ticker, name, price, scenario, rankMsg, now)
      ensures old(Valid()) ==> Valid()
    {
      ghost var t := State();
      if Valid() {
        BuyKeepsValid(t, notices, maxSlots, ticker, name, price, scenario, rankMsg, now);
      }
      if Held(holdings, ticker) || |holdings| >= maxSlots {
        return false;
      }
      var limit := AtPortfolioLimit(|holdings|, MaxPortfolioSize(scenario, maxSlots));
      if limit != Some(false) {
        return false;
      }
      var target := StoreReal(Get(scenario, "target_price", Int(0)));
      var stop := StoreReal(Get(scenario, "stop_loss", Int(0)));
      if target.None? || stop.None? {
        return false;
      }
      BuyInserts(t, notices, maxSlots, ticker, name, price, scenario, rankMsg, now);
      var row := NewHolding(ticker, name, price, scenario, now, target.value, stop.value);
      holdings := holdings + [row];
      var m := notices.buy(ticker, name, price, scenario, rankMsg);
      if m.None? {
        return false;
      }
      messages := messages + [m.value];
      ok := true;
    }

    method SellStock(s: Holding, reason: string, w: World) returns (ok: bool)
      modifies this
      ensures (ok, State()) == Sell(old(State()), notices, s, reason, w)
    {
      if s.buyPrice == 0.0 {
        return false;
      }
      var days := w.daysSince(s.buyDate);
      if days.None? {
        return false;
      }
      var p := ProfitRate(s.buyPrice, s.currentPrice);
      history := history + [Trade(s.ticker, s.name, s.buyPrice, s.buyDate, s.currentPrice, w.now, p, days.value, s.scenario)];
      holdings := Without(holdings, s.ticker);
      messages := messages + [notices.sell(s.ticker, s.name, s.buyPrice, s.currentPrice, p, days.value, reason)];
      ok := true;
    }

    /** One row of `update_holdings`: refresh its price, then sell it or store the price. */
    method UpdateOne(h: Holding, w: World, decide: Holding -> Decision) returns (sale: Option<Sale>)
      modifies this
      ensures (State(), sale) == UpdateStep(old(State()), notices, h, w, decide)
    {
      var q := Quote(holdings, w, h.ticker);
      var price := if q <= 0.0 then h.currentPrice else q;
      var s := Refreshed(h, price);
      var d := decide(s);
      if d.sell {
        var ok := SellStock(s, d.reason, w);
        if ok {
          return Some(Sale(h.ticker, h.name, h.buyPrice, price, ProfitRate(h.buyPrice, price), d.reason));
        }
        return None;
      }
      holdings := SetPrice(holdings, h.ticker, price, w.now);
      sale := None;
    }

    /** `update_holdings`: each row read at the start is refreshed and decided on, in order. */
    method UpdateHoldings(w: World, decide: Holding -> Decision) returns (sold: seq<Sale>)
      modifies this
      ensures (State(), sold) == UpdateAll(old(State()), notices, old(holdings), w, decide)
      ensures old(Valid()) ==> Valid()
    {
      ghost var start := State();
      if Valid() {
        UpdateAllValid(start, notices, start.holdings, w, decide, maxSlots);
      }
      var snapshot := holdings;
      sold := [];
      var i := 0;
      assert snapshot[i..] == snapshot && sold + UpdateAll(start, notices, snapshot, w, decide).1 == UpdateAll(start, notices, snapshot, w, decide).1;
      while i < |snapshot|
        invariant 0 <= i <= |snapshot| && UpdatedSoFar(start, notices, snapshot, w, decide, i, State(), sold)
      {
        UpdatedSoFarNext(start, notices, snapshot, w, decide, i, State(), sold);
        var sale := UpdateOne(snapshot[i], w, decide);
        if sale.Some? {
          sold := sold + [sale.value];
        } else {
          assert sold + [] == sold;
        }
        i := i + 1;
      }
      assert snapshot[i..] == [] && sold + [] == sold;
    }

    /** One report of `process_reports`: analysed, then bought when decided "진입"; `raised` when its skip log raises. */
    method ProcessReport(r: Report, w: World) returns (raised: bool, bought: bool)
      modifies this
      ensures (raised, bought, State()) == ReportStep(old(State()), notices, maxSlots, w, r)
    {
      var a := AnalyzeReport(r, w);
      if BaseEntry(a) {
        bought := BuyStock(a.ticker, a.name, a.price, a.scenario, a.rankMsg, w.now);
        return false, bought;
      }
      return SkipRaises(a), false;
    }

    /** The report at `i` of the buying loop, with what it means for the batch. */
    method NextReport(ghost start: Tables, reports: seq<Report>, i: nat, ghost buys: nat, w: World) returns (raised: bool, bought: bool)
      requires i < |reports| && BoughtSoFar(start, notices, maxSlots, w, reports, i, State(), buys)
      modifies this
      ensures raised ==> Batched(start, notices, maxSlots, w, reports, Batch(true, buys, State()))
      ensures !raised ==> BoughtSoFar(start, notices, maxSlots, w, reports, i + 1, State(), buys + if bought then 1 else 0)
    {
      BoughtSoFarNext(start, notices, maxSlots, w, reports, i, State(), buys);
      raised, bought := ProcessReport(reports[i], w);
    }

    /** The buying half of `process_reports`: the reports in order, stopping at one that raises. */
    method BuyFromReports(reports: seq<Report>, w: World) returns (aborted: bool, buys: nat)
      modifies this
      ensures Batched(old(State()), notices, maxSlots, w, reports, Batch(aborted, buys, State()))
    {
      ghost var start := State();
      buys := 0;
      var i := 0;
      BoughtSoFarStart(start, notices, maxSlots, w, reports);
      while i < |reports|
        invariant 0 <= i <= |reports| && BoughtSoFar(start, notices, maxSlots, w, reports, i, State(), buys)
      {
        var raised, bought := NextReport(start, reports, i, buys, w);
        if raised {
          return true, buys;
        }
        if bought {
          buys := buys + 1;
        }
        i := i + 1;
      }
      BoughtSoFarEnd(start, notices, maxSlots, w, reports, State(), buys);
      aborted := false;
    }

    /** `process_reports` of the base agent. */
    method ProcessReports(reports: seq<Report>, w: World) returns (buys: nat, sells: nat)
      modifies this
      ensures ((buys, sells), State()) == ProcessBase(old(State()), notices, maxSlots, w, reports)
    {
      var sold := UpdateHoldings(w, BaseDecide(w));
      var aborted;
      aborted, buys := BuyFromReports(reports, w);
      if aborted {
        return 0, 0;
      }
      sells := |sold|;
    }

    /** `send_telegram_message`: queue the summary, then send every queued message; the queue is cleared unless a send crashed. */
    method SendTelegram(summary: string, deliver: string -> Delivery) returns (ok: bool, sent: seq<string>)
      modifies this
      ensures (ok, sent, State()) == Telegram(old(State()), hasBot, summary, deliver)
    {
      if !hasBot {
        return false, [];
      }
      messages := messages + [summary];
      var r := SendAll(messages, deliver);
      QueueSendsResult(messages, deliver, r);
      sent := r.sent;
      if r.crashed {
        return false, sent;
      }
      messages := [];
      ok := !r.refused;
    }
  }

  /** What the queue loop knows after `i` messages: the texts sent so far and whether one was refused, then the rest. */
  ghost predicate SentSoFar(queue: seq<string>, deliver: string -> Delivery, i: nat, sent: seq<string>, refused: bool)
    requires i <= |queue|
  {
    QueueSends(queue, deliver, SendResumed(queue[i..], deliver, sent, refused))
  }

  /**
   * Sending `queue` ends in `r`: `SendQueue`, through `SendResumed` from
   * nothing sent, which keeps a checked contract from unfolding the splitting
   * of the messages.
   */
  ghost predicate QueueSends(queue: seq<string>, deliver: string -> Delivery, r: SendResult)
  {
    SendResumed(queue, deliver, [], false) == r
  }

  /** Sending `rest` after `sent` has gone out and with `refused` so far. */
  ghost function SendResumed(rest: seq<string>, deliver: string -> Delivery, sent: seq<string>, refused: bool): SendResult
  {
    var r := SendQueue(rest, deliver);
    SendResult(sent + r.sent, refused || r.refused, r.crashed)
  }

  /** What `QueueSends` says, as `SendQueue`'s result. */
  lemma QueueSendsResult(queue: seq<string>, deliver: string -> Delivery, r: SendResult)
    requires QueueSends(queue, deliver, r)
    ensures SendQueue(queue, deliver) == r
  {
    assert [] + SendQueue(queue, deliver).sent == SendQueue(queue, deliver).sent;
  }

  /** Before the first message nothing is sent. */
  lemma SentSoFarStart(queue: seq<string>, deliver: string -> Delivery)
    ensures SentSoFar(queue, deliver, 0, [], false)
  {
    assert queue[0..] == queue && [] + SendQueue(queue, deliver).sent == SendQueue(queue, deliver).sent;
  }

  /** After the last message the queue ends, not crashed, with what the loop sent. */
  lemma SentSoFarEnd(queue: seq<string>, deliver: string -> Delivery, sent: seq<string>, refused: bool)
    requires SentSoFar(queue, deliver, |queue|, sent, refused)
    ensures QueueSends(queue, deliver, SendResult(sent, refused, false))
  {
    assert queue[|queue|..] == [] && sent + [] == sent;
  }

  /** The queue from message `i` on: that message's texts, then the rest unless it crashed. */
  lemma SendQueueStep(queue: seq<string>, deliver: string -> Delivery, i: nat)
    requires i < |queue|
    ensures var first := SendParts(Outgoing(queue[i]), deliver);
      var next := SendQueue(queue[i + 1..], deliver);
      SendQueue(queue[i..], deliver) ==
        if first.1 == Crashed then SendResult(first.0, false, true)
        else SendResult(first.0 + next.sent, first.1 == Refused || next.refused, next.crashed)
  {
    assert queue[i..][0] == queue[i] && queue[i..][1..] == queue[i + 1..];
  }

  /** A message that did not crash moves the queue loop on to the next one. */
  lemma SentSoFarNext(queue: seq<string>, deliver: string -> Delivery, i: nat, sent: seq<string>, refused: bool,
                      tried: seq<string>, outcome: Delivery)
    requires i < |queue| && SentSoFar(queue, deliver, i, sent, refused)
    requires (tried, outcome) == SendParts(Outgoing(queue[i]), deliver) && outcome != Crashed
    ensures SentSoFar(queue, deliver, i + 1, sent + tried, refused || outcome == Refused)
  {
    SendResumedStep(queue, deliver, i, sent, refused, tried, outcome);
  }

  /** Resuming at message `i` is resuming at the next one with that message's texts sent. */
  lemma SendResumedStep(queue: seq<string>, deliver: string -> Delivery, i: nat, sent: seq<string>, refused: bool,
                        tried: seq<string>, outcome: Delivery)
    requires i < |queue|
    requires (tried, outcome) == SendParts(Outgoing(queue[i]), deliver) && outcome != Crashed
    ensures SendResumed(queue[i..], deliver, sent, refused) == SendResumed(queue[i + 1..], deliver, sent + tried, refused || outcome == Refused)
  {
    SendQueueStep(queue, deliver, i);
    var next := SendQueue(queue[i + 1..], deliver);
    assert sent + (tried + next.sent) == (sent + tried) + next.sent;
  }

  /** A message that crashed ends the queue with what was sent so far. */
  lemma SentSoFarCrash(queue: seq<string>, deliver: string -> Delivery, i: nat, sent: seq<string>, refused: bool,
                       tried: seq<string>)
    requires i < |queue| && SentSoFar(queue, deliver, i, sent, refused)
    requires (tried, Crashed) == SendParts(Outgoing(queue[i]), deliver)
    ensures QueueSends(queue, deliver, SendResult(sent + tried, refused, true))
  {
    SendQueueStep(queue, deliver, i);
  }

  /** One queued message sent: whole when short enough, else as numbered parts. */
  method SendMessage(message: string, deliver: string -> Delivery) returns (tried: seq<string>, outcome: Delivery)
    ensures (tried, outcome) == SendParts(Outgoing(message), deliver)
  {
    var texts: seq<string>;
    if |message| <= MaxMessageLength {
      texts := [message];
    } else {
      var parts := SplitMessage(message);
      texts := Numbered(parts, 1, |parts|);
    }
    tried, outcome := SendTexts(texts, deliver);
  }

  /** Every queued message sent in order; a crash stops everything. */
  method SendAll(queue: seq<string>, deliver: string -> Delivery) returns (r: SendResult)
    ensures QueueSends(queue, deliver, r)
  {
    var sent: seq<string> := [];
    var refused := false;
    var i := 0;
    SentSoFarStart(queue, deliver);
    while i < |queue|
      invariant 0 <= i <= |queue| && SentSoFar(queue, deliver, i, sent, refused)
    {
      var tried, outcome := SendMessage(queue[i], deliver);
      if outcome == Crashed {
        SentSoFarCrash(queue, deliver, i, sent, refused, tried);
        return SendResult(sent + tried, refused, true);
      }
      SentSoFarNext(queue, deliver, i, sent, refused, tried, outcome);
      sent := sent + tried;
      refused := refused || outcome == Refused;
      i := i + 1;
    }
    SentSoFarEnd(queue, deliver, sent, refused);
    r := SendResult(sent, refused, false);
  }

  /** The `sector` of every stored scenario that is an object holding one, in table order. */
  method CollectSectors(hs: seq<Holding>) returns (sectors: seq<Value>)
    ensures sectors == SectorsOf(Scenarios(hs))
  {
    var scenarios := Scenarios(hs);
    sectors := [];
    var i := 0;
    while i < |hs|
      invariant 0 <= i <= |hs|
      invariant sectors == SectorsOf(scenarios[..i])
    {
      var v := hs[i].scenario;
      SectorsOfSnoc(scenarios[..i], v);
      TakeNext(scenarios, i);
      if v.Dict? && "sector" in v.fields {
        sectors := sectors + [v.fields["sector"]];
      }
      i := i + 1;
    }
    assert scenarios[..i] == scenarios;
  }

  /** How many of `sectors` are the same sector, ignoring case; `None` where comparing raises. */
  method CountSameSector(sectors: seq<Value>, sector: Value) returns (count: Option<nat>)
    ensures count == SameSectorCount(sectors, sector)
  {
    var c: nat := 0;
    var j := 0;
    while j < |sectors|
      invariant 0 <= j <= |sectors|
      invariant SameSectorCount(sectors[..j], sector) == Some(c)
    {
      var s := sectors[j];
      SameSectorCountSnoc(sectors[..j], s, sector);
      TakeNext(sectors, j);
      if Truthy(s) && !(s.Str? && sector.Str?) {
        return None;
      }
      if Truthy(s) && SameSector(s, sector) {
        c := c + 1;
      }
      j := j + 1;
    }
    assert sectors[..j] == sectors;
    count := Some(c);
  }

  /** The parts of one message sent in order, stopping at the first that is not delivered. */
  method SendTexts(texts: seq<string>, deliver: string -> Delivery) returns (tried: seq<string>, outcome: Delivery)
    ensures (tried, outcome) == SendParts(texts, deliver)
  {
    tried := [];
    var j := 0;
    while j < |texts|
      invariant 0 <= j <= |texts| && tried == texts[..j]
      invariant AllDelivered(texts[..j], deliver)
    {
      var o := deliver(texts[j]);
      tried := tried + [texts[j]];
      if o != Delivered {
        SendPartsPrefix(texts, deliver, j);
        assert texts[j..][0] == texts[j] && texts[..j] + [texts[j]] == texts[..j + 1];
        return tried, o;
      }
      ghost var pre := texts[..j + 1];
      forall k | 0 <= k < j + 1 ensures deliver(pre[k]) == Delivered {
        if k < j { assert pre[k] == texts[..j][k]; }
      }
      assert texts[..j] + [texts[j]] == texts[..j + 1];
      j := j + 1;
    }
    SendPartsPrefix(texts, deliver, j);
    assert texts[j..] == [];
    outcome := Delivered;
  }
}
