/**
 * The portfolio reporter (`trading/portfolio_telegram_reporter.py`): it reads the
 * brokerage portfolio and account summary and sends them to a Telegram channel
 * as one message, or sends a short status message.
 *
 * The clock is the parameter `time` (already formatted), the brokerage answers
 * are the balance inquiries `positions` and `totals`, and the bot's send is the
 * parameter `sent` (`None` when it raises).
 */
module PortfolioReporter {
  import opened Wrappers
  import opened Text
  import opened Format
  import DomesticTrading

  /** A reporter: the token and channel it sends with and its trading mode. */
  datatype Reporter = Reporter(token: string, chatId: string, mode: string)

  /**
   * The constructor: an empty or missing token or channel id falls back to the
   * environment variable, and raises `ValueError` when that is missing or empty
   * too; a missing mode takes the configured default.
   */
  function NewReporter(token: Option<string>, envToken: Option<string>, chatId: Option<string>, envChatId: Option<string>,
                       mode: Option<string>, defaultMode: string): (r: Option<Reporter>)
    ensures r.Some? ==> |r.value.token| > 0 && |r.value.chatId| > 0
    ensures r.Some? && token.Some? && token.value != "" ==> r.value.token == token.value
    ensures r.Some? && (token.None? || token.value == "") ==> envToken == Some(r.value.token)
    ensures r.Some? && chatId.Some? && chatId.value != "" ==> r.value.chatId == chatId.value
    ensures r.Some? && (chatId.None? || chatId.value == "") ==> envChatId == Some(r.value.chatId)
    ensures r.Some? ==> r.value.mode == (if mode.Some? then mode.value else defaultMode)
    ensures r.None? <==> OrElse(token, envToken) == "" || OrElse(chatId, envChatId) == ""
  {
    var t := OrElse(token, envToken);
    var c := OrElse(chatId, envChatId);
    if t == "" || c == "" then None
    else Some(Reporter(t, c, if mode.Some? then mode.value else defaultMode))
  }

  /** `a or b` over optional strings, with `None` and "" both false; "" stands for the final `None`. */
  function OrElse(a: Option<string>, b: Option<string>): (r: string)
    ensures a.Some? && a.value != "" ==> r == a.value
    ensures (a.None? || a.value == "") ==> r == (if b.Some? then b.value else "")
  {
    if a.Some? && a.value != "" then a.value else if b.Some? then b.value else ""
  }

  // ---------------------------------------------------------------- number formats

  /** `format_currency`: thousands separators, no decimals and "원"; 0 is "0원". */
  function Currency(amount: real): (r: string)
    ensures amount == 0.0 ==> r == "0원"
    ensures amount > 0.0 ==> r == Grouped(RoundHalfEven(amount)) + "원"
    ensures amount < 0.0 ==> r == "-" + Grouped(RoundHalfEven(-amount)) + "원"
    ensures EndsWith(r, "원")
  {
    var r := if amount != 0.0 then Amount(amount) + "원" else "0원";
    EndsWithConcat(if amount != 0.0 then Amount(amount) else "0", "원");
    r
  }

  /** `format_percentage`: signed, two decimals and "%"; 0 is "0.00%". */
  function Percentage(rate: real): (r: string)
    ensures rate == 0.0 ==> r == "0.00%"
    ensures rate > 0.0 ==> r == "+" + Fixed2(rate) + "%"
    ensures rate < 0.0 ==> r == Fixed2(rate) + "%"
    ensures EndsWith(r, "%")
  {
    var r := if rate != 0.0 then SignedFixed2(rate) + "%" else "0.00%";
    EndsWithConcat(if rate != 0.0 then SignedFixed2(rate) else "0.00", "%");
    r
  }

  /** Whole thousands of won come out as their digits, once the separators are dropped. */
  lemma CurrencyOfWhole(n: nat)
    requires n > 0
    ensures RemoveChar(Currency(n as real), ',') == NatToString(n) + "원"
  {
    AmountOfWhole(n);
    RemoveCharConcat(Amount(n as real), "원", ',');
    assert RemoveChar("원", ',') == "원";
  }

  // ---------------------------------------------------------------- the message

  /** The mode's emoji and name: the demo account for "demo", the real one for anything else. */
  function ModeEmoji(mode: string): (e: string)
    ensures mode == "demo" ==> e == "🧪"
    ensures mode != "demo" ==> e == "💰"
  {
    if mode == "demo" then "🧪" else "💰"
  }

  function ModeText(mode: string): (t: string)
    ensures mode == "demo" ==> t == "모의투자"
    ensures mode != "demo" ==> t == "실전투자"
  {
    if mode == "demo" then "모의투자" else "실전투자"
  }

  /** The two header lines. */
  function Header(mode: string, time: string): (h: string)
    ensures StartsWith(h, "📊 포트폴리오 리포트 " + ModeEmoji(mode) + "\n")
    ensures EndsWith(h, " | " + ModeText(mode) + "\n\n")
  {
    var first := "📊 포트폴리오 리포트 " + ModeEmoji(mode) + "\n";
    var rest := "🕐 " + time;
    var last := " | " + ModeText(mode) + "\n\n";
    StartsWithConcat(first, rest);
    StartsWithExtend(first + rest, first, last);
    EndsWithConcat(first + rest, last);
    first + rest + last
  }

  /** `"+"` in front of a profit that is not negative. */
  function Sign(x: real): (s: string)
    ensures x >= 0.0 ==> s == "+"
    ensures x < 0.0 ==> s == ""
  {
    if x >= 0.0 then "+" else ""
  }

  /** The trend emoji of a profit: up, down or flat. */
  function ProfitEmoji(x: real): (e: string)
    ensures x >= 0.0 ==> e == "📈"
    ensures x < 0.0 ==> e == "📉"
  {
    if x >= 0.0 then "📈" else "📉"
  }

  const NoAccountLine := "❌ 계좌 정보를 가져올 수 없습니다\n\n"

  function AvailableLine(available: real): string
  {
    "💳 주문가능: `" + Currency(available) + "`\n"
  }

  function TotalLine(a: DomesticTrading.Account): string
    requires a.Account?
  {
    "💰 총 평가액: `" + Currency(a.totalEval) + "`\n"
  }

  function ProfitLine(a: DomesticTrading.Account): string
    requires a.Account?
  {
    ProfitEmoji(a.profit) + " 평가손익: `" + Sign(a.profit) + Currency(a.profit) + "` " + "(" + Percentage(a.rate) + ")\n"
  }

  /** The account lines before the optional available-cash line. */
  function AccountLines(a: DomesticTrading.Account): string
    requires a.Account?
  {
    TotalLine(a) + ProfitLine(a)
  }

  /**
   * The account section: the line saying the account could not be read for a
   * missing or empty summary; otherwise the totals, and the cash available to
   * order only when it is positive.
   */
  function AccountSection(a: DomesticTrading.Account): (r: string)
    ensures !a.Account? ==> r == NoAccountLine
    ensures a.Account? && a.available > 0.0 ==> r == AccountLines(a) + AvailableLine(a.available) + "\n"
    ensures a.Account? && a.available <= 0.0 ==> r == AccountLines(a) + "\n"
    ensures a.Account? ==> StartsWith(r, AccountLines(a))
  {
    if !a.Account? then NoAccountLine
    else
      var extra := (if a.available > 0.0 then AvailableLine(a.available) else "") + "\n";
      StartsWithConcat(AccountLines(a), extra);
      if a.available > 0.0 then
        assert AccountLines(a) + extra == AccountLines(a) + AvailableLine(a.available) + "\n";
        AccountLines(a) + extra
      else AccountLines(a) + extra
  }

  /** The status emoji of a holding: by the sign of its profit rate. */
  function StatusEmoji(rate: real): (e: string)
    ensures rate > 0.0 ==> e == "🔺"
    ensures rate < 0.0 ==> e == "🔻"
    ensures rate == 0.0 ==> e == "➖"
  {
    if rate > 0.0 then "🔺" else if rate < 0.0 then "🔻" else "➖"
  }

  /** The title line of holding number `i`. */
  function BlockTitle(i: nat, e: DomesticTrading.Entry): string
  {
    "\n*" + NatToString(i) + ". " + e.name + "* (" + e.code + ") " + StatusEmoji(e.profitRate) + "\n"
  }

  function ValueLine(e: DomesticTrading.Entry): string
  {
    "  평가금액: `" + Currency(e.evalAmount) + "`\n"
  }

  function PriceLine(e: DomesticTrading.Entry): string
  {
    "  평균단가: `" + Currency(e.avgPrice) + "` (" + IntToString(e.quantity) + "주)\n"
  }

  function GainLine(e: DomesticTrading.Entry): string
  {
    "  손익: `" + Sign(e.profitAmount) + Currency(e.profitAmount) + "`  |  " + Percentage(e.profitRate) + "\n"
  }

  /** The lines of holding number `i`. */
  function StockBlock(i: nat, e: DomesticTrading.Entry): (b: string)
    ensures StartsWith(b, BlockTitle(i, e))
  {
    var rest := ValueLine(e) + PriceLine(e) + GainLine(e);
    StartsWithConcat(BlockTitle(i, e), rest);
    BlockTitle(i, e) + rest
  }

  /** A builder of the block of a numbered holding; the message uses `StockBlock`. */
  type Builder = (nat, DomesticTrading.Entry) -> string

  /** The block of each holding, in order, the one at index `i` numbered `i + 1`. */
  function Numbered(p: seq<DomesticTrading.Entry>, block: Builder): (r: seq<string>)
    ensures |r| == |p|
  {
    if |p| == 0 then [] else Numbered(p[..|p| - 1], block) + [block(|p|, p[|p| - 1])]
  }

  /** The blocks of the holdings, one after the other. */
  function Blocks(p: seq<DomesticTrading.Entry>, block: Builder): string
  {
    Concat(Numbered(p, block))
  }

  /** Block `k` is that of the holding at index `k`, numbered `k + 1`. */
  lemma {:induction false} NumberedIndex(p: seq<DomesticTrading.Entry>, block: Builder, k: nat)
    requires k < |p|
    ensures Numbered(p, block)[k] == block(k + 1, p[k])
  {
    if k < |p| - 1 {
      NumberedIndex(p[..|p| - 1], block, k);
    }
  }

  /** The blocks of the first `k` holdings are the first `k` blocks. */
  lemma {:induction false} NumberedPrefix(p: seq<DomesticTrading.Entry>, block: Builder, k: nat)
    requires k <= |p|
    ensures Numbered(p[..k], block) == Numbered(p, block)[..k]
  {
    if k == |p| {
      assert p[..k] == p;
    } else {
      var init := p[..|p| - 1];
      NumberedPrefix(init, block, k);
      assert init[..k] == p[..k];
    }
  }

  /** Appending the next holding's block extends the blocks of the holdings so far. */
  lemma BlocksNext(p: seq<DomesticTrading.Entry>, block: Builder, i: nat)
    requires i < |p|
    ensures Blocks(p[..i + 1], block) == Blocks(p[..i], block) + block(i + 1, p[i])
  {
    assert p[..i + 1][..i] == p[..i];
    ConcatAppend(Numbered(p[..i], block), [block(i + 1, p[i])]);
    assert [block(i + 1, p[i])][1..] == [];
  }

  /**
   * The holding at index `k` is shown under number `k + 1`, after the blocks of
   * the holdings before it and before those of the holdings after it.
   */
  lemma BlockNumbered(p: seq<DomesticTrading.Entry>, block: Builder, k: nat)
    requires k < |p|
    ensures Blocks(p, block) == Blocks(p[..k], block) + block(k + 1, p[k]) + Concat(Numbered(p, block)[k + 1..])
    ensures StartsWith(Blocks(p, block)[|Blocks(p[..k], block)|..], block(k + 1, p[k]))
  {
    var n := Numbered(p, block);
    NumberedPrefix(p, block, k + 1);
    assert n == n[..k + 1] + n[k + 1..];
    ConcatAppend(n[..k + 1], n[k + 1..]);
    BlocksNext(p, block, k);
    var head := Blocks(p[..k], block);
    var b := block(k + 1, p[k]);
    var rest := Concat(n[k + 1..]);
    assert Blocks(p, block)[|head|..] == b + rest;
    StartsWithConcat(b, rest);
  }

  const NoHoldingsLine := "📭 *보유종목*: 없음\n\n"

  /** The line giving the number of holdings. */
  function CountLine(n: nat): string
  {
    "📈 보유종목 (" + NatToString(n) + "개)\n"
  }

  /** The holdings section: a count line and the numbered blocks, or the line saying there are none. */
  function HoldingsSection(p: seq<DomesticTrading.Entry>): (r: string)
    ensures |p| == 0 ==> r == NoHoldingsLine
    ensures |p| > 0 ==> StartsWith(r, CountLine(|p|))
    ensures |p| > 0 ==> EndsWith(r, Blocks(p, StockBlock))
  {
    if |p| == 0 then NoHoldingsLine
    else
      var head := CountLine(|p|);
      StartsWithConcat(head, Blocks(p, StockBlock));
      EndsWithConcat(head, Blocks(p, StockBlock));
      head + Blocks(p, StockBlock)
  }

  /** `create_portfolio_message`: the header, the account section and the holdings section, appended in turn. */
  method PortfolioMessage(p: seq<DomesticTrading.Entry>, a: DomesticTrading.Account, mode: string, time: string)
    returns (message: string)
    ensures message == Header(mode, time) + AccountSection(a) + HoldingsSection(p)
  {
    message := Header(mode, time);
    var section: string;
    if a.Account? {
      section := AccountLines(a);
      if a.available > 0.0 {
        section := section + AvailableLine(a.available);
      }
      section := section + "\n";
    } else {
      section := NoAccountLine;
    }
    assert section == AccountSection(a);
    message := message + section;
    var holdings: string;
    if |p| > 0 {
      holdings := CountLine(|p|);
      var i := 0;
      while i < |p|
        invariant 0 <= i <= |p|
        invariant holdings == CountLine(|p|) + Blocks(p[..i], StockBlock)
      {
        BlocksNext(p, StockBlock, i);
        AppendAssoc(CountLine(|p|), Blocks(p[..i], StockBlock), StockBlock(i + 1, p[i]));
        holdings := holdings + StockBlock(i + 1, p[i]);
        i := i + 1;
      }
      assert p[..i] == p;
    } else {
      holdings := NoHoldingsLine;
    }
    message := message + holdings;
  }

  // ---------------------------------------------------------------- fetching and sending

  /**
   * `get_trading_data`: the portfolio and account summary of the two balance
   * inquiries; ([], {}) when creating the trader raises.
   */
  function TradingData(created: bool, positions: DomesticTrading.Balance, totals: DomesticTrading.Balance)
    : (r: (seq<DomesticTrading.Entry>, DomesticTrading.Account))
    ensures !created ==> r == ([], DomesticTrading.EmptyAccount)
    ensures created ==> r == (DomesticTrading.Portfolio(positions), DomesticTrading.AccountSummary(totals))
    ensures forall e :: e in r.0 ==> e.quantity > 0
  {
    if created then (DomesticTrading.Portfolio(positions), DomesticTrading.AccountSummary(totals))
    else ([], DomesticTrading.EmptyAccount)
  }

  /**
   * `send_portfolio_report`: the message built from the trading data is sent once;
   * the result is whether the send succeeded (an exception counts as a failure).
   */
  method SendPortfolioReport(r: Reporter, created: bool, positions: DomesticTrading.Balance, totals: DomesticTrading.Balance,
                             time: string, sent: Option<bool>)
    returns (ok: bool, message: string)
    ensures ok <==> sent == Some(true)
    ensures message == Header(r.mode, time) + AccountSection(TradingData(created, positions, totals).1) +
                       HoldingsSection(TradingData(created, positions, totals).0)
  {
    var (p, a) := TradingData(created, positions, totals);
    message := PortfolioMessage(p, a, r.mode, time);
    ok := sent == Some(true);
  }

  /** The title of a status message; "📊 **상태 체크**" for a type without one. */
  function StatusTitle(statusType: string): (t: string)
    ensures statusType !in {"morning", "evening", "market_close", "weekend"} ==> t == "📊 **상태 체크**"
  {
    if statusType == "morning" then "🌅 **장 시작 전 체크**"
    else if statusType == "evening" then "🌆 **장 마감 후 정리**"
    else if statusType == "market_close" then "🔔 **시장 마감**"
    else if statusType == "weekend" then "🏖️ **주말 상태 체크**"
    else "📊 **상태 체크**"
  }

  const StatusFooter := "\n🤖 자동 상태 체크"

  /** The status lines of an account summary: its totals, or the line saying the inquiry failed. */
  function StatusAccount(a: DomesticTrading.Account): (r: string)
    ensures !a.Account? ==> r == "❌ 계좌 정보 조회 실패\n"
    ensures a.Account? ==> StartsWith(r, "💼 총 평가: " + Currency(a.totalEval) + "\n")
  {
    if !a.Account? then "❌ 계좌 정보 조회 실패\n"
    else
      var first := "💼 총 평가: " + Currency(a.totalEval) + "\n";
      var second := ProfitEmoji(a.profit) + " 손익: " + Currency(a.profit) + " (" + Percentage(a.rate) + ")\n";
      StartsWithConcat(first, second);
      first + second
  }

  /** The message `send_simple_status` sends: title, time, account lines and the footer. */
  function StatusMessage(statusType: string, mode: string, time: string, a: DomesticTrading.Account): (m: string)
    ensures StartsWith(m, StatusTitle(statusType) + " " + ModeEmoji(mode) + "\n")
    ensures EndsWith(m, StatusFooter)
  {
    var head := StatusTitle(statusType) + " " + ModeEmoji(mode) + "\n";
    var body := "📅 " + time + "\n\n" + StatusAccount(a);
    StartsWithConcat(head, body);
    StartsWithExtend(head + body, head, StatusFooter);
    EndsWithConcat(head + body, StatusFooter);
    head + body + StatusFooter
  }

  /** `send_simple_status`: only the account summary is fetched; the result is whether the send succeeded. */
  method SendSimpleStatus(r: Reporter, statusType: string, created: bool, positions: DomesticTrading.Balance,
                          totals: DomesticTrading.Balance, time: string, sent: Option<bool>)
    returns (ok: bool, message: string)
    ensures ok <==> sent == Some(true)
    ensures message == StatusMessage(statusType, r.mode, time, TradingData(created, positions, totals).1)
  {
    var (_, a) := TradingData(created, positions, totals);
    message := StatusMessage(statusType, r.mode, time, a);
    ok := sent == Some(true);
  }
}
