/**
 * The Telegram texts of the base tracking agent: the buy notice with its
 * trading-scenario section, the sell notice, and the splitting of a text longer
 * than Telegram's 4096-character limit into numbered parts.
 */
module TrackingMessages {
  import opened Wrappers
  import opened Text
  import opened Format
  import opened PyValue
  import opened TrackingRules

  // ---------------------------------------------------------------------------
  // The buy notice
  // ---------------------------------------------------------------------------

  /** Forty '=' characters, the rule around the scenario heading. */
  const SectionRule: string := "========================================"

  /**
   * `word in v` for the values a sell trigger can be: a substring test on a
   * string, membership in a list, a key test on an object; `None` where Python
   * raises because the value is not a container.
   */
  function ValueHas(v: Value, word: string): (r: Option<bool>)
    ensures r.Some? <==> v.Str? || v.List? || v.Dict?
    ensures v.Str? ==> r == Some(Contains(v.s, word))
  {
    match v
    case Str(s) => Some(Contains(s, word))
    case List(items) => Some(Str(word) in items)
    case Dict(fields) => Some(word in fields)
    case _ => None
  }

  /** The emoji in front of a sell trigger: profit words, then loss words, then time words, else a bullet. */
  function TriggerEmoji(trigger: Value): (r: Option<string>)
    ensures r.Some? <==> trigger.Str? || trigger.List? || trigger.Dict?
  {
    if ValueHas(trigger, "익절").None? then None
    else if ValueHas(trigger, "익절") == Some(true) || ValueHas(trigger, "목표") == Some(true) || ValueHas(trigger, "저항") == Some(true) then Some("✅")
    else if ValueHas(trigger, "손절") == Some(true) || ValueHas(trigger, "지지") == Some(true) || ValueHas(trigger, "하락") == Some(true) then Some("⛔")
    else if ValueHas(trigger, "시간") == Some(true) || ValueHas(trigger, "횡보") == Some(true) then Some("⏰")
    else Some("•")
  }

  /** The trigger's emoji groups in plain terms, for a trigger written as text. */
  lemma TriggerEmojiOfText(t: string)
    ensures var e := TriggerEmoji(Str(t));
      (Contains(t, "익절") || Contains(t, "목표") || Contains(t, "저항") ==> e == Some("✅")) &&
      (!(Contains(t, "익절") || Contains(t, "목표") || Contains(t, "저항")) && (Contains(t, "손절") || Contains(t, "지지") || Contains(t, "하락")) ==> e == Some("⛔")) &&
      (!(Contains(t, "익절") || Contains(t, "목표") || Contains(t, "저항") || Contains(t, "손절") || Contains(t, "지지") || Contains(t, "하락")) ==>
        e == Some(if Contains(t, "시간") || Contains(t, "횡보") then "⏰" else "•"))
  {
  }

  /**
   * The elements a `for` loop visits: a list's items, a string's characters and
   * a dict's keys; `None` for a value that is not iterable. A `Value` dict holds
   * no insertion order, so its keys are visited in code-point order.
   */
  function Elements(v: Value): (r: Option<seq<Value>>)
    ensures r.None? <==> !(v.List? || v.Str? || v.Dict?)
    ensures v.List? ==> r == Some(v.items)
    ensures v.Str? ==> r.Some? && |r.value| == |v.s| && forall k :: 0 <= k < |v.s| ==> r.value[k] == Str([v.s[k]])
    ensures v.Dict? ==> r.Some? && |r.value| == |v.fields|
    ensures v.Dict? ==> forall k :: 0 <= k < |r.value| ==> r.value[k].Str? && r.value[k].s in v.fields
    ensures v.Dict? ==> forall key :: key in v.fields ==> Str(key) in r.value
  {
    match v
    case List(items) => Some(items)
    case Str(s) => Some(seq(|s|, i requires 0 <= i < |s| => Str([s[i]])))
    case Dict(fields) => Some(KeyTexts(fields.Keys))
    case _ => None
  }

  /** The keys of a dict as texts, each once, in code-point order. */
  function KeyTexts(keys: set<string>): (r: seq<Value>)
    ensures |r| == |keys|
    ensures forall k :: 0 <= k < |r| ==> r[k].Str? && r[k].s in keys
    ensures forall key :: key in keys ==> Str(key) in r
  {
    var sorted := SortedKeys(keys);
    var r := seq(|sorted|, i requires 0 <= i < |sorted| => Str(sorted[i]));
    assert forall key :: key in keys ==> Str(key) in r by {
      forall key | key in keys ensures Str(key) in r {
        var i :| 0 <= i < |sorted| && sorted[i] == key;
        assert r[i] == Str(key);
      }
    }
    r
  }

  /** A string's characters and a dict's keys are texts, and every text has an emoji. */
  lemma TextsHaveEmoji(v: Value)
    ensures (v.Str? || v.Dict?) ==> forall k :: 0 <= k < |Elements(v).value| ==> TriggerEmoji(Elements(v).value[k]).Some?
  {
  }

  /** One line "  {emoji} {trigger}" per trigger; `None` when a trigger is not a container. */
  function TriggerLines(triggers: seq<Value>): (r: Option<string>)
    ensures r.Some? <==> forall k :: 0 <= k < |triggers| ==> TriggerEmoji(triggers[k]).Some?
  {
    if |triggers| == 0 then Some("")
    else match (TriggerEmoji(triggers[0]), TriggerLines(triggers[1..]))
      case (Some(e), Some(rest)) => Some("  " + e + " " + Show(triggers[0]) + "\n" + rest)
      case (None, _) => None
      case (_, None) =>
        assert forall k :: 1 <= k < |triggers| ==> triggers[k] == triggers[1..][k - 1];
        None
  }

  /** One line "  • {condition}" per hold condition. */
  function HoldLines(conditions: seq<Value>): (r: string)
    ensures |conditions| == 0 <==> r == ""
  {
    if |conditions| == 0 then "" else "  • " + Show(conditions[0]) + "\n" + HoldLines(conditions[1..])
  }

  /** "  📈 저항선:" and the resistance levels that are not 0, the second one first. */
  function ResistanceLines(primary: real, secondary: real): string
  {
    if primary != 0.0 || secondary != 0.0 then
      "  📈 저항선:\n"
      + (if secondary != 0.0 then "    • 2차: " + Amount(secondary) + "원\n" else "")
      + (if primary != 0.0 then "    • 1차: " + Amount(primary) + "원\n" else "")
    else ""
  }

  /** "  📉 지지선:" and the support levels that are not 0, the first one first. */
  function SupportLines(primary: real, secondary: real): string
  {
    if primary != 0.0 || secondary != 0.0 then
      "  📉 지지선:\n"
      + (if primary != 0.0 then "    • 1차: " + Amount(primary) + "원\n" else "")
      + (if secondary != 0.0 then "    • 2차: " + Amount(secondary) + "원\n" else "")
    else ""
  }

  /** The key-levels block: empty when absent, `None` when it is something without `get`. */
  function KeyLevelsBlock(levels: Value, price: real): (r: Option<string>)
    ensures !Truthy(levels) ==> r == Some("")
    ensures r.None? <==> Truthy(levels) && !levels.Dict?
  {
    if !Truthy(levels) then Some("")
    else if !levels.Dict? then None
    else
      var g := levels.fields;
      var volume := Get(g, "volume_baseline", Str(""));
      Some("💰 핵심 가격대:\n"
        + ResistanceLines(ParsePriceValue(Get(g, "primary_resistance", Int(0))), ParsePriceValue(Get(g, "secondary_resistance", Int(0))))
        + "  ━━ 현재가: " + Amount(price) + "원 ━━\n"
        + SupportLines(ParsePriceValue(Get(g, "primary_support", Int(0))), ParsePriceValue(Get(g, "secondary_support", Int(0))))
        + (if Truthy(volume) then "  📊 거래량 기준: " + Show(volume) + "\n" else "")
        + "\n")
  }

  /**
   * The sell-signal block: empty for no triggers; otherwise the heading and one
   * line per element, `None` exactly when the value is not iterable or an item
   * of a list has no emoji.
   */
  function TriggersBlock(triggers: Value): (r: Option<string>)
    ensures !Truthy(triggers) ==> r == Some("")
    ensures Truthy(triggers) ==> (r.Some? <==>
      triggers.Str? || triggers.Dict? || (triggers.List? && forall k :: 0 <= k < |triggers.items| ==> TriggerEmoji(triggers.items[k]).Some?))
    ensures Truthy(triggers) && r.Some? ==> StartsWith(r.value, "🔔 매도 시그널:\n")
  {
    if !Truthy(triggers) then Some("")
    else match Elements(triggers)
      case None => None
      case Some(items) =>
        TextsHaveEmoji(triggers);
        match TriggerLines(items)
        case None => None
        case Some(lines) =>
          PrefixOfConcat("🔔 매도 시그널:\n", lines + "\n");
          assert "🔔 매도 시그널:\n" + lines + "\n" == "🔔 매도 시그널:\n" + (lines + "\n");
          Some("🔔 매도 시그널:\n" + lines + "\n")
  }

  /**
   * The hold-condition block: empty for no conditions; otherwise the heading and
   * one line per element, `None` exactly when the value is not iterable.
   */
  function HoldBlock(conditions: Value): (r: Option<string>)
    ensures !Truthy(conditions) ==> r == Some("")
    ensures Truthy(conditions) ==> (r.Some? <==> conditions.List? || conditions.Str? || conditions.Dict?)
    ensures Truthy(conditions) && r.Some? ==> StartsWith(r.value, "✋ 보유 지속 조건:\n") && HoldLines(Elements(conditions).value) != ""
  {
    if !Truthy(conditions) then Some("")
    else match Elements(conditions)
      case None => None
      case Some(items) =>
        PrefixOfConcat("✋ 보유 지속 조건:\n", HoldLines(items) + "\n");
        assert "✋ 보유 지속 조건:\n" + HoldLines(items) + "\n" == "✋ 보유 지속 조건:\n" + (HoldLines(items) + "\n");
        Some("✋ 보유 지속 조건:\n" + HoldLines(items) + "\n")
  }

  /** The trading-scenario section: present only for a non-empty object, `None` where formatting raises. */
  function ScenarioSection(scenarios: Value, price: real): (r: Option<string>)
    ensures !(Truthy(scenarios) && scenarios.Dict?) ==> r == Some("")
    ensures r.Some? && r.value != "" ==> StartsWith(r.value, "\n" + SectionRule + "\n📋 매매 시나리오\n")
  {
    if !(Truthy(scenarios) && scenarios.Dict?) then Some("")
    else
      var f := scenarios.fields;
      var context := Get(f, "portfolio_context", Str(""));
      match (KeyLevelsBlock(Get(f, "key_levels", Dict(map[])), price), TriggersBlock(Get(f, "sell_triggers", List([]))), HoldBlock(Get(f, "hold_conditions", List([]))))
      case (Some(levels), Some(triggers), Some(holds)) =>
        var head := "\n" + SectionRule + "\n📋 매매 시나리오\n";
        var tail := SectionRule + "\n\n" + levels + triggers + holds
          + (if Truthy(context) then "💼 포트폴리오 관점:\n  " + Show(context) + "\n" else "");
        PrefixOfConcat(head, tail);
        Some(head + tail)
      case _ => None
  }

  lemma PrefixOfConcat(head: string, tail: string)
    ensures StartsWith(head + tail, head)
  {
    assert (head + tail)[..|head|] == head;
  }

  /** The first lines of a buy notice: who was bought, at what price, with which target and stop. */
  function BuyHeader(ticker: string, name: string, price: real, target: string, stop: string): (h: string)
    ensures StartsWith(h, BuyTitle(ticker, name))
  {
    var rest := "매수가: " + Amount(price) + "원\n" + "목표가: " + target + "원\n" + "손절가: " + stop + "원\n";
    PrefixOfConcat(BuyTitle(ticker, name), rest);
    BuyTitle(ticker, name) + rest
  }

  /** The first line of a buy notice. */
  function BuyTitle(ticker: string, name: string): string
  {
    "📈 신규 매수: " + name + "(" + ticker + ")\n"
  }

  /** A text starting with a text that starts with `q` starts with `q`. */
  lemma StartsWithStartsWith(s: string, p: string, q: string)
    requires StartsWith(s, p) && StartsWith(p, q)
    ensures StartsWith(s, q)
  {
    assert s[..|q|] == s[..|p|][..|q|];
  }

  /**
   * The message `buy_stock` queues, `None` where building it raises: a target or
   * stop that is not a number cannot be formatted with `:,.0f`, and a scenario
   * section whose parts have the wrong shape cannot be walked.
   */
  function BuyMessage(ticker: string, name: string, price: real, scenario: map<string, Value>, rankMsg: string): (m: Option<string>)
    ensures m.Some? <==>
      AmountOf(Get(scenario, "target_price", Int(0))).Some? && AmountOf(Get(scenario, "stop_loss", Int(0))).Some?
      && ScenarioSection(Get(scenario, "trading_scenarios", Dict(map[])), price).Some?
    ensures m.Some? ==> StartsWith(m.value, BuyHeader(ticker, name, price,
      AmountOf(Get(scenario, "target_price", Int(0))).value, AmountOf(Get(scenario, "stop_loss", Int(0))).value))
    ensures m.Some? ==> StartsWith(m.value, BuyTitle(ticker, name))
  {
    BuyNotice(ticker, name, price, AmountOf(Get(scenario, "target_price", Int(0))), AmountOf(Get(scenario, "stop_loss", Int(0))),
      ScenarioSection(Get(scenario, "trading_scenarios", Dict(map[])), price), scenario, rankMsg)
  }

  /** The buy notice from its already formatted parts, `None` when one of them could not be formatted. */
  function BuyNotice(ticker: string, name: string, price: real, target: Option<string>, stop: Option<string>, section: Option<string>,
                     scenario: map<string, Value>, rankMsg: string): (m: Option<string>)
    ensures m.Some? <==> target.Some? && stop.Some? && section.Some?
    ensures m.Some? ==> StartsWith(m.value, BuyHeader(ticker, name, price, target.value, stop.value))
    ensures m.Some? ==> StartsWith(m.value, BuyTitle(ticker, name))
  {
    if target.Some? && stop.Some? && section.Some? then
      var head := BuyHeader(ticker, name, price, target.value, stop.value);
      var tail := BuyDetails(scenario, rankMsg, section.value);
      PrefixOfConcat(head, tail);
      StartsWithStartsWith(head + tail, head, BuyTitle(ticker, name));
      Some(head + tail)
    else None
  }

  /** The lines after the header: horizon, sector, the optional valuation, outlook and ranking lines, the rationale and the scenario section. */
  function BuyDetails(scenario: map<string, Value>, rankMsg: string, section: string): string
  {
    var valuation := Get(scenario, "valuation_analysis", Null);
    var outlook := Get(scenario, "sector_outlook", Null);
    "투자기간: " + Show(Get(scenario, "investment_period", Str("단기"))) + "\n"
      + "산업군: " + Show(Get(scenario, "sector", Str("알 수 없음"))) + "\n"
      + (if Truthy(valuation) then "밸류에이션: " + Show(valuation) + "\n" else "")
      + (if Truthy(outlook) then "업종 전망: " + Show(outlook) + "\n" else "")
      + (if rankMsg != "" then "거래대금 분석: " + rankMsg + "\n" else "")
      + "투자근거: " + Show(Get(scenario, "rationale", Str("정보 없음"))) + "\n"
      + section
  }

  // ---------------------------------------------------------------------------
  // The sell notice
  // ---------------------------------------------------------------------------

  /** 🔺 for a gain, 🔻 for a loss, ➖ for neither. */
  function ProfitArrow(profit: real): (a: string)
    ensures a == "🔺" <==> profit > 0.0
    ensures a == "🔻" <==> profit < 0.0
  {
    if profit > 0.0 then "🔺" else if profit < 0.0 then "🔻" else "➖"
  }

  /** The message `sell_stock` queues. */
  function SellMessage(ticker: string, name: string, buy: real, sell: real, profit: real, days: int, reason: string): (m: string)
    ensures StartsWith(m, "📉 매도: " + name + "(" + ticker + ")\n")
  {
    var head := "📉 매도: " + name + "(" + ticker + ")\n";
    var tail := "매수가: " + Amount(buy) + "원\n" + "매도가: " + Amount(sell) + "원\n"
      + "수익률: " + ProfitArrow(profit) + " " + Fixed2(Abs(profit)) + "%\n"
      + "보유기간: " + IntToString(days) + "일\n" + "매도이유: " + reason;
    PrefixOfConcat(head, tail);
    head + tail
  }

  // ---------------------------------------------------------------------------
  // Splitting a long message
  // ---------------------------------------------------------------------------

  const MaxMessageLength: nat := 4096

  /** Each line followed by a line break. */
  function JoinLines(lines: seq<string>): string
  {
    if |lines| == 0 then "" else lines[0] + "\n" + JoinLines(lines[1..])
  }

  /** The line-terminated lines of the text `'\n'.join(lines)`. */
  lemma {:induction false} JoinLinesOfJoin(lines: seq<string>)
    requires |lines| >= 1
    ensures JoinLines(lines) == Join(lines, "\n") + "\n"
    decreases |lines|
  {
    if |lines| > 1 {
      JoinLinesOfJoin(lines[1..]);
    }
  }

  /**
   * The parts `current_part` collects, before `rstrip`: a line joins the pending
   * part while the part stays within the limit, otherwise the pending part is
   * closed and the line starts the next one.
   */
  function Chunks(lines: seq<string>, pending: string): (r: seq<string>)
    decreases |lines|
  {
    if |lines| == 0 then (if pending != "" then [pending] else [])
    else
      var line := lines[0];
      if |pending| + |line| + 1 <= MaxMessageLength then Chunks(lines[1..], pending + line + "\n")
      else (if pending != "" then [pending] else []) + Chunks(lines[1..], line + "\n")
  }

  /** `s.rstrip()` of each part. */
  function RStripEach(parts: seq<string>): (r: seq<string>)
    ensures |r| == |parts|
  {
    if |parts| == 0 then [] else [RStrip(parts[0])] + RStripEach(parts[1..])
  }

  lemma {:induction false} RStripEachAt(parts: seq<string>, k: nat)
    requires k < |parts|
    ensures RStripEach(parts)[k] == RStrip(parts[k])
    decreases k
  {
    if k > 0 { RStripEachAt(parts[1..], k - 1); }
  }

  /** The parts a message longer than the limit is sent in. */
  function Parts(message: string): seq<string>
  {
    RStripEach(Chunks(Split(message, '\n'), ""))
  }

  /** A part fits when it is within the limit or is one single line that alone exceeds it. */
  predicate Fits(part: string)
  {
    |part| <= MaxMessageLength || (|part| > 0 && part[|part| - 1] == '\n' && '\n' !in part[..|part| - 1])
  }

  /** Nothing is lost or reordered: the parts, put back together, are the pending text and the lines in order. */
  lemma {:induction false} ChunksConcat(lines: seq<string>, pending: string)
    ensures Concat(Chunks(lines, pending)) == pending + JoinLines(lines)
    decreases |lines|
  {
    if |lines| == 0 {
    } else {
      var line := lines[0];
      if |pending| + |line| + 1 <= MaxMessageLength {
        ChunksConcat(lines[1..], pending + line + "\n");
      } else {
        ChunksConcat(lines[1..], line + "\n");
        var first := if pending != "" then [pending] else [];
        ConcatAppend(first, Chunks(lines[1..], line + "\n"));
      }
    }
  }

  /** Every part is non-empty and fits, provided the lines hold no line break. */
  lemma {:induction false} ChunksFit(lines: seq<string>, pending: string)
    requires forall k :: 0 <= k < |lines| ==> '\n' !in lines[k]
    requires pending == "" || Fits(pending)
    ensures forall k :: 0 <= k < |Chunks(lines, pending)| ==> Chunks(lines, pending)[k] != "" && Fits(Chunks(lines, pending)[k])
    decreases |lines|
  {
    if |lines| > 0 {
      var line := lines[0];
      assert forall k :: 0 <= k < |lines[1..]| ==> '\n' !in lines[1..][k] by {
        forall k | 0 <= k < |lines[1..]| ensures '\n' !in lines[1..][k] { assert lines[1..][k] == lines[k + 1]; }
      }
      var next := line + "\n";
      assert next[..|next| - 1] == line;
      if |pending| + |line| + 1 <= MaxMessageLength {
        ChunksFit(lines[1..], pending + line + "\n");
      } else {
        ChunksFit(lines[1..], next);
      }
    }
  }

  /**
   * `send_telegram_message`'s split: cut at line breaks, the parts put back
   * together are the message followed by one line break, and each part, after
   * `rstrip`, is within 4096 characters or lies inside one single line.
   */
  lemma PartsOfMessage(message: string)
    ensures var chunks := Chunks(Split(message, '\n'), "");
      Concat(chunks) == message + "\n" &&
      Parts(message) == RStripEach(chunks) &&
      forall k :: 0 <= k < |chunks| ==> chunks[k] != "" && Fits(chunks[k])
    ensures forall k :: 0 <= k < |Parts(message)| ==> |Parts(message)[k]| <= MaxMessageLength || '\n' !in Parts(message)[k]
  {
    var lines := Split(message, '\n');
    var chunks := Chunks(lines, "");
    ChunksConcat(lines, "");
    JoinLinesOfJoin(lines);
    ChunksFit(lines, "");
    forall k | 0 <= k < |Parts(message)|
      ensures |Parts(message)[k]| <= MaxMessageLength || '\n' !in Parts(message)[k]
    {
      RStripEachAt(chunks, k);
      StrippedChunkFits(chunks[k]);
    }
  }

  /** A fitting part still fits after `rstrip`; a long one loses its final line break and keeps no other. */
  lemma StrippedChunkFits(c: string)
    requires c != "" && Fits(c)
    ensures |RStrip(c)| <= MaxMessageLength || '\n' !in RStrip(c)
  {
    var p := RStrip(c);
    if |c| > MaxMessageLength {
      assert IsSpace(c[|c| - 1]);
      assert |p| < |c| by {
        if |p| == |c| { }
      }
      assert p == c[..|c| - 1][..|p|];
    }
  }

  /** "[i/n]\n" in front of each part, counting from `i`. */
  function Numbered(parts: seq<string>, i: nat, n: nat): (r: seq<string>)
    ensures |r| == |parts|
  {
    if |parts| == 0 then []
    else ["[" + NatToString(i) + "/" + NatToString(n) + "]\n" + parts[0]] + Numbered(parts[1..], i + 1, n)
  }

  /** Part `k` carries the header "[i+k/n]" and then the part itself. */
  lemma {:induction false} NumberedHeaders(parts: seq<string>, i: nat, n: nat)
    ensures forall k :: 0 <= k < |parts| ==> Numbered(parts, i, n)[k] == "[" + NatToString(i + k) + "/" + NatToString(n) + "]\n" + parts[k]
    decreases |parts|
  {
    if |parts| > 0 {
      NumberedHeaders(parts[1..], i + 1, n);
      forall k | 1 <= k < |parts|
        ensures Numbered(parts, i, n)[k] == "[" + NatToString(i + k) + "/" + NatToString(n) + "]\n" + parts[k]
      {
        assert parts[1..][k - 1] == parts[k];
      }
    }
  }

  /** The texts sent for one queued message: the message itself when short enough, else its numbered parts. */
  function Outgoing(message: string): (r: seq<string>)
  {
    if |message| <= MaxMessageLength then [message] else Numbered(Parts(message), 1, |Parts(message)|)
  }

  /** A line that does not fit closes the pending part, if any, and starts the next. */
  lemma ChunksClose(lines: seq<string>, pending: string)
    requires |lines| > 0 && |pending| + |lines[0]| + 1 > MaxMessageLength
    ensures Chunks(lines, pending) == (if pending != "" then [pending] else []) + Chunks(lines[1..], lines[0] + "\n")
  {
  }

  /** The loop of the splitter, one line at a time. */
  method SplitMessage(message: string) returns (parts: seq<string>)
    ensures parts == Parts(message)
  {
    var lines := Split(message, '\n');
    ghost var target := Chunks(lines, "");
    var raw: seq<string> := [];
    var current := "";
    var i := 0;
    while i < |lines|
      invariant 0 <= i <= |lines|
      invariant raw + Chunks(lines[i..], current) == target
    {
      var line := lines[i];
      if |current| + |line| + 1 <= MaxMessageLength {
        assert raw + Chunks(lines[i + 1..], current + line + "\n") == target by {
          assert lines[i..][0] == line && lines[i..][1..] == lines[i + 1..];
        }
        current := current + line + "\n";
      } else {
        assert (raw + (if current != "" then [current] else [])) + Chunks(lines[i + 1..], line + "\n") == target by {
          assert lines[i..][0] == line && lines[i..][1..] == lines[i + 1..];
          ChunksClose(lines[i..], current);
          var closed := if current != "" then [current] else [];
          assert raw + (closed + Chunks(lines[i + 1..], line + "\n")) == (raw + closed) + Chunks(lines[i + 1..], line + "\n");
        }
        if current != "" {
          raw := raw + [current];
        } else {
          assert raw + [] == raw;
        }
        current := line + "\n";
      }
      i := i + 1;
    }
    assert lines[i..] == [];
    if current != "" {
      raw := raw + [current];
    } else {
      assert raw + [] == raw;
    }
    assert raw == Chunks(lines, "");
    parts := RStripAll(raw);
  }

  /** `rstrip` of each collected part. */
  method RStripAll(raw: seq<string>) returns (parts: seq<string>)
    ensures parts == RStripEach(raw)
  {
    parts := [];
    var j := 0;
    while j < |raw|
      invariant 0 <= j <= |raw|
      invariant parts == RStripEach(raw[..j])
    {
      RStripEachSnoc(raw[..j], raw[j]);
      TakeNext(raw, j);
      parts := parts + [RStrip(raw[j])];
      j := j + 1;
    }
    assert raw[..j] == raw;
  }

  lemma {:induction false} RStripEachSnoc(raw: seq<string>, last: string)
    ensures RStripEach(raw + [last]) == RStripEach(raw) + [RStrip(last)]
    decreases |raw|
  {
    if |raw| == 0 {
      assert raw + [last] == [last];
    } else {
      assert (raw + [last])[1..] == raw[1..] + [last];
      RStripEachSnoc(raw[1..], last);
    }
  }
}
