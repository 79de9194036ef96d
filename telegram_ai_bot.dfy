/**
 * The conversational bot of telegram_ai_bot.py, in its deterministic parts: the
 * stock lookup from a code or a name, the conversation contexts and their
 * expiry, the channel-subscription decision, the text of a finished report and
 * the reply to an error.
 *
 * The clock is an input, in microseconds, as `datetime` subtracts; the chat
 * service's answer to a membership query is an input too.
 */
module TelegramAiBot {
  import opened Wrappers
  import opened Text
  import PyValue

  // ---------------------------------------------------------------- stock lookup

  /** `stock_name_map` as loaded from `stock_map.json`: JSON null, something other than an object, or an object's entries in file order. */
  datatype NameMap = NullMap | NotDict | Items(items: seq<(string, PyValue.Value)>)

  /** The three-part answer of `get_stock_code`: code, name and error message, `Null` standing for `None`. */
  datatype Lookup = Lookup(code: PyValue.Value, name: PyValue.Value, error: Option<string>)

  const EmptyInput := "종목명 또는 코드를 입력해주세요."
  const NotLoaded := "시스템 오류: 종목 데이터가 로드되지 않았습니다."
  const BadFormat := "시스템 오류: 종목 데이터 형식이 잘못되었습니다."
  const UnknownCode := "해당 종목 코드에 대한 정보가 없습니다. 코드가 정확한지 확인해주세요."

  /** A failed lookup: `(None, None, message)`. */
  function Failure(message: string): Lookup
  {
    Lookup(PyValue.Null, PyValue.Null, Some(message))
  }

  /** `re.match(r'^\d{6}$', s)` on a stripped input: exactly six digits. */
  predicate SixDigits(s: string)
  {
    |s| == 6 && AllDigits(s)
  }

  /** The position of the entry whose name is `key`. */
  function KeyIndex(items: seq<(string, PyValue.Value)>, key: string): (k: Option<nat>)
    ensures k.Some? ==> k.value < |items| && items[k.value].0 == key
    ensures k.None? ==> forall i :: 0 <= i < |items| ==> items[i].0 != key
  {
    if |items| == 0 then None
    else if items[0].0 == key then Some(0)
    else match KeyIndex(items[1..], key)
      case Some(k) => Some(k + 1)
      case None => None
  }

  /** Whether an entry is a candidate for the substring search: a string code and a name containing the query, ignoring case. */
  predicate Candidate(e: (string, PyValue.Value), query: string)
  {
    e.1.Str? && Contains(Lower(e.0), Lower(query))
  }

  /** The candidates of the substring search, as `(name, code)` pairs in the map's order. */
  function Matches(items: seq<(string, PyValue.Value)>, query: string): (m: seq<(string, string)>)
    ensures |m| <= |items|
    ensures forall p :: p in m <==> (p.0, PyValue.Str(p.1)) in items && Candidate((p.0, PyValue.Str(p.1)), query)
  {
    if |items| == 0 then []
    else
      var rest := Matches(items[1..], query);
      if Candidate(items[0], query) then [(items[0].0, items[0].1.s)] + rest else rest
  }

  /** The loop of the substring search, appending each candidate. */
  method FindMatches(items: seq<(string, PyValue.Value)>, query: string) returns (m: seq<(string, string)>)
    ensures m == Matches(items, query)
  {
    m := [];
    var i := |items|;
    while i > 0
      invariant 0 <= i <= |items|
      invariant m == Matches(items[i..], query)
    {
      i := i - 1;
      assert items[i..][1..] == items[i + 1..];
      if Candidate(items[i], query) {
        m := [(items[i].0, items[i].1.s)] + m;
      }
    }
  }

  /** The list of an ambiguous search: at most five "name (code)" lines, then how many more there were. */
  function MatchInfo(m: seq<(string, string)>): string
  {
    var shown := if |m| > 5 then m[..5] else m;
    Join(MatchLines(shown), "\n") + (if |m| > 5 then "\n... 외 " + IntToString(|m| - 5) + "개" else "")
  }

  function MatchLines(m: seq<(string, string)>): (r: seq<string>)
    ensures |r| == |m|
  {
    if |m| == 0 then [] else [m[0].0 + " (" + m[0].1 + ")"] + MatchLines(m[1..])
  }

  /**
   * `get_stock_code`: an empty input is refused; after stripping, six digits
   * are a code looked up in `stock_map`, an exact name gives its code, and
   * otherwise a single case-insensitive substring hit is taken. `None` is the
   * `AttributeError` when `stock_map` is neither null nor an object.
   */
  function StockCode(input: Option<string>, stockMap: PyValue.Value, nameMap: NameMap): (r: Option<Lookup>)
    ensures input.None? || input == Some("") ==> r == Some(Failure(EmptyInput))
    ensures r.None? ==> input.Some? && SixDigits(Strip(input.value))
  {
    if input.None? || input.value == "" then Some(Failure(EmptyInput))
    else
      var query := Strip(input.value);
      match nameMap
      case NullMap => Some(Failure(NotLoaded))
      case NotDict => Some(Failure(BadFormat))
      case Items(items) =>
        if SixDigits(query) then
          var codes := if stockMap.Null? then PyValue.Dict(map[]) else stockMap;
          if !codes.Dict? then None
          else
            var name := PyValue.Get(codes.fields, query, PyValue.Null);
            if PyValue.Truthy(name) then Some(Lookup(PyValue.Str(query), name, None))
            else Some(Lookup(PyValue.Str(query), PyValue.Str("종목_" + query), Some(UnknownCode)))
        else Some(ByName(query, items))
  }

  /** A query that is not a code: the entry of that exact name, else the substring search. */
  function ByName(query: string, items: seq<(string, PyValue.Value)>): Lookup
  {
    match KeyIndex(items, query)
    case Some(k) => Lookup(items[k].1, PyValue.Str(query), None)
    case None => Searched(query, Matches(items, query))
  }

  /** The name branch of `get_stock_code` is taken for every non-empty input that does not strip to six digits. */
  lemma NameBranch(input: string, stockMap: PyValue.Value, items: seq<(string, PyValue.Value)>)
    requires input != "" && !SixDigits(Strip(input))
    ensures StockCode(Some(input), stockMap, Items(items)) == Some(ByName(Strip(input), items))
  {
  }

  /** The end of the search: one hit is the answer, several are listed, none is reported. */
  function Searched(query: string, m: seq<(string, string)>): (r: Lookup)
    ensures r.error.None? <==> |m| == 1
    ensures |m| == 1 ==> r == Lookup(PyValue.Str(m[0].1), PyValue.Str(m[0].0), None)
  {
    if |m| == 1 then Lookup(PyValue.Str(m[0].1), PyValue.Str(m[0].0), None)
    else if |m| > 1 then Failure("'" + query + "'에 여러 일치하는 종목이 있습니다. 정확한 종목명이나 종목코드를 입력해주세요:\n" + MatchInfo(m))
    else Failure("'" + query + "'에 해당하는 종목을 찾을 수 없습니다. 정확한 종목명이나 종목코드를 입력해주세요.")
  }

  /** A six-digit input is taken as a code: known codes succeed with their name, unknown ones get the placeholder name and an error. */
  lemma CodeInput(code: string, stockMap: map<string, PyValue.Value>, items: seq<(string, PyValue.Value)>)
    requires SixDigits(code)
    ensures var r := StockCode(Some(code), PyValue.Dict(stockMap), Items(items));
      r.Some? && r.value.code == PyValue.Str(code) &&
      (r.value.error.None? <==> code in stockMap && PyValue.Truthy(stockMap[code])) &&
      (r.value.error.Some? ==> r.value.name == PyValue.Str("종목_" + code))
  {
    CodeStrips(code);
  }

  /** Six digits strip to themselves. */
  lemma CodeStrips(code: string)
    requires SixDigits(code)
    ensures Strip(code) == code
  {
    PyValue.StripNoSpace(code);
  }

  /** An input that is not a code and names an entry exactly gets that entry's code, whatever the substring search would find. */
  lemma ExactNameFirst(input: string, stockMap: PyValue.Value, items: seq<(string, PyValue.Value)>, k: nat)
    requires input != "" && !SixDigits(Strip(input))
    requires k < |items| && items[k].0 == Strip(input) && forall i :: 0 <= i < k ==> items[i].0 != Strip(input)
    ensures StockCode(Some(input), stockMap, Items(items)) == Some(Lookup(items[k].1, PyValue.Str(Strip(input)), None))
  {
    NameBranch(input, stockMap, items);
    KeyIndexFirst(items, Strip(input), k);
  }

  /** The key index is the first entry with the key. */
  lemma {:induction false} KeyIndexFirst(items: seq<(string, PyValue.Value)>, key: string, k: nat)
    requires k < |items| && items[k].0 == key && forall i :: 0 <= i < k ==> items[i].0 != key
    ensures KeyIndex(items, key) == Some(k)
  {
    if k > 0 {
      KeyIndexFirst(items[1..], key, k - 1);
    }
  }

  /** Without an exact name, the answer succeeds exactly when one string-coded name contains the query, ignoring case, and then it is that entry. */
  lemma SubstringSearch(input: string, stockMap: PyValue.Value, items: seq<(string, PyValue.Value)>)
    requires input != "" && !SixDigits(Strip(input))
    requires forall i :: 0 <= i < |items| ==> items[i].0 != Strip(input)
    ensures var r := StockCode(Some(input), stockMap, Items(items));
      r == Some(Searched(Strip(input), Matches(items, Strip(input)))) &&
      (r.value.error.None? <==> |Matches(items, Strip(input))| == 1)
  {
    NameBranch(input, stockMap, items);
    assert KeyIndex(items, Strip(input)).None?;
  }

  /**
   * An input of blanks passes the emptiness check, since that check comes
   * before stripping; the stripped query is then "", which every name
   * contains, so every entry with a string code is a hit.
   */
  lemma BlankInputMatchesAll(input: string, items: seq<(string, PyValue.Value)>)
    requires input != "" && AllSpace(input)
    ensures Strip(input) == ""
    ensures forall e :: e in items && e.1.Str? ==> Candidate(e, Strip(input))
  {
    StripAllSpace(input);
    forall e | e in items && e.1.Str? ensures Candidate(e, "") {
      assert OccursAt(Lower(e.0), Lower(""), 0);
      ContainsAt(Lower(e.0), Lower(""), 0);
    }
  }

  /** A string of blanks strips to "". */
  lemma StripAllSpace(s: string)
    requires AllSpace(s)
    ensures Strip(s) == ""
  {
    var r := LStrip(s);
    if |r| > 0 {
      assert false;
    }
  }

  // ---------------------------------------------------------------- conversation contexts

  /** One message of a conversation. */
  datatype HistoryItem = HistoryItem(role: string, content: string, timestamp: string)

  /** One hour, in microseconds. */
  const HourMicros := 3600000000

  /** The conversation kept per reply-able bot message: its history and when it was created and last updated. */
  class ConversationContext {
    var history: seq<HistoryItem>
    var createdAt: int
    var lastUpdated: int

    constructor (now: int)
      ensures history == [] && createdAt == now && lastUpdated == now
    {
      history := [];
      createdAt := now;
      lastUpdated := now;
    }

    /** `add_to_history`: exactly one entry more, at the end, and the context counts as updated now. */
    method AddToHistory(role: string, content: string, stamp: string, now: int)
      modifies this`history, this`lastUpdated
      ensures history == old(history) + [HistoryItem(role, content, stamp)]
      ensures lastUpdated == now
    {
      history := history + [HistoryItem(role, content, stamp)];
      lastUpdated := now;
    }

    /** `is_expired`: strictly more than `hours` since the last update. */
    predicate IsExpired(now: int, hours: int)
      reads this
    {
      now - lastUpdated > hours * HourMicros
    }
  }

  /** Adding to the history renews the context: right after it, it is not expired for any non-negative age limit. */
  lemma AddRenews(c: ConversationContext, now: int, hours: nat)
    requires c.lastUpdated == now
    ensures !c.IsExpired(now, hours)
  {
  }

  /** `ids` without the members of `dead`, in order. */
  function Without(ids: seq<int>, dead: set<int>): (r: seq<int>)
    ensures forall k :: k in r <==> k in ids && k !in dead
    ensures |r| <= |ids|
  {
    if |ids| == 0 then [] else (if ids[0] in dead then [] else [ids[0]]) + Without(ids[1..], dead)
  }

  /** Removing one more id after some is removing all of them at once. */
  lemma {:induction false} WithoutMore(ids: seq<int>, dead: set<int>, k: int)
    ensures Without(Without(ids, dead), {k}) == Without(ids, dead + {k})
    decreases |ids|
  {
    if |ids| > 0 {
      WithoutMore(ids[1..], dead, k);
      var w := Without(ids, dead);
      if ids[0] !in dead {
        assert w[0] == ids[0] && w[1..] == Without(ids[1..], dead);
      } else {
        assert w == Without(ids[1..], dead);
      }
    }
  }

  /** Removing nothing keeps every id. */
  lemma {:induction false} WithoutNone(ids: seq<int>)
    ensures Without(ids, {}) == ids
    decreases |ids|
  {
    if |ids| > 0 {
      WithoutNone(ids[1..]);
      assert ids == [ids[0]] + ids[1..];
    }
  }

  /** Nothing repeats in `ids`. */
  predicate Distinct(ids: seq<int>)
  {
    forall i, j :: 0 <= i < j < |ids| ==> ids[i] != ids[j]
  }

  /** Filtering keeps a sequence free of repetitions. */
  lemma {:induction false} WithoutDistinct(ids: seq<int>, dead: set<int>)
    requires Distinct(ids)
    ensures Distinct(Without(ids, dead))
    decreases |ids|
  {
    if |ids| > 0 {
      WithoutDistinct(ids[1..], dead);
      assert ids[0] !in ids[1..];
    }
  }

  /**
   * The part of the bot that owns the conversation contexts: a dict keyed by
   * message id, whose iteration order is the order in which the ids were
   * first stored.
   */
  class ContextStore {
    var contexts: map<int, ConversationContext>
    var order: seq<int>

    /** The order lists each stored id once. */
    ghost predicate Valid()
      reads this
    {
      Distinct(order) && forall k :: k in order <==> k in contexts
    }

    constructor ()
      ensures Valid() && contexts == map[] && order == []
    {
      contexts := map[];
      order := [];
    }

    /** `conversation_contexts[id] = context`: a new id goes last; a stored one keeps its place and gets the new context. */
    method Put(id: int, context: ConversationContext)
      requires Valid()
      modifies this
      ensures Valid() && contexts == old(contexts)[id := context]
      ensures order == if id in old(contexts) then old(order) else old(order) + [id]
    {
      if id !in contexts {
        order := order + [id];
      }
      contexts := contexts[id := context];
    }

    /** The ids among `cs` whose context is older than 24 hours at `now`. */
    ghost function ExpiredIds(cs: map<int, ConversationContext>, now: int): set<int>
      reads cs.Values
    {
      set k | k in cs && cs[k].IsExpired(now, 24)
    }

    /** The first half of `cleanup_expired_contexts`: the expired ids, in the dict's order. */
    method ExpiredKeys(now: int) returns (expired: seq<int>)
      requires Valid()
      ensures forall k :: k in expired <==> k in ExpiredIds(contexts, now)
    {
      expired := [];
      var i := 0;
      while i < |order|
        invariant 0 <= i <= |order|
        invariant forall k :: k in expired <==> k in order[..i] && contexts[k].IsExpired(now, 24)
      {
        var id := order[i];
        assert id in order;
        assert order[..i + 1] == order[..i] + [id];
        if contexts[id].IsExpired(now, 24) {
          expired := expired + [id];
        }
        i := i + 1;
      }
      assert order[..i] == order;
    }

    /** The second half: `del` of each listed id; every other entry stays as it was and where it was. */
    method DeleteContexts(ids: seq<int>)
      requires Valid()
      modifies this
      ensures Valid()
      ensures forall k :: k in contexts <==> k in old(contexts) && k !in ids
      ensures forall k :: k in contexts ==> contexts[k] == old(contexts)[k]
      ensures order == Without(old(order), set k | k in ids)
    {
      ghost var removed: set<int> := {};
      WithoutNone(order);
      var j := 0;
      while j < |ids|
        invariant 0 <= j <= |ids|
        invariant removed == set n | 0 <= n < j :: ids[n]
        invariant order == Without(old(order), removed) && Distinct(order)
        invariant forall k :: k in contexts <==> k in old(contexts) && k !in removed
        invariant forall k :: k in contexts ==> contexts[k] == old(contexts)[k]
      {
        var k := ids[j];
        ghost var prior := order;
        order := Without(order, {k});
        contexts := contexts - {k};
        assert order == Without(old(order), removed + {k}) && Distinct(order) by {
          WithoutMore(old(order), removed, k);
          WithoutDistinct(prior, {k});
        }
        removed := removed + {k};
        assert removed == set n | 0 <= n < j + 1 :: ids[n];
        j := j + 1;
      }
      assert removed == set k | k in ids;
    }

    /** `cleanup_expired_contexts`: the contexts older than 24 hours are dropped, the others keep their place. */
    method CleanupExpiredContexts(now: int)
      requires Valid()
      modifies this
      ensures Valid()
      ensures forall k :: k in contexts <==> k in old(contexts) && !old(contexts)[k].IsExpired(now, 24)
      ensures forall k :: k in contexts ==> contexts[k] == old(contexts)[k]
      ensures order == Without(old(order), ExpiredIds(old(contexts), now))
    {
      var expired := ExpiredKeys(now);
      ghost var dead := ExpiredIds(contexts, now);
      assert forall k :: k in expired <==> k in dead;
      assert (set k | k in expired) == dead;
      DeleteContexts(expired);
    }
  }

  // ---------------------------------------------------------------- channel subscription

  /** The chat service's answer to `get_chat_member`: a status and the `is_owner` flag, or an exception. */
  datatype Membership = Member(status: string, isOwner: bool) | LookupError

  /** `TELEGRAM_ADMIN_IDS` parsed: every non-blank comma-separated part as an integer; `None` when one of them is not, which raises. */
  function AdminIds(text: string): (r: Option<seq<int>>)
  {
    ParseIds(Split(text, ','))
  }

  function ParseIds(parts: seq<string>): (r: Option<seq<int>>)
    ensures r.Some? ==> forall i :: i in r.value ==> exists p :: p in parts && PyValue.ParseInt(p) == Some(i)
  {
    if |parts| == 0 then Some([])
    else
      var rest := ParseIds(parts[1..]);
      if Strip(parts[0]) == "" then rest
      else match PyValue.ParseInt(parts[0])
        case None => None
        case Some(n) => if rest.Some? then Some([n] + rest.value) else None
  }

  /** The statuses that count as subscribed. */
  predicate ValidStatus(status: string)
  {
    status in ["member", "administrator", "creator", "owner"]
  }

  /**
   * `check_channel_subscription`: everyone passes without a channel; an
   * administrator passes without a query; otherwise the member must hold a
   * valid status or own the channel. A malformed administrator list or a
   * failed query refuses.
   */
  function IsSubscribed(channelId: int, adminText: string, userId: int, member: Membership): (ok: bool)
    ensures channelId == 0 ==> ok
    ensures channelId != 0 && AdminIds(adminText).None? ==> !ok
    ensures channelId != 0 && AdminIds(adminText).Some? && userId in AdminIds(adminText).value ==> ok
    ensures channelId != 0 && AdminIds(adminText).Some? && userId !in AdminIds(adminText).value ==>
      (ok <==> member.Member? && (ValidStatus(member.status) || member.isOwner))
  {
    if channelId == 0 then true
    else match AdminIds(adminText)
      case None => false
      case Some(ids) =>
        if userId in ids then true
        else match member
          case LookupError => false
          case Member(status, isOwner) => if status == "creator" || isOwner then true else ValidStatus(status)
  }

  // ---------------------------------------------------------------- results and errors

  const MaxResult := 4000
  const Omitted := "...(이하 생략)"

  /** The result text of `send_report_result`: the first 4000 characters and a marker when it is longer, else all of it. */
  function Summary(result: string): (s: string)
    ensures |result| <= MaxResult ==> s == result
    ensures |result| > MaxResult ==> |s| == MaxResult + |Omitted| && s[..MaxResult] == result[..MaxResult] && EndsWith(s, Omitted)
  {
    if |result| > MaxResult then result[..MaxResult] + Omitted else result
  }

  /**
   * The message `send_report_result` sends as text: none when the report
   * file goes out as a document, the summary of a non-empty result, else a
   * not-found notice.
   */
  function ResultMessage(company: string, code: string, htmlAvailable: bool, result: string): (m: Option<string>)
    ensures m.None? <==> htmlAvailable
    ensures !htmlAvailable && result != "" ==> m == Some("✅ " + company + " (" + code + ") 분석 결과:\n\n" + Summary(result))
  {
    if htmlAvailable then None
    else if result != "" then Some("✅ " + company + " (" + code + ") 분석 결과:\n\n" + Summary(result))
    else Some("⚠️ " + company + " (" + code + ") 분석 결과를 찾을 수 없습니다.")
  }

  const TimedOutReply := "요청 처리 시간이 초과되었습니다. 네트워크 상태를 확인하고 다시 시도해주세요."
  const PermissionReply := "봇이 메시지를 보낼 권한이 없습니다. 그룹 설정을 확인해주세요."
  const GenericReply := "죄송합니다. 오류가 발생했습니다. 다시 시도해주세요."

  /** `handle_error`: a timeout first, then a permission problem, recognised in the lower-cased error text; anything else gets the generic apology. */
  function ErrorReply(error: string): (m: string)
    ensures m == TimedOutReply <==> Contains(Lower(error), "timed out")
    ensures m == PermissionReply <==> !Contains(Lower(error), "timed out") && Contains(Lower(error), "permission")
    ensures m in {TimedOutReply, PermissionReply, GenericReply}
  {
    if Contains(Lower(error), "timed out") then TimedOutReply
    else if Contains(Lower(error), "permission") then PermissionReply
    else GenericReply
  }
}
