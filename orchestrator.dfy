/**
 * stock_analysis_orchestrator.py: the deterministic steps around the trigger
 * batch. It reads the tickers the batch selected, de-duplicated in the order
 * they were first seen, and builds the alert message sent to the channel. The
 * batch process, the report generation, the PDF conversion and the sends
 * themselves are not modelled; their outcomes are parameters.
 */
module Orchestrator {
  import opened Wrappers
  import opened Text
  import opened Format
  import opened PyValue

  /** A stock entry of the batch results: a JSON object with a `code`. */
  type Stock = d: map<string, Value> | "code" in d witness map["code" := Null]

  /** A selected ticker: the stock's code and `stock.get('name', '')`. */
  datatype Ticker = Ticker(code: Value, name: Value)

  function TickerOf(d: Stock): Ticker
  {
    Ticker(d["code"], Get(d, "name", Str("")))
  }

  /** The entries of one list that are objects with a `code`, in order. */
  function StockDicts(items: seq<Value>): (r: seq<Stock>)
    ensures forall d: Stock :: d in r <==> Dict(d) in items
    decreases |items|
  {
    if |items| == 0 then []
    else
      var init := items[..|items| - 1];
      var last := items[|items| - 1];
      assert items == init + [last];
      StockDicts(init) + (if last.Dict? && "code" in last.fields then [last.fields] else [])
  }

  /** Whether an entry of the results lists stocks: any list-valued entry except the metadata. */
  predicate Listed(entry: (string, Value))
  {
    entry.0 != "metadata" && entry.1.List?
  }

  /** Every stock of every listed entry, entry by entry in order. */
  function Candidates(results: seq<(string, Value)>): (r: seq<Stock>)
    ensures forall d: Stock :: d in r ==> exists i :: 0 <= i < |results| && Listed(results[i]) && Dict(d) in results[i].1.items
    decreases |results|
  {
    if |results| == 0 then []
    else
      var init := results[..|results| - 1];
      var last := results[|results| - 1];
      assert results == init + [last];
      Candidates(init) + (if Listed(last) then StockDicts(last.1.items) else [])
  }

  /** Each listed stock appears among the candidates. */
  lemma {:induction false} CandidatesCover(results: seq<(string, Value)>, i: nat, d: Stock) returns (k: nat)
    requires i < |results| && Listed(results[i]) && Dict(d) in results[i].1.items
    ensures k < |Candidates(results)| && Candidates(results)[k] == d
    decreases |results|
  {
    var init := results[..|results| - 1];
    var last := results[|results| - 1];
    assert results == init + [last];
    if i < |results| - 1 {
      assert init[i] == results[i];
      k := CandidatesCover(init, i, d);
    } else {
      var m := StockIndex(last.1.items, d);
      k := |Candidates(init)| + m;
    }
  }

  /** Where an object with a `code` sits among a list's stocks. */
  lemma {:induction false} StockIndex(items: seq<Value>, d: Stock) returns (k: nat)
    requires Dict(d) in items
    ensures k < |StockDicts(items)| && StockDicts(items)[k] == d
    decreases |items|
  {
    var init := items[..|items| - 1];
    var last := items[|items| - 1];
    assert items == init + [last];
    if Dict(d) in init {
      k := StockIndex(init, d);
    } else {
      k := |StockDicts(init)|;
    }
  }

  predicate AllHashable(cands: seq<Stock>)
  {
    forall k :: 0 <= k < |cands| ==> Hashable(cands[k]["code"])
  }

  /** No earlier candidate has the same code as candidate `k`. */
  predicate IsFirst(cands: seq<Stock>, k: nat)
    requires k < |cands| && AllHashable(cands)
  {
    forall j :: 0 <= j < k ==> KeyOf(cands[j]["code"]) != KeyOf(cands[k]["code"])
  }

  /** The tickers of the first `n` candidates that are the first with their code, in order. */
  function Firsts(cands: seq<Stock>, n: nat): (r: seq<Ticker>)
    requires n <= |cands| && AllHashable(cands)
    ensures |r| <= n
    decreases n
  {
    if n == 0 then []
    else Firsts(cands, n - 1) + (if IsFirst(cands, n - 1) then [TickerOf(cands[n - 1])] else [])
  }

  /** The codes of the first `n` candidates. */
  function CodesUpTo(cands: seq<Stock>, n: nat): set<Key>
    requires n <= |cands| && AllHashable(cands)
  {
    if n == 0 then {} else CodesUpTo(cands, n - 1) + {KeyOf(cands[n - 1]["code"])}
  }

  /** A code that none of the first `n` candidates has is not among their codes. */
  lemma {:induction false} CodeAbsent(cands: seq<Stock>, n: nat, x: Key)
    requires n <= |cands| && AllHashable(cands)
    requires forall j :: 0 <= j < n ==> KeyOf(cands[j]["code"]) != x
    ensures x !in CodesUpTo(cands, n)
    decreases n
  {
    if n > 0 {
      CodeAbsent(cands, n - 1, x);
    }
  }

  /** A code among the first `n` candidates' codes belongs to one of them. */
  lemma {:induction false} CodeIndex(cands: seq<Stock>, n: nat, x: Key) returns (j: nat)
    requires n <= |cands| && AllHashable(cands) && x in CodesUpTo(cands, n)
    ensures j < n && KeyOf(cands[j]["code"]) == x
    decreases n
  {
    if KeyOf(cands[n - 1]["code"]) == x {
      j := n - 1;
    } else {
      j := CodeIndex(cands, n - 1, x);
    }
  }

  /** No two tickers share a code. */
  predicate DistinctCodes(ts: seq<Ticker>)
    requires AllHashableCodes(ts)
  {
    forall i, j :: 0 <= i < j < |ts| ==> KeyOf(ts[i].code) != KeyOf(ts[j].code)
  }

  /** Each of the first `n` candidates' codes is among their codes. */
  lemma {:induction false} CodePresent(cands: seq<Stock>, n: nat, j: nat)
    requires j < n <= |cands| && AllHashable(cands)
    ensures KeyOf(cands[j]["code"]) in CodesUpTo(cands, n)
    decreases n
  {
    if j < n - 1 {
      CodePresent(cands, n - 1, j);
    }
  }

  predicate AllHashableCodes(ts: seq<Ticker>)
  {
    forall i :: 0 <= i < |ts| ==> Hashable(ts[i].code)
  }

  /** The codes of some tickers. */
  function TickerCodes(ts: seq<Ticker>): set<Key>
    requires AllHashableCodes(ts)
  {
    if |ts| == 0 then {} else TickerCodes(ts[..|ts| - 1]) + {KeyOf(ts[|ts| - 1].code)}
  }

  /** Each ticker's code is among the tickers' codes. */
  lemma {:induction false} TickerCodePresent(ts: seq<Ticker>, i: nat)
    requires i < |ts| && AllHashableCodes(ts)
    ensures KeyOf(ts[i].code) in TickerCodes(ts)
    decreases |ts|
  {
    if i < |ts| - 1 {
      assert ts[..|ts| - 1][i] == ts[i];
      TickerCodePresent(ts[..|ts| - 1], i);
    }
  }

  /** The ticker list's codes are exactly the candidates' codes, and none repeats. */
  lemma {:induction false} FirstsCodes(cands: seq<Stock>, n: nat)
    requires n <= |cands| && AllHashable(cands)
    ensures AllHashableCodes(Firsts(cands, n))
    ensures TickerCodes(Firsts(cands, n)) == CodesUpTo(cands, n)
    ensures DistinctCodes(Firsts(cands, n))
    decreases n
  {
    if n > 0 {
      FirstsCodes(cands, n - 1);
      if IsFirst(cands, n - 1) {
        FirstAdded(cands, n);
      } else {
        var j :| 0 <= j < n - 1 && KeyOf(cands[j]["code"]) == KeyOf(cands[n - 1]["code"]);
        CodePresent(cands, n - 1, j);
        assert Firsts(cands, n) == Firsts(cands, n - 1);
        assert CodesUpTo(cands, n) == CodesUpTo(cands, n - 1);
      }
    }
  }

  /** A candidate that is first with its code adds a code none of the earlier tickers has. */
  lemma FirstAdded(cands: seq<Stock>, n: nat)
    requires 0 < n <= |cands| && AllHashable(cands) && IsFirst(cands, n - 1)
    requires AllHashableCodes(Firsts(cands, n - 1))
    requires TickerCodes(Firsts(cands, n - 1)) == CodesUpTo(cands, n - 1)
    requires DistinctCodes(Firsts(cands, n - 1))
    ensures AllHashableCodes(Firsts(cands, n))
    ensures TickerCodes(Firsts(cands, n)) == CodesUpTo(cands, n)
    ensures DistinctCodes(Firsts(cands, n))
  {
    var prev := Firsts(cands, n - 1);
    var r := Firsts(cands, n);
    var key := KeyOf(cands[n - 1]["code"]);
    assert r == prev + [TickerOf(cands[n - 1])];
    assert r[..|r| - 1] == prev;
    CodeAbsent(cands, n - 1, key);
    forall i | 0 <= i < |prev|
      ensures KeyOf(prev[i].code) != key
    {
      TickerCodePresent(prev, i);
    }
  }

  /**
   * The ticker extraction: `None` when some code cannot go in a set (the
   * `TypeError` the batch run turns into an empty list), otherwise the tickers
   * of the candidates that come first with their code.
   */
  function Tickers(results: seq<(string, Value)>): (r: Option<seq<Ticker>>)
    ensures r.Some? <==> AllHashable(Candidates(results))
    ensures r.Some? ==> AllHashableCodes(r.value)
  {
    var cands := Candidates(results);
    if AllHashable(cands) then
      FirstsCodes(cands, |cands|);
      Some(Firsts(cands, |cands|))
    else None
  }

  /**
   * Every listed stock's code is among the tickers, no code appears twice, and
   * each ticker is the first stock listed with its code.
   */
  lemma TickersMeaning(results: seq<(string, Value)>)
    requires Tickers(results).Some?
    ensures var ts := Tickers(results).value;
      var cands := Candidates(results);
      TickerCodes(ts) == CodesUpTo(cands, |cands|)
      && DistinctCodes(ts)
  {
    var cands := Candidates(results);
    FirstsCodes(cands, |cands|);
  }

  /** A stock listed under any entry but the metadata contributes its code. */
  lemma ListedCodeSelected(results: seq<(string, Value)>, i: nat, d: Stock)
    requires i < |results| && Listed(results[i]) && Dict(d) in results[i].1.items
    requires Tickers(results).Some?
    ensures Hashable(d["code"]) && KeyOf(d["code"]) in TickerCodes(Tickers(results).value)
  {
    var k := CandidatesCover(results, i, d);
    TickersMeaning(results);
    var cands := Candidates(results);
    CodePresent(cands, |cands|, k);
  }

  /** Only the first `n` candidates matter to the first `n` tickers and codes. */
  lemma {:induction false} FirstsPrefix(a: seq<Stock>, b: seq<Stock>, n: nat)
    requires n <= |a| && AllHashable(a + b)
    ensures AllHashable(a)
    ensures Firsts(a + b, n) == Firsts(a, n) && CodesUpTo(a + b, n) == CodesUpTo(a, n)
    decreases n
  {
    assert forall k :: 0 <= k < |a| ==> a[k] == (a + b)[k];
    if n > 0 {
      FirstsPrefix(a, b, n - 1);
    }
  }

  /** One more candidate adds its ticker exactly when its code is new. */
  lemma NextCandidate(done: seq<Stock>, d: Stock)
    requires AllHashable(done) && Hashable(d["code"])
    ensures AllHashable(done + [d])
    ensures Firsts(done + [d], |done| + 1) == Firsts(done, |done|)
      + (if KeyOf(d["code"]) in CodesUpTo(done, |done|) then [] else [TickerOf(d)])
    ensures CodesUpTo(done + [d], |done| + 1) == CodesUpTo(done, |done|) + {KeyOf(d["code"])}
  {
    FirstIffNew(done, d);
    FirstsPrefix(done, [d], |done|);
    NextFirsts(done, d);
    NextCodes(done, d);
  }

  /** The tickers, one candidate further. */
  lemma NextFirsts(done: seq<Stock>, d: Stock)
    requires AllHashable(done + [d])
    ensures Firsts(done + [d], |done| + 1) == Firsts(done + [d], |done|)
      + (if IsFirst(done + [d], |done|) then [TickerOf(d)] else [])
  {
    assert (done + [d])[|done|] == d;
  }

  /** The codes, one candidate further. */
  lemma NextCodes(done: seq<Stock>, d: Stock)
    requires AllHashable(done + [d]) && Hashable(d["code"])
    ensures CodesUpTo(done + [d], |done| + 1) == CodesUpTo(done + [d], |done|) + {KeyOf(d["code"])}
  {
    assert (done + [d])[|done|] == d;
  }

  /** The new candidate is the first with its code exactly when no earlier one has it. */
  lemma FirstIffNew(done: seq<Stock>, d: Stock)
    requires AllHashable(done) && Hashable(d["code"])
    ensures AllHashable(done + [d])
    ensures IsFirst(done + [d], |done|) <==> KeyOf(d["code"]) !in CodesUpTo(done, |done|)
  {
    var all := done + [d];
    assert forall k :: 0 <= k < |done| ==> all[k] == done[k];
    assert all[|done|] == d;
    var key := KeyOf(d["code"]);
    if key in CodesUpTo(done, |done|) {
      var j := CodeIndex(done, |done|, key);
      assert KeyOf(all[j]["code"]) == key;
    } else {
      forall j | 0 <= j < |done|
        ensures KeyOf(all[j]["code"]) != key
      {
        CodePresent(done, |done|, j);
      }
    }
  }

  /** A list's stocks, one item further. */
  lemma StockDictsNext(items: seq<Value>, k: nat)
    requires k < |items|
    ensures StockDicts(items[..k + 1]) == StockDicts(items[..k])
      + (if items[k].Dict? && "code" in items[k].fields then [items[k].fields] else [])
  {
    assert items[..k + 1][..k] == items[..k];
  }

  /** The candidates, one entry further. */
  lemma CandidatesNext(results: seq<(string, Value)>, i: nat)
    requires i < |results|
    ensures Candidates(results[..i + 1]) == Candidates(results[..i])
      + (if Listed(results[i]) then StockDicts(results[i].1.items) else [])
  {
    assert results[..i + 1][..i] == results[..i];
  }

  /** The candidates of the first `n` entries come first among all the candidates. */
  lemma {:induction false} CandidatesPrefix(results: seq<(string, Value)>, n: nat)
    requires n <= |results|
    ensures |Candidates(results[..n])| <= |Candidates(results)|
    ensures Candidates(results[..n]) == Candidates(results)[..|Candidates(results[..n])|]
    decreases |results|
  {
    if n < |results| {
      var init := results[..|results| - 1];
      assert results[..n] == init[..n];
      CandidatesPrefix(init, n);
      assert results == init + [results[|results| - 1]];
    } else {
      assert results[..n] == results;
    }
  }

  /** A code a set cannot hold anywhere among a prefix of the candidates is one among them all. */
  lemma UnhashableInPrefix(results: seq<(string, Value)>, n: nat)
    requires n <= |results| && !AllHashable(Candidates(results[..n]))
    ensures !AllHashable(Candidates(results))
  {
    CandidatesPrefix(results, n);
    var pre := Candidates(results[..n]);
    var k :| 0 <= k < |pre| && !Hashable(pre[k]["code"]);
    assert Candidates(results)[k] == pre[k];
  }

  /**
   * The extraction loop of `run_trigger_batch`: every list-valued entry but
   * the metadata, every object in it with a `code`, each code kept once in a
   * set of those seen. A code the set cannot hold raises, which is `None`.
   */
  method ExtractTickers(results: seq<(string, Value)>) returns (r: Option<seq<Ticker>>)
    ensures r == Tickers(results)
  {
    var tickers: seq<Ticker> := [];
    var seen: set<Key> := {};
    var i := 0;
    while i < |results|
      invariant 0 <= i <= |results|
      invariant AllHashable(Candidates(results[..i]))
      invariant tickers == Firsts(Candidates(results[..i]), |Candidates(results[..i])|)
      invariant seen == CodesUpTo(Candidates(results[..i]), |Candidates(results[..i])|)
    {
      var entry := results[i];
      CandidatesNext(results, i);
      if entry.0 != "metadata" && entry.1.List? {
        var ok;
        ok, tickers, seen := AddStocks(entry.1.items, Candidates(results[..i]), tickers, seen);
        if !ok {
          UnhashableInPrefix(results, i + 1);
          return None;
        }
      } else {
        assert Candidates(results[..i + 1]) == Candidates(results[..i]);
      }
      i := i + 1;
    }
    assert results[..i] == results;
    r := Some(tickers);
  }

  /** The inner loop: the stocks of one listed entry, added to the tickers and codes found before them. */
  method AddStocks(items: seq<Value>, ghost before: seq<Stock>, tickers0: seq<Ticker>, seen0: set<Key>)
    returns (ok: bool, tickers: seq<Ticker>, seen: set<Key>)
    requires AllHashable(before) && tickers0 == Firsts(before, |before|) && seen0 == CodesUpTo(before, |before|)
    ensures ok <==> AllHashable(before + StockDicts(items))
    ensures ok ==> tickers == Firsts(before + StockDicts(items), |before + StockDicts(items)|)
    ensures ok ==> seen == CodesUpTo(before + StockDicts(items), |before + StockDicts(items)|)
  {
    tickers, seen := tickers0, seen0;
    ghost var done := before;
    var k := 0;
    while k < |items|
      invariant 0 <= k <= |items|
      invariant done == before + StockDicts(items[..k]) && AllHashable(done)
      invariant tickers == Firsts(done, |done|) && seen == CodesUpTo(done, |done|)
    {
      StocksStep(before, items, k);
      ok, tickers, seen, done := Visit(items[k], done, tickers, seen);
      if !ok {
        UnhashableStock(before, items, items[k].fields);
        return;
      }
      k := k + 1;
    }
    assert items[..k] == items;
    ok := true;
  }

  /**
   * One stock of the inner loop: an object with a `code` whose code is new is
   * added to the set and its ticker appended; a code the set cannot hold raises.
   */
  method Visit(stock: Value, ghost done: seq<Stock>, tickers: seq<Ticker>, seen: set<Key>)
    returns (ok: bool, tickers': seq<Ticker>, seen': set<Key>, ghost done': seq<Stock>)
    requires AllHashable(done) && tickers == Firsts(done, |done|) && seen == CodesUpTo(done, |done|)
    ensures done' == done + (if stock.Dict? && "code" in stock.fields then [stock.fields] else [])
    ensures !ok ==> stock.Dict? && "code" in stock.fields && !Hashable(stock.fields["code"])
    ensures ok ==> AllHashable(done') && tickers' == Firsts(done', |done'|) && seen' == CodesUpTo(done', |done'|)
  {
    ok, tickers', seen', done' := true, tickers, seen, done;
    if stock.Dict? && "code" in stock.fields {
      var d: Stock := stock.fields;
      var code := d["code"];
      done' := done + [d];
      if !Hashable(code) {
        ok := false;
        return;
      }
      NextCandidate(done, d);
      if KeyOf(code) !in seen {
        seen' := seen + {KeyOf(code)};
        tickers' := tickers + [TickerOf(d)];
      }
    }
  }

  /** The stocks after `before`, one item further. */
  lemma StocksStep(before: seq<Stock>, items: seq<Value>, k: nat)
    requires k < |items|
    ensures before + StockDicts(items[..k + 1]) == (before + StockDicts(items[..k]))
      + (if items[k].Dict? && "code" in items[k].fields then [items[k].fields] else [])
  {
    StockDictsNext(items, k);
  }

  /** A listed stock whose code a set cannot hold makes the extraction raise. */
  lemma UnhashableStock(before: seq<Stock>, items: seq<Value>, d: Stock)
    requires Dict(d) in items && !Hashable(d["code"])
    ensures !AllHashable(before + StockDicts(items))
  {
    var m := StockIndex(items, d);
    assert (before + StockDicts(items))[|before| + m] == d;
  }

  /** What the batch left behind: no file, one `json.load` rejects, or the decoded document. */
  datatype BatchFile = NoFile | Unreadable | NotObject(v: Value) | Results(entries: Object)

  /** The state `run_trigger_batch` keeps: the decoded results of each mode's batch. */
  class StockAnalysisOrchestrator {
    var selectedTickers: map<string, BatchFile>

    constructor ()
      ensures selectedTickers == map[]
    {
      selectedTickers := map[];
    }

    /**
     * `run_trigger_batch` after the batch process: a failed batch or a missing
     * or unreadable results file gives no tickers; decoded results are kept for
     * the mode, and their tickers are returned, or none when the extraction raises.
     */
    method RunTriggerBatch(mode: string, returnCode: int, file: BatchFile) returns (tickers: seq<Ticker>)
      modifies this
      ensures returnCode != 0 || file.NoFile? || file.Unreadable? ==>
        tickers == [] && selectedTickers == old(selectedTickers)
      ensures returnCode == 0 && (file.NotObject? || file.Results?) ==>
        selectedTickers == old(selectedTickers)[mode := file]
      ensures file.NotObject? ==> tickers == []
      ensures returnCode == 0 && file.Results? ==>
        tickers == (match Tickers(file.entries) case Some(t) => t case None => [])
    {
      if returnCode != 0 {
        return [];
      }
      match file
      case NoFile =>
        tickers := [];
      case Unreadable =>
        tickers := [];
      case NotObject(_) =>
        selectedTickers := selectedTickers[mode := file];
        tickers := [];
      case Results(entries) =>
        selectedTickers := selectedTickers[mode := file];
        var r := ExtractTickers(entries);
        tickers := if r.Some? then r.value else [];
    }
  }

  // ---------------------------------------------------------------------------
  // The alert message.

  /** `_get_trigger_emoji`: the first fragment of the chain the trigger type contains picks the mark. */
  function TriggerEmoji(triggerType: string): string
  {
    if Contains(triggerType, "거래량") then "📊"
    else if Contains(triggerType, "갭 상승") then "📈"
    else if Contains(triggerType, "시총 대비") then "💰"
    else if Contains(triggerType, "상승률") then "🚀"
    else if Contains(triggerType, "마감 강도") then "🔨"
    else if Contains(triggerType, "횡보") then "↔️"
    else "🔎"
  }

  /** The fragments the chain tests, in its order, and the mark each selects. */
  const Fragments: seq<string> := ["거래량", "갭 상승", "시총 대비", "상승률", "마감 강도", "횡보"]
  const FragmentMarks: seq<string> := ["📊", "📈", "💰", "🚀", "🔨", "↔️"]
  const NoFragmentMark := "🔎"

  /** The index of the first of `frags[k..]` that `t` contains, if any. */
  function FirstHit(t: string, frags: seq<string>, k: nat): (r: Option<nat>)
    requires k <= |frags|
    ensures r.Some? ==> k <= r.value < |frags| && Contains(t, frags[r.value])
    ensures r.Some? ==> forall j :: k <= j < r.value ==> !Contains(t, frags[j])
    ensures r.None? ==> forall j :: k <= j < |frags| ==> !Contains(t, frags[j])
    decreases |frags| - k
  {
    if k == |frags| then None
    else if Contains(t, frags[k]) then Some(k)
    else FirstHit(t, frags, k + 1)
  }

  /** The chain is the table read in order: the first fragment contained decides, and none gives the default. */
  lemma {:induction false} TriggerEmojiIsFirstHit(t: string)
    ensures match FirstHit(t, Fragments, 0)
      case Some(k) => TriggerEmoji(t) == FragmentMarks[k]
      case None => TriggerEmoji(t) == NoFragmentMark
  {
    TableEntries();
    if !Contains(t, Fragments[0]) {
      if !Contains(t, Fragments[1]) {
        if !Contains(t, Fragments[2]) {
          if !Contains(t, Fragments[3]) {
            if !Contains(t, Fragments[4]) {
              assert FirstHit(t, Fragments, 5) == (if Contains(t, Fragments[5]) then Some(5) else FirstHit(t, Fragments, 6));
            }
          }
        }
      }
    }
  }

  /** The table's entries, one by one. */
  lemma TableEntries()
    ensures |Fragments| == 6 && |FragmentMarks| == 6
    ensures Fragments[0] == "거래량" && Fragments[1] == "갭 상승" && Fragments[2] == "시총 대비"
    ensures Fragments[3] == "상승률" && Fragments[4] == "마감 강도" && Fragments[5] == "횡보"
    ensures FragmentMarks[0] == "📊" && FragmentMarks[1] == "📈" && FragmentMarks[2] == "💰"
    ensures FragmentMarks[3] == "🚀" && FragmentMarks[4] == "🔨" && FragmentMarks[5] == "↔️"
  {
  }

  /** `f"{x:.2f}"` of a value: numbers only; anything else raises. */
  function Fixed2Of(v: Value): (r: Option<string>)
    ensures r.Some? <==> Number(v).Some?
  {
    match Number(v)
    case Some(x) => Some(Fixed2(x))
    case None => None
  }

  /** The arrow for a change rate. */
  function Arrow(rate: real): string
  {
    if rate > 0.0 then "🔺" else if rate < 0.0 then "🔻" else "➖"
  }

  /** The arrow follows the sign of the rate, and the three arrows differ. */
  lemma ArrowSign(rate: real)
    ensures Arrow(rate) == "🔺" <==> rate > 0.0
    ensures Arrow(rate) == "🔻" <==> rate < 0.0
    ensures Arrow(rate) == "➖" <==> rate == 0.0
  {
    assert "🔺" != "🔻" && "🔺" != "➖" && "🔻" != "➖";
  }

  /** The trigger-specific lines: the first branch whose field is present and whose trigger type matches. */
  function Extra(triggerType: string, d: map<string, Value>): (r: Option<string>)
  {
    if "volume_increase" in d && StartsWith(triggerType, "거래량") then
      match Fixed2Of(d["volume_increase"])
      case Some(x) => Some("  거래량 증가율: " + x + "%\n")
      case None => None
    else if "gap_rate" in d && StartsWith(triggerType, "갭 상승") then
      match Fixed2Of(d["gap_rate"])
      case Some(x) => Some("  갭 상승률: " + x + "%\n")
      case None => None
    else if "trade_value_ratio" in d && Contains(triggerType, "시총 대비") then
      match (Fixed2Of(d["trade_value_ratio"]), Number(Get(d, "market_cap", Int(0))))
      case (Some(x), Some(cap)) => Some("  거래대금/시총 비율: " + x + "%\n" + "  시가총액: " + Fixed2(cap / 100000000.0) + "억원\n")
      case _ => None
    else if "closing_strength" in d && Contains(triggerType, "마감 강도") then
      match Number(d["closing_strength"])
      case Some(x) => Some("  마감 강도: " + Fixed2(x * 100.0) + "%\n")
      case None => None
    else Some("")
  }

  /** Extra lines appear only under a trigger type of their kind, for a stock that has the field. */
  lemma ExtraOnlyWhenMatched(triggerType: string, d: map<string, Value>)
    requires Extra(triggerType, d).Some? && Extra(triggerType, d).value != ""
    ensures ("volume_increase" in d && StartsWith(triggerType, "거래량"))
      || ("gap_rate" in d && StartsWith(triggerType, "갭 상승"))
      || ("trade_value_ratio" in d && Contains(triggerType, "시총 대비"))
      || ("closing_strength" in d && Contains(triggerType, "마감 강도"))
  {
  }

  /**
   * One stock's lines: its name and code, its price with the arrow and the
   * size of its change, the extra lines and a blank line. `None` when it
   * raises: a stock that is not an object, or a price or rate that is not a number.
   */
  function StockLines(triggerType: string, stock: Value): (r: Option<string>)
    ensures r.Some? ==> stock.Dict? && Number(Get(stock.fields, "change_rate", Int(0))).Some?
    ensures r.Some? ==> EndsWith(r.value, "\n")
  {
    if !stock.Dict? then None
    else
      var d := stock.fields;
      var code := Get(d, "code", Str(""));
      var name := Get(d, "name", Str(""));
      match (AmountOf(Get(d, "current_price", Int(0))), Number(Get(d, "change_rate", Int(0))), Extra(triggerType, d))
      case (Some(price), Some(rate), Some(extra)) =>
        var text := "· *" + Show(name) + "* (" + Show(code) + ")\n"
          + "  " + price + "원 " + Arrow(rate) + " " + Fixed2(Abs(rate)) + "%\n" + extra + "\n";
        assert text[|text| - 1] == '\n';
        EndsWithLast(text);
        Some(text)
      case _ => None
  }

  /** A text whose last character is a newline ends with one. */
  lemma EndsWithLast(text: string)
    requires |text| > 0 && text[|text| - 1] == '\n'
    ensures EndsWith(text, "\n")
  {
    assert text[|text| - 1..] == "\n";
  }

  /** Both texts, joined, or `None` once either raised. */
  function Then(a: Option<string>, b: Option<string>): (r: Option<string>)
    ensures r.Some? <==> a.Some? && b.Some?
    ensures r.Some? ==> r.value == a.value + b.value
  {
    match (a, b)
    case (Some(x), Some(y)) => Some(x + y)
    case _ => None
  }

  /** The lines of the stocks of one trigger type, in order. */
  function StocksText(triggerType: string, stocks: seq<Value>): (r: Option<string>)
    decreases |stocks|
  {
    if |stocks| == 0 then Some("")
    else Then(StocksText(triggerType, stocks[..|stocks| - 1]), StockLines(triggerType, stocks[|stocks| - 1]))
  }

  /** A section's first line: the trigger type's mark and its name in bold. */
  function SectionHead(triggerType: string): string
  {
    TriggerEmoji(triggerType) + " *" + triggerType + "*\n"
  }

  /** One trigger type's section: its first line, then its stocks. */
  function Section(triggerType: string, stocks: seq<Value>): Option<string>
  {
    Then(Some(SectionHead(triggerType)), StocksText(triggerType, stocks))
  }

  /** The sections in order. */
  function Sections(results: seq<(string, seq<Value>)>): (r: Option<string>)
    decreases |results|
  {
    if |results| == 0 then Some("")
    else Then(Sections(results[..|results| - 1]), Section(results[|results| - 1].0, results[|results| - 1].1))
  }

  const MorningTitle := "🔔 오전 프리즘 시그널 얼럿"
  const AfternoonTitle := "🔔 오후 프리즘 시그널 얼럿"
  const Footer := "💡 상세 분석 보고서는 약 10-30분 내 제공 예정\n⚠️ 본 정보는 투자 참고용이며, 투자 결정과 책임은 투자자에게 있습니다."

  /** The title and time of day: the morning ones only for the mode `"morning"`. */
  function Title(mode: string): string
  {
    if mode == "morning" then MorningTitle else AfternoonTitle
  }

  function TimeOfDay(mode: string): string
  {
    if mode == "morning" then "장 시작 후 10분 시점" else "장 마감 후"
  }

  /** The title line, then the date line and the blank line after it. */
  function Header(mode: string, tradeDate: string): string
  {
    Title(mode) + "\n" + DateLine(mode, tradeDate)
  }

  function DateLine(mode: string, tradeDate: string): string
  {
    "📅 " + DottedDate(tradeDate) + " " + TimeOfDay(mode) + " 포착된 관심종목\n\n"
  }

  /** `_create_trigger_alert_message`: the header, every section, the footer; `None` when a stock raises. */
  function AlertText(mode: string, results: seq<(string, seq<Value>)>, tradeDate: string): (r: Option<string>)
    ensures r.Some? <==> Sections(results).Some?
  {
    match Sections(results)
    case Some(body) => Some(Header(mode, tradeDate) + body + Footer)
    case None => None
  }

  /** The message opens with its title line, the morning title exactly for the morning mode, and closes with the footer. */
  lemma AlertShape(mode: string, results: seq<(string, seq<Value>)>, tradeDate: string)
    requires AlertText(mode, results, tradeDate).Some?
    ensures var m := AlertText(mode, results, tradeDate).value;
      StartsWith(m, Title(mode) + "\n") && EndsWith(m, Footer)
    ensures Title(mode) == MorningTitle <==> mode == "morning"
  {
    var h := Header(mode, tradeDate);
    var body := Sections(results).value;
    HeaderStarts(mode, tradeDate);
    StartsWithExtend(h, Title(mode) + "\n", body + Footer);
    Associative(h, body, Footer);
    EndsWithConcat(h + body, Footer);
    TitlesDiffer();
  }

  /** The header opens with the title line. */
  lemma HeaderStarts(mode: string, tradeDate: string)
    ensures StartsWith(Header(mode, tradeDate), Title(mode) + "\n")
  {
    StartsWithConcat(Title(mode) + "\n", DateLine(mode, tradeDate));
  }

  lemma Associative(a: string, b: string, c: string)
    ensures a + b + c == a + (b + c)
  {
  }

  lemma TitlesDiffer()
    ensures MorningTitle != AfternoonTitle
  {
    assert MorningTitle[3] != AfternoonTitle[3];
  }

  /** The stocks' lines, one stock further. */
  lemma StocksTextNext(triggerType: string, stocks: seq<Value>, k: nat)
    requires k < |stocks|
    ensures StocksText(triggerType, stocks[..k + 1]) == Then(StocksText(triggerType, stocks[..k]), StockLines(triggerType, stocks[k]))
  {
    assert stocks[..k + 1][..k] == stocks[..k];
  }

  /** The sections, one trigger type further. */
  lemma SectionsNext(results: seq<(string, seq<Value>)>, i: nat)
    requires i < |results|
    ensures Sections(results[..i + 1]) == Then(Sections(results[..i]), Section(results[i].0, results[i].1))
  {
    assert results[..i + 1][..i] == results[..i];
  }

  /** Once the sections so far raise, all of them do. */
  lemma {:induction false} SectionsNoneGrows(results: seq<(string, seq<Value>)>, n: nat)
    requires n <= |results| && Sections(results[..n]).None?
    ensures Sections(results).None?
    decreases |results|
  {
    if n < |results| {
      var init := results[..|results| - 1];
      assert results[..n] == init[..n];
      SectionsNoneGrows(init, n);
    } else {
      assert results[..n] == results;
    }
  }

  /** Once the stocks so far raise, all of them do. */
  lemma {:induction false} StocksNoneGrows(triggerType: string, stocks: seq<Value>, n: nat)
    requires n <= |stocks| && StocksText(triggerType, stocks[..n]).None?
    ensures StocksText(triggerType, stocks).None?
    decreases |stocks|
  {
    if n < |stocks| {
      var init := stocks[..|stocks| - 1];
      assert stocks[..n] == init[..n];
      StocksNoneGrows(triggerType, init, n);
    } else {
      assert stocks[..n] == stocks;
    }
  }

  /** The inner loop of `_create_trigger_alert_message`: one section appended to the message so far. */
  method AppendSection(message: string, triggerType: string, stocks: seq<Value>) returns (r: Option<string>)
    ensures r == Then(Some(message), Section(triggerType, stocks))
  {
    var prefix := message + SectionHead(triggerType);
    var text := prefix;
    var k := 0;
    while k < |stocks|
      invariant 0 <= k <= |stocks|
      invariant StocksText(triggerType, stocks[..k]).Some?
      invariant text == prefix + StocksText(triggerType, stocks[..k]).value
    {
      var lines := StockLines(triggerType, stocks[k]);
      if lines.None? {
        assert Section(triggerType, stocks).None? by {
          StocksTextNext(triggerType, stocks, k);
          StocksNoneGrows(triggerType, stocks, k + 1);
        }
        return None;
      }
      assert StocksText(triggerType, stocks[..k + 1]) == Some(StocksText(triggerType, stocks[..k]).value + lines.value) by {
        StocksTextNext(triggerType, stocks, k);
      }
      Associative(prefix, StocksText(triggerType, stocks[..k]).value, lines.value);
      text := text + lines.value;
      k := k + 1;
    }
    assert text == message + Section(triggerType, stocks).value by {
      assert stocks[..k] == stocks;
      Associative(message, SectionHead(triggerType), StocksText(triggerType, stocks).value);
    }
    r := Some(text);
  }

  /**
   * `_create_trigger_alert_message` as written: the message grows section by
   * section and stock by stock; a stock that raises ends it with `None`.
   */
  method AlertMessage(mode: string, results: seq<(string, seq<Value>)>, tradeDate: string) returns (m: Option<string>)
    ensures m == AlertText(mode, results, tradeDate)
  {
    var message := Header(mode, tradeDate);
    var i := 0;
    while i < |results|
      invariant 0 <= i <= |results|
      invariant Sections(results[..i]).Some? && message == Header(mode, tradeDate) + Sections(results[..i]).value
    {
      var (triggerType, stocks) := results[i];
      SectionsNext(results, i);
      var next := AppendSection(message, triggerType, stocks);
      if next.None? {
        SectionsNoneGrows(results, i + 1);
        return None;
      }
      Associative(Header(mode, tradeDate), Sections(results[..i]).value, Section(triggerType, stocks).value);
      message := next.value;
      i := i + 1;
    }
    assert results[..i] == results;
    m := Some(message + Footer);
  }

  // ---------------------------------------------------------------------------
  // Sending the alert.

  /** The listed entries of the results, in file order, each with its list of stocks. */
  function ListedEntries(results: seq<(string, Value)>): (r: seq<(string, seq<Value>)>)
    ensures |r| == 0 <==> forall i :: 0 <= i < |results| ==> !Listed(results[i])
    ensures forall i :: 0 <= i < |results| && Listed(results[i]) ==> (results[i].0, results[i].1.items) in r
    ensures forall p :: p in r ==> p.0 != "metadata"
  {
    if |results| == 0 then []
    else
      var init := results[..|results| - 1];
      var last := results[|results| - 1];
      assert forall i :: 0 <= i < |results| - 1 ==> results[i] == init[i];
      ListedEntries(init) + (if Listed(last) then [(last.0, last.1.items)] else [])
  }

  lemma ListedEntriesNext(results: seq<(string, Value)>, i: nat)
    requires i < |results|
    ensures ListedEntries(results[..i + 1]) ==
      ListedEntries(results[..i]) + (if Listed(results[i]) then [(results[i].0, results[i].1.items)] else [])
  {
    assert results[..i + 1][..i] == results[..i];
  }

  /** The trading day the alert reports: the metadata's, or the current one; `None` where reading it raises. */
  function TradeDate(results: Object, today: string): (r: Option<string>)
    ensures r.Some? ==> ObjectGet(results, "metadata", Dict(map[])).Dict?
    ensures ObjectGet(results, "metadata", Dict(map[])) == Dict(map[]) ==> r == Some(today)
  {
    match ObjectGet(results, "metadata", Dict(map[]))
    case Dict(metadata) =>
      (match Get(metadata, "trade_date", Str(today))
       case Str(d) => Some(d)
       case _ => None)
    case _ => None
  }

  /**
   * `send_trigger_alert`: `results` is the decoded results file (`None` when it
   * cannot be read as an object), `today` the current date, `chatId` the channel
   * setting and `sent` the bot's reply (`None` when the bot raises).  The alert
   * is reported sent exactly when every step succeeds.
   */
  method SendTriggerAlert(mode: string, results: Option<Object>, today: string, chatId: Option<string>, sent: Option<bool>)
    returns (ok: bool)
    ensures ok <==>
      results.Some? &&
      TradeDate(results.value, today).Some? &&
      ListedEntries(results.value) != [] &&
      AlertText(mode, ListedEntries(results.value), TradeDate(results.value, today).value).Some? &&
      chatId.Some? && chatId.value != "" &&
      sent == Some(true)
  {
    if results.None? {
      return false;
    }
    var entries := results.value;
    var tradeDate := TradeDate(entries, today);
    if tradeDate.None? {
      return false;
    }
    var listed: seq<(string, seq<Value>)> := [];
    var i := 0;
    while i < |entries|
      invariant 0 <= i <= |entries|
      invariant listed == ListedEntries(entries[..i])
    {
      ListedEntriesNext(entries, i);
      if Listed(entries[i]) {
        listed := listed + [(entries[i].0, entries[i].1.items)];
      }
      i := i + 1;
    }
    assert entries[..i] == entries;
    if listed == [] {
      return false;
    }
    var message := AlertMessage(mode, listed, tradeDate.value);
    if message.None? {
      return false;
    }
    if chatId.None? || chatId.value == "" {
      return false;
    }
    ok := sent == Some(true);
  }
}
