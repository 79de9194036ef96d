/**
 * telegram_summary_agent.py: the deterministic steps around the summary a
 * language model writes for a report. They read the stock code, name and date
 * from the report's file name, find the trigger the stock was selected by in the
 * day's trigger results, clean up the model's reply, and name the message file.
 */
module SummaryAgent {
  import opened Wrappers
  import opened Text
  import opened Format
  import opened PyValue
  import opened Files
  import opened ReSub
  import TrackingRules

  // ---------------------------------------------------------------------------
  // Metadata from the file name

  /** `\w`: ASCII letters and digits, '_' and the Hangul syllables. */
  predicate IsWordChar(c: char)
  {
    IsAsciiAlnum(c) || c == '_' || (0xAC00 <= c as int <= 0xD7A3)
  }

  /** `.*` and then the literal extension, from position `s`: a run without a newline, then `ext`. */
  predicate ExtAhead(f: string, s: nat, ext: string)
    requires |ext| > 0
    decreases |f| - s
  {
    s + |ext| <= |f| && (f[s..s + |ext|] == ext || (f[s] != '\n' && ExtAhead(f, s + 1, ext)))
  }

  /** The date part `_(\d{8})_` at `j`. */
  predicate DateMark(f: string, j: nat)
  {
    j + 10 <= |f| && f[j] == '_' && AllDigits(f[j + 1..j + 9]) && f[j + 9] == '_'
  }

  /**
   * `re.match(r'(C+)_(.+)_(\d{8})_.*EXT', f)` succeeds with the first group
   * `f[..i]` and the second `f[i + 1..j]`, where `C` is the class `word`.
   */
  predicate Splits(f: string, word: char -> bool, ext: string, i: nat, j: nat)
    requires |ext| > 0
  {
    0 < i && i + 1 < j && DateMark(f, j)
    && (forall k :: 0 <= k < i ==> word(f[k])) && f[i] == '_'
    && '\n' !in f[i + 1..j]
    && ExtAhead(f, j + 10, ext)
  }

  /** The greatest end `j' <= j` of the second group for a first group ending at `i`: the greedy `(.+)`. */
  function LastSecond(f: string, word: char -> bool, ext: string, i: nat, j: nat): (r: Option<nat>)
    requires |ext| > 0
    ensures r.Some? ==> r.value <= j && Splits(f, word, ext, i, r.value)
    ensures forall j': nat :: j' <= j && (r.None? || r.value < j') ==> !Splits(f, word, ext, i, j')
    decreases j
  {
    if Splits(f, word, ext, i, j) then Some(j)
    else if j == 0 then None
    else LastSecond(f, word, ext, i, j - 1)
  }

  /** The greatest first group ending at or before `i` that a match can start with, and its greedy second group. */
  function LastFirst(f: string, word: char -> bool, ext: string, i: nat): (r: Option<(nat, nat)>)
    requires |ext| > 0
    ensures r.Some? ==> r.value.0 <= i && Splits(f, word, ext, r.value.0, r.value.1)
    ensures forall i': nat, j': nat :: i' <= i && Splits(f, word, ext, i', j') ==>
      r.Some? && (i' < r.value.0 || (i' == r.value.0 && j' <= r.value.1))
    decreases i
  {
    match LastSecond(f, word, ext, i, |f|)
    case Some(j) => Some((i, j))
    case None => if i == 0 then None else LastFirst(f, word, ext, i - 1)
  }

  /**
   * The match the regular expression engine finds: backtracking tries the
   * longest first group first and, for it, the longest second group, so the
   * match is the split greatest in that order; `None` when no split matches.
   */
  function Match(f: string, word: char -> bool, ext: string): (r: Option<(nat, nat)>)
    requires |ext| > 0
    ensures r.Some? ==> Splits(f, word, ext, r.value.0, r.value.1)
    ensures r.None? ==> forall i: nat, j: nat :: !Splits(f, word, ext, i, j)
    ensures r.Some? ==> forall i: nat, j: nat :: Splits(f, word, ext, i, j) ==>
      i < r.value.0 || (i == r.value.0 && j <= r.value.1)
  {
    var r := LastFirst(f, word, ext, |f|);
    forall i: nat, j: nat | Splits(f, word, ext, i, j)
      ensures r.Some? && (i < r.value.0 || (i == r.value.0 && j <= r.value.1))
    {
    }
    r
  }

  datatype Metadata = Metadata(code: string, name: string, date: string)

  /**
   * `extract_metadata_from_filename` for the pattern with class `word` and
   * extension `ext`: the groups of the match, the date written YYYY.MM.DD;
   * without a match, "N/A", the file's stem and today's date.
   */
  function ReadMetadata(filename: string, word: char -> bool, ext: string, today: string): (m: Metadata)
    requires |ext| > 0
    ensures Match(filename, word, ext).None? ==> m == Metadata("N/A", TrackingRules.Stem(filename), today)
    ensures Match(filename, word, ext).Some? ==>
      var (i, j) := Match(filename, word, ext).value;
      |m.code| > 0 && (forall k :: 0 <= k < |m.code| ==> word(m.code[k]))
      && filename == m.code + "_" + m.name + filename[j..]
      && m.date == DottedDate(filename[j + 1..j + 9]) && |m.date| == 10
  {
    match Match(filename, word, ext)
    case Some((i, j)) =>
      assert filename[..j] == filename[..i] + "_" + filename[i + 1..j];
      Metadata(filename[..i], filename[i + 1..j], DottedDate(filename[j + 1..j + 9]))
    case None => Metadata("N/A", TrackingRules.Stem(filename), today)
  }

  const PdfExt := ".pdf"

  /** The current agent reads `(\w+)_(.+)_(\d{8})_.*\.pdf`. */
  function ExtractMetadata(filename: string, today: string): (m: Metadata)
    ensures Match(filename, IsWordChar, PdfExt).None? ==> m.code == "N/A"
  {
    ReadMetadata(filename, IsWordChar, PdfExt, today)
  }

  /** A text without a newline and then the extension satisfies `.*EXT`. */
  lemma {:induction false} ExtAheadOf(f: string, s: nat, t: string, ext: string)
    requires |ext| > 0 && s <= |f| && f[s..] == t + ext && '\n' !in t
    ensures ExtAhead(f, s, ext)
    decreases |t|
  {
    if |t| == 0 {
      assert f[s..s + |ext|] == (t + ext)[..|ext|];
    } else {
      assert f[s] == t[0];
      assert f[s + 1..] == t[1..] + ext;
      ExtAheadOf(f, s + 1, t[1..], ext);
    }
  }

  /** A date part seen from a later start of the text. */
  lemma DateMarkShift(f: string, s: nat, k: nat)
    requires s <= k && DateMark(f, k)
    ensures DateMark(f[s..], k - s)
  {
    assert f[s..][k - s + 1..k - s + 9] == f[k + 1..k + 9];
  }

  /** A date part of `_{tail}{ext}` lies in `_{tail}` when the extension has no '_'. */
  lemma DateMarkInTail(g: string, t: string, ext: string, m: nat)
    requires g == "_" + t + ext && '_' !in ext && DateMark(g, m)
    ensures DateMark("_" + t, m)
  {
    var u := "_" + t;
    assert g == u + ext;
    if m + 9 < |u| {
      assert g[m..m + 10] == u[m..m + 10];
      assert u[m + 1..m + 9] == g[m + 1..m + 9];
    }
  }

  /**
   * In a text whose '_' after position `i` (the end of the code) sit only at `j`
   * and at `j + 9` onwards, where `_{tail}{ext}` begins, the only date part after
   * `i` is at `j` when the tail holds none.
   */
  lemma OnlyDateMark(f: string, i: nat, j: nat, t: string, ext: string, k: nat)
    requires i < j && j + 9 <= |f|
    requires forall x :: i < x < j ==> f[x] != '_'
    requires forall x :: j < x < j + 9 ==> f[x] != '_'
    requires f[j + 9..] == "_" + t + ext && '_' !in ext
    requires forall m: nat :: !DateMark("_" + t, m)
    requires i < k && DateMark(f, k)
    ensures k == j
  {
    if k >= j + 9 {
      DateMarkShift(f, j + 9, k);
      DateMarkInTail(f[j + 9..], t, ext, k - (j + 9));
    }
  }

  /** Where the parts of a name `{code}_{name}_{date}_{tail}{ext}` sit. */
  lemma NameLayout(c: string, n: string, d: string, t: string, ext: string)
    requires |d| == 8
    ensures var f := c + "_" + n + "_" + d + "_" + t + ext;
      var I := |c|;
      var J := |c| + 1 + |n|;
      |f| == J + 10 + |t| + |ext|
      && f[..I] == c && f[I] == '_' && f[I + 1..J] == n
      && (forall x :: I < x < J ==> f[x] == n[x - I - 1])
      && f[J] == '_' && f[J + 1..J + 9] == d && f[J + 9] == '_'
      && (forall x :: J < x < J + 9 ==> f[x] == d[x - J - 1])
      && f[J + 9..] == "_" + t + ext && f[J + 10..] == t + ext
  {
    var p := c + "_" + n;
    var q := "_" + d + "_" + t + ext;
    var f := c + "_" + n + "_" + d + "_" + t + ext;
    var J := |p|;
    assert f == p + q;
    FrontLayout(c, n);
    BackLayout(d, t, ext);
    assert f[..J] == p && f[J..] == q;
    assert f[..|c|] == p[..|c|];
    assert f[|c| + 1..J] == p[|c| + 1..];
    assert f[J + 1..J + 9] == q[1..9];
    assert f[J + 9..] == q[9..];
    assert f[J + 10..] == q[10..];
  }

  /** Where the code and the name sit in `{code}_{name}`. */
  lemma FrontLayout(c: string, n: string)
    ensures var p := c + "_" + n;
      p[..|c|] == c && p[|c|] == '_' && p[|c| + 1..] == n
      && forall x :: |c| < x < |p| ==> p[x] == n[x - |c| - 1]
  {
  }

  /** Where the date and the tail sit in `_{date}_{tail}{ext}`. */
  lemma BackLayout(d: string, t: string, ext: string)
    requires |d| == 8
    ensures var q := "_" + d + "_" + t + ext;
      q[0] == '_' && q[1..9] == d && q[9] == '_' && q[9..] == "_" + t + ext && q[10..] == t + ext
      && forall x :: 0 < x < 9 ==> q[x] == d[x - 1]
  {
    var q := "_" + d + "_" + t + ext;
    assert q == "_" + d + ("_" + t + ext);
  }

  /**
   * In a name written `{code}_{name}_{date}_{tail}{ext}`, with a code of the
   * pattern's class, a one-line name without '_', an eight-digit date and a
   * one-line tail holding no `_DDDDDDDD_`, the match splits off exactly that
   * code and name.
   */
  lemma MatchOfName(c: string, n: string, d: string, t: string, word: char -> bool, ext: string)
    requires |ext| > 0 && '_' !in ext
    requires |c| > 0 && forall k :: 0 <= k < |c| ==> word(c[k])
    requires |n| > 0 && '_' !in n && '\n' !in n
    requires |d| == 8 && AllDigits(d)
    requires '\n' !in t && forall m: nat :: !DateMark("_" + t, m)
    ensures Match(c + "_" + n + "_" + d + "_" + t + ext, word, ext) == Some((|c|, |c| + 1 + |n|))
  {
    var f := c + "_" + n + "_" + d + "_" + t + ext;
    var I := |c|;
    var J := |c| + 1 + |n|;
    NameLayout(c, n, d, t, ext);
    ExtAheadOf(f, J + 10, t, ext);
    assert Splits(f, word, ext, I, J);
    var (i, j) := Match(f, word, ext).value;
    assert I <= i;
    OnlyDateMark(f, I, J, t, ext, j);
    assert j == J;
    assert i == I;
  }

  /** Such a name is read back as its code, name and date, the date written YYYY.MM.DD. */
  lemma ReadsBack(c: string, n: string, d: string, t: string, word: char -> bool, ext: string, today: string)
    requires |ext| > 0 && '_' !in ext
    requires |c| > 0 && forall k :: 0 <= k < |c| ==> word(c[k])
    requires |n| > 0 && '_' !in n && '\n' !in n
    requires |d| == 8 && AllDigits(d)
    requires '\n' !in t && forall m: nat :: !DateMark("_" + t, m)
    ensures ReadMetadata(c + "_" + n + "_" + d + "_" + t + ext, word, ext, today) == Metadata(c, n, d[..4] + "." + d[4..6] + "." + d[6..])
  {
    var f := c + "_" + n + "_" + d + "_" + t + ext;
    var J := |c| + 1 + |n|;
    MatchOfName(c, n, d, t, word, ext);
    NameLayout(c, n, d, t, ext);
  }

  // ---------------------------------------------------------------------------
  // The trigger a stock was selected by

  /**
   * A trigger results file as `determine_trigger_type` reads it: unreadable
   * (anything `open`, `json.load` or `results.get` raises on), or its account
   * sections, each an object (its entries in file order) or `None` for a value
   * that is not one.
   */
  datatype TriggerFile = Unreadable | Decoded(accounts: map<string, Option<Object>>)

  /** How searching part of a file ends: the first matching stock's trigger type, no match, or an exception that ends that file's search. */
  datatype Lookup = Found(triggerType: string) | NotFound | Raised

  /** `stock.get("code") == stock_code`, on a stock that is an object. */
  predicate HasCode(stock: Value, code: string)
  {
    stock.Dict? && Get(stock.fields, "code", Null) == Str(code)
  }

  /** The stocks of one trigger type, in order: a stock that is not an object has no `get` and raises. */
  function SearchItems(triggerType: string, items: seq<Value>, code: string): (r: Lookup)
    ensures r.Found? ==> r.triggerType == triggerType
  {
    if |items| == 0 then NotFound
    else if !items[0].Dict? then Raised
    else if HasCode(items[0], code) then Found(triggerType)
    else SearchItems(triggerType, items[1..], code)
  }

  /**
   * `for stock in stocks`: a list is searched; an empty string or object yields
   * nothing, a non-empty one yields strings, which have no `get`; other values
   * are not iterable.
   */
  function SearchStocks(triggerType: string, stocks: Value, code: string): (r: Lookup)
    ensures r.Found? ==> r.triggerType == triggerType
  {
    match stocks
    case List(items) => SearchItems(triggerType, items, code)
    case Str(t) => if t == "" then NotFound else Raised
    case Dict(m) => if m == map[] then NotFound else Raised
    case _ => Raised
  }

  /** The trigger types of one account section, in file order. */
  function SearchEntries(entries: seq<(string, Value)>, code: string): Lookup
  {
    if |entries| == 0 then NotFound
    else match SearchStocks(entries[0].0, entries[0].1, code)
      case NotFound => SearchEntries(entries[1..], code)
      case other => other
  }

  /** `results.get(account, {}).items()` searched: a missing section is empty; one that is not an object has no `items`. */
  function SearchAccount(accounts: map<string, Option<Object>>, account: string, code: string): Lookup
  {
    if account !in accounts then NotFound
    else match accounts[account]
      case None => Raised
      case Some(entries) => SearchEntries(entries, code)
  }

  /** One results file: the free section, then the premium one. */
  function SearchFile(file: TriggerFile, code: string): Lookup
  {
    match file
    case Unreadable => Raised
    case Decoded(accounts) =>
      match SearchAccount(accounts, "free", code)
      case NotFound => SearchAccount(accounts, "premium", code)
      case other => other
  }

  function ResultsFile(mode: string, date: string): string
  {
    "trigger_results_" + mode + "_" + date + ".json"
  }

  /** The date the lookup uses: `today` (`%Y%m%d`) when none is given, else the given one without its dots. */
  function LookupDate(reportDate: Option<string>, today: string): (r: string)
    ensures reportDate.None? ==> r == today
    ensures reportDate.Some? ==> r == RemoveChar(reportDate.value, '.')
  {
    match reportDate
    case None => today
    case Some(d) => if d != "" && '.' in d then RemoveChar(d, '.') else d
  }

  /** The search of one mode's file; a file that does not exist finds nothing. */
  function ModeLookup(files: map<string, TriggerFile>, mode: string, date: string, code: string): Lookup
  {
    var name := ResultsFile(mode, date);
    if name in files then SearchFile(files[name], code) else NotFound
  }

  const DefaultTrigger := ("주목할 패턴", "unknown")

  /**
   * `determine_trigger_type`: the morning file, then the afternoon one, of the
   * report's date; the first stock with the code gives its trigger type and the
   * mode, and without one the default pattern and mode "unknown".
   */
  function DetermineTriggerType(code: string, reportDate: Option<string>, today: string, files: map<string, TriggerFile>): (r: (string, string))
    ensures r.1 == "morning" || r.1 == "afternoon" || r == DefaultTrigger
  {
    var date := LookupDate(reportDate, today);
    match ModeLookup(files, "morning", date, code)
    case Found(t) => (t, "morning")
    case _ =>
      match ModeLookup(files, "afternoon", date, code)
      case Found(t) => (t, "afternoon")
      case _ => DefaultTrigger
  }

  /** The first stock with the code, all before it objects without it, is what the search of a list finds. */
  lemma {:induction false} ItemsFirstHit(triggerType: string, items: seq<Value>, code: string, k: nat)
    requires k < |items| && HasCode(items[k], code)
    requires forall m :: 0 <= m < k ==> items[m].Dict? && !HasCode(items[m], code)
    ensures SearchItems(triggerType, items, code) == Found(triggerType)
    decreases k
  {
    if k > 0 {
      ItemsFirstHit(triggerType, items[1..], code, k - 1);
    }
  }

  /** Conversely, a found trigger type comes from a stock with the code, all before it objects without it. */
  lemma {:induction false} ItemsHit(triggerType: string, items: seq<Value>, code: string) returns (k: nat)
    requires SearchItems(triggerType, items, code).Found?
    ensures k < |items| && HasCode(items[k], code)
    ensures forall m :: 0 <= m < k ==> items[m].Dict? && !HasCode(items[m], code)
    decreases |items|
  {
    if HasCode(items[0], code) {
      k := 0;
    } else {
      var k' := ItemsHit(triggerType, items[1..], code);
      k := k' + 1;
    }
  }

  /** The first entry whose stocks hold the code, the search of all before it finding nothing, gives the section's result. */
  lemma {:induction false} EntriesFirstHit(entries: seq<(string, Value)>, code: string, i: nat)
    requires i < |entries| && SearchStocks(entries[i].0, entries[i].1, code).Found?
    requires forall m :: 0 <= m < i ==> SearchStocks(entries[m].0, entries[m].1, code) == NotFound
    ensures SearchEntries(entries, code) == Found(entries[i].0)
    decreases i
  {
    if i > 0 {
      EntriesFirstHit(entries[1..], code, i - 1);
    }
  }

  /** Conversely, a trigger type the section search finds is the first entry whose stocks hold the code. */
  lemma {:induction false} EntriesHit(entries: seq<(string, Value)>, code: string) returns (i: nat)
    requires SearchEntries(entries, code).Found?
    ensures i < |entries| && SearchStocks(entries[i].0, entries[i].1, code).Found?
    ensures entries[i].0 == SearchEntries(entries, code).triggerType
    ensures forall m :: 0 <= m < i ==> SearchStocks(entries[m].0, entries[m].1, code) == NotFound
    decreases |entries|
  {
    if SearchStocks(entries[0].0, entries[0].1, code).Found? {
      i := 0;
    } else {
      var i' := EntriesHit(entries[1..], code);
      i := i' + 1;
    }
  }

  /**
   * A trigger type other than the default is that of a stock carrying the code:
   * entry `i` of the free or premium section of that mode's results file lists
   * it at position `k`.
   */
  lemma TriggerHasStock(code: string, reportDate: Option<string>, today: string, files: map<string, TriggerFile>)
    returns (account: string, i: nat, k: nat)
    requires DetermineTriggerType(code, reportDate, today, files) != DefaultTrigger
    ensures var (t, mode) := DetermineTriggerType(code, reportDate, today, files);
      var name := ResultsFile(mode, LookupDate(reportDate, today));
      name in files && files[name].Decoded? && (account == "free" || account == "premium")
      && account in files[name].accounts && files[name].accounts[account].Some?
      && var entries := files[name].accounts[account].value;
      i < |entries| && entries[i].0 == t && entries[i].1.List?
      && k < |entries[i].1.items| && HasCode(entries[i].1.items[k], code)
  {
    var (t, mode) := DetermineTriggerType(code, reportDate, today, files);
    var name := ResultsFile(mode, LookupDate(reportDate, today));
    var accounts := files[name].accounts;
    account := if SearchAccount(accounts, "free", code).Found? then "free" else "premium";
    var entries := accounts[account].value;
    i := EntriesHit(entries, code);
    k := ItemsHit(t, entries[i].1.items, code);
  }

  /**
   * When the morning file's free section is readable and every stock before the
   * first one with the code is an object, that stock's trigger type is the
   * answer, with mode "morning".
   */
  lemma MorningFirstStock(code: string, reportDate: Option<string>, today: string, files: map<string, TriggerFile>, i: nat, k: nat)
    requires var name := ResultsFile("morning", LookupDate(reportDate, today));
      name in files && files[name].Decoded? && "free" in files[name].accounts && files[name].accounts["free"].Some?
    requires var entries := files[ResultsFile("morning", LookupDate(reportDate, today))].accounts["free"].value;
      i < |entries| && entries[i].1.List? && k < |entries[i].1.items| && HasCode(entries[i].1.items[k], code)
      && (forall m :: 0 <= m < k ==> entries[i].1.items[m].Dict? && !HasCode(entries[i].1.items[m], code))
      && (forall m :: 0 <= m < i ==> SearchStocks(entries[m].0, entries[m].1, code) == NotFound)
    ensures DetermineTriggerType(code, reportDate, today, files) ==
      (files[ResultsFile("morning", LookupDate(reportDate, today))].accounts["free"].value[i].0, "morning")
  {
    var entries := files[ResultsFile("morning", LookupDate(reportDate, today))].accounts["free"].value;
    ItemsFirstHit(entries[i].0, entries[i].1.items, code, k);
    EntriesFirstHit(entries, code, i);
  }

  // ---------------------------------------------------------------------------
  // The model's reply

  /** The marks a finished summary opens with. */
  const Marks: seq<string> := ["📊", "📈", "📉", "💰", "⚠️", "🔍"]

  /** The sentence every summary ends with. */
  const Disclaimer := "본 정보는 투자 참고용이며, 투자 결정과 책임은 투자자에게 있습니다."

  /** One of the marks, from `k` on in their order, occurs at `i`: the index of the first such. */
  function MarkAt(s: string, i: nat, k: nat): (r: Option<nat>)
    ensures r.Some? ==> k <= r.value < |Marks| && OccursAt(s, Marks[r.value], i)
    ensures r.None? ==> forall x :: k <= x < |Marks| ==> !OccursAt(s, Marks[x], i)
    decreases |Marks| - k
  {
    if k >= |Marks| then None
    else if OccursAt(s, Marks[k], i) then Some(k)
    else MarkAt(s, i, k + 1)
  }

  /** `s.startswith(marks)`. */
  predicate StartsWithMark(s: string)
  {
    MarkAt(s, 0, 0).Some?
  }

  /** The leftmost position at or after `from` where a mark occurs, and which mark. */
  function FirstMark(s: string, from: nat): (r: Option<(nat, nat)>)
    ensures r.Some? ==> from <= r.value.0 && MarkAt(s, r.value.0, 0) == Some(r.value.1)
    ensures forall i :: from <= i && (r.None? || i < r.value.0) ==> MarkAt(s, i, 0).None?
    decreases |s| - from
  {
    if from > |s| then None
    else match MarkAt(s, from, 0)
      case Some(k) => Some((from, k))
      case None =>
        var r := FirstMark(s, from + 1);
        assert forall i :: from + 1 <= i && i > |s| ==> MarkAt(s, i, 0).None?;
        r
  }

  /** `[A-Za-z]+\([^)]*\)` at `i`, a Python object's printed form, replaced by nothing. */
  function PyObjectAt(s: string, i: nat): (h: Option<Hit>)
    ensures h.Some? ==> h.value.rep == "" && i + h.value.len <= |s|
  {
    if i >= |s| then None
    else
      var k := TrackingRules.RunEnd(s, i, IsAsciiLetter);
      if k == i || k >= |s| || s[k] != '(' then None
      else match IndexOfChar(s[k + 1..], ')')
        case None => None
        case Some(q) => Some(Hit(k + 2 + q - i, ""))
  }

  /** A disclaimer that starts at or after a mark starts after the whole mark. */
  lemma DisclaimerAfterMark(s: string, p: nat, k: nat, q: nat)
    requires MarkAt(s, p, 0) == Some(k) && OccursAt(s, Disclaimer, q) && p <= q
    ensures p + |Marks[k]| <= q
  {
    MarksAvoidDisclaimer();
    assert s[q] == Disclaimer[0];
    assert forall x :: p <= x < p + |Marks[k]| ==> s[x] == Marks[k][x - p];
  }

  /** No character of a mark is the disclaimer's first. */
  lemma MarksAvoidDisclaimer()
    ensures forall k, x :: 0 <= k < |Marks| && 0 <= x < |Marks[k]| ==> Marks[k][x] != Disclaimer[0]
  {
    assert |Marks[4]| == 2;
  }

  /** The text from a mark to the end of a disclaimer after it. */
  function MarkToDisclaimer(s: string, p: nat, k: nat, q: nat): (r: string)
    requires MarkAt(s, p, 0) == Some(k) && OccursAt(s, Disclaimer, q) && p + |Marks[k]| <= q
    ensures StartsWithMark(r) && EndsWith(r, Disclaimer)
  {
    var r := s[p..q + |Disclaimer|];
    assert r[..|Marks[k]|] == s[p..p + |Marks[k]|];
    assert OccursAt(r, Marks[k], 0);
    assert r[|r| - |Disclaimer|..] == s[q..q + |Disclaimer|];
    r
  }

  /**
   * `re.search(r'(marks).*?disclaimer', s, re.DOTALL)`: the leftmost mark and the
   * nearest disclaimer after it. A later mark has no disclaimer after it when the
   * first has none, so the leftmost mark is the only start to try.
   */
  function ExtractSummary(s: string): (r: Option<string>)
    ensures r.Some? ==> StartsWithMark(r.value) && EndsWith(r.value, Disclaimer)
  {
    match FirstMark(s, 0)
    case None => None
    case Some((p, k)) =>
      match FindFrom(s, Disclaimer, p + |Marks[k]|)
      case None => None
      case Some(q) => Some(MarkToDisclaimer(s, p, k, q))
  }

  /** The summary put together when none can be extracted. */
  function DefaultMessage(m: Metadata): string
  {
    "📊" + DefaultBody(m) + Disclaimer
  }

  function DefaultBody(m: Metadata): string
  {
    " " + m.name + "(" + m.code + ") - 분석 요약\n        \n    1. 현재 주가: (정보 없음)\n    2. 최근 동향: (정보 없음)\n    3. 주요 체크포인트: 상세 분석 보고서를 참고하세요.\n    \n    ⚠️ 자동 생성 메시지 오류로 인해 상세 정보를 표시할 수 없습니다. 전체 보고서를 확인해 주세요.\n    "
  }

  lemma DefaultMessageShape(m: Metadata)
    ensures StartsWithMark(DefaultMessage(m)) && EndsWith(DefaultMessage(m), Disclaimer)
  {
    StartsWithConcat("📊", DefaultBody(m));
    StartsWithExtend("📊" + DefaultBody(m), "📊", Disclaimer);
    EndsWithConcat("📊" + DefaultBody(m), Disclaimer);
    assert Marks[0] == "📊";
    assert OccursAt(DefaultMessage(m), Marks[0], 0);
  }

  /**
   * The reply handling of `generate_telegram_message` for a text reply, as
   * written: a reply opening with a mark is kept; otherwise, with printed objects
   * removed, the text from the first mark to the end of the first disclaimer is
   * taken when both occur (empty when the disclaimer comes first); else the
   * extraction from the raw reply, else the default summary.
   */
  function CleanReplyAsWritten(reply: string, m: Metadata): (r: string)
  {
    if StartsWithMark(reply) then reply
    else
      var cleaned := Sub(reply, PyObjectAt);
      match (FirstMark(cleaned, 0), Find(cleaned, Disclaimer))
      case (Some((p, _)), Some(q)) => PySlice(cleaned, p, q + |Disclaimer|)
      case _ =>
        match ExtractSummary(reply)
        case Some(t) => t
        case None => DefaultMessage(m)
  }

  /** A cleaned reply whose first disclaimer ends before its first mark gives an empty summary. */
  lemma EmptySummary(reply: string, m: Metadata, p: nat, k: nat, q: nat)
    requires !StartsWithMark(reply)
    requires FirstMark(Sub(reply, PyObjectAt), 0) == Some((p, k))
    requires Find(Sub(reply, PyObjectAt), Disclaimer) == Some(q) && q + |Disclaimer| <= p
    ensures CleanReplyAsWritten(reply, m) == ""
  {
  }

  /**
   * The reply handling with the slice taken only when the disclaimer follows the
   * mark: every summary it gives opens with a mark, and one it builds ends with
   * the disclaimer.
   */
  function CleanReply(reply: string, m: Metadata): (r: string)
    ensures StartsWithMark(r)
    ensures r != reply ==> EndsWith(r, Disclaimer)
  {
    if StartsWithMark(reply) then reply
    else
      var cleaned := Sub(reply, PyObjectAt);
      var mark := FirstMark(cleaned, 0);
      var end := Find(cleaned, Disclaimer);
      if mark.Some? && end.Some? && mark.value.0 <= end.value then
        var (p, k) := mark.value;
        DisclaimerAfterMark(cleaned, p, k, end.value);
        MarkToDisclaimer(cleaned, p, k, end.value)
      else
        match ExtractSummary(reply)
        case Some(t) => t
        case None => DefaultMessageShape(m); DefaultMessage(m)
  }

  // ---------------------------------------------------------------------------
  // process_report

  /** The trigger `process_report` looks up: the metadata's date with its dots removed. */
  function ReportTrigger(m: Metadata, today: string, files: map<string, TriggerFile>): (r: (string, string))
    ensures r == DetermineTriggerType(m.code, Some(RemoveChar(m.date, '.')), today, files)
  {
    DetermineTriggerType(m.code, Some(RemoveChar(m.date, '.')), today, files)
  }

  /** Removing the dots of a date written YYYY.MM.DD gives back its eight digits. */
  lemma UndottedDate(d: string)
    requires |d| == 8 && AllDigits(d)
    ensures RemoveChar(d[..4] + "." + d[4..6] + "." + d[6..], '.') == d
  {
    var y, mo, dd := d[..4], d[4..6], d[6..];
    NoDotInDigits(y);
    NoDotInDigits(mo);
    NoDotInDigits(dd);
    DropDot(y + "." + mo, dd);
    DropDot(y, mo);
    assert y + mo + dd == d;
  }

  /** Removing the dots around a dot-free piece. */
  lemma DropDot(a: string, b: string)
    requires '.' !in b
    ensures RemoveChar(a + "." + b, '.') == RemoveChar(a, '.') + b
  {
    var u := a + ".";
    assert RemoveChar(u, '.') == RemoveChar(a, '.') by {
      RemoveCharConcat(a, ".", '.');
      assert RemoveChar(".", '.') == "";
    }
    assert RemoveChar(u + b, '.') == RemoveChar(u, '.') + b by {
      RemoveCharConcat(u, b, '.');
    }
  }

  lemma NoDotInDigits(s: string)
    requires AllDigits(s)
    ensures '.' !in s
  {
    assert forall x :: 0 <= x < |s| ==> IsDigit(s[x]);
  }

  /**
   * For a report named `{code}_{name}_{date}_{tail}.pdf` the trigger is looked up
   * under that code in the results files of that date.
   */
  lemma ReportTriggerOfName(c: string, n: string, d: string, t: string, todayDotted: string, today: string, files: map<string, TriggerFile>)
    requires |c| > 0 && forall k :: 0 <= k < |c| ==> IsWordChar(c[k])
    requires |n| > 0 && '_' !in n && '\n' !in n
    requires |d| == 8 && AllDigits(d)
    requires '\n' !in t && forall m: nat :: !DateMark("_" + t, m)
    ensures ReportTrigger(ExtractMetadata(c + "_" + n + "_" + d + "_" + t + PdfExt, todayDotted), today, files)
      == DetermineTriggerType(c, Some(d), today, files)
    ensures LookupDate(Some(d), today) == d
  {
    ReadsBack(c, n, d, t, IsWordChar, PdfExt, todayDotted);
    UndottedDate(d);
  }

  /** `os.path.join(output_dir, f"{code}_{name}_telegram.txt")`. */
  function MessageFile(outputDir: string, m: Metadata): (r: string)
    ensures EndsWith(r, m.code + "_" + m.name + "_telegram.txt")
  {
    PathJoin(outputDir, m.code + "_" + m.name + "_telegram.txt")
  }

  /**
   * A report name the pattern does not match has the code "N/A", whose '/' puts
   * its message file one directory down, in `N` under the output directory.
   */
  lemma FallbackMessageFile(filename: string, today: string, outputDir: string)
    requires Match(filename, IsWordChar, PdfExt).None?
    requires |outputDir| > 0 && outputDir[|outputDir| - 1] != '/'
    ensures MessageFile(outputDir, ExtractMetadata(filename, today)) ==
      (outputDir + "/N") + "/" + ("A_" + TrackingRules.Stem(filename) + "_telegram.txt")
  {
    var m := ExtractMetadata(filename, today);
    assert m.code == "N/A" && m.name == TrackingRules.Stem(filename);
    NestedPath(outputDir, TrackingRules.Stem(filename));
  }

  lemma NestedPath(outputDir: string, stem: string)
    requires |outputDir| > 0 && outputDir[|outputDir| - 1] != '/'
    ensures PathJoin(outputDir, "N/A" + "_" + stem + "_telegram.txt") ==
      (outputDir + "/N") + "/" + ("A_" + stem + "_telegram.txt")
  {
    var x := "A_" + stem + "_telegram.txt";
    var name := "N/A" + "_" + stem + "_telegram.txt";
    assert name == "N/" + x;
    AppendAssoc(outputDir + "/", "N/", x);
    assert outputDir + "/" + "N/" == (outputDir + "/N") + "/";
  }
}
