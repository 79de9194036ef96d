/**
 * The stock catalogue of update_stock_data.py and stock_data_manager.py: the
 * code-to-name dict built from the KOSPI and KOSDAQ listings, its inversion
 * into a name-to-code dict, whether the stored catalogue is due for a
 * refresh, and the manager that loads and replaces it.
 *
 * A Python dict is modelled by its items in iteration order. Assigning a
 * key that is present keeps its place and replaces its value; a new key goes
 * last. The market listings, the clock and the files are inputs.
 */
module StockData {
  import opened Wrappers
  import PyValue

  /** A dict from strings to strings, as its items in order. */
  type Pairs = seq<(string, string)>


  function Keys(d: Pairs): (ks: set<string>)
    ensures forall i :: 0 <= i < |d| ==> d[i].0 in ks
  {
    if |d| == 0 then {} else {d[0].0} + Keys(d[1..])
  }

  /** Each key occurs once, as in every dict. */
  predicate IsDict(d: Pairs)
  {
    |d| == 0 || (d[0].0 !in Keys(d[1..]) && IsDict(d[1..]))
  }

  /** Two items of a dict have different keys. */
  lemma {:induction false} DictDistinct(d: Pairs, i: nat, j: nat)
    requires IsDict(d) && i < j < |d|
    ensures d[i].0 != d[j].0
  {
    if i > 0 {
      DictDistinct(d[1..], i - 1, j - 1);
    } else {
      assert d[j] == d[1..][j - 1];
    }
  }

  /** The keys of two runs of items together. */
  lemma {:induction false} KeysAppend(a: Pairs, b: Pairs)
    ensures Keys(a + b) == Keys(a) + Keys(b)
  {
    if |a| > 0 {
      KeysAppend(a[1..], b);
      assert (a + b)[0] == a[0] && (a + b)[1..] == a[1..] + b;
    } else {
      assert a + b == b;
    }
  }

  /** The keys of all but the last item, and the last one. */
  lemma KeysFront(e: Pairs)
    requires |e| > 0
    ensures Keys(e) == Keys(e[..|e| - 1]) + {e[|e| - 1].0}
  {
    KeysAppend(e[..|e| - 1], [e[|e| - 1]]);
    assert e[..|e| - 1] + [e[|e| - 1]] == e;
  }

  function Values(d: Pairs): (vs: set<string>)
    ensures forall i :: 0 <= i < |d| ==> d[i].1 in vs
  {
    if |d| == 0 then {} else {d[0].1} + Values(d[1..])
  }

  /** `d[k]`, or `None` for a missing key. */
  function Lookup(d: Pairs, k: string): (r: Option<string>)
    ensures r.None? <==> k !in Keys(d)
    ensures r.Some? ==> (k, r.value) in d
  {
    if |d| == 0 then None
    else if d[0].0 == k then Some(d[0].1)
    else Lookup(d[1..], k)
  }

  /** In a dict, an item's value is the lookup of its key. */
  lemma {:induction false} LookupItem(d: Pairs, i: nat)
    requires IsDict(d) && i < |d|
    ensures Lookup(d, d[i].0) == Some(d[i].1)
  {
    if i > 0 {
      LookupItem(d[1..], i - 1);
    }
  }

  /** `d[k] = v`. */
  function Put(d: Pairs, k: string, v: string): (r: Pairs)
    ensures |r| == if k in Keys(d) then |d| else |d| + 1
    ensures Keys(r) == Keys(d) + {k}
    ensures forall i :: 0 <= i < |d| && d[i].0 != k ==> r[i] == d[i]
    ensures IsDict(d) ==> IsDict(r)
  {
    if |d| == 0 then [(k, v)]
    else if d[0].0 == k then [(k, v)] + d[1..]
    else [d[0]] + Put(d[1..], k, v)
  }

  /** After `d[k] = v`, `k` looks up `v` and every other key what it did before. */
  lemma {:induction false} LookupPut(d: Pairs, k: string, v: string, x: string)
    ensures Lookup(Put(d, k, v), x) == if x == k then Some(v) else Lookup(d, x)
  {
    if |d| > 0 && d[0].0 != k {
      LookupPut(d[1..], k, v, x);
    }
  }

  /** The items of `e` assigned one after the other, as a dict comprehension or `{**d, **e}` does. */
  function PutAll(d: Pairs, e: Pairs): (r: Pairs)
    ensures |r| <= |d| + |e|
    ensures Keys(r) == Keys(d) + Keys(e)
    ensures IsDict(d) ==> IsDict(r)
    decreases |e|
  {
    if |e| == 0 then d
    else
      var front := e[..|e| - 1];
      KeysFront(e);
      Put(PutAll(d, front), e[|e| - 1].0, e[|e| - 1].1)
  }

  /** The value of the last item of `e` with key `k`: the one that survives in a comprehension. */
  function LastLookup(e: Pairs, k: string): (r: Option<string>)
    ensures r.None? <==> k !in Keys(e)
    ensures r.Some? ==> (k, r.value) in e
    ensures forall i :: 0 <= i < |e| && e[i].0 == k && (forall j :: i < j < |e| ==> e[j].0 != k) ==> r == Some(e[i].1)
    decreases |e|
  {
    if |e| == 0 then None
    else if e[|e| - 1].0 == k then Some(e[|e| - 1].1)
    else
      var front := e[..|e| - 1];
      KeysFront(e);
      LastLookup(front, k)
  }

  /** After assigning the items of `e`, a key of `e` holds its last value there and any other key keeps its value. */
  lemma {:induction false} LookupPutAll(d: Pairs, e: Pairs, x: string)
    ensures Lookup(PutAll(d, e), x) == if x in Keys(e) then LastLookup(e, x) else Lookup(d, x)
    decreases |e|
  {
    if |e| > 0 {
      var front := e[..|e| - 1];
      KeysFront(e);
      LookupPutAll(d, front, x);
      LookupPut(PutAll(d, front), e[|e| - 1].0, e[|e| - 1].1, x);
    }
  }

  /** `{ticker: name(ticker) for ticker in tickers}`, the listing given as its `(ticker, name)` pairs. */
  function Listing(pairs: Pairs): (r: Pairs)
    ensures IsDict(r) && Keys(r) == Keys(pairs) && |r| <= |pairs|
  {
    PutAll([], pairs)
  }

  /** `{**kospi, **kosdaq}`. */
  function Merge(kospi: Pairs, kosdaq: Pairs): (r: Pairs)
    requires IsDict(kospi)
    ensures IsDict(r) && Keys(r) == Keys(kospi) + Keys(kosdaq)
  {
    PutAll(kospi, kosdaq)
  }

  /** A code listed on KOSDAQ takes its KOSDAQ name; any other code keeps its KOSPI name. */
  lemma MergeOverrides(kospi: Pairs, kosdaq: Pairs, code: string)
    requires IsDict(kospi) && IsDict(kosdaq)
    ensures Lookup(Merge(kospi, kosdaq), code) == if code in Keys(kosdaq) then Lookup(kosdaq, code) else Lookup(kospi, code)
  {
    LookupPutAll(kospi, kosdaq, code);
    if code in Keys(kosdaq) {
      LastIsOnly(kosdaq, code);
    }
  }

  /** In a dict, the last item with a key is its only one. */
  lemma {:induction false} LastIsOnly(d: Pairs, k: string)
    requires IsDict(d)
    ensures LastLookup(d, k) == Lookup(d, k)
  {
    if k in Keys(d) {
      var i := IndexOf(d, k);
      forall j | i < j < |d| ensures d[j].0 != k {
        DictDistinct(d, i, j);
      }
      LookupItem(d, i);
    }
  }

  /** The position of a key. */
  function IndexOf(d: Pairs, k: string): (i: nat)
    requires k in Keys(d)
    ensures i < |d| && d[i].0 == k
  {
    if d[0].0 == k then 0
    else
      assert k in Keys(d[1..]) by {
        assert forall i :: 0 < i < |d| ==> d[i] == d[1..][i - 1];
      }
      1 + IndexOf(d[1..], k)
  }

  /** Each item turned around. */
  function Swapped(d: Pairs): (r: Pairs)
    ensures |r| == |d| && forall i :: 0 <= i < |d| ==> r[i] == (d[i].1, d[i].0)
  {
    if |d| == 0 then [] else [(d[0].1, d[0].0)] + Swapped(d[1..])
  }

  /** `{name: code for code, name in d.items()}`. */
  function Invert(d: Pairs): (r: Pairs)
    ensures IsDict(r)
  {
    PutAll([], Swapped(d))
  }

  /** The inversion of a dict undoes it: each name maps to a code that has that very name. */
  lemma InvertIsInverse(d: Pairs, name: string)
    requires IsDict(d)
    requires name in Keys(Invert(d))
    ensures Lookup(Invert(d), name).Some?
    ensures Lookup(d, Lookup(Invert(d), name).value) == Some(name)
  {
    var s := Swapped(d);
    LookupPutAll([], s, name);
    var code := LastLookup(s, name).value;
    var i := IndexIn(s, (name, code));
    LookupItem(d, i);
  }

  /** The position of an item. */
  function IndexIn(s: Pairs, p: (string, string)): (i: nat)
    requires p in s
    ensures i < |s| && s[i] == p
  {
    if s[0] == p then 0 else 1 + IndexIn(s[1..], p)
  }

  /** The names of the inverted dict are the values of the original, so it is never larger. */
  lemma InvertKeys(d: Pairs)
    ensures Keys(Invert(d)) == Values(d)
    ensures |Invert(d)| <= |d|
  {
    var s := Swapped(d);
    assert Keys(s) == Values(d) by {
      forall v | v in Values(d) ensures v in Keys(s) {
        var i := IndexOfValue(d, v);
        assert s[i].0 == v;
      }
    }
  }

  /** The position of a value. */
  function IndexOfValue(d: Pairs, v: string): (i: nat)
    requires v in Values(d)
    ensures i < |d| && d[i].1 == v
  {
    if d[0].1 == v then 0
    else
      assert v in Values(d[1..]) by {
        assert forall i :: 0 < i < |d| ==> d[i] == d[1..][i - 1];
      }
      1 + IndexOfValue(d[1..], v)
  }

  /** When several codes share a name, the inverted dict keeps the last of them. */
  lemma InvertKeepsLast(d: Pairs, i: nat)
    requires i < |d| && forall j :: i < j < |d| ==> d[j].1 != d[i].1
    ensures Lookup(Invert(d), d[i].1) == Some(d[i].0)
  {
    var s := Swapped(d);
    LookupPutAll([], s, d[i].1);
    assert s[i].0 == d[i].1;
  }

  /** The catalogue file `update_stock_data` writes: both dicts (the timestamp is left out). */
  datatype Catalogue = Catalogue(codeToName: Pairs, nameToCode: Pairs)

  /** The catalogue of two listings: KOSPI merged with KOSDAQ, and its inversion. */
  function Build(kospi: Pairs, kosdaq: Pairs): (c: Catalogue)
    ensures IsDict(c.codeToName) && Keys(c.codeToName) == Keys(kospi) + Keys(kosdaq)
    ensures c.nameToCode == Invert(c.codeToName)
  {
    var codeToName := Merge(Listing(kospi), Listing(kosdaq));
    Catalogue(codeToName, Invert(codeToName))
  }

  /**
   * `update_stock_data` of update_stock_data.py: the listings (`None` when
   * fetching one raises), whether the write succeeds, and what comes out:
   * `True` with the written catalogue, or `False` with nothing written.
   */
  function UpdateStockData(kospi: Option<Pairs>, kosdaq: Option<Pairs>, writeOk: bool): (r: (bool, Option<Catalogue>))
    ensures r.0 <==> kospi.Some? && kosdaq.Some? && writeOk
    ensures r.0 <==> r.1.Some?
    ensures r.0 ==> r.1.value == Build(kospi.value, kosdaq.value)
  {
    if kospi.None? || kosdaq.None? || !writeOk then (false, None)
    else (true, Some(Build(kospi.value, kosdaq.value)))
  }

  /** Every name of a written catalogue is a key of the name dict exactly when it is a value of the code dict, and maps back to a code of that name. */
  lemma CatalogueConsistent(kospi: Pairs, kosdaq: Pairs, name: string)
    ensures var c := Build(kospi, kosdaq);
      (name in Keys(c.nameToCode) <==> name in Values(c.codeToName)) &&
      (name in Keys(c.nameToCode) ==> Lookup(c.codeToName, Lookup(c.nameToCode, name).value) == Some(name))
  {
    var c := Build(kospi, kosdaq);
    InvertKeys(c.codeToName);
    if name in Keys(c.nameToCode) {
      InvertIsInverse(c.codeToName, name);
    }
  }

  // ---------------------------------------------------------------- the manager

  /** One day, in microseconds. */
  const DayMicros := 86400000000

  /** What the last-update file holds: nothing, something that does not read as a timestamp, or a timestamp. */
  datatype LastUpdate = Missing | Unreadable | Stamp(micros: int)

  /** `needs_update`: due when the stamp is missing or unreadable, else when at least `days` whole days have passed (`timedelta.days` rounds down). */
  predicate NeedsUpdate(last: LastUpdate, now: int, days: int)
  {
    match last
    case Missing => true
    case Unreadable => true
    case Stamp(t) => (now - t) / DayMicros >= days
  }

  /** With a readable stamp, a refresh is due exactly once `days` full days have elapsed. */
  lemma NeedsUpdateIff(t: int, now: int, days: int)
    ensures NeedsUpdate(Stamp(t), now, days) <==> now - t >= days * DayMicros
  {
  }

  /** Once due, a refresh stays due as time goes on. */
  lemma {:induction false} NeedsUpdateMonotone(last: LastUpdate, now: int, later: int, days: int)
    requires now <= later && NeedsUpdate(last, now, days)
    ensures NeedsUpdate(last, later, days)
  {
    if last.Stamp? {
      NeedsUpdateIff(last.micros, now, days);
      NeedsUpdateIff(last.micros, later, days);
    }
  }

  /** `len(v)`; `None` where Python raises a `TypeError`. */
  function Len(v: PyValue.Value): (n: Option<nat>)
    ensures n.Some? <==> v.Str? || v.List? || v.Dict?
  {
    match v
    case Str(s) => Some(|s|)
    case List(items) => Some(|items|)
    case Dict(fields) => Some(|fields|)
    case _ => None
  }

  /** `data[key]` on what `json.load` returned; `None` where Python raises. */
  function Field(data: PyValue.Value, key: string): (r: Option<PyValue.Value>)
    ensures r.Some? <==> data.Dict? && key in data.fields
  {
    if data.Dict? && key in data.fields then Some(data.fields[key]) else None
  }

  /** A dict of names as a JSON object. */
  function AsObject(d: Pairs): (v: PyValue.Value)
    ensures v.Dict? && v.fields.Keys == Keys(d)
    ensures forall k :: k in Keys(d) ==> v.fields[k] == PyValue.Str(Lookup(d, k).value)
  {
    PyValue.Dict(map k | k in Keys(d) :: PyValue.Str(Lookup(d, k).value))
  }

  /** `StockDataManager`: the two maps it serves lookups from. */
  class StockDataManager {
    var stockMap: PyValue.Value
    var stockNameMap: PyValue.Value

    /** The maps start empty, then the stored catalogue is loaded. */
    constructor (file: Option<Option<PyValue.Value>>)
      ensures stockMap == (if file.Some? && file.value.Some? && Field(file.value.value, "code_to_name").Some?
        then Field(file.value.value, "code_to_name").value else PyValue.Dict(map[]))
      ensures stockNameMap == (if file.Some? && file.value.Some? && Field(file.value.value, "code_to_name").Some?
        && Field(file.value.value, "name_to_code").Some? then Field(file.value.value, "name_to_code").value else PyValue.Dict(map[]))
    {
      stockMap := PyValue.Dict(map[]);
      stockNameMap := PyValue.Dict(map[]);
      new;
      var _ := LoadStockData(file);
    }

    /**
     * `load_stock_data`: `file` is `None` when the file does not exist and
     * holds `None` when it does not parse. Each map is assigned as soon as it
     * is read, so a document lacking "name_to_code" leaves the new
     * `stockMap` beside the old `stockNameMap`. The answer is whether a
     * non-empty map was loaded.
     */
    method LoadStockData(file: Option<Option<PyValue.Value>>) returns (ok: bool)
      modifies this
      ensures var data := if file.Some? && file.value.Some? then file.value.value else PyValue.Null;
        var codes := Field(data, "code_to_name");
        var names := Field(data, "name_to_code");
        stockMap == (if codes.Some? then codes.value else old(stockMap)) &&
        stockNameMap == (if codes.Some? && names.Some? then names.value else old(stockNameMap)) &&
        (ok <==> codes.Some? && names.Some? && Len(codes.value).Some? && Len(codes.value).value > 0)
    {
      if file.None? || file.value.None? {
        return false;
      }
      var data := file.value.value;
      var codes := Field(data, "code_to_name");
      if codes.None? {
        return false;
      }
      stockMap := codes.value;
      var names := Field(data, "name_to_code");
      if names.None? {
        return false;
      }
      stockNameMap := names.value;
      var n := Len(stockMap);
      if n.None? {
        return false;
      }
      ok := n.value > 0;
    }

    /**
     * `update_stock_data` of the manager: when both listings arrive, the maps
     * become the merged catalogue and its inversion, even if writing the files
     * then fails; the answer is `True` only when both writes go through.
     */
    method UpdateStockData(kospi: Option<Pairs>, kosdaq: Option<Pairs>, writeOk: bool) returns (ok: bool)
      modifies this
      ensures ok <==> kospi.Some? && kosdaq.Some? && writeOk
      ensures kospi.Some? && kosdaq.Some? ==>
        var c := Build(kospi.value, kosdaq.value);
        stockMap == AsObject(c.codeToName) && stockNameMap == AsObject(c.nameToCode)
      ensures kospi.None? || kosdaq.None? ==> stockMap == old(stockMap) && stockNameMap == old(stockNameMap)
    {
      if kospi.None? || kosdaq.None? {
        return false;
      }
      var c := Build(kospi.value, kosdaq.value);
      stockMap := AsObject(c.codeToName);
      stockNameMap := AsObject(c.nameToCode);
      ok := writeOk;
    }
  }

  /** After a refresh the name map inverts the code map: looking up a name's code gives back the name. */
  lemma UpdatedMapsInvert(kospi: Pairs, kosdaq: Pairs, name: string)
    requires name in AsObject(Build(kospi, kosdaq).nameToCode).fields
    ensures var c := Build(kospi, kosdaq);
      var code := AsObject(c.nameToCode).fields[name];
      code.Str? && code.s in AsObject(c.codeToName).fields && AsObject(c.codeToName).fields[code.s] == PyValue.Str(name)
  {
    var c := Build(kospi, kosdaq);
    InvertIsInverse(c.codeToName, name);
  }
}
