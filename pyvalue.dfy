/**
 * The values a decoded JSON document or a Python `dict` of scenario fields can
 * hold, with the few Python operations the agents apply to them: `dict.get` with
 * a default, truthiness, numeric comparison, `str()` and the `:,.0f` format.
 * An operation Python would reject with a `TypeError` or `ValueError` yields `None`.
 */
module PyValue {
  import opened Wrappers
  import opened Text
  import opened Format

  datatype Value =
    | Null
    | Bool(b: bool)
    | Int(i: int)
    | Float(r: real)
    | Str(s: string)
    | List(items: seq<Value>)
    | Dict(fields: map<string, Value>)

  /** `d.get(key, default)`. */
  function Get(d: map<string, Value>, key: string, default: Value): (v: Value)
    ensures key in d ==> v == d[key]
    ensures key !in d ==> v == default
  {
    if key in d then d[key] else default
  }

  /** `d.get(key, default)` on something decoded from JSON: only an object has `get`. */
  function GetIn(v: Value, key: string, default: Value): (r: Option<Value>)
    ensures v.Dict? <==> r.Some?
    ensures v.Dict? ==> r.value == Get(v.fields, key, default)
  {
    if v.Dict? then Some(Get(v.fields, key, default)) else None
  }

  /** Each key of a decoded JSON object appears once. */
  predicate UniqueKeys(e: seq<(string, Value)>)
  {
    forall i, j :: 0 <= i < j < |e| ==> e[i].0 != e[j].0
  }

  /** A decoded JSON object as `json.load` builds it: its entries in file order, each key once. */
  type Object = e: seq<(string, Value)> | UniqueKeys(e)

  /** `obj.get(key, default)`. */
  function ObjectGet(obj: Object, key: string, default: Value): (v: Value)
    ensures (forall i :: 0 <= i < |obj| ==> obj[i].0 != key) ==> v == default
    ensures forall i :: 0 <= i < |obj| && obj[i].0 == key ==> v == obj[i].1
    decreases |obj|
  {
    if |obj| == 0 then default
    else if obj[0].0 == key then obj[0].1
    else
      var rest: Object := obj[1..];
      ObjectGet(rest, key, default)
  }

  /** `bool(v)`. */
  predicate Truthy(v: Value)
  {
    match v
    case Null => false
    case Bool(b) => b
    case Int(i) => i != 0
    case Float(r) => r != 0.0
    case Str(s) => |s| > 0
    case List(items) => |items| > 0
    case Dict(fields) => |fields| > 0
  }

  /** The numeric value of a number (a bool counts as 0 or 1); `None` for anything arithmetic rejects. */
  function Number(v: Value): (r: Option<real>)
    ensures r.Some? <==> v.Bool? || v.Int? || v.Float?
    ensures v.Int? ==> r == Some(v.i as real)
    ensures v.Float? ==> r == Some(v.r)
  {
    match v
    case Bool(b) => Some(if b then 1.0 else 0.0)
    case Int(i) => Some(i as real)
    case Float(r) => Some(r)
    case _ => None
  }

  /** What a value's hash and `==` identify it by in a Python `set`: numbers by value (`1 == 1.0 == True`), strings by text. */
  datatype Key = NoneKey | NumKey(x: real) | StrKey(s: string)

  /** A set can hold the value: lists and dicts raise `TypeError: unhashable type`. */
  predicate Hashable(v: Value)
  {
    !v.List? && !v.Dict?
  }

  function KeyOf(v: Value): (k: Key)
    requires Hashable(v)
    ensures v.Str? <==> k.StrKey?
    ensures Number(v).Some? ==> k == NumKey(Number(v).value)
  {
    match v
    case Null => NoneKey
    case Bool(b) => NumKey(if b then 1.0 else 0.0)
    case Int(i) => NumKey(i as real)
    case Float(r) => NumKey(r)
    case Str(s) => StrKey(s)
  }

  /** Code-point order on strings, as Python compares `str`. */
  predicate StrLess(a: string, b: string)
    decreases |a|
  {
    if |a| == 0 then |b| > 0
    else if |b| == 0 then false
    else if a[0] != b[0] then a[0] < b[0]
    else StrLess(a[1..], b[1..])
  }

  /** Code-point order is total: two different strings are ordered one way. */
  lemma {:induction false} StrLessTotal(a: string, b: string)
    ensures a == b || StrLess(a, b) || StrLess(b, a)
    ensures !(StrLess(a, b) && StrLess(b, a))
    decreases |a|
  {
    if |a| > 0 && |b| > 0 && a[0] == b[0] {
      StrLessTotal(a[1..], b[1..]);
      if a[1..] == b[1..] { assert a == [a[0]] + a[1..] && b == [b[0]] + b[1..]; }
    }
  }

  /** Code-point order is transitive. */
  lemma {:induction false} StrLessTrans(a: string, b: string, c: string)
    requires StrLess(a, b) && StrLess(b, c)
    ensures StrLess(a, c)
    decreases |a|
  {
    if |a| > 0 && a[0] == b[0] && b[0] == c[0] {
      StrLessTrans(a[1..], b[1..], c[1..]);
    }
  }

  /** The least string of a set, in code-point order. */
  predicate Least(s: set<string>, k: string)
  {
    k in s && forall y :: y in s ==> !StrLess(y, k)
  }

  /** A non-empty set of strings has a least element. */
  lemma {:induction false} HasLeast(s: set<string>)
    requires s != {}
    ensures exists k :: Least(s, k)
    decreases |s|
  {
    var x :| x in s;
    if s - {x} == {} {
      assert s == {x};
      assert !StrLess(x, x) by { StrLessTotal(x, x); }
      assert Least(s, x);
    } else {
      HasLeast(s - {x});
      var y :| Least(s - {x}, y);
      if StrLess(x, y) {
        forall z | z in s ensures !StrLess(z, x) {
          StrLessTotal(z, x);
          if z != x && StrLess(z, x) { StrLessTrans(z, x, y); }
        }
        assert Least(s, x);
      } else {
        StrLessTotal(x, y);
        assert Least(s, y);
      }
    }
  }

  /** Two least elements are the same string. */
  lemma LeastUnique(s: set<string>, k: string, j: string)
    requires Least(s, k) && Least(s, j)
    ensures k == j
  {
    StrLessTotal(k, j);
  }

  /** At most one string of a set is least. */
  lemma LeastIsUnique(s: set<string>)
    ensures forall k, j :: Least(s, k) && Least(s, j) ==> k == j
  {
    forall k, j | Least(s, k) && Least(s, j) ensures k == j { LeastUnique(s, k, j); }
  }

  /** The least string comes before every other string of the set. */
  lemma LeastBelowOthers(s: set<string>, k: string, rest: seq<string>)
    requires Least(s, k)
    requires forall y :: y in rest ==> y in s - {k}
    ensures forall i :: 0 <= i < |rest| ==> StrLess(k, rest[i])
  {
    forall i | 0 <= i < |rest| ensures StrLess(k, rest[i]) {
      assert rest[i] in rest;
      StrLessTotal(k, rest[i]);
    }
  }

  /** The strings of a set in increasing code-point order. */
  function SortedKeys(s: set<string>): (r: seq<string>)
    ensures |r| == |s|
    ensures forall k :: k in s <==> k in r
    ensures forall i, j :: 0 <= i < j < |r| ==> StrLess(r[i], r[j])
    decreases |s|
  {
    if s == {} then []
    else
      HasLeast(s);
      LeastIsUnique(s);
      var k :| Least(s, k);
      var rest := SortedKeys(s - {k});
      LeastBelowOthers(s, k, rest);
      [k] + rest
  }

  /**
   * `a < b` for numbers with numbers and strings with strings; every other pair,
   * two lists included, is modelled as raising (Python would compare two lists
   * item by item, which no caller here relies on).
   */
  function Less(a: Value, b: Value): (r: Option<bool>)
    ensures Number(a).Some? && Number(b).Some? ==> r == Some(Number(a).value < Number(b).value)
    ensures r.None? <==> !((Number(a).Some? && Number(b).Some?) || (a.Str? && b.Str?))
  {
    if Number(a).Some? && Number(b).Some? then Some(Number(a).value < Number(b).value)
    else if a.Str? && b.Str? then Some(StrLess(a.s, b.s))
    else None
  }

  /**
   * `str(v)` for the scalar values. A list or a dict is shown as the placeholder
   * "[…]" or "{…}", not as Python's rendering of its items.
   */
  function Show(v: Value): (r: string)
    ensures v.Str? ==> r == v.s
    ensures v.Int? ==> r == IntToString(v.i)
  {
    match v
    case Null => "None"
    case Bool(b) => if b then "True" else "False"
    case Int(i) => IntToString(i)
    case Float(r) => FloatText(r)
    case Str(s) => s
    case List(_) => "[…]"
    case Dict(_) => "{…}"
  }

  /**
   * `str(x)` of a float where it is exact: a whole number below 10^16 prints as
   * its digits and ".0". Any other value is shown with two decimals, which is not
   * Python's shortest round-tripping `repr` (7.5 is shown as "7.50").
   */
  function FloatText(x: real): (r: string)
    ensures x == x.Floor as real && Abs(x) < 10000000000000000.0 ==> r == IntToString(x.Floor) + ".0"
  {
    if x == x.Floor as real && Abs(x) < 10000000000000000.0 then IntToString(x.Floor) + ".0" else Fixed2(x)
  }

  /** `f"{v:,.0f}"`: defined for numbers only. */
  function AmountOf(v: Value): (r: Option<string>)
    ensures r.Some? <==> Number(v).Some?
    ensures r.Some? ==> r.value == Amount(Number(v).value)
  {
    match Number(v)
    case Some(x) => Some(Amount(x))
    case None => None
  }

  /** `int(s)` for a string: optional surrounding whitespace, an optional sign, then decimal digits. */
  function ParseInt(s: string): (r: Option<int>)
    ensures r.Some? ==> Strip(s) != ""
  {
    var t := Strip(s);
    if |t| == 0 then None
    else if (t[0] == '-' || t[0] == '+') && |t| > 1 && AllDigits(t[1..]) then
      Some(if t[0] == '-' then -(DigitsValue(t[1..]) as int) else DigitsValue(t[1..]) as int)
    else if AllDigits(t) then Some(DigitsValue(t) as int)
    else None
  }

  /** `int()` reads back what `str()` writes for an integer. */
  lemma ParseIntOfIntToString(n: int)
    ensures ParseInt(IntToString(n)) == Some(n)
  {
    var t := IntToString(n);
    assert Strip(t) == t by { StripNoSpace(t); }
    if n < 0 {
      assert t[1..] == NatToString(-n);
    }
  }

  /** A string with no whitespace at either end is its own `strip()`. */
  lemma StripNoSpace(t: string)
    requires (|t| > 0 && AllDigits(t)) || (|t| > 1 && t[0] == '-' && AllDigits(t[1..]))
    ensures Strip(t) == t
  {
    assert !IsSpace(t[0]) by { if AllDigits(t) { assert IsDigit(t[0]); } }
    assert LStrip(t) == t;
    assert !IsSpace(t[|t| - 1]) by {
      if AllDigits(t) { assert IsDigit(t[|t| - 1]); }
      else { assert t[|t| - 1] == t[1..][|t| - 2]; assert IsDigit(t[1..][|t| - 2]); }
    }
  }
}
