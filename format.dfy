/**
 * Python's format specifications for numbers as the messages use them:
 * `{x:,.0f}` (rounded to a whole number, thousands separated by commas),
 * `{x:.2f}` and `{x:+.2f}` (two decimals, the latter always signed). The value
 * formatted is an exact real; rounding is half to even, as Python rounds the
 * exact value of a float.
 */
module Format {
  import opened Text

  function Abs(x: real): real { if x < 0.0 then -x else x }

  /** The integer nearest to `x`, ties going to the even one. */
  function RoundHalfEven(x: real): (r: int)
    ensures (r as real) - 0.5 <= x <= (r as real) + 0.5
    ensures x == (r as real) + 0.5 ==> r % 2 == 0
    ensures x == (r as real) - 0.5 ==> r % 2 == 0
  {
    var f := x.Floor;
    var d := x - f as real;
    if d < 0.5 then f
    else if d > 0.5 then f + 1
    else if f % 2 == 0 then f
    else f + 1
  }

  /** A number below 1000 written with exactly three digits. */
  function Pad3(k: nat): (r: string)
    requires k < 1000
    ensures |r| == 3 && AllDigits(r) && DigitsValue(r) == k
  {
    var r := [DigitChar(k / 100), DigitChar(k / 10 % 10), DigitChar(k % 10)];
    assert r[..2][..1] == [r[0]] && r[..2][..1][..0] == [];
    assert DigitsValue(r[..2][..1]) == k / 100;
    assert DigitsValue(r[..2]) == k / 100 * 10 + k / 10 % 10;
    r
  }

  /** `str(n)` with a comma between every group of three digits counted from the right. */
  function Grouped(n: nat): (r: string)
    ensures RemoveChar(r, ',') == NatToString(n)
    ensures |r| > 0 && r[0] != ','
  {
    if n < 1000 then NatToString(n)
    else
      var head := Grouped(n / 1000);
      GroupedStep(n, head);
      head + "," + Pad3(n % 1000)
  }

  lemma GroupedStep(n: nat, head: string)
    requires n >= 1000 && RemoveChar(head, ',') == NatToString(n / 1000)
    ensures RemoveChar(head + "," + Pad3(n % 1000), ',') == NatToString(n)
  {
    var tail := Pad3(n % 1000);
    assert ',' !in tail;
    RemoveCharConcat(head, "," + tail, ',');
    RemoveCharConcat(",", tail, ',');
    assert RemoveChar(",", ',') == "";
    assert head + "," + tail == head + ("," + tail);
    NatToStringSplit3(n);
  }

  lemma {:induction false} RemoveCharConcat(a: string, b: string, c: char)
    ensures RemoveChar(a + b, c) == RemoveChar(a, c) + RemoveChar(b, c)
    decreases |a|
  {
    if |a| == 0 {
      assert a + b == b;
    } else {
      assert (a + b)[0] == a[0] && (a + b)[1..] == a[1..] + b;
      RemoveCharConcat(a[1..], b, c);
    }
  }

  /** A number of four or more digits is its thousands followed by its last three digits. */
  lemma NatToStringSplit3(n: nat)
    requires n >= 1000
    ensures NatToString(n) == NatToString(n / 1000) + Pad3(n % 1000)
  {
    var k := n % 1000;
    ThousandsDigits(n);
    var a, b, c := DigitChar(k / 100), DigitChar(k / 10 % 10), DigitChar(k % 10);
    NatToStringStep(n);
    NatToStringStep(n / 10);
    NatToStringStep(n / 100);
    assert Pad3(k) == [a, b, c];
    assert NatToString(n / 1000) + [a] + [b] + [c] == NatToString(n / 1000) + [a, b, c];
  }

  lemma NatToStringStep(m: nat)
    requires m >= 10
    ensures NatToString(m) == NatToString(m / 10) + [DigitChar(m % 10)]
  {
  }

  /** The last three decimal digits of `n` are those of `n % 1000`, and dropping three digits divides by 1000. */
  lemma ThousandsDigits(n: nat)
    ensures n / 10 / 10 == n / 100 && n / 100 / 10 == n / 1000
    ensures n % 10 == n % 1000 % 10
    ensures n / 10 % 10 == n % 1000 / 10 % 10
    ensures n / 100 % 10 == n % 1000 / 100
  {
    var q, r := n / 1000, n % 1000;
    assert n == 1000 * q + r;
    assert n / 10 == 100 * q + r / 10;
    assert n / 100 == 10 * q + r / 100;
  }

  /** `f"{x:,.0f}"`: the sign of `x`, then its rounded magnitude with thousands separators. */
  function Amount(x: real): (r: string)
    ensures x >= 0.0 ==> r == Grouped(RoundHalfEven(x))
    ensures x < 0.0 ==> r == "-" + Grouped(RoundHalfEven(-x))
  {
    var m := RoundHalfEven(Abs(x));
    (if x < 0.0 then "-" else "") + Grouped(m)
  }

  /** The two-decimal rendering of a non-negative number of hundredths. */
  function Hundredths(v: nat): (r: string)
    ensures |r| >= 4 && r[|r| - 3] == '.'
  {
    NatToString(v / 100) + "." + [DigitChar(v % 100 / 10), DigitChar(v % 10)]
  }

  /** `f"{x:.2f}"`. */
  function Fixed2(x: real): string
  {
    var m := RoundHalfEven(Abs(x) * 100.0);
    (if x < 0.0 then "-" else "") + Hundredths(m)
  }

  /** `f"{x:+.2f}"`: as `Fixed2`, with '+' in front of every non-negative value. */
  function SignedFixed2(x: real): (r: string)
    ensures x >= 0.0 ==> r == "+" + Fixed2(x)
    ensures x < 0.0 ==> r == Fixed2(x)
  {
    if x < 0.0 then Fixed2(x) else "+" + Fixed2(x)
  }

  /** A whole amount is written with its own digits: dropping the separators gives `str(n)`. */
  lemma AmountOfWhole(n: nat)
    ensures RemoveChar(Amount(n as real), ',') == NatToString(n)
  {
  }

  /** Hundredths of a whole number of hundredths are exact: `f"{v/100:.2f}"` shows `v`'s digits around the point. */
  lemma Fixed2OfHundredths(v: nat)
    ensures Fixed2(v as real / 100.0) == Hundredths(v)
  {
    assert Abs(v as real / 100.0) * 100.0 == v as real;
  }

  /** `f"{d[:4]}.{d[4:6]}.{d[6:8]}"`: a `YYYYMMDD` date written `YYYY.MM.DD`. */
  function DottedDate(d: string): (r: string)
    ensures |d| == 8 ==> r == d[..4] + "." + d[4..6] + "." + d[6..]
  {
    PySlice(d, 0, 4) + "." + PySlice(d, 4, 6) + "." + PySlice(d, 6, 8)
  }
}
