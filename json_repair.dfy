/**
 * The JSON syntax repair applied to language-model output before parsing it as a
 * trading scenario: five regular-expression rewrites applied in a fixed order.
 * The same five rewrites appear in the test module and in the tracking agent.
 */
module JsonRepair {
  import opened Wrappers
  import opened Text
  import opened ReSub

  predicate IsCloser(c: char) { c == '}' || c == ']' }

  /** Pass 1, `,(\s*[}\]])` -> `\1`: a comma followed by optional whitespace and a closing bracket loses the comma. */
  function TrailingComma(s: string, i: nat): (h: Option<Hit>)
    ensures h.Some? ==> i < |s| && s[i] == ','
  {
    if i < |s| && s[i] == ',' then
      var k := SpaceEnd(s, i + 1);
      if k < |s| && IsCloser(s[k]) then Some(Hit(k + 1 - i, s[i + 1..k + 1])) else None
    else None
  }

  /**
   * Passes 2 to 4, `(X)\s*(\n\s*")` -> `\1,\2` where `X` is the character class
   * `opener`: after an `X`, a run of whitespace that holds a newline and is followed
   * by a quote gets a comma right after the `X`. Because the first `\s*` is greedy,
   * `\2` starts at the LAST newline of the run, so the whitespace before that
   * newline is dropped.
   */
  function CommaBeforeKey(s: string, i: nat, opener: char -> bool): (h: Option<Hit>)
    ensures h.Some? ==> i + 1 < |s| && opener(s[i]) && IsSpace(s[i + 1])
  {
    if i < |s| && opener(s[i]) then
      var q := SpaceEnd(s, i + 1);
      if q < |s| && s[q] == '"' then
        match LastIndexOf(s[i + 1..q], '\n')
        case Some(p) => Some(Hit(q + 1 - i, [s[i], ','] + s[i + 1 + p..q + 1]))
        case None => None
      else None
    else None
  }

  predicate IsBracketClose(c: char) { c == ']' }

  predicate IsBraceClose(c: char) { c == '}' }

  predicate IsDigitOrQuote(c: char) { IsDigit(c) || c == '"' }

  function AfterArray(s: string, i: nat): (h: Option<Hit>)
    ensures h.Some? ==> i + 1 < |s| && s[i] == ']' && IsSpace(s[i + 1])
  {
    CommaBeforeKey(s, i, IsBracketClose)
  }

  function AfterObject(s: string, i: nat): (h: Option<Hit>)
    ensures h.Some? ==> i + 1 < |s| && s[i] == '}' && IsSpace(s[i + 1])
  {
    CommaBeforeKey(s, i, IsBraceClose)
  }

  function AfterValue(s: string, i: nat): (h: Option<Hit>)
    ensures h.Some? ==> i + 1 < |s| && IsDigitOrQuote(s[i]) && IsSpace(s[i + 1])
  {
    CommaBeforeKey(s, i, IsDigitOrQuote)
  }

  /** Pass 5, `,\s*,` -> `,`: two commas separated only by whitespace become one. */
  function DoubleComma(s: string, i: nat): (h: Option<Hit>)
    ensures h.Some? ==> i < |s| && s[i] == ','
  {
    if i < |s| && s[i] == ',' then
      var k := SpaceEnd(s, i + 1);
      if k < |s| && s[k] == ',' then Some(Hit(k + 1 - i, ",")) else None
    else None
  }

  /** `fix_json_syntax`: the five passes in their fixed order. */
  function FixJsonSyntax(s: string): string
  {
    var s1 := Sub(s, TrailingComma);
    var s2 := Sub(s1, AfterArray);
    var s3 := Sub(s2, AfterObject);
    var s4 := Sub(s3, AfterValue);
    Sub(s4, DoubleComma)
  }

  /** Passes 2 to 4 need a newline after the character they follow; without one they change nothing. */
  lemma KeyPassesNeedNewline(s: string)
    requires '\n' !in s
    ensures Sub(s, AfterArray) == s && Sub(s, AfterObject) == s && Sub(s, AfterValue) == s
  {
    forall j | 0 <= j < |s| ensures NoHitAt(s, j, AfterArray) && NoHitAt(s, j, AfterObject) && NoHitAt(s, j, AfterValue) {
      NoNewlineNoKeyComma(s, j, IsBracketClose);
      NoNewlineNoKeyComma(s, j, IsBraceClose);
      NoNewlineNoKeyComma(s, j, IsDigitOrQuote);
    }
    NoHitUnchanged(s, AfterArray);
    NoHitUnchanged(s, AfterObject);
    NoHitUnchanged(s, AfterValue);
  }

  /** Every rewrite needs a ',' or a '\n' where it matches; without either the text is returned as it was. */
  lemma NoCommaNoNewlineUnchanged(s: string)
    requires ',' !in s && '\n' !in s
    ensures FixJsonSyntax(s) == s
  {
    forall j | 0 <= j < |s| ensures NoHitAt(s, j, TrailingComma) && NoHitAt(s, j, DoubleComma) {
    }
    NoHitUnchanged(s, TrailingComma);
    KeyPassesNeedNewline(s);
    NoHitUnchanged(s, DoubleComma);
  }

  /** Passes 1 and 5 both start at a comma, so a stretch without commas is quiet for both. */
  lemma CommaFreeQuiet(s: string, lo: nat, hi: nat)
    requires lo <= hi <= |s|
    requires forall k :: lo <= k < hi ==> s[k] != ','
    ensures forall j :: lo <= j < hi ==> NoHitAt(s, j, TrailingComma) && NoHitAt(s, j, DoubleComma)
  {
  }

  lemma NoNewlineNoKeyComma(s: string, i: nat, opener: char -> bool)
    requires '\n' !in s
    ensures CommaBeforeKey(s, i, opener).None?
  {
    if i < |s| && opener(s[i]) {
      var q := SpaceEnd(s, i + 1);
      if q < |s| && s[q] == '"' {
        ghost var run := s[i + 1..q];
        assert forall k :: 0 <= k < |run| ==> run[k] == s[i + 1 + k];
      }
    }
  }

  // Two of the short cases of the repair tests, evaluated pass by pass.

  /** The object both cases repair to. */
  const RepairedObject := "{\"a\": 1, \"b\": 2}"

  /** The input of the trailing-comma case. */
  const TrailingCommaCase := "{\"a\": 1, \"b\": 2,}"

  /** The input of the doubled-comma case. */
  const DoubleCommaCase := "{\"a\": 1,, \"b\": 2}"

  /** Both cases are written on one line, so passes 2 to 4 leave them alone. */
  lemma CasesSingleLine()
    ensures '\n' !in DoubleCommaCase && '\n' !in RepairedObject
  {
  }

  /** A trailing comma before a closing brace is dropped (tests/test_json_parsing.py:182-185). */
  lemma TrailingCommaVector()
    ensures FixJsonSyntax(TrailingCommaCase) == RepairedObject
  {
    TrailingCommaVectorPass1();
    CasesSingleLine();
    KeyPassesNeedNewline(RepairedObject);
    RepairedObjectPass5();
  }

  lemma TrailingCommaVectorPass1()
    ensures Sub(TrailingCommaCase, TrailingComma) == RepairedObject
  {
    TrailingCommaCaseQuiet();
    TrailingCommaCaseHit();
    SingleHit(TrailingCommaCase, 15, TrailingComma);
  }

  /** In the trailing-comma case, pass 1 matches nothing before the last comma... */
  lemma TrailingCommaCaseQuiet()
    ensures forall j :: 0 <= j < 15 ==> NoHitAt(TrailingCommaCase, j, TrailingComma)
  {
    var s := TrailingCommaCase;
    CommaFreeQuiet(s, 0, 7);
    assert TrailingComma(s, 7).None? by { SpaceEndNext(s, 8); }
    CommaFreeQuiet(s, 8, 15);
  }

  /** ...and that comma, followed by the closing brace, is the one match. */
  lemma TrailingCommaCaseHit()
    ensures TrailingComma(TrailingCommaCase, 15) == Some(Hit(2, "}"))
  {
    var s := TrailingCommaCase;
    SpaceEndHere(s, 16);
    assert s[16..17] == "}";
  }

  /** Pass 5 leaves the repaired object as it is: its one comma is followed by a key. */
  lemma RepairedObjectPass5()
    ensures Sub(RepairedObject, DoubleComma) == RepairedObject
  {
    var s := RepairedObject;
    CommaFreeQuiet(s, 0, 7);
    assert DoubleComma(s, 7).None? by { SpaceEndNext(s, 8); }
    CommaFreeQuiet(s, 8, |s|);
    NoHitUnchanged(s, DoubleComma);
  }

  /** A doubled comma collapses to one (tests/test_json_parsing.py:188-191). */
  lemma DoubleCommaVector()
    ensures FixJsonSyntax(DoubleCommaCase) == RepairedObject
  {
    DoubleCommaCaseQuiet();
    NoHitUnchanged(DoubleCommaCase, TrailingComma);
    CasesSingleLine();
    KeyPassesNeedNewline(DoubleCommaCase);
    DoubleCommaVectorPass5();
  }

  /** Neither comma of the doubled-comma case is followed by a closing bracket, so pass 1 matches nothing. */
  lemma DoubleCommaCaseQuiet()
    ensures forall j :: 0 <= j < |DoubleCommaCase| ==> NoHitAt(DoubleCommaCase, j, TrailingComma)
  {
    var s := DoubleCommaCase;
    CommaFreeQuiet(s, 0, 7);
    assert TrailingComma(s, 7).None? by { SpaceEndHere(s, 8); }
    assert TrailingComma(s, 8).None? by { SpaceEndNext(s, 9); }
    CommaFreeQuiet(s, 9, |s|);
  }

  lemma DoubleCommaVectorPass5()
    ensures Sub(DoubleCommaCase, DoubleComma) == RepairedObject
  {
    DoubleCommaCaseHit();
    CommaFreeQuiet(DoubleCommaCase, 0, 7);
    CommaFreeQuiet(DoubleCommaCase, 9, |DoubleCommaCase|);
    SingleHit(DoubleCommaCase, 7, DoubleComma);
    DoubleCommaCaseSplice();
  }

  lemma DoubleCommaCaseSplice()
    ensures DoubleCommaCase[..7] + "," + DoubleCommaCase[9..] == RepairedObject
  {
  }

  /** Pass 5 matches the two adjacent commas and replaces them by one. */
  lemma DoubleCommaCaseHit()
    ensures DoubleComma(DoubleCommaCase, 7) == Some(Hit(2, ","))
  {
    SpaceEndHere(DoubleCommaCase, 8);
  }

  /** Where the whitespace after an opener holds exactly one newline, at its start, the whole run up to the quote is kept. */
  lemma KeyCommaHit(s: string, i: nat, q: nat, opener: char -> bool)
    requires i + 1 < q < |s| && opener(s[i]) && s[q] == '"'
    requires s[i + 1] == '\n' && AllSpace(s[i + 2..q]) && '\n' !in s[i + 2..q]
    ensures CommaBeforeKey(s, i, opener) == Some(Hit(q + 1 - i, [s[i], ','] + s[i + 1..q + 1]))
  {
    var run := s[i + 1..q];
    assert run == [s[i + 1]] + s[i + 2..q];
    SpaceRunEnd(s, i + 1, q);
  }

  /**
   * Passes 2 to 4 at work: a character of the pass's class followed by a
   * newline, indentation and a quoted key gets a comma right after it. When the
   * pattern matches at no other position of the text, that comma is the only
   * change.
   */
  lemma KeyCommaInserted(a: string, c: char, w: string, b: string, opener: char -> bool, m: (string, nat) -> Option<Hit>)
    requires forall t: string, i: nat :: m(t, i) == CommaBeforeKey(t, i, opener)
    requires opener(c) && AllSpace(w) && '\n' !in w
    requires var s := a + [c] + "\n" + w + "\"" + b; forall j :: 0 <= j < |s| && j != |a| ==> NoHitAt(s, j, m)
    ensures Sub(a + [c] + "\n" + w + "\"" + b, m) == a + [c] + ",\n" + w + "\"" + b
  {
    var s := a + [c] + "\n" + w + "\"" + b;
    var i := |a|;
    var q := i + 2 + |w|;
    assert s[i + 1..q] == "\n" + w && s[i + 2..q] == w;
    assert s[..i] == a && s[i] == c && s[q] == '"';
    KeyCommaAt(s, i, q, opener, m);
    assert s[i + 1..] == "\n" + w + "\"" + b;
  }

  /** The same, stated on positions: the match at `i` ends at the quote `q` and the text gains one comma after `s[i]`. */
  lemma KeyCommaAt(s: string, i: nat, q: nat, opener: char -> bool, m: (string, nat) -> Option<Hit>)
    requires forall t: string, j: nat :: m(t, j) == CommaBeforeKey(t, j, opener)
    requires i + 1 < q < |s| && opener(s[i]) && s[q] == '"'
    requires s[i + 1] == '\n' && AllSpace(s[i + 2..q]) && '\n' !in s[i + 2..q]
    requires forall j :: 0 <= j < |s| && j != i ==> NoHitAt(s, j, m)
    ensures Sub(s, m) == s[..i] + [s[i], ','] + s[i + 1..]
  {
    KeyCommaHit(s, i, q, opener);
    SingleHit(s, i, m);
    assert s[i + 1..q + 1] + s[q + 1..] == s[i + 1..];
  }

  /** A key pass matches nowhere in `s[lo..hi]` when no character of its class there is followed by whitespace. */
  lemma KeyQuietRange(s: string, lo: nat, hi: nat, opener: char -> bool, m: (string, nat) -> Option<Hit>)
    requires forall t: string, j: nat :: m(t, j) == CommaBeforeKey(t, j, opener)
    requires lo <= hi <= |s|
    requires forall k :: lo <= k < hi && k + 1 < |s| ==> !opener(s[k]) || !IsSpace(s[k + 1])
    ensures forall j :: lo <= j < hi ==> NoHitAt(s, j, m)
  {
  }

  // The two missing-comma cases of the repair tests, evaluated pass by pass.
  // Each quiet stretch is its own small lemma, so that no proof has to look at
  // every character of a case at once.

  /** The input of the array case (tests/test_json_parsing.py:172). */
  const ArrayCase := "{\"array\": [1, 2, 3]\n\"next\": \"value\"}"

  /** The array case with the comma after `]`. */
  const ArrayFixed := "{\"array\": [1, 2, 3],\n\"next\": \"value\"}"

  /** The input of the object case (tests/test_json_parsing.py:178). */
  const ObjectCase := "{\"obj\": {\"a\": 1}\n\"next\": \"value\"}"

  /** The object case with the comma after the inner `}`. */
  const ObjectFixed := "{\"obj\": {\"a\": 1},\n\"next\": \"value\"}"

  /** An array closed one line before the next key gains a comma after its `]`, and nothing else changes (tests/test_json_parsing.py:170-173). */
  lemma ArrayVector()
    ensures FixJsonSyntax(ArrayCase) == ArrayFixed
  {
    ArrayCommas();
    NoHitUnchanged(ArrayCase, TrailingComma);
    ArrayKey();
    ArrayFixedKeys();
    ArrayFixedCommas();
    NoHitUnchanged(ArrayFixed, DoubleComma);
  }

  /** Pass 1 on the array case: neither comma is followed by a closing bracket. */
  lemma ArrayCommas()
    ensures forall j :: 0 <= j < |ArrayCase| ==> NoHitAt(ArrayCase, j, TrailingComma)
  {
    ArrayCommasHead();
    ArrayCommasTail();
  }

  lemma ArrayCommasHead()
    ensures forall j :: 0 <= j < 13 ==> NoHitAt(ArrayCase, j, TrailingComma)
  {
    CommaFreeQuiet(ArrayCase, 0, 12);
    SpaceEndNext(ArrayCase, 13);
  }

  lemma ArrayCommasTail()
    ensures forall j :: 13 <= j < |ArrayCase| ==> NoHitAt(ArrayCase, j, TrailingComma)
  {
    CommaFreeQuiet(ArrayCase, 13, 15);
    SpaceEndNext(ArrayCase, 16);
    CommaFreeQuiet(ArrayCase, 16, |ArrayCase|);
  }

  /** Pass 2 on the array case: the `]` before the newline and the key is the one match. */
  lemma ArrayKey()
    ensures Sub(ArrayCase, AfterArray) == ArrayFixed
  {
    KeyQuietRange(ArrayCase, 0, 18, IsBracketClose, AfterArray);
    ArrayKeyTail();
    ArrayKeyPlace();
    KeyCommaAt(ArrayCase, 18, 20, IsBracketClose, AfterArray);
    ArrayKeySplice();
  }

  lemma ArrayKeyTail()
    ensures forall j :: 19 <= j < |ArrayCase| ==> NoHitAt(ArrayCase, j, AfterArray)
  {
    KeyQuietRange(ArrayCase, 19, |ArrayCase|, IsBracketClose, AfterArray);
  }

  lemma ArrayKeyPlace()
    ensures ArrayCase[18] == ']' && ArrayCase[19] == '\n' && ArrayCase[20] == '"' && ArrayCase[20..20] == ""
  {
  }

  lemma ArrayKeySplice()
    ensures ArrayCase[..18] + [ArrayCase[18], ','] + ArrayCase[19..] == ArrayFixed
  {
  }

  /** Passes 3 and 4 on the repaired array case: its only `}` ends the text, and no digit or quote is followed by whitespace. */
  lemma ArrayFixedKeys()
    ensures Sub(ArrayFixed, AfterObject) == ArrayFixed && Sub(ArrayFixed, AfterValue) == ArrayFixed
  {
    ArrayFixedNoObject();
    NoHitUnchanged(ArrayFixed, AfterObject);
    ArrayFixedValuesHead();
    ArrayFixedValuesTail();
    NoHitUnchanged(ArrayFixed, AfterValue);
  }

  lemma ArrayFixedNoObject()
    ensures forall j :: 0 <= j < |ArrayFixed| ==> NoHitAt(ArrayFixed, j, AfterObject)
  {
    KeyQuietRange(ArrayFixed, 0, |ArrayFixed|, IsBraceClose, AfterObject);
  }

  lemma ArrayFixedValuesHead()
    ensures forall j :: 0 <= j < 20 ==> NoHitAt(ArrayFixed, j, AfterValue)
  {
    ArrayFixedValuesFirst();
    KeyQuietRange(ArrayFixed, 10, 20, IsDigitOrQuote, AfterValue);
  }

  lemma ArrayFixedValuesFirst()
    ensures forall j :: 0 <= j < 10 ==> NoHitAt(ArrayFixed, j, AfterValue)
  {
    KeyQuietRange(ArrayFixed, 0, 10, IsDigitOrQuote, AfterValue);
  }

  lemma ArrayFixedValuesTail()
    ensures forall j :: 20 <= j < |ArrayFixed| ==> NoHitAt(ArrayFixed, j, AfterValue)
  {
    KeyQuietRange(ArrayFixed, 20, |ArrayFixed|, IsDigitOrQuote, AfterValue);
  }

  /** Pass 5 on the repaired array case: no comma is followed by another. */
  lemma ArrayFixedCommas()
    ensures forall j :: 0 <= j < |ArrayFixed| ==> NoHitAt(ArrayFixed, j, DoubleComma)
  {
    ArrayFixedCommasHead();
    ArrayFixedCommasTail();
  }

  lemma ArrayFixedCommasHead()
    ensures forall j :: 0 <= j < 16 ==> NoHitAt(ArrayFixed, j, DoubleComma)
  {
    ArrayFixedCommasFirst();
    CommaFreeQuiet(ArrayFixed, 13, 15);
    SpaceEndNext(ArrayFixed, 16);
  }

  lemma ArrayFixedCommasFirst()
    ensures forall j :: 0 <= j < 13 ==> NoHitAt(ArrayFixed, j, DoubleComma)
  {
    CommaFreeQuiet(ArrayFixed, 0, 12);
    SpaceEndNext(ArrayFixed, 13);
  }

  lemma ArrayFixedCommasTail()
    ensures forall j :: 16 <= j < |ArrayFixed| ==> NoHitAt(ArrayFixed, j, DoubleComma)
  {
    CommaFreeQuiet(ArrayFixed, 16, 19);
    SpaceEndNext(ArrayFixed, 20);
    CommaFreeQuiet(ArrayFixed, 20, |ArrayFixed|);
  }

  /** An object closed one line before the next key gains a comma after its `}`, and nothing else changes (tests/test_json_parsing.py:176-179). */
  lemma ObjectVector()
    ensures FixJsonSyntax(ObjectCase) == ObjectFixed
  {
    ObjectCaseQuiet();
    NoHitUnchanged(ObjectCase, TrailingComma);
    NoHitUnchanged(ObjectCase, AfterArray);
    ObjectKey();
    ObjectFixedValues();
    NoHitUnchanged(ObjectFixed, AfterValue);
    ObjectFixedCommas();
    NoHitUnchanged(ObjectFixed, DoubleComma);
  }

  /** Passes 1 and 2 on the object case: it has no comma and no `]`. */
  lemma ObjectCaseQuiet()
    ensures forall j :: 0 <= j < |ObjectCase| ==> NoHitAt(ObjectCase, j, TrailingComma)
    ensures forall j :: 0 <= j < |ObjectCase| ==> NoHitAt(ObjectCase, j, AfterArray)
  {
    CommaFreeQuiet(ObjectCase, 0, |ObjectCase|);
    KeyQuietRange(ObjectCase, 0, |ObjectCase|, IsBracketClose, AfterArray);
  }

  /** Pass 3 on the object case: the inner `}` before the newline and the key is the one match. */
  lemma ObjectKey()
    ensures Sub(ObjectCase, AfterObject) == ObjectFixed
  {
    KeyQuietRange(ObjectCase, 0, 15, IsBraceClose, AfterObject);
    ObjectKeyTail();
    ObjectKeyPlace();
    KeyCommaAt(ObjectCase, 15, 17, IsBraceClose, AfterObject);
    ObjectKeySplice();
  }

  lemma ObjectKeyTail()
    ensures forall j :: 16 <= j < |ObjectCase| ==> NoHitAt(ObjectCase, j, AfterObject)
  {
    KeyQuietRange(ObjectCase, 16, |ObjectCase|, IsBraceClose, AfterObject);
  }

  lemma ObjectKeyPlace()
    ensures ObjectCase[15] == '}' && ObjectCase[16] == '\n' && ObjectCase[17] == '"' && ObjectCase[17..17] == ""
  {
  }

  lemma ObjectKeySplice()
    ensures ObjectCase[..15] + [ObjectCase[15], ','] + ObjectCase[16..] == ObjectFixed
  {
  }

  /** Pass 4 on the repaired object case: no digit or quote is followed by whitespace. */
  lemma ObjectFixedValues()
    ensures forall j :: 0 <= j < |ObjectFixed| ==> NoHitAt(ObjectFixed, j, AfterValue)
  {
    ObjectFixedValuesHead();
    KeyQuietRange(ObjectFixed, 16, |ObjectFixed|, IsDigitOrQuote, AfterValue);
  }

  lemma ObjectFixedValuesHead()
    ensures forall j :: 0 <= j < 16 ==> NoHitAt(ObjectFixed, j, AfterValue)
  {
    KeyQuietRange(ObjectFixed, 0, 16, IsDigitOrQuote, AfterValue);
  }

  /** Pass 5 on the repaired object case: its one comma is followed by the next key. */
  lemma ObjectFixedCommas()
    ensures forall j :: 0 <= j < |ObjectFixed| ==> NoHitAt(ObjectFixed, j, DoubleComma)
  {
    CommaFreeQuiet(ObjectFixed, 0, 16);
    SpaceEndNext(ObjectFixed, 17);
    CommaFreeQuiet(ObjectFixed, 17, |ObjectFixed|);
  }
}
