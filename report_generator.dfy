/**
 * report_generator.py: the deterministic parts around report generation. It
 * covers cleaning a model's answer, reading the result an analysis subprocess
 * prints between two markers, the one-day report cache, the saved file names,
 * and the process-wide application handle. The analysis, the model calls and
 * the markdown-to-HTML conversion are not modelled.
 */
module ReportGenerator {
  import opened Wrappers
  import opened Text
  import opened Files
  import PyValue

  /** A text in which `pat` occurs nowhere. */
  ghost predicate Free(s: string, pat: string)
  {
    forall j: nat :: !OccursAt(s, pat, j)
  }

  /** `pat in s` fails exactly when `pat` occurs nowhere. */
  lemma FreeIffNotContains(s: string, pat: string)
    ensures Free(s, pat) <==> !Contains(s, pat)
  {
  }

  /** A piece of a text in which `pat` occurs nowhere holds no `pat` either. */
  lemma FreeSlice(s: string, pat: string, a: nat, b: nat)
    requires a <= b <= |s| && Free(s, pat)
    ensures Free(s[a..b], pat)
  {
    forall j: nat
      ensures !OccursAt(s[a..b], pat, j)
    {
      if j + |pat| <= b - a {
        var x := s[a..b][j..j + |pat|];
        forall k | 0 <= k < |x|
          ensures x[k] == s[a + j..a + j + |pat|][k]
        {
          assert x[k] == s[a..b][j + k] == s[a + j + k];
        }
        assert x == s[a + j..a + j + |pat|];
        assert !OccursAt(s, pat, a + j);
      }
    }
  }

  /** `pat` without a newline cannot occur across the newline between two texts that lack it. */
  lemma FreeAcrossNewline(a: string, b: string, pat: string)
    requires '\n' !in pat && Free(a, pat) && Free(b, pat)
    ensures Free(a + "\n" + b, pat)
  {
    var t := a + "\n" + b;
    forall j: nat
      ensures !OccursAt(t, pat, j)
    {
      if j + |pat| <= |a| {
        assert t[j..j + |pat|] == a[j..j + |pat|];
        assert !OccursAt(a, pat, j);
      } else if j <= |a| && j + |pat| <= |t| {
        assert t[j..j + |pat|][|a| - j] == t[|a|] == '\n';
      } else if j > |a| && j + |pat| <= |t| {
        assert t[j..j + |pat|] == b[j - |a| - 1..j - |a| - 1 + |pat|];
        assert !OccursAt(b, pat, j - |a| - 1);
      }
    }
  }

  /** The mark of an intermediate tool-call line in a model's answer. */
  const ToolMarker := "[Calling tool"

  /** The lines of a model's answer that are kept: those without the tool-call mark, in order. */
  function KeptLines(lines: seq<string>): (r: seq<string>)
    ensures |r| <= |lines|
    ensures forall k :: 0 <= k < |r| ==> Free(r[k], ToolMarker)
    ensures forall l :: l in r <==> l in lines && Free(l, ToolMarker)
  {
    if |lines| == 0 then []
    else
      var rest := KeptLines(lines[1..]);
      assert lines == [lines[0]] + lines[1..];
      FreeIffNotContains(lines[0], ToolMarker);
      if Contains(lines[0], ToolMarker) then rest else [lines[0]] + rest
  }

  /** Newline-joined lines that lack a newline-free pattern lack it as a whole. */
  lemma {:induction false} JoinFree(lines: seq<string>, pat: string)
    requires |pat| > 0 && '\n' !in pat
    requires forall k :: 0 <= k < |lines| ==> Free(lines[k], pat)
    ensures Free(Join(lines, "\n"), pat)
    decreases |lines|
  {
    if |lines| > 1 {
      JoinFree(lines[1..], pat);
      FreeAcrossNewline(lines[0], Join(lines[1..], "\n"), pat);
    }
  }

  /** When no line has the mark, the lines are all kept. */
  lemma {:induction false} AllKept(lines: seq<string>)
    requires forall k :: 0 <= k < |lines| ==> Free(lines[k], ToolMarker)
    ensures KeptLines(lines) == lines
    decreases |lines|
  {
    if |lines| > 0 {
      FreeIffNotContains(lines[0], ToolMarker);
      AllKept(lines[1..]);
      assert lines == [lines[0]] + lines[1..];
    }
  }

  /** The regex `이제 수집한 정보를 바탕으로.*평가를 해보겠습니다\.` opens with this text ... */
  const FinalOpening := "이제 수집한 정보를 바탕으로"

  /** ... and closes with this one, on the same line (`.` does not match a newline). */
  const FinalClosing := "평가를 해보겠습니다."

  /** The first newline at or after `from`, or the end of the text. */
  function LineEnd(s: string, from: nat): (e: nat)
    requires from <= |s|
    ensures from <= e <= |s| && '\n' !in s[from..e]
    ensures e < |s| ==> s[e] == '\n'
    decreases |s| - from
  {
    if from == |s| || s[from] == '\n' then from
    else
      var e := LineEnd(s, from + 1);
      assert s[from..e] == [s[from]] + s[from + 1..e];
      e
  }

  /** A newline-free stretch that starts at `from` ends no later than the line does. */
  lemma LineEndAfter(s: string, from: nat, e: nat)
    requires from <= e <= |s| && '\n' !in s[from..e]
    ensures e <= LineEnd(s, from)
  {

  }

  /** The last closing text that lies within `s[lo..e]`: the greedy `.*` stretches to it. */
  function LastClosing(s: string, lo: nat, e: nat): (r: Option<nat>)
    requires e <= |s|
    ensures r.Some? ==> lo <= r.value && r.value + |FinalClosing| <= e && OccursAt(s, FinalClosing, r.value)
    ensures forall q :: lo <= q && q + |FinalClosing| <= e && OccursAt(s, FinalClosing, q) ==> r.Some? && q <= r.value
    decreases e
  {
    if e < lo + |FinalClosing| then None
    else if OccursAt(s, FinalClosing, e - |FinalClosing|) then Some(e - |FinalClosing|)
    else LastClosing(s, lo, e - 1)
  }

  /** An opening at `a` and a closing at `q` after it, on the same line: a match of the pattern. */
  ghost predicate Statement(s: string, a: nat, q: nat)
  {
    OccursAt(s, FinalOpening, a) && a + |FinalOpening| <= q && OccursAt(s, FinalClosing, q)
    && '\n' !in s[a..q + |FinalClosing|]
  }

  /**
   * `re.search` for the final-statement pattern from position `i` on: the
   * leftmost opening that has a closing later on its line, with the last such
   * closing. The result is the start of the opening and the start of the closing.
   */
  function FinalStatement(s: string, i: nat): (r: Option<(nat, nat)>)
    requires i <= |s|
    ensures r.Some? ==> i <= r.value.0 && Statement(s, r.value.0, r.value.1)
    ensures r.Some? ==> forall q :: r.value.1 <= q && Statement(s, r.value.0, q) ==> q == r.value.1
    ensures forall a, q :: i <= a && Statement(s, a, q) ==> r.Some? && r.value.0 <= a
    decreases |s| - i
  {
    if OccursAt(s, FinalOpening, i) && LastClosing(s, i + |FinalOpening|, LineEnd(s, i + |FinalOpening|)).Some? then
      var q := LastClosing(s, i + |FinalOpening|, LineEnd(s, i + |FinalOpening|)).value;
      FinalStatementFound(s, i, q);
      Some((i, q))
    else if i == |s| then
      NoOpeningAtEnd(s);
      None
    else
      NoStatementHere(s, i);
      FinalStatement(s, i + 1)
  }

  /** The statement found at `i`: the closing is on the opening's line, and no later closing is. */
  lemma FinalStatementFound(s: string, i: nat, q: nat)
    requires i + |FinalOpening| <= |s| && OccursAt(s, FinalOpening, i)
    requires LastClosing(s, i + |FinalOpening|, LineEnd(s, i + |FinalOpening|)) == Some(q)
    ensures Statement(s, i, q)
    ensures forall q' :: q <= q' && Statement(s, i, q') ==> q' == q
  {
    var lo := i + |FinalOpening|;
    assert Statement(s, i, q) by {
      NewlineFree(s, i, lo, q + |FinalClosing|, LineEnd(s, lo));
    }
    forall q': nat | q <= q' && Statement(s, i, q')
      ensures q' == q
    {
      ClosingOnLine(s, i, q');
    }
  }

  /** A closing that matches with the opening at `i` ends within the opening's line. */
  lemma ClosingOnLine(s: string, i: nat, q: nat)
    requires Statement(s, i, q)
    ensures q + |FinalClosing| <= LineEnd(s, i + |FinalOpening|)
  {
    var lo := i + |FinalOpening|;
    assert s[lo..q + |FinalClosing|] == s[i..q + |FinalClosing|][lo - i..];
    LineEndAfter(s, lo, q + |FinalClosing|);
  }

  /** The opening has no newline, so the stretch from its start to a point of its line has none. */
  lemma NewlineFree(s: string, i: nat, lo: nat, m: nat, e: nat)
    requires i + |FinalOpening| == lo <= m <= e <= |s| && OccursAt(s, FinalOpening, i) && '\n' !in s[lo..e]
    ensures '\n' !in s[i..m]
  {
    assert s[i..m] == s[i..lo] + s[lo..m];
    assert s[i..lo] == FinalOpening;
    assert s[lo..m] == s[lo..e][..m - lo];
  }

  /** No opening starts at the very end. */
  lemma NoOpeningAtEnd(s: string)
    ensures forall q :: !Statement(s, |s|, q)
  {
  }

  /** Where no statement starts at `i`, none with its opening at `i` exists. */
  lemma NoStatementHere(s: string, i: nat)
    requires i < |s|
    requires OccursAt(s, FinalOpening, i) ==>
      LastClosing(s, i + |FinalOpening|, LineEnd(s, i + |FinalOpening|)).None?
    ensures forall q :: !Statement(s, i, q)
  {
    forall q: nat | Statement(s, i, q)
      ensures false
    {
      var lo := i + |FinalOpening|;
      assert s[lo..q + |FinalClosing|] == s[i..q + |FinalClosing|][lo - i..];
      LineEndAfter(s, lo, q + |FinalClosing|);
    }
  }

  /**
   * `clean_model_response`: drop the tool-call lines; if the final statement
   * occurs, keep only what follows it, stripped; then drop leading whitespace.
   */
  function CleanModelResponse(response: string): (r: string)
    ensures Free(r, ToolMarker)
    ensures |r| > 0 ==> !IsSpace(r[0])
  {
    var temp := KeptText(response);
    CleanedFree(temp);
    LStrip(AfterStatement(temp))
  }

  /** The answer's kept lines, joined again by newlines. */
  function KeptText(response: string): (temp: string)
    ensures Free(temp, ToolMarker)
  {
    var kept := KeptLines(Split(response, '\n'));
    JoinFree(kept, ToolMarker);
    Join(kept, "\n")
  }

  /** The stripped text after the final statement when there is one, else the whole text. */
  function AfterStatement(temp: string): string
  {
    if FinalStatement(temp, 0).Some? then Strip(temp[StatementEnd(temp)..]) else temp
  }

  /** What is left of a text with no tool-call mark holds none either. */
  lemma CleanedFree(temp: string)
    requires Free(temp, ToolMarker)
    ensures Free(LStrip(AfterStatement(temp)), ToolMarker)
  {
    if FinalStatement(temp, 0).Some? {
      var k := StatementEnd(temp);
      FreeSlice(temp, ToolMarker, k, |temp|);
      assert temp[k..|temp|] == temp[k..] by {
        assert forall i :: 0 <= i < |temp| - k ==> temp[k..][i] == temp[k..|temp|][i];
      }
      FreeStrip(temp[k..]);
    }
    FreeLStrip(AfterStatement(temp));
  }

  /** Where the answer after the final statement starts; 0 when there is none. */
  function StatementEnd(temp: string): (k: nat)
    ensures k <= |temp|
  {
    match FinalStatement(temp, 0)
    case Some((_, q)) => q + |FinalClosing|
    case None => 0
  }

  /** `strip()` keeps the pattern-free property of its argument. */
  lemma FreeStrip(s: string)
    requires Free(s, ToolMarker)
    ensures Free(Strip(s), ToolMarker)
  {
    var l := LStrip(s);
    FreeSlice(s, ToolMarker, |s| - |l|, |s|);
    assert s[|s| - |l|..|s|] == l;
    FreeSlice(l, ToolMarker, 0, |RStrip(l)|);
    assert l[0..|RStrip(l)|] == RStrip(l);
  }

  /** So does `lstrip()`. */
  lemma FreeLStrip(s: string)
    requires Free(s, ToolMarker)
    ensures Free(LStrip(s), ToolMarker)
  {
    FreeSlice(s, ToolMarker, |s| - |LStrip(s)|, |s|);
    assert s[|s| - |LStrip(s)|..|s|] == LStrip(s);
  }

  /** An answer with no tool-call line and no final statement only loses its leading whitespace. */
  lemma CleanOnlyStrips(response: string)
    requires forall k :: 0 <= k < |Split(response, '\n')| ==> Free(Split(response, '\n')[k], ToolMarker)
    requires FinalStatement(response, 0).None?
    ensures CleanModelResponse(response) == LStrip(response)
  {
    AllKept(Split(response, '\n'));
  }

  // ---------------------------------------------------------------------------
  // The analysis subprocess prints its JSON result between two marker lines.

  const StartMarker := "RESULT_START"
  const EndMarker := "RESULT_END"

  /**
   * The JSON text the parse reads: from the end of the first start marker to
   * the first end marker, stripped. `None` when either marker is missing.
   */
  function Payload(output: string): (r: Option<string>)
    ensures r.None? <==> !Contains(output, StartMarker) || !Contains(output, EndMarker)
    ensures r.Some? ==> |r.value| <= |output|
  {
    match (Find(output, StartMarker), Find(output, EndMarker))
    case (Some(a), Some(b)) => Some(Strip(PySlice(output, a + |StartMarker|, b)))
    case _ => None
  }

  /** No newline-free `pat` starts in `a` or at the newline after it when `a` lacks it. */
  lemma NoneUpToNewline(a: string, b: string, pat: string, j: nat)
    requires |pat| > 0 && '\n' !in pat && Free(a, pat) && j <= |a|
    ensures !OccursAt(a + "\n" + b, pat, j)
  {
    var t := a + "\n" + b;
    if j + |pat| <= |t| {
      if j + |pat| <= |a| {
        assert t[j..j + |pat|] == a[j..j + |pat|];
        assert !OccursAt(a, pat, j);
      } else {
        assert t[j..j + |pat|][|a| - j] == t[|a|];
      }
    }
  }

  /** The first occurrence of a newline-free `pat` right after a newline that ends a text free of it. */
  lemma FindAfterNewline(a: string, pat: string, b: string)
    requires |pat| > 0 && '\n' !in pat && Free(a, pat)
    ensures Find(a + "\n" + pat + b, pat) == Some(|a| + 1)
  {
    var t := a + "\n" + pat + b;
    assert t[|a| + 1..|a| + 1 + |pat|] == pat;
    assert OccursAt(t, pat, |a| + 1);
    forall j: nat | j <= |a|
      ensures !OccursAt(t, pat, j)
    {
      assert t == a + "\n" + (pat + b);
      NoneUpToNewline(a, pat + b, pat, j);
    }
  }

  /** Stripping a newline off each end of a text with no whitespace at its ends gives the text back. */
  lemma StripNewlines(json: string)
    requires |json| > 0 && !IsSpace(json[0]) && !IsSpace(json[|json| - 1])
    ensures Strip("\n" + json + "\n") == json
  {
    var t := "\n" + json + "\n";
    assert t[1..] == json + "\n";
    assert LeadingSpace(t[1..]) == 0;
    assert LStrip(t) == json + "\n";
    assert (json + "\n")[..|json|] == json;
    assert TrailingSpace(json) == 0;
    assert TrailingSpace(json + "\n") == 1;
  }

  /** The markers do not contain each other. */
  lemma MarkersApart()
    ensures Free(StartMarker, EndMarker)
    ensures '\n' !in StartMarker && '\n' !in EndMarker
  {
    forall j: nat
      ensures !OccursAt(StartMarker, EndMarker, j)
    {
      if j + |EndMarker| <= |StartMarker| {
        assert j <= 2;
        assert StartMarker[j + 7] != EndMarker[7];
      }
    }
  }

  /**
   * What the subprocess prints: log lines, then the start marker, the JSON line
   * and the end marker, each on a line of its own, then anything else.
   */
  function Printed(logs: string, json: string, tail: string): string
  {
    logs + "\n" + StartMarker + "\n" + json + "\n" + EndMarker + "\n" + tail
  }

  /** The first start marker is the printed one when the logs do not hold it. */
  lemma PrintedStart(logs: string, json: string, tail: string)
    requires Free(logs, StartMarker)
    ensures Find(Printed(logs, json, tail), StartMarker) == Some(|logs| + 1)
  {
    MarkersApart();
    assert Printed(logs, json, tail) == logs + "\n" + StartMarker + ("\n" + json + "\n" + EndMarker + "\n" + tail);
    FindAfterNewline(logs, StartMarker, "\n" + json + "\n" + EndMarker + "\n" + tail);
  }

  /** The first end marker is the printed one when neither the logs nor the JSON hold it. */
  lemma PrintedEnd(logs: string, json: string, tail: string)
    requires Free(logs, EndMarker) && Free(json, EndMarker)
    ensures Find(Printed(logs, json, tail), EndMarker) == Some(|logs| + |StartMarker| + |json| + 3)
  {
    MarkersApart();
    FreeAcrossNewline(logs, StartMarker, EndMarker);
    FreeAcrossNewline(logs + "\n" + StartMarker, json, EndMarker);
    var head := logs + "\n" + StartMarker + "\n" + json;
    assert Printed(logs, json, tail) == head + "\n" + EndMarker + ("\n" + tail);
    FindAfterNewline(head, EndMarker, "\n" + tail);
  }

  /** The payload is what lies between the first start marker and the first end marker. */
  lemma PayloadBetween(out: string, a: nat, b: nat)
    requires Find(out, StartMarker) == Some(a) && Find(out, EndMarker) == Some(b)
    ensures Payload(out) == Some(Strip(PySlice(out, a + |StartMarker|, b)))
  {
    var fa, fb := Find(out, StartMarker), Find(out, EndMarker);
    assert (fa, fb) == (Some(a), Some(b));
  }

  /** The JSON line of the printed output, with the newlines around it. */
  lemma PrintedMiddle(logs: string, start: string, json: string, end: string, tail: string)
    ensures var out := logs + "\n" + start + "\n" + json + "\n" + end + "\n" + tail;
      PySlice(out, |logs| + 1 + |start|, |logs| + |start| + |json| + 3) == "\n" + json + "\n"
  {
    var out := logs + "\n" + start + "\n" + json + "\n" + end + "\n" + tail;
    var pre := logs + "\n" + start;
    assert out == pre + ("\n" + json + "\n") + (end + "\n" + tail);
    assert out[|pre|..|pre| + |json| + 2] == "\n" + json + "\n";
  }

  /** Read back, the printed JSON line is the payload. */
  lemma PayloadOfPrinted(logs: string, json: string, tail: string)
    requires Free(logs, StartMarker) && Free(logs, EndMarker) && Free(json, EndMarker)
    requires |json| > 0 && !IsSpace(json[0]) && !IsSpace(json[|json| - 1])
    ensures Payload(Printed(logs, json, tail)) == Some(json)
  {
    var out := Printed(logs, json, tail);
    var mid := PySlice(out, |logs| + 1 + |StartMarker|, |logs| + |StartMarker| + |json| + 3);
    assert mid == "\n" + json + "\n" by {
      PrintedMiddle(logs, StartMarker, json, EndMarker, tail);
    }
    assert Payload(out) == Some(Strip(mid)) by {
      PrintedStart(logs, json, tail);
      PrintedEnd(logs, json, tail);
      PayloadBetween(out, |logs| + 1, |logs| + |StartMarker| + |json| + 3);
    }
    assert Strip(mid) == json by {
      StripNewlines(json);
    }
  }

  /** What `generate_report_response_sync` returns. */
  datatype Reply =
    | Answer(result: PyValue.Value)  // the analysis's own result, returned as is
    | Message(text: string)           // one of the fixed messages below
    | Failure                         // an exception the outer handler turns into a message with its text

  const TimeoutText := "분석 시간이 초과되었습니다. 다시 시도해주세요."
  const NotFoundText := "분석 결과를 찾을 수 없습니다. 로그를 확인하세요."
  const ParseErrorText := "분석 결과 파싱 중 오류가 발생했습니다. 로그를 확인하세요."
  const AnalysisErrorPrefix := "분석 중 오류가 발생했습니다: "
  const UnknownError := "알 수 없는 오류"

  /** `len(v)` is defined: a string, a list or a dict. */
  predicate HasLen(v: PyValue.Value)
  {
    v.Str? || v.List? || v.Dict?
  }

  /**
   * What the decoded payload leads to: the `result` when `success` is truthy
   * (its length is logged, so it must have one), otherwise the error message;
   * anything other than an object fails at `.get`.
   */
  function Outcome(v: PyValue.Value): (r: Reply)
    ensures !v.Dict? ==> r == Failure
    ensures r.Answer? ==> (v.Dict? && PyValue.Truthy(PyValue.Get(v.fields, "success", PyValue.Bool(false)))
      && r.result == PyValue.Get(v.fields, "result", PyValue.Str("")) && HasLen(r.result))
    ensures r.Message? ==> (v.Dict? && !PyValue.Truthy(PyValue.Get(v.fields, "success", PyValue.Bool(false)))
      && r.text == AnalysisErrorPrefix + PyValue.Show(PyValue.Get(v.fields, "error", PyValue.Str(UnknownError))))
  {
    if !v.Dict? then Failure
    else if PyValue.Truthy(PyValue.Get(v.fields, "success", PyValue.Bool(false))) then
      var result := PyValue.Get(v.fields, "result", PyValue.Str(""));
      if HasLen(result) then Answer(result) else Failure
    else Message(AnalysisErrorPrefix + PyValue.Show(PyValue.Get(v.fields, "error", PyValue.Str(UnknownError))))
  }

  /**
   * `generate_report_response_sync` after the subprocess: `output` is its
   * standard output, `decode` stands for `json.loads` (`None` for a
   * `JSONDecodeError`) and `timedOut` for the ten-minute timeout.
   */
  function ReportResponse(output: string, decode: string -> Option<PyValue.Value>, timedOut: bool): (r: Reply)
    ensures timedOut ==> r == Message(TimeoutText)
    ensures !timedOut && Payload(output).None? ==> r == Message(NotFoundText)
    ensures !timedOut && Payload(output).Some? && decode(Payload(output).value).None? ==> r == Message(ParseErrorText)
    ensures !timedOut && Payload(output).Some? && decode(Payload(output).value).Some? ==>
      r == Outcome(decode(Payload(output).value).value)
  {
    if timedOut then Message(TimeoutText)
    else match Payload(output)
      case None => Message(NotFoundText)
      case Some(json) =>
        match decode(json)
        case None => Message(ParseErrorText)
        case Some(v) => Outcome(v)
  }

  /** The messages are distinct, so a caller can tell the cases apart. */
  lemma MessagesDistinct(e: string)
    ensures TimeoutText != NotFoundText && TimeoutText != ParseErrorText && NotFoundText != ParseErrorText
    ensures AnalysisErrorPrefix + e != TimeoutText && AnalysisErrorPrefix + e != NotFoundText
    ensures AnalysisErrorPrefix + e != ParseErrorText
  {
    assert TimeoutText[3] != NotFoundText[3];
    assert TimeoutText[3] != ParseErrorText[3];
    assert NotFoundText[5] != ParseErrorText[5];
    assert (AnalysisErrorPrefix + e)[3] == AnalysisErrorPrefix[3];
    assert AnalysisErrorPrefix[3] != TimeoutText[3];
    assert AnalysisErrorPrefix[3] != NotFoundText[3];
    assert AnalysisErrorPrefix[3] != ParseErrorText[3];
  }

  /** A successful analysis that printed its report as the JSON object is answered with that report. */
  lemma SuccessAnswered(logs: string, json: string, tail: string, decode: string -> Option<PyValue.Value>, report: string)
    requires Free(logs, StartMarker) && Free(logs, EndMarker) && Free(json, EndMarker)
    requires |json| > 0 && !IsSpace(json[0]) && !IsSpace(json[|json| - 1])
    requires decode(json) == Some(PyValue.Dict(map["success" := PyValue.Bool(true), "result" := PyValue.Str(report)]))
    ensures ReportResponse(Printed(logs, json, tail), decode, false)
      == Answer(PyValue.Str(report))
  {
    PayloadOfPrinted(logs, json, tail);
  }

  /** A failed analysis that printed its error is answered with the error message. */
  lemma ErrorReported(logs: string, json: string, tail: string, decode: string -> Option<PyValue.Value>, error: string)
    requires Free(logs, StartMarker) && Free(logs, EndMarker) && Free(json, EndMarker)
    requires |json| > 0 && !IsSpace(json[0]) && !IsSpace(json[|json| - 1])
    requires decode(json) == Some(PyValue.Dict(map["success" := PyValue.Bool(false), "error" := PyValue.Str(error)]))
    ensures ReportResponse(Printed(logs, json, tail), decode, false)
      == Message(AnalysisErrorPrefix + error)
  {
    PayloadOfPrinted(logs, json, tail);
  }

  // ---------------------------------------------------------------------------
  // The one-day report cache and the saved file names.

  /** Microseconds in a day. */
  const DayMicros := 86400000000

  /** `(now - mtime).days` of a `timedelta`: whole days, rounded down (negative for a future time). */
  function AgeDays(now: int, mtime: int): (d: int)
    ensures d * DayMicros <= now - mtime < (d + 1) * DayMicros
  {
    (now - mtime) / DayMicros
  }

  /** `{code}_{company}_{date}_analysis.md`, the name `save_report` writes. */
  function ReportName(stockCode: string, companyName: string, today: string): string
  {
    stockCode + "_" + companyName + "_" + today + "_analysis.md"
  }

  /** `{code}_{company}_{date}_analysis.html`, the name `save_html_report_from_content` writes. */
  function HtmlReportName(stockCode: string, companyName: string, today: string): string
  {
    stockCode + "_" + companyName + "_" + today + "_analysis.html"
  }

  /** The company name used for a missing HTML file: the second `_`-separated piece of the report's name. */
  function CompanyOf(name: string): (c: string)
    ensures '_' !in c
  {
    var parts := Split(name, '_');
    if |parts| >= 2 then parts[1] else ""
  }

  /** The company name is read back from a saved report's name when neither code nor company holds `_`. */
  lemma CompanyRecovered(stockCode: string, companyName: string, today: string)
    requires '_' !in stockCode && '_' !in companyName
    ensures CompanyOf(ReportName(stockCode, companyName, today)) == companyName
  {
    var rest := today + "_analysis.md";
    assert ReportName(stockCode, companyName, today) == stockCode + ['_'] + (companyName + ['_'] + rest);
    SplitFirst(stockCode, '_', companyName + ['_'] + rest);
    SplitFirst(companyName, '_', rest);
  }

  /**
   * `get_cached_report`: the latest `{code}_*.md` report, provided it is less
   * than a day old, with the latest `{code}_*.html` file, or else the name of
   * the HTML file written for it today.
   */
  function CachedReport(reports: seq<File>, htmls: seq<File>, stockCode: string, now: int, today: string): (r: Option<(File, string)>)
    ensures r.Some? ==> r.value.0 in reports && GlobMatch(r.value.0.name, stockCode + "_", ".md")
    ensures r.Some? ==> forall f :: f in reports && GlobMatch(f.name, stockCode + "_", ".md") ==> f.mtime <= r.value.0.mtime
    ensures r.Some? ==> AgeDays(now, r.value.0.mtime) < 1
    ensures r.None? <==> match Latest(reports, n => GlobMatch(n, stockCode + "_", ".md"))
      case None => true
      case Some(f) => AgeDays(now, f.mtime) >= 1
    ensures r.Some? ==> match Latest(htmls, n => GlobMatch(n, stockCode + "_", ".html"))
      case Some(h) => r.value.1 == h.name
      case None => r.value.1 == HtmlReportName(stockCode, CompanyOf(r.value.0.name), today)
  {
    match Latest(reports, n => GlobMatch(n, stockCode + "_", ".md"))
    case None => None
    case Some(f) =>
      if AgeDays(now, f.mtime) >= 1 then None
      else match Latest(htmls, n => GlobMatch(n, stockCode + "_", ".html"))
        case Some(h) => Some((f, h.name))
        case None => Some((f, HtmlReportName(stockCode, CompanyOf(f.name), today)))
  }

  /** A report written within the last day, later than any other, is served from the cache. */
  lemma FreshReportCached(reports: seq<File>, htmls: seq<File>, stockCode: string, companyName: string, today: string,
                          content: string, written: int, now: int)
    requires '/' !in companyName && '/' !in today
    requires forall g :: g in reports ==> g.mtime < written
    requires written <= now < written + DayMicros
    ensures var saved := File(ReportName(stockCode, companyName, today), written, content);
      var r := CachedReport(reports + [saved], htmls, stockCode, now, today);
      r.Some? && r.value.0 == saved
  {
    var saved := File(ReportName(stockCode, companyName, today), written, content);
    assert saved.name == (stockCode + "_") + (companyName + "_" + today + "_analysis") + ".md";
    GlobMatchOf(stockCode + "_", companyName + "_" + today + "_analysis", ".md");
    LatestAfterNewer(reports, saved, n => GlobMatch(n, stockCode + "_", ".md"));
  }

  /** Once the latest report is a day old or older, the cache misses. */
  lemma StaleReportMissed(reports: seq<File>, htmls: seq<File>, stockCode: string, now: int, today: string)
    requires Latest(reports, n => GlobMatch(n, stockCode + "_", ".md")).Some?
    requires now >= Latest(reports, n => GlobMatch(n, stockCode + "_", ".md")).value.mtime + DayMicros
    ensures CachedReport(reports, htmls, stockCode, now, today).None?
  {
  }

  /** The missing HTML file of a cached report is named after the report's company. */
  lemma MissingHtmlNamed(reports: seq<File>, htmls: seq<File>, stockCode: string, companyName: string, today: string,
                         content: string, written: int, now: int)
    requires '/' !in companyName && '/' !in today && '_' !in stockCode && '_' !in companyName
    requires forall g :: g in reports ==> g.mtime < written
    requires written <= now < written + DayMicros
    requires forall h :: h in htmls ==> !GlobMatch(h.name, stockCode + "_", ".html")
    ensures var saved := File(ReportName(stockCode, companyName, today), written, content);
      CachedReport(reports + [saved], htmls, stockCode, now, today)
        == Some((saved, HtmlReportName(stockCode, companyName, today)))
  {
    FreshReportCached(reports, htmls, stockCode, companyName, today, content, written, now);
    CompanyRecovered(stockCode, companyName, today);
  }

  // ---------------------------------------------------------------------------
  // The process-wide application handle, created once and reused.

  /**
   * `_global_mcp_app` and `_app_initialized`. An application is named by an
   * identifier; creating one and initialising it are the steps that may fail.
   */
  class GlobalApp {
    var app: Option<nat>
    var initialized: bool

    /** Either flag set means the other holds: an initialised handle exists. */
    predicate Valid()
      reads this
    {
      initialized ==> app.Some?
    }

    constructor ()
      ensures Valid() && app == None && !initialized
    {
      app := None;
      initialized := false;
    }

    /**
     * `get_or_create_global_mcp_app`: the existing handle when it is initialised;
     * otherwise a new one (`newApp`) is created and initialised. When the
     * initialisation raises, the new handle stays stored but not initialised.
     * Only a failing `initialize()` is modelled: the `MCPApp(...)` constructor
     * itself never raises here, so the case where it does (leaving the old
     * handle in place) is not covered.
     */
    method GetOrCreate(newApp: nat, initFails: bool) returns (r: Option<nat>)
      requires Valid()
      modifies this
      ensures Valid()
      ensures old(app).Some? && old(initialized) ==> r == old(app) && app == old(app) && initialized
      ensures !(old(app).Some? && old(initialized)) ==> app == Some(newApp) && initialized == !initFails
      ensures !(old(app).Some? && old(initialized)) ==> r == (if initFails then None else Some(newApp))
    {
      if app.None? || !initialized {
        app := Some(newApp);
        if initFails {
          return None;
        }
        initialized := true;
      }
      r := app;
    }

    /** `cleanup_global_mcp_app`: an initialised handle is dropped (even when its cleanup raises); otherwise nothing changes. */
    method Cleanup()
      requires Valid()
      modifies this
      ensures Valid()
      ensures old(app).Some? && old(initialized) ==> app == None && !initialized
      ensures !(old(app).Some? && old(initialized)) ==> app == old(app) && initialized == old(initialized)
    {
      if app.Some? && initialized {
        app := None;
        initialized := false;
      }
    }

    /** `reset_global_mcp_app`: clean up, then create again, so the handle is always the new one. */
    method Reset(newApp: nat, initFails: bool) returns (r: Option<nat>)
      requires Valid()
      modifies this
      ensures Valid()
      ensures app == Some(newApp) && initialized == !initFails
      ensures r == (if initFails then None else Some(newApp))
    {
      Cleanup();
      r := GetOrCreate(newApp, initFails);
    }
  }
}
