/**
 * The Markdown-to-PDF converter (`pdf_converter.py`): the report title, the
 * element list the ReportLab path builds line by line, the watermark insertion
 * and the choice among the three converters.
 *
 * The converters themselves (wkhtmltopdf through pdfkit, ReportLab's layout,
 * mdpdf) are outside the model: whether each one succeeds is a parameter.
 */
module PdfConverter {
  import opened Wrappers
  import opened Text

  // ---------------------------------------------------------------- the title

  const DefaultTitle := "보고서"

  /** The first line from `i` on that starts with "# ". */
  function TitleFrom(lines: seq<string>, i: nat): (k: Option<nat>)
    requires i <= |lines|
    ensures k.Some? ==> i <= k.value < |lines| && StartsWith(lines[k.value], "# ")
    ensures k.Some? ==> forall j :: i <= j < k.value ==> !StartsWith(lines[j], "# ")
    ensures k.None? ==> forall j :: i <= j < |lines| ==> !StartsWith(lines[j], "# ")
    decreases |lines| - i
  {
    if i == |lines| then None
    else if StartsWith(lines[i], "# ") then Some(i)
    else TitleFrom(lines, i + 1)
  }

  /**
   * The title search of `markdown_to_html` and `markdown_to_pdf_reportlab`: the
   * stripped text after "# " on the first line starting with "# ", and "보고서"
   * when no line does.
   */
  function Title(content: string): (t: string)
    ensures var lines := Split(content, '\n');
      TitleFrom(lines, 0).None? ==> t == DefaultTitle
    ensures var lines := Split(content, '\n');
      TitleFrom(lines, 0).Some? ==> t == Strip(lines[TitleFrom(lines, 0).value][2..])
    ensures t != DefaultTitle ==> |t| == 0 || (!IsSpace(t[0]) && !IsSpace(t[|t| - 1]))
  {
    var lines := Split(content, '\n');
    match TitleFrom(lines, 0)
    case None => DefaultTitle
    case Some(k) => Strip(lines[k][2..])
  }

  // ---------------------------------------------------------------- the ReportLab layout

  /** A flowable of the ReportLab document: a heading of level 1 to 3, a normal paragraph, or a spacer so many inches high. */
  datatype Element = Heading(level: nat, text: string) | Para(text: string) | Spacer(inches: real)

  /** The loop's state: the elements so far, the pending paragraph's lines and whether a code block is open. */
  datatype Layout = Layout(elements: seq<Element>, section: seq<string>, inCode: bool)

  /** The elements with the pending lines, if any, closed as one paragraph. */
  function Flush(elements: seq<Element>, section: seq<string>): (r: seq<Element>)
    ensures |section| == 0 ==> r == elements
    ensures |section| > 0 ==> r == elements + [Para(Join(section, "\n"))]
  {
    if |section| > 0 then elements + [Para(Join(section, "\n"))] else elements
  }

  /** What a line is to the layout loop, tested in the order the loop tests it (the code block aside). */
  datatype LineKind = Fence | HeadingLine(level: nat, text: string) | TextLine | BlankLine

  function Kind(line: string): (k: LineKind)
    ensures k.Fence? <==> StartsWith(line, "```")
  {
    if StartsWith(line, "```") then Fence
    else if StartsWith(line, "# ") then HeadingLine(1, line[2..])
    else if StartsWith(line, "## ") then HeadingLine(2, line[3..])
    else if StartsWith(line, "### ") then HeadingLine(3, line[4..])
    else if Strip(line) != "" then TextLine
    else BlankLine
  }

  /**
   * One line of the loop. A fence toggles the code block and is dropped; inside a
   * block every line joins the pending paragraph as it is; outside, "# ", "## "
   * and "### " lines become headings, other non-blank lines join the paragraph,
   * and a blank line closes a pending paragraph and adds a small spacer.
   */
  function Step(s: Layout, line: string): Layout
  {
    var k := Kind(line);
    if k.Fence? then s.(inCode := !s.inCode)
    else if s.inCode || k.TextLine? then s.(section := s.section + [line])
    else if k.HeadingLine? then Layout(Flush(s.elements, s.section) + [Heading(k.level, k.text)], [], false)
    else if |s.section| > 0 then Layout(s.elements + [Para(Join(s.section, "\n")), Spacer(0.1)], [], false)
    else s
  }

  /** The loop over `lines` from state `s`. */
  function Run(s: Layout, lines: seq<string>): Layout
  {
    if |lines| == 0 then s else Step(Run(s, lines[..|lines| - 1]), lines[|lines| - 1])
  }

  lemma RunNext(s: Layout, lines: seq<string>, i: nat)
    requires i < |lines|
    ensures Run(s, lines[..i + 1]) == Step(Run(s, lines[..i]), lines[i])
  {
    assert lines[..i + 1][..i] == lines[..i];
  }

  lemma RunLast(s: Layout, lines: seq<string>, line: string)
    ensures Run(s, lines + [line]) == Step(Run(s, lines), line)
  {
    assert (lines + [line])[..|lines|] == lines;
  }

  /** Running over two stretches of lines is running over the first, then the second. */
  lemma {:induction false} RunAppend(s: Layout, a: seq<string>, b: seq<string>)
    ensures Run(s, a + b) == Run(Run(s, a), b)
    decreases |b|
  {
    if |b| == 0 {
      assert a + b == a;
    } else {
      var b0 := b[..|b| - 1];
      RunAppend(s, a, b0);
      assert (a + b)[..|a + b| - 1] == a + b0;
    }
  }

  /** The loop only appends: the elements it starts from stay at the front. */
  lemma {:induction false} RunKeepsElements(s: Layout, lines: seq<string>)
    ensures |s.elements| <= |Run(s, lines).elements|
    ensures Run(s, lines).elements[..|s.elements|] == s.elements
  {
    if |lines| > 0 {
      var t := Run(s, lines[..|lines| - 1]);
      RunKeepsElements(s, lines[..|lines| - 1]);
      var u := Step(t, lines[|lines| - 1]);
      assert |t.elements| <= |u.elements| && u.elements[..|t.elements|] == t.elements;
      assert u.elements[..|s.elements|] == u.elements[..|t.elements|][..|s.elements|];
    }
  }

  /** Inside a code block each line joins the pending paragraph verbatim. */
  lemma {:induction false} CodeLines(s: Layout, lines: seq<string>)
    requires s.inCode
    requires forall i :: 0 <= i < |lines| ==> !StartsWith(lines[i], "```")
    ensures Run(s, lines) == s.(section := s.section + lines)
  {
    if |lines| == 0 {
      assert s.section + lines == s.section;
    } else {
      var init := lines[..|lines| - 1];
      CodeLines(s, init);
      assert s.section + init + [lines[|lines| - 1]] == s.section + lines;
    }
  }

  /**
   * A fenced block outside a code block: the fences are dropped, the lines between
   * them join the pending paragraph verbatim, headings and blank lines included,
   * and the block is closed again.
   */
  lemma FencedBlock(s: Layout, open: string, inner: seq<string>, close: string)
    requires !s.inCode && StartsWith(open, "```") && StartsWith(close, "```")
    requires forall i :: 0 <= i < |inner| ==> !StartsWith(inner[i], "```")
    ensures Run(s, [open] + inner + [close]) == s.(section := s.section + inner)
  {
    RunAppend(s, [open] + inner, [close]);
    RunAppend(s, [open], inner);
    assert Run(s, [open]) == s.(inCode := true) by {
      assert [open][..0] == [];
    }
    CodeLines(s.(inCode := true), inner);
    assert Run(Run(s, [open] + inner), [close]) == Step(Run(s, [open] + inner), close) by {
      assert [close][..0] == [];
    }
  }

  /** Plain text: a line that is not blank and starts neither a fence nor a heading. */
  predicate Plain(line: string)
  {
    Kind(line) == TextLine
  }

  lemma PlainText(line: string)
    requires !StartsWith(line, "```") && !StartsWith(line, "# ") && !StartsWith(line, "## ") &&
             !StartsWith(line, "### ") && Strip(line) != ""
    ensures Plain(line)
  {
  }

  /** Lines of plain text, outside a code block, accumulate into one pending paragraph. */
  lemma {:induction false} PlainLines(s: Layout, lines: seq<string>)
    requires !s.inCode
    requires forall i :: 0 <= i < |lines| ==> Plain(lines[i])
    ensures Run(s, lines) == s.(section := s.section + lines)
  {
    if |lines| == 0 {
      assert s.section + lines == s.section;
    } else {
      var init := lines[..|lines| - 1];
      PlainLines(s, init);
      assert init + [lines[|lines| - 1]] == lines;
      RunLast(s, init, lines[|lines| - 1]);
      assert s.section + init + [lines[|lines| - 1]] == s.section + lines;
    }
  }

  /** A run of plain lines ended by a blank line becomes one paragraph followed by a 0.1-inch spacer. */
  lemma Paragraph(s: Layout, lines: seq<string>, blank: string)
    requires !s.inCode && s.section == [] && |lines| > 0
    requires forall i :: 0 <= i < |lines| ==> Plain(lines[i])
    requires !StartsWith(blank, "```") && Strip(blank) == ""
    ensures Run(s, lines + [blank]) == Layout(s.elements + [Para(Join(lines, "\n")), Spacer(0.1)], [], false)
  {
    RunLast(s, lines, blank);
    PlainLines(s, lines);
    assert s.section + lines == lines;
    StepBlank(Run(s, lines), blank);
  }

  /** A blank line outside a code block closes the pending paragraph, if any, and adds a spacer. */
  lemma StepBlank(s: Layout, blank: string)
    requires !s.inCode && |s.section| > 0
    requires !StartsWith(blank, "```") && Strip(blank) == ""
    ensures Step(s, blank) == Layout(s.elements + [Para(Join(s.section, "\n")), Spacer(0.1)], [], false)
  {
    BlankKind(blank);
  }

  lemma BlankKind(line: string)
    requires !StartsWith(line, "```") && Strip(line) == ""
    ensures Kind(line) == BlankLine
  {
    StripBlank(line);
    assert |line| > 0 ==> IsSpace(line[0]);
  }

  /** A line that strips to nothing is all whitespace. */
  lemma StripBlank(s: string)
    requires Strip(s) == ""
    ensures AllSpace(s)
  {
    var t := LStrip(s);
    assert AllSpace(t[0..]) && t[0..] == t;
    assert |t| == 0;
    assert s[..|s|] == s;
  }

  /** The state the loop starts from: the title heading and a quarter-inch spacer. */
  function Start(title: string): Layout
  {
    Layout([Heading(1, title), Spacer(0.25)], [], false)
  }

  /** The elements once the last pending paragraph is closed. */
  function Finish(s: Layout): (r: seq<Element>)
    ensures r == Flush(s.elements, s.section)
  {
    Flush(s.elements, s.section)
  }

  /** The element list of `markdown_to_pdf_reportlab`. */
  function Elements(content: string): seq<Element>
  {
    Finish(Run(Start(Title(content)), Split(content, '\n')))
  }

  /** The document opens with the title as a level-1 heading and a quarter-inch spacer. */
  lemma ElementsOpenWithTitle(content: string)
    ensures var r := Elements(content);
      |r| >= 2 && r[0] == Heading(1, Title(content)) && r[1] == Spacer(0.25)
  {
    var start := Start(Title(content));
    var s := Run(start, Split(content, '\n'));
    RunKeepsElements(start, Split(content, '\n'));
    var r := Finish(s);
    assert r[..|s.elements|] == s.elements;
    assert r[..2] == s.elements[..2] == start.elements;
  }

  /** One pass of the loop body of `markdown_to_pdf_reportlab`. */
  method LayoutLine(elements: seq<Element>, section: seq<string>, inCode: bool, line: string)
    returns (elements': seq<Element>, section': seq<string>, inCode': bool)
    ensures Layout(elements', section', inCode') == Step(Layout(elements, section, inCode), line)
  {
    elements', section', inCode' := elements, section, inCode;
    if StartsWith(line, "```") {
      inCode' := !inCode;
    } else if inCode {
      section' := section + [line];
    } else if StartsWith(line, "# ") || StartsWith(line, "## ") || StartsWith(line, "### ") {
      if |section| > 0 {
        elements' := elements + [Para(Join(section, "\n"))];
        section' := [];
      }
      if StartsWith(line, "# ") {
        elements' := elements' + [Heading(1, line[2..])];
      } else if StartsWith(line, "## ") {
        elements' := elements' + [Heading(2, line[3..])];
      } else {
        elements' := elements' + [Heading(3, line[4..])];
      }
    } else if Strip(line) != "" {
      section' := section + [line];
    } else if |section| > 0 {
      elements' := elements + [Para(Join(section, "\n"))];
      section' := [];
      elements' := elements' + [Spacer(0.1)];
    }
  }

  /** The loop of `markdown_to_pdf_reportlab` over the lines of the file. */
  method ReportLabElements(content: string) returns (elements: seq<Element>)
    ensures elements == Elements(content)
  {
    var title := Title(content);
    elements := [Heading(1, title), Spacer(0.25)];
    var section: seq<string> := [];
    var inCode := false;
    var lines := Split(content, '\n');
    var i := 0;
    while i < |lines|
      invariant 0 <= i <= |lines|
      invariant Layout(elements, section, inCode) == Run(Start(title), lines[..i])
    {
      RunNext(Start(title), lines, i);
      elements, section, inCode := LayoutLine(elements, section, inCode, lines[i]);
      i := i + 1;
    }
    assert lines[..i] == lines;
    if |section| > 0 {
      elements := elements + [Para(Join(section, "\n"))];
    }
  }

  // ---------------------------------------------------------------- the watermark

  const HeadClose := "</head>"

  /**
   * `create_watermark`: the style block, built from the encoded logo, goes right
   * before every "</head>"; an error (the logo cannot be read) returns the HTML
   * unchanged. `style` is `None` for that error.
   */
  function CreateWatermark(html: string, style: Option<string>): (r: string)
    ensures style.None? ==> r == html
    ensures style.Some? ==> r == ReplaceAll(html, HeadClose, style.value + HeadClose)
  {
    match style
    case None => html
    case Some(css) => ReplaceAll(html, HeadClose, css + HeadClose)
  }

  /** The replacement reaches the first occurrence unchanged up to it and rewrites that occurrence. */
  lemma {:induction false} ReplaceFirst(a: string, pat: string, b: string, rep: string)
    requires |pat| > 0
    requires forall k: nat :: k < |a| ==> !OccursAt(a + pat + b, pat, k)
    ensures ReplaceAll(a + pat + b, pat, rep) == a + rep + ReplaceAll(b, pat, rep)
    decreases |a|
  {
    var s := a + pat + b;
    if |a| == 0 {
      assert s == pat + b;
      assert s[..|pat|] == pat;
      assert s[|pat|..] == b;
    } else {
      assert !OccursAt(s, pat, 0);
      assert s[0..|pat|] == s[..|pat|];
      assert s[1..] == a[1..] + pat + b;
      forall k: nat | k < |a[1..]| ensures !OccursAt(a[1..] + pat + b, pat, k) {
        assert !OccursAt(s, pat, k + 1);
        assert k + |pat| <= |s[1..]| ==> s[1..][k..k + |pat|] == s[k + 1..k + 1 + |pat|];
      }
      ReplaceFirst(a[1..], pat, b, rep);
      assert [s[0]] + (a[1..] + rep + ReplaceAll(b, pat, rep)) == a + rep + ReplaceAll(b, pat, rep);
    }
  }

  /** HTML without "</head>" gets no watermark. */
  lemma NoHeadNoWatermark(html: string, style: Option<string>)
    requires forall k: nat :: !OccursAt(html, HeadClose, k)
    ensures CreateWatermark(html, style) == html
  {
    if style.Some? {
      ReplaceAbsent(html, HeadClose, style.value + HeadClose);
    }
  }

  /** The style lands right before the first "</head>". */
  lemma WatermarkBeforeHead(head: string, body: string, css: string)
    requires forall k: nat :: !OccursAt(head, HeadClose, k)
    ensures CreateWatermark(head + HeadClose + body, Some(css)) ==
            head + css + HeadClose + ReplaceAll(body, HeadClose, css + HeadClose)
  {
    var s := head + HeadClose + body;
    forall k: nat | k < |head| ensures !OccursAt(s, HeadClose, k) {
      if k + |HeadClose| <= |head| {
        assert !OccursAt(head, HeadClose, k);
        assert s[k..k + |HeadClose|] == head[k..k + |HeadClose|];
      } else {
        // "</head>" has no border: an occurrence reaching into it would need a second '<'
        var m := |head| - k;
        assert s[|head|] == '<';
        assert forall j :: 1 <= j < |HeadClose| ==> HeadClose[j] != '<';
        assert k + |HeadClose| <= |s| ==> s[k..k + |HeadClose|][m] == '<' != HeadClose[m];
      }
    }
    ReplaceFirst(head, HeadClose, body, css + HeadClose);
  }

  // ---------------------------------------------------------------- choosing a converter

  datatype Converter = Pdfkit | ReportLab | Mdpdf

  /** The order the automatic choice tries the converters in. */
  const Fallbacks: seq<Converter> := [Pdfkit, ReportLab, Mdpdf]

  /**
   * `markdown_to_pdf`: "pdfkit", "reportlab" and "mdpdf" run that converter only;
   * any other method tries pdfkit, then ReportLab, then mdpdf, stopping at the
   * first that succeeds. The result lists the converters run, and whether the
   * conversion succeeded (otherwise the last one's exception propagates).
   * `works(c)` says whether converter `c` succeeds on this file.
   */
  function MarkdownToPdf(choice: string, works: Converter -> bool): (r: (seq<Converter>, bool))
    ensures choice == "pdfkit" ==> r == ([Pdfkit], works(Pdfkit))
    ensures choice == "reportlab" ==> r == ([ReportLab], works(ReportLab))
    ensures choice == "mdpdf" ==> r == ([Mdpdf], works(Mdpdf))
    ensures choice !in {"pdfkit", "reportlab", "mdpdf"} ==>
      1 <= |r.0| <= 3 && r.0 == Fallbacks[..|r.0|] &&
      (forall i :: 0 <= i < |r.0| - 1 ==> !works(r.0[i])) &&
      (r.1 <==> works(r.0[|r.0| - 1])) &&
      (|r.0| < 3 ==> r.1)
    ensures choice !in {"pdfkit", "reportlab", "mdpdf"} ==> (r.1 <==> works(Pdfkit) || works(ReportLab) || works(Mdpdf))
  {
    if choice == "pdfkit" then ([Pdfkit], works(Pdfkit))
    else if choice == "reportlab" then ([ReportLab], works(ReportLab))
    else if choice == "mdpdf" then ([Mdpdf], works(Mdpdf))
    else if works(Pdfkit) then ([Pdfkit], true)
    else if works(ReportLab) then ([Pdfkit, ReportLab], true)
    else ([Pdfkit, ReportLab, Mdpdf], works(Mdpdf))
  }
}
