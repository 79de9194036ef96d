/**
 * utils.py: the markdown clean-up applied to a generated report, and the URLs of
 * the WiseReport company pages the report agents browse.
 */
module Utils {
  import opened Wrappers
  import opened Text
  import opened ReSub

  /** The opening and closing mark of a fenced block. */
  const Fence := "```"

  /** A newline followed by the closing mark: the end of a fenced block's body. */
  const FenceClose := "\n```"

  /** A backslash, `n`, a backslash, `n`: the two-character escape written twice, as plain text. */
  const LiteralPair := "\\n\\n"

  /**
   * Pass 1, `` ```[^\n]*\n(.*?)\n``` `` -> `\1` with `.` matching newlines: an
   * opening mark, the rest of its line, then the shortest body up to the next
   * newline-and-closing-mark; the whole block is replaced by its body.
   */
  function FencedBlock(s: string, i: nat): (h: Option<Hit>)
    ensures h.Some? ==> OccursAt(s, Fence, i) && i + h.value.len <= |s|
  {
    if OccursAt(s, Fence, i) then
      match IndexOfChar(s[i + 3..], '\n')
      case None => None
      case Some(n) =>
        var b := i + 3 + n + 1;
        match FindFrom(s, FenceClose, b)
        case None => None
        case Some(p) => Some(Hit(p + 4 - i, s[b..p]))
    else None
  }

  /** Pass 2, `\\n\\n` -> two newlines: every literal pair becomes a real blank line. */
  function LiteralNewlines(s: string): string
  {
    ReplaceAll(s, LiteralPair, "\n\n")
  }

  /** `clean_markdown`: unwrap fenced blocks, then turn literal pairs into newlines. */
  function CleanMarkdown(text: string): string
  {
    LiteralNewlines(Sub(text, FencedBlock))
  }

  /** A body that holds no newline-and-closing-mark cannot hold one that runs into the closing mark either. */
  lemma CloseNotInside(x: string, j: nat)
    requires !Contains(x, FenceClose) && j < |x|
    ensures !OccursAt(x + FenceClose, FenceClose, j)
  {
    var t := x + FenceClose;
    if j + 4 <= |x| {
      assert !OccursAt(x, FenceClose, j);
      assert t[j..j + 4] == x[j..j + 4];
    } else if j + 4 <= |t| {
      assert t[j..j + 4][|x| - j] == t[|x|] == '\n';
      assert FenceClose[|x| - j] == '`';
    }
  }

  /** The first newline of a text that starts with a newline-free line is the one that ends it. */
  lemma NewlineAfter(line: string, rest: string)
    requires '\n' !in line
    ensures IndexOfChar(line + "\n" + rest, '\n') == Some(|line|)
  {
    var t := line + "\n" + rest;
    var r := IndexOfChar(t, '\n');
    assert t[|line|] == '\n';
  }

  /**
   * The fence match ends at the FIRST closing mark after the opening line: a block
   * `` ```info\nX\n``` `` followed by more text matches only up to its own
   * closing mark, and yields `X`.
   */
  lemma ShortestFence(info: string, x: string, rest: string)
    requires '\n' !in info && !Contains(x, FenceClose)
    ensures FencedBlock(Fence + info + "\n" + x + FenceClose + rest, 0) == Some(Hit(|info| + |x| + 8, x))
  {
    FenceLandmarks(Fence + info + "\n" + x + FenceClose + rest, info, x, rest);
  }

  /** Such a block has its three landmarks where `info` and `x` put them, and so matches up to its own close. */
  lemma FenceLandmarks(s: string, info: string, x: string, rest: string)
    requires s == Fence + info + "\n" + x + FenceClose + rest
    requires '\n' !in info && !Contains(x, FenceClose)
    ensures FencedBlock(s, 0) == Some(Hit(|info| + |x| + 8, x))
  {
    BlockLandmarks(s, info, x, rest);
    Landmarks(s, |info|, |x|, x);
  }

  /**
   * The landmarks of a block: the opening mark at 0, the end of its first line
   * at `3 + n`, the first closing mark after it at `n + 4 + m`, and `x` between.
   */
  predicate Marks(s: string, n: nat, m: nat, x: string)
  {
    OccursAt(s, Fence, 0) && IndexOfChar(s[3..], '\n') == Some(n)
    && n + 4 <= |s| && FindFrom(s, FenceClose, n + 4) == Some(n + 4 + m) && s[n + 4..n + 4 + m] == x
  }

  /** The three landmarks of such a block. */
  lemma BlockLandmarks(s: string, info: string, x: string, rest: string)
    requires s == Fence + info + "\n" + x + FenceClose + rest
    requires '\n' !in info && !Contains(x, FenceClose)
    ensures Marks(s, |info|, |x|, x)
  {
    Opening(info, x, rest);
    FirstClose(info, x, rest);
    BodySlice(info, x, rest);
  }

  /** The block read from the landmarks. */
  lemma Landmarks(s: string, n: nat, m: nat, x: string)
    requires Marks(s, n, m, x)
    ensures FencedBlock(s, 0) == Some(Hit(n + m + 8, x))
  {
    FenceFrom(s, n, n + 4 + m, x);
  }

  /** The block opens with the mark, and its first line ends after `info`. */
  lemma Opening(info: string, x: string, rest: string)
    requires '\n' !in info
    ensures var s := Fence + info + "\n" + x + FenceClose + rest;
      OccursAt(s, Fence, 0) && IndexOfChar(s[3..], '\n') == Some(|info|)
  {
    OpeningLine(info, x + FenceClose + rest);
    assert Fence + info + "\n" + x + FenceClose + rest == Fence + info + "\n" + (x + FenceClose + rest);
  }

  /** The first closing mark from the body's start on is the one right after `x`. */
  lemma FirstClose(info: string, x: string, rest: string)
    requires !Contains(x, FenceClose)
    ensures FindFrom(Fence + info + "\n" + x + FenceClose + rest, FenceClose, |info| + 4) == Some(|info| + 4 + |x|)
  {
    var pre := Fence + info + "\n";
    NoCloseBefore(pre, x, rest);
    FirstOccurrence(pre + x + FenceClose + rest, FenceClose, |pre|, |pre| + |x|);
  }

  /** The body sits between the opening line and the closing mark. */
  lemma BodySlice(info: string, x: string, rest: string)
    ensures (Fence + info + "\n" + x + FenceClose + rest)[|info| + 4..|info| + 4 + |x|] == x
  {
    var pre := Fence + info + "\n";
    assert pre + x + FenceClose + rest == pre + x + (FenceClose + rest);
  }

  /** The opening mark and the line it starts. */
  lemma OpeningLine(info: string, rest: string)
    requires '\n' !in info
    ensures var s := Fence + info + "\n" + rest;
      OccursAt(s, Fence, 0) && IndexOfChar(s[3..], '\n') == Some(|info|)
  {
    var s := Fence + info + "\n" + rest;
    assert s[..3] == Fence;
    assert s[3..] == info + "\n" + rest;
    NewlineAfter(info, rest);
  }

  /** A fence match read off its three landmarks: the opening mark, the end of its line and the closing mark. */
  lemma FenceFrom(s: string, n: nat, p: nat, x: string)
    requires OccursAt(s, Fence, 0) && n + 4 <= |s| && IndexOfChar(s[3..], '\n') == Some(n)
    requires FindFrom(s, FenceClose, n + 4) == Some(p) && s[n + 4..p] == x
    ensures FencedBlock(s, 0) == Some(Hit(p + 4, x))
  {
  }

  /** Inside the body, no closing mark starts. */
  lemma NoCloseBefore(pre: string, x: string, rest: string)
    requires !Contains(x, FenceClose)
    ensures var s := pre + x + FenceClose + rest;
      OccursAt(s, FenceClose, |pre| + |x|) && forall j :: |pre| <= j < |pre| + |x| ==> !OccursAt(s, FenceClose, j)
  {
    var s := pre + x + FenceClose + rest;
    var t := x + FenceClose;
    assert s == pre + t + rest;
    assert s[|pre| + |x|..|pre| + |x| + 4] == FenceClose;
    forall j | |pre| <= j < |pre| + |x|
      ensures !OccursAt(s, FenceClose, j)
    {
      CloseNotInside(x, j - |pre|);
      if j + 4 <= |s| {
        assert s[j..j + 4] == (pre + t + rest)[j..j + 4];
        if j - |pre| + 4 <= |t| {
          assert s[j..j + 4] == t[j - |pre|..j - |pre| + 4];
        }
      }
    }
  }

  /** The search from `b` stops at the first occurrence. */
  lemma FirstOccurrence(s: string, pat: string, b: nat, p: nat)
    requires b <= p <= |s| && OccursAt(s, pat, p)
    requires forall j :: b <= j < p ==> !OccursAt(s, pat, j)
    ensures FindFrom(s, pat, b) == Some(p)
  {
  }

  /** A text that is exactly one fenced block comes out as its body, with literal pairs turned into newlines. */
  lemma FenceUnwrapped(info: string, x: string)
    requires '\n' !in info && !Contains(x, FenceClose)
    ensures CleanMarkdown(Fence + info + "\n" + x + FenceClose) == LiteralNewlines(x)
  {
    var s := Fence + info + "\n" + x + FenceClose;
    ShortestFence(info, x, "");
    assert s + "" == s;
    SingleHit(s, 0, FencedBlock);
    assert s[|info| + |x| + 8..] == "";
    assert s[..0] + x + "" == x;
  }

  /** Without a fence mark and without a literal pair there is nothing to clean. */
  lemma UnchangedWithoutMarks(text: string)
    requires !Contains(text, Fence) && !Contains(text, LiteralPair)
    ensures CleanMarkdown(text) == text
  {
    forall j | 0 <= j < |text|
      ensures NoHitAt(text, j, FencedBlock)
    {
    }
    NoHitUnchanged(text, FencedBlock);
    ReplaceAbsent(text, LiteralPair, "\n\n");
  }

  /** Text without a backslash before a literal pair keeps its characters and the pair becomes two newlines. */
  lemma {:induction false} PairAfterPlain(p: string, rest: string)
    requires '\\' !in p
    ensures LiteralNewlines(p + LiteralPair + rest) == p + "\n\n" + LiteralNewlines(rest)
    decreases |p|
  {
    if |p| == 0 {
      assert p + LiteralPair + rest == LiteralPair + rest;
      assert (LiteralPair + rest)[|LiteralPair|..] == rest;
    } else {
      var s := p + LiteralPair + rest;
      assert s[0] == p[0] && s[0] != LiteralPair[0];
      assert s[..|LiteralPair|] != LiteralPair;
      assert s[1..] == p[1..] + LiteralPair + rest;
      PairAfterPlain(p[1..], rest);
      assert [p[0]] + p[1..] == p;
    }
  }

  /**
   * Every literal pair becomes two real newlines: text made of backslash-free
   * pieces separated by literal pairs comes out as the same pieces separated by
   * blank lines.
   */
  lemma {:induction false} EveryPairReplaced(pieces: seq<string>)
    requires forall k :: 0 <= k < |pieces| ==> '\\' !in pieces[k]
    ensures LiteralNewlines(Join(pieces, LiteralPair)) == Join(pieces, "\n\n")
    decreases |pieces|
  {
    if |pieces| == 1 {
      forall j: nat ensures !OccursAt(pieces[0], LiteralPair, j) {
        if j + 4 <= |pieces[0]| {
          assert pieces[0][j..j + 4][0] == pieces[0][j];
        }
      }
      ReplaceAbsent(pieces[0], LiteralPair, "\n\n");
    } else if |pieces| > 1 {
      EveryPairReplaced(pieces[1..]);
      PairAfterPlain(pieces[0], Join(pieces[1..], LiteralPair));
    }
  }

  const WiseReportBase := "https://comp.wisereport.co.kr/company/"

  /** The query that every page of the `URLS` table ends in; `{}` stands for the company code. */
  const CodeQuery := ".aspx?cmp_cd={}"

  /** The `URLS` table: report type and page id; the page template is the id followed by the query. */
  const Urls: seq<(string, string)> := [
    ("기업현황", "c1010001"),
    ("기업개요", "c1020001"),
    ("재무분석", "c1030001"),
    ("투자지표", "c1040001"),
    ("컨센서스", "c1050001"),
    ("경쟁사분석", "c1060001"),
    ("지분현황", "c1070001"),
    ("업종분석", "c1090001"),
    ("최근리포트", "c1080001")
  ]

  /** The position of a report type in the table; `None` is the `KeyError` of an unknown one. */
  function TypeIndex(table: seq<(string, string)>, reportType: string): (r: Option<nat>)
    ensures r.None? <==> forall k :: 0 <= k < |table| ==> table[k].0 != reportType
    ensures r.Some? ==> r.value < |table| && table[r.value].0 == reportType
  {
    if |table| == 0 then None
    else if table[0].0 == reportType then Some(0)
    else
      match TypeIndex(table[1..], reportType)
      case None =>
        assert forall k :: 1 <= k < |table| ==> table[k] == table[1..][k - 1];
        None
      case Some(k) => Some(k + 1)
  }

  /** `template.format(code)`: the first `{}` is replaced by the code. */
  function FormatCode(template: string, code: string): string
    decreases |template|
  {
    if |template| < 2 then template
    else if template[..2] == "{}" then code + template[2..]
    else [template[0]] + FormatCode(template[1..], code)
  }

  /** A template that ends in its only `{}` becomes its text with the code appended. */
  lemma {:induction false} FormatAtEnd(page: string, code: string)
    requires '{' !in page
    ensures FormatCode(page + "{}", code) == page + code
    decreases |page|
  {
    if |page| == 0 {
      assert page + "{}" == "{}";
    } else {
      assert (page + "{}")[0] == page[0];
      assert (page + "{}")[1..] == page[1..] + "{}";
      FormatAtEnd(page[1..], code);
    }
  }

  /** `get_wise_report_url`; `None` where the unknown report type raises `KeyError`. */
  function WiseReportUrl(reportType: string, companyCode: string): (r: Option<string>)
    ensures r.None? <==> forall k :: 0 <= k < |Urls| ==> Urls[k].0 != reportType
  {
    match TypeIndex(Urls, reportType)
    case None => None
    case Some(k) => Some(WiseReportBase + FormatCode(Urls[k].1 + CodeQuery, companyCode))
  }

  /** Every page id of the table has eight characters and no brace. */
  lemma PageIdPlain(k: nat)
    requires k < |Urls|
    ensures |Urls[k].1| == 8 && '{' !in Urls[k].1
  {
  }

  /** A page's address is the base, the page id, the query's parameter name and the code. */
  lemma PageUrl(id: string, code: string)
    requires |id| == 8 && '{' !in id
    ensures WiseReportBase + FormatCode(id + CodeQuery, code) == WiseReportBase + id + ".aspx?cmp_cd=" + code
    ensures var u := WiseReportBase + FormatCode(id + CodeQuery, code);
      StartsWith(u, WiseReportBase) && |u| == |WiseReportBase| + 21 + |code| && u[|WiseReportBase| + 21..] == code
  {
    var page := id + ".aspx?cmp_cd=";
    assert '{' !in ".aspx?cmp_cd=" && |".aspx?cmp_cd="| == 13;
    assert id + CodeQuery == page + "{}";
    FormatAtEnd(page, code);
    var u := WiseReportBase + page + code;
    assert u[..|WiseReportBase|] == WiseReportBase;
    assert u[|WiseReportBase| + 21..] == code;
  }

  /**
   * A known report type gives the company base address, the type's page and the
   * company code at the very end, so the code can be read back off the URL.
   */
  lemma KnownTypeUrl(reportType: string, companyCode: string, k: nat)
    requires k < |Urls| && Urls[k].0 == reportType
    ensures WiseReportUrl(reportType, companyCode).Some?
    ensures var u := WiseReportUrl(reportType, companyCode).value;
      StartsWith(u, WiseReportBase) && |u| == |WiseReportBase| + 21 + |companyCode| && u[|WiseReportBase| + 21..] == companyCode
  {
    var i := TypeIndex(Urls, reportType).value;
    PageIdPlain(i);
    PageUrl(Urls[i].1, companyCode);
  }

  /** Different company codes give different addresses for the same report type. */
  lemma UrlInjective(reportType: string, c1: string, c2: string, k: nat)
    requires k < |Urls| && Urls[k].0 == reportType
    requires WiseReportUrl(reportType, c1) == WiseReportUrl(reportType, c2)
    ensures c1 == c2
  {
    KnownTypeUrl(reportType, c1, k);
    KnownTypeUrl(reportType, c2, k);
  }
}
