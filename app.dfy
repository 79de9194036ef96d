/**
 * app.py: the web front end's input checks, the naming and lookup of saved
 * reports, and the life of one analysis request. The page rendering, the worker
 * threads and the e-mail delivery are not modelled; a request's analysis either
 * completes or raises, and which one is an input.
 */
module App {
  import opened Wrappers
  import opened Text
  import opened ReSub
  import opened Files

  /** `\d{6}` on its own: six decimal digits. */
  predicate SixDigits(s: string)
  {
    |s| == 6 && AllDigits(s)
  }

  /**
   * `is_valid_stock_code`, `re.match(r'^\d{6}$', code)`: six digits, and since `$`
   * also matches just before a final newline, six digits and one newline.
   */
  predicate IsValidStockCode(code: string)
  {
    SixDigits(code) || (|code| == 7 && code[6] == '\n' && SixDigits(code[..6]))
  }

  /** A typed six-digit code passes, with or without the newline `$` lets through. */
  lemma StockCodeExamples()
    ensures IsValidStockCode("005930") && IsValidStockCode("005930\n")
    ensures !IsValidStockCode("05930") && !IsValidStockCode("0059300") && !IsValidStockCode("00593a")
    ensures !IsValidStockCode("005930\n\n") && !IsValidStockCode("\n005930")
  {
    assert "005930\n"[..6] == "005930";
    assert "00593a"[5] == 'a';
    assert "\n005930"[..6][0] == '\n';
  }

  /** `[a-zA-Z0-9._%+-]`, the characters of the part before `@`. */
  predicate LocalChar(c: char)
  {
    IsAsciiAlnum(c) || c == '.' || c == '_' || c == '%' || c == '+' || c == '-'
  }

  /** `[a-zA-Z0-9.-]`, the characters of the domain before its last dot. */
  predicate DomainChar(c: char)
  {
    IsAsciiAlnum(c) || c == '.' || c == '-'
  }

  predicate AllLocal(s: string) { forall i :: 0 <= i < |s| ==> LocalChar(s[i]) }

  predicate AllDomain(s: string) { forall i :: 0 <= i < |s| ==> DomainChar(s[i]) }

  predicate AllLetters(s: string) { forall i :: 0 <= i < |s| ==> IsAsciiLetter(s[i]) }

  /** `[a-zA-Z0-9.-]+\.[a-zA-Z]{2,}`: the top-level domain has no dot, so the dot it follows is the last one. */
  predicate HostOk(d: string)
  {
    match LastIndexOf(d, '.')
    case None => false
    case Some(p) => p >= 1 && AllDomain(d[..p]) && |d| - p - 1 >= 2 && AllLetters(d[p + 1..])
  }

  /** The whole pattern on a text without its final newline: neither part may hold `@`, so the split is at the first one. */
  predicate EmailBody(b: string)
  {
    match IndexOfChar(b, '@')
    case None => false
    case Some(a) => a >= 1 && AllLocal(b[..a]) && HostOk(b[a + 1..])
  }

  /** `is_valid_email`, with the same final-newline allowance of `$`. */
  predicate IsValidEmail(email: string)
  {
    EmailBody(email) || (|email| > 0 && email[|email| - 1] == '\n' && EmailBody(email[..|email| - 1]))
  }

  /** The last `c` of a text whose last piece holds none is the one before that piece. */
  lemma LastBefore(head: string, c: char, tail: string)
    requires c !in tail
    ensures LastIndexOf(head + [c] + tail, c) == Some(|head|)
  {
    var t := head + [c] + tail;
    assert t[|head|] == c;
    assert t[|head| + 1..] == tail;
  }

  /** A host, a dot and a top-level domain of two or more letters pass the domain half of the pattern. */
  lemma HostFromParts(host: string, tld: string)
    requires |host| >= 1 && AllDomain(host)
    requires |tld| >= 2 && AllLetters(tld)
    ensures HostOk(host + "." + tld)
  {
    forall i | 0 <= i < |tld|
      ensures tld[i] != '.'
    {
      assert IsAsciiLetter(tld[i]);
    }
    var d := host + "." + tld;
    assert d == host + ['.'] + tld;
    LastBefore(host, '.', tld);
    assert d[..|host|] == host && d[|host| + 1..] == tld;
  }

  /** A local part and a valid host around one `@` pass the whole pattern. */
  lemma BodyFromParts(local: string, d: string)
    requires |local| >= 1 && AllLocal(local) && HostOk(d)
    ensures EmailBody(local + "@" + d)
  {
    forall i | 0 <= i < |local|
      ensures local[i] != '@'
    {
      assert LocalChar(local[i]);
    }
    var b := local + "@" + d;
    assert b == local + ['@'] + d;
    IndexAfterPiece(local, '@', d);
    assert b[..|local|] == local && b[|local| + 1..] == d;
  }

  /** A local part, `@`, a host, a dot and a top-level domain of two or more letters make a valid address, with or without a final newline. */
  lemma EmailFromParts(local: string, host: string, tld: string)
    requires |local| >= 1 && AllLocal(local)
    requires |host| >= 1 && AllDomain(host)
    requires |tld| >= 2 && AllLetters(tld)
    ensures IsValidEmail(local + "@" + host + "." + tld)
    ensures IsValidEmail(local + "@" + host + "." + tld + "\n")
  {
    BodyOfParts(local, host, tld);
    NewlineAllowed(local + "@" + host + "." + tld);
  }

  /** `{local}@{host}.{tld}` built from parts of the pattern's classes matches the whole pattern. */
  lemma BodyOfParts(local: string, host: string, tld: string)
    requires |local| >= 1 && AllLocal(local)
    requires |host| >= 1 && AllDomain(host)
    requires |tld| >= 2 && AllLetters(tld)
    ensures EmailBody(local + "@" + host + "." + tld)
  {
    var d := host + "." + tld;
    assert local + "@" + host + "." + tld == local + "@" + d;
    assert HostOk(d) by {
      HostFromParts(host, tld);
    }
    BodyFromParts(local, d);
  }

  /** `$` also matches before a final newline. */
  lemma NewlineAllowed(b: string)
    requires EmailBody(b)
    ensures IsValidEmail(b) && IsValidEmail(b + "\n")
  {
    var e := b + "\n";
    assert e[..|e| - 1] == b && e[|e| - 1] == '\n';
  }

  /** A text split around an `@` and a later dot. */
  lemma SplitAround(b: string, a: nat, q: nat)
    requires a < |b| && b[a] == '@' && q < |b| - a - 1 && b[a + 1..][q] == '.'
    ensures b == b[..a] + "@" + b[a + 1..][..q] + "." + b[a + 1..][q + 1..]
  {
    var d := b[a + 1..];
    assert d == d[..q] + "." + d[q + 1..];
    assert b == b[..a] + "@" + d;
  }

  /** The pieces of a valid address: local part, host and top-level domain. */
  function EmailPieces(b: string): (p: (string, string, string))
    requires EmailBody(b)
    ensures b == p.0 + "@" + p.1 + "." + p.2
    ensures |p.0| >= 1 && AllLocal(p.0) && |p.1| >= 1 && AllDomain(p.1) && |p.2| >= 2 && AllLetters(p.2)
  {
    var a := IndexOfChar(b, '@').value;
    var d := b[a + 1..];
    var q := LastIndexOf(d, '.').value;
    SplitAround(b, a, q);
    (b[..a], d[..q], d[q + 1..])
  }

  /** A valid address has no newline but the one `$` allows at its very end. */
  lemma EmailBodyOneLine(b: string)
    requires EmailBody(b)
    ensures '\n' !in b
  {
    var p := EmailPieces(b);
    var l, h, t := p.0, p.1, p.2;
    forall i | 0 <= i < |b|
      ensures b[i] != '\n'
    {
      if i < |l| {
        assert b[i] == l[i] && LocalChar(l[i]);
      } else if |l| < i < |l| + 1 + |h| {
        assert b[i] == h[i - |l| - 1] && DomainChar(h[i - |l| - 1]);
      } else if i > |l| + 1 + |h| {
        assert b[i] == t[i - |l| - |h| - 2] && IsAsciiLetter(t[i - |l| - |h| - 2]);
      }
    }
  }

  /** The first check that fails, in `validate_inputs`' order. */
  datatype InputError = NoCompanyName | BadStockCode | BadEmail

  /** `validate_inputs`: company name, then code, then address; only the first failure is reported. */
  function ValidateInputs(companyName: string, stockCode: string, email: string): (r: Option<InputError>)
    ensures r.None? <==> companyName != "" && IsValidStockCode(stockCode) && IsValidEmail(email)
    ensures r == Some(NoCompanyName) <==> companyName == ""
    ensures r == Some(BadStockCode) <==> companyName != "" && !IsValidStockCode(stockCode)
    ensures r == Some(BadEmail) <==> companyName != "" && IsValidStockCode(stockCode) && !IsValidEmail(email)
  {
    if companyName == "" then Some(NoCompanyName)
    else if !IsValidStockCode(stockCode) then Some(BadStockCode)
    else if !IsValidEmail(email) then Some(BadEmail)
    else None
  }

  /** The message shown for each failure. */
  function InputErrorText(e: InputError): string
  {
    match e
    case NoCompanyName => "회사명을 입력해주세요."
    case BadStockCode => "올바른 종목코드를 입력해주세요 (6자리 숫자)."
    case BadEmail => "올바른 이메일 주소를 입력해주세요."
  }

  /** `save_report`'s file name, `{code}_{name}_{date}.md`. */
  function ReportFileName(stockCode: string, companyName: string, referenceDate: string): string
  {
    stockCode + "_" + companyName + "_" + referenceDate + ".md"
  }

  /** The glob `{code}_*_{date}.md` of `get_cached_report`; its `*` matches any run of characters other than `/`. */
  predicate CacheMatch(name: string, stockCode: string, referenceDate: string)
  {
    GlobMatch(name, stockCode + "_", "_" + referenceDate + ".md")
  }

  /** A saved report is found again by the cache lookup for its code and date. */
  lemma SavedReportMatches(stockCode: string, companyName: string, referenceDate: string)
    requires '/' !in companyName
    ensures CacheMatch(ReportFileName(stockCode, companyName, referenceDate), stockCode, referenceDate)
  {
    assert ReportFileName(stockCode, companyName, referenceDate)
      == (stockCode + "_") + companyName + ("_" + referenceDate + ".md");
    GlobMatchOf(stockCode + "_", companyName, "_" + referenceDate + ".md");
  }

  /** `get_cached_report`: the matching report with the latest modification time. */
  function CachedReport(files: seq<File>, stockCode: string, referenceDate: string): (r: Option<File>)
    ensures r.Some? ==> r.value in files && CacheMatch(r.value.name, stockCode, referenceDate)
    ensures r.Some? ==> forall f :: f in files && CacheMatch(f.name, stockCode, referenceDate) ==> f.mtime <= r.value.mtime
    ensures r.None? <==> forall f :: f in files ==> !CacheMatch(f.name, stockCode, referenceDate)
  {
    Latest(files, n => CacheMatch(n, stockCode, referenceDate))
  }

  /** A report saved later than every file already there is the one the next lookup returns. */
  lemma SavedThenCached(files: seq<File>, stockCode: string, companyName: string, referenceDate: string, content: string, now: int)
    requires '/' !in companyName
    requires forall f :: f in files ==> f.mtime < now
    ensures var saved := File(ReportFileName(stockCode, companyName, referenceDate), now, content);
      CachedReport(files + [saved], stockCode, referenceDate) == Some(saved)
  {
    var saved := File(ReportFileName(stockCode, companyName, referenceDate), now, content);
    SavedReportMatches(stockCode, companyName, referenceDate);
    LatestAfterNewer(files, saved, n => CacheMatch(n, stockCode, referenceDate));
  }

  /** A request's status: set to pending on creation, then to one of the other two. */
  datatype Status = Pending | Completed | Failed

  /** The mark `show_request_status` puts before a request. */
  function StatusMark(s: Status): (m: string)
    ensures |m| == 1
  {
    match s
    case Pending => "🟡"
    case Completed => "🟢"
    case Failed => "🔴"
  }

  /** The three statuses look different on the page. */
  lemma StatusMarksDistinct(s: Status, t: Status)
    requires StatusMark(s) == StatusMark(t)
    ensures s == t
  {
  }

  function CachedText(fileName: string): string
  {
    "캐시된 분석 보고서가 이메일로 전송되었습니다. (파일: " + fileName + ")"
  }

  function FreshText(fileName: string): string
  {
    "분석이 완료되었으며, 결과가 이메일로 전송되었습니다. (파일: " + fileName + ")"
  }

  function FailureText(error: string): string
  {
    "분석 중 오류가 발생했습니다: " + error
  }

  /** One analysis request of the queue. */
  class AnalysisRequest {
    var stockCode: string
    var companyName: string
    var email: string
    var referenceDate: string
    var status: Status
    var result: Option<string>

    /** A new request is pending and has no result. */
    constructor(stockCode: string, companyName: string, email: string, referenceDate: string)
      ensures this.stockCode == stockCode && this.companyName == companyName
      ensures this.email == email && this.referenceDate == referenceDate
      ensures status == Pending && result == None
    {
      this.stockCode := stockCode;
      this.companyName := companyName;
      this.email := email;
      this.referenceDate := referenceDate;
      status := Pending;
      result := None;
    }

    /**
     * `process_analysis_request`: a cached report is mailed, otherwise a new one
     * is written and mailed; the request ends completed, or failed with the
     * exception's text when any step raises (`failure`). `files` is the reports
     * directory at the start.
     */
    method Process(files: seq<File>, failure: Option<string>)
      modifies this
      ensures status != Pending
      ensures status == Failed <==> failure.Some?
      ensures failure.Some? ==> result == Some(FailureText(failure.value))
      ensures failure.None? ==> match CachedReport(files, stockCode, referenceDate)
        case Some(f) => result == Some(CachedText(f.name))
        case None => result == Some(FreshText(ReportFileName(stockCode, companyName, referenceDate)))
      ensures stockCode == old(stockCode) && companyName == old(companyName)
      ensures email == old(email) && referenceDate == old(referenceDate)
    {
      if failure.Some? {
        status := Failed;
        result := Some(FailureText(failure.value));
        return;
      }
      var cached := CachedReport(files, stockCode, referenceDate);
      if cached.Some? {
        result := Some(CachedText(cached.value.name));
      } else {
        var saved := ReportFileName(stockCode, companyName, referenceDate);
        result := Some(FreshText(saved));
      }
      status := Completed;
    }
  }

  /** `process_analysis`, the awaited variant: success is exactly the absence of a failure, and a cached report is preferred. */
  function ProcessAnalysis(files: seq<File>, stockCode: string, companyName: string, referenceDate: string, failure: Option<string>): (r: (bool, string))
    ensures r.0 <==> failure.None?
    ensures !r.0 ==> r.1 == FailureText(failure.value)
    ensures r.0 && CachedReport(files, stockCode, referenceDate).Some? ==> r.1 == CachedText(CachedReport(files, stockCode, referenceDate).value.name)
    ensures r.0 && CachedReport(files, stockCode, referenceDate).None? ==>
      r.1 == "새로운 " + FreshText(ReportFileName(stockCode, companyName, referenceDate))
  {
    if failure.Some? then (false, FailureText(failure.value))
    else match CachedReport(files, stockCode, referenceDate)
      case Some(f) => (true, CachedText(f.name))
      case None => (true, "새로운 " + FreshText(ReportFileName(stockCode, companyName, referenceDate)))
  }
}
