/**
 * telegram_summary_agent_backup.py, the earlier version of the summary agent: it
 * reads Markdown reports named `{digits}_{name}_{date}_….md`; its trigger lookup
 * and message file name are the current version's.
 */
module SummaryAgentBackup {
  import opened Wrappers
  import opened Text
  import opened SummaryAgent
  import TrackingRules

  const MdExt := ".md"

  /** `extract_metadata_from_filename` with `(\d+)_(.+)_(\d{8})_.*\.md`: the code is a run of digits, or "N/A" without a match. */
  function ExtractMetadata(filename: string, today: string): (m: Metadata)
    ensures Match(filename, IsDigit, MdExt).None? ==> m == Metadata("N/A", TrackingRules.Stem(filename), today)
    ensures m.code == "N/A" || (|m.code| > 0 && AllDigits(m.code))
  {
    ReadMetadata(filename, IsDigit, MdExt, today)
  }

  /**
   * A report named `{digits}_{name}_{date}_{tail}.md`, its name one line without
   * '_' and its tail one line without `_DDDDDDDD_`, is read back as those parts,
   * and its trigger is looked up under that code in that date's results files.
   */
  lemma ReportOfName(c: string, n: string, d: string, t: string, todayDotted: string, today: string, files: map<string, TriggerFile>)
    requires |c| > 0 && AllDigits(c)
    requires |n| > 0 && '_' !in n && '\n' !in n
    requires |d| == 8 && AllDigits(d)
    requires '\n' !in t && forall m: nat :: !DateMark("_" + t, m)
    ensures ExtractMetadata(c + "_" + n + "_" + d + "_" + t + MdExt, todayDotted) == Metadata(c, n, d[..4] + "." + d[4..6] + "." + d[6..])
    ensures ReportTrigger(ExtractMetadata(c + "_" + n + "_" + d + "_" + t + MdExt, todayDotted), today, files)
      == DetermineTriggerType(c, Some(d), today, files)
  {
    assert forall k :: 0 <= k < |c| ==> IsDigit(c[k]);
    ReadsBack(c, n, d, t, IsDigit, MdExt, todayDotted);
    UndottedDate(d);
  }
}
