/**
 * A directory listing as the report modules see it: each file's name,
 * modification time (in microseconds) and text, in the order a glob yields them.
 */
module Files {
  import opened Wrappers
  import opened Text

  datatype File = File(name: string, mtime: int, content: string)

  /**
   * `max(matching, key=lambda p: p.stat().st_mtime)`: the file with the latest
   * modification time among those whose name `keep` accepts; `max` keeps the
   * first of several equal times.
   */
  function Latest(files: seq<File>, keep: string -> bool): (r: Option<File>)
    ensures r.Some? ==> r.value in files && keep(r.value.name)
    ensures r.Some? ==> forall f :: f in files && keep(f.name) ==> f.mtime <= r.value.mtime
    ensures r.None? <==> forall f :: f in files ==> !keep(f.name)
    decreases |files|
  {
    if |files| == 0 then None
    else
      var init := files[..|files| - 1];
      var last := files[|files| - 1];
      assert files == init + [last];
      var rest := Latest(init, keep);
      if keep(last.name) && (rest.None? || rest.value.mtime < last.mtime) then Some(last)
      else rest
  }

  /** A matching file written later than every file already listed is the latest one. */
  lemma LatestAfterNewer(files: seq<File>, f: File, keep: string -> bool)
    requires keep(f.name)
    requires forall g :: g in files ==> g.mtime < f.mtime
    ensures Latest(files + [f], keep) == Some(f)
  {
    assert (files + [f])[..|files|] == files;
  }

  /**
   * A glob `{prefix}*{suffix}` on a file name: the name starts with `prefix`,
   * ends with `suffix`, and the `*` in between matches any run without `/`.
   */
  predicate GlobMatch(name: string, prefix: string, suffix: string)
  {
    |name| >= |prefix| + |suffix|
    && name[..|prefix|] == prefix
    && name[|name| - |suffix|..] == suffix
    && '/' !in name[|prefix|..|name| - |suffix|]
  }

  /** A name built from the glob's two ends and a middle free of `/` matches the glob. */
  lemma GlobMatchOf(prefix: string, middle: string, suffix: string)
    requires '/' !in middle
    ensures GlobMatch(prefix + middle + suffix, prefix, suffix)
  {
    var n := prefix + middle + suffix;
    assert n[..|prefix|] == prefix;
    assert n[|n| - |suffix|..] == suffix;
    assert n[|prefix|..|n| - |suffix|] == middle;
  }

  /** `os.path.join(dir, name)` on '/'-separated paths: an absolute `name` replaces `dir`; otherwise one '/' separates them. */
  function PathJoin(dir: string, name: string): (r: string)
    ensures |name| > 0 && name[0] == '/' ==> r == name
    ensures (|name| == 0 || name[0] != '/') ==> EndsWith(r, name)
    ensures (|name| == 0 || name[0] != '/') && |dir| > 0 && dir[|dir| - 1] != '/' ==> r == dir + "/" + name
  {
    if |name| > 0 && name[0] == '/' then name
    else if |dir| == 0 || dir[|dir| - 1] == '/' then dir + name
    else dir + "/" + name
  }
}
