/**
 * The message agent of telegram_bot_agent.py: the MarkdownV2 escaping of an
 * outgoing text, the plain-text retry when the formatted send fails, and the
 * pass over a directory of message files that sends each and marks it sent.
 *
 * The chat service is an input: each attempt to send gets a `Reply`.
 */
module TelegramBot {
  import opened Wrappers
  import opened Text

  // ---------------------------------------------------------------- escaping

  /** The characters of the alternation `(\_|\*|\[|...|\.|\\!)` that are escaped on their own; `!` and the backslash are not among them. */
  predicate Special(c: char)
  {
    c in "_*[]()~`>#+-=|{}."
  }

  /** Whether `s` starts with the two characters backslash and `!`, the one two-character alternative. */
  predicate BangAt(s: string)
  {
    |s| >= 2 && s[0] == '\\' && s[1] == '!'
  }

  /**
   * `re.sub(special_chars, r'\\\1', message)`: scanning left to right, a
   * special character gets a backslash in front of it, and so does the pair
   * backslash-`!`; every other character is copied.
   */
  function Escape(s: string): string
    decreases |s|
  {
    if |s| == 0 then ""
    else if Special(s[0]) then ['\\', s[0]] + Escape(s[1..])
    else if BangAt(s) then "\\\\!" + Escape(s[2..])
    else [s[0]] + Escape(s[1..])
  }

  /** Dropping the backslashes that escaping inserts: the inverse of `Escape`. */
  function Unescape(e: string): string
    decreases |e|
  {
    if |e| == 0 then ""
    else if |e| >= 2 && e[0] == '\\' && Special(e[1]) then [e[1]] + Unescape(e[2..])
    else if |e| >= 3 && e[0] == '\\' && e[1] == '\\' && e[2] == '!' then "\\!" + Unescape(e[3..])
    else [e[0]] + Unescape(e[1..])
  }

  /** An escaped text never starts with a special character, nor with an unescaped backslash-`!`. */
  lemma EscapeStart(s: string)
    requires |s| > 0
    ensures |Escape(s)| > 0 && !Special(Escape(s)[0]) && !BangAt(Escape(s))
  {
    if !Special(s[0]) && !BangAt(s) && s[0] == '\\' && |s| > 1 {
      EscapeStart(s[1..]);
    }
  }

  /** Escaping loses nothing: dropping the inserted backslashes gives back the input, so different texts escape differently. */
  lemma {:induction false} UnescapeEscape(s: string)
    ensures Unescape(Escape(s)) == s
    decreases |s|
  {
    if |s| == 0 {
    } else if Special(s[0]) {
      var e := ['\\', s[0]] + Escape(s[1..]);
      assert e[2..] == Escape(s[1..]);
      UnescapeEscape(s[1..]);
    } else if BangAt(s) {
      var e := "\\\\!" + Escape(s[2..]);
      assert e[3..] == Escape(s[2..]);
      UnescapeEscape(s[2..]);
      assert s == "\\!" + s[2..];
    } else {
      var e := [s[0]] + Escape(s[1..]);
      assert e[1..] == Escape(s[1..]);
      if |s| > 1 {
        EscapeStart(s[1..]);
      }
      UnescapeEscape(s[1..]);
    }
  }

  /** Escaping is injective. */
  lemma EscapeInjective(a: string, b: string)
    requires Escape(a) == Escape(b)
    ensures a == b
  {
    UnescapeEscape(a);
    UnescapeEscape(b);
  }

  /** A text without special characters and without the pair backslash-`!` is sent as written. */
  lemma {:induction false} EscapePlain(s: string)
    requires forall i :: 0 <= i < |s| ==> !Special(s[i])
    requires forall i :: 0 <= i < |s| - 1 ==> !(s[i] == '\\' && s[i + 1] == '!')
    ensures Escape(s) == s
    decreases |s|
  {
    if |s| > 0 {
      assert !Special(s[0]);
      assert !BangAt(s) by { if |s| >= 2 { assert !(s[0] == '\\' && s[1] == '!'); } }
      EscapePlain(s[1..]);
    }
  }

  /** The rule for one character: a special one gains a backslash, a lone `!` or lone backslash stays as it is, and so does every other character. */
  lemma EscapeOne(c: char)
    ensures Special(c) ==> Escape([c]) == ['\\', c]
    ensures !Special(c) ==> Escape([c]) == [c]
    ensures Escape("!") == "!" && Escape("\\") == "\\"
  {
    assert Escape([c]) == (if Special(c) then ['\\', c] else [c]) + Escape([]);
    assert Escape("!") == "!" + Escape([]);
    assert Escape("\\") == "\\" + Escape([]);
  }

  /** The pair backslash-`!` gets one more backslash. */
  lemma EscapeBang()
    ensures Escape("\\!") == "\\\\!"
  {
    assert Escape("\\!") == "\\\\!" + Escape("");
  }

  // ---------------------------------------------------------------- sending

  /** The chat service's answer to one send: delivered, a `TelegramError`, or some other exception, which `send_message` does not catch. */
  datatype Reply = Delivered | TelegramFailure | OtherFailure(error: string)

  /** One send: the text and whether it went with `parse_mode="MarkdownV2"`. */
  datatype Attempt = Attempt(text: Option<string>, markdown: bool)

  /** The sends `send_message` made and its answer: `Some(ok)`, or `None` when an exception other than `TelegramError` escaped. */
  datatype Sending = Sending(attempts: seq<Attempt>, answer: Option<bool>)

  /** The text of the formatted attempt: the escaped message, or the message as it is when it is empty or `None`. */
  function Formatted(message: Option<string>): (t: Option<string>)
    ensures t.None? <==> message.None?
    ensures message.Some? ==> Unescape(t.value) == message.value
  {
    match message
    case None => None
    case Some(m) => UnescapeEscape(m); if m == "" then Some(m) else Some(Escape(m))
  }

  /**
   * `send_message`: first the escaped text as MarkdownV2; when that fails
   * with a `TelegramError`, the original text again as plain text. The answer
   * is true exactly when one of the sends was delivered.
   */
  function SendMessage(message: Option<string>, first: Reply, second: Reply): (r: Sending)
    ensures r.answer == Some(true) <==> first.Delivered? || (first.TelegramFailure? && second.Delivered?)
    ensures r.answer.None? <==> first.OtherFailure? || (first.TelegramFailure? && second.OtherFailure?)
    ensures 1 <= |r.attempts| <= 2 && r.attempts[0] == Attempt(Formatted(message), true)
    ensures |r.attempts| == 2 <==> first.TelegramFailure?
    ensures |r.attempts| == 2 ==> r.attempts[1] == Attempt(message, false)
  {
    var formatted := Attempt(Formatted(message), true);
    match first
    case Delivered => Sending([formatted], Some(true))
    case OtherFailure(_) => Sending([formatted], None)
    case TelegramFailure =>
      var plain := [formatted, Attempt(message, false)];
      match second
      case Delivered => Sending(plain, Some(true))
      case TelegramFailure => Sending(plain, Some(false))
      case OtherFailure(_) => Sending(plain, None)
  }

  /** The plain retry carries exactly the text the formatted attempt encoded. */
  lemma RetryIsOriginal(message: Option<string>, first: Reply, second: Reply)
    requires first.TelegramFailure? && message.Some?
    ensures var r := SendMessage(message, first, second);
      r.attempts[1].text.Some? && r.attempts[1].text.value == Unescape(r.attempts[0].text.value)
  {
  }

  // ---------------------------------------------------------------- the message directory

  /** `Path.suffix`: from the last dot, unless that dot starts the name or ends it. */
  function Suffix(name: string): (x: string)
    ensures x == "" || (x[0] == '.' && EndsWith(name, x) && |x| < |name|)
  {
    match LastDot(name, |name|)
    case Some(i) => if 0 < i < |name| - 1 then name[i..] else ""
    case None => ""
  }

  /** The last dot of `name[..n]`. */
  function LastDot(name: string, n: nat): (r: Option<nat>)
    requires n <= |name|
    ensures r.Some? ==> r.value < n && name[r.value] == '.' && forall j :: r.value < j < n ==> name[j] != '.'
    ensures r.None? ==> forall j :: 0 <= j < n ==> name[j] != '.'
  {
    if n == 0 then None
    else if name[n - 1] == '.' then Some(n - 1)
    else LastDot(name, n - 1)
  }

  /** `Path.stem`: the name without its suffix. */
  function Stem(name: string): (x: string)
    ensures x + Suffix(name) == name
  {
    name[..|name| - |Suffix(name)|]
  }

  /** The name a sent file takes when no folder for sent files is given: `{stem}_sent{suffix}`. */
  function SentName(name: string): (x: string)
    ensures |x| == |name| + 5
  {
    Stem(name) + "_sent" + Suffix(name)
  }

  /** The files the pass picks up, `glob("*_telegram.txt")`. */
  predicate IsMessageFile(name: string)
  {
    EndsWith(name, "_telegram.txt")
  }

  /** A message file marked sent is `…_telegram_sent.txt`, which the next pass no longer picks up, so no message goes out twice. */
  lemma SentNameOfMessageFile(name: string)
    requires IsMessageFile(name)
    ensures SentName(name) == name[..|name| - 4] + "_sent.txt"
    ensures !IsMessageFile(SentName(name))
  {
    var n := |name|;
    MessageFileSuffix(name);
    var x := SentName(name);
    assert x == name[..n - 4] + "_sent" + ".txt";
    assert x[|x| - 13] == 'g';
  }

  /** A message file's suffix is ".txt", and the `g` of "telegram" lies eight from its end. */
  lemma MessageFileSuffix(name: string)
    requires IsMessageFile(name)
    ensures Suffix(name) == ".txt" && name[|name| - 8] == 'g'
  {
    var n := |name|;
    assert name[n - 4..] == ".txt" by { assert name[n - 13..][9..] == name[n - 4..]; }
    assert name[n - 4] == '.';
    assert LastDot(name, n) == Some(n - 4) by {
      assert forall j :: n - 4 < j < n ==> name[j] != '.' by {
        forall j | n - 4 < j < n ensures name[j] != '.' { assert name[j] == name[n - 4..][j - (n - 4)]; }
      }
      LastDotAt(name, n, n - 4);
    }
    assert name[n - 8] == name[n - 13..][5];
  }

  /** The last dot lies where one is and none follows it. */
  lemma {:induction false} LastDotAt(name: string, n: nat, i: nat)
    requires i < n <= |name| && name[i] == '.'
    requires forall j :: i < j < n ==> name[j] != '.'
    ensures LastDot(name, n) == Some(i)
    decreases n
  {
    if n - 1 != i {
      LastDotAt(name, n - 1, i);
    }
  }

  /** One file in the directory: its name, its text (`None` when reading it fails), and the replies to the sends of its text. */
  datatype MessageFile = MessageFile(name: string, content: Option<string>, first: Reply, second: Reply)

  /** What the pass did with the files: how many were sent and the renames `(from, to)` it made, in order. */
  datatype Pass = Pass(sent: nat, renames: seq<(string, string)>)

  /** Where a sent file goes: into the folder for sent files when one is given (`None` and "" are falsy), else beside itself under `SentName`. */
  function Destination(name: string, sentDir: Option<string>): string
  {
    if sentDir.Some? && sentDir.value != "" then sentDir.value + "/" + name else SentName(name)
  }

  /** Whether the file was read and its text delivered; a failed read or an uncaught send error is logged and skipped. */
  predicate Succeeds(f: MessageFile)
  {
    f.content.Some? && SendMessage(f.content, f.first, f.second).answer == Some(true)
  }

  /** The pass over the message files as a function of the listing: one count and one rename for each file sent. */
  function PassOver(files: seq<MessageFile>, sentDir: Option<string>): (p: Pass)
    ensures p.sent == |p.renames| <= |files|
  {
    if |files| == 0 then Pass(0, [])
    else
      var rest := PassOver(files[..|files| - 1], sentDir);
      var f := files[|files| - 1];
      if Succeeds(f) then Pass(rest.sent + 1, rest.renames + [(f.name, Destination(f.name, sentDir))]) else rest
  }

  lemma PassOverNext(files: seq<MessageFile>, i: nat, sentDir: Option<string>)
    requires i < |files|
    ensures var rest := PassOver(files[..i], sentDir);
      PassOver(files[..i + 1], sentDir) ==
      if Succeeds(files[i]) then Pass(rest.sent + 1, rest.renames + [(files[i].name, Destination(files[i].name, sentDir))])
      else rest
  {
    assert files[..i + 1][..i] == files[..i];
  }

  /** The files the glob selects, in the listing's order. */
  function MessageFiles(listing: seq<MessageFile>): (r: seq<MessageFile>)
    ensures forall f :: f in r <==> f in listing && IsMessageFile(f.name)
  {
    if |listing| == 0 then []
    else if IsMessageFile(listing[0].name) then [listing[0]] + MessageFiles(listing[1..])
    else MessageFiles(listing[1..])
  }

  /** The count is the number of files whose text was read and delivered. */
  lemma {:induction false} PassCounts(files: seq<MessageFile>, sentDir: Option<string>)
    ensures PassOver(files, sentDir).sent == |SentFiles(files)|
    decreases |files|
  {
    if |files| > 0 {
      PassCounts(files[..|files| - 1], sentDir);
    }
  }

  /** The files whose text was read and delivered, in order. */
  function SentFiles(files: seq<MessageFile>): (r: seq<MessageFile>)
    ensures forall f :: f in r ==> f in files && Succeeds(f)
  {
    if |files| == 0 then []
    else if Succeeds(files[|files| - 1]) then SentFiles(files[..|files| - 1]) + [files[|files| - 1]]
    else SentFiles(files[..|files| - 1])
  }

  /**
   * `process_messages_directory`: nothing when the directory is missing or
   * holds no message file; otherwise each message file is sent and renamed
   * when its send succeeded.
   */
  method ProcessMessagesDirectory(present: bool, listing: seq<MessageFile>, sentDir: Option<string>) returns (p: Pass)
    ensures !present ==> p == Pass(0, [])
    ensures present ==> p == PassOver(MessageFiles(listing), sentDir)
  {
    if !present {
      return Pass(0, []);
    }
    var files := MessageFiles(listing);
    if |files| == 0 {
      return Pass(0, []);
    }
    var count := 0;
    var renames: seq<(string, string)> := [];
    var i := 0;
    while i < |files|
      invariant 0 <= i <= |files|
      invariant Pass(count, renames) == PassOver(files[..i], sentDir)
    {
      var f := files[i];
      PassOverNext(files, i, sentDir);
      if f.content.Some? {
        var s := SendMessage(f.content, f.first, f.second);
        if s.answer == Some(true) {
          count := count + 1;
          renames := renames + [(f.name, Destination(f.name, sentDir))];
        }
      }
      i := i + 1;
    }
    assert files[..i] == files;
    p := Pass(count, renames);
  }
}
