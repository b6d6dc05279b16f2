/** The log views of the server: the level-to-severity switch and the logger-name
    sanitisation of `formatJsonLogLine`, the `<` escaping and truncation counter of
    `logStreamHandler`, and the sliding window of `logTailHandler`. Decoding a log
    line and formatting its timestamp are parameters. */
module LogViews {
  import opened Wrappers
  import StatusSummary
  import Seqs

  /** A configured extra log level (`config.AdditionalLogLevels`). */
  datatype ExtraLevel = ExtraLevel(shortname: string, cssClass: string)

  /** The severity badge and the CSS class of a log line. */
  datatype Severity = Severity(badge: string, cssClass: string)

  /** The built-in levels: the badge letter and the CSS class. */
  const BuiltinLevels: map<string, (string, string)> :=
    map["DEBUG" := ("D", "d"), "INFO" := ("I", "i"), "WARN" := ("W", "w"),
        "WARNING" := ("W", "w"), "ERROR" := ("E", "e"), "CRITICAL" := ("C", "c")]

  function Badge(cssClass: string, text: string): string {
    "<span class=" + cssClass + ">" + text + "</span>"
  }

  /** The `switch log_line.Level` of `formatJsonLogLine`. */
  function LevelSeverity(level: string, extra: map<string, ExtraLevel>): Severity
  {
    match level
    case "DEBUG" => Severity(Badge("d", "D"), "d")
    case "INFO" => Severity(Badge("i", "I"), "i")
    case "WARN" => Severity(Badge("w", "W"), "w")
    case "WARNING" => Severity(Badge("w", "W"), "w")
    case "ERROR" => Severity(Badge("e", "E"), "e")
    case "CRITICAL" => Severity(Badge("c", "C"), "c")
    case _ =>
      if level in extra then Severity(Badge("i", extra[level].shortname), extra[level].cssClass)
      else Severity(Badge("i", level), "i")
  }

  /** Each built-in level shows its letter in a badge of its own class; an extra level
      shows its short name with its configured class (its badge keeps class `i`); any
      other level shows the raw level with class `i`. */
  lemma SeverityTable(level: string, extra: map<string, ExtraLevel>)
    ensures level in BuiltinLevels ==>
      LevelSeverity(level, extra) == Severity(Badge(BuiltinLevels[level].1, BuiltinLevels[level].0), BuiltinLevels[level].1)
    ensures level !in BuiltinLevels && level in extra ==>
      LevelSeverity(level, extra) == Severity(Badge("i", extra[level].shortname), extra[level].cssClass)
    ensures level !in BuiltinLevels && level !in extra ==>
      LevelSeverity(level, extra) == Severity(Badge("i", level), "i")
  {
  }

  /** A configured extra level cannot override a built-in one. */
  lemma BuiltinsWin(level: string, extra1: map<string, ExtraLevel>, extra2: map<string, ExtraLevel>)
    requires level in BuiltinLevels
    ensures LevelSeverity(level, extra1) == LevelSeverity(level, extra2)
  {
  }

  /** `WARN` and `WARNING` look the same. */
  lemma WarnAliases(extra: map<string, ExtraLevel>)
    ensures LevelSeverity("WARN", extra) == LevelSeverity("WARNING", extra)
  {
  }

  /** The characters `LOGGER_NAME_BAD_CHARS` lets through: ASCII letters, digits,
      `-` and `_`. */
  predicate NameChar(c: char) {
    ('a' <= c <= 'z') || ('A' <= c <= 'Z') || ('0' <= c <= '9') || c == '-' || c == '_'
  }

  /** `ReplaceAllString(name, "_")` with the bad-characters class. */
  function SanitizeName(name: string): (r: string)
  {
    seq(|name|, i requires 0 <= i < |name| => if NameChar(name[i]) then name[i] else '_')
  }

  /** The sanitised name has the same length, only allowed characters, keeps every
      allowed character in place and puts `_` exactly where the name had another one. */
  lemma SanitizeSpec(name: string)
    ensures |SanitizeName(name)| == |name|
    ensures forall i :: 0 <= i < |name| ==> NameChar(SanitizeName(name)[i])
    ensures forall i :: 0 <= i < |name| ==> (SanitizeName(name)[i] == name[i] <==> NameChar(name[i]))
  {
  }

  /** A name made of allowed characters is left as it is, so sanitising twice is
      sanitising once. */
  lemma SanitizeFixedPoint(name: string)
    ensures (forall i :: 0 <= i < |name| ==> NameChar(name[i])) <==> SanitizeName(name) == name
    ensures SanitizeName(SanitizeName(name)) == SanitizeName(name)
  {
    if SanitizeName(name) == name {
      forall i | 0 <= i < |name|
        ensures NameChar(name[i])
      {
        assert SanitizeName(name)[i] == name[i];
      }
    }
  }

  /** `bytes.ReplaceAll(chunk, "<", "&lt;")`. */
  function EscapeLt(s: string): (r: string)
    ensures '<' !in r
  {
    if s == [] then []
    else EscapeLt(s[..|s| - 1]) + (if s[|s| - 1] == '<' then "&lt;" else [s[|s| - 1]])
  }

  function CountLt(s: string): nat {
    if s == [] then 0 else CountLt(s[..|s| - 1]) + (if s[|s| - 1] == '<' then 1 else 0)
  }

  /** Escaping grows the text by three characters per `<`, and leaves text without
      `<` alone. */
  lemma {:induction false} EscapeLength(s: string)
    ensures |EscapeLt(s)| == |s| + 3 * CountLt(s)
    ensures '<' !in s ==> EscapeLt(s) == s
  {
    if s != [] {
      EscapeLength(s[..|s| - 1]);
      assert '<' !in s ==> '<' !in s[..|s| - 1];
      assert s == s[..|s| - 1] + [s[|s| - 1]];
    }
  }

  /** Escaping distributes over concatenation. */
  lemma {:induction false} EscapeAppend(a: string, b: string)
    ensures EscapeLt(a + b) == EscapeLt(a) + EscapeLt(b)
  {
    if b != [] {
      EscapeAppend(a, b[..|b| - 1]);
      assert (a + b)[..|a + b| - 1] == a + b[..|b| - 1];
    } else {
      assert a + b == a;
    }
  }

  /** The reader goroutine of `logStreamHandler`: each chunk read is escaped and
      written to the pipe. Whatever sizes the reads return, the pipe carries the
      escaped file. */
  method PipeEscaped(chunks: seq<string>) returns (piped: string)
    ensures piped == EscapeLt(Seqs.Flatten(chunks))
    ensures '<' !in piped
  {
    piped := "";
    var i := 0;
    while i < |chunks|
      invariant 0 <= i <= |chunks|
      invariant piped == EscapeLt(Seqs.Flatten(chunks[..i]))
    {
      assert chunks[..i + 1][..i] == chunks[..i];
      EscapeAppend(Seqs.Flatten(chunks[..i]), chunks[i]);
      piped := piped + EscapeLt(chunks[i]);
      i := i + 1;
    }
    assert chunks[..i] == chunks;
  }


  /** The fields of a decoded JSON log line. */
  datatype LogLine = LogLine(level: string, message: string, name: string, time: real)

  /** `last_date` and `last_time`, carried from line to line. */
  datatype Cursor = Cursor(lastDate: string, lastTime: real)

  /** What the views need from the outside world: the JSON decoder, the configured
      extra levels and the local-time formatting of a timestamp. */
  datatype Env = Env(decode: string -> Option<LogLine>, extra: map<string, ExtraLevel>,
                     dateOf: real -> string, clockOf: real -> string)

  /** The line a token stands for: its decoding, or an INFO line from `unknown` with
      the raw text and the previous line's time. */
  function Decoded(env: Env, c: Cursor, token: string): LogLine {
    match env.decode(token)
    case Some(l) => l
    case None => LogLine("INFO", token, "unknown", c.lastTime)
  }

  /** `formatJsonLogLine`: the HTML for one token, preceded by a date banner when the
      date differs from the previous line's, and the new cursor. */
  function FormatLine(env: Env, c: Cursor, token: string): (r: (string, Cursor))
    ensures var l := Decoded(env, c, token);
      && r.1 == Cursor(env.dateOf(l.time), l.time)
      && |r.0| > 0
  {
    var l := Decoded(env, c, token);
    var sev := LevelSeverity(l.level, env.extra);
    var date := env.dateOf(l.time);
    var html := (if date != c.lastDate then Banner(date) else "") + LineSpan(sev, l.name, env.clockOf(l.time), l.message);
    (html, Cursor(date, l.time))
  }

  function Banner(date: string): string {
    "<span class=date>------- " + date + " -------\n</span>"
  }

  /** The span of one log line: its classes (the severity's and `l-` with the
      sanitised logger name), the clock time, the badge, the raw name and the message. */
  function LineSpan(sev: Severity, name: string, clock: string, message: string): (r: string)
    ensures |r| > 0
  {
    Seqs.Flatten(["<span class=\"", sev.cssClass, " l-", SanitizeName(name), "\"><span class=t>", clock,
             " </span><span class=s>", sev.badge, " </span><span class=l>", name, "</span> ", message, "\n</span>"])
  }

  /** A date banner is written only when the date changes: a line on the same date
      as the previous one starts directly with its own span. */
  lemma BannerOnDateChange(env: Env, c: Cursor, token: string)
    ensures var l := Decoded(env, c, token);
      var html := FormatLine(env, c, token).0;
      && (env.dateOf(l.time) != c.lastDate ==> Banner(env.dateOf(l.time)) <= html)
      && (env.dateOf(l.time) == c.lastDate ==> |html| >= 13 && html[..13] == "<span class=\"")
  {
    var l := Decoded(env, c, token);
    var sev := LevelSeverity(l.level, env.extra);
    var parts := [sev.cssClass, " l-", SanitizeName(l.name), "\"><span class=t>", env.clockOf(l.time),
                  " </span><span class=s>", sev.badge, " </span><span class=l>", l.name, "</span> ", l.message, "\n</span>"];
    Seqs.FlattenCons("<span class=\"", parts);
    assert ["<span class=\""] + parts == ["<span class=\"", sev.cssClass, " l-", SanitizeName(l.name), "\"><span class=t>", env.clockOf(l.time),
             " </span><span class=s>", sev.badge, " </span><span class=l>", l.name, "</span> ", l.message, "\n</span>"];
  }

  /** The HTML of the non-empty tokens, in order, and the cursor after them. */
  function Replay(env: Env, c: Cursor, tokens: seq<string>): (r: (seq<string>, Cursor))
    ensures |r.0| <= |tokens|
    ensures forall k :: 0 <= k < |r.0| ==> |r.0[k]| > 0
    ensures (forall k :: 0 <= k < |tokens| ==> tokens[k] == "") ==> r == ([], c)
  {
    if tokens == [] then ([], c)
    else
      var prev := Replay(env, c, tokens[..|tokens| - 1]);
      var t := tokens[|tokens| - 1];
      if t == "" then prev
      else
        var f := FormatLine(env, prev.1, t);
        (prev.0 + [f.0], f.1)
  }

  predicate IsToken(t: string) {
    t != ""
  }

  /** One HTML entry per non-empty token. */
  lemma {:induction false} ReplayCount(env: Env, c: Cursor, tokens: seq<string>)
    ensures |Replay(env, c, tokens).0| == |Seqs.Filter(IsToken, tokens)|
  {
    if tokens != [] {
      var init, t := tokens[..|tokens| - 1], tokens[|tokens| - 1];
      ReplayCount(env, c, init);
      Seqs.FilterAppend(IsToken, init, [t]);
      assert tokens == init + [t];
    }
  }

  /** After the last non-empty token, trailing empty tokens change nothing: the
      entries end with that token's HTML and the cursor is the one it leaves. */
  lemma {:induction false} ReplayLastToken(env: Env, c: Cursor, tokens: seq<string>, j: nat)
    requires j < |tokens| && tokens[j] != ""
    requires forall k :: j < k < |tokens| ==> tokens[k] == ""
    ensures var pre := Replay(env, c, tokens[..j]);
      var f := FormatLine(env, pre.1, tokens[j]);
      Replay(env, c, tokens) == (pre.0 + [f.0], f.1)
    decreases |tokens|
  {
    if j < |tokens| - 1 {
      var init := tokens[..|tokens| - 1];
      assert init[..j] == tokens[..j];
      ReplayLastToken(env, c, init, j);
    } else {
      assert tokens[..|tokens| - 1] == tokens[..j];
    }
  }

  /** The byte count of the strings written, in total. */
  function TotalLength(ss: seq<string>): nat {
    |Seqs.Flatten(ss)|
  }

  const LogStart := "-- LOG START --\n"
  const TruncationNotice := "-- LOG TRUNCATED DUE TO LENGTH, <a href=log_stream?notrunc>Click here to keep going</a> --\n"

  /** The formatting loop of `logStreamHandler` over the scanned tokens of the escaped
      file. It returns what it writes after the page prefix and how many formatted
      lines were shown: all of them with `notrunc`; otherwise as many as fit in
      `limit` characters, and then the truncation notice when one more did not fit. */
  method StreamLog(env: Env, tokens: seq<string>, noTruncate: bool, limit: int) returns (writes: seq<string>, shown: nat)
    ensures var htmls := Replay(env, Cursor("", 0.0), tokens).0;
      && shown <= |htmls|
      && writes == [LogStart] + htmls[..shown] + (if shown < |htmls| then [TruncationNotice] else [])
      && (noTruncate ==> shown == |htmls|)
      && (!noTruncate ==> TotalLength(htmls[..shown]) <= limit || shown == 0)
      && (shown < |htmls| ==> !noTruncate && TotalLength(htmls[..shown + 1]) > limit)
  {
    ghost var htmls := Replay(env, Cursor("", 0.0), tokens).0;
    var out, truncated, next := FormatWithinLimit(env, tokens, noTruncate, limit);
    shown := |out|;
    if truncated {
      PrefixSlices(out, next, htmls);
      writes := [LogStart] + out + [TruncationNotice];
    } else {
      assert htmls[..shown] == out;
      writes := [LogStart] + out;
    }
  }

  /** The scan loop proper: the lines written, and whether it stopped at the line
      `next` that would have crossed the limit. */
  method FormatWithinLimit(env: Env, tokens: seq<string>, noTruncate: bool, limit: int)
    returns (out: seq<string>, truncated: bool, ghost next: string)
    ensures var htmls := Replay(env, Cursor("", 0.0), tokens).0;
      && (!truncated ==> out == htmls)
      && (truncated ==> !noTruncate && out + [next] <= htmls && TotalLength(out + [next]) > limit)
      && (!noTruncate ==> TotalLength(out) <= limit || out == [])
  {
    ghost var htmls := Replay(env, Cursor("", 0.0), tokens).0;
    out := [];
    var byteCounter := 0;
    var cursor := Cursor("", 0.0);
    truncated := false;
    next := "";
    var i := 0;
    while i < |tokens|
      invariant 0 <= i <= |tokens|
      invariant (out, cursor) == Replay(env, Cursor("", 0.0), tokens[..i]) && out <= htmls
      invariant byteCounter == TotalLength(out)
      invariant !noTruncate ==> byteCounter <= limit || out == []
    {
      ReplayStep(env, Cursor("", 0.0), tokens, i);
      var token := tokens[i];
      if |token| > 0 {
        var formatted := FormatLine(env, cursor, token);
        TotalLengthSnoc(out, formatted.0);
        byteCounter := byteCounter + |formatted.0|;
        if !noTruncate && byteCounter > limit {
          truncated := true;
          next := formatted.0;
          return;
        }
        out := out + [formatted.0];
        cursor := formatted.1;
      }
      i := i + 1;
    }
    assert tokens[..i] == tokens;
  }

  /** One more token adds at most its own formatted line and moves the cursor. */
  lemma ReplayStep(env: Env, c: Cursor, tokens: seq<string>, i: nat)
    requires i < |tokens|
    ensures var pre := Replay(env, c, tokens[..i]);
      && Replay(env, c, tokens[..i + 1])
         == (if tokens[i] == "" then pre
             else (pre.0 + [FormatLine(env, pre.1, tokens[i]).0], FormatLine(env, pre.1, tokens[i]).1))
      && Replay(env, c, tokens[..i + 1]).0 <= Replay(env, c, tokens).0
  {
    assert tokens[..i + 1][..i] == tokens[..i];
    ReplayPrefix(env, c, tokens, i + 1);
  }

  lemma PrefixSlices(out: seq<string>, x: string, all: seq<string>)
    requires out + [x] <= all
    ensures all[..|out| + 1] == out + [x] && all[..|out|] == out
  {
  }

  lemma TotalLengthSnoc(ss: seq<string>, s: string)
    ensures TotalLength(ss + [s]) == TotalLength(ss) + |s|
  {
    Seqs.FlattenSnoc(ss, s);
  }

  lemma ReplayPrefix(env: Env, c: Cursor, tokens: seq<string>, i: nat)
    requires i <= |tokens|
    ensures Replay(env, c, tokens[..i]).0 <= Replay(env, c, tokens).0
    decreases |tokens|
  {
    if i < |tokens| {
      ReplayPrefix(env, c, tokens[..|tokens| - 1], i);
      assert tokens[..|tokens| - 1][..i] == tokens[..i];
    } else {
      assert tokens[..i] == tokens;
    }
  }

  /** The last `n` elements of `s` (all of them when there are fewer). */
  function LastN<T>(s: seq<T>, n: nat): (r: seq<T>)
    ensures |r| == if n < |s| then n else |s|
    ensures r == s[|s| - |r|..]
  {
    if n < |s| then s[|s| - n..] else s
  }

  /** How far back `logTailHandler` reads: the last 128 KiB, or the whole file
      when it is shorter (the failed seek falls back to the start). */
  const TailBytes := 128 * 1024

  function TailStart(size: nat): nat {
    if size > TailBytes then size - TailBytes else 0
  }

  /** The tokens the tail loop formats: the scanner's tokens from the start offset,
      less the first one when the read does not begin at the start of the file. */
  function TailTokens(file: string): seq<string> {
    var toks := StatusSummary.ScanTokens(file[TailStart(|file|)..]);
    if TailStart(|file|) == 0 || toks == [] then toks else toks[1..]
  }

  /** The entries the tail view writes: the `-- LOG START --` marker when reading from
      the start, then the formatted lines, of which the last `max(lineCount, 1)` are
      kept. */
  function TailWindow(env: Env, file: string, lineCount: int): seq<string> {
    var marker := if TailStart(|file|) == 0 then [LogStart] else [];
    LastN(marker + Replay(env, Cursor("", 0.0), TailTokens(file)).0, Window(lineCount))
  }

  function Window(lineCount: int): nat {
    if lineCount < 1 then 1 else lineCount
  }

  /** `logTailHandler` after the query and path checks: where reading starts, the
      skipped first line, and the sliding `lines` window. */
  method LogTail(env: Env, file: string, lineCount: int) returns (lines: seq<string>)
    ensures lines == TailWindow(env, file, lineCount)
  {
    var startOffset := if |file| > TailBytes then |file| - TailBytes else 0;
    var isStart := startOffset == 0;
    var marker := if isStart then [LogStart] else [];
    var tokens := StatusSummary.ScanTokens(file[startOffset..]);
    if !isStart && |tokens| > 0 {
      tokens := tokens[1..];
    }
    lines := SlideWindow(env, marker, tokens, lineCount);
  }

  /** The scan loop of `logTailHandler`: after each formatted line the window keeps
      its last `max(lineCount, 1)` entries. */
  method SlideWindow(env: Env, marker: seq<string>, tokens: seq<string>, lineCount: int) returns (lines: seq<string>)
    requires |marker| <= 1
    ensures lines == LastN(marker + Replay(env, Cursor("", 0.0), tokens).0, Window(lineCount))
  {
    lines := marker;
    ghost var out: seq<string> := [];
    WindowStart(marker, lineCount);
    var cursor := Cursor("", 0.0);
    var i := 0;
    while i < |tokens|
      invariant 0 <= i <= |tokens|
      invariant (out, cursor) == Replay(env, Cursor("", 0.0), tokens[..i])
      invariant lines == LastN(marker + out, Window(lineCount))
    {
      ReplayStep(env, Cursor("", 0.0), tokens, i);
      var token := tokens[i];
      if |token| > 0 {
        var formatted := FormatLine(env, cursor, token);
        var linesStart := Min(|lines|, Max(0, |lines| - lineCount + 1));
        WindowAppend(marker, out, formatted.0, lineCount);
        lines := lines[linesStart..] + [formatted.0];
        out := out + [formatted.0];
        cursor := formatted.1;
      }
      i := i + 1;
    }
    assert tokens[..i] == tokens;
  }

  function Min(a: int, b: int): int { if a < b then a else b }
  function Max(a: int, b: int): int { if a < b then b else a }

  /** One append to the window: dropping from the front as the handler does and
      appending keeps exactly the last `max(lineCount, 1)` entries. */
  lemma WindowStep<T>(x: seq<T>, h: T, lineCount: int)
    ensures var l := LastN(x, Window(lineCount));
      var st := Min(|l|, Max(0, |l| - lineCount + 1));
      0 <= st <= |l| && l[st..] + [h] == LastN(x + [h], Window(lineCount))
  {
    var n := |x|;
    if lineCount >= 1 && n >= lineCount {
      assert (x + [h])[n + 1 - lineCount..] == x[n - lineCount + 1..] + [h];
    }
  }

  lemma WindowAppend(marker: seq<string>, out: seq<string>, h: string, lineCount: int)
    ensures var l := LastN(marker + out, Window(lineCount));
      var st := Min(|l|, Max(0, |l| - lineCount + 1));
      0 <= st <= |l| && l[st..] + [h] == LastN(marker + (out + [h]), Window(lineCount))
  {
    WindowStep(marker + out, h, lineCount);
    assert marker + (out + [h]) == marker + out + [h];
  }

  lemma WindowStart(marker: seq<string>, lineCount: int)
    requires |marker| <= 1
    ensures marker == LastN(marker + [], Window(lineCount))
  {
    assert marker + [] == marker;
  }

  /** The window never holds more than `max(lineCount, 1)` entries, holds all of them
      when there are no more, and ends with the newest entry. */
  lemma {:induction false} WindowBounds<T>(all: seq<T>, lineCount: int)
    ensures |LastN(all, Window(lineCount))| <= Window(lineCount)
    ensures |all| <= lineCount ==> LastN(all, Window(lineCount)) == all
    ensures all != [] ==> LastN(all, Window(lineCount)) != [] && LastN(all, Window(lineCount))[|LastN(all, Window(lineCount))| - 1] == all[|all| - 1]
  {
  }
}
