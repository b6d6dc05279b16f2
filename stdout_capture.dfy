/** The stdout/stderr tee of the pytest plugin (`LivelogStdoutHandler`): every write
    goes to the original stream unchanged, and every complete line is also written
    as a log record, with an unterminated fragment held back until its line ends. */
module StdoutCapture {
  import opened Wrappers
  import Seqs

  /** The line boundaries of Python's `str.splitlines`. */
  predicate LineBreak(c: char) {
    c == '\n' || c == '\r' || c == '\U{b}' || c == '\U{c}' || c == '\U{1c}' || c == '\U{1d}'
    || c == '\U{1e}' || c == '\U{85}' || c == '\U{2028}' || c == '\U{2029}'
  }

  /** Where the line that starts at or before `i` ends, its boundary included
      (`\r\n` is one boundary). */
  function LineEnd(s: string, i: nat): (e: nat)
    requires i <= |s|
    ensures i <= e <= |s| && (i < |s| ==> i < e)
    decreases |s| - i
  {
    if i == |s| then |s|
    else if LineBreak(s[i]) then (if s[i] == '\r' && i + 1 < |s| && s[i + 1] == '\n' then i + 2 else i + 1)
    else LineEnd(s, i + 1)
  }

  /** `s.splitlines(keepends=True)`. */
  function SplitLinesKeep(s: string): (r: seq<string>)
    ensures forall k :: 0 <= k < |r| ==> r[k] != []
    decreases |s|
  {
    if s == [] then [] else var e := LineEnd(s, 0); [s[..e]] + SplitLinesKeep(s[e..])
  }

  /** The lines put back together are the written text. */
  lemma {:induction false} SplitLinesConcat(s: string)
    ensures Seqs.Flatten(SplitLinesKeep(s)) == s
    decreases |s|
  {
    if s != [] {
      var e := LineEnd(s, 0);
      SplitLinesConcat(s[e..]);
      Seqs.FlattenCons(s[..e], SplitLinesKeep(s[e..]));
      assert s == s[..e] + s[e..];
    }
  }

  /** The handler's pending fragment and the messages logged so far. */
  datatype Capture = Capture(pending: Option<string>, messages: seq<string>)

  predicate EndsWithNewline(line: string) {
    |line| > 0 && line[|line| - 1] == '\n'
  }

  /** One line of the loop in `write`: a line ending in `\n` is logged without its
      `\n`, after the pending fragment, which is cleared; any other line becomes the
      pending fragment, replacing the one before. */
  function Step(c: Capture, line: string): Capture {
    if EndsWithNewline(line) then Capture(None, c.messages + [c.pending.GetOr("") + line[..|line| - 1]])
    else Capture(Some(line), c.messages)
  }

  function Feed(c: Capture, lines: seq<string>): Capture {
    if lines == [] then c else Step(Feed(c, lines[..|lines| - 1]), lines[|lines| - 1])
  }

  /** The same step with the fragment extended rather than replaced. */
  function StepFixed(c: Capture, line: string): Capture {
    if EndsWithNewline(line) then Capture(None, c.messages + [c.pending.GetOr("") + line[..|line| - 1]])
    else Capture(Some(c.pending.GetOr("") + line), c.messages)
  }

  function FeedFixed(c: Capture, lines: seq<string>): Capture {
    if lines == [] then c else StepFixed(FeedFixed(c, lines[..|lines| - 1]), lines[|lines| - 1])
  }

  /** Each message with its newline put back, in order. */
  function Joined(ms: seq<string>): string {
    if ms == [] then "" else Joined(ms[..|ms| - 1]) + ms[|ms| - 1] + "\n"
  }

  /** All the text a capture accounts for: the logged lines, then the pending fragment. */
  function Accounted(c: Capture): string {
    Joined(c.messages) + c.pending.GetOr("")
  }

  /** With the fragment extended, nothing written is lost: the logged lines and the
      pending fragment spell out everything written since. */
  lemma {:induction false} FixedLosesNothing(c: Capture, lines: seq<string>)
    ensures Accounted(FeedFixed(c, lines)) == Accounted(c) + Seqs.Flatten(lines)
  {
    if lines != [] {
      var init, line := lines[..|lines| - 1], lines[|lines| - 1];
      FixedLosesNothing(c, init);
      assert lines == init + [line];
      Seqs.FlattenSnoc(init, line);
      StepFixedAccounts(FeedFixed(c, init), line);
    }
  }

  /** One extending step accounts for exactly the line it is given. */
  lemma StepFixedAccounts(c: Capture, line: string)
    ensures Accounted(StepFixed(c, line)) == Accounted(c) + line
  {
    var p := c.pending.GetOr("");
    if EndsWithNewline(line) {
      var m := p + line[..|line| - 1];
      assert (c.messages + [m])[..|c.messages|] == c.messages;
      assert Joined(c.messages + [m]) == Joined(c.messages) + m + "\n";
      assert line == line[..|line| - 1] + "\n";
      assert m + "\n" == p + line;
    } else {
      assert Joined(c.messages) + (p + line) == Joined(c.messages) + p + line;
    }
  }

  /** The written text, split into lines and fed one write at a time. */
  function FeedWrites(c: Capture, writes: seq<string>): Capture {
    if writes == [] then c else Feed(FeedWrites(c, writes[..|writes| - 1]), SplitLinesKeep(writes[|writes| - 1]))
  }

  function FeedWritesFixed(c: Capture, writes: seq<string>): Capture {
    if writes == [] then c else FeedFixed(FeedWritesFixed(c, writes[..|writes| - 1]), SplitLinesKeep(writes[|writes| - 1]))
  }

  lemma {:induction false} LineEndNoBreak(s: string, i: nat)
    requires i < |s|
    requires forall j :: i <= j < |s| - 1 ==> !LineBreak(s[j])
    ensures LineEnd(s, i) == |s|
    decreases |s| - i
  {
    if i < |s| - 1 {
      LineEndNoBreak(s, i + 1);
    }
  }

  /** A non-empty text with no line boundary before its last character is one line. */
  lemma OneLine(s: string)
    requires s != [] && forall j :: 0 <= j < |s| - 1 ==> !LineBreak(s[j])
    ensures SplitLinesKeep(s) == [s]
  {
    LineEndNoBreak(s, 0);
    assert s[..|s|] == s;
  }

  /** A write with no line boundary in it replaces the pending fragment. */
  lemma WriteFragment(c: Capture, w: string)
    requires w != [] && forall j :: 0 <= j < |w| ==> !LineBreak(w[j])
    ensures Feed(c, SplitLinesKeep(w)) == Capture(Some(w), c.messages)
  {
    OneLine(w);
    FeedOne(c, w);
  }

  /** A lone newline logs the pending fragment. */
  lemma WriteNewline(c: Capture)
    ensures Feed(c, SplitLinesKeep("\n")) == Capture(None, c.messages + [c.pending.GetOr("")])
  {
    OneLine("\n");
    FeedOne(c, "\n");
    assert c.pending.GetOr("") + "\n"[..0] == c.pending.GetOr("");
  }

  lemma FeedWritesSnoc(c: Capture, ws: seq<string>, w: string)
    ensures FeedWrites(c, ws + [w]) == Feed(FeedWrites(c, ws), SplitLinesKeep(w))
  {
    assert (ws + [w])[..|ws|] == ws;
  }

  /** Text without a line break: a write that completes no line. */
  predicate Fragment(w: string) {
    w != [] && forall j :: 0 <= j < |w| ==> !LineBreak(w[j])
  }

  /** Three fragments and a newline, as `print("a", "b")` writes `a`, ` `, `b` and
      `\n`: as written, only the last fragment is logged, although the text written
      was all three followed by the newline. */
  lemma PendingFragmentLost(x: string, y: string, z: string)
    requires Fragment(x) && Fragment(y) && Fragment(z)
    ensures FeedWrites(Capture(None, []), [x, y, z, "\n"]) == Capture(None, [z])
    ensures Accounted(Capture(None, [z])) == z + "\n"
  {
    var c0 := Capture(None, []);
    var w1, w2, w3, w4 := [x], [x, y], [x, y, z], [x, y, z, "\n"];
    assert w1 == [] + [x] && w2 == w1 + [y] && w3 == w2 + [z] && w4 == w3 + ["\n"];
    FragmentWrite(c0, [], x, None);
    FragmentWrite(c0, w1, y, Some(x));
    FragmentWrite(c0, w2, z, Some(y));
    NewlineWrite(c0, w3, Some(z));
    assert [z][..0] == [];
    assert Joined([z]) == Joined([]) + z + "\n";
    assert Joined([]) + z == z;
  }

  /** A write without a line break, after writes that logged nothing, becomes the
      pending fragment. */
  lemma FragmentWrite(c: Capture, ws: seq<string>, w: string, pending: Option<string>)
    requires Fragment(w)
    requires FeedWrites(c, ws) == Capture(pending, [])
    ensures FeedWrites(c, ws + [w]) == Capture(Some(w), [])
  {
    FeedWritesSnoc(c, ws, w);
    WriteFragment(Capture(pending, []), w);
  }

  /** A lone newline, after writes that logged nothing, logs the pending fragment. */
  lemma NewlineWrite(c: Capture, ws: seq<string>, pending: Option<string>)
    requires FeedWrites(c, ws) == Capture(pending, [])
    ensures FeedWrites(c, ws + ["\n"]) == Capture(None, [pending.GetOr("")])
  {
    FeedWritesSnoc(c, ws, "\n");
    WriteNewline(Capture(pending, []));
  }

  lemma FeedOne(c: Capture, line: string)
    ensures Feed(c, [line]) == Step(c, line)
  {
    assert [line][..0] == [];
  }

  /** With the fragment extended, the writes of any `print` are logged in full: the
      logged lines and the pending fragment spell out every write. */
  lemma {:induction false} FixedWritesLoseNothing(c: Capture, writes: seq<string>)
    ensures Accounted(FeedWritesFixed(c, writes)) == Accounted(c) + Seqs.Flatten(writes)
  {
    if writes != [] {
      var init, w := writes[..|writes| - 1], writes[|writes| - 1];
      FixedWritesLoseNothing(c, init);
      FixedLosesNothing(FeedWritesFixed(c, init), SplitLinesKeep(w));
      SplitLinesConcat(w);
      assert writes == init + [w];
      Seqs.FlattenSnoc(init, w);
    }
  }

  /** With no fragment held, or a piece that ends in `\n`, the two steps agree. */
  lemma StepAgrees(c: Capture, line: string)
    requires c.pending.None? || EndsWithNewline(line)
    ensures Step(c, line) == StepFixed(c, line)
  {
    if !EndsWithNewline(line) {
      assert c.pending.GetOr("") + line == line;
    }
  }

  /** No piece without a `\n` is followed by another such piece, and a held
      fragment is completed by the first piece: the pattern under which replacing
      the fragment does no harm. */
  predicate NoFragmentReplaced(c: Capture, lines: seq<string>) {
    && (c.pending.Some? && |lines| > 0 ==> EndsWithNewline(lines[0]))
    && forall k :: 0 <= k < |lines| - 1 && !EndsWithNewline(lines[k]) ==> EndsWithNewline(lines[k + 1])
  }

  /** As written, the loop logs everything it is given exactly when no fragment is
      replaced by another: it then does what the extending loop does. */
  lemma {:induction false} AsWrittenLosesNothingWithoutTwoFragments(c: Capture, lines: seq<string>)
    requires NoFragmentReplaced(c, lines)
    ensures Feed(c, lines) == FeedFixed(c, lines)
    ensures Accounted(Feed(c, lines)) == Accounted(c) + Seqs.Flatten(lines)
  {
    FixedLosesNothing(c, lines);
    if lines != [] {
      var init, line := lines[..|lines| - 1], lines[|lines| - 1];
      assert NoFragmentReplaced(c, init) by {
        forall k | 0 <= k < |init| - 1 && !EndsWithNewline(init[k])
          ensures EndsWithNewline(init[k + 1])
        {
          assert init[k] == lines[k] && init[k + 1] == lines[k + 1];
        }
      }
      AsWrittenLosesNothingWithoutTwoFragments(c, init);
      var x := Feed(c, init);
      if init != [] {
        var prev := init[|init| - 1];
        assert x == Step(Feed(c, init[..|init| - 1]), prev);
        assert prev == lines[|lines| - 2];
      }
      assert x.pending.None? || EndsWithNewline(line);
      StepAgrees(x, line);
      assert Feed(c, lines) == Step(x, line);
      assert FeedFixed(c, lines) == StepFixed(FeedFixed(c, init), line);
    }
  }

  /** A record as `write_log` receives it (the time stamp is left out). */
  datatype LogRecord = LogRecord(name: string, level: string, message: string)

  /** The record of one message: `stdout` at INFO, or `stderr` at ERROR. */
  function RecordOf(error: bool, message: string): LogRecord {
    LogRecord(if error then "stderr" else "stdout", if error then "ERROR" else "INFO", message)
  }

  function RecordsFor(error: bool, messages: seq<string>): seq<LogRecord>
  {
    seq(|messages|, i requires 0 <= i < |messages| => RecordOf(error, messages[i]))
  }

  lemma FeedStep(c: Capture, lines: seq<string>, i: nat)
    requires i < |lines|
    ensures Feed(c, lines[..i + 1]) == Step(Feed(c, lines[..i]), lines[i])
  {
    assert lines[..i + 1][..i] == lines[..i];
  }

  lemma FeedFixedStep(c: Capture, lines: seq<string>, i: nat)
    requires i < |lines|
    ensures FeedFixed(c, lines[..i + 1]) == StepFixed(FeedFixed(c, lines[..i]), lines[i])
  {
    assert lines[..i + 1][..i] == lines[..i];
  }

  lemma RecordsSnoc(error: bool, logged: seq<string>, m: string)
    ensures RecordsFor(error, logged + [m]) == RecordsFor(error, logged) + [RecordOf(error, m)]
  {
  }

  class LivelogStdoutHandler {
    const error: bool
    var lastLine: Option<string>
    /** Everything passed on to the original stream. */
    var parentText: string
    /** Everything written to the test's log. */
    var records: seq<LogRecord>

    constructor(error: bool)
      ensures this.error == error && lastLine == None && parentText == [] && records == []
    {
      this.error := error;
      lastLine := None;
      parentText := [];
      records := [];
    }

    /** `write`: the text goes to the parent unchanged, its complete lines to the log. */
    method Write(s: string) returns (n: nat)
      modifies this
      ensures n == |s|
      ensures parentText == old(parentText) + s
      ensures var c := Feed(Capture(old(lastLine), []), SplitLinesKeep(s));
        lastLine == c.pending && records == old(records) + RecordsFor(error, c.messages)
    {
      parentText := parentText + s;
      var lines := SplitLinesKeep(s);
      ghost var c0, logged: seq<string> := Capture(lastLine, []), [];
      var i := 0;
      while i < |lines|
        invariant 0 <= i <= |lines|
        invariant Feed(c0, lines[..i]) == Capture(lastLine, logged)
        invariant records == old(records) + RecordsFor(error, logged)
        invariant parentText == old(parentText) + s
      {
        FeedStep(c0, lines, i);
        var line := lines[i];
        if |line| > 0 && line[|line| - 1] == '\n' {
          ghost var message := lastLine.GetOr("") + line[..|line| - 1];
          if lastLine.Some? {
            line := lastLine.value + line;
            lastLine := None;
          }
          assert line[..|line| - 1] == message;
          RecordsSnoc(error, logged, message);
          records := records + [RecordOf(error, line[..|line| - 1])];
          logged := logged + [message];
        } else {
          lastLine := Some(line);
        }
        i := i + 1;
      }
      assert lines[..i] == lines;
      n := |s|;
    }

    /** `write` with an unterminated fragment appended to the pending one instead of
        replacing it: the log then loses nothing (`FixedWritesLoseNothing`). */
    method WriteExtending(s: string) returns (n: nat)
      modifies this
      ensures n == |s|
      ensures parentText == old(parentText) + s
      ensures var c := FeedFixed(Capture(old(lastLine), []), SplitLinesKeep(s));
        lastLine == c.pending && records == old(records) + RecordsFor(error, c.messages)
    {
      parentText := parentText + s;
      var lines := SplitLinesKeep(s);
      ghost var c0, logged: seq<string> := Capture(lastLine, []), [];
      var i := 0;
      while i < |lines|
        invariant 0 <= i <= |lines|
        invariant FeedFixed(c0, lines[..i]) == Capture(lastLine, logged)
        invariant records == old(records) + RecordsFor(error, logged)
        invariant parentText == old(parentText) + s
      {
        FeedFixedStep(c0, lines, i);
        var line := lines[i];
        var head := if lastLine.Some? then lastLine.value else "";
        if |line| > 0 && line[|line| - 1] == '\n' {
          var message := head + line[..|line| - 1];
          RecordsSnoc(error, logged, message);
          records := records + [RecordOf(error, message)];
          logged := logged + [message];
          lastLine := None;
        } else {
          lastLine := Some(head + line);
        }
        i := i + 1;
      }
      assert lines[..i] == lines;
      n := |s|;
    }

    /** `writelines`: one write of the joined lines. */
    method WriteLines(lines: seq<string>)
      modifies this
      ensures parentText == old(parentText) + Seqs.Flatten(lines)
      ensures var c := Feed(Capture(old(lastLine), []), SplitLinesKeep(Seqs.Flatten(lines)));
        lastLine == c.pending && records == old(records) + RecordsFor(error, c.messages)
    {
      var _ := Write(Seqs.Flatten(lines));
    }
  }
}
