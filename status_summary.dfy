/** The status summary of `runStatusSummaryHandler`: every worker's status file is
    scanned line by line up to the first empty or undecodable line; the last event
    per test wins, carrying forward an earlier exception; and each worker's end
    offset counts the bytes of the accepted lines. JSON decoding is a parameter. */
module StatusSummary {
  import opened Wrappers
  import Seqs

  datatype Json = JNull | JStr(s: string) | JOther(repr: string)
  type JsonObj = map<string, Json>

  /** A token of the line scanner with its decoding (`None` when it does not decode). */
  datatype ScannedLine = ScannedLine(text: string, obj: Option<JsonObj>)

  /** `status_obj["test"].(string)`: present only when the field is a string. */
  function TestId(o: JsonObj): Option<string> {
    if "test" in o && o["test"].JStr? then Some(o["test"].s) else None
  }

  /** `status_obj["exception"]` when it is not nil (absent and JSON null are nil). */
  function Exception(o: JsonObj): (r: Option<Json>)
    ensures r.Some? ==> r.value != JNull
  {
    if "exception" in o && o["exception"] != JNull then Some(o["exception"]) else None
  }

  /** The scanner's tokens (`bufio.ScanLines`): the pieces between newlines, without
      the empty piece after a final newline, each with one trailing carriage
      return dropped. */
  function ScanTokens(data: string): seq<string>
  {
    var p := Seqs.Split(data, '\n');
    var toks := if Seqs.Last(p) == "" then p[..|p| - 1] else p;
    seq(|toks|, i requires 0 <= i < |toks| => DropCR(toks[i]))
  }

  function DropCR(t: string): string {
    if |t| > 0 && t[|t| - 1] == '\r' then t[..|t| - 1] else t
  }

  function Scan(data: string, decode: string -> Option<JsonObj>): (r: seq<ScannedLine>)
    ensures |r| == |ScanTokens(data)|
  {
    var toks := ScanTokens(data);
    seq(|toks|, i requires 0 <= i < |toks| => ScannedLine(toks[i], decode(toks[i])))
  }

  predicate Good(l: ScannedLine) {
    |l.text| > 0 && l.obj.Some?
  }

  /** How many lines the scan loop accepts: it stops at the first empty or
      undecodable line. */
  function AcceptedCount(lines: seq<ScannedLine>): (n: nat)
    ensures n <= |lines|
    ensures forall i :: 0 <= i < n ==> Good(lines[i])
    ensures n < |lines| ==> !Good(lines[n])
  {
    if lines == [] || !Good(lines[0]) then 0 else 1 + AcceptedCount(lines[1..])
  }

  /** `final_offset`: the sum of `len(line) + 1` over the lines. */
  function EndOffset(lines: seq<ScannedLine>): nat {
    if lines == [] then 0 else EndOffset(lines[..|lines| - 1]) + |lines[|lines| - 1].text| + 1
  }

  /** The events of the accepted lines of one worker. */
  function AcceptedEvents(lines: seq<ScannedLine>): (r: seq<JsonObj>)
    ensures |r| == AcceptedCount(lines)
  {
    var n := AcceptedCount(lines);
    seq(n, i requires 0 <= i < n => lines[i].obj.value)
  }

  /** The accepted events of all workers, in worker order. */
  function AllAccepted(workers: seq<seq<ScannedLine>>): seq<JsonObj> {
    if workers == [] then [] else AllAccepted(workers[..|workers| - 1]) + AcceptedEvents(workers[|workers| - 1])
  }

  /** Storing an event: it replaces the stored one, but takes over the stored
      exception when it has none of its own. */
  function Merge(prev: Option<JsonObj>, o: JsonObj): JsonObj {
    if prev.Some? && Exception(prev.value).Some? && Exception(o).None? then o["exception" := prev.value["exception"]] else o
  }

  /** The `final_statuses` map after the events, or a panic at the first event whose
      `test` is not a string. */
  function FoldEvents(m: map<string, JsonObj>, evs: seq<JsonObj>): Result<map<string, JsonObj>, string>
  {
    if evs == [] then Ok(m)
    else
      match FoldEvents(m, evs[..|evs| - 1])
      case Err(e) => Err(e)
      case Ok(m') =>
        var o := evs[|evs| - 1];
        (match TestId(o)
         case None => Err("interface conversion: interface {} is not string")
         case Some(id) => Ok(m'[id := Merge(if id in m' then Some(m'[id]) else None, o)]))
  }

  /** The handler's result: the final statuses and one end offset per worker. */
  function Summary(workers: seq<seq<ScannedLine>>): Result<(map<string, JsonObj>, seq<nat>), string>
  {
    match FoldEvents(map[], AllAccepted(workers))
    case Err(e) => Err(e)
    case Ok(m) => Ok((m, EndOffsets(workers)))
  }

  /** One end offset per worker: where its accepted lines end. */
  function EndOffsets(workers: seq<seq<ScannedLine>>): (r: seq<nat>)
    ensures |r| == |workers|
  {
    if workers == [] then []
    else
      var last := workers[|workers| - 1];
      EndOffsets(workers[..|workers| - 1]) + [EndOffset(last[..AcceptedCount(last)])]
  }

  lemma SummaryStep(workers: seq<seq<ScannedLine>>, w: nat)
    requires w < |workers|
    ensures AllAccepted(workers[..w + 1]) == AllAccepted(workers[..w]) + AcceptedEvents(workers[w])
    ensures EndOffsets(workers[..w + 1]) == EndOffsets(workers[..w]) + [EndOffset(workers[w][..AcceptedCount(workers[w])])]
  {
    assert workers[..w + 1][..w] == workers[..w];
  }

  /** The scan loops of `runStatusSummaryHandler`: one pass over each worker's
      status file, then one end offset per worker. */
  method RunStatusSummary(workers: seq<seq<ScannedLine>>) returns (r: Result<(map<string, JsonObj>, seq<nat>), string>)
    ensures r == Summary(workers)
  {
    var finalStatuses: map<string, JsonObj> := map[];
    var endOffsets: seq<nat> := [];
    var w := 0;
    while w < |workers|
      invariant 0 <= w <= |workers|
      invariant FoldEvents(map[], AllAccepted(workers[..w])) == Ok(finalStatuses)
      invariant endOffsets == EndOffsets(workers[..w])
    {
      var scanned := ScanStatusFile(finalStatuses, workers[w]);
      if scanned.Err? {
        WorkerPanicked(workers, w, finalStatuses, scanned.error);
        return Err(scanned.error);
      }
      WorkerScanned(workers, w, finalStatuses, scanned.value.0);
      finalStatuses := scanned.value.0;
      endOffsets := endOffsets + [scanned.value.1];
      w := w + 1;
    }
    assert workers[..w] == workers;
    r := Ok((finalStatuses, endOffsets));
  }

  lemma WorkerScanned(workers: seq<seq<ScannedLine>>, w: nat, m: map<string, JsonObj>, m': map<string, JsonObj>)
    requires w < |workers|
    requires FoldEvents(map[], AllAccepted(workers[..w])) == Ok(m)
    requires FoldEvents(m, AcceptedEvents(workers[w])) == Ok(m')
    ensures FoldEvents(map[], AllAccepted(workers[..w + 1])) == Ok(m')
    ensures EndOffsets(workers[..w + 1]) == EndOffsets(workers[..w]) + [EndOffset(workers[w][..AcceptedCount(workers[w])])]
  {
    SummaryStep(workers, w);
    FoldAppend(map[], AllAccepted(workers[..w]), AcceptedEvents(workers[w]));
  }

  lemma WorkerPanicked(workers: seq<seq<ScannedLine>>, w: nat, m: map<string, JsonObj>, e: string)
    requires w < |workers|
    requires FoldEvents(map[], AllAccepted(workers[..w])) == Ok(m)
    requires FoldEvents(m, AcceptedEvents(workers[w])) == Err(e)
    ensures Summary(workers) == Err(e)
  {
    SummaryStep(workers, w);
    FoldAppend(map[], AllAccepted(workers[..w]), AcceptedEvents(workers[w]));
    FoldErrPersists(workers, w + 1);
  }

  /** One worker's scan loop, folding into the statuses gathered so far. */
  method ScanStatusFile(m: map<string, JsonObj>, lines: seq<ScannedLine>) returns (r: Result<(map<string, JsonObj>, nat), string>)
    ensures r.Ok? ==> FoldEvents(m, AcceptedEvents(lines)) == Ok(r.value.0)
                      && r.value.1 == EndOffset(lines[..AcceptedCount(lines)])
    ensures r.Err? ==> FoldEvents(m, AcceptedEvents(lines)) == Err(r.error)
  {
    var finalStatuses := m;
    var finalOffset := 0;
    var i := 0;
    assert AcceptedEvents(lines)[..0] == [];
    while i < |lines|
      invariant 0 <= i <= AcceptedCount(lines)
      invariant FoldEvents(m, AcceptedEvents(lines)[..i]) == Ok(finalStatuses)
      invariant finalOffset == EndOffset(lines[..i])
    {
      var line := lines[i];
      if |line.text| == 0 || line.obj.None? {
        break;
      }
      var o := line.obj.value;
      if TestId(o).None? {
        LinePanicked(m, lines, i, finalStatuses);
        return Err("interface conversion: interface {} is not string");
      }
      var key := TestId(o).value;
      var prev := if key in finalStatuses then Some(finalStatuses[key]) else None;
      LineAccepted(m, lines, i, finalStatuses);
      finalStatuses := finalStatuses[key := Merge(prev, o)];
      finalOffset := finalOffset + |line.text| + 1;
      i := i + 1;
    }
    assert AcceptedEvents(lines)[..i] == AcceptedEvents(lines);
    return Ok((finalStatuses, finalOffset));
  }

  lemma LineAccepted(m: map<string, JsonObj>, lines: seq<ScannedLine>, i: nat, fs: map<string, JsonObj>)
    requires i < |lines| && i <= AcceptedCount(lines) && Good(lines[i])
    requires FoldEvents(m, AcceptedEvents(lines)[..i]) == Ok(fs)
    requires TestId(lines[i].obj.value).Some?
    ensures var o := lines[i].obj.value; var key := TestId(o).value;
      FoldEvents(m, AcceptedEvents(lines)[..i + 1]) == Ok(fs[key := Merge(if key in fs then Some(fs[key]) else None, o)])
    ensures EndOffset(lines[..i + 1]) == EndOffset(lines[..i]) + |lines[i].text| + 1
  {
    assert AcceptedEvents(lines)[..i + 1][..i] == AcceptedEvents(lines)[..i];
    assert lines[..i + 1][..i] == lines[..i];
  }

  lemma LinePanicked(m: map<string, JsonObj>, lines: seq<ScannedLine>, i: nat, fs: map<string, JsonObj>)
    requires i < |lines| && i <= AcceptedCount(lines) && Good(lines[i])
    requires FoldEvents(m, AcceptedEvents(lines)[..i]) == Ok(fs)
    requires TestId(lines[i].obj.value).None?
    ensures FoldEvents(m, AcceptedEvents(lines)) == Err("interface conversion: interface {} is not string")
  {
    var evs := AcceptedEvents(lines);
    assert evs[..i + 1][..i] == evs[..i];
    FoldErrAppend(m, evs[..i + 1], evs[i + 1..]);
    assert evs[..i + 1] + evs[i + 1..] == evs;
  }

  /** Folding two runs of events is folding the second over the result of the first. */
  lemma {:induction false} FoldAppend(m: map<string, JsonObj>, a: seq<JsonObj>, b: seq<JsonObj>)
    ensures FoldEvents(m, a).Ok? ==> FoldEvents(m, a + b) == FoldEvents(FoldEvents(m, a).value, b)
    ensures FoldEvents(m, a).Err? ==> FoldEvents(m, a + b) == FoldEvents(m, a)
  {
    if b == [] {
      assert a + b == a;
    } else {
      FoldAppend(m, a, b[..|b| - 1]);
      assert (a + b)[..|a + b| - 1] == a + b[..|b| - 1];
    }
  }

  /** Once the fold has panicked, more events do not revive it. */
  lemma FoldErrAppend(m: map<string, JsonObj>, a: seq<JsonObj>, b: seq<JsonObj>)
    requires FoldEvents(m, a).Err?
    ensures FoldEvents(m, a + b) == FoldEvents(m, a)
  {
    FoldAppend(m, a, b);
  }

  lemma AllAcceptedPrefix(workers: seq<seq<ScannedLine>>, w: nat)
    requires w <= |workers|
    ensures AllAccepted(workers[..w]) <= AllAccepted(workers)
  {
    if w < |workers| {
      AllAcceptedPrefix(workers[..|workers| - 1], w);
      assert workers[..|workers| - 1][..w] == workers[..w];
    } else {
      assert workers[..w] == workers;
    }
  }

  /** A panic in the first `w` workers' events is the handler's result. */
  lemma FoldErrPersists(workers: seq<seq<ScannedLine>>, w: nat)
    requires w <= |workers| && FoldEvents(map[], AllAccepted(workers[..w])).Err?
    ensures Summary(workers).Err? && Summary(workers).error == FoldEvents(map[], AllAccepted(workers[..w])).error
  {
    var all := AllAccepted(workers);
    var pre := AllAccepted(workers[..w]);
    AllAcceptedPrefix(workers, w);
    assert all == pre + all[|pre|..];
    FoldErrAppend(map[], pre, all[|pre|..]);
  }

  /** The fold panics exactly when some event's `test` field is not a string. */
  lemma {:induction false} PanicIff(m: map<string, JsonObj>, evs: seq<JsonObj>)
    ensures FoldEvents(m, evs).Err? <==> exists i :: 0 <= i < |evs| && TestId(evs[i]).None?
  {
    if evs != [] {
      var init := evs[..|evs| - 1];
      PanicIff(m, init);
      if exists i :: 0 <= i < |init| && TestId(init[i]).None? {
        var i :| 0 <= i < |init| && TestId(init[i]).None?;
        assert evs[i] == init[i];
      } else if exists i :: 0 <= i < |evs| && TestId(evs[i]).None? {
        var i :| 0 <= i < |evs| && TestId(evs[i]).None?;
        assert i == |init|;
      }
    }
  }

  /** Index of the last event for test `t`, or -1. */
  function LastIndex(evs: seq<JsonObj>, t: string): (r: int)
    ensures -1 <= r < |evs|
    ensures r >= 0 ==> TestId(evs[r]) == Some(t)
    ensures forall i :: r < i < |evs| ==> TestId(evs[i]) != Some(t)
  {
    if evs == [] then -1
    else if TestId(evs[|evs| - 1]) == Some(t) then |evs| - 1
    else LastIndex(evs[..|evs| - 1], t)
  }

  /** The last non-nil exception among the events for `t`, falling back to the one
      stored in `m`. */
  function LastException(m: map<string, JsonObj>, evs: seq<JsonObj>, t: string): Option<Json>
  {
    if evs == [] then (if t in m then Exception(m[t]) else None)
    else if TestId(evs[|evs| - 1]) == Some(t) && Exception(evs[|evs| - 1]).Some? then Exception(evs[|evs| - 1])
    else LastException(m, evs[..|evs| - 1], t)
  }

  /** An event with an exception put in when it has none of its own. */
  function WithException(o: JsonObj, x: Option<Json>): JsonObj {
    if Exception(o).None? && x.Some? then o["exception" := x.value] else o
  }

  /** After the fold, every test with an event maps to its last event, carrying the
      last non-nil exception reported for it; every other test keeps its entry, and
      no test without an entry or an event appears. */
  lemma {:induction false} LastEventWins(m: map<string, JsonObj>, evs: seq<JsonObj>, t: string)
    requires FoldEvents(m, evs).Ok?
    ensures var r := FoldEvents(m, evs).value;
      && (LastIndex(evs, t) == -1 ==> (t in r <==> t in m) && (t in m ==> r[t] == m[t]))
      && (LastIndex(evs, t) >= 0 ==> t in r && r[t] == WithException(evs[LastIndex(evs, t)], LastException(m, evs, t)))
      && (t in r ==> Exception(r[t]) == LastException(m, evs, t))
  {
    if evs != [] {
      var init, o := evs[..|evs| - 1], evs[|evs| - 1];
      LastEventWins(m, init, t);
      var r0 := FoldEvents(m, init).value;
      var id := TestId(o).value;
      if id == t {
        var prev := if t in r0 then Some(r0[t]) else None;
        if prev.Some? {
          assert Exception(r0[t]) == LastException(m, init, t);
        } else {
          assert LastException(m, init, t) == None by {
            NoEntryNoException(m, init, t);
          }
        }
      }
    }
  }

  lemma {:induction false} NoEntryNoException(m: map<string, JsonObj>, evs: seq<JsonObj>, t: string)
    requires FoldEvents(m, evs).Ok? && t !in FoldEvents(m, evs).value
    ensures LastException(m, evs, t) == None && t !in m
  {
    if evs != [] {
      NoEntryNoException(m, evs[..|evs| - 1], t);
    }
  }

  /** The summary of the whole run: the tests in it are exactly those with an
      accepted event, each with its last event and last reported exception. */
  lemma SummaryStatuses(workers: seq<seq<ScannedLine>>, t: string)
    requires Summary(workers).Ok?
    ensures var evs := AllAccepted(workers);
      var statuses := Summary(workers).value.0;
      && (t in statuses <==> LastIndex(evs, t) >= 0)
      && (t in statuses ==> statuses[t] == WithException(evs[LastIndex(evs, t)], LastException(map[], evs, t)))
  {
    LastEventWins(map[], AllAccepted(workers), t);
  }

  /** The scanner yields the lines of a file written as newline-separated lines
      without carriage returns (a final empty line is not a token). */
  lemma ScanTexts(pieces: seq<string>, decode: string -> Option<JsonObj>)
    requires |pieces| >= 1
    requires forall piece :: piece in pieces ==> '\n' !in piece && '\r' !in piece
    ensures var toks := Scan(Seqs.Join(pieces, '\n'), decode);
      && |pieces| - 1 <= |toks| <= |pieces|
      && forall i :: 0 <= i < |toks| ==> toks[i].text == pieces[i]
  {
    Seqs.SplitJoin(pieces, '\n');
    forall i | 0 <= i < |pieces|
      ensures DropCR(pieces[i]) == pieces[i]
    {
      assert pieces[i] in pieces;
    }
  }

  /** The end offset after the first `k` lines of a status file is where line `k`
      begins: a poll that resumes there reads the rest of the file from that line on. */
  lemma {:induction false} ResumeAtEndOffset(pieces: seq<string>, decode: string -> Option<JsonObj>, k: nat)
    requires k < |pieces|
    requires forall piece :: piece in pieces ==> '\n' !in piece && '\r' !in piece
    ensures var data := Seqs.Join(pieces, '\n');
      var toks := Scan(data, decode);
      && k <= |toks|
      && EndOffset(toks[..k]) <= |data|
      && data[EndOffset(toks[..k])..] == Seqs.Join(pieces[k..], '\n')
  {
    var data := Seqs.Join(pieces, '\n');
    var toks := Scan(data, decode);
    ScanTexts(pieces, decode);
    if k == 0 {
      assert pieces[0..] == pieces;
    } else {
      ResumeAtEndOffset(pieces, decode, k - 1);
      var e := EndOffset(toks[..k - 1]);
      assert toks[..k][..k - 1] == toks[..k - 1];
      assert EndOffset(toks[..k]) == e + |pieces[k - 1]| + 1;
      var tail := pieces[k - 1..];
      assert tail[1..] == pieces[k..];
      assert Seqs.Join(tail, '\n') == pieces[k - 1] + ['\n'] + Seqs.Join(pieces[k..], '\n');
      assert data[e..] == Seqs.Join(tail, '\n');
      assert data[e + |pieces[k - 1]| + 1..] == data[e..][|pieces[k - 1]| + 1..];
    }
  }
}
