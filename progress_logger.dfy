/** `ProgressLogger` of the pytest plugin: the `log_progress` fixture a test calls
    with a completion fraction. Calls are clamped to [0, 1], throttled to one per
    0.1 s, a call reaching 1.0 ends the logger silently, and `done()` writes a final
    1.0 at most once. The clock is a parameter. */
module ProgressLogging {
  import opened Wrappers
  import StatusSummary

  /** A progress line of the status file; `test` is absent on the line `done()` writes. */
  datatype ProgressRecord = ProgressRecord(percentage: real, test: Option<string>, time: real)

  const MinInterval: real := 0.1

  function Clamp(p: real): (r: real)
    ensures 0.0 <= r <= 1.0
    ensures 0.0 <= p <= 1.0 ==> r == p
    ensures p < 0.0 ==> r == 0.0
    ensures p > 1.0 ==> r == 1.0
  {
    if p < 0.0 then 0.0 else if p > 1.0 then 1.0 else p
  }

  /** Every record carries a percentage in [0, 1]; a record of 1.0 is the last one and
      is written only once the logger is done; the records before it are at least
      0.1 s apart; only the final 1.0 may lack the test. */
  ghost predicate RecordsOk(rs: seq<ProgressRecord>, test: string, done: bool) {
    && (forall i :: 0 <= i < |rs| ==> 0.0 <= rs[i].percentage <= 1.0)
    && (forall i :: 0 <= i < |rs| ==> rs[i].percentage == 1.0 ==> i == |rs| - 1 && done)
    && (forall i :: 0 <= i < |rs| ==> rs[i].test.None? ==> rs[i].percentage == 1.0)
    && (forall i :: 0 <= i < |rs| ==> rs[i].test.Some? ==> rs[i].test.value == test)
    && (forall i :: 0 < i < |rs| ==> rs[i].percentage < 1.0 ==> rs[i].time - rs[i - 1].time >= MinInterval)
  }

  class ProgressLogger {
    const hasStatusFile: bool
    const test: string
    var lastTime: Option<real>
    var done: bool
    /** What the logger has written to the status file. */
    var records: seq<ProgressRecord>

    /** The records are well formed (see `RecordsOk`) and, while not done, the last
        record is from the last accepted call; without a status file the logger is
        done and has written nothing. */
    ghost predicate Valid()
      reads this
    {
      && (!hasStatusFile ==> done && records == [])
      && RecordsOk(records, test, done)
      && (!done ==> (lastTime.None? <==> records == []))
      && (!done && records != [] ==> lastTime == Some(records[|records| - 1].time))
    }

    constructor(hasStatusFile: bool, test: string)
      ensures Valid()
      ensures this.hasStatusFile == hasStatusFile && this.test == test
      ensures lastTime == None && done == !hasStatusFile && records == []
    {
      this.hasStatusFile := hasStatusFile;
      this.test := test;
      lastTime := None;
      done := !hasStatusFile;
      records := [];
    }

    /** `ratelimit`: a call within 0.1 s of the last accepted one is dropped; otherwise
        the call is accepted and its time remembered. */
    method RateLimit(now: real) returns (limited: bool)
      modifies this
      ensures limited <==> old(lastTime).Some? && now - old(lastTime).value < MinInterval
      ensures lastTime == if limited then old(lastTime) else Some(now)
      ensures done == old(done) && records == old(records)
    {
      if lastTime.Some? {
        var interval := now - lastTime.value;
        if interval < MinInterval {
          return true;
        }
      }
      lastTime := Some(now);
      return false;
    }

    /** `__call__(percentage)` at time `now`. */
    method Call(percentage: real, now: real)
      requires Valid()
      modifies this
      ensures Valid()
      ensures old(done) ==> records == old(records) && done && lastTime == old(lastTime)
      ensures !old(done) && old(lastTime).Some? && now - old(lastTime).value < MinInterval
              ==> records == old(records) && !done && lastTime == old(lastTime)
      ensures !old(done) && !(old(lastTime).Some? && now - old(lastTime).value < MinInterval)
              ==> lastTime == Some(now)
                  && (Clamp(percentage) == 1.0 ==> done && records == old(records))
                  && (Clamp(percentage) < 1.0 ==> !done && records == old(records) + [ProgressRecord(Clamp(percentage), Some(test), now)])
    {
      if done {
        return;
      }
      var limited := RateLimit(now);
      if limited {
        return;
      }
      var p := Clamp(percentage);
      if p == 1.0 {
        done := true;
        return;
      }
      records := records + [ProgressRecord(p, Some(test), now)];
    }

    /** `done()` at time `now`: the final 1.0, written at most once and without the
        test's id. */
    method Done(now: real)
      requires Valid()
      modifies this
      ensures Valid() && done
      ensures old(done) ==> records == old(records)
      ensures !old(done) ==> records == old(records) + [ProgressRecord(1.0, None, now)]
      ensures lastTime == old(lastTime)
    {
      if done {
        return;
      }
      done := true;
      records := records + [ProgressRecord(1.0, None, now)];
    }

    /** `done()` with the test's id on its line, like every other line of the test. */
    method DoneWithTest(now: real)
      requires Valid()
      modifies this
      ensures Valid() && done
      ensures old(done) ==> records == old(records)
      ensures !old(done) ==> records == old(records) + [ProgressRecord(1.0, Some(test), now)]
      ensures lastTime == old(lastTime)
    {
      if done {
        return;
      }
      done := true;
      records := records + [ProgressRecord(1.0, Some(test), now)];
    }
  }

  /** The record as the status file's JSON object: `type`, `percentage`, `time`, and
      `test` when the record has one. Numbers are shown by a parameter. */
  function RecordJson(r: ProgressRecord, number: real -> string): StatusSummary.JsonObj {
    var base := map["type" := StatusSummary.JStr("progress"), "percentage" := StatusSummary.JOther(number(r.percentage)),
                     "time" := StatusSummary.JOther(number(r.time))];
    match r.test
    case Some(t) => base["test" := StatusSummary.JStr(t)]
    case None => base
  }

  /** The final line `done()` writes has no `test`: the server's status summary
      panics on it once it reaches the fold, whatever came before. */
  lemma DoneLinePanicsSummary(now: real, number: real -> string, before: seq<StatusSummary.JsonObj>)
    ensures StatusSummary.FoldEvents(map[], before + [RecordJson(ProgressRecord(1.0, None, now), number)]).Err?
  {
    var evs := before + [RecordJson(ProgressRecord(1.0, None, now), number)];
    StatusSummary.PanicIff(map[], evs);
    assert StatusSummary.TestId(evs[|evs| - 1]).None?;
  }

  /** The final line `DoneWithTest` writes is folded like any other: it becomes the
      test's stored status. */
  lemma DoneLineWithTestFolds(now: real, number: real -> string, m: map<string, StatusSummary.JsonObj>, t: string)
    ensures var o := RecordJson(ProgressRecord(1.0, Some(t), now), number);
      && StatusSummary.FoldEvents(m, [o]).Ok?
      && t in StatusSummary.FoldEvents(m, [o]).value
      && StatusSummary.FoldEvents(m, [o]).value[t]
         == StatusSummary.Merge(if t in m then Some(m[t]) else None, o)
  {
    var o := RecordJson(ProgressRecord(1.0, Some(t), now), number);
    assert [o][..0] == [];
  }
}
