/** `LivelogPlugin` of the pytest plugin: which worker this process is, the status
    lines it writes around each test (start, one per report phase, finish with the
    worst outcome seen), and the plan worker 0 writes after collection. Files, the
    logging handler and the clock are left to the caller: the clock is a parameter
    and the status file is the sequence of lines written to it. */
module LivelogPlugin {
  import opened Wrappers
  import Decimal
  import Seqs
  import opened TestData
  import opened StatusSummary

  // ---------------------------------------------------------------------------
  // Worker derivation (`pytest_configure`)
  // ---------------------------------------------------------------------------

  /** What `pytest_configure` reads when xdist is loaded: the two environment
      variables and the `-n` option. */
  datatype XdistEnv = XdistEnv(worker: Option<string>, workerCount: Option<string>, numprocesses: Option<int>)

  datatype Role = Role(workerId: Option<int>, workerCount: Option<int>)

  /** The exceptions `pytest_configure` can raise: the `gw` assertion, `int` of a
      malformed string (ValueError) and `int(None)` (TypeError). */
  datatype ConfigureError = NotGwWorker | BadWorkerId | BadWorkerCount | MissingWorkerCount

  /** Python truthiness of an optional string. */
  predicate Truthy(s: Option<string>) {
    s.Some? && s.value != ""
  }

  predicate TruthyCount(n: Option<int>) {
    n.Some? && n.value != 0
  }

  /** The role `pytest_configure` settles on, or the exception it raises. */
  function DeriveWorker(hasXdist: bool, env: XdistEnv): (r: Result<Role, ConfigureError>)
    ensures r.Ok? && r.value.workerCount.Some? ==> r.value.workerId == Some(0)
    ensures !hasXdist ==> r == Ok(Role(Some(0), Some(1)))
    ensures r.Ok? && r.value.workerId.None? <==>
      hasXdist && env.worker.None? && (Truthy(env.workerCount) || TruthyCount(env.numprocesses))
  {
    if !hasXdist then Ok(Role(Some(0), Some(1)))
    else if !Truthy(env.worker) && !Truthy(env.workerCount) && !TruthyCount(env.numprocesses) then
      Ok(Role(Some(0), Some(1)))
    else if env.worker.Some? then
      var w := env.worker.value;
      if !(|w| >= 2 && w[..2] == "gw") then Err(NotGwWorker)
      else
        match Decimal.PyInt(w[2..])
        case None => Err(BadWorkerId)
        case Some(id) =>
          if id != 0 then Ok(Role(Some(id), None))
          else if env.workerCount.None? then Err(MissingWorkerCount)
          else
            match Decimal.PyInt(env.workerCount.value)
            case None => Err(BadWorkerCount)
            case Some(count) => Ok(Role(Some(0), Some(count)))
    else Ok(Role(None, None))
  }

  /** The xdist worker `gwN` takes id N; worker 0 also takes the worker count from
      the environment, the others leave it unset. */
  lemma GwWorker(n: nat, count: nat, numprocesses: Option<int>)
    ensures DeriveWorker(true, XdistEnv(Some("gw" + Decimal.NatToString(n)), Some(Decimal.NatToString(count)), numprocesses))
         == Ok(Role(Some(n), if n == 0 then Some(count) else None))
  {
    var w := "gw" + Decimal.NatToString(n);
    assert w[..2] == "gw" && w[2..] == Decimal.NatToString(n);
    Decimal.PyIntNatToString(n);
    Decimal.PyIntNatToString(count);
    assert Decimal.PyInt(w[2..]) == Some(n);
  }

  /** An xdist master with neither worker variable nor `-n` runs alone, as worker 0
      of 1. */
  lemma LoneMaster(env: XdistEnv)
    requires !Truthy(env.worker) && !Truthy(env.workerCount) && !TruthyCount(env.numprocesses)
    ensures DeriveWorker(true, env) == Ok(Role(Some(0), Some(1)))
  {
  }

  // ---------------------------------------------------------------------------
  // Status lines and the worst outcome
  // ---------------------------------------------------------------------------

  /** The fields of a pytest `TestReport` the hook reads; `skipReason` is
      `longrepr[2]` of a skipped report. */
  datatype Report = Report(when: string, outcome: string, nodeid: string, longreprText: string, skipReason: string)

  /** A line of `status.<id>.jsonl`: its fields and the time `StatusFile.log` adds. */
  datatype StatusLine = StatusLine(fields: JsonObj, time: real)

  function StartFields(nodeid: string): JsonObj {
    map["type" := JStr("start"), "test" := JStr(nodeid)]
  }

  /** The record `pytest_runtest_logreport` writes: the phase, the outcome and the
      test, plus the failure text or the skip reason. */
  function ReportFields(r: Report): (o: JsonObj)
    ensures o.Keys == {"type", "outcome", "test"}
      + (if r.outcome == "failed" then {"exception"} else {})
      + (if r.outcome == "skipped" then {"reason"} else {})
    ensures o["type"] == JStr(r.when) && o["outcome"] == JStr(r.outcome) && TestId(o) == Some(r.nodeid)
    ensures r.outcome == "failed" ==> Exception(o) == Some(JStr(r.longreprText))
    ensures r.outcome == "skipped" ==> o["reason"] == JStr(r.skipReason)
  {
    var d := map["type" := JStr(r.when), "outcome" := JStr(r.outcome), "test" := JStr(r.nodeid)];
    if r.outcome == "failed" then d["exception" := JStr(r.longreprText)]
    else if r.outcome == "skipped" then d["reason" := JStr(r.skipReason)]
    else d
  }

  /** The record `pytest_runtest_logfinish` writes; an unset worst outcome is `null`. */
  function FinishFields(worst: Option<string>, nodeid: string): JsonObj {
    map["type" := JStr("finish"), "outcome" := (if worst.Some? then JStr(worst.value) else JNull), "test" := JStr(nodeid)]
  }

  /** The worst outcome after one report: a failure always wins, a skip only
      demotes `passed`. */
  function NextWorst(w: Option<string>, outcome: string): Option<string> {
    if outcome == "failed" then Some("failed")
    else if outcome == "skipped" && w == Some("passed") then Some("skipped")
    else w
  }

  function WorstAfter(w: Option<string>, outcomes: seq<string>): Option<string> {
    if outcomes == [] then w else NextWorst(WorstAfter(w, outcomes[..|outcomes| - 1]), outcomes[|outcomes| - 1])
  }

  /** The reference definition: failed if any report failed, else skipped if any was
      skipped, else passed. */
  function Worst(outcomes: seq<string>): string {
    if "failed" in outcomes then "failed" else if "skipped" in outcomes then "skipped" else "passed"
  }

  /** Started at `passed`, the tracked outcome is the worst of the reports. */
  lemma {:induction false} WorstOfReports(outcomes: seq<string>)
    ensures WorstAfter(Some("passed"), outcomes) == Some(Worst(outcomes))
  {
    if outcomes != [] {
      var init := outcomes[..|outcomes| - 1];
      WorstOfReports(init);
      assert outcomes == init + [outcomes[|outcomes| - 1]];
    }
  }

  /** Without a start, only a failure sets an outcome. */
  lemma {:induction false} WorstWithoutStart(outcomes: seq<string>)
    ensures WorstAfter(None, outcomes) == if "failed" in outcomes then Some("failed") else None
  {
    if outcomes != [] {
      var init := outcomes[..|outcomes| - 1];
      WorstWithoutStart(init);
      assert outcomes == init + [outcomes[|outcomes| - 1]];
    }
  }

  /** The server's status summary keeps a failed report's exception once the test's
      finish line, which has none, replaces the report. */
  lemma FailedTestKeepsException(nodeid: string, when: string, text: string, reason: string, t0: Json, t1: Json, t2: Json)
    ensures
      var start := StartFields(nodeid)["time" := t0];
      var report := ReportFields(Report(when, "failed", nodeid, text, reason))["time" := t1];
      var finish := FinishFields(NextWorst(Some("passed"), "failed"), nodeid)["time" := t2];
      FoldEvents(map[], [start, report, finish]) == Ok(map[nodeid := finish["exception" := JStr(text)]])
  {
    var start := StartFields(nodeid)["time" := t0];
    var report := ReportFields(Report(when, "failed", nodeid, text, reason))["time" := t1];
    var finish := FinishFields(NextWorst(Some("passed"), "failed"), nodeid)["time" := t2];
    var evs := [start, report, finish];
    assert [start][..0] == [] && TestId(start) == Some(nodeid);
    assert FoldEvents(map[], [start]) == Ok(map[nodeid := start]);
    assert evs[..2][..1] == [start] && evs[..2][1] == report && Exception(start).None?;
    assert TestId(report) == Some(nodeid) && Exception(report) == Some(JStr(text));
    assert map[nodeid := start][nodeid := report] == map[nodeid := report];
    assert FoldEvents(map[], evs[..2]) == Ok(map[nodeid := report]);
    assert TestId(finish) == Some(nodeid) && Exception(finish).None?;
    var stored := finish["exception" := JStr(text)];
    assert Merge(Some(report), finish) == stored;
    assert map[nodeid := report][nodeid := stored] == map[nodeid := stored];
    assert evs[..|evs| - 1] == evs[..2] && evs[|evs| - 1] == finish;
  }

  // ---------------------------------------------------------------------------
  // Plan building (`pytest_collection_finish`)
  // ---------------------------------------------------------------------------

  /** A collected item: whether it is a `pytest.Function`, and for a function its
      node id, `__name__`, `__module__` and `callspec.params` (empty without a
      callspec). */
  datatype CollectedItem = CollectedItem(isFunction: bool, nodeid: string, name: string, moduleName: string, params: Obj)

  /** Every collected item is a test function; any other item fails the `assert`. */
  predicate AllFunctions(items: seq<CollectedItem>) {
    forall i :: 0 <= i < |items| ==> items[i].isFunction
  }

  /** `plan.json`: the worker count, the groups in dict order and `row_params`. */
  datatype Plan = Plan(workerCount: Option<int>, groups: seq<(string, seq<PlanTestItem>)>, rowParams: set<string>)

  function PlanEntry(it: CollectedItem): PlanTestItem {
    PlanTestItem(it.nodeid, it.name, it.params)
  }

  function Names(groups: seq<(string, seq<PlanTestItem>)>): (ns: seq<string>)
    ensures |ns| == |groups| && forall i :: 0 <= i < |groups| ==> ns[i] == groups[i].0
  {
    if groups == [] then [] else [groups[0].0] + Names(groups[1..])
  }

  /** `groups[k]`, or nothing when the key is absent. */
  function TestsIn(groups: seq<(string, seq<PlanTestItem>)>, k: string): seq<PlanTestItem> {
    if groups == [] then [] else if groups[0].0 == k then groups[0].1 else TestsIn(groups[1..], k)
  }

  /** `groups.setdefault(m, []).append(t)` on a dict kept in insertion order. */
  function AddTest(groups: seq<(string, seq<PlanTestItem>)>, m: string, t: PlanTestItem): (r: seq<(string, seq<PlanTestItem>)>)
    ensures Names(r) == if m in Names(groups) then Names(groups) else Names(groups) + [m]
    ensures forall k :: TestsIn(r, k) == if k == m then TestsIn(groups, k) + [t] else TestsIn(groups, k)
  {
    if groups == [] then [(m, [t])]
    else if groups[0].0 == m then [(m, groups[0].1 + [t])] + groups[1..]
    else [groups[0]] + AddTest(groups[1..], m, t)
  }

  /** The groups after the first items of the session, in the order the loop adds them. */
  function GroupBy(items: seq<CollectedItem>): seq<(string, seq<PlanTestItem>)> {
    if items == [] then []
    else
      var it := items[|items| - 1];
      AddTest(GroupBy(items[..|items| - 1]), it.moduleName, PlanEntry(it))
  }

  function Modules(items: seq<CollectedItem>): (ms: seq<string>)
    ensures |ms| == |items| && forall i :: 0 <= i < |items| ==> ms[i] == items[i].moduleName
  {
    if items == [] then [] else Modules(items[..|items| - 1]) + [items[|items| - 1].moduleName]
  }

  /** The reference definition of a group: the entries of the items of module `m`,
      in session order. */
  function ItemsOf(items: seq<CollectedItem>, m: string): seq<PlanTestItem> {
    if items == [] then []
    else
      var it := items[|items| - 1];
      ItemsOf(items[..|items| - 1], m) + if it.moduleName == m then [PlanEntry(it)] else []
  }

  function KeySet(o: Obj): (s: set<string>)
    ensures forall k :: k in s <==> k in Keys(o)
  {
    set i | 0 <= i < |o| :: o[i].0
  }

  /** `row_params` after the items: unset before the first item, then intersected
      with each item's parameter names. */
  function RowParamsOf(items: seq<CollectedItem>): Option<set<string>> {
    if items == [] then None
    else
      var ks := KeySet(items[|items| - 1].params);
      match RowParamsOf(items[..|items| - 1])
      case None => Some(ks)
      case Some(s) => Some(s * ks)
  }

  /** Groups are keyed by module in order of first appearance, and each group lists
      the tests of its module in session order. */
  lemma {:induction false} GroupByMeaning(items: seq<CollectedItem>)
    ensures Names(GroupBy(items)) == Seqs.Dedup(Modules(items))
    ensures forall m :: TestsIn(GroupBy(items), m) == ItemsOf(items, m)
  {
    if items != [] {
      GroupByMeaning(items[..|items| - 1]);
      Seqs.DedupMembers(Modules(items[..|items| - 1]));
    }
  }

  /** `row_params` is unset exactly when there are no items; otherwise it holds the
      parameter names every item has. */
  lemma {:induction false} RowParamsMeaning(items: seq<CollectedItem>)
    ensures RowParamsOf(items).None? <==> items == []
    ensures RowParamsOf(items).Some? ==> forall k :: k in RowParamsOf(items).value <==> InEvery(items, k)
  {
    if items != [] {
      var init := items[..|items| - 1];
      RowParamsMeaning(init);
      forall k
        ensures k in RowParamsOf(items).value <==> InEvery(items, k)
      {
        InEverySnoc(items, k);
      }
    }
  }

  /** Every item has a parameter named `k`. */
  predicate InEvery(items: seq<CollectedItem>, k: string) {
    forall i :: 0 <= i < |items| ==> k in Keys(items[i].params)
  }

  lemma InEverySnoc(items: seq<CollectedItem>, k: string)
    requires items != []
    ensures InEvery(items, k) <==> InEvery(items[..|items| - 1], k) && k in Keys(items[|items| - 1].params)
  {
    var init := items[..|items| - 1];
    if InEvery(init, k) && k in Keys(items[|items| - 1].params) {
      forall i | 0 <= i < |items| ensures k in Keys(items[i].params) {
        if i < |init| {
          assert items[i] == init[i];
        }
      }
    }
  }

  /** One more item extends the grouping and narrows the row parameters. */
  lemma PlanStep(items: seq<CollectedItem>, i: nat)
    requires i < |items|
    ensures GroupBy(items[..i + 1]) == AddTest(GroupBy(items[..i]), items[i].moduleName, PlanEntry(items[i]))
    ensures RowParamsOf(items[..i + 1]) ==
      match RowParamsOf(items[..i])
      case None => Some(KeySet(items[i].params))
      case Some(s) => Some(s * KeySet(items[i].params))
  {
    assert items[..i + 1][..i] == items[..i];
  }

  lemma FunctionsStep(items: seq<CollectedItem>, i: nat)
    requires i < |items| && AllFunctions(items[..i]) && items[i].isFunction
    ensures AllFunctions(items[..i + 1])
  {
  }

  /** The body of the loop for one test function: `row_params` and `groups` take
      in item `i`. */
  method AddItem(items: seq<CollectedItem>, i: nat, groups: seq<(string, seq<PlanTestItem>)>, rowParams: Option<set<string>>)
    returns (groups': seq<(string, seq<PlanTestItem>)>, rowParams': Option<set<string>>)
    requires i < |items| && groups == GroupBy(items[..i]) && rowParams == RowParamsOf(items[..i])
    ensures groups' == GroupBy(items[..i + 1]) && rowParams' == RowParamsOf(items[..i + 1])
  {
    var it := items[i];
    var ks := KeySet(it.params);
    if rowParams.None? {
      rowParams' := Some(ks);
    } else {
      rowParams' := Some(rowParams.value * ks);
    }
    groups' := AddTest(groups, it.moduleName, PlanEntry(it));
    PlanStep(items, i);
  }

  /** The loop of `pytest_collection_finish`: groups by module and intersects the
      parameter names, item by item, and stops with a failed assertion (`ok` false)
      at the first item that is not a test function. */
  method BuildPlan(items: seq<CollectedItem>)
    returns (ok: bool, groups: seq<(string, seq<PlanTestItem>)>, rowParams: Option<set<string>>)
    ensures ok <==> AllFunctions(items)
    ensures ok ==> Names(groups) == Seqs.Dedup(Modules(items))
    ensures ok ==> forall m :: TestsIn(groups, m) == ItemsOf(items, m)
    ensures ok ==> rowParams == RowParamsOf(items)
  {
    groups := [];
    rowParams := None;
    for i := 0 to |items|
      invariant AllFunctions(items[..i])
      invariant groups == GroupBy(items[..i])
      invariant rowParams == RowParamsOf(items[..i])
    {
      var it := items[i];
      if !it.isFunction {
        return false, groups, rowParams;
      }
      FunctionsStep(items, i);
      groups, rowParams := AddItem(items, i, groups, rowParams);
    }
    assert items[..|items|] == items;
    GroupByMeaning(items);
    ok := true;
  }

  // ---------------------------------------------------------------------------
  // The plugin object
  // ---------------------------------------------------------------------------

  class Plugin {
    var logPath: Option<string>
    var workerId: Option<int>
    var workerCount: Option<int>
    var hasStatusFile: bool
    var worstOutcome: Option<string>
    /** The lines written to this worker's status file. */
    var status: seq<StatusLine>
    /** The plan written to `plan.json`, if any. */
    var plan: Option<Plan>

    constructor()
      ensures logPath == None && workerId == None && workerCount == None && !hasStatusFile
      ensures worstOutcome == None && status == [] && plan == None
    {
      logPath := None;
      workerId := None;
      workerCount := None;
      hasStatusFile := false;
      worstOutcome := None;
      status := [];
      plan := None;
    }

    /** `pytest_configure`: without `--livelog` nothing happens; otherwise the role is
        derived and a status file is opened when the process has a worker id. When
        parsing the worker count fails, the worker id 0 is already set. */
    method Configure(path: Option<string>, hasXdist: bool, env: XdistEnv) returns (r: Result<(), ConfigureError>)
      modifies this`logPath, this`workerId, this`workerCount, this`hasStatusFile
      ensures logPath == path
      ensures path.None? ==> r.Ok? && workerId == old(workerId) && workerCount == old(workerCount) && hasStatusFile == old(hasStatusFile)
      ensures path.Some? && DeriveWorker(hasXdist, env).Ok? ==>
        var role := DeriveWorker(hasXdist, env).value;
        && r.Ok?
        && workerId == (if role.workerId.Some? then role.workerId else old(workerId))
        && workerCount == (if role.workerCount.Some? then role.workerCount else old(workerCount))
        && hasStatusFile == (workerId.Some? || old(hasStatusFile))
      ensures path.Some? && DeriveWorker(hasXdist, env).Err? ==>
        && r == Err(DeriveWorker(hasXdist, env).error)
        && workerCount == old(workerCount) && hasStatusFile == old(hasStatusFile)
        && workerId == (if r.error == BadWorkerCount || r.error == MissingWorkerCount then Some(0) else old(workerId))
    {
      logPath := path;
      if path.None? {
        return Ok(());
      }
      match DeriveWorker(hasXdist, env)
      case Err(e) =>
        if e == BadWorkerCount || e == MissingWorkerCount {
          workerId := Some(0);
        }
        return Err(e);
      case Ok(role) =>
        if role.workerId.Some? {
          workerId := role.workerId;
        }
        if role.workerCount.Some? {
          workerCount := role.workerCount;
        }
        if workerId.Some? {
          hasStatusFile := true;
        }
        return Ok(());
    }

    /** `pytest_runtest_logstart`: the worst outcome starts at `passed` and a start
        line is written. */
    method LogStart(nodeid: string, now: real)
      modifies this`worstOutcome, this`status
      ensures hasStatusFile ==> worstOutcome == Some("passed") && status == old(status) + [StatusLine(StartFields(nodeid), now)]
      ensures !hasStatusFile ==> worstOutcome == old(worstOutcome) && status == old(status)
    {
      if hasStatusFile {
        worstOutcome := Some("passed");
        status := status + [StatusLine(StartFields(nodeid), now)];
      }
    }

    /** `pytest_runtest_logreport`: the report's record is written and the worst
        outcome updated. */
    method LogReport(report: Report, now: real)
      modifies this`worstOutcome, this`status
      ensures hasStatusFile ==> worstOutcome == NextWorst(old(worstOutcome), report.outcome)
      ensures hasStatusFile ==> status == old(status) + [StatusLine(ReportFields(report), now)]
      ensures !hasStatusFile ==> worstOutcome == old(worstOutcome) && status == old(status)
    {
      if hasStatusFile {
        if report.outcome == "failed" {
          worstOutcome := Some("failed");
        } else if report.outcome == "skipped" && worstOutcome == Some("passed") {
          worstOutcome := Some("skipped");
        }
        status := status + [StatusLine(ReportFields(report), now)];
      }
    }

    /** `pytest_runtest_logfinish`: the worst outcome is written and reset. */
    method LogFinish(nodeid: string, now: real)
      modifies this`worstOutcome, this`status
      ensures hasStatusFile ==> worstOutcome == None && status == old(status) + [StatusLine(FinishFields(old(worstOutcome), nodeid), now)]
      ensures !hasStatusFile ==> worstOutcome == old(worstOutcome) && status == old(status)
    {
      if hasStatusFile {
        status := status + [StatusLine(FinishFields(worstOutcome, nodeid), now)];
        worstOutcome := None;
      }
    }

    /** `pytest_collection_finish`: only worker 0 writes the plan; an empty session
        has no row parameters. An item that is not a test function fails the hook
        (`ok` false) before any plan is written. */
    method CollectionFinish(items: seq<CollectedItem>) returns (ok: bool)
      modifies this`plan
      ensures workerId != Some(0) ==> ok && plan == old(plan)
      ensures workerId == Some(0) ==> (ok <==> AllFunctions(items))
      ensures !ok ==> plan == old(plan)
      ensures workerId == Some(0) && ok ==> plan.Some? && plan.value.workerCount == workerCount
      ensures workerId == Some(0) && ok ==> Names(plan.value.groups) == Seqs.Dedup(Modules(items))
      ensures workerId == Some(0) && ok ==> forall m :: TestsIn(plan.value.groups, m) == ItemsOf(items, m)
      ensures workerId == Some(0) && ok ==> plan.value.rowParams == RowParamsOf(items).GetOr({})
    {
      if workerId != Some(0) {
        return true;
      }
      var groups, rowParams;
      ok, groups, rowParams := BuildPlan(items);
      if ok {
        plan := Some(Plan(workerCount, groups, if rowParams.None? then {} else rowParams.value));
      }
    }
  }
}
