/** `TestDataProcessor.processTestPlan`: arranging a run plan as a grid of rows
    (one per combination of row-parameter values) and columns (one per group, test
    name and remaining parameters), deduplicated in first-encounter order. */
module GridBuilder {
  import opened Wrappers
  import opened TestData
  import Seqs

  /** One test of the plan together with the name of its group. */
  datatype Entry = Entry(group: string, test: PlanTestItem)

  function GroupEntries(g: (string, seq<PlanTestItem>)): (es: seq<Entry>)
    ensures |es| == |g.1|
    ensures forall t :: 0 <= t < |g.1| ==> es[t] == Entry(g.0, g.1[t])
  {
    seq(|g.1|, t requires 0 <= t < |g.1| => Entry(g.0, g.1[t]))
  }

  /** The plan's tests in the order the builder visits them. */
  function Entries(groups: seq<(string, seq<PlanTestItem>)>): seq<Entry>
  {
    if |groups| == 0 then []
    else Entries(groups[..|groups| - 1]) + GroupEntries(groups[|groups| - 1])
  }

  lemma EntriesStep(groups: seq<(string, seq<PlanTestItem>)>, g: nat)
    requires g < |groups|
    ensures Entries(groups[..g + 1]) == Entries(groups[..g]) + GroupEntries(groups[g])
  {
    assert groups[..g + 1][..g] == groups[..g];
  }

  lemma {:induction false} EntriesPrefix(groups: seq<(string, seq<PlanTestItem>)>, g: nat)
    requires g <= |groups|
    ensures Entries(groups[..g]) <= Entries(groups)
  {
    if g < |groups| {
      EntriesPrefix(groups[..|groups| - 1], g);
      assert groups[..|groups| - 1][..g] == groups[..g];
    } else {
      assert groups[..g] == groups;
    }
  }

  /** The row key built for a test with parameters `params`: every row parameter,
      in `rowParams` order, with the test's value or "common". */
  function RowKey(rowParams: seq<string>, params: Obj): Obj
  {
    if |rowParams| == 0 then []
    else
      var r := rowParams[|rowParams| - 1];
      Put(RowKey(rowParams[..|rowParams| - 1], params), r, Get(params, r).GetOr("common"))
  }

  /** `col_data` after visiting the parameter names `names` in order. */
  function ColKeyOver(init: Obj, names: seq<string>, params: Obj, rowParams: seq<string>): Obj
  {
    if |names| == 0 then init
    else
      var k := names[|names| - 1];
      var acc := ColKeyOver(init, names[..|names| - 1], params, rowParams);
      if k in rowParams then acc
      else match Get(params, k)
        case Some(v) => Put(acc, k, v)
        case None => acc
  }

  function ColInit(e: Entry): Obj {
    [("group", e.group), ("test_name", e.test.name)]
  }

  /** The column key built for a test: its group, its name, and every parameter that
      is not a row parameter. */
  function ColKey(e: Entry, rowParams: seq<string>): Obj {
    ColKeyOver(ColInit(e), Keys(e.test.params), e.test.params, rowParams)
  }

  /** The row key of every entry, in visiting order. */
  function RowKeys(es: seq<Entry>, rowParams: seq<string>): (ks: seq<Obj>)
    ensures |ks| == |es|
  {
    if |es| == 0 then [] else RowKeys(es[..|es| - 1], rowParams) + [RowKey(rowParams, es[|es| - 1].test.params)]
  }

  lemma {:induction false} RowKeysAt(es: seq<Entry>, rowParams: seq<string>, k: nat)
    requires k < |es|
    ensures RowKeys(es, rowParams)[k] == RowKey(rowParams, es[k].test.params)
  {
    if k < |es| - 1 {
      RowKeysAt(es[..|es| - 1], rowParams, k);
    }
  }

  /** The column key of every entry, in visiting order. */
  function ColKeys(es: seq<Entry>, rowParams: seq<string>): (ks: seq<Obj>)
    ensures |ks| == |es|
  {
    if |es| == 0 then [] else ColKeys(es[..|es| - 1], rowParams) + [ColKey(es[|es| - 1], rowParams)]
  }

  lemma {:induction false} ColKeysAt(es: seq<Entry>, rowParams: seq<string>, k: nat)
    requires k < |es|
    ensures ColKeys(es, rowParams)[k] == ColKey(es[k], rowParams)
  {
    if k < |es| - 1 {
      ColKeysAt(es[..|es| - 1], rowParams, k);
    }
  }

  function AsRows(keys: seq<Obj>): (rows: seq<Row>)
    ensures |rows| == |keys|
    ensures forall i :: 0 <= i < |keys| ==> rows[i] == Row(keys[i], true)
  {
    seq(|keys|, i requires 0 <= i < |keys| => Row(keys[i], true))
  }

  function AsCols(keys: seq<Obj>): (cols: seq<Col>)
    ensures |cols| == |keys|
    ensures forall i :: 0 <= i < |keys| ==> cols[i] == Col(keys[i], true)
  {
    seq(|keys|, i requires 0 <= i < |keys| => Col(keys[i], true))
  }

  /** Number of distinct column keys among the tests of the first `h` groups: the
      `cols.length` the builder sees when it reaches group `h`. */
  function ColsBefore(plan: RunPlan, h: nat): nat
    requires h <= |plan.groups|
  {
    EntriesPrefix(plan.groups, h);
    |Seqs.Dedup(ColKeys(Entries(plan.groups), plan.rowParams)[..|Entries(plan.groups[..h])|])|
  }

  /** A test item as the builder creates it for entry `e`, whose row key is `rowKey`
      and column key `colKey`, given the row and column key lists. */
  ghost predicate ItemBuilt(it: TestItem, e: Entry, rowKey: Obj, colKey: Obj, rows: seq<Obj>, cols: seq<Obj>)
  {
    && it.id == e.test.id && it.group == e.group && it.name == e.test.name
    && it.params == e.test.params
    && it.shown && it.status == Pending && it.progress == Number(0.0)
    && it.rowIdx < |rows| && rows[it.rowIdx] == rowKey
    && it.colIdx < |cols| && cols[it.colIdx] == colKey
  }

  /** The first `n` test items are those built for the first `n` entries, whose row
      and column keys are listed in `rk` and `ck`. */
  ghost predicate ItemsBuilt(items: seq<TestItem>, es: seq<Entry>, rk: seq<Obj>, ck: seq<Obj>,
                             rows: seq<Obj>, cols: seq<Obj>, n: nat)
  {
    && n <= |items| && n <= |es| && n <= |rk| && n <= |ck|
    && forall k :: 0 <= k < n ==> ItemBuilt(items[k], es[k], rk[k], ck[k], rows, cols)
  }

  /** `index[id]` is the position of the last of the first `n` entries with that id. */
  ghost predicate IndexBuilt(index: map<string, nat>, es: seq<Entry>, n: nat)
    requires n <= |es|
  {
    && (forall k :: 0 <= k < n ==> es[k].test.id in index)
    && (forall id :: id in index ==>
          index[id] < n && es[index[id]].test.id == id
          && forall k :: index[id] < k < n ==> es[k].test.id != id)
  }

  /** The inner `for (const row_name of raw_plan.row_params)` loop. */
  method RowData(rowParams: seq<string>, params: Obj) returns (row: Obj)
    ensures row == RowKey(rowParams, params)
  {
    row := [];
    for i := 0 to |rowParams|
      invariant row == RowKey(rowParams[..i], params)
    {
      assert rowParams[..i + 1][..i] == rowParams[..i];
      var name := rowParams[i];
      match Get(params, name)
      case Some(v) => row := Put(row, name, v);
      case None => row := Put(row, name, "common");
    }
    assert rowParams[..|rowParams|] == rowParams;
  }

  /** The `col_data` literal and the `for (const param_name in test.params)` loop. */
  method ColData(e: Entry, rowParams: seq<string>) returns (col: Obj)
    ensures col == ColKey(e, rowParams)
  {
    col := [("group", e.group), ("test_name", e.test.name)];
    var names := Keys(e.test.params);
    for i := 0 to |names|
      invariant col == ColKeyOver(ColInit(e), names[..i], e.test.params, rowParams)
    {
      assert names[..i + 1][..i] == names[..i];
      var name := names[i];
      if name !in rowParams {
        match Get(e.test.params, name)
        case Some(v) => col := Put(col, name, v);
        case None =>
      }
    }
    assert names[..|names|] == names;
  }

  /** The builder's working lists: `rows`/`rows_json`, `cols`/`cols_json`,
      `test_items` and `test_id_to_test_idx`. */
  datatype Builder = Builder(
    rows: seq<Row>, rowsJson: seq<Obj>,
    cols: seq<Col>, colsJson: seq<Obj>,
    testItems: seq<TestItem>, index: map<string, nat>)

  /** The builder has visited exactly the first `n` entries, whose keys are listed in
      `rk` and `ck`. */
  ghost predicate Visited(b: Builder, es: seq<Entry>, rk: seq<Obj>, ck: seq<Obj>, n: nat)
  {
    && n <= |es| && n <= |rk| && n <= |ck|
    && b.rowsJson == Seqs.Dedup(rk[..n]) && b.rows == AsRows(b.rowsJson)
    && b.colsJson == Seqs.Dedup(ck[..n]) && b.cols == AsCols(b.colsJson)
    && |b.testItems| == n
    && ItemsBuilt(b.testItems, es, rk, ck, b.rowsJson, b.colsJson, n)
    && IndexBuilt(b.index, es, n)
  }

  /** `indexOf` on the key list, pushing the key when it is new. */
  method FindOrAdd(keys: seq<Obj>, key: Obj) returns (idx: nat, keys': seq<Obj>)
    ensures keys' == if key in keys then keys else keys + [key]
    ensures idx < |keys'| && keys'[idx] == key
  {
    var i := Seqs.IndexOf(keys, key);
    if i == -1 {
      idx, keys' := |keys|, keys + [key];
    } else {
      idx, keys' := i, keys;
    }
  }

  lemma ItemsStep(items: seq<TestItem>, item: TestItem, es: seq<Entry>, rk: seq<Obj>, ck: seq<Obj>,
                  n: nat, rows: seq<Obj>, cols: seq<Obj>, rows': seq<Obj>, cols': seq<Obj>)
    requires |items| == n && n < |es| && n < |rk| && n < |ck|
    requires rows <= rows' && cols <= cols'
    requires ItemsBuilt(items, es, rk, ck, rows, cols, n)
    requires ItemBuilt(item, es[n], rk[n], ck[n], rows', cols')
    ensures ItemsBuilt(items + [item], es, rk, ck, rows', cols', n + 1)
  {
    forall k | 0 <= k < n + 1
      ensures ItemBuilt((items + [item])[k], es[k], rk[k], ck[k], rows', cols')
    {
      if k < n {
        assert ItemBuilt(items[k], es[k], rk[k], ck[k], rows, cols);
      }
    }
  }

  /** Packs the facts of one step into `Visited`. */
  lemma VisitedIntro(b: Builder, es: seq<Entry>, rk: seq<Obj>, ck: seq<Obj>, n: nat)
    requires n <= |es| && n <= |rk| && n <= |ck|
    requires b.rowsJson == Seqs.Dedup(rk[..n]) && b.rows == AsRows(b.rowsJson)
    requires b.colsJson == Seqs.Dedup(ck[..n]) && b.cols == AsCols(b.colsJson)
    requires |b.testItems| == n
    requires ItemsBuilt(b.testItems, es, rk, ck, b.rowsJson, b.colsJson, n)
    requires IndexBuilt(b.index, es, n)
    ensures Visited(b, es, rk, ck, n)
  {
  }

  lemma IndexStep(index: map<string, nat>, es: seq<Entry>, n: nat)
    requires n < |es| && IndexBuilt(index, es, n)
    ensures IndexBuilt(index[es[n].test.id := n], es, n + 1)
  {
  }

  /** Pushing a key found new keeps the key list equal to the distinct keys seen. */
  lemma KeysStep(all: seq<Obj>, n: nat, keys: seq<Obj>, keys': seq<Obj>)
    requires n < |all| && keys == Seqs.Dedup(all[..n])
    requires keys' == if all[n] in keys then keys else keys + [all[n]]
    ensures keys' == Seqs.Dedup(all[..n + 1])
  {
    Seqs.DedupSnoc(all, n);
  }

  lemma AsRowsSnoc(keys: seq<Obj>, key: Obj)
    ensures AsRows(keys + [key]) == AsRows(keys) + [Row(key, true)]
  {
  }

  lemma AsColsSnoc(keys: seq<Obj>, key: Obj)
    ensures AsCols(keys + [key]) == AsCols(keys) + [Col(key, true)]
  {
  }

  /** `rows_json.indexOf(row_json)`, pushing a new row when the key is new. */
  method AddRow(rows: seq<Row>, rowsJson: seq<Obj>, key: Obj, ghost all: seq<Obj>, ghost n: nat)
    returns (idx: nat, rows': seq<Row>, rowsJson': seq<Obj>)
    requires n < |all| && all[n] == key && rowsJson == Seqs.Dedup(all[..n]) && rows == AsRows(rowsJson)
    ensures rowsJson' == Seqs.Dedup(all[..n + 1]) && rows' == AsRows(rowsJson')
    ensures rowsJson <= rowsJson' && idx < |rowsJson'| && rowsJson'[idx] == all[n]
  {
    idx, rowsJson' := FindOrAdd(rowsJson, key);
    KeysStep(all, n, rowsJson, rowsJson');
    rows' := rows;
    if idx == |rowsJson| {
      rows' := rows + [Row(key, true)];
      AsRowsSnoc(rowsJson, key);
    }
  }

  /** `cols_json.indexOf(col_json)`, pushing a new column when the key is new. */
  method AddCol(cols: seq<Col>, colsJson: seq<Obj>, key: Obj, ghost all: seq<Obj>, ghost n: nat)
    returns (idx: nat, cols': seq<Col>, colsJson': seq<Obj>)
    requires n < |all| && all[n] == key && colsJson == Seqs.Dedup(all[..n]) && cols == AsCols(colsJson)
    ensures colsJson' == Seqs.Dedup(all[..n + 1]) && cols' == AsCols(colsJson')
    ensures colsJson <= colsJson' && idx < |colsJson'| && colsJson'[idx] == all[n]
  {
    idx, colsJson' := FindOrAdd(colsJson, key);
    KeysStep(all, n, colsJson, colsJson');
    cols' := cols;
    if idx == |colsJson| {
      cols' := cols + [Col(key, true)];
      AsColsSnoc(colsJson, key);
    }
  }

  /** The body of the inner loop: one test added to the grid. */
  method AddTest(b: Builder, groupName: string, test: PlanTestItem, rowParams: seq<string>,
                 ghost es: seq<Entry>, ghost rk: seq<Obj>, ghost ck: seq<Obj>, ghost n: nat)
    returns (b': Builder, ghost n': nat)
    requires Visited(b, es, rk, ck, n) && n < |es| && n < |rk| && n < |ck|
    requires es[n] == Entry(groupName, test)
    requires rk == RowKeys(es, rowParams) && ck == ColKeys(es, rowParams)
    ensures n' == n + 1 && Visited(b', es, rk, ck, n')
  {
    RowKeysAt(es, rowParams, n);
    ColKeysAt(es, rowParams, n);
    var rowData := RowData(rowParams, test.params);
    var colData := ColData(Entry(groupName, test), rowParams);
    var rowIdx, rows, rowsJson := AddRow(b.rows, b.rowsJson, rowData, rk, n);
    var colIdx, cols, colsJson := AddCol(b.cols, b.colsJson, colData, ck, n);
    var index := b.index[test.id := |b.testItems|];
    IndexStep(b.index, es, n);
    var item := TestItem(test.id, groupName, test.name, test.params, true, rowIdx, colIdx, Pending, Number(0.0));
    assert ItemBuilt(item, es[n], rk[n], ck[n], rowsJson, colsJson);
    ItemsStep(b.testItems, item, es, rk, ck, n, b.rowsJson, b.colsJson, rowsJson, colsJson);
    b' := Builder(rows, rowsJson, cols, colsJson, b.testItems + [item], index);
    n' := n + 1;
    VisitedIntro(b', es, rk, ck, n');
  }

  /** The tests of group `name` occupy positions `n`.. of the visiting order. */
  ghost predicate GroupAt(es: seq<Entry>, n: nat, name: string, group: seq<PlanTestItem>)
  {
    n + |group| <= |es| && forall t :: 0 <= t < |group| ==> es[n + t] == Entry(name, group[t])
  }

  /** Group `g`'s tests sit in the visiting order right after those of the groups before it. */
  lemma GroupInEntries(groups: seq<(string, seq<PlanTestItem>)>, g: nat)
    requires g < |groups|
    ensures |Entries(groups[..g])| + |groups[g].1| == |Entries(groups[..g + 1])|
    ensures GroupAt(Entries(groups), |Entries(groups[..g])|, groups[g].0, groups[g].1)
  {
    var all, pre, cur, ge := Entries(groups), Entries(groups[..g]), Entries(groups[..g + 1]), GroupEntries(groups[g]);
    EntriesStep(groups, g);
    EntriesPrefix(groups, g + 1);
    assert cur == pre + ge && cur <= all;
    forall t | 0 <= t < |groups[g].1|
      ensures all[|pre| + t] == Entry(groups[g].0, groups[g].1[t])
    {
      calc {
        all[|pre| + t];
        cur[|pre| + t];
        ge[t];
      }
    }
  }

  /** The builder's column count when it reaches group `g` is `ColsBefore(plan, g)`. */
  lemma ColsAtGroup(plan: RunPlan, g: nat, b: Builder, es: seq<Entry>, rk: seq<Obj>, ck: seq<Obj>, n: nat)
    requires g <= |plan.groups| && n == |Entries(plan.groups[..g])|
    requires es == Entries(plan.groups) && rk == RowKeys(es, plan.rowParams) && ck == ColKeys(es, plan.rowParams)
    requires Visited(b, es, rk, ck, n)
    ensures |b.cols| == ColsBefore(plan, g)
  {
  }

  /** The group spans recorded for the first `g` groups. */
  ghost predicate SpansBuilt(plan: RunPlan, testGroups: seq<TestGroup>, g: nat)
    requires g <= |plan.groups|
  {
    && |testGroups| == g
    && forall h :: 0 <= h < g ==>
         testGroups[h] == TestGroup(plan.groups[h].0, ColsBefore(plan, h), ColsBefore(plan, h + 1), true)
  }

  lemma SpansStep(plan: RunPlan, testGroups: seq<TestGroup>, g: nat)
    requires g < |plan.groups| && SpansBuilt(plan, testGroups, g)
    ensures SpansBuilt(plan, testGroups + [TestGroup(plan.groups[g].0, ColsBefore(plan, g), ColsBefore(plan, g + 1), true)], g + 1)
  {
  }

  /** The inner `for (const test of group)` loop. */
  method AddTests(b: Builder, groupName: string, group: seq<PlanTestItem>, rowParams: seq<string>,
                  ghost es: seq<Entry>, ghost rk: seq<Obj>, ghost ck: seq<Obj>, ghost n: nat)
    returns (b': Builder, ghost n': nat)
    requires rk == RowKeys(es, rowParams) && ck == ColKeys(es, rowParams)
    requires Visited(b, es, rk, ck, n) && GroupAt(es, n, groupName, group)
    ensures n' == n + |group| && Visited(b', es, rk, ck, n')
  {
    b', n' := b, n;
    for t := 0 to |group|
      invariant n' == n + t && Visited(b', es, rk, ck, n')
    {
      assert es[n + t] == Entry(groupName, group[t]);
      b', n' := AddTest(b', groupName, group[t], rowParams, es, rk, ck, n');
    }
  }

  /** Group `g` of the plan added to the grid. */
  method AddGroup(plan: RunPlan, g: nat, b: Builder, ghost es: seq<Entry>, ghost rk: seq<Obj>,
                  ghost ck: seq<Obj>, ghost n: nat) returns (b': Builder, ghost n': nat)
    requires g < |plan.groups| && n == |Entries(plan.groups[..g])|
    requires es == Entries(plan.groups) && rk == RowKeys(es, plan.rowParams) && ck == ColKeys(es, plan.rowParams)
    requires Visited(b, es, rk, ck, n)
    ensures n' == |Entries(plan.groups[..g + 1])|
    ensures Visited(b', es, rk, ck, n')
  {
    GroupInEntries(plan.groups, g);
    b', n' := AddTests(b, plan.groups[g].0, plan.groups[g].1, plan.rowParams, es, rk, ck, n);
  }

  lemma VisitedNone(es: seq<Entry>, rk: seq<Obj>, ck: seq<Obj>)
    ensures Visited(Builder([], [], [], [], [], map[]), es, rk, ck, 0)
  {
    assert rk[..0] == [] && ck[..0] == [];
  }

  /** The outer `for (const [group_name, group] of raw_plan.groups)` loop. */
  method AddGroups(plan: RunPlan) returns (b: Builder, testGroups: seq<TestGroup>)
    ensures var es := Entries(plan.groups);
      Visited(b, es, RowKeys(es, plan.rowParams), ColKeys(es, plan.rowParams), |es|)
    ensures SpansBuilt(plan, testGroups, |plan.groups|)
  {
    ghost var es := Entries(plan.groups);
    ghost var rk, ck := RowKeys(es, plan.rowParams), ColKeys(es, plan.rowParams);
    b := Builder([], [], [], [], [], map[]);
    testGroups := [];
    ghost var n := 0;
    VisitedNone(es, rk, ck);
    for g := 0 to |plan.groups|
      invariant n == |Entries(plan.groups[..g])|
      invariant Visited(b, es, rk, ck, n)
      invariant SpansBuilt(plan, testGroups, g)
    {
      var groupStartIdx := |b.cols|;
      ColsAtGroup(plan, g, b, es, rk, ck, n);
      b, n := AddGroup(plan, g, b, es, rk, ck, n);
      ColsAtGroup(plan, g + 1, b, es, rk, ck, n);
      SpansStep(plan, testGroups, g);
      testGroups := testGroups + [TestGroup(plan.groups[g].0, groupStartIdx, |b.cols|, true)];
    }
    assert plan.groups[..|plan.groups|] == plan.groups;
  }

  /** Having visited every entry, the working lists hold the whole plan. */
  lemma VisitedAll(b: Builder, es: seq<Entry>, rk: seq<Obj>, ck: seq<Obj>)
    requires |rk| == |es| && |ck| == |es| && Visited(b, es, rk, ck, |es|)
    ensures b.rowsJson == Seqs.Dedup(rk) && b.rows == AsRows(b.rowsJson)
    ensures b.colsJson == Seqs.Dedup(ck) && b.cols == AsCols(b.colsJson)
  {
    assert rk[..|es|] == rk && ck[..|es|] == ck;
  }

  /** What `processTestPlan` makes of a raw plan, apart from the plan id: rows and
      columns are the distinct row and column keys in first-encounter order, every
      test item points at its own keys, the id index keeps the last test with each
      id, each group spans the columns it added, and the row parameters are kept. */
  ghost predicate Processed(plan: RunPlan, p: ProcessedPlan) {
    var es := Entries(plan.groups);
    var rk, ck := RowKeys(es, plan.rowParams), ColKeys(es, plan.rowParams);
    && p.rows == AsRows(Seqs.Dedup(rk))
    && p.cols == AsCols(Seqs.Dedup(ck))
    && |p.testItems| == |es|
    && (forall k {:trigger ItemBuilt(p.testItems[k], es[k], rk[k], ck[k], Seqs.Dedup(rk), Seqs.Dedup(ck))} ::
          0 <= k < |es| ==> ItemBuilt(p.testItems[k], es[k], rk[k], ck[k], Seqs.Dedup(rk), Seqs.Dedup(ck)))
    && IndexBuilt(p.testIdToTestIdx, es, |es|)
    && |p.testGroups| == |plan.groups|
    && (forall h {:trigger p.testGroups[h]} :: 0 <= h < |plan.groups| ==>
          p.testGroups[h] == TestGroup(plan.groups[h].0, ColsBefore(plan, h), ColsBefore(plan, h + 1), true))
    && p.rowParams == plan.rowParams
  }

  /** The plan id is not part of what processing decides. */
  lemma ProcessedIgnoresId(plan: RunPlan, p: ProcessedPlan, id: nat)
    requires Processed(plan, p)
    ensures Processed(plan, p.(id := id))
  {
  }

  /** Builds the grid, with plan id 0. */
  method ProcessTestPlan(plan: RunPlan) returns (p: ProcessedPlan)
    ensures Processed(plan, p) && p.id == 0
  {
    var b, testGroups := AddGroups(plan);
    ghost var es := Entries(plan.groups);
    VisitedAll(b, es, RowKeys(es, plan.rowParams), ColKeys(es, plan.rowParams));
    p := ProcessedPlan(0, b.testItems, b.index, b.rows, b.cols, testGroups, plan.rowParams);
  }
  /** What a built plan guarantees its status consumer: every test is pending, and
      the id map points at the item of that id. */
  lemma BuiltItems(items: seq<TestItem>, index: map<string, nat>, es: seq<Entry>, rk: seq<Obj>, ck: seq<Obj>)
    requires |items| == |es|
    requires ItemsBuilt(items, es, rk, ck, Seqs.Dedup(rk), Seqs.Dedup(ck), |es|)
    requires IndexBuilt(index, es, |es|)
    ensures forall k :: 0 <= k < |es| ==>
      items[k].id == es[k].test.id && items[k].status == Pending && es[k].test.id in index
    ensures forall id :: id in index ==> index[id] < |items| && items[index[id]].id == id
  {
    assert forall k :: 0 <= k < |es| ==>
      ItemBuilt(items[k], es[k], rk[k], ck[k], Seqs.Dedup(rk), Seqs.Dedup(ck));
  }
}
