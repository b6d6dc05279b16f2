/** What the grid built by `processTestPlan` means: the contents of the row and
    column keys, the uniqueness of the keys the items point at, and the column spans
    of the groups. */
module GridProps {
  import opened Wrappers
  import opened TestData
  import opened GridBuilder
  import Seqs

  /** A row key lists the row parameters, once each, in `row_params` order. */
  lemma {:induction false} RowKeyKeys(rowParams: seq<string>, params: Obj)
    ensures Keys(RowKey(rowParams, params)) == Seqs.Dedup(rowParams)
  {
    if |rowParams| > 0 {
      RowKeyKeys(rowParams[..|rowParams| - 1], params);
    }
  }

  /** A row key maps every row parameter to the test's value for it, or to "common"
      when the test lacks it, and holds nothing else. */
  lemma {:induction false} RowKeyGet(rowParams: seq<string>, params: Obj, k: string)
    ensures Get(RowKey(rowParams, params), k)
         == if k in rowParams then Some(Get(params, k).GetOr("common")) else None
  {
    if |rowParams| > 0 {
      var init, r := rowParams[..|rowParams| - 1], rowParams[|rowParams| - 1];
      assert rowParams == init + [r];
      RowKeyGet(init, params, k);
      if k != r {
        PutOther(RowKey(init, params), r, Get(params, r).GetOr("common"), k);
      }
    }
  }

  /** `col_data` after a run of parameter names: a name that is not a row parameter
      takes the test's value, anything else keeps its initial value. */
  lemma {:induction false} ColKeyOverGet(init: Obj, names: seq<string>, params: Obj, rowParams: seq<string>, k: string)
    ensures Get(ColKeyOver(init, names, params, rowParams), k)
         == if k in names && k !in rowParams && Get(params, k).Some? then Get(params, k) else Get(init, k)
  {
    if |names| > 0 {
      var front, n := names[..|names| - 1], names[|names| - 1];
      assert names == front + [n];
      ColKeyOverGet(init, front, params, rowParams, k);
      var acc := ColKeyOver(init, front, params, rowParams);
      if n !in rowParams && Get(params, n).Some? && k != n {
        PutOther(acc, n, Get(params, n).value, k);
      }
    }
  }

  /** A column key maps `group` and `test_name` to the test's group and name, and
      every parameter that is not a row parameter to the test's value; a parameter
      literally named `group` or `test_name` overrides the first two. */
  lemma ColKeyGet(e: Entry, rowParams: seq<string>, k: string)
    ensures Get(ColKey(e, rowParams), k)
         == if k in Keys(e.test.params) && k !in rowParams then Get(e.test.params, k)
            else if k == "group" then Some(e.group)
            else if k == "test_name" then Some(e.test.name)
            else None
  {
    ColKeyOverGet(ColInit(e), Keys(e.test.params), e.test.params, rowParams, k);
  }

  /** Every row (column) key occurs once, so an item's `row_idx` (`col_idx`) is the
      only row (column) whose key is the item's. */
  lemma ItemIndicesUnique(items: seq<TestItem>, es: seq<Entry>, rk: seq<Obj>, ck: seq<Obj>, k: nat, i: nat)
    requires ItemsBuilt(items, es, rk, ck, Seqs.Dedup(rk), Seqs.Dedup(ck), |es|) && k < |es|
    ensures i < |Seqs.Dedup(rk)| ==> (Seqs.Dedup(rk)[i] == rk[k] <==> i == items[k].rowIdx)
    ensures i < |Seqs.Dedup(ck)| ==> (Seqs.Dedup(ck)[i] == ck[k] <==> i == items[k].colIdx)
  {
    Seqs.DedupMembers(rk);
    Seqs.DedupMembers(ck);
    assert ItemBuilt(items[k], es[k], rk[k], ck[k], Seqs.Dedup(rk), Seqs.Dedup(ck));
  }

  /** Every test's row and column key is among the rows and columns, and every row
      and column is some test's key. */
  lemma KeysCovered(rk: seq<Obj>, ck: seq<Obj>)
    ensures forall x :: x in rk <==> x in Seqs.Dedup(rk)
    ensures forall x :: x in ck <==> x in Seqs.Dedup(ck)
  {
    Seqs.DedupMembers(rk);
    Seqs.DedupMembers(ck);
  }

  /** Number of tests in the first `h` groups. */
  function TestsBefore(plan: RunPlan, h: nat): (m: nat)
    requires h <= |plan.groups|
    ensures m <= |Entries(plan.groups)|
  {
    EntriesPrefix(plan.groups, h);
    |Entries(plan.groups[..h])|
  }

  lemma TestsBeforeMono(plan: RunPlan, h1: nat, h2: nat)
    requires h1 <= h2 <= |plan.groups|
    ensures TestsBefore(plan, h1) <= TestsBefore(plan, h2)
  {
    EntriesPrefix(plan.groups[..h2], h1);
    assert plan.groups[..h2][..h1] == plan.groups[..h1];
  }

  /** The first group starts at column 0. */
  lemma ColsBeforeFirst(plan: RunPlan)
    ensures ColsBefore(plan, 0) == 0
  {
    assert ColKeys(Entries(plan.groups), plan.rowParams)[..0] == [];
  }

  /** The last group ends at the last column. */
  lemma ColsBeforeLast(plan: RunPlan)
    ensures ColsBefore(plan, |plan.groups|) == |Seqs.Dedup(ColKeys(Entries(plan.groups), plan.rowParams))|
  {
    assert plan.groups[..|plan.groups|] == plan.groups;
    var ck := ColKeys(Entries(plan.groups), plan.rowParams);
    assert ck[..|ck|] == ck;
  }

  /** A later group never starts before an earlier one. */
  lemma ColsBeforeMono(plan: RunPlan, h1: nat, h2: nat)
    requires h1 <= h2 <= |plan.groups|
    ensures ColsBefore(plan, h1) <= ColsBefore(plan, h2)
  {
    TestsBeforeMono(plan, h1, h2);
    var ck := ColKeys(Entries(plan.groups), plan.rowParams);
    var m1, m2 := TestsBefore(plan, h1), TestsBefore(plan, h2);
    Seqs.DedupPrefix(ck[..m2], m1);
    assert ck[..m2][..m1] == ck[..m1];
  }

  /** Every column lies in the span of some group. */
  lemma {:induction false} SpanFound(plan: RunPlan, c: nat, h: nat)
    requires h <= |plan.groups| && c < ColsBefore(plan, h)
    ensures exists g :: 0 <= g < h && ColsBefore(plan, g) <= c < ColsBefore(plan, g + 1)
  {
    ColsBeforeFirst(plan);
    if ColsBefore(plan, h - 1) <= c {
      assert ColsBefore(plan, h - 1) <= c < ColsBefore(plan, h - 1 + 1);
    } else {
      SpanFound(plan, c, h - 1);
    }
  }

  /** No column lies in the spans of two different groups. */
  lemma SpansDisjoint(plan: RunPlan, c: nat, g1: nat, g2: nat)
    requires g1 < g2 < |plan.groups|
    requires ColsBefore(plan, g1) <= c < ColsBefore(plan, g1 + 1)
    ensures !(ColsBefore(plan, g2) <= c < ColsBefore(plan, g2 + 1))
  {
    ColsBeforeMono(plan, g1 + 1, g2);
  }

  /** The group spans cover every column: with `SpansDisjoint`, `ColsBeforeFirst`
      and `ColsBeforeLast` they partition the columns in group order. */
  lemma SpansCoverColumns(plan: RunPlan, c: nat)
    requires c < |Seqs.Dedup(ColKeys(Entries(plan.groups), plan.rowParams))|
    ensures exists g :: 0 <= g < |plan.groups| && ColsBefore(plan, g) <= c < ColsBefore(plan, g + 1)
  {
    ColsBeforeLast(plan);
    SpanFound(plan, c, |plan.groups|);
  }

  /** No test has a parameter named `group` that would override its column's group. */
  predicate NoGroupParam(plan: RunPlan)
  {
    forall g, t :: 0 <= g < |plan.groups| && 0 <= t < |plan.groups[g].1| ==>
      "group" in Keys(plan.groups[g].1[t].params) ==> "group" in plan.rowParams
  }

  /** Every column in group `h`'s span carries that group's name, provided no test
      overrides `group` with a parameter of its own. */
  lemma ColumnsOfGroup(plan: RunPlan, h: nat, c: nat)
    requires NoGroupParam(plan) && h < |plan.groups|
    requires ColsBefore(plan, h) <= c < ColsBefore(plan, h + 1)
    ensures var cols := Seqs.Dedup(ColKeys(Entries(plan.groups), plan.rowParams));
      c < |cols| && Get(cols[c], "group") == Some(plan.groups[h].0)
  {
    var es := Entries(plan.groups);
    var j := ColumnSource(plan, h, c);
    var m1 := TestsBefore(plan, h);
    assert es[j] == Entry(plan.groups[h].0, plan.groups[h].1[j - m1]) by {
      GroupInEntries(plan.groups, h);
      assert es[m1 + (j - m1)] == Entry(plan.groups[h].0, plan.groups[h].1[j - m1]);
    }
    ColKeysAt(es, plan.rowParams, j);
    ColKeyGet(es[j], plan.rowParams, "group");
  }

  /** The test whose column key is column `c`: one of group `h`'s tests when `c` lies
      in that group's span. */
  lemma ColumnSource(plan: RunPlan, h: nat, c: nat) returns (j: nat)
    requires h < |plan.groups|
    requires ColsBefore(plan, h) <= c < ColsBefore(plan, h + 1)
    ensures TestsBefore(plan, h) <= j < TestsBefore(plan, h + 1)
    ensures var ck := ColKeys(Entries(plan.groups), plan.rowParams);
      c < |Seqs.Dedup(ck)| && Seqs.Dedup(ck)[c] == ck[j]
  {
    var ck := ColKeys(Entries(plan.groups), plan.rowParams);
    var m1, m2 := TestsBefore(plan, h), TestsBefore(plan, h + 1);
    TestsBeforeMono(plan, h, h + 1);
    var s := ck[..m2];
    assert s[..m1] == ck[..m1];
    Seqs.DedupLateElement(s, m1, c);
    j :| m1 <= j < m2 && s[j] == Seqs.Dedup(s)[c];
    Seqs.DedupPrefix(ck, m2);
  }

}
