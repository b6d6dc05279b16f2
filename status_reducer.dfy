/** The standalone `statusUpdateReducer`: applies one status event to the test item
    at `idx` of a list that is updated in place. */
module StatusReducer {
  import opened Wrappers
  import opened TestData
  import opened StatusRules

  /** Updates `items[idx]` as `ReducerAction` says and leaves every other item alone.
      Every rule reads or writes the item, so only an event no rule matches (logged
      and skipped) may come with an index outside the list. */
  method StatusUpdateReducer(e: StatusEvent, items: array<TestItem>, idx: nat)
    requires ReducerAction(e) != Ignore ==> idx < items.Length
    modifies items
    ensures idx < items.Length ==> items[..] == old(items[..])[idx := Apply(ReducerAction(e), old(items[idx]))]
    ensures ReducerAction(e) == Ignore ==> items[..] == old(items[..])
  {
    if e.outcome == Some(Failed) || e.outcome == Some(Error) {
      items[idx] := items[idx].(status := Fail, progress := Number(1.0));
      return;
    } else if e.outcome == Some(Skipped) {
      items[idx] := items[idx].(status := Skip, progress := Number(1.0));
    } else if e.kind == StartType {
      items[idx] := items[idx].(status := Progress, progress := Number(0.0));
    } else if e.kind == FinishType && e.outcome == Some(Passed) {
      items[idx] := items[idx].(status := Success, progress := Number(1.0));
    } else if e.kind == ProgressType {
      var current := items[idx].status;
      if current == Pending || current == Progress {
        items[idx] := items[idx].(status := Progress, progress := NumberOf(e.progress));
      }
    }
  }
}
