/** The per-test rules of the two status reducers of the frontend: the rule chain
    inside `TestDataProcessor.testStatusCallback` and the older standalone
    `statusUpdateReducer`. Each classifies an event into the change it makes to
    the addressed test item. */
module StatusRules {
  import opened Wrappers
  import opened TestData

  /** What an event does to the test item it addresses. */
  datatype Action =
    | Recount                               // `summary_done`: recount, the item is untouched
    | SetStatus(status: Status, progress: JsNumber)
    | ProgressIfActive(progress: JsNumber)  // only a pending or running item changes
    | Ignore                                // no change
    | Unknown                               // logged and skipped

  predicate IsFailure(e: StatusEvent) {
    e.outcome == Some(Failed) || e.outcome == Some(Error)
  }

  /** The rule chain of `testStatusCallback`, in source order. */
  function CallbackAction(e: StatusEvent): Action
  {
    if e.kind == SummaryDoneType then Recount
    else if IsFailure(e) then SetStatus(Fail, Number(1.0))
    else if e.outcome == Some(Skipped) then SetStatus(Skip, Number(1.0))
    else if e.kind == SetupType || e.kind == StartType then SetStatus(Progress, Number(0.0))
    else if e.kind == FinishType && e.outcome == Some(Passed) then SetStatus(Success, Number(1.0))
    else if e.kind == ProgressType then ProgressIfActive(NumberOf(e.percentage))
    else if e.kind == CallType || e.kind == TeardownType then Ignore
    else Unknown
  }

  /** The rule chain of `statusUpdateReducer`: no `summary_done` or `setup` rule, and a
      progress event copies the `progress` field. Anything else is logged and ignored. */
  function ReducerAction(e: StatusEvent): Action
  {
    if IsFailure(e) then SetStatus(Fail, Number(1.0))
    else if e.outcome == Some(Skipped) then SetStatus(Skip, Number(1.0))
    else if e.kind == StartType then SetStatus(Progress, Number(0.0))
    else if e.kind == FinishType && e.outcome == Some(Passed) then SetStatus(Success, Number(1.0))
    else if e.kind == ProgressType then ProgressIfActive(NumberOf(e.progress))
    else Ignore
  }

  predicate Active(s: Status) {
    s == Pending || s == Progress
  }

  /** The item after the action; every other field of the item is kept. */
  function Apply(a: Action, it: TestItem): (r: TestItem)
    ensures r.id == it.id && r.group == it.group && r.name == it.name && r.params == it.params
    ensures r.shown == it.shown && r.rowIdx == it.rowIdx && r.colIdx == it.colIdx
    ensures a.SetStatus? ==> r.status == a.status && r.progress == a.progress
    ensures a.ProgressIfActive? && Active(it.status) ==> r.status == Progress && r.progress == a.progress
    ensures !a.SetStatus? && !(a.ProgressIfActive? && Active(it.status)) ==> r == it
  {
    match a
    case SetStatus(s, p) => it.(status := s, progress := p)
    case ProgressIfActive(p) => if Active(it.status) then it.(status := Progress, progress := p) else it
    case _ => it
  }

  /** A failed or errored outcome wins over every type rule (except `summary_done` in
      the callback); a skipped outcome wins over every type rule too. */
  lemma OutcomeRulesFirst(e: StatusEvent)
    ensures IsFailure(e) ==> ReducerAction(e) == SetStatus(Fail, Number(1.0))
    ensures IsFailure(e) && e.kind != SummaryDoneType ==> CallbackAction(e) == SetStatus(Fail, Number(1.0))
    ensures e.outcome == Some(Skipped) ==> ReducerAction(e) == SetStatus(Skip, Number(1.0))
    ensures e.outcome == Some(Skipped) && e.kind != SummaryDoneType ==> CallbackAction(e) == SetStatus(Skip, Number(1.0))
  {
  }

  /** A `finish` event with a `passed` outcome makes a test successful, whatever its
      status was, and no other event makes an unsuccessful test successful. */
  lemma SuccessIffPassedFinish(e: StatusEvent, it: TestItem)
    ensures Apply(CallbackAction(e), it).status == Success && it.status != Success
            ==> e.kind == FinishType && e.outcome == Some(Passed)
    ensures Apply(ReducerAction(e), it).status == Success && it.status != Success
            ==> e.kind == FinishType && e.outcome == Some(Passed)
    ensures e.kind == FinishType && e.outcome == Some(Passed) ==>
            Apply(CallbackAction(e), it).status == Success && Apply(ReducerAction(e), it).status == Success
  {
  }

  /** A progress event never revives a finished test (success, failure or skip). */
  lemma ProgressKeepsFinished(e: StatusEvent, it: TestItem)
    requires e.kind == ProgressType && !IsFailure(e) && e.outcome != Some(Skipped)
    requires !Active(it.status)
    ensures Apply(CallbackAction(e), it) == it
    ensures Apply(ReducerAction(e), it) == it
  {
  }

  /** Applying the same event twice changes nothing more than applying it once. */
  lemma ApplyIdempotent(a: Action, it: TestItem)
    ensures Apply(a, Apply(a, it)) == Apply(a, it)
  {
  }

  /** The two reducers agree on every event except `summary_done`, `setup` and
      `progress`, and on `progress` too when the event's `percentage` and `progress`
      fields agree. */
  lemma ReducersAgree(e: StatusEvent, it: TestItem)
    requires e.kind != SummaryDoneType && e.kind != SetupType
    requires e.kind == ProgressType ==> e.percentage == e.progress
    ensures Apply(CallbackAction(e), it) == Apply(ReducerAction(e), it)
  {
  }

  /** A passed `setup` event starts a pending test in the callback but is left
      alone by the standalone reducer. */
  lemma SetupDiffers(it: TestItem)
    requires it.status == Pending
    ensures var e := StatusEvent(SetupType, Some(Passed), Some(it.id), None, None);
      Apply(CallbackAction(e), it).status == Progress && Apply(ReducerAction(e), it) == it
  {
  }

  /** A progress event as the plugin writes it carries `percentage` and no `progress`:
      the standalone reducer then stores an undefined progress. */
  lemma ReducerReadsProgressField(it: TestItem, pct: real)
    requires Active(it.status)
    ensures var e := StatusEvent(ProgressType, None, Some(it.id), Some(pct), None);
      && Apply(ReducerAction(e), it).progress == Undefined
      && Apply(CallbackAction(e), it).progress == Number(pct)
  {
  }
}
