/** `TestDataProcessor`: holds the processed plan of the selected run and folds the
    status events of `testStatusCallback` into it, with the success countdown that
    fires `surprise`. */
module TestStatus {
  import opened Wrappers
  import opened TestData
  import opened StatusRules
  import GridBuilder

  /** What the processor hands to its subscriber. */
  datatype ProcessorEvent = Reset | PlanReady(plan: ProcessedPlan) | StatusUpdate(testIdx: nat) | Surprise

  /** The part of the processor a status event changes. */
  datatype ProcState = ProcState(items: seq<TestItem>, successesLeft: Option<int>, emitted: seq<ProcessorEvent>)

  /** The property key a JavaScript object lookup uses for the event's `test` field:
      an absent field is looked up as the string "undefined". */
  function LookupKey(e: StatusEvent): string {
    e.test.GetOr("undefined")
  }

  /** Every index of the id map points into the item list. */
  predicate IndexValid(index: map<string, nat>, n: nat) {
    forall id :: id in index ==> index[id] < n
  }

  /** The event's test must exist when a rule dereferences it. */
  predicate Resolvable(index: map<string, nat>, e: StatusEvent) {
    var a := CallbackAction(e);
    (a.SetStatus? || a.ProgressIfActive?) ==> LookupKey(e) in index
  }

  /** Number of items whose status is not `success`. */
  function NonSuccess(items: seq<TestItem>): (n: nat)
    ensures n <= |items|
  {
    if items == [] then 0
    else NonSuccess(items[..|items| - 1]) + (if items[|items| - 1].status != Success then 1 else 0)
  }

  /** Replacing one item changes the count by that item's contribution only. */
  lemma {:induction false} NonSuccessUpdate(items: seq<TestItem>, i: nat, x: TestItem)
    requires i < |items|
    ensures NonSuccess(items[i := x])
         == NonSuccess(items) - (if items[i].status != Success then 1 else 0)
                              + (if x.status != Success then 1 else 0)
  {
    var last := |items| - 1;
    var s' := items[i := x];
    assert s'[..last] == if i == last then items[..last] else items[..last][i := x];
    if i < last {
      NonSuccessUpdate(items[..last], i, x);
    }
  }

  /** The position of the event's test, when its id resolves. */
  function Addressed(index: map<string, nat>, e: StatusEvent): Option<nat> {
    if LookupKey(e) in index then Some(index[LookupKey(e)]) else None
  }

  function StatusAt(items: seq<TestItem>, at: Option<nat>): Option<Status>
    requires at.Some? ==> at.value < |items|
  {
    if at.Some? then Some(items[at.value].status) else None
  }

  /** The items after the rule: only the addressed one changes. */
  function NewItems(index: map<string, nat>, items: seq<TestItem>, e: StatusEvent): (r: seq<TestItem>)
    requires IndexValid(index, |items|)
    ensures |r| == |items|
  {
    match Addressed(index, e)
    case Some(i) => items[i := Apply(CallbackAction(e), items[i])]
    case None => items
  }

  /** The countdown after the rule chain: `summary_done` restarts it. */
  function LeftAfterRule(s: ProcState, e: StatusEvent): Option<int> {
    if CallbackAction(e).Recount? then Some(NonSuccess(s.items)) else s.successesLeft
  }

  /** The countdown after the surprise check, given the count before it and the
      addressed test's status before and after. */
  function Countdown(left: Option<int>, oldStatus: Option<Status>, newStatus: Option<Status>): Option<int>
  {
    if left.None? then None
    else if oldStatus != Some(Success) && newStatus == Some(Success) then
      if left.value > 0 then Some(left.value - 1) else left
    else if oldStatus == Some(Success) && newStatus != Some(Success) then Some(left.value + 1)
    else left
  }

  function NewLeft(index: map<string, nat>, s: ProcState, e: StatusEvent): Option<int>
    requires IndexValid(index, |s.items|)
  {
    var at := Addressed(index, e);
    Countdown(LeftAfterRule(s, e), StatusAt(s.items, at), StatusAt(NewItems(index, s.items, e), at))
  }

  /** The events one handled status event emits: `status_update` when its id
      resolves, then `surprise` when the countdown has just reached zero. */
  function NewEvents(index: map<string, nat>, s: ProcState, e: StatusEvent): seq<ProcessorEvent>
    requires IndexValid(index, |s.items|)
  {
    var at := Addressed(index, e);
    var left := LeftAfterRule(s, e);
    (if at.Some? then [StatusUpdate(at.value)] else [])
    + (if left.Some? && left.value > 0 && NewLeft(index, s, e) == Some(0) then [Surprise] else [])
  }

  /** One pass of the loop body of `testStatusCallback`; an unknown event is skipped. */
  function Step(index: map<string, nat>, s: ProcState, e: StatusEvent): (r: ProcState)
    requires IndexValid(index, |s.items|) && Resolvable(index, e)
    ensures |r.items| == |s.items|
  {
    if CallbackAction(e).Unknown? then s
    else ProcState(NewItems(index, s.items, e), NewLeft(index, s, e), s.emitted + NewEvents(index, s, e))
  }

  /** The loop of `testStatusCallback` over a chunk. */
  function Run(index: map<string, nat>, s: ProcState, chunk: seq<StatusEvent>): (r: ProcState)
    requires IndexValid(index, |s.items|)
    requires forall i :: 0 <= i < |chunk| ==> Resolvable(index, chunk[i])
    ensures |r.items| == |s.items|
  {
    if chunk == [] then s
    else Step(index, Run(index, s, chunk[..|chunk| - 1]), chunk[|chunk| - 1])
  }

  /** The countdown, once started, equals the number of items not yet successful. */
  predicate CountdownExact(s: ProcState) {
    s.successesLeft.Some? ==> s.successesLeft.value == NonSuccess(s.items)
  }

  /** `summary_done` starts the countdown at the number of unsuccessful items, and
      every event keeps it exact. */
  lemma StepKeepsCountdown(index: map<string, nat>, s: ProcState, e: StatusEvent)
    requires IndexValid(index, |s.items|) && Resolvable(index, e)
    requires CountdownExact(s) || e.kind == SummaryDoneType
    ensures CountdownExact(Step(index, s, e))
    ensures e.kind == SummaryDoneType ==> Step(index, s, e).successesLeft == Some(NonSuccess(s.items))
  {
    var key := LookupKey(e);
    if key in index && !CallbackAction(e).Unknown? {
      NonSuccessUpdate(s.items, index[key], Apply(CallbackAction(e), s.items[index[key]]));
    }
  }

  lemma {:induction false} RunKeepsCountdown(index: map<string, nat>, s: ProcState, chunk: seq<StatusEvent>)
    requires IndexValid(index, |s.items|)
    requires forall i :: 0 <= i < |chunk| ==> Resolvable(index, chunk[i])
    requires CountdownExact(s)
    ensures CountdownExact(Run(index, s, chunk))
  {
    if chunk != [] {
      RunKeepsCountdown(index, s, chunk[..|chunk| - 1]);
      StepKeepsCountdown(index, Run(index, s, chunk[..|chunk| - 1]), chunk[|chunk| - 1]);
    }
  }

  /** An unknown event changes nothing. Any other event changes only the addressed
      item, as the callback's rule says, and appends `status_update` for it exactly
      when its id resolves, followed by at most a `surprise`. */
  lemma StepEffect(index: map<string, nat>, s: ProcState, e: StatusEvent)
    requires IndexValid(index, |s.items|) && Resolvable(index, e)
    ensures CallbackAction(e).Unknown? ==> Step(index, s, e) == s
    ensures !CallbackAction(e).Unknown? ==>
      var out := NewEvents(index, s, e);
      && Step(index, s, e).emitted == s.emitted + out
      && (forall i :: 0 <= i < |s.items| && Addressed(index, e) != Some(i) ==> Step(index, s, e).items[i] == s.items[i])
      && (LookupKey(e) in index ==>
            var i := index[LookupKey(e)];
            Step(index, s, e).items[i] == Apply(CallbackAction(e), s.items[i]) && |out| >= 1 && out[0] == StatusUpdate(i))
      && (LookupKey(e) !in index ==> Step(index, s, e).items == s.items && out == [])
      && (forall k :: 1 <= k < |out| ==> out[k] == Surprise)
      && |out| <= 2
  {
  }

  /** With an exact countdown, `surprise` is emitted exactly when the event moves its
      test into `success` and thereby leaves no unsuccessful item. */
  lemma SurpriseExactly(index: map<string, nat>, s: ProcState, e: StatusEvent)
    requires IndexValid(index, |s.items|) && Resolvable(index, e)
    requires CountdownExact(s) && s.successesLeft.Some? && !CallbackAction(e).Unknown?
    ensures var key := LookupKey(e); var r := Step(index, s, e);
      Surprise in NewEvents(index, s, e) <==>
        && key in index
        && s.items[index[key]].status != Success && r.items[index[key]].status == Success
        && NonSuccess(r.items) == 0
  {
    var key := LookupKey(e);
    if key in index {
      NonSuccessUpdate(s.items, index[key], Apply(CallbackAction(e), s.items[index[key]]));
    }
  }

  /** Before `summary_done` there is no countdown and no `surprise`. */
  lemma NoSurpriseBeforeSummary(index: map<string, nat>, s: ProcState, e: StatusEvent)
    requires IndexValid(index, |s.items|) && Resolvable(index, e)
    requires s.successesLeft.None? && e.kind != SummaryDoneType
    ensures Step(index, s, e).successesLeft.None? && Surprise !in Step(index, s, e).emitted[|s.emitted|..]
  {
  }

  /** `processTestPlan` as the processor relies on it: the processed plan, with an
      id map that points into its items. */
  method ProcessPlan(raw: RunPlan) returns (p: ProcessedPlan)
    ensures GridBuilder.Processed(raw, p) && p.id == 0
    ensures IndexValid(p.testIdToTestIdx, |p.testItems|)
  {
    p := GridBuilder.ProcessTestPlan(raw);
    ProcessedItems(raw, p);
  }

  /** A processed plan has one pending item per test, in plan order, and an id map
      that points at the item of that id. */
  lemma ProcessedItems(raw: RunPlan, p: ProcessedPlan)
    requires GridBuilder.Processed(raw, p)
    ensures var es := GridBuilder.Entries(raw.groups);
      && |p.testItems| == |es|
      && (forall k :: 0 <= k < |es| ==>
            p.testItems[k].id == es[k].test.id && p.testItems[k].status == Pending && es[k].test.id in p.testIdToTestIdx)
      && (forall id :: id in p.testIdToTestIdx ==>
            p.testIdToTestIdx[id] < |p.testItems| && p.testItems[p.testIdToTestIdx[id]].id == id)
  {
    var es := GridBuilder.Entries(raw.groups);
    GridBuilder.BuiltItems(p.testItems, p.testIdToTestIdx, es,
      GridBuilder.RowKeys(es, raw.rowParams), GridBuilder.ColKeys(es, raw.rowParams));
  }

  class TestDataProcessor {
    var items: array<TestItem>
    var index: map<string, nat>
    var successesLeft: Option<int>
    var emitted: seq<ProcessorEvent>
    var nextPlanId: nat

    ghost predicate Valid()
      reads this
    {
      IndexValid(index, items.Length)
    }

    function State(): ProcState
      reads this, items
    {
      ProcState(items[..], successesLeft, emitted)
    }

    /** A processor before any run is selected: an empty plan. */
    constructor ()
      ensures Valid() && items.Length == 0 && index == map[]
      ensures successesLeft.None? && emitted == [] && nextPlanId == 0
    {
      items := new TestItem[0];
      index := map[];
      successesLeft := None;
      emitted := [];
      nextPlanId := 0;
    }

    /** `setTestRun` once its plan has arrived: reset, drop the countdown, install
        the processed plan under the next plan id and announce it. */
    method SetTestRun(raw: RunPlan) returns (ghost published: ProcessedPlan)
      modifies this
      ensures Valid() && fresh(items)
      ensures successesLeft.None? && nextPlanId == old(nextPlanId) + 1
      ensures emitted == old(emitted) + [Reset, PlanReady(published)]
      ensures GridBuilder.Processed(raw, published) && published.id == old(nextPlanId)
      ensures items[..] == published.testItems && index == published.testIdToTestIdx
    {
      emitted := emitted + [Reset];
      successesLeft := None;
      var p := ProcessPlan(raw);
      published := p.(id := nextPlanId);
      InstallPlan(p);
    }

    /** Stores a processed plan under the next plan id and announces it. */
    method InstallPlan(p: ProcessedPlan)
      requires IndexValid(p.testIdToTestIdx, |p.testItems|)
      modifies this
      ensures Valid() && fresh(items) && items[..] == p.testItems && index == p.testIdToTestIdx
      ensures successesLeft == old(successesLeft) && nextPlanId == old(nextPlanId) + 1
      ensures emitted == old(emitted) + [PlanReady(p.(id := old(nextPlanId)))]
    {
      var id := nextPlanId;
      nextPlanId := nextPlanId + 1;
      items := new TestItem[|p.testItems|](i requires 0 <= i < |p.testItems| => p.testItems[i]);
      index := p.testIdToTestIdx;
      emitted := emitted + [PlanReady(p.(id := id))];
    }

    /** The recount loop of `summary_done`. */
    method CountNonSuccess() returns (n: nat)
      ensures n == NonSuccess(items[..])
    {
      n := 0;
      var i := 0;
      while i < items.Length
        invariant 0 <= i <= items.Length
        invariant n == NonSuccess(items[..i])
      {
        assert items[..i + 1][..i] == items[..i];
        if items[i].status != Success {
          n := n + 1;
        }
        i := i + 1;
      }
      assert items[..i] == items[..];
    }

    /** The rule chain for one event; false for an unknown event, which the loop
        skips with `continue`. */
    method ApplyRule(e: StatusEvent, found: bool, idx: nat) returns (handled: bool)
      requires Valid() && Resolvable(index, e)
      requires found == (LookupKey(e) in index) && (found ==> idx == index[LookupKey(e)])
      modifies this, items
      ensures Valid() && items == old(items) && index == old(index) && nextPlanId == old(nextPlanId)
      ensures emitted == old(emitted) && handled == !CallbackAction(e).Unknown?
      ensures handled ==> items[..] == NewItems(index, old(items[..]), e)
      ensures handled ==> successesLeft == LeftAfterRule(old(State()), e)
      ensures !handled ==> State() == old(State())
    {
      handled := true;
      if e.kind == SummaryDoneType {
        var n := CountNonSuccess();
        successesLeft := Some(n);
      } else if e.outcome == Some(Failed) || e.outcome == Some(Error) {
        items[idx] := items[idx].(status := Fail, progress := Number(1.0));
      } else if e.outcome == Some(Skipped) {
        items[idx] := items[idx].(status := Skip, progress := Number(1.0));
      } else if e.kind == SetupType || e.kind == StartType {
        items[idx] := items[idx].(status := Progress, progress := Number(0.0));
      } else if e.kind == FinishType && e.outcome == Some(Passed) {
        items[idx] := items[idx].(status := Success, progress := Number(1.0));
      } else if e.kind == ProgressType {
        if items[idx].status == Pending || items[idx].status == Progress {
          items[idx] := items[idx].(status := Progress, progress := NumberOf(e.percentage));
        }
      } else if e.kind == CallType || e.kind == TeardownType {
        // ignored
      } else {
        handled := false;
      }
    }

    /** The surprise check after a handled event. */
    method CheckSurprise(oldStatus: Option<Status>, newStatus: Option<Status>)
      modifies this
      ensures items == old(items) && index == old(index) && nextPlanId == old(nextPlanId)
      ensures successesLeft == Countdown(old(successesLeft), oldStatus, newStatus)
      ensures emitted == old(emitted) +
        (if old(successesLeft).Some? && old(successesLeft).value > 0 && successesLeft == Some(0) then [Surprise] else [])
    {
      if successesLeft.Some? {
        if oldStatus != Some(Success) && newStatus == Some(Success) {
          if successesLeft.value > 0 {
            successesLeft := Some(successesLeft.value - 1);
            if successesLeft.value == 0 {
              emitted := emitted + [Surprise];
            }
          }
        } else if oldStatus == Some(Success) && newStatus != Some(Success) {
          successesLeft := Some(successesLeft.value + 1);
        }
      }
    }

    /** One pass of the loop body. */
    method HandleEvent(e: StatusEvent)
      requires Valid() && Resolvable(index, e)
      modifies this, items
      ensures Valid() && items == old(items) && index == old(index) && nextPlanId == old(nextPlanId)
      ensures State() == Step(index, old(State()), e)
    {
      var key := LookupKey(e);
      var found := key in index;
      var idx := if found then index[key] else 0;
      var oldStatus := if found then Some(items[idx].status) else None;
      var handled := ApplyRule(e, found, idx);
      if !handled {
        return;
      }
      if found {
        emitted := emitted + [StatusUpdate(idx)];
      }
      CheckSurprise(oldStatus, if found then Some(items[idx].status) else None);
    }

    /** `testStatusCallback`: folds a chunk of events in order. */
    method TestStatusCallback(chunk: seq<StatusEvent>)
      requires Valid() && forall i :: 0 <= i < |chunk| ==> Resolvable(index, chunk[i])
      modifies this, items
      ensures Valid() && items == old(items) && index == old(index) && nextPlanId == old(nextPlanId)
      ensures State() == Run(index, old(State()), chunk)
    {
      var i := 0;
      while i < |chunk|
        invariant 0 <= i <= |chunk|
        invariant Valid() && items == old(items) && index == old(index) && nextPlanId == old(nextPlanId)
        invariant State() == Run(index, old(State()), chunk[..i])
      {
        assert chunk[..i + 1][..i] == chunk[..i];
        HandleEvent(chunk[i]);
        i := i + 1;
      }
      assert chunk[..i] == chunk;
    }
  }
}
