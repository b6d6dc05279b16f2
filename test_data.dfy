/** The frontend's data types (greendots-frontend/src/controllers/TestDataController.ts):
    the run plan as fetched, the processed grid and the status events. */
module TestData {
  import opened Wrappers

  /** A JavaScript object whose values are strings, as an association list in
      property order. Assigning to a property already present keeps its place;
      a new property goes last. */
  type Obj = seq<(string, string)>

  function Keys(o: Obj): (ks: seq<string>)
    ensures |ks| == |o|
    ensures forall i :: 0 <= i < |o| ==> ks[i] == o[i].0
  {
    if |o| == 0 then [] else [o[0].0] + Keys(o[1..])
  }

  /** `o[k]`, `None` standing for `undefined`. */
  function Get(o: Obj, k: string): (r: Option<string>)
    ensures r.None? <==> k !in Keys(o)
  {
    if |o| == 0 then None else if o[0].0 == k then Some(o[0].1) else Get(o[1..], k)
  }

  /** `o[k] = v`. */
  function Put(o: Obj, k: string, v: string): (r: Obj)
    ensures Get(r, k) == Some(v)
    ensures Keys(r) == if k in Keys(o) then Keys(o) else Keys(o) + [k]
  {
    if |o| == 0 then [(k, v)]
    else if o[0].0 == k then
      assert ([(k, v)] + o[1..])[1..] == o[1..];
      [(k, v)] + o[1..]
    else
      var rest := Put(o[1..], k, v);
      assert Keys([o[0]] + rest) == if k in Keys(o) then Keys(o) else Keys(o) + [k] by {
        assert ([o[0]] + rest)[1..] == rest;
        assert Keys(o) == [o[0].0] + Keys(o[1..]);
        assert Keys([o[0]] + rest) == [o[0].0] + Keys(rest);
        assert k in Keys(o) <==> k in Keys(o[1..]);
        if k !in Keys(o[1..]) {
          assert [o[0].0] + (Keys(o[1..]) + [k]) == Keys(o) + [k];
        }
      }
      [o[0]] + rest
  }

  /** `o[k] = v` leaves every other key's value alone. */
  lemma {:induction false} PutOther(o: Obj, k: string, v: string, k': string)
    requires k' != k
    ensures Get(Put(o, k, v), k') == Get(o, k')
  {
    if |o| > 0 && o[0].0 != k {
      PutOther(o[1..], k, v, k');
      assert Put(o, k, v)[1..] == Put(o[1..], k, v);
    }
  }

  datatype PlanTestItem = PlanTestItem(id: string, name: string, params: Obj)

  /** `groups` in property order: group name, then its tests in plan order. */
  datatype RunPlan = RunPlan(
    workerCount: int,
    groups: seq<(string, seq<PlanTestItem>)>,
    rowParams: seq<string>)

  datatype Status = Pending | Progress | Success | Fail | Skip

  /** A JavaScript number that may be `undefined`. */
  datatype JsNumber = Undefined | Number(value: real)

  datatype TestItem = TestItem(
    id: string,
    group: string,
    name: string,
    params: Obj,
    shown: bool,
    rowIdx: nat,
    colIdx: nat,
    status: Status,
    progress: JsNumber)

  datatype Row = Row(params: Obj, shown: bool)
  datatype Col = Col(params: Obj, shown: bool)
  datatype TestGroup = TestGroup(name: string, start: nat, end: nat, shown: bool)

  datatype ProcessedPlan = ProcessedPlan(
    id: nat,
    testItems: seq<TestItem>,
    testIdToTestIdx: map<string, nat>,
    rows: seq<Row>,
    cols: seq<Col>,
    testGroups: seq<TestGroup>,
    rowParams: seq<string>)

  /** The `type` field of a status event; `UnknownType` is any other value or none. */
  datatype EventType =
    | SummaryDoneType | StartType | ProgressType | SetupType | CallType | TeardownType | FinishType
    | UnknownType(name: string)

  /** The `outcome` field of a status event. */
  datatype Outcome = Passed | Failed | Error | Skipped | UnknownOutcome(name: string)

  /** A decoded status event: the fields the reducers look at, each possibly absent. */
  datatype StatusEvent = StatusEvent(
    kind: EventType,
    outcome: Option<Outcome>,
    test: Option<string>,
    percentage: Option<real>,
    progress: Option<real>)

  function NumberOf(x: Option<real>): JsNumber {
    match x
    case Some(v) => Number(v)
    case None => Undefined
  }
}
