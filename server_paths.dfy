/** The request guards of the server and the change detection of its status poll
    (`runStatusPollHandler`). File sizes are inputs; the wait-and-retry loop around
    one pass is outside the model. */
module ServerPaths {
  import opened Wrappers

  /** `isDirTraversal`: a path segment starting with a dot is refused. Route
      wildcards never match an empty segment, so the segment is non-empty. */
  function IsDirTraversal(path: string): (r: bool)
    requires |path| > 0
  {
    path[..1] == "."
  }

  /** Exactly the segments whose first character is a dot are refused: `.`, `..`
      and every hidden name, and nothing else. */
  lemma DirTraversalIff(path: string)
    requires |path| > 0
    ensures IsDirTraversal(path) <==> path[0] == '.'
    ensures path == "." || path == ".." ==> IsDirTraversal(path)
  {
    assert path[..1] == [path[0]];
  }

  /** The outcome of one pass of the poll handler. */
  datatype PollReply =
    | BadRequest            // the expected sizes could not be decoded, or were empty
    | NotFound              // a path segment was refused, or a status file is missing
    | Wait                  // no file grew: sleep and poll again
    | Reply(workersToCheck: seq<nat>)

  /** The workers whose status file exists and has grown past the expected size,
      in increasing order: the reference for what a pass reports. */
  function Grown(sizes: seq<Option<int>>, expected: seq<int>): (g: seq<nat>)
    requires |sizes| == |expected|
    ensures |g| <= |sizes|
  {
    if sizes == [] then []
    else
      var n := |sizes| - 1;
      Grown(sizes[..n], expected[..n]) + if sizes[n].Some? && sizes[n].value > expected[n] then [n] else []
  }

  /** A worker is listed exactly when its file exists and has grown, and the list
      is strictly increasing. */
  lemma {:induction false} GrownMeaning(sizes: seq<Option<int>>, expected: seq<int>)
    requires |sizes| == |expected|
    ensures forall i: nat :: i in Grown(sizes, expected) <==> i < |sizes| && sizes[i].Some? && sizes[i].value > expected[i]
    ensures forall a, b :: 0 <= a < b < |Grown(sizes, expected)| ==> Grown(sizes, expected)[a] < Grown(sizes, expected)[b]
    ensures forall a :: 0 <= a < |Grown(sizes, expected)| ==> Grown(sizes, expected)[a] < |sizes|
  {
    if sizes != [] {
      var n := |sizes| - 1;
      var prev := Grown(sizes[..n], expected[..n]);
      var last: seq<nat> := if sizes[n].Some? && sizes[n].value > expected[n] then [n] else [];
      GrownMeaning(sizes[..n], expected[..n]);
      assert Grown(sizes, expected) == prev + last;
      forall i: nat
        ensures i in prev + last <==> i < |sizes| && sizes[i].Some? && sizes[i].value > expected[i]
      {
        if i < n {
          assert sizes[..n][i] == sizes[i] && expected[..n][i] == expected[i];
        }
      }
    }
  }

  lemma GrownStep(sizes: seq<Option<int>>, expected: seq<int>, i: nat)
    requires |sizes| == |expected| && i < |sizes|
    ensures Grown(sizes[..i + 1], expected[..i + 1])
      == Grown(sizes[..i], expected[..i]) + if sizes[i].Some? && sizes[i].value > expected[i] then [i] else []
  {
    assert sizes[..i + 1][..i] == sizes[..i];
    assert expected[..i + 1][..i] == expected[..i];
  }

  /** The `workers_to_check` loop: visits the workers in order, fails on the first
      missing status file, and collects each worker whose file has grown. */
  method WorkersToCheck(sizes: seq<Option<int>>, expected: seq<int>) returns (r: Option<seq<nat>>)
    requires |sizes| == |expected|
    ensures r.None? <==> exists i :: 0 <= i < |sizes| && sizes[i].None?
    ensures r.Some? ==> r.value == Grown(sizes, expected)
    ensures r.Some? ==> forall i: nat :: i in r.value <==> i < |sizes| && sizes[i].value > expected[i]
    ensures r.Some? ==> forall a, b :: 0 <= a < b < |r.value| ==> r.value[a] < r.value[b]
  {
    var workers: seq<nat> := [];
    var i := 0;
    while i < |expected|
      invariant 0 <= i <= |expected|
      invariant forall j :: 0 <= j < i ==> sizes[j].Some?
      invariant workers == Grown(sizes[..i], expected[..i])
    {
      if sizes[i].None? {
        return None;
      }
      GrownStep(sizes, expected, i);
      var grown: seq<nat> := if sizes[i].value > expected[i] then [i] else [];
      workers := workers + grown;
      i := i + 1;
    }
    assert sizes[..i] == sizes;
    assert expected[..i] == expected;
    GrownMeaning(sizes, expected);
    r := Some(workers);
  }

  /** One pass of `runStatusPollHandler`: the body must decode to a non-empty list
      of expected sizes, the project and run segments must pass the guard, then a
      reply is written exactly when some file has grown. */
  method StatusPoll(body: Option<seq<int>>, project: string, run: string, sizes: seq<Option<int>>)
    returns (reply: PollReply)
    requires |project| > 0 && |run| > 0
    requires body.Some? ==> |sizes| == |body.value|
    ensures reply == BadRequest <==> body.None? || body == Some([])
    ensures body.Some? && body != Some([]) && (IsDirTraversal(project) || IsDirTraversal(run)) ==> reply == NotFound
    ensures body.Some? && body != Some([]) && !IsDirTraversal(project) && !IsDirTraversal(run) ==>
      && (reply == NotFound <==> exists i :: 0 <= i < |sizes| && sizes[i].None?)
      && (reply == Wait <==> (forall i :: 0 <= i < |sizes| ==> sizes[i].Some?) && Grown(sizes, body.value) == [])
      && (reply.Reply? ==> reply.workersToCheck == Grown(sizes, body.value))
    ensures reply.Reply? ==> |reply.workersToCheck| > 0
    ensures reply.Reply? ==> forall i :: i in reply.workersToCheck ==> i < |sizes| && sizes[i].Some? && sizes[i].value > body.value[i]
    ensures reply == Wait ==> body.Some? && forall i :: 0 <= i < |sizes| ==> sizes[i].Some? && sizes[i].value <= body.value[i]
  {
    if body.None? || |body.value| == 0 {
      return BadRequest;
    }
    if IsDirTraversal(project) || IsDirTraversal(run) {
      return NotFound;
    }
    var w := WorkersToCheck(sizes, body.value);
    if w.None? {
      return NotFound;
    }
    if |w.value| == 0 {
      assert forall i: nat :: i < |sizes| ==> i !in w.value;
      return Wait;
    }
    return Reply(w.value);
  }
}
