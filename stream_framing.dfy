/** Line framing of the status streams in the frontend: the JSONL reader of the
    status summary (`fetchObjects`) and the per-worker byte buffers and offsets of
    the status poll loop (`subscribeTestStatusUpdates`). Bytes are treated as
    characters and `JSON.parse` is left out: a delivered line stands for the
    object parsed from it. */
module StreamFraming {
  import Seqs

  const NL: char := '\n'

  /** The complete lines of `s`: every piece before the last newline. */
  function CompleteLines(s: string): seq<string>
  {
    var p := Seqs.Split(s, NL);
    p[..|p| - 1]
  }

  /** The unfinished tail of `s`: the text after its last newline. */
  function Remainder(s: string): string
  {
    Seqs.Last(Seqs.Split(s, NL))
  }

  /** Nothing is lost: the complete lines and the remainder, joined with newlines,
      are the input, and none of them holds a newline. */
  lemma LinesAndRemainder(s: string)
    ensures Seqs.Join(CompleteLines(s) + [Remainder(s)], NL) == s
    ensures NL !in Remainder(s)
    ensures forall l :: l in CompleteLines(s) ==> NL !in l
  {
    var p := Seqs.Split(s, NL);
    assert CompleteLines(s) + [Remainder(s)] == p;
    Seqs.JoinSplit(s, NL);
    Seqs.SplitPiecesFree(s, NL);
    assert Remainder(s) in p;
    assert forall l :: l in CompleteLines(s) ==> l in p;
  }

  /** Framing more input: the lines completed so far stay, the carried remainder is
      continued by the new text. This is what makes chunked reading agree with
      reading the whole stream at once. */
  lemma FramingAppend(a: string, b: string)
    ensures CompleteLines(a + b) == CompleteLines(a) + CompleteLines(Remainder(a) + b)
    ensures Remainder(a + b) == Remainder(Remainder(a) + b)
  {
    Seqs.SplitAppend(a, b, NL);
    var pa := Seqs.Split(a, NL);
    var pr := Seqs.Split(Remainder(a) + b, NL);
    assert Seqs.Split(a + b, NL) == pa[..|pa| - 1] + pr;
  }

  /** Input without a newline completes no line and is all remainder. */
  lemma NoNewline(s: string)
    requires NL !in s
    ensures CompleteLines(s) == [] && Remainder(s) == s
  {
    Seqs.SplitNoSep(s, NL);
  }

  predicate NonEmpty(line: string) {
    |line| > 0
  }

  /** The lines the summary reader yields: the complete non-empty lines. */
  function SummaryLines(s: string): seq<string>
  {
    Seqs.Filter(NonEmpty, CompleteLines(s))
  }

  /** The body of `fetchObjects`' read loop: each part read is appended to the buffer, the
      buffer is split into lines, the last piece is kept as the new buffer and the
      non-empty others are yielded as one chunk, unless there are none. There is at
      least one read: the final read of a finished stream, which is the empty string. */
  method FetchObjects(parts: seq<string>, initial: string) returns (chunks: seq<seq<string>>, buffer: string)
    requires |parts| > 0
    ensures forall c :: c in chunks ==> |c| > 0
    ensures Seqs.Flatten(chunks) == SummaryLines(initial + Seqs.Flatten(parts))
    ensures buffer == Remainder(initial + Seqs.Flatten(parts))
  {
    chunks := [];
    buffer := initial;
    var i := 0;
    while i < |parts|
      invariant 0 <= i <= |parts|
      invariant ReadSoFar(initial, parts, i, chunks, buffer)
    {
      var lines := Seqs.Split(buffer + parts[i], NL);
      var chunk := NonEmptyLines(lines[..|lines| - 1]);
      ReadStep(initial, parts, i, chunks, buffer, chunk);
      buffer := Seqs.Last(lines);
      if |chunk| > 0 {
        chunks := chunks + [chunk];
      }
      i := i + 1;
    }
    assert parts[..i] == parts;
  }

  /** The state of `fetchObjects` after `i` reads: no empty chunk was yielded; before
      the first read the buffer is the initial one; after it, the buffer is the
      remainder of everything read and the chunks hold its summary lines. */
  ghost predicate ReadSoFar(initial: string, parts: seq<string>, i: nat, chunks: seq<seq<string>>, buffer: string)
    requires i <= |parts|
  {
    && (forall c :: c in chunks ==> |c| > 0)
    && (i == 0 ==> buffer == initial && chunks == [])
    && (i > 0 ==> buffer == Remainder(initial + Seqs.Flatten(parts[..i])))
    && (i > 0 ==> Seqs.Flatten(chunks) == SummaryLines(initial + Seqs.Flatten(parts[..i])))
  }

  /** One iteration of the read loop keeps `ReadSoFar`. */
  lemma ReadStep(initial: string, parts: seq<string>, i: nat, chunks: seq<seq<string>>, buffer: string, chunk: seq<string>)
    requires i < |parts| && ReadSoFar(initial, parts, i, chunks, buffer)
    requires var p := Seqs.Split(buffer + parts[i], NL); chunk == Seqs.Filter(NonEmpty, p[..|p| - 1])
    ensures ReadSoFar(initial, parts, i + 1, if |chunk| > 0 then chunks + [chunk] else chunks,
                      Seqs.Last(Seqs.Split(buffer + parts[i], NL)))
  {
    FetchStep(initial, parts, i, buffer);
    Seqs.FlattenSnoc(chunks, chunk);
  }

  /** The inner loop of `fetchObjects`: the non-empty lines, in order. */
  method NonEmptyLines(lines: seq<string>) returns (chunk: seq<string>)
    ensures chunk == Seqs.Filter(NonEmpty, lines)
  {
    chunk := [];
    var j := 0;
    while j < |lines|
      invariant 0 <= j <= |lines|
      invariant chunk == Seqs.Filter(NonEmpty, lines[..j])
    {
      Seqs.FilterAppend(NonEmpty, lines[..j], [lines[j]]);
      assert lines[..j + 1] == lines[..j] + [lines[j]];
      if |lines[j]| != 0 {
        chunk := chunk + [lines[j]];
      }
      j := j + 1;
    }
    assert lines[..j] == lines;
  }

  /** One read of `fetchObjects`: the new buffer is the remainder of everything read,
      and the lines it completes extend the summary lines read so far. */
  lemma FetchStep(initial: string, parts: seq<string>, i: nat, buffer: string)
    requires i < |parts|
    requires i == 0 ==> buffer == initial
    requires i > 0 ==> buffer == Remainder(initial + Seqs.Flatten(parts[..i]))
    ensures var p := Seqs.Split(buffer + parts[i], NL);
      && Seqs.Last(p) == Remainder(initial + Seqs.Flatten(parts[..i + 1]))
      && SummaryLines(initial + Seqs.Flatten(parts[..i + 1]))
         == (if i == 0 then [] else SummaryLines(initial + Seqs.Flatten(parts[..i]))) + Seqs.Filter(NonEmpty, p[..|p| - 1])
  {
    var seen := initial + Seqs.Flatten(parts[..i]);
    assert parts[..i + 1][..i] == parts[..i];
    assert initial + Seqs.Flatten(parts[..i + 1]) == seen + parts[i];
    if i == 0 {
      assert parts[..i] == [];
      assert seen == initial;
    } else {
      FramingAppend(seen, parts[i]);
      Seqs.FilterAppend(NonEmpty, CompleteLines(seen), CompleteLines(buffer + parts[i]));
    }
  }

  /** `concatBufs`: a fresh buffer holding `a` then `b`. */
  function ConcatBufs(a: string, b: string): (c: string)
    ensures |c| == |a| + |b| && c[..|a|] == a && c[|a|..] == b
  {
    a + b
  }

  /** `sliceBuf`: a fresh copy of `buf` from `start` on. */
  function SliceBuf(buf: string, start: nat): (d: string)
    requires start <= |buf|
    ensures |d| == |buf| - start && forall i :: 0 <= i < |d| ==> d[i] == buf[start + i]
  {
    buf[start..]
  }

  /** Slicing off what was concatenated in front gives back the appended part. */
  lemma SliceConcat(a: string, b: string)
    ensures SliceBuf(ConcatBufs(a, b), |a|) == b
  {
  }

  /** `Uint8Array.prototype.lastIndexOf`: the last position of `x`, or -1. */
  function LastIndexOf(s: string, x: char): (r: int)
    ensures r == -1 <==> x !in s
    ensures r != -1 ==> 0 <= r < |s| && s[r] == x && x !in s[r + 1..]
  {
    if |s| == 0 then -1
    else if s[|s| - 1] == x then |s| - 1
    else
      var r := LastIndexOf(s[..|s| - 1], x);
      assert r != -1 ==> s[r + 1..] == s[..|s| - 1][r + 1..] + [s[|s| - 1]];
      assert r == -1 ==> s == s[..|s| - 1] + [s[|s| - 1]];
      r
  }

  /** Cutting at the last newline separates the complete lines from the remainder. */
  lemma CutAtLastNewline(b: string, idx: nat)
    requires idx < |b| && b[idx] == NL && NL !in b[idx + 1..]
    ensures CompleteLines(b) == Seqs.Split(b[..idx], NL)
    ensures Remainder(b) == b[idx + 1..]
  {
    assert b == b[..idx] + [NL] + b[idx + 1..];
    Seqs.SplitAtLast(b[..idx], b[idx + 1..], NL);
  }

  /** The loop body's cut of a worker's buffer: when it holds a newline, every line
      before the last newline is delivered and only what follows is kept. */
  method CutBuffer(buf: string) returns (found: bool, lines: seq<string>, rest: string)
    ensures found <==> NL in buf
    ensures found ==> lines == CompleteLines(buf)
    ensures rest == Remainder(buf) && NL !in rest
  {
    var idx := LastIndexOf(buf, NL);
    if idx == -1 {
      NoNewline(buf);
      return false, [], buf;
    }
    CutAtLastNewline(buf, idx);
    LinesAndRemainder(buf);
    return true, Seqs.Split(buf[..idx], NL), SliceBuf(buf, idx + 1);
  }

  /** The lines delivered for worker `w`, in delivery order. */
  function LinesFor(delivered: seq<(nat, seq<string>)>, w: nat): seq<string>
  {
    if delivered == [] then []
    else
      var last := delivered[|delivered| - 1];
      LinesFor(delivered[..|delivered| - 1], w) + (if last.0 == w then last.1 else [])
  }

  /** The poller's state agrees with the bytes received per worker: each buffer is
      the unfinished remainder, each offset has grown by the received byte count,
      and the lines delivered for a worker are exactly its complete lines. */
  ghost predicate Framed(buffers: seq<string>, offsets: seq<int>, start: seq<int>,
                         received: seq<string>, delivered: seq<(nat, seq<string>)>)
  {
    && |buffers| == |offsets| == |start| == |received|
    && (forall w :: 0 <= w < |buffers| ==> buffers[w] == Remainder(received[w]))
    && (forall w :: 0 <= w < |offsets| ==> offsets[w] == start[w] + |received[w]|)
    && (forall w :: 0 <= w < |received| ==> LinesFor(delivered, w) == CompleteLines(received[w]))
  }

  /** What one fetched chunk does to its worker's buffer. */
  function Delivery(w: nat, b: string): seq<(nat, seq<string>)>
  {
    if NL in b then [(w, CompleteLines(b))] else []
  }

  lemma FramedStep(buffers: seq<string>, offsets: seq<int>, start: seq<int>,
                   received: seq<string>, delivered: seq<(nat, seq<string>)>, w: nat, chunk: string)
    requires Framed(buffers, offsets, start, received, delivered) && w < |buffers|
    ensures var b := buffers[w] + chunk;
      Framed(buffers[w := Remainder(b)], offsets[w := offsets[w] + |chunk|], start,
             received[w := received[w] + chunk], delivered + Delivery(w, b))
  {
    var b := buffers[w] + chunk;
    var delivered' := delivered + Delivery(w, b);
    FramingAppend(received[w], chunk);
    if NL !in b {
      NoNewline(b);
    }
    assert buffers[w] == Remainder(received[w]);
    forall v | 0 <= v < |received|
      ensures LinesFor(delivered', v) == CompleteLines(received[w := received[w] + chunk][v])
    {
      if NL in b {
        assert delivered'[..|delivered'| - 1] == delivered;
        assert LinesFor(delivered', v) == LinesFor(delivered, v) + (if v == w then CompleteLines(b) else []);
      } else {
        assert delivered' == delivered;
      }
    }
  }

  /** The per-worker poll state of `subscribeTestStatusUpdates`. */
  class StatusPoller {
    var offsets: array<int>
    var buffers: array<string>
    var delivered: seq<(nat, seq<string>)>
    ghost var start: seq<int>
    ghost var received: seq<string>

    ghost predicate Valid()
      reads this, offsets, buffers
    {
      Framed(buffers[..], offsets[..], start, received, delivered)
    }

    /** Offsets start at the summary's end offsets, buffers empty. */
    constructor (endOffsets: seq<int>)
      ensures Valid() && offsets[..] == endOffsets && start == endOffsets
      ensures buffers[..] == seq(|endOffsets|, _ => "") && received == seq(|endOffsets|, _ => "")
      ensures delivered == []
    {
      offsets := new int[|endOffsets|](i requires 0 <= i < |endOffsets| => endOffsets[i]);
      buffers := new string[|endOffsets|](_ => "");
      delivered := [];
      start := endOffsets;
      received := seq(|endOffsets|, _ => "");
      new;
      NoNewline("");
    }

    /** One worker's fetched chunk: append it, advance the offset by its length,
        and, when the buffer then holds a newline, deliver every line before the
        last newline and keep only what follows it. */
    method AcceptChunk(w: nat, chunk: string)
      requires Valid() && w < buffers.Length
      modifies this, offsets, buffers
      ensures Valid() && start == old(start) && offsets == old(offsets) && buffers == old(buffers)
      ensures received == old(received)[w := old(received[w]) + chunk]
      ensures offsets[..] == old(offsets[..])[w := old(offsets[w]) + |chunk|]
      ensures var b := old(buffers[w]) + chunk;
        && buffers[..] == old(buffers[..])[w := Remainder(b)]
        && delivered == old(delivered) + Delivery(w, b)
      ensures NL !in buffers[w]
    {
      FramedStep(buffers[..], offsets[..], start, received, delivered, w, chunk);
      var buf := ConcatBufs(buffers[w], chunk);
      var found, lines, rest := CutBuffer(buf);
      if found {
        delivered := delivered + [(w, lines)];
      }
      received := received[w := received[w] + chunk];
      buffers[w] := rest;
      offsets[w] := offsets[w] + |chunk|;
    }

    /** One round over `workers_to_check`, with the chunk fetched for each. */
    method PollRound(workersToCheck: seq<nat>, chunks: seq<string>)
      requires Valid() && |chunks| == |workersToCheck|
      requires forall i :: 0 <= i < |workersToCheck| ==> workersToCheck[i] < buffers.Length
      modifies this, offsets, buffers
      ensures Valid() && start == old(start) && |received| == |old(received)|
      ensures forall w :: 0 <= w < |received| ==>
        received[w] == old(received[w]) + ChunksFor(workersToCheck, chunks, w)
    {
      var i := 0;
      while i < |workersToCheck|
        invariant 0 <= i <= |workersToCheck|
        invariant Valid() && start == old(start) && |received| == |old(received)|
        invariant offsets == old(offsets) && buffers == old(buffers)
        invariant forall w :: 0 <= w < |received| ==>
          received[w] == old(received[w]) + ChunksFor(workersToCheck[..i], chunks[..i], w)
      {
        RoundStep(old(received), received, workersToCheck, chunks, i);
        AcceptChunk(workersToCheck[i], chunks[i]);
        i := i + 1;
      }
      assert workersToCheck[..i] == workersToCheck && chunks[..i] == chunks;
    }
  }

  /** The bytes a round fetches for worker `w`, in order. */
  function ChunksFor(ws: seq<nat>, chunks: seq<string>, w: nat): string
    requires |ws| == |chunks|
  {
    if ws == [] then ""
    else ChunksFor(ws[..|ws| - 1], chunks[..|ws| - 1], w) + (if ws[|ws| - 1] == w then chunks[|ws| - 1] else "")
  }

  /** Whatever the chunking, a worker's delivered lines followed by its buffer,
      joined with newlines, are exactly the bytes received from it. */
  lemma DeliveredThenBuffer(buffers: seq<string>, offsets: seq<int>, start: seq<int>,
                            received: seq<string>, delivered: seq<(nat, seq<string>)>, w: nat)
    requires Framed(buffers, offsets, start, received, delivered) && w < |buffers|
    ensures Seqs.Join(LinesFor(delivered, w) + [buffers[w]], NL) == received[w]
    ensures NL !in buffers[w]
  {
    LinesAndRemainder(received[w]);
  }

  /** Appending the `i`-th chunk to its worker's bytes extends the round's
      accounting by one fetch. */
  lemma RoundStep(orig: seq<string>, r: seq<string>, ws: seq<nat>, chunks: seq<string>, i: nat)
    requires |ws| == |chunks| && i < |ws| && |r| == |orig| && ws[i] < |r|
    requires forall w :: 0 <= w < |r| ==> r[w] == orig[w] + ChunksFor(ws[..i], chunks[..i], w)
    ensures var r' := r[ws[i] := r[ws[i]] + chunks[i]];
      forall w :: 0 <= w < |r'| ==> r'[w] == orig[w] + ChunksFor(ws[..i + 1], chunks[..i + 1], w)
  {
    ChunksForStep(ws, chunks, i);
  }

  lemma ChunksForStep(ws: seq<nat>, chunks: seq<string>, i: nat)
    requires |ws| == |chunks| && i < |ws|
    ensures forall w :: ChunksFor(ws[..i + 1], chunks[..i + 1], w)
                     == ChunksFor(ws[..i], chunks[..i], w) + (if ws[i] == w then chunks[i] else "")
  {
    assert ws[..i + 1][..i] == ws[..i];
    assert chunks[..i + 1][..i] == chunks[..i];
  }
}
