/** The two response headers the frontend reads while following the status
    streams: the start of `Content-Range` on a ranged status chunk
    (`getTestStatusChunk`) and the per-worker `X-End-Offset` values of the status
    summary. */
module ChunkHeaders {
  import opened Wrappers
  import Seqs
  import Decimal

  datatype ChunkError =
    | FetchFailed          // the response was not ok
    | NoContentRange       // `get('Content-Range')!` was null
    | MalformedRange       // no space in the header: `split(' ')[1]` was undefined
    | MisbehavingServer    // the range does not start at the requested offset

  /** `getTestStatusChunk` after the fetch: a failed response throws; a chunk asked
      for at a positive offset must come with a `Content-Range` whose start, read
      with `parseInt`, is that offset. */
  function CheckChunk(ok: bool, offset: int, contentRange: Option<string>, body: string): (r: Result<string, ChunkError>)
    ensures r.Ok? ==> r.value == body
    ensures !ok ==> r == Err(FetchFailed)
    ensures ok && offset <= 0 ==> r == Ok(body)
  {
    if !ok then Err(FetchFailed)
    else if offset > 0 then
      match contentRange
      case None => Err(NoContentRange)
      case Some(h) =>
        var words := Seqs.Split(h, ' ');
        if |words| < 2 then Err(MalformedRange)
        else if Decimal.ParseInt(Seqs.Split(words[1], '-')[0]) != Some(offset) then Err(MisbehavingServer)
        else Ok(body)
    else Ok(body)
  }

  /** The `Content-Range` value of a byte-range reply: `bytes <first>-<last>/<size>`. */
  function ContentRange(first: nat, last: nat, size: nat): string {
    "bytes " + RangeSpec(first, last, size)
  }

  /** The part of the header after the unit: `<first>-<last>/<size>`. */
  function RangeSpec(first: nat, last: nat, size: nat): string {
    Decimal.NatToString(first) + "-" + Decimal.NatToString(last) + "/" + Decimal.NatToString(size)
  }

  /** After `bytes `, a rendered range has no space and its first number ends at
      the first `-`. */
  lemma NoSpaceInRange(first: nat, last: nat, size: nat)
    ensures var t := RangeSpec(first, last, size);
      ' ' !in t && Seqs.Split(t, '-')[0] == Decimal.NatToString(first)
  {
    var a, b, c := Decimal.NatToString(first), Decimal.NatToString(last), Decimal.NatToString(size);
    Decimal.DigitsExclude(a, ' ');
    Decimal.DigitsExclude(b, ' ');
    Decimal.DigitsExclude(c, ' ');
    Decimal.DigitsExclude(a, '-');
    assert a + "-" + b + "/" + c == a + ['-'] + (b + "/" + c);
    Seqs.SplitSepAfter(a, b + "/" + c, '-');
  }

  /** A rendered range splits on spaces into `bytes` and the rest. */
  lemma RangeWords(first: nat, last: nat, size: nat)
    ensures Seqs.Split(ContentRange(first, last, size), ' ') == ["bytes", RangeSpec(first, last, size)]
  {
    var t := RangeSpec(first, last, size);
    NoSpaceInRange(first, last, size);
    SplitAfterBytes(t);
    Seqs.SplitNoSep(t, ' ');
  }

  lemma SplitAfterBytes(t: string)
    ensures Seqs.Split("bytes " + t, ' ') == ["bytes"] + Seqs.Split(t, ' ')
  {
    assert "bytes " + t == "bytes" + [' '] + t;
    Seqs.SplitSepAfter("bytes", t, ' ');
  }

  /** A chunk at a positive offset is accepted exactly when the reply's range
      starts at that offset; otherwise the server is reported as misbehaving. */
  lemma RangeCheckExact(offset: nat, first: nat, last: nat, size: nat, body: string)
    requires offset > 0
    ensures CheckChunk(true, offset, Some(ContentRange(first, last, size)), body)
         == if first == offset then Ok(body) else Err(MisbehavingServer)
  {
    var a := Decimal.NatToString(first);
    var t := RangeSpec(first, last, size);
    var words := Seqs.Split(ContentRange(first, last, size), ' ');
    assert words == ["bytes", t] by { RangeWords(first, last, size); }
    assert Seqs.Split(t, '-')[0] == a by { NoSpaceInRange(first, last, size); }
    assert Decimal.ParseInt(a) == Some(first) by {
      Decimal.ParseIntNatToString("", first);
      assert "" + a == a;
    }
  }

  /** The values of a repeated response header as the Fetch API's `get` combines
      them: joined with a comma and a space. */
  function CombineHeader(values: seq<string>): string
    requires |values| > 0
  {
    if |values| == 1 then values[0] else values[0] + ", " + CombineHeader(values[1..])
  }

  /** `headers.get('x-end-offset')!.split(',').map(parseInt)`; `None` is NaN. */
  function ParseEndOffsets(h: string): (r: seq<Option<int>>)
    ensures |r| == |Seqs.Split(h, ',')|
  {
    var parts := Seqs.Split(h, ',');
    seq(|parts|, i requires 0 <= i < |parts| => Decimal.ParseInt(parts[i]))
  }

  /** The server's decimal offsets, one header value per worker. */
  function OffsetValues(offsets: seq<nat>): (r: seq<string>)
    ensures |r| == |offsets|
  {
    seq(|offsets|, i requires 0 <= i < |offsets| => Decimal.NatToString(offsets[i]))
  }

  /** Splitting the combined header on commas gives each value, all but the first
      behind the space the combination put in. */
  lemma {:induction false} SplitCombined(offsets: seq<nat>)
    requires |offsets| > 0
    ensures var parts := Seqs.Split(CombineHeader(OffsetValues(offsets)), ',');
      && |parts| == |offsets|
      && parts[0] == Decimal.NatToString(offsets[0])
      && forall i :: 1 <= i < |offsets| ==> parts[i] == " " + Decimal.NatToString(offsets[i])
  {
    var vs := OffsetValues(offsets);
    var first := Decimal.NatToString(offsets[0]);
    Decimal.DigitsExclude(first, ',');
    if |offsets| == 1 {
      Seqs.SplitNoSep(first, ',');
    } else {
      var rest := offsets[1..];
      var tail := CombineHeader(vs[1..]);
      var pt := Seqs.Split(tail, ',');
      assert OffsetValues(rest) == vs[1..];
      SplitCombined(rest);
      SplitAfterComma(first, tail);
      assert CombineHeader(vs) == first + ", " + tail;
      var parts := [first, " " + pt[0]] + pt[1..];
      forall i | 2 <= i < |offsets|
        ensures parts[i] == " " + Decimal.NatToString(offsets[i])
      {
        assert parts[i] == pt[i - 1] && offsets[i] == rest[i - 1];
      }
    }
  }

  /** A value without a comma, then `, ` and the rest: the value, then the rest's
      pieces with the space put before the first of them. */
  lemma SplitAfterComma(first: string, tail: string)
    requires ',' !in first
    ensures var pt := Seqs.Split(tail, ',');
      Seqs.Split(first + ", " + tail, ',') == [first, " " + pt[0]] + pt[1..]
  {
    var pt := Seqs.Split(tail, ',');
    assert first + ", " + tail == first + [','] + (" " + tail);
    Seqs.SplitSepAfter(first, " " + tail, ',');
    assert (" " + tail)[1..] == tail;
    assert Seqs.Split(" " + tail, ',') == [" " + pt[0]] + pt[1..];
  }

  /** Parsing the combined `X-End-Offset` header gives back one offset per worker,
      in worker order. */
  lemma EndOffsetsRoundTrip(offsets: seq<nat>)
    requires |offsets| > 0
    ensures ParseEndOffsets(CombineHeader(OffsetValues(offsets)))
         == seq(|offsets|, i requires 0 <= i < |offsets| => Some(offsets[i] as int))
  {
    SplitCombined(offsets);
    var parts := Seqs.Split(CombineHeader(OffsetValues(offsets)), ',');
    forall i | 0 <= i < |offsets|
      ensures Decimal.ParseInt(parts[i]) == Some(offsets[i] as int)
    {
      if i == 0 {
        Decimal.ParseIntNatToString("", offsets[0]);
        assert "" + parts[0] == parts[0];
      } else {
        Decimal.ParseIntNatToString(" ", offsets[i]);
      }
    }
  }
}
