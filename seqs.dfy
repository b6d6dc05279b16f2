/** Sequence helpers shared by the frontend, the server and the plugin models:
    first-encounter deduplication (JavaScript `indexOf`-then-`push`, Python
    dict insertion order) and splitting/joining on a separator
    (`String.prototype.split`, `Array.prototype.join`). */
module Seqs {

  predicate Distinct<T(==)>(s: seq<T>) {
    forall i, j :: 0 <= i < j < |s| ==> s[i] != s[j]
  }

  /** Position of the first `x` in `s`, or -1 (JavaScript `indexOf`). */
  function IndexOf<T(==)>(s: seq<T>, x: T): (r: int)
    ensures r == -1 <==> x !in s
    ensures 0 <= r ==> r < |s| && s[r] == x && x !in s[..r]
  {
    if |s| == 0 then -1
    else if s[0] == x then 0
    else
      var k := IndexOf(s[1..], x);
      assert s[1..][..if k < 0 then 0 else k] == s[1..1 + (if k < 0 then 0 else k)];
      if k < 0 then -1 else k + 1
  }

  /** Distinct elements of `s` in the order of their first occurrence. */
  function Dedup<T(==)>(s: seq<T>): seq<T>
  {
    if |s| == 0 then []
    else
      var d := Dedup(s[..|s| - 1]);
      if s[|s| - 1] in d then d else d + [s[|s| - 1]]
  }

  lemma {:induction false} DedupMembers<T>(s: seq<T>)
    ensures forall x :: x in Dedup(s) ==> x in s
    ensures forall x :: x in s ==> x in Dedup(s)
    ensures Distinct(Dedup(s))
  {
    if |s| > 0 {
      DedupMembers(s[..|s| - 1]);
      assert s == s[..|s| - 1] + [s[|s| - 1]];
    }
  }

  /** Deduplicating a prefix yields a prefix of the deduplicated whole. */
  lemma {:induction false} DedupPrefix<T>(s: seq<T>, i: nat)
    requires i <= |s|
    ensures Dedup(s[..i]) <= Dedup(s)
  {
    if i < |s| {
      DedupPrefix(s[..|s| - 1], i);
      assert s[..|s| - 1][..i] == s[..i];
    } else {
      assert s[..i] == s;
    }
  }

  /** The order of `Dedup` is the order of first occurrence in `s`. */
  lemma {:induction false} DedupFirstEncounter<T>(s: seq<T>, i: nat, j: nat)
    requires i < j < |Dedup(s)|
    ensures IndexOf(s, Dedup(s)[i]) < IndexOf(s, Dedup(s)[j])
    decreases |s|, 1
  {
    var p, l := s[..|s| - 1], s[|s| - 1];
    assert s == p + [l];
    DedupFirstEncounterSnoc(p, l, i, j);
  }

  lemma {:induction false} DedupFirstEncounterSnoc<T>(p: seq<T>, l: T, i: nat, j: nat)
    requires i < j < |Dedup(p + [l])|
    ensures IndexOf(p + [l], Dedup(p + [l])[i]) < IndexOf(p + [l], Dedup(p + [l])[j])
    decreases |p| + 1, 0
  {
    var s := p + [l];
    var d := Dedup(p);
    assert s[..|s| - 1] == p;
    assert Dedup(s) == if l in d then d else d + [l];
    DedupMembers(p);
    assert i < |d|;
    var xi := d[i];
    assert xi in Dedup(p);
    assert xi in p;
    IndexOfAppend(p, [l], xi);
    if j < |d| {
      DedupFirstEncounter(p, i, j);
      assert d[j] in d;
      IndexOfAppend(p, [l], d[j]);
    } else {
      assert Dedup(s)[j] == l && l !in p;
      var r := IndexOf(s, l);
      assert r == |p|;
    }
  }

  lemma {:induction false} IndexOfAppend<T>(p: seq<T>, q: seq<T>, x: T)
    requires x in p
    ensures IndexOf(p + q, x) == IndexOf(p, x)
  {
    if p[0] != x {
      assert (p + q)[1..] == p[1..] + q;
      IndexOfAppend(p[1..], q, x);
    }
  }

  /** An element that `Dedup(s)` lists after everything `Dedup(s[..i])` lists first
      occurs in `s` at or after position `i`. */
  lemma DedupLateElement<T>(s: seq<T>, i: nat, c: nat)
    requires i <= |s| && |Dedup(s[..i])| <= c < |Dedup(s)|
    ensures exists j :: i <= j < |s| && s[j] == Dedup(s)[c]
  {
    var x := Dedup(s)[c];
    DedupMembers(s);
    DedupMembers(s[..i]);
    DedupPrefix(s, i);
    forall q | 0 <= q < |Dedup(s[..i])|
      ensures Dedup(s[..i])[q] != x
    {
      assert Dedup(s)[q] == Dedup(s[..i])[q];
    }
    assert x !in s[..i];
    assert x in s;
    forall j | 0 <= j < i
      ensures s[j] != x
    {
      assert s[..i][j] == s[j];
    }
    var j :| 0 <= j < |s| && s[j] == x;
    assert i <= j;
  }

  /** One more element: `Dedup` appends it unless it was already seen. */
  lemma DedupSnoc<T>(s: seq<T>, n: nat)
    requires n < |s|
    ensures Dedup(s[..n + 1]) == if s[n] in Dedup(s[..n]) then Dedup(s[..n]) else Dedup(s[..n]) + [s[n]]
  {
    assert s[..n + 1][..n] == s[..n];
  }

  /** Elements of `s` that satisfy `p`, in order. */
  function Filter<T>(p: T -> bool, s: seq<T>): (r: seq<T>)
    ensures forall x :: x in r ==> x in s && p(x)
  {
    if |s| == 0 then [] else (if p(s[0]) then [s[0]] else []) + Filter(p, s[1..])
  }

  lemma {:induction false} FilterAppend<T>(p: T -> bool, a: seq<T>, b: seq<T>)
    ensures Filter(p, a + b) == Filter(p, a) + Filter(p, b)
  {
    if |a| > 0 {
      FilterAppend(p, a[1..], b);
      assert (a + b)[1..] == a[1..] + b;
    } else {
      assert a + b == b;
    }
  }

  function Flatten<T>(ss: seq<seq<T>>): (r: seq<T>)
  {
    if |ss| == 0 then [] else Flatten(ss[..|ss| - 1]) + ss[|ss| - 1]
  }

  lemma FlattenSnoc<T>(ss: seq<seq<T>>, x: seq<T>)
    ensures Flatten(ss + [x]) == Flatten(ss) + x
  {
    assert (ss + [x])[..|ss|] == ss;
  }

  lemma {:induction false} FlattenCons<T>(a: seq<T>, rest: seq<seq<T>>)
    ensures Flatten([a] + rest) == a + Flatten(rest)
  {
    if rest != [] {
      FlattenCons(a, rest[..|rest| - 1]);
      assert ([a] + rest)[..|rest|] == [a] + rest[..|rest| - 1];
    } else {
      assert [a] + rest == [a];
      assert [a][..0] == [];
    }
  }

  function Last<T>(s: seq<T>): T
    requires |s| > 0
  {
    s[|s| - 1]
  }

  /** `s.split(sep)`: the pieces between separators; never empty. */
  function Split<T(==)>(s: seq<T>, sep: T): (r: seq<seq<T>>)
    ensures |r| >= 1
  {
    if |s| == 0 then [[]]
    else
      var rest := Split(s[1..], sep);
      if s[0] == sep then [[]] + rest else [[s[0]] + rest[0]] + rest[1..]
  }

  /** No piece holds the separator. */
  lemma {:induction false} SplitPiecesFree<T>(s: seq<T>, sep: T)
    ensures forall piece :: piece in Split(s, sep) ==> sep !in piece
  {
    if |s| > 0 {
      SplitPiecesFree(s[1..], sep);
      var rest := Split(s[1..], sep);
      if s[0] != sep {
        assert sep !in [s[0]] + rest[0] by { assert rest[0] in rest; }
        assert forall piece :: piece in rest[1..] ==> piece in rest;
      }
    }
  }

  /** `pieces.join(sep)`. */
  function Join<T>(pieces: seq<seq<T>>, sep: T): seq<T>
    requires |pieces| >= 1
  {
    if |pieces| == 1 then pieces[0] else pieces[0] + [sep] + Join(pieces[1..], sep)
  }

  /** Splitting loses nothing: joining the pieces gives back the input. */
  lemma {:induction false} JoinSplit<T>(s: seq<T>, sep: T)
    ensures Join(Split(s, sep), sep) == s
  {
    if |s| > 0 {
      var rest := Split(s[1..], sep);
      JoinSplit(s[1..], sep);
      if s[0] == sep {
        assert s == [sep] + s[1..];
      } else if |rest| == 1 {
        assert s == [s[0]] + s[1..];
      } else {
        assert Join(rest, sep) == rest[0] + [sep] + Join(rest[1..], sep);
        assert s == [s[0]] + s[1..];
      }
    }
  }

  /** Joining pieces free of the separator and splitting again gives the pieces back. */
  lemma {:induction false} SplitJoin<T>(pieces: seq<seq<T>>, sep: T)
    requires |pieces| >= 1
    requires forall piece :: piece in pieces ==> sep !in piece
    ensures Split(Join(pieces, sep), sep) == pieces
  {
    if |pieces| == 1 {
      SplitNoSep(pieces[0], sep);
    } else {
      SplitJoin(pieces[1..], sep);
      SplitSepAfter(pieces[0], Join(pieces[1..], sep), sep);
      assert pieces == [pieces[0]] + pieces[1..];
    }
  }

  lemma {:induction false} SplitNoSep<T>(s: seq<T>, sep: T)
    requires sep !in s
    ensures Split(s, sep) == [s]
  {
    if |s| > 0 {
      SplitNoSep(s[1..], sep);
      assert s == [s[0]] + s[1..];
    }
  }

  /** A separator-free head followed by the separator starts a new piece. */
  lemma {:induction false} SplitSepAfter<T>(head: seq<T>, tail: seq<T>, sep: T)
    requires sep !in head
    ensures Split(head + [sep] + tail, sep) == [head] + Split(tail, sep)
  {
    if |head| == 0 {
      assert head + [sep] + tail == [sep] + tail;
      assert ([sep] + tail)[1..] == tail;
    } else {
      SplitSepAfter(head[1..], tail, sep);
      assert (head + [sep] + tail)[1..] == head[1..] + [sep] + tail;
      assert head == [head[0]] + head[1..];
    }
  }

  /** Splitting a concatenation: the pieces of `a` except its last, then the
      pieces of that last piece continued by `b`. This is what lets a reader
      split chunk by chunk, carrying only the unfinished last piece. */
  lemma {:induction false} SplitAppend<T>(a: seq<T>, b: seq<T>, sep: T)
    ensures var pa := Split(a, sep);
      Split(a + b, sep) == pa[..|pa| - 1] + Split(Last(pa) + b, sep)
  {
    if |a| == 0 {
      assert a + b == b;
    } else {
      var x, a' := a[0], a[1..];
      SplitAppend(a', b, sep);
      assert a == [x] + a' && a + b == [x] + (a' + b);
      SplitCons(x, a', sep);
      SplitCons(x, a' + b, sep);
      if x == sep {
        SplitAppendSep(Split(a', sep), Split(a' + b, sep), b, sep);
      } else {
        SplitAppendOther(x, a', b, sep);
      }
    }
  }

  lemma SplitCons<T>(x: T, s: seq<T>, sep: T)
    ensures Split([x] + s, sep)
         == if x == sep then [[]] + Split(s, sep) else [[x] + Split(s, sep)[0]] + Split(s, sep)[1..]
  {
    assert ([x] + s)[1..] == s;
  }

  lemma SplitAppendSep<T>(pa': seq<seq<T>>, r: seq<seq<T>>, b: seq<T>, sep: T)
    requires |pa'| >= 1
    requires r == pa'[..|pa'| - 1] + Split(Last(pa') + b, sep)
    ensures var pa := [[]] + pa';
      [[]] + r == pa[..|pa| - 1] + Split(Last(pa) + b, sep)
  {
    assert ([[]] + pa')[..|pa'|] == [[]] + pa'[..|pa'| - 1];
  }

  lemma SplitAppendOther<T>(x: T, a': seq<T>, b: seq<T>, sep: T)
    requires x != sep
    requires var pa' := Split(a', sep);
      Split(a' + b, sep) == pa'[..|pa'| - 1] + Split(Last(pa') + b, sep)
    ensures var pa := [[x] + Split(a', sep)[0]] + Split(a', sep)[1..];
      [[x] + Split(a' + b, sep)[0]] + Split(a' + b, sep)[1..]
        == pa[..|pa| - 1] + Split(Last(pa) + b, sep)
  {
    var pa' := Split(a', sep);
    if |pa'| == 1 {
      SplitAppendOtherSingle(x, a', b, sep);
    } else {
      ReplaceHeadShift(pa', Split(Last(pa') + b, sep), Split(a' + b, sep), [x] + pa'[0]);
    }
  }

  lemma SplitAppendOtherSingle<T>(x: T, a': seq<T>, b: seq<T>, sep: T)
    requires x != sep && |Split(a', sep)| == 1
    ensures var pa := [[x] + Split(a', sep)[0]];
      [[x] + Split(a' + b, sep)[0]] + Split(a' + b, sep)[1..]
        == pa[..0] + Split(Last(pa) + b, sep)
  {
    assert Split(a', sep)[0] == a' by { JoinSplit(a', sep); }
    ConcatAssoc([x], a', b);
    SplitCons(x, a' + b, sep);
  }

  /** Replacing the head of a sequence of at least two elements commutes with
      dropping its last element and appending. */
  lemma ReplaceHeadShift<U>(p: seq<U>, q: seq<U>, r: seq<U>, h: U)
    requires |p| >= 2 && r == p[..|p| - 1] + q
    ensures r[0] == p[0]
    ensures [h] + r[1..] == ([h] + p[1..])[..|p| - 1] + q
    ensures Last([h] + p[1..]) == Last(p)
  {
    assert r[1..] == p[1..|p| - 1] + q;
    assert ([h] + p[1..])[..|p| - 1] == [h] + p[1..|p| - 1];
  }

  /** Splitting at the last separator: everything before it splits on its own
      and everything after it is the last piece. */
  lemma SplitAtLast<T>(x: seq<T>, y: seq<T>, sep: T)
    requires sep !in y
    ensures Split(x + [sep] + y, sep) == Split(x, sep) + [y]
  {
    var px := Split(x, sep);
    var l := Last(px);
    SplitAppendSepAfter(x, y, sep);
    assert sep !in l by { SplitPiecesFree(x, sep); assert l in px; }
    SplitTwo(l, y, sep);
    DropLastSnoc(px);
    ConcatAssoc(px[..|px| - 1], [l], [y]);
  }

  lemma SplitAppendSepAfter<T>(x: seq<T>, y: seq<T>, sep: T)
    ensures var px := Split(x, sep);
      Split(x + [sep] + y, sep) == px[..|px| - 1] + Split(Last(px) + [sep] + y, sep)
  {
    assert x + [sep] + y == x + ([sep] + y);
    assert Last(Split(x, sep)) + ([sep] + y) == Last(Split(x, sep)) + [sep] + y;
    SplitAppend(x, [sep] + y, sep);
  }

  lemma SplitTwo<T>(l: seq<T>, y: seq<T>, sep: T)
    requires sep !in l && sep !in y
    ensures Split(l + [sep] + y, sep) == [l, y]
  {
    SplitSepAfter(l, y, sep);
    SplitNoSep(y, sep);
  }

  lemma ConcatAssoc<U>(a: seq<U>, b: seq<U>, c: seq<U>)
    ensures a + (b + c) == (a + b) + c
  {
  }

  lemma DropLastSnoc<U>(p: seq<U>)
    requires |p| > 0
    ensures p == p[..|p| - 1] + [Last(p)]
  {
  }
}
