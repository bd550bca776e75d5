/** Run-length compression of a row order into ranges within chunks, and windows over it
    (crates/array/src/chunking.rs and the tracker of crates/data-core/src/table_sort.rs). */
module ChunkRanges {
  import opened ArrayOffsets
  import opened Options
  import opened Picking

  datatype Range = Range(chunk: nat, offset: nat, len: nat)

  /** The absolute row a range starts at. */
  function Start(offsets: seq<nat>, isAbs: bool, r: Range): nat {
    if isAbs || r.chunk >= |offsets| then r.offset else offsets[r.chunk] + r.offset
  }

  function Expand(offsets: seq<nat>, isAbs: bool, ranges: seq<Range>): seq<nat> {
    if ranges == [] then []
    else
      var last := ranges[|ranges| - 1];
      Expand(offsets, isAbs, ranges[..|ranges| - 1]) + Run(Start(offsets, isAbs, last), last.len)
  }

  /** A non-empty range that lies in its chunk. */
  predicate Within(offsets: seq<nat>, isAbs: bool, r: Range) {
    && r.len > 0 && r.chunk + 1 < |offsets|
    && offsets[r.chunk] <= Start(offsets, isAbs, r)
    && Start(offsets, isAbs, r) + r.len <= offsets[r.chunk + 1]
  }

  predicate Mergeable(r: Range, s: Range) {
    r.chunk == s.chunk && r.offset + r.len == s.offset
  }

  ghost predicate Compressed(offsets: seq<nat>, isAbs: bool, ranges: seq<Range>) {
    && (forall i :: 0 <= i < |ranges| ==> Within(offsets, isAbs, ranges[i]))
    && (forall i :: 0 < i < |ranges| ==> !Mergeable(ranges[i - 1], ranges[i]))
  }

  lemma {:induction false} ExpandAppend(offsets: seq<nat>, isAbs: bool, ranges: seq<Range>, r: Range)
    ensures Expand(offsets, isAbs, ranges + [r]) == Expand(offsets, isAbs, ranges) + Run(Start(offsets, isAbs, r), r.len)
  {
  }

  lemma {:induction false} ExpandLonger(offsets: seq<nat>, isAbs: bool, ranges: seq<Range>, r: Range)
    ensures Expand(offsets, isAbs, ranges + [r.(len := r.len + 1)])
         == Expand(offsets, isAbs, ranges + [r]) + [Start(offsets, isAbs, r) + r.len]
  {
  }

  lemma {:induction false} ExpandNext(offsets: seq<nat>, isAbs: bool, ranges: seq<Range>, r: Range)
    requires r.len == 1
    ensures Expand(offsets, isAbs, ranges + [r]) == Expand(offsets, isAbs, ranges) + [Start(offsets, isAbs, r)]
  {
  }

  lemma {:induction false} CompressedLonger(offsets: seq<nat>, isAbs: bool, ranges: seq<Range>, r: Range)
    requires Compressed(offsets, isAbs, ranges + [r]) && Within(offsets, isAbs, r.(len := r.len + 1))
    ensures Compressed(offsets, isAbs, ranges + [r.(len := r.len + 1)])
  {
    var was, now := ranges + [r], ranges + [r.(len := r.len + 1)];
    assert forall i :: 0 <= i < |ranges| ==> now[i] == was[i];
    assert was[|ranges|] == r;
  }

  lemma {:induction false} CompressedNext(offsets: seq<nat>, isAbs: bool, ranges: seq<Range>, r: Range)
    requires Compressed(offsets, isAbs, ranges) && Within(offsets, isAbs, r)
    requires ranges != [] ==> !Mergeable(ranges[|ranges| - 1], r)
    ensures Compressed(offsets, isAbs, ranges + [r])
  {
  }

  /** Splits an order into runs of consecutive rows of one chunk, none of which could be joined. */
  method BuildOrderList(offsets: seq<nat>, order: seq<nat>, isAbs: bool) returns (ranges: seq<Range>)
    requires offsets != [] && offsets[0] == 0 && Strict(offsets)
    requires forall i :: 0 <= i < |order| ==> order[i] < offsets[|offsets| - 1]
    ensures Expand(offsets, isAbs, ranges) == order
    ensures Compressed(offsets, isAbs, ranges)
  {
    hide Expand, Compressed, Mergeable;
    ranges := [];
    assert Expand(offsets, isAbs, ranges) == [] && Compressed(offsets, isAbs, ranges) by { NothingExpanded(offsets, isAbs); }
    var last := Range(|offsets| - 1, 0, 0);  // a chunk that does not exist
    var prev := 0;
    for k := 0 to |order|
      invariant last.chunk < |offsets| && (last.len == 0 <==> k == 0)
      invariant k == 0 ==> last.chunk == |offsets| - 1 && ranges == []
      invariant k > 0 ==> Within(offsets, isAbs, last) && Start(offsets, isAbs, last) + last.len == prev + 1
      invariant Expand(offsets, isAbs, Emitted(ranges, last)) == order[..k]
      invariant Compressed(offsets, isAbs, Emitted(ranges, last))
    {
      var i := order[k];
      var chunk := GetOffsetPosition(offsets, i, last.chunk);
      assert order[..k + 1] == order[..k] + [i];
      if chunk == last.chunk && prev + 1 == i {
        ExpandLonger(offsets, isAbs, ranges, last);
        CompressedLonger(offsets, isAbs, ranges, last);
        last := last.(len := last.len + 1);
      } else {
        ranges := Emitted(ranges, last);
        ghost var was := last;
        last := Range(chunk, if isAbs then i else i - offsets[chunk], 1);
        ExpandNext(offsets, isAbs, ranges, last);
        assert k > 0 ==> !Mergeable(was, last) by { Apart(offsets, isAbs, was, last, prev, i); }
        CompressedNext(offsets, isAbs, ranges, last);
      }
      prev := i;
    }
    ranges := Emitted(ranges, last);
    assert order[..|order|] == order;
  }

  /** The finished ranges together with the one being built. */
  function Emitted(ranges: seq<Range>, last: Range): seq<Range> {
    if last.len > 0 then ranges + [last] else ranges
  }

  lemma {:induction false} Apart(offsets: seq<nat>, isAbs: bool, was: Range, last: Range, prev: nat, i: nat)
    requires was.len > 0 ==> Within(offsets, isAbs, was) && Start(offsets, isAbs, was) + was.len == prev + 1
    requires Within(offsets, isAbs, last) && Start(offsets, isAbs, last) == i
    requires !(last.chunk == was.chunk && prev + 1 == i)
    ensures was.len > 0 ==> !Mergeable(was, last)
  {
  }

  lemma {:induction false} NothingExpanded(offsets: seq<nat>, isAbs: bool)
    ensures Expand(offsets, isAbs, []) == [] && Compressed(offsets, isAbs, [])
  {
  }

  // ---- windows over a compressed order ----

  /** The rows a list of absolute ranges stands for. */
  function Rows(chunks: seq<Range>): seq<nat> {
    Expand([], true, chunks)
  }

  lemma {:induction false} RowsAreExpanded(offsets: seq<nat>, chunks: seq<Range>)
    ensures Rows(chunks) == Expand(offsets, true, chunks)
  {
    if chunks != [] { RowsAreExpanded(offsets, chunks[..|chunks| - 1]); }
  }

  lemma {:induction false} RowsOne(r: Range)
    ensures Rows([r]) == Run(r.offset, r.len)
  {
    ExpandAppend([], true, [], r);
    assert [] + [r] == [r];
  }

  lemma {:induction false} RowsJoin(a: seq<Range>, b: seq<Range>)
    ensures Rows(a + b) == Rows(a) + Rows(b)
  {
    if b == [] {
      assert a + b == a;
    } else {
      var init := b[..|b| - 1];
      RowsJoin(a, init);
      assert (a + b)[..|a + b| - 1] == a + init;
      assert a + b != [] && (a + b)[|a + b| - 1] == b[|b| - 1];
    }
  }

  /** How many rows come before chunk `i`. */
  function Before(chunks: seq<Range>, i: nat): nat
    requires i <= |chunks|
  {
    |Rows(chunks[..i])|
  }

  lemma {:induction false} BeforeStep(chunks: seq<Range>, i: nat)
    requires i < |chunks|
    ensures Before(chunks, i + 1) == Before(chunks, i) + chunks[i].len
  {
    assert chunks[..i + 1] == chunks[..i] + [chunks[i]];
    RowsJoin(chunks[..i], [chunks[i]]);
    RowsOne(chunks[i]);
  }

  lemma {:induction false} BeforeAll(chunks: seq<Range>)
    ensures Before(chunks, 0) == 0 && Before(chunks, |chunks|) == |Rows(chunks)|
  {
    assert chunks[..|chunks|] == chunks;
  }

  lemma {:induction false} BeforeIsSum(chunks: seq<Range>, i: nat)
    requires i <= |chunks|
    ensures Before(chunks, i) == Sum(Lengths(chunks)[..i])
  {
    if i > 0 {
      BeforeIsSum(chunks, i - 1);
      BeforeStep(chunks, i - 1);
      assert Lengths(chunks)[..i][..i - 1] == Lengths(chunks)[..i - 1];
    }
  }

  function Lengths(chunks: seq<Range>): (r: seq<nat>)
    ensures |r| == |chunks| && forall i :: 0 <= i < |chunks| ==> r[i] == chunks[i].len
  {
    seq(|chunks|, i requires 0 <= i < |chunks| => chunks[i].len)
  }

  /** Whole chunks `sp..ep` are the rows between their boundaries. */
  lemma {:induction false} RowsBetween(chunks: seq<Range>, sp: nat, ep: nat)
    requires sp <= ep <= |chunks|
    ensures Before(chunks, sp) <= Before(chunks, ep) <= |Rows(chunks)|
    ensures Rows(chunks[sp..ep]) == Rows(chunks)[Before(chunks, sp)..Before(chunks, ep)]
  {
    hide Rows;
    assert chunks[..ep] == chunks[..sp] + chunks[sp..ep];
    RowsJoin(chunks[..sp], chunks[sp..ep]);
    assert chunks == chunks[..ep] + chunks[ep..];
    RowsJoin(chunks[..ep], chunks[ep..]);
  }

  /** The part of chunk `i` that starts `d` rows in and is `n` rows long. */
  function Piece(chunks: seq<Range>, i: nat, d: nat, n: nat): Range
    requires i < |chunks|
  {
    Range(chunks[i].chunk, chunks[i].offset + d, n)
  }

  lemma {:induction false} PieceRows(chunks: seq<Range>, i: nat, d: nat, n: nat)
    requires i < |chunks| && d + n <= chunks[i].len
    ensures Before(chunks, i) + d + n <= |Rows(chunks)|
    ensures Rows([Piece(chunks, i, d, n)]) == Rows(chunks)[Before(chunks, i) + d..Before(chunks, i) + d + n]
  {
    hide Rows;
    RowsBetween(chunks, i, i + 1);
    BeforeStep(chunks, i);
    assert chunks[i..i + 1] == [chunks[i]];
    RowsOne(chunks[i]);
    RowsOne(Piece(chunks, i, d, n));
    RunSlice(chunks[i].offset, chunks[i].len, d, n);
    hide Run;
    SliceSlice(Rows(chunks), Before(chunks, i), Before(chunks, i + 1), d, n);
  }

  lemma {:induction false} RunSlice(offset: nat, len: nat, d: nat, n: nat)
    requires d + n <= len
    ensures Run(offset + d, n) == Run(offset, len)[d..d + n]
  {
  }

  lemma {:induction false} SliceSlice(s: seq<nat>, a: nat, b: nat, d: nat, n: nat)
    requires a <= b <= |s| && d + n <= b - a
    ensures s[a..b][d..d + n] == s[a + d..a + d + n]
  {
    var x, y := s[a..b][d..d + n], s[a + d..a + d + n];
    assert |x| == |y| && forall i :: 0 <= i < n ==> x[i] == y[i];
  }

  /** `offsets` are the row positions at which the chunks start, and no chunk is empty. */
  ghost predicate Positions(chunks: seq<Range>, offsets: seq<nat>) {
    && |offsets| == |chunks| + 1
    && (forall i :: 0 <= i <= |chunks| ==> offsets[i] == Before(chunks, i))
    && (forall i :: 0 <= i < |chunks| ==> chunks[i].len > 0)
  }

  lemma {:induction false} PositionsAscend(chunks: seq<Range>, offsets: seq<nat>)
    requires Positions(chunks, offsets)
    ensures Strict(offsets) && offsets[0] == 0 && offsets[|offsets| - 1] == |Rows(chunks)|
  {
    hide Before, Rows;
    BeforeAll(chunks);
    forall i, j | 0 <= i < j < |offsets| ensures offsets[i] < offsets[j] { BeforeAscends(chunks, i, j); }
  }

  lemma {:induction false} BeforeAscends(chunks: seq<Range>, i: nat, j: nat)
    requires i < j <= |chunks| && forall k :: 0 <= k < |chunks| ==> chunks[k].len > 0
    ensures Before(chunks, i) < Before(chunks, j)
  {
    BeforeStep(chunks, j - 1);
    if i < j - 1 { BeforeAscends(chunks, i, j - 1); }
  }

  /** `r` is a non-empty part of one of the chunks. */
  ghost predicate PartOf(chunks: seq<Range>, r: Range) {
    r.len > 0 && exists i :: 0 <= i < |chunks| && r.chunk == chunks[i].chunk
                             && chunks[i].offset <= r.offset && r.offset + r.len <= chunks[i].offset + chunks[i].len
  }

  /** What a search answers: a partial first chunk, whole chunks, a partial last chunk. */
  datatype Found = Found(first: Option<Range>, middle: seq<Range>, last: Option<Range>) {
    function Ranges(): seq<Range> {
      Listed(first) + middle + Listed(last)
    }
  }

  function Listed(r: Option<Range>): seq<Range> {
    if r.Some? then [r.value] else []
  }

  lemma {:induction false} NoRows()
    ensures Rows([]) == []
  {
  }

  /** The chunks from `sp` up to the one that holds the last row, cut at `end`. */
  function Tail(chunks: seq<Range>, offsets: seq<nat>, first: Option<Range>, sp: nat, ep: nat, end: nat): Found
    requires sp <= ep < |chunks| && |offsets| == |chunks| + 1 && offsets[ep + 1] <= chunks[ep].len + end
  {
    if offsets[ep + 1] > end
    then Found(first, chunks[sp..ep], Some(Piece(chunks, ep, 0, chunks[ep].len + end - offsets[ep + 1])))
    else Found(first, chunks[sp..ep + 1], None)
  }

  lemma {:induction false} TailRows(chunks: seq<Range>, offsets: seq<nat>, first: Option<Range>,
                                    sp: nat, ep: nat, start: nat, end: nat)
    requires Positions(chunks, offsets) && end > 0 && sp <= ep && Holds(offsets, end - 1, ep) && start <= offsets[sp] < end
    requires end <= |Rows(chunks)| && offsets[sp] <= |Rows(chunks)|
    requires Rows(Listed(first)) == Rows(chunks)[start..offsets[sp]]
    ensures offsets[ep + 1] <= chunks[ep].len + end
    ensures Rows(Tail(chunks, offsets, first, sp, ep, end).Ranges()) == Rows(chunks)[start..end]
  {
    hide Rows, Before;
    BeforeStep(chunks, ep);
    var r := Tail(chunks, offsets, first, sp, ep, end);
    RowsBetween(chunks, sp, ep);
    RowsBetween(chunks, sp, ep + 1);
    NoRows();
    RowsJoin(Listed(first) + r.middle, Listed(r.last));
    RowsJoin(Listed(first), r.middle);
    var rows := Rows(chunks);
    if offsets[ep + 1] > end {
      PieceRows(chunks, ep, 0, r.last.value.len);
      SliceJoin(rows, start, offsets[sp], offsets[ep]);
      SliceJoin(rows, start, offsets[ep], end);
    } else {
      assert offsets[ep + 1] == end;
      SliceJoin(rows, start, offsets[sp], end);
    }
  }

  lemma {:induction false} SliceJoin(s: seq<nat>, a: nat, b: nat, c: nat)
    requires a <= b <= c <= |s|
    ensures s[a..b] + s[b..c] == s[a..c]
  {
  }

  lemma {:induction false} TailParts(chunks: seq<Range>, offsets: seq<nat>, first: Option<Range>, sp: nat, ep: nat, end: nat)
    requires Positions(chunks, offsets) && end > 0 && sp <= ep && Holds(offsets, end - 1, ep)
    requires first.Some? ==> PartOf(chunks, first.value)
    ensures offsets[ep + 1] <= chunks[ep].len + end
    ensures forall p :: p in Tail(chunks, offsets, first, sp, ep, end).Ranges() ==> PartOf(chunks, p)
  {
    BeforeStep(chunks, ep);
    var r := Tail(chunks, offsets, first, sp, ep, end);
    forall p | p in r.Ranges() ensures PartOf(chunks, p) {
      if p in r.middle {
        var k :| 0 <= k < |r.middle| && r.middle[k] == p;
        assert p == chunks[sp + k];
      } else if p in Listed(r.last) {
        assert p.chunk == chunks[ep].chunk && p.offset == chunks[ep].offset;
      }
    }
  }

  /** A window that starts inside chunk `sp` takes the rest of that chunk, or less when it is shorter. */
  function Head(chunks: seq<Range>, offsets: seq<nat>, sp: nat, start: nat, len: nat): Range
    requires sp < |chunks| && |offsets| == |chunks| + 1 && offsets[sp] <= start <= offsets[sp] + chunks[sp].len
  {
    var d := start - offsets[sp];
    Piece(chunks, sp, d, if chunks[sp].len - d < len then chunks[sp].len - d else len)
  }

  lemma {:induction false} HeadRows(chunks: seq<Range>, offsets: seq<nat>, sp: nat, start: nat, len: nat)
    requires Positions(chunks, offsets) && Holds(offsets, start, sp) && len > 0 && start + len <= |Rows(chunks)|
    ensures offsets[sp + 1] == offsets[sp] + chunks[sp].len <= |Rows(chunks)|
    ensures var end := if offsets[sp + 1] < start + len then offsets[sp + 1] else start + len;
            Rows([Head(chunks, offsets, sp, start, len)]) == Rows(chunks)[start..end]
    ensures PartOf(chunks, Head(chunks, offsets, sp, start, len))
  {
    hide Rows, Before;
    BeforeStep(chunks, sp);
    RowsBetween(chunks, sp, sp + 1);
    var head := Head(chunks, offsets, sp, start, len);
    PieceRows(chunks, sp, start - offsets[sp], head.len);
  }

  lemma {:induction false} HeadWhole(chunks: seq<Range>, offsets: seq<nat>, sp: nat, start: nat, len: nat)
    requires sp < |chunks| && |offsets| == |chunks| + 1 && offsets[sp] == start && len <= chunks[sp].len
    ensures Head(chunks, offsets, sp, start, len) == Piece(chunks, sp, 0, len)
  {
  }

  lemma {:induction false} HoldsInOrder(offsets: seq<nat>, sp: nat, ep: nat, index: nat)
    requires Strict(offsets) && Holds(offsets, index, ep) && sp < |offsets| && offsets[sp] <= index
    ensures sp <= ep
  {
  }

  class ChunkTracker {
    var chunks: seq<Range>
    var offsets: seq<nat>
    var lastStart: nat
    var lastEnd: nat

    ghost predicate Valid()
      reads this
    {
      Positions(chunks, offsets) && lastStart < |offsets| && lastEnd < |offsets|
    }

    constructor (batchOffsets: seq<nat>, order: seq<nat>)
      requires batchOffsets != [] && batchOffsets[0] == 0 && Strict(batchOffsets)
      requires forall i :: 0 <= i < |order| ==> order[i] < batchOffsets[|batchOffsets| - 1]
      ensures Valid() && Rows(chunks) == order && Compressed(batchOffsets, true, chunks)
    {
      var list := BuildOrderList(batchOffsets, order, true);
      var positions := BuildOffsets(0, Lengths(list));
      chunks, offsets, lastStart, lastEnd := list, positions, 0, 0;
      RowsAreExpanded(batchOffsets, list);
      forall i | 0 <= i <= |list| ensures positions[i] == Before(list, i) { BeforeIsSum(list, i); }
    }

    /** The pieces that hold the rows of a window, whatever was searched before. */
    method Find(offset: nat, len: nat) returns (r: Found)
      requires Valid() && len > 0 && offset + len <= |Rows(chunks)|
      modifies this`lastStart, this`lastEnd
      ensures Valid()
      ensures Rows(r.Ranges()) == Rows(chunks)[offset..offset + len]
      ensures forall p :: p in r.Ranges() ==> PartOf(chunks, p)
    {
      hide Rows, Positions, PartOf, Strict, Head, Tail;
      assert |offsets| == |chunks| + 1 by { Counted(chunks, offsets); }
      PositionsAscend(chunks, offsets);
      var start, end := offset, offset + len;
      lastStart := GetOffsetPosition(offsets, start, lastStart);
      var sp := lastStart;
      var first := None;
      HeadRows(chunks, offsets, sp, start, len);
      if offsets[sp] < start {
        first := Some(Head(chunks, offsets, sp, start, len));
      }
      if offsets[sp + 1] >= end {
        if first.None? {
          first := Some(Piece(chunks, sp, 0, len));
          HeadWhole(chunks, offsets, sp, start, len);
        }
        r := Found(first, [], None);
        assert r.Ranges() == [first.value];
        return;
      }
      if first.Some? { sp := sp + 1; }
      assert Rows(Listed(first)) == Rows(chunks)[start..offsets[sp]] by { if first.None? { NoRows(); } }
      lastEnd := GetOffsetPosition(offsets, end - 1, lastEnd);
      var ep := lastEnd;
      HoldsInOrder(offsets, sp, ep, end - 1);
      TailRows(chunks, offsets, first, sp, ep, start, end);
      TailParts(chunks, offsets, first, sp, ep, end);
      r := Tail(chunks, offsets, first, sp, ep, end);
    }
  }

  lemma {:induction false} Counted(chunks: seq<Range>, offsets: seq<nat>)
    requires Positions(chunks, offsets)
    ensures |offsets| == |chunks| + 1
  {
  }
}
