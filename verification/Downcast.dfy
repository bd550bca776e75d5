/** Narrowing block-number and item-index columns to the width that all registered values fit
    (crates/data-core/src/downcast.rs, crates/array/src/item_index_cast.rs, crates/data-core/src/table_processor.rs). */
module Downcast {
  import opened Bits
  import opened ColumnBuffers
  import opened ColumnGrowth
  import opened ColumnSelect
  import opened ColumnWriters
  import opened ColumnWrites
  import opened Columns
  import opened Options
  import opened OffsetsBuilders
  import opened Picking

  datatype Width = W8 | W16 | W32 | W64

  const U16_MAX := 0xFFFF
  const U32_MAX := 0xFFFF_FFFF
  const STEP := 1000

  /** The first number that does not fit. */
  function Limit(w: Width): nat {
    match w case W8 => 0x100 case W16 => 0x1_0000 case W32 => 0x1_0000_0000 case W64 => 0x1_0000_0000_0000_0000
  }

  function MinimalType(max: nat): (w: Width)
    requires max < Limit(W64)
    ensures max < Limit(w) && forall v :: Limit(v) < Limit(w) ==> Limit(v) <= max
  {
    if max < Limit(W8) then W8 else if max < Limit(W16) then W16 else if max < Limit(W32) then W32 else W64
  }

  /** A column of indexes, or of lists of indexes. */
  datatype IndexType = Plain(width: Width) | Lists(width: Width)

  function Layout(it: IndexType): Type {
    if it.Plain? then Prim else List(Prim)
  }

  /** The numbers of a column, including those behind nulls. */
  function Numbers(s: Slice, it: IndexType): seq<int>
    requires Typed(s, Layout(it))
  {
    if it.Plain? then s.values
    else
      assert s.offsets[0] <= s.offsets[|s.offsets| - 1] && Typed(s.items, Prim);
      s.items.values[s.offsets[0]..s.offsets[|s.offsets| - 1]]
  }

  ghost predicate Within(values: seq<int>, limit: nat) {
    forall i :: 0 <= i < |values| ==> 0 <= values[i] < limit
  }

  /** A well-formed column whose numbers have the declared width. */
  ghost predicate Column(s: Slice, it: IndexType) {
    Typed(s, Layout(it)) && Within(Numbers(s, it), Limit(it.width))
  }

  /** The greatest number of a column, or 0. */
  method GetMax(s: Slice, it: IndexType) returns (max: nat)
    requires Column(s, it)
    ensures Within(Numbers(s, it), max + 1) && max < Limit(it.width) && (max == 0 || max in Numbers(s, it))
  {
    var values := Numbers(s, it);
    max := 0;
    for i := 0 to |values|
      invariant max < Limit(it.width) && (max == 0 || max in values) && forall k :: 0 <= k < i ==> 0 <= values[k] <= max
    {
      if values[i] > max { max := values[i]; }
    }
  }

  class DowncastState {
    var maxBlockNumber: nat
    var maxItemIndex: nat

    ghost predicate Valid()
      reads this
    {
      U32_MAX <= maxBlockNumber < Limit(W64) && U16_MAX <= maxItemIndex < Limit(W64)
    }

    constructor ()
      ensures Valid() && maxBlockNumber == U32_MAX && maxItemIndex == U16_MAX
    {
      maxBlockNumber, maxItemIndex := U32_MAX, U16_MAX;
    }

    method Reset()
      modifies this
      ensures Valid() && maxBlockNumber == U32_MAX && maxItemIndex == U16_MAX
    {
      maxBlockNumber, maxItemIndex := U32_MAX, U16_MAX;
    }

    method RegBlockNumber(s: Slice, it: IndexType)
      requires Valid() && Column(s, it)
      modifies this`maxBlockNumber
      ensures Valid() && maxBlockNumber >= old(maxBlockNumber) && Within(Numbers(s, it), maxBlockNumber + 1)
      ensures maxBlockNumber == old(maxBlockNumber) || maxBlockNumber in Numbers(s, it)
      ensures forall w :: old(maxBlockNumber) < Limit(w) && Limit(it.width) <= Limit(w) ==> maxBlockNumber < Limit(w)
    {
      var max := GetMax(s, it);
      if max > maxBlockNumber { maxBlockNumber := max; }
    }

    method RegItemIndex(s: Slice, it: IndexType)
      requires Valid() && Column(s, it)
      modifies this`maxItemIndex
      ensures Valid() && maxItemIndex >= old(maxItemIndex) && Within(Numbers(s, it), maxItemIndex + 1)
      ensures maxItemIndex == old(maxItemIndex) || maxItemIndex in Numbers(s, it)
      ensures forall w :: old(maxItemIndex) < Limit(w) && Limit(it.width) <= Limit(w) ==> maxItemIndex < Limit(w)
    {
      var max := GetMax(s, it);
      if max > maxItemIndex { maxItemIndex := max; }
    }
  }

  // ---- casting ----

  /** Which casts exist at all. */
  predicate CastExists(from: IndexType, to: IndexType) {
    match (from, to)
    case (Plain(W16), Plain(W32)) => true
    case (Plain(W32), Plain(W16)) => true
    case (Plain(W32), Plain(W64)) => true
    case (Plain(W64), Plain(W32)) => true
    case (Plain(W64), Plain(W16)) => true
    case (Lists(W16), Lists(W32)) => true
    case (Lists(W32), Lists(W16)) => true
    case _ => false
  }

  /** Writes a column number by number; a number that does not fit is replaced and reported at the end. */
  method CastPrimitive(s: Slice, limit: nat, dst: Destination, pos: nat) returns (ok: bool)
    requires s.PrimSlice? && Typed(s, Prim) && Kinded(Prim, dst.buffers, pos)
    modifies dst
    ensures SameKinds(old(dst.buffers), dst.buffers)
    ensures ok <==> Within(s.values, limit)
    ensures Below(Run(0, Len(s)), Len(s))
    ensures ok ==> dst.buffers == Appended(s, Prim, old(dst.buffers), pos, Run(0, Len(s)))
  {
    hide BitAt;
    dst.WriteNulls(pos, NullsRange(s.nulls, 0, s.nulls.len));
    var out := [];
    ok := true;
    for i := 0 to |s.values|
      invariant |out| == i && (ok <==> Within(s.values[..i], limit)) && (ok ==> out == s.values[..i])
    {
      assert s.values[..i + 1] == s.values[..i] + [s.values[i]];
      if 0 <= s.values[i] < limit {
        out := out + [s.values[i]];
      } else {
        ok, out := false, out + [0];
      }
    }
    assert s.values[..|s.values|] == s.values == s.values[0..|s.values|];
    PickRun(s.values, 0, |s.values|);
    dst.WriteNatives(pos + 1, out);
  }

  /** Casts a column; the outcome says whether the cast exists and every number fits. */
  method CastItemIndex(s: Slice, from: IndexType, to: IndexType, dst: Destination, pos: nat) returns (ok: bool)
    requires Column(s, from) && Kinded(Layout(from), dst.buffers, pos)
    modifies dst
    ensures SameKinds(old(dst.buffers), dst.buffers) && Below(Run(0, Len(s)), Len(s))
    ensures ok <==> CastExists(from, to) && Within(Numbers(s, from), Limit(to.width))
    ensures ok ==> dst.buffers == Appended(s, Layout(from), old(dst.buffers), pos, Run(0, Len(s)))
  {
    if !CastExists(from, to) {
      return false;
    }
    if from.Plain? {
      ok := CastPrimitive(s, Limit(to.width), dst, pos);
    } else {
      ok := CastAddress(s, to.width, dst, pos);
    }
  }

  method CastAddress(s: Slice, to: Width, dst: Destination, pos: nat) returns (ok: bool)
    requires Typed(s, List(Prim)) && Kinded(List(Prim), dst.buffers, pos)
    modifies dst
    ensures SameKinds(old(dst.buffers), dst.buffers) && Below(Run(0, Len(s)), Len(s))
    ensures ok <==> Within(Numbers(s, Lists(to)), Limit(to))
    ensures ok ==> dst.buffers == Appended(s, List(Prim), old(dst.buffers), pos, Run(0, Len(s)))
  {
    hide BitAt, Typed, Kinded, Appended, Ascending, SpanIndexes, Numbers, Sub, Within;
    ListNumbers(s, Lists(to));
    ghost var rows, n := Run(0, Len(s)), Len(s);
    ListUnfolds(s, List(Prim), dst.buffers, pos, rows);
    ItemsOfRun(s.offsets, 0, n);
    var lo, hi := s.offsets[0], s.offsets[|s.offsets| - 1];
    dst.WriteNulls(pos, NullsRange(s.nulls, 0, s.nulls.len));
    dst.WriteOffsets(pos + 1, s.offsets, 0, |s.offsets| - 1);
    AppendedSub(s.items, Prim, lo, hi - lo, dst.buffers, pos + 2, Run(0, hi - lo));
    assert Shifted(Run(0, hi - lo), lo) == Run(lo, hi - lo);
    ok := CastPrimitive(Sub(s.items, Prim, lo, hi - lo).value, Limit(to), dst, pos + 2);
  }

  lemma {:induction false} ListNumbers(s: Slice, it: IndexType)
    requires it.Lists? && Typed(s, List(Prim))
    ensures s.ListSlice? && |s.offsets| == Len(s) + 1 && s.items.PrimSlice? && Typed(s.items, Prim)
    ensures var lo, hi := s.offsets[0], s.offsets[|s.offsets| - 1];
            && lo <= hi <= Len(s.items)
            && var items := Sub(s.items, Prim, lo, hi - lo);
            && items.Some? && items.value.PrimSlice? && items.value.values == Numbers(s, it)
  {
    assert Typed(s.items, Prim);
  }

  // ---- appending in steps ----

  lemma {:induction false} PrimSteps(s: Slice, dst: seq<Buffer>, pos: nat, a: seq<nat>, b: seq<nat>)
    requires Typed(s, Prim) && Kinded(Prim, dst, pos) && Below(a, Len(s)) && Below(b, Len(s))
    ensures Below(a + b, Len(s)) && Kinded(Prim, Appended(s, Prim, dst, pos, a), pos)
    ensures Appended(s, Prim, Appended(s, Prim, dst, pos, a), pos, b) == Appended(s, Prim, dst, pos, a + b)
  {
    hide Typed, Kinded, Appended, BitAt, Pick;
    var d := Appended(s, Prim, dst, pos, a);
    KindedSame(Prim, dst, d, pos);
    PrimAppended(s, dst, pos, a);
    PrimAppended(s, d, pos, b);
    PrimAppended(s, dst, pos, a + b);
    PickBehind(dst[pos].bits, s.nulls.Bits(), a, b);
    PickBehind(dst[pos + 1].values, s.values, a, b);
    assert d[pos] == NullBits(dst[pos].bits + Pick(s.nulls.Bits(), a));
    assert d[pos + 1] == Natives(dst[pos + 1].values + Pick(s.values, a));
  }

  lemma {:induction false} PickBehind<T>(x: seq<T>, s: seq<T>, a: seq<nat>, b: seq<nat>)
    requires Below(a, |s|) && Below(b, |s|)
    ensures (x + Pick(s, a)) + Pick(s, b) == x + Pick(s, a + b)
  {
    PickJoin(s, a, b);
  }

  /** A list's mask and offsets after rows were appended. */
  ghost function Heads(s: Slice, dst: seq<Buffer>, pos: nat, rows: seq<nat>): (r: seq<Buffer>)
    requires s.ListSlice? && s.nulls.Ok() && Ascending(s.offsets) && |s.offsets| == s.nulls.len + 1 && Below(rows, s.nulls.len)
    requires pos + 1 < |dst| && dst[pos].NullBits? && dst[pos + 1].Offsets? && dst[pos + 1].offsets != []
    ensures SameKinds(dst, r)
    ensures r == dst[pos := NullBits(dst[pos].bits + Pick(s.nulls.Bits(), rows))]
                    [pos + 1 := Offsets(Grown(dst[pos + 1].offsets, ItemSpans(s.offsets, rows)))]
  {
    PutLengths(PutNulls(dst, pos, Pick(s.nulls.Bits(), rows)), pos + 1, ItemSpans(s.offsets, rows))
  }

  lemma {:induction false} HeadSteps(s: Slice, dst: seq<Buffer>, pos: nat, a: seq<nat>, b: seq<nat>)
    requires s.ListSlice? && s.nulls.Ok() && Ascending(s.offsets) && |s.offsets| == s.nulls.len + 1
    requires Below(a, s.nulls.len) && Below(b, s.nulls.len)
    requires pos + 1 < |dst| && dst[pos].NullBits? && dst[pos + 1].Offsets? && dst[pos + 1].offsets != []
    ensures Below(a + b, s.nulls.len)
    ensures Heads(s, Heads(s, dst, pos, a), pos, b) == Heads(s, dst, pos, a + b)
    ensures SpanIndexes(ItemSpans(s.offsets, a)) + SpanIndexes(ItemSpans(s.offsets, b)) == SpanIndexes(ItemSpans(s.offsets, a + b))
  {
    hide Ascending, SpanIndexes, Grown, BitAt;
    PickJoin(s.nulls.Bits(), a, b);
    ItemSpansJoin(s.offsets, a, b);
    GrownJoin(dst[pos + 1].offsets, ItemSpans(s.offsets, a), ItemSpans(s.offsets, b));
    SpanIndexesJoin(ItemSpans(s.offsets, a), ItemSpans(s.offsets, b));
    assert (dst[pos].bits + Pick(s.nulls.Bits(), a)) + Pick(s.nulls.Bits(), b) == dst[pos].bits + Pick(s.nulls.Bits(), a + b);
  }

  /** Mask and offsets on one side and items on the other do not disturb each other. */
  lemma {:induction false} HeadsCommute(s: Slice, dst: seq<Buffer>, pos: nat, rows: seq<nat>, idx: seq<nat>)
    requires s.ListSlice? && s.nulls.Ok() && Ascending(s.offsets) && |s.offsets| == s.nulls.len + 1 && Below(rows, s.nulls.len)
    requires pos + 1 < |dst| && dst[pos].NullBits? && dst[pos + 1].Offsets? && dst[pos + 1].offsets != []
    requires Typed(s.items, Prim) && Kinded(Prim, dst, pos + 2) && Below(idx, Len(s.items))
    ensures var d := Appended(s.items, Prim, dst, pos + 2, idx);
            && pos + 1 < |d| && d[pos].NullBits? && d[pos + 1].Offsets? && d[pos + 1].offsets != []
            && Kinded(Prim, Heads(s, dst, pos, rows), pos + 2)
            && Heads(s, d, pos, rows) == Appended(s.items, Prim, Heads(s, dst, pos, rows), pos + 2, idx)
  {
    hide Ascending, Grown, BitAt, Typed, Kinded, Appended, Heads, ItemSpans;
    KindedSame(Prim, dst, Heads(s, dst, pos, rows), pos + 2);
    PrimAppended(s.items, dst, pos + 2, idx);
    PrimAppended(s.items, Heads(s, dst, pos, rows), pos + 2, idx);
  }

  lemma {:induction false} ListSteps(s: Slice, dst: seq<Buffer>, pos: nat, a: seq<nat>, b: seq<nat>)
    requires Typed(s, List(Prim)) && Kinded(List(Prim), dst, pos) && Below(a, Len(s)) && Below(b, Len(s))
    ensures Below(a + b, Len(s)) && Kinded(List(Prim), Appended(s, List(Prim), dst, pos, a), pos)
    ensures Appended(s, List(Prim), Appended(s, List(Prim), dst, pos, a), pos, b) == Appended(s, List(Prim), dst, pos, a + b)
  {
    hide Typed, Kinded, Appended, Ascending, SpanIndexes, ItemSpans, Grown;
    var t := List(Prim);
    var d := Appended(s, t, dst, pos, a);
    KindedSame(t, dst, d, pos);
    ListNumbers(s, Lists(W32));
    ListUnfolds(s, t, dst, pos, a);
    ListUnfolds(s, t, d, pos, b);
    ListUnfolds(s, t, dst, pos, a + b);
    var ia, ib := SpanIndexes(ItemSpans(s.offsets, a)), SpanIndexes(ItemSpans(s.offsets, b));
    HeadSteps(s, dst, pos, a, b);
    HeadsCommute(s, Heads(s, dst, pos, a), pos, b, ia);
    PrimSteps(s.items, Heads(s, dst, pos, a + b), pos + 2, ia, ib);
  }

  /** Appending two selections one after the other appends their concatenation. */
  lemma {:induction false} AppendedSteps(s: Slice, it: IndexType, dst: seq<Buffer>, pos: nat, a: seq<nat>, b: seq<nat>)
    requires Typed(s, Layout(it)) && Kinded(Layout(it), dst, pos) && Below(a, Len(s)) && Below(b, Len(s))
    ensures Below(a + b, Len(s)) && Kinded(Layout(it), Appended(s, Layout(it), dst, pos, a), pos)
    ensures Appended(s, Layout(it), Appended(s, Layout(it), dst, pos, a), pos, b) == Appended(s, Layout(it), dst, pos, a + b)
  {
    hide Typed, Kinded, Appended;
    if it.Plain? { PrimSteps(s, dst, pos, a, b); } else { ListSteps(s, dst, pos, a, b); }
  }

  // ---- reading a prepared column ----

  /** The type a column has in the prepared table. */
  function Prepared(it: IndexType, width: Width): IndexType {
    if it.Plain? then Plain(width) else Lists(width)
  }

  /** Either no cast is needed or there is one. */
  predicate Readable(from: IndexType, to: IndexType) {
    from == to || CastExists(from, to)
  }

  lemma {:induction false} SubColumn(s: Slice, it: IndexType, max: nat, offset: nat, n: nat)
    requires Typed(s, Layout(it)) && Within(Numbers(s, it), max + 1) && offset + n <= Len(s)
    ensures var sub := Sub(s, Layout(it), offset, n);
            && sub.Some? && Typed(sub.value, Layout(it)) && Len(sub.value) == n && Within(Numbers(sub.value, it), max + 1)
  {
    hide ValueAt, BitAt, Typed, Within;
    SubShows(s, Layout(it), offset, n);
    if it.Lists? {
      SubLists(s, it, offset, n);
    } else {
      SubPlain(s, it, offset, n);
    }
    SliceWithin(Numbers(s, it), max + 1);
  }

  lemma {:induction false} SliceWithin(values: seq<int>, limit: nat)
    requires Within(values, limit)
    ensures forall a, b :: 0 <= a <= b <= |values| ==> Within(values[a..b], limit)
  {
  }

  lemma {:induction false} SubPlain(s: Slice, it: IndexType, offset: nat, n: nat)
    requires it.Plain? && Typed(s, Prim) && offset + n <= Len(s)
    requires Sub(s, Prim, offset, n).Some? && Typed(Sub(s, Prim, offset, n).value, Prim)
    ensures offset + n <= |Numbers(s, it)| && Numbers(Sub(s, Prim, offset, n).value, it) == Numbers(s, it)[offset..offset + n]
  {
  }

  lemma {:induction false} ListParts(s: Slice)
    requires Typed(s, List(Prim))
    ensures s.ListSlice? && |s.offsets| == Len(s) + 1 && Ascending(s.offsets)
    ensures s.items.PrimSlice? && Typed(s.items, Prim) && s.offsets[Len(s)] <= Len(s.items)
  {
  }

  lemma {:induction false} SubLists(s: Slice, it: IndexType, offset: nat, n: nat)
    requires it.Lists? && Typed(s, List(Prim)) && offset + n <= Len(s)
    requires Sub(s, List(Prim), offset, n).Some? && Typed(Sub(s, List(Prim), offset, n).value, List(Prim))
    ensures s.ListSlice? && offset + n < |s.offsets| && Typed(s.items, Prim)
    ensures var lo, hi := s.offsets[offset] - s.offsets[0], s.offsets[offset + n] - s.offsets[0];
            && 0 <= lo <= hi <= |Numbers(s, it)| && Numbers(Sub(s, List(Prim), offset, n).value, it) == Numbers(s, it)[lo..hi]
  {
    hide Typed;
    ListParts(s);
    var o, sub := s.offsets, Sub(s, List(Prim), offset, n).value;
    assert o[0] <= o[offset] <= o[offset + n] <= o[|o| - 1];
    hide Ascending;
    assert sub.offsets == o[offset..offset + n + 1] && sub.items == s.items;
    assert sub.offsets[0] == o[offset] && sub.offsets[|sub.offsets| - 1] == o[offset + n];
    var values := s.items.values;
    assert Numbers(s, it) == values[o[0]..o[|o| - 1]] && Numbers(sub, it) == values[o[offset]..o[offset + n]];
    hide Numbers;
    SliceOfSlice(values, o[0], o[offset], o[offset + n], o[|o| - 1]);
  }

  lemma {:induction false} SliceOfSlice(values: seq<int>, a: nat, b: nat, c: nat, d: nat)
    requires a <= b <= c <= d <= |values|
    ensures values[a..d][b - a..c - a] == values[b..c]
  {
    forall k | 0 <= k < c - b ensures values[a..d][b - a..c - a][k] == values[b..c][k] {}
  }

  /** Reads a window, casting up to 1000 rows at a time. A step's rows are a view here; the original copies them first. */
  method ReadColumn(s: Slice, from: IndexType, max: nat, dst: Destination, pos: nat, offset: nat, n: nat) returns (ok: bool)
    requires Column(s, from) && Within(Numbers(s, from), max + 1) && max < Limit(W64)
    requires Kinded(Layout(from), dst.buffers, pos) && offset + n <= Len(s)
    modifies dst
    ensures Below(Run(offset, n), Len(s))
    ensures ok <==> n == 0 || Readable(from, Prepared(from, MinimalType(max)))
    ensures ok ==> dst.buffers == Appended(s, Layout(from), old(dst.buffers), pos, Run(offset, n))
  {
    hide Typed, Kinded, Appended, Numbers, Sub;
    var to := Prepared(from, MinimalType(max));
    if from == to || n == 0 {
      WriteRange(s, Layout(from), dst, pos, offset, n);
      return true;
    }
    var done := 0;
    AppendedNothing(s, Layout(from), dst.buffers, pos);
    assert Run(offset, 0) == [];
    while done < n
      invariant 0 <= done <= n && SameKinds(old(dst.buffers), dst.buffers)
      invariant done == 0 || CastExists(from, to)
      invariant dst.buffers == Appended(s, Layout(from), old(dst.buffers), pos, Run(offset, done))
    {
      var step := if n - done < STEP then n - done else STEP;
      ok := CastStep(s, from, to, max, dst, pos, offset, done, step, old(dst.buffers));
      if !ok {
        return;
      }
      done := done + step;
    }
    ok := true;
  }

  /** One step: the rows behind those already written. */
  method CastStep(s: Slice, from: IndexType, to: IndexType, max: nat, dst: Destination, pos: nat, offset: nat, done: nat,
                  step: nat, ghost start: seq<Buffer>) returns (ok: bool)
    requires Column(s, from) && Within(Numbers(s, from), max + 1) && max < Limit(to.width)
    requires Kinded(Layout(from), start, pos) && offset + done + step <= Len(s) && step > 0
    requires Below(Run(offset, done), Len(s)) && dst.buffers == Appended(s, Layout(from), start, pos, Run(offset, done))
    modifies dst
    ensures ok <==> CastExists(from, to)
    ensures Below(Run(offset, done + step), Len(s))
    ensures ok ==> dst.buffers == Appended(s, Layout(from), start, pos, Run(offset, done + step))
  {
    hide Typed, Kinded, Appended, Numbers, Sub;
    ghost var t := Layout(from);
    KindedSame(t, start, dst.buffers, pos);
    SubColumn(s, from, max, offset + done, step);
    SubColumn(s, from, Limit(from.width) - 1, offset + done, step);
    AppendedSub(s, t, offset + done, step, dst.buffers, pos, Run(0, step));
    assert Shifted(Run(0, step), offset + done) == Run(offset + done, step);
    AppendedSteps(s, from, start, pos, Run(offset, done), Run(offset + done, step));
    RunJoin(offset, done, step);
    ok := CastItemIndex(Sub(s, t, offset + done, step).value, from, to, dst, pos);
  }

  /** Registered block numbers of 64 bits are always readable, and so are item indexes of 32 bits. */
  lemma {:induction false} RegisteredIsReadable(max: nat)
    requires max < Limit(W64)
    ensures U32_MAX <= max ==> Readable(Plain(W64), Prepared(Plain(W64), MinimalType(max)))
    ensures U16_MAX <= max ==> Readable(Plain(W32), Prepared(Plain(W32), MinimalType(max)))
    ensures U16_MAX <= max ==> (Readable(Lists(W32), Prepared(Lists(W32), MinimalType(max))) <==> max <= U32_MAX)
  {
  }

  /** A 64-bit item index above 32 bits, registered beside a list of 32-bit ones: reading the list fails. */
  method ListBesideWideIndex(dst: Destination, pos: nat) returns (ok: bool)
    requires Kinded(List(Prim), dst.buffers, pos)
    modifies dst
    ensures !ok
  {
    var wide := PrimSlice(Nulls(None, 1), [U32_MAX + 1]);
    var list := ListSlice(Nulls(None, 1), [0, 1], PrimSlice(Nulls(None, 1), [7]));
    assert Numbers(wide, Plain(W64)) == [U32_MAX + 1];
    assert Typed(list.items, Prim) && Numbers(list, Lists(W32)) == [7];
    hide Typed, Kinded, Numbers;
    var state := new DowncastState();
    state.RegItemIndex(wide, Plain(W64));
    assert Numbers(wide, Plain(W64))[0] < state.maxItemIndex + 1;
    state.RegItemIndex(list, Lists(W32));
    RegisteredIsReadable(state.maxItemIndex);
    ok := ReadColumn(list, Lists(W32), state.maxItemIndex, dst, pos, 0, 1);
  }

  // ---- a whole chunk ----

  /** A column to be narrowed, with its declared type. */
  datatype Source = Source(slice: Slice, it: IndexType)

  ghost predicate BlockNumbers(columns: seq<Source>) {
    forall k :: 0 <= k < |columns| ==> columns[k].it == Plain(W64) && Column(columns[k].slice, columns[k].it)
  }

  ghost predicate ItemIndexes(columns: seq<Source>) {
    forall k :: 0 <= k < |columns| ==> columns[k].it.width == W32 && Column(columns[k].slice, columns[k].it)
  }

  ghost predicate Covered(columns: seq<Source>, n: nat, max: nat)
    requires n <= |columns|
  {
    forall k :: 0 <= k < n ==> Typed(columns[k].slice, Layout(columns[k].it)) && Within(Numbers(columns[k].slice, columns[k].it), max + 1)
  }

  lemma {:induction false} CoveredMore(columns: seq<Source>, n: nat, max: nat, more: nat)
    requires n <= |columns| && Covered(columns, n, max) && max <= more
    ensures Covered(columns, n, more)
  {
    hide Typed, Numbers;
  }

  /** Registers the columns of all tables of a chunk. */
  method Register(blocks: seq<Source>, items: seq<Source>) returns (state: DowncastState)
    requires BlockNumbers(blocks) && ItemIndexes(items)
    ensures fresh(state) && state.Valid() && state.maxItemIndex <= U32_MAX
    ensures Covered(blocks, |blocks|, state.maxBlockNumber) && Covered(items, |items|, state.maxItemIndex)
  {
    hide Typed, Numbers, Within;
    state := new DowncastState();
    for k := 0 to |blocks|
      invariant fresh(state) && state.Valid() && state.maxItemIndex == U16_MAX && Covered(blocks, k, state.maxBlockNumber)
    {
      ghost var before := state.maxBlockNumber;
      state.RegBlockNumber(blocks[k].slice, blocks[k].it);
      CoveredMore(blocks, k, before, state.maxBlockNumber);
    }
    for k := 0 to |items|
      invariant fresh(state) && state.Valid() && state.maxItemIndex < Limit(W32)
      invariant Covered(blocks, |blocks|, state.maxBlockNumber) && Covered(items, k, state.maxItemIndex)
    {
      ghost var before := state.maxItemIndex;
      state.RegItemIndex(items[k].slice, items[k].it);
      CoveredMore(items, k, before, state.maxItemIndex);
    }
  }

  /** With everything registered first, any window of any column is read without error and with every value unchanged. */
  method RegisterAndRead(blocks: seq<Source>, items: seq<Source>, fromItems: bool, k: nat, dst: Destination, pos: nat,
                         offset: nat, n: nat) returns (ok: bool)
    requires BlockNumbers(blocks) && ItemIndexes(items)
    requires k < |if fromItems then items else blocks|
    requires var c := if fromItems then items[k] else blocks[k];
             Kinded(Layout(c.it), dst.buffers, pos) && offset + n <= Len(c.slice)
    modifies dst
    ensures var c := if fromItems then items[k] else blocks[k];
            ok && Below(Run(offset, n), Len(c.slice))
            && dst.buffers == Appended(c.slice, Layout(c.it), old(dst.buffers), pos, Run(offset, n))
  {
    hide Typed, Kinded, Appended, Numbers;
    var state := Register(blocks, items);
    if fromItems {
      RegisteredIsReadable(state.maxItemIndex);
      ok := ReadColumn(items[k].slice, items[k].it, state.maxItemIndex, dst, pos, offset, n);
    } else {
      RegisteredIsReadable(state.maxBlockNumber);
      ok := ReadColumn(blocks[k].slice, blocks[k].it, state.maxBlockNumber, dst, pos, offset, n);
    }
  }
}
