/** Writing whole views, ranges, range lists and index lists of any nesting (crates/array/src/slice). */
module ColumnWrites {
  import opened Bits
  import opened ColumnBuffers
  import opened ColumnGrowth
  import opened ColumnMeaning
  import opened ColumnSelect
  import opened ColumnWriters
  import opened Columns
  import opened NullMask
  import opened Picking

  // ---- what an append amounts to, one level at a time ----

  lemma {:induction false} ListUnfolds(s: Slice, t: Type, dst: seq<Buffer>, pos: nat, rows: seq<nat>)
    requires s.ListSlice? && Typed(s, t) && Kinded(t, dst, pos) && Below(rows, Len(s))
    ensures t.List? && s.nulls.Ok() && s.nulls.len == Len(s) && Ascending(s.offsets) && |s.offsets| == Len(s) + 1
    ensures Typed(s.items, t.item) && s.offsets[Len(s)] <= Len(s.items)
    ensures pos + 1 < |dst| && dst[pos].NullBits? && dst[pos + 1].Offsets? && dst[pos + 1].offsets != []
    ensures var spans := ItemSpans(s.offsets, rows);
            var d := PutLengths(PutNulls(dst, pos, Pick(s.nulls.Bits(), rows)), pos + 1, spans);
            && Kinded(t.item, d, pos + 2) && Below(SpanIndexes(spans), Len(s.items))
            && Appended(s, t, dst, pos, rows) == Appended(s.items, t.item, d, pos + 2, SpanIndexes(spans))
  {
    hide BitAt, SpanIndexes, Grown, Ascending, NumBuffers;
    AtLeastTwo(t);
    var d := PutLengths(PutNulls(dst, pos, Pick(s.nulls.Bits(), rows)), pos + 1, ItemSpans(s.offsets, rows));
    KindedSame(t.item, dst, d, pos + 2);
    ItemSpansBelow(s.offsets, rows, Len(s.items));
  }

  lemma {:induction false} FixedUnfolds(s: Slice, t: Type, dst: seq<Buffer>, pos: nat, rows: seq<nat>)
    requires s.FixedSlice? && Typed(s, t) && Kinded(t, dst, pos) && Below(rows, Len(s))
    ensures t.Fixed? && s.nulls.Ok() && s.nulls.len == Len(s) && pos < |dst| && dst[pos].NullBits?
    ensures Typed(s.items, t.item) && Len(s.items) == Times(Len(s), s.size)
    ensures var d := PutNulls(dst, pos, Pick(s.nulls.Bits(), rows));
            && Kinded(t.item, d, pos + 1) && Below(SpanIndexes(FixedSpans(s.size, rows)), Len(s.items))
            && Appended(s, t, dst, pos, rows) == Appended(s.items, t.item, d, pos + 1, SpanIndexes(FixedSpans(s.size, rows)))
  {
    hide BitAt, SpanIndexes, Times;
    var d := PutNulls(dst, pos, Pick(s.nulls.Bits(), rows));
    KindedSame(t.item, dst, d, pos + 1);
    FixedSpansBelow(s.size, rows, s.nulls.len);
  }

  lemma {:induction false} StructUnfolds(s: Slice, t: Type, dst: seq<Buffer>, pos: nat, rows: seq<nat>)
    requires s.StructSlice? && Typed(s, t) && Kinded(t, dst, pos) && Below(rows, Len(s))
    ensures t.Struct? && s.nulls.Ok() && s.offset + s.len <= s.nulls.len && pos < |dst| && dst[pos].NullBits?
    ensures Columnar(s.columns, t.fields, s.nulls.len) && Below(Shifted(rows, s.offset), s.nulls.len)
    ensures var d := PutNulls(dst, pos, Pick(s.nulls.Bits(), Shifted(rows, s.offset)));
            && Ready(t.fields, d, pos)
            && Appended(s, t, dst, pos, rows)
               == AppendedColumns(s.columns, t.fields, s.nulls.len, d, pos, Shifted(rows, s.offset), |s.columns|)
  {
    hide BitAt, FieldPos, NumBuffers;
    var d := Masked(s, t, dst, pos, rows);
  }

  ghost predicate Columnar(columns: seq<Slice>, fields: seq<Type>, n: nat) {
    |columns| == |fields| && forall c :: 0 <= c < |columns| ==> Typed(columns[c], fields[c]) && Len(columns[c]) == n
  }

  /** All fields find their buffers. */
  ghost predicate Ready(fields: seq<Type>, dst: seq<Buffer>, pos: nat) {
    forall c :: 0 <= c < |fields| ==> Kinded(fields[c], dst, FieldPos(fields, pos, c))
  }

  lemma {:induction false} AppendedNothing(s: Slice, t: Type, dst: seq<Buffer>, pos: nat)
    requires Typed(s, t) && Kinded(t, dst, pos)
    ensures Appended(s, t, dst, pos, []) == dst
    decreases s, 0
  {
    hide BitAt, SpanIndexes, Typed, Kinded;
    assert Pick<bool>([], []) == [];
    match s
    case ListSlice(nulls, offsets, items) =>
      ListUnfolds(s, t, dst, pos, []);
      ListNothing(s, dst, pos);
      AppendedNothing(items, t.item, dst, pos + 2);
    case FixedSlice(nulls, size, items) =>
      FixedUnfolds(s, t, dst, pos, []);
      FixedNothing(s, dst, pos);
      AppendedNothing(items, t.item, dst, pos + 1);
    case StructSlice(nulls, columns, offset, len) =>
      StructUnfolds(s, t, dst, pos, []);
      assert Shifted([], offset) == [];
      assert dst[pos].bits + Pick(nulls.Bits(), []) == dst[pos].bits;
      assert PutNulls(dst, pos, Pick(nulls.Bits(), [])) == dst;
      ColumnsNothing(columns, t.fields, nulls.len, dst, pos, |columns|);
    case _ => LeafNothing(s, t, dst, pos);
  }

  lemma {:induction false} LeafNothing(s: Slice, t: Type, dst: seq<Buffer>, pos: nat)
    requires Typed(s, t) && Kinded(t, dst, pos) && (s.RawSlice? || s.PrimSlice? || s.BoolSlice?)
    ensures Appended(s, t, dst, pos, []) == dst
  {
    hide BitAt;
    if s.RawSlice? {
      assert dst[pos].values + Pick(s.raw, []) == dst[pos].values;
    } else {
      assert dst[pos].bits + Pick(s.nulls.Bits(), []) == dst[pos].bits;
      if s.PrimSlice? {
        assert dst[pos + 1].values + Pick(s.values, []) == dst[pos + 1].values;
      } else {
        assert dst[pos + 1].bits + Pick(s.flags.Bits(), []) == dst[pos + 1].bits;
      }
    }
  }

  lemma {:induction false} ListNothing(s: Slice, dst: seq<Buffer>, pos: nat)
    requires s.ListSlice? && s.nulls.Ok() && Ascending(s.offsets) && s.offsets != []
    requires pos + 1 < |dst| && dst[pos].NullBits? && dst[pos + 1].Offsets? && dst[pos + 1].offsets != []
    ensures PutLengths(PutNulls(dst, pos, Pick(s.nulls.Bits(), [])), pos + 1, ItemSpans(s.offsets, [])) == dst
    ensures SpanIndexes(ItemSpans(s.offsets, [])) == []
  {
    hide BitAt;
    assert dst[pos].bits + Pick(s.nulls.Bits(), []) == dst[pos].bits;
    assert ItemSpans(s.offsets, []) == [];
  }

  lemma {:induction false} FixedNothing(s: Slice, dst: seq<Buffer>, pos: nat)
    requires s.FixedSlice? && s.nulls.Ok() && pos < |dst| && dst[pos].NullBits?
    ensures PutNulls(dst, pos, Pick(s.nulls.Bits(), [])) == dst && SpanIndexes(FixedSpans(s.size, [])) == []
  {
    hide BitAt;
    assert dst[pos].bits + Pick(s.nulls.Bits(), []) == dst[pos].bits;
    assert FixedSpans(s.size, []) == [];
  }

  lemma {:induction false} ColumnsNothing(columns: seq<Slice>, fields: seq<Type>, n: nat, dst: seq<Buffer>, pos: nat, k: nat)
    requires Columnar(columns, fields, n) && Ready(fields, dst, pos) && k <= |columns|
    ensures AppendedColumns(columns, fields, n, dst, pos, [], k) == dst
    decreases columns, k
  {
    hide Typed, Kinded, Appended;
    if k > 0 {
      ColumnsNothing(columns, fields, n, dst, pos, k - 1);
      AppendedNothing(columns[k - 1], fields[k - 1], dst, FieldPos(fields, pos, k - 1));
    }
  }

  // ---- ranges ----

  /** Appends rows `lo..lo + n`. */
  method WriteRange(s: Slice, ghost t: Type, dst: Destination, pos: nat, lo: nat, n: nat)
    requires Typed(s, t) && Kinded(t, dst.buffers, pos) && lo + n <= Len(s)
    modifies dst
    ensures Below(Run(lo, n), Len(s))
    ensures dst.buffers == Appended(s, t, old(dst.buffers), pos, Run(lo, n))
    decreases t, 1
  {
    hide BitAt, NumBuffers, FieldPos;
    AtLeastTwo(t);
    match s
    case RawSlice(raw) =>
      PickRun(raw, lo, n);
      dst.WriteNatives(pos, raw[lo..lo + n]);
    case PrimSlice(nulls, values) =>
      PickRun(values, lo, n);
      dst.WriteNulls(pos, NullsRange(nulls, lo, n));
      dst.WriteNatives(pos + 1, values[lo..lo + n]);
    case BoolSlice(nulls, flags) =>
      dst.WriteNulls(pos, NullsRange(nulls, lo, n));
      dst.WriteFlags(pos + 1, MaskRange(flags, lo, n));
    case ListSlice(nulls, offsets, items) => WriteListRange(s, t, dst, pos, lo, n);
    case FixedSlice(nulls, size, items) => WriteFixedRange(s, t, dst, pos, lo, n);
    case StructSlice(nulls, columns, offset, len) =>
      assert Shifted(Run(lo, n), offset) == Run(offset + lo, n);
      WriteSrcRange(s, t, dst, pos, offset + lo, n, Run(lo, n));
  }

  method WriteListRange(s: Slice, ghost t: Type, dst: Destination, pos: nat, lo: nat, n: nat)
    requires s.ListSlice? && Typed(s, t) && Kinded(t, dst.buffers, pos) && lo + n <= Len(s)
    modifies dst
    ensures Below(Run(lo, n), Len(s))
    ensures dst.buffers == Appended(s, t, old(dst.buffers), pos, Run(lo, n))
    decreases t, 0
  {
    hide BitAt, Typed, Kinded, Appended, Ascending;
    ghost var rows := Run(lo, n);
    if n == 0 {
      assert rows == [];
      AppendedNothing(s, t, dst.buffers, pos);
      return;
    }
    ListUnfolds(s, t, dst.buffers, pos, rows);
    ItemsOfRun(s.offsets, lo, n);
    assert s.offsets[lo + n] <= Len(s.items) by { LastBounds(s.offsets, lo + n); }
    dst.WriteNulls(pos, NullsRange(s.nulls, lo, n));
    dst.WriteOffsets(pos + 1, s.offsets, lo, n);
    WriteRange(s.items, t.item, dst, pos + 2, s.offsets[lo], s.offsets[lo + n] - s.offsets[lo]);
  }

  lemma {:induction false} LastBounds(offsets: seq<nat>, i: nat)
    requires Ascending(offsets) && i < |offsets|
    ensures offsets[i] <= offsets[|offsets| - 1]
  {
  }

  method WriteFixedRange(s: Slice, ghost t: Type, dst: Destination, pos: nat, lo: nat, n: nat)
    requires s.FixedSlice? && Typed(s, t) && Kinded(t, dst.buffers, pos) && lo + n <= Len(s)
    modifies dst
    ensures Below(Run(lo, n), Len(s))
    ensures dst.buffers == Appended(s, t, old(dst.buffers), pos, Run(lo, n))
    decreases t, 0
  {
    hide BitAt, Typed, Kinded, Appended, Times;
    ghost var rows := Run(lo, n);
    if n == 0 {
      assert rows == [];
      AppendedNothing(s, t, dst.buffers, pos);
      return;
    }
    FixedUnfolds(s, t, dst.buffers, pos, rows);
    FixedOfRun(s.size, lo, n);
    TimesFits(lo, n, Len(s), s.size);
    dst.WriteNulls(pos, NullsRange(s.nulls, lo, n));
    WriteRange(s.items, t.item, dst, pos + 1, Times(lo, s.size), Times(n, s.size));
  }

  /** A range in the struct's own rows, column by column with a running shift. */
  method WriteSrcRange(s: Slice, ghost t: Type, dst: Destination, pos: nat, lo: nat, n: nat, ghost rows: seq<nat>)
    requires s.StructSlice? && Typed(s, t) && Kinded(t, dst.buffers, pos) && lo + n <= s.nulls.len
    requires Below(rows, Len(s)) && Shifted(rows, s.offset) == Run(lo, n)
    modifies dst
    ensures dst.buffers == Appended(s, t, old(dst.buffers), pos, rows)
    decreases t, 0
  {
    hide BitAt, Typed, Kinded, Appended, AppendedColumns, NumBuffersOf, ColumnPos, FieldPos;
    StructUnfolds(s, t, dst.buffers, pos, rows);
    dst.WriteNulls(pos, NullsRange(s.nulls, lo, n));
    ghost var d := dst.buffers;
    var shift := 1;
    FirstColumn(s.columns, t.fields, s.nulls.len, d, pos, Run(lo, n));
    for c := 0 to |s.columns|
      invariant shift == 1 + ColumnPos(t.fields, c)
      invariant dst.buffers == AppendedColumns(s.columns, t.fields, s.nulls.len, d, pos, Run(lo, n), c)
    {
      NextColumn(s.columns, t.fields, s.nulls.len, d, pos, Run(lo, n), c);
      WriteRange(s.columns[c], t.fields[c], dst, pos + shift, lo, n);
      shift := shift + NumBuffersOf(s.columns[c]);
    }
  }

  lemma {:induction false} FirstColumn(columns: seq<Slice>, fields: seq<Type>, n: nat, d: seq<Buffer>, pos: nat, rows: seq<nat>)
    requires Columnar(columns, fields, n) && Ready(fields, d, pos) && Below(rows, n)
    ensures |columns| == |fields| && ColumnPos(fields, 0) == 0
    ensures AppendedColumns(columns, fields, n, d, pos, rows, 0) == d
  {
  }

  /** The next column goes behind the buffers of those before it. */
  lemma {:induction false} NextColumn(columns: seq<Slice>, fields: seq<Type>, n: nat, d: seq<Buffer>, pos: nat, rows: seq<nat>, c: nat)
    requires Columnar(columns, fields, n) && Ready(fields, d, pos) && Below(rows, n) && c < |columns|
    ensures Typed(columns[c], fields[c]) && Len(columns[c]) == n
    ensures ColumnPos(fields, c + 1) == ColumnPos(fields, c) + NumBuffersOf(columns[c])
    ensures var now, at := AppendedColumns(columns, fields, n, d, pos, rows, c), pos + (1 + ColumnPos(fields, c));
            && Kinded(fields[c], now, at)
            && AppendedColumns(columns, fields, n, d, pos, rows, c + 1) == Appended(columns[c], fields[c], now, at, rows)
  {
    hide Typed, Kinded, Appended, NumBuffersOf, NumBuffers;
    var now := AppendedColumns(columns, fields, n, d, pos, rows, c);
    KindedSame(fields[c], d, now, FieldPos(fields, pos, c));
    BuffersMatch(columns[c], fields[c]);
  }

  lemma {:induction false} FlatUnfolds(s: Slice, t: Type, dst: seq<Buffer>, pos: nat, rows: seq<nat>)
    requires s.RawSlice? || s.PrimSlice? || s.BoolSlice?
    requires Typed(s, t) && Kinded(t, dst, pos) && Below(rows, Len(s))
    ensures Selectable(t)
    ensures s.RawSlice? ==>
              && pos < |dst| && dst[pos].Natives?
              && Appended(s, t, dst, pos, rows) == PutNatives(dst, pos, Pick(s.raw, rows))
    ensures !s.RawSlice? ==>
              && s.nulls.Ok() && s.nulls.len == Len(s) && |s.nulls.Bits()| == Len(s) && pos + 1 < |dst| && dst[pos].NullBits?
    ensures s.PrimSlice? ==>
              && dst[pos + 1].Natives?
              && Appended(s, t, dst, pos, rows)
                 == PutNatives(PutNulls(dst, pos, Pick(s.nulls.Bits(), rows)), pos + 1, Pick(s.values, rows))
    ensures s.BoolSlice? ==>
              && s.flags.Ok() && |s.flags.Bits()| == Len(s) && dst[pos + 1].FlagBits?
              && Appended(s, t, dst, pos, rows)
                 == PutFlags(PutNulls(dst, pos, Pick(s.nulls.Bits(), rows)), pos + 1, Pick(s.flags.Bits(), rows))
  {
    hide BitAt;
  }

  // ---- range lists ----

  /** Appends ranges of rows one after the other. Not `ok`: a column of a struct could not be cut and the write aborted,
      which the type alone decides. */
  method WriteRanges(s: Slice, ghost t: Type, dst: Destination, pos: nat, ranges: seq<Span>) returns (ok: bool)
    requires Typed(s, t) && Kinded(t, dst.buffers, pos) && SpansBelow(ranges, Len(s))
    modifies dst
    ensures Below(SpanIndexes(ranges), Len(s))
    ensures ok <==> Selectable(t)
    ensures ok ==> dst.buffers == Appended(s, t, old(dst.buffers), pos, SpanIndexes(ranges))
    decreases t, 1
  {
    hide Typed, Kinded, Appended, SpanIndexes;
    SpanIndexesBelow(ranges, Len(s));
    match s
    case ListSlice(nulls, offsets, items) => ok := WriteListRanges(s, t, dst, pos, ranges);
    case FixedSlice(nulls, size, items) => ok := WriteFixedRanges(s, t, dst, pos, ranges);
    case StructSlice(nulls, columns, offset, len) => ok := WriteStructRanges(s, t, dst, pos, ranges);
    case _ => ok := WriteFlatRanges(s, t, dst, pos, ranges);
  }

  method WriteFlatRanges(s: Slice, ghost t: Type, dst: Destination, pos: nat, ranges: seq<Span>) returns (ok: bool)
    requires s.RawSlice? || s.PrimSlice? || s.BoolSlice?
    requires Typed(s, t) && Kinded(t, dst.buffers, pos) && SpansBelow(ranges, Len(s))
    modifies dst
    ensures Below(SpanIndexes(ranges), Len(s))
    ensures ok && Selectable(t) && dst.buffers == Appended(s, t, old(dst.buffers), pos, SpanIndexes(ranges))
  {
    hide BitAt, Typed, Kinded, Appended, Selectable, SpanIndexes;
    SpanIndexesBelow(ranges, Len(s));
    FlatUnfolds(s, t, dst.buffers, pos, SpanIndexes(ranges));
    match s {
      case RawSlice(raw) => dst.WriteNativeRanges(pos, raw, ranges);
      case PrimSlice(nulls, values) =>
        dst.WriteNulls(pos, NullsRanges(nulls, ranges));
        dst.WriteNativeRanges(pos + 1, values, ranges);
      case BoolSlice(nulls, flags) =>
        dst.WriteNulls(pos, NullsRanges(nulls, ranges));
        dst.WriteFlags(pos + 1, MaskRanges(flags, ranges));
    }
    ok := true;
  }

  method WriteListRanges(s: Slice, ghost t: Type, dst: Destination, pos: nat, ranges: seq<Span>) returns (ok: bool)
    requires s.ListSlice? && Typed(s, t) && Kinded(t, dst.buffers, pos) && SpansBelow(ranges, Len(s))
    modifies dst
    ensures Below(SpanIndexes(ranges), Len(s))
    ensures ok <==> Selectable(t)
    ensures ok ==> dst.buffers == Appended(s, t, old(dst.buffers), pos, SpanIndexes(ranges))
    decreases t, 0
  {
    hide BitAt, Typed, Kinded, Appended, Ascending, SpanIndexes, ValueSpans;
    SpanIndexesBelow(ranges, Len(s));
    ListUnfolds(s, t, dst.buffers, pos, SpanIndexes(ranges));
    ItemsOfRanges(s.offsets, ranges);
    ValueSpansBelow(s.offsets, ranges, Len(s.items));
    dst.WriteNulls(pos, NullsRanges(s.nulls, ranges));
    dst.WriteOffsetRanges(pos + 1, s.offsets, ranges);
    ok := WriteRanges(s.items, t.item, dst, pos + 2, ValueSpans(s.offsets, ranges));
  }

  lemma {:induction false} ValueSpansBelow(offsets: seq<nat>, spans: seq<Span>, n: nat)
    requires offsets != [] && Ascending(offsets) && SpansBelow(spans, |offsets| - 1) && offsets[|offsets| - 1] <= n
    ensures SpansBelow(ValueSpans(offsets, spans), n)
  {
  }

  method WriteFixedRanges(s: Slice, ghost t: Type, dst: Destination, pos: nat, ranges: seq<Span>) returns (ok: bool)
    requires s.FixedSlice? && Typed(s, t) && Kinded(t, dst.buffers, pos) && SpansBelow(ranges, Len(s))
    modifies dst
    ensures Below(SpanIndexes(ranges), Len(s))
    ensures ok <==> Selectable(t)
    ensures ok ==> dst.buffers == Appended(s, t, old(dst.buffers), pos, SpanIndexes(ranges))
    decreases t, 0
  {
    hide BitAt, Typed, Kinded, Appended, Times, SpanIndexes, Scaled;
    SpanIndexesBelow(ranges, Len(s));
    FixedUnfolds(s, t, dst.buffers, pos, SpanIndexes(ranges));
    FixedOfRanges(s.size, ranges);
    ScaledBelow(ranges, Len(s), s.size);
    dst.WriteNulls(pos, NullsRanges(s.nulls, ranges));
    ok := WriteRanges(s.items, t.item, dst, pos + 1, Scaled(ranges, s.size));
  }

  method WriteStructRanges(s: Slice, ghost t: Type, dst: Destination, pos: nat, ranges: seq<Span>) returns (ok: bool)
    requires s.StructSlice? && Typed(s, t) && Kinded(t, dst.buffers, pos) && SpansBelow(ranges, Len(s))
    modifies dst
    ensures Below(SpanIndexes(ranges), Len(s))
    ensures ok <==> Selectable(t)
    ensures ok ==> dst.buffers == Appended(s, t, old(dst.buffers), pos, SpanIndexes(ranges))
    decreases t, 0
  {
    hide BitAt, Typed, Kinded, Appended, AppendedColumns, NumBuffersOf, ColumnPos, FieldPos, SpanIndexes, Sub, Sliceable,
      Selectable, FieldsSelectable, Below, Pick, SpansBelow;
    SpanIndexesBelow(ranges, Len(s));
    ghost var rows := SpanIndexes(ranges);
    StructUnfolds(s, t, dst.buffers, pos, rows);
    StructSelectable(t);
    SubNullBits(s.nulls, s.offset, s.len);
    WindowPick(s.nulls.Bits(), s.offset, s.len, rows);
    dst.WriteNulls(pos, NullsRanges(SubNulls(s.nulls, s.offset, s.len), ranges));
    ghost var d := dst.buffers;
    ghost var inner := Shifted(rows, s.offset);
    var shift := 1;
    FirstColumn(s.columns, t.fields, s.nulls.len, d, pos, inner);
    for c := 0 to |s.columns|
      invariant shift == 1 + ColumnPos(t.fields, c)
      invariant FieldsSelectable(t.fields, c)
      invariant dst.buffers == AppendedColumns(s.columns, t.fields, s.nulls.len, d, pos, inner, c)
    {
      NextColumn(s.columns, t.fields, s.nulls.len, d, pos, inner, c);
      FieldSelectable(t.fields, c);
      AppendedSub(s.columns[c], t.fields[c], s.offset, s.len, dst.buffers, pos + shift, rows);
      var column := Sub(s.columns[c], t.fields[c], s.offset, s.len);
      if column.None? {
        return false;
      }
      ok := WriteRanges(column.value, t.fields[c], dst, pos + shift, ranges);
      if !ok {
        return;
      }
      shift := shift + NumBuffersOf(s.columns[c]);
    }
    ok := true;
  }

  /** Choosing from a window is choosing shifted positions from the whole. */
  lemma {:induction false} WindowPick<T>(s: seq<T>, offset: nat, n: nat, rows: seq<nat>)
    requires offset + n <= |s| && Below(rows, n)
    ensures Below(Shifted(rows, offset), |s|)
    ensures Pick(s[offset..offset + n], rows) == Pick(s, Shifted(rows, offset))
  {
  }

  // ---- index lists ----

  /** Appends chosen rows, or aborts as `WriteRanges` does. */
  method WriteIndexes(s: Slice, ghost t: Type, dst: Destination, pos: nat, rows: seq<nat>) returns (ok: bool)
    requires Typed(s, t) && Kinded(t, dst.buffers, pos) && Below(rows, Len(s))
    modifies dst
    ensures ok <==> Selectable(t)
    ensures ok ==> dst.buffers == Appended(s, t, old(dst.buffers), pos, rows)
    decreases t, 1
  {
    hide BitAt, NumBuffers, FieldPos;
    AtLeastTwo(t);
    ok := true;
    match s
    case RawSlice(raw) => dst.WriteNativeIndexes(pos, raw, rows);
    case PrimSlice(nulls, values) =>
      dst.WriteNulls(pos, NullsIndexes(nulls, rows));
      dst.WriteNativeIndexes(pos + 1, values, rows);
    case BoolSlice(nulls, flags) =>
      dst.WriteNulls(pos, NullsIndexes(nulls, rows));
      dst.WriteFlags(pos + 1, MaskIndexes(flags, rows));
    case ListSlice(nulls, offsets, items) => ok := WriteListIndexes(s, t, dst, pos, rows);
    case FixedSlice(nulls, size, items) => ok := WriteFixedIndexes(s, t, dst, pos, rows);
    case StructSlice(nulls, columns, offset, len) => ok := WriteStructIndexes(s, t, dst, pos, rows);
  }

  method WriteListIndexes(s: Slice, ghost t: Type, dst: Destination, pos: nat, rows: seq<nat>) returns (ok: bool)
    requires s.ListSlice? && Typed(s, t) && Kinded(t, dst.buffers, pos) && Below(rows, Len(s))
    modifies dst
    ensures ok <==> Selectable(t)
    ensures ok ==> dst.buffers == Appended(s, t, old(dst.buffers), pos, rows)
    decreases t, 0
  {
    hide BitAt, Typed, Kinded, Appended, Ascending, SpanIndexes, NonEmpty, ItemSpans;
    ListUnfolds(s, t, dst.buffers, pos, rows);
    dst.WriteNulls(pos, NullsIndexes(s.nulls, rows));
    dst.WriteOffsetIndexes(pos + 1, s.offsets, rows);
    var items := NonEmpty(ItemSpans(s.offsets, rows));
    NonEmptyIndexes(ItemSpans(s.offsets, rows));
    assert SpansBelow(items, Len(s.items)) by { NonEmptyBelow(s.offsets, rows, Len(s.items)); }
    ok := WriteRanges(s.items, t.item, dst, pos + 2, items);
  }

  lemma {:induction false} NonEmptyBelow(offsets: seq<nat>, rows: seq<nat>, n: nat)
    requires offsets != [] && Ascending(offsets) && Below(rows, |offsets| - 1) && offsets[|offsets| - 1] <= n
    ensures SpansBelow(NonEmpty(ItemSpans(offsets, rows)), n)
  {
    var spans := NonEmpty(ItemSpans(offsets, rows));
    forall k | 0 <= k < |spans| ensures spans[k].start + spans[k].len <= n {
      assert spans[k] in ItemSpans(offsets, rows);
      var i :| 0 <= i < |rows| && ItemSpans(offsets, rows)[i] == spans[k];
      assert offsets[rows[i] + 1] <= offsets[|offsets| - 1];
    }
  }

  method WriteFixedIndexes(s: Slice, ghost t: Type, dst: Destination, pos: nat, rows: seq<nat>) returns (ok: bool)
    requires s.FixedSlice? && Typed(s, t) && Kinded(t, dst.buffers, pos) && Below(rows, Len(s))
    modifies dst
    ensures ok <==> Selectable(t)
    ensures ok ==> dst.buffers == Appended(s, t, old(dst.buffers), pos, rows)
    decreases t, 0
  {
    hide BitAt, Typed, Kinded, Appended, Times, SpanIndexes, FixedSpans;
    FixedUnfolds(s, t, dst.buffers, pos, rows);
    dst.WriteNulls(pos, NullsIndexes(s.nulls, rows));
    assert SpansBelow(FixedSpans(s.size, rows), Len(s.items)) by { FixedRowsBelow(s.size, rows, Len(s)); }
    ok := WriteRanges(s.items, t.item, dst, pos + 1, FixedSpans(s.size, rows));
  }

  lemma {:induction false} FixedRowsBelow(size: nat, rows: seq<nat>, n: nat)
    requires Below(rows, n)
    ensures SpansBelow(FixedSpans(size, rows), Times(n, size))
  {
    hide Times;
    forall k | 0 <= k < |rows| ensures FixedSpans(size, rows)[k].start + FixedSpans(size, rows)[k].len <= Times(n, size) {
      TimesBound(rows[k], n, size);
    }
  }

  method WriteStructIndexes(s: Slice, ghost t: Type, dst: Destination, pos: nat, rows: seq<nat>) returns (ok: bool)
    requires s.StructSlice? && Typed(s, t) && Kinded(t, dst.buffers, pos) && Below(rows, Len(s))
    modifies dst
    ensures ok <==> Selectable(t)
    ensures ok ==> dst.buffers == Appended(s, t, old(dst.buffers), pos, rows)
    decreases t, 0
  {
    hide BitAt, Typed, Kinded, Appended, AppendedColumns, NumBuffersOf, ColumnPos, FieldPos, Sub, Sliceable,
      Selectable, FieldsSelectable;
    StructUnfolds(s, t, dst.buffers, pos, rows);
    StructSelectable(t);
    SubNullBits(s.nulls, s.offset, s.len);
    WindowPick(s.nulls.Bits(), s.offset, s.len, rows);
    dst.WriteNulls(pos, NullsIndexes(SubNulls(s.nulls, s.offset, s.len), rows));
    ghost var d := dst.buffers;
    ghost var inner := Shifted(rows, s.offset);
    var shift := 1;
    FirstColumn(s.columns, t.fields, s.nulls.len, d, pos, inner);
    for c := 0 to |s.columns|
      invariant shift == 1 + ColumnPos(t.fields, c)
      invariant FieldsSelectable(t.fields, c)
      invariant dst.buffers == AppendedColumns(s.columns, t.fields, s.nulls.len, d, pos, inner, c)
    {
      NextColumn(s.columns, t.fields, s.nulls.len, d, pos, inner, c);
      FieldSelectable(t.fields, c);
      AppendedSub(s.columns[c], t.fields[c], s.offset, s.len, dst.buffers, pos + shift, rows);
      var column := Sub(s.columns[c], t.fields[c], s.offset, s.len);
      if column.None? {
        return false;
      }
      ok := WriteIndexes(column.value, t.fields[c], dst, pos + shift, rows);
      if !ok {
        return;
      }
      shift := shift + NumBuffersOf(s.columns[c]);
    }
    ok := true;
  }

  // ---- whole views ----

  /** Appends all rows. */
  method Write(s: Slice, ghost t: Type, dst: Destination, pos: nat)
    requires Typed(s, t) && Kinded(t, dst.buffers, pos)
    modifies dst
    ensures Below(Run(0, Len(s)), Len(s))
    ensures dst.buffers == Appended(s, t, old(dst.buffers), pos, Run(0, Len(s)))
    decreases t, 1
  {
    hide BitAt, NumBuffers, FieldPos;
    AtLeastTwo(t);
    match s
    case RawSlice(raw) =>
      PickRun(raw, 0, |raw|);
      assert raw[0..|raw|] == raw;
      dst.WriteNatives(pos, raw);
    case PrimSlice(nulls, values) =>
      PickRun(values, 0, |values|);
      assert values[0..|values|] == values;
      dst.WriteNulls(pos, NullsRange(nulls, 0, nulls.len));
      dst.WriteNatives(pos + 1, values);
    case BoolSlice(nulls, flags) =>
      dst.WriteNulls(pos, NullsRange(nulls, 0, nulls.len));
      dst.WriteFlags(pos + 1, MaskRange(flags, 0, flags.len));
    case ListSlice(nulls, offsets, items) => WriteList(s, t, dst, pos);
    case FixedSlice(nulls, size, items) => WriteFixed(s, t, dst, pos);
    case StructSlice(nulls, columns, offset, len) =>
      assert Shifted(Run(0, len), offset) == Run(offset, len);
      WriteSrcRange(s, t, dst, pos, offset, len, Run(0, len));
  }

  method WriteList(s: Slice, ghost t: Type, dst: Destination, pos: nat)
    requires s.ListSlice? && Typed(s, t) && Kinded(t, dst.buffers, pos)
    modifies dst
    ensures Below(Run(0, Len(s)), Len(s))
    ensures dst.buffers == Appended(s, t, old(dst.buffers), pos, Run(0, Len(s)))
    decreases t, 0
  {
    hide BitAt, Typed, Kinded, Appended, Ascending;
    ghost var rows := Run(0, Len(s));
    ListUnfolds(s, t, dst.buffers, pos, rows);
    ItemsOfRun(s.offsets, 0, Len(s));
    dst.WriteNulls(pos, NullsRange(s.nulls, 0, s.nulls.len));
    dst.WriteOffsets(pos + 1, s.offsets, 0, |s.offsets| - 1);
    WriteRange(s.items, t.item, dst, pos + 2, s.offsets[0], s.offsets[|s.offsets| - 1] - s.offsets[0]);
  }

  method WriteFixed(s: Slice, ghost t: Type, dst: Destination, pos: nat)
    requires s.FixedSlice? && Typed(s, t) && Kinded(t, dst.buffers, pos)
    modifies dst
    ensures Below(Run(0, Len(s)), Len(s))
    ensures dst.buffers == Appended(s, t, old(dst.buffers), pos, Run(0, Len(s)))
    decreases t, 0
  {
    hide BitAt, Typed, Kinded, Appended, Times;
    ghost var rows := Run(0, Len(s));
    FixedUnfolds(s, t, dst.buffers, pos, rows);
    FixedOfRun(s.size, 0, Len(s));
    TimesOne(s.size);
    dst.WriteNulls(pos, NullsRange(s.nulls, 0, s.nulls.len));
    Write(s.items, t.item, dst, pos + 1);
  }

  // ---- what every write means ----

  /** A selection of rows, as the four write methods take it. */
  datatype Selection = All | Range(lo: nat, n: nat) | Ranges(ranges: seq<Span>) | Indexes(rows: seq<nat>)

  ghost predicate Selects(sel: Selection, len: nat) {
    match sel
    case All => true
    case Range(lo, n) => lo + n <= len
    case Ranges(ranges) => SpansBelow(ranges, len)
    case Indexes(rows) => Below(rows, len)
  }

  function Selected(sel: Selection, len: nat): seq<nat> {
    match sel
    case All => Run(0, len)
    case Range(lo, n) => Run(lo, n)
    case Ranges(ranges) => SpanIndexes(ranges)
    case Indexes(rows) => rows
  }

  /** Which rows a selection names, in which order; of a range list, those of its `k`-th range behind all before it. */
  lemma {:induction false} SelectionIs(sel: Selection, len: nat, k: nat)
    ensures sel.All? ==> |Selected(sel, len)| == len && forall i :: 0 <= i < len ==> Selected(sel, len)[i] == i
    ensures sel.Range? ==> |Selected(sel, len)| == sel.n && forall i :: 0 <= i < sel.n ==> Selected(sel, len)[i] == sel.lo + i
    ensures sel.Indexes? ==> Selected(sel, len) == sel.rows
    ensures sel.Ranges? ==> |Selected(sel, len)| == Skipped(sel.ranges, |sel.ranges|)
    ensures sel.Ranges? && k < |sel.ranges| ==>
              var from, r := Skipped(sel.ranges, k), sel.ranges[k];
              && Skipped(sel.ranges, k + 1) == from + r.len <= |Selected(sel, len)|
              && Selected(sel, len)[from..from + r.len] == Run(r.start, r.len)
  {
    hide SpanIndexes, Skipped;
    if sel.Ranges? {
      SkippedEnds(sel.ranges);
      if k < |sel.ranges| {
        SkippedStep(sel.ranges, k);
        SkippedAscends(sel.ranges, k + 1, |sel.ranges|);
        var from, r := Skipped(sel.ranges, k), sel.ranges[k];
        var part := SpanIndexes(sel.ranges)[from..from + r.len];
        forall i | 0 <= i < r.len ensures part[i] == Run(r.start, r.len)[i] { SpanIndexAt(sel.ranges, k, i); }
      }
    }
  }

  /** Whatever is selected from whatever view: exactly those logical values are appended and nothing else changes. Writing
      everything or one range always succeeds; a range list or an index list does if and only if the type is selectable. */
  method WriteSelection(s: Slice, ghost t: Type, dst: Destination, pos: nat, sel: Selection) returns (ok: bool)
    requires Typed(s, t) && Shaped(t, dst.buffers, pos) && Selects(sel, Len(s))
    modifies dst
    ensures Below(Selected(sel, Len(s)), Len(s))
    ensures ok <==> sel.All? || sel.Range? || Selectable(t)
    ensures ok ==> Grew(s, t, old(dst.buffers), dst.buffers, pos, Selected(sel, Len(s)))
    ensures ok ==> Outside(old(dst.buffers), dst.buffers, pos, NumBuffers(t))
  {
    hide Typed, Kinded, Appended, Grew, Outside, SpanIndexes;
    ok := true;
    match sel {
      case All => Write(s, t, dst, pos);
      case Range(lo, n) => WriteRange(s, t, dst, pos, lo, n);
      case Ranges(ranges) => ok := WriteRanges(s, t, dst, pos, ranges);
      case Indexes(rows) =>
        ok := WriteIndexes(s, t, dst, pos, rows);
        assert Below(Selected(sel, Len(s)), Len(s));
    }
    AppendedGrows(s, t, old(dst.buffers), pos, Selected(sel, Len(s)));
    AppendedOutside(s, t, old(dst.buffers), pos, Selected(sel, Len(s)));
  }
}
