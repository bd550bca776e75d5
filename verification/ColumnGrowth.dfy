/** Appending rows of a view appends their logical values, whatever the nesting. */
module ColumnGrowth {
  import opened Bits
  import opened ColumnBuffers
  import opened ColumnMeaning
  import opened Columns
  import opened NullMask
  import opened Picking

  /** Only the buffers `pos..pos + n` may differ. */
  ghost predicate Outside(a: seq<Buffer>, b: seq<Buffer>, pos: nat, n: nat) {
    |a| == |b| && forall i :: 0 <= i < |a| && !(pos <= i < pos + n) ==> a[i] == b[i]
  }

  lemma {:induction false} AppendedOutside(s: Slice, t: Type, dst: seq<Buffer>, pos: nat, rows: seq<nat>)
    requires Typed(s, t) && Kinded(t, dst, pos) && Below(rows, Len(s))
    ensures Outside(dst, Appended(s, t, dst, pos, rows), pos, NumBuffers(t))
    decreases s, 0
  {
    hide BitAt, Times, SpanIndexes, FieldPos, Grown, Ascending;
    match s
    case RawSlice(raw) =>
    case PrimSlice(nulls, values) =>
    case BoolSlice(nulls, flags) =>
    case ListSlice(nulls, offsets, items) =>
      var spans := ItemSpans(offsets, rows);
      var d := PutLengths(PutNulls(dst, pos, Pick(nulls.Bits(), rows)), pos + 1, spans);
      KindedSame(t.item, dst, d, pos + 2);
      ItemSpansBelow(offsets, rows, Len(items));
      AppendedOutside(items, t.item, d, pos + 2, SpanIndexes(spans));
    case FixedSlice(nulls, size, items) =>
      var d := PutNulls(dst, pos, Pick(nulls.Bits(), rows));
      KindedSame(t.item, dst, d, pos + 1);
      FixedSpansBelow(size, rows, nulls.len);
      AppendedOutside(items, t.item, d, pos + 1, SpanIndexes(FixedSpans(size, rows)));
    case StructSlice(nulls, columns, offset, len) =>
      StructOutside(s, t, dst, pos, rows);
  }

  /** A struct's buffers after its own mask was written. */
  ghost function Masked(s: Slice, t: Type, dst: seq<Buffer>, pos: nat, rows: seq<nat>): (d: seq<Buffer>)
    requires s.StructSlice? && Typed(s, t) && Kinded(t, dst, pos) && Below(rows, Len(s))
    ensures SameKinds(dst, d) && Outside(dst, d, pos, 1)
    ensures Below(Shifted(rows, s.offset), s.nulls.len)
    ensures forall c :: 0 <= c < |s.columns| ==> Kinded(t.fields[c], d, FieldPos(t.fields, pos, c))
    ensures Appended(s, t, dst, pos, rows)
         == AppendedColumns(s.columns, t.fields, s.nulls.len, d, pos, Shifted(rows, s.offset), |s.columns|)
  {
    hide FieldPos, NumBuffers, BitAt;
    var d := PutNulls(dst, pos, Pick(s.nulls.Bits(), Shifted(rows, s.offset)));
    forall c | 0 <= c < |s.columns| ensures Kinded(t.fields[c], d, FieldPos(t.fields, pos, c)) {
      KindedSame(t.fields[c], dst, d, FieldPos(t.fields, pos, c));
    }
    d
  }

  lemma {:induction false} StructOutside(s: Slice, t: Type, dst: seq<Buffer>, pos: nat, rows: seq<nat>)
    requires s.StructSlice? && Typed(s, t) && Kinded(t, dst, pos) && Below(rows, Len(s))
    ensures Outside(dst, Appended(s, t, dst, pos, rows), pos, NumBuffers(t))
    decreases s.columns, |s.columns| + 1
  {
    hide BitAt, FieldPos, Kinded, Typed;
    var d := Masked(s, t, dst, pos, rows);
    ColumnsTyped(s, t);
    ColumnsOutside(s.columns, t.fields, s.nulls.len, d, pos, Shifted(rows, s.offset), |s.columns|);
  }

  lemma {:induction false} ColumnsTyped(s: Slice, t: Type)
    requires s.StructSlice? && Typed(s, t)
    ensures t.Struct? && |s.columns| == |t.fields|
    ensures forall c :: 0 <= c < |s.columns| ==> Typed(s.columns[c], t.fields[c]) && Len(s.columns[c]) == s.nulls.len
  {
  }

  /** Writing the first columns leaves the mask, the later columns and everything outside alone. */
  lemma {:induction false} ColumnsOutside(columns: seq<Slice>, fields: seq<Type>, n: nat, dst: seq<Buffer>, pos: nat,
                                          rows: seq<nat>, k: nat)
    requires k <= |columns| == |fields| && Below(rows, n)
    requires forall c :: 0 <= c < |columns| ==> Typed(columns[c], fields[c]) && Len(columns[c]) == n
    requires forall c :: 0 <= c < |columns| ==> Kinded(fields[c], dst, FieldPos(fields, pos, c))
    ensures Outside(dst, AppendedColumns(columns, fields, n, dst, pos, rows, k), pos + 1, ColumnPos(fields, k))
    decreases columns, k
  {
    hide Kinded, Typed, NumBuffers;
    if k > 0 {
      var d := AppendedColumns(columns, fields, n, dst, pos, rows, k - 1);
      ColumnsOutside(columns, fields, n, dst, pos, rows, k - 1);
      KindedSame(fields[k - 1], dst, d, FieldPos(fields, pos, k - 1));
      AppendedOutside(columns[k - 1], fields[k - 1], d, FieldPos(fields, pos, k - 1), rows);
    }
  }

  // ---- the meaning of what was appended ----

  /** Column `b` is column `a` followed by the chosen rows of the view. */
  ghost predicate Grew(s: Slice, t: Type, a: seq<Buffer>, b: seq<Buffer>, pos: nat, rows: seq<nat>)
    requires Typed(s, t) && Below(rows, Len(s))
  {
    && Shaped(t, a, pos) && Shaped(t, b, pos) && RowsAt(t, b, pos) == RowsAt(t, a, pos) + |rows|
    && (forall i :: 0 <= i < RowsAt(t, a, pos) ==> CellAt(t, b, pos, i) == CellAt(t, a, pos, i))
    && (forall k :: 0 <= k < |rows| ==> CellAt(t, b, pos, RowsAt(t, a, pos) + k) == ValueAt(s, t, rows[k]))
  }

  lemma {:induction false} GrewFrom(s: Slice, t: Type, a: seq<Buffer>, d: seq<Buffer>, b: seq<Buffer>, pos: nat, rows: seq<nat>)
    requires Typed(s, t) && Below(rows, Len(s)) && Agree(t, a, d, pos) && Grew(s, t, d, b, pos, rows)
    ensures Grew(s, t, a, b, pos, rows)
  {
    hide Shaped, Typed, RowsAt, CellAt, ValueAt, Below;
  }

  lemma {:induction false} GrewTo(s: Slice, t: Type, a: seq<Buffer>, d: seq<Buffer>, b: seq<Buffer>, pos: nat, rows: seq<nat>)
    requires Typed(s, t) && Below(rows, Len(s)) && Grew(s, t, a, d, pos, rows) && Agree(t, d, b, pos)
    ensures Grew(s, t, a, b, pos, rows)
  {
  }

  /** Where the items of the `k`-th chosen row start among all items. */
  function Skipped(spans: seq<Span>, k: nat): nat
    requires k <= |spans|
  {
    |SpanIndexes(spans[..k])|
  }

  lemma {:induction false} SpanIndexAt(spans: seq<Span>, k: nat, q: nat)
    requires k < |spans| && q < spans[k].len
    ensures Skipped(spans, k) + q < |SpanIndexes(spans)|
    ensures SpanIndexes(spans)[Skipped(spans, k) + q] == spans[k].start + q
  {
    if k == |spans| - 1 {
      assert spans[..|spans| - 1] == spans[..k];
    } else {
      var init := spans[..|spans| - 1];
      SpanIndexAt(init, k, q);
      assert init[..k] == spans[..k];
    }
  }

  lemma {:induction false} SkippedStep(spans: seq<Span>, k: nat)
    requires k < |spans|
    ensures Skipped(spans, k + 1) == Skipped(spans, k) + spans[k].len
  {
    SpanIndexesStep(spans, k);
  }

  lemma {:induction false} SkippedEnds(spans: seq<Span>)
    ensures Skipped(spans, 0) == 0 && Skipped(spans, |spans|) == |SpanIndexes(spans)|
  {
    assert spans[..|spans|] == spans;
  }

  lemma {:induction false} SkippedAscends(spans: seq<Span>, j: nat, k: nat)
    requires j <= k <= |spans|
    ensures Skipped(spans, j) <= Skipped(spans, k)
  {
    if j < k {
      SkippedStep(spans, k - 1);
      SkippedAscends(spans, j, k - 1);
    }
  }

  /** Appended offsets continue from the last one. */
  lemma {:induction false} GrownAt(offsets: seq<nat>, spans: seq<Span>, k: nat)
    requires offsets != [] && k <= |spans|
    ensures Grown(offsets, spans)[..|offsets|] == offsets
    ensures Grown(offsets, spans)[|offsets| - 1 + k] == offsets[|offsets| - 1] + Skipped(spans, k)
  {
    if k < |spans| {
      var init := spans[..|spans| - 1];
      GrownAt(offsets, init, k);
      assert init[..k] == spans[..k];
    } else if spans != [] {
      var init := spans[..|spans| - 1];
      GrownAt(offsets, init, |init|);
      assert init[..|init|] == spans[..|spans| - 1];
      SkippedStep(spans, |spans| - 1);
    }
  }

  lemma {:induction false} GrownAscends(offsets: seq<nat>, spans: seq<Span>)
    requires offsets != [] && Ascending(offsets)
    ensures Ascending(Grown(offsets, spans))
  {
    if spans != [] { GrownAscends(offsets, spans[..|spans| - 1]); }
  }

  /** Consecutive rows of a grown column that stem from one run of the view. */
  lemma {:induction false} GrewWindow(s: Slice, t: Type, a: seq<Buffer>, b: seq<Buffer>, pos: nat, spans: seq<Span>, k: nat)
    requires Typed(s, t) && Below(SpanIndexes(spans), Len(s)) && Grew(s, t, a, b, pos, SpanIndexes(spans)) && k < |spans|
    ensures spans[k].len > 0 ==> spans[k].start + spans[k].len <= Len(s)
    ensures RowsAt(t, a, pos) + Skipped(spans, k) + spans[k].len <= RowsAt(t, b, pos)
    ensures spans[k].start + spans[k].len <= Len(s) ==>
              Cells(t, b, pos, RowsAt(t, a, pos) + Skipped(spans, k), spans[k].len) == Window(s, t, spans[k].start, spans[k].len)
  {
    hide Shaped, Typed, SpanIndexes, CellAt, ValueAt;
    var m, from, span := RowsAt(t, a, pos), Skipped(spans, k), spans[k];
    SkippedStep(spans, k);
    SkippedAscends(spans, k + 1, |spans|);
    SkippedEnds(spans);
    if span.len > 0 { SpanIndexAt(spans, k, span.len - 1); }
    if span.start + span.len <= Len(s) {
      forall q | 0 <= q < span.len
        ensures Cells(t, b, pos, m + from, span.len)[q] == Window(s, t, span.start, span.len)[q]
      {
        SpanIndexAt(spans, k, q);
        assert CellAt(t, b, pos, m + (from + q)) == ValueAt(s, t, SpanIndexes(spans)[from + q]);
      }
    }
  }

  /** Nested columnar append: the column holds its former values followed by exactly the chosen ones. */
  lemma {:induction false} AppendedGrows(s: Slice, t: Type, dst: seq<Buffer>, pos: nat, rows: seq<nat>)
    requires Typed(s, t) && Shaped(t, dst, pos) && Below(rows, Len(s))
    ensures Grew(s, t, dst, Appended(s, t, dst, pos, rows), pos, rows)
    decreases s, 1
  {
    hide Typed, Shaped, Kinded, Appended, Grew;
    match s
    case RawSlice(raw) => RawGrows(s, t, dst, pos, rows);
    case PrimSlice(nulls, values) => PrimGrows(s, t, dst, pos, rows);
    case BoolSlice(nulls, flags) => BoolGrows(s, t, dst, pos, rows);
    case ListSlice(nulls, offsets, items) => ListGrows(s, t, dst, pos, rows);
    case FixedSlice(nulls, size, items) => FixedGrows(s, t, dst, pos, rows);
    case StructSlice(nulls, columns, offset, len) => StructGrows(s, t, dst, pos, rows);
  }

  lemma {:induction false} RawGrows(s: Slice, t: Type, dst: seq<Buffer>, pos: nat, rows: seq<nat>)
    requires s.RawSlice? && Typed(s, t) && Shaped(t, dst, pos) && Below(rows, Len(s))
    ensures Grew(s, t, dst, Appended(s, t, dst, pos, rows), pos, rows)
  {
    RawAppended(s, t, dst, pos, rows);
    var d := Appended(s, t, dst, pos, rows);
    hide Appended;
    RawLayout(dst, pos);
    RawLayout(d, pos);
    hide Shaped, Kinded;
    var n := |dst[pos].values|;
    forall i | 0 <= i < n ensures CellAt(t, d, pos, i) == CellAt(t, dst, pos, i) {
      assert d[pos].values[i] == dst[pos].values[i];
    }
    forall k | 0 <= k < |rows| ensures CellAt(t, d, pos, n + k) == ValueAt(s, t, rows[k]) {
      assert d[pos].values[n + k] == s.raw[rows[k]];
    }
  }

  lemma {:induction false} RawAppended(s: Slice, t: Type, dst: seq<Buffer>, pos: nat, rows: seq<nat>)
    requires s.RawSlice? && Typed(s, t) && Kinded(t, dst, pos) && Below(rows, Len(s))
    ensures t == Raw && pos < |dst| && dst[pos].Natives?
    ensures Appended(s, t, dst, pos, rows) == dst[pos := Natives(dst[pos].values + Pick(s.raw, rows))]
  {
  }

  lemma {:induction false} RawLayout(dst: seq<Buffer>, pos: nat)
    ensures Shaped(Raw, dst, pos) <==> pos < |dst| && dst[pos].Natives?
    ensures Shaped(Raw, dst, pos) ==> RowsAt(Raw, dst, pos) == |dst[pos].values|
  {
  }

  lemma {:induction false} PrimLayout(dst: seq<Buffer>, pos: nat)
    ensures Shaped(Prim, dst, pos) <==>
              pos + 1 < |dst| && dst[pos].NullBits? && dst[pos + 1].Natives? && |dst[pos].bits| == |dst[pos + 1].values|
    ensures Shaped(Prim, dst, pos) ==> Kinded(Prim, dst, pos) && RowsAt(Prim, dst, pos) == |dst[pos].bits|
  {
  }

  lemma {:induction false} PrimCell(dst: seq<Buffer>, pos: nat, i: nat)
    requires Shaped(Prim, dst, pos) && i < RowsAt(Prim, dst, pos)
    ensures CellAt(Prim, dst, pos, i) == if dst[pos].bits[i] then Num(dst[pos + 1].values[i]) else Null
  {
  }

  lemma {:induction false} PrimView(s: Slice, t: Type)
    requires s.PrimSlice? && Typed(s, t)
    ensures t == Prim && s.nulls.Ok() && |s.nulls.Bits()| == |s.values| == Len(s)
    ensures forall i :: 0 <= i < Len(s) ==> ValueAt(s, t, i) == if s.nulls.Bits()[i] then Num(s.values[i]) else Null
  {
  }

  lemma {:induction false} PrimAppended(s: Slice, dst: seq<Buffer>, pos: nat, rows: seq<nat>)
    requires Typed(s, Prim) && Kinded(Prim, dst, pos) && Below(rows, Len(s))
    ensures s.PrimSlice? && s.nulls.Ok() && |s.nulls.Bits()| == |s.values| == Len(s)
    ensures pos + 1 < |dst| && dst[pos].NullBits? && dst[pos + 1].Natives?
    ensures Appended(s, Prim, dst, pos, rows)
         == dst[pos := NullBits(dst[pos].bits + Pick(s.nulls.Bits(), rows))]
               [pos + 1 := Natives(dst[pos + 1].values + Pick(s.values, rows))]
  {
    hide BitAt;
  }

  lemma {:induction false} PrimGrows(s: Slice, t: Type, dst: seq<Buffer>, pos: nat, rows: seq<nat>)
    requires s.PrimSlice? && Typed(s, t) && Shaped(t, dst, pos) && Below(rows, Len(s))
    ensures Grew(s, t, dst, Appended(s, t, dst, pos, rows), pos, rows)
  {
    hide BitAt, Typed, Shaped, Kinded, Appended, CellAt, ValueAt, RowsAt;
    PrimView(s, t);
    PrimLayout(dst, pos);
    PrimAppended(s, dst, pos, rows);
    var b, n := Appended(s, t, dst, pos, rows), |dst[pos].bits|;
    PrimLayout(b, pos);
    forall i | 0 <= i < n ensures CellAt(t, b, pos, i) == CellAt(t, dst, pos, i) {
      PrimCell(b, pos, i);
      PrimCell(dst, pos, i);
    }
    forall k | 0 <= k < |rows| ensures CellAt(t, b, pos, n + k) == ValueAt(s, t, rows[k]) {
      PrimCell(b, pos, n + k);
    }
  }

  lemma {:induction false} BoolLayout(dst: seq<Buffer>, pos: nat)
    ensures Shaped(Boolean, dst, pos) <==>
              pos + 1 < |dst| && dst[pos].NullBits? && dst[pos + 1].FlagBits? && |dst[pos].bits| == |dst[pos + 1].bits|
    ensures Shaped(Boolean, dst, pos) ==> Kinded(Boolean, dst, pos) && RowsAt(Boolean, dst, pos) == |dst[pos].bits|
  {
  }

  lemma {:induction false} BoolCell(dst: seq<Buffer>, pos: nat, i: nat)
    requires Shaped(Boolean, dst, pos) && i < RowsAt(Boolean, dst, pos)
    ensures CellAt(Boolean, dst, pos, i) == if dst[pos].bits[i] then Flag(dst[pos + 1].bits[i]) else Null
  {
  }

  lemma {:induction false} BoolView(s: Slice, t: Type)
    requires s.BoolSlice? && Typed(s, t)
    ensures t == Boolean && s.nulls.Ok() && |s.nulls.Bits()| == |s.flags.Bits()| == Len(s)
    ensures forall i :: 0 <= i < Len(s) ==> ValueAt(s, t, i) == if s.nulls.Bits()[i] then Flag(s.flags.Bits()[i]) else Null
  {
  }

  lemma {:induction false} BoolAppended(s: Slice, dst: seq<Buffer>, pos: nat, rows: seq<nat>)
    requires Typed(s, Boolean) && Kinded(Boolean, dst, pos) && Below(rows, Len(s))
    ensures s.BoolSlice? && s.nulls.Ok() && |s.nulls.Bits()| == |s.flags.Bits()| == Len(s)
    ensures pos + 1 < |dst| && dst[pos].NullBits? && dst[pos + 1].FlagBits?
    ensures Appended(s, Boolean, dst, pos, rows)
         == dst[pos := NullBits(dst[pos].bits + Pick(s.nulls.Bits(), rows))]
               [pos + 1 := FlagBits(dst[pos + 1].bits + Pick(s.flags.Bits(), rows))]
  {
    hide BitAt;
  }

  lemma {:induction false} BoolGrows(s: Slice, t: Type, dst: seq<Buffer>, pos: nat, rows: seq<nat>)
    requires s.BoolSlice? && Typed(s, t) && Shaped(t, dst, pos) && Below(rows, Len(s))
    ensures Grew(s, t, dst, Appended(s, t, dst, pos, rows), pos, rows)
  {
    hide BitAt, Typed, Shaped, Kinded, Appended, CellAt, ValueAt, RowsAt;
    BoolView(s, t);
    BoolLayout(dst, pos);
    BoolAppended(s, dst, pos, rows);
    var b, n := Appended(s, t, dst, pos, rows), |dst[pos].bits|;
    BoolLayout(b, pos);
    forall i | 0 <= i < n ensures CellAt(t, b, pos, i) == CellAt(t, dst, pos, i) {
      BoolCell(b, pos, i);
      BoolCell(dst, pos, i);
    }
    forall k | 0 <= k < |rows| ensures CellAt(t, b, pos, n + k) == ValueAt(s, t, rows[k]) {
      BoolCell(b, pos, n + k);
    }
  }

  lemma {:induction false} ListGrows(s: Slice, t: Type, dst: seq<Buffer>, pos: nat, rows: seq<nat>)
    requires s.ListSlice? && Typed(s, t) && Shaped(t, dst, pos) && Below(rows, Len(s))
    ensures Grew(s, t, dst, Appended(s, t, dst, pos, rows), pos, rows)
    decreases s, 0
  {
    hide BitAt, SpanIndexes, Grown;
    var spans := ItemSpans(s.offsets, rows);
    var d := PutLengths(PutNulls(dst, pos, Pick(s.nulls.Bits(), rows)), pos + 1, spans);
    var b := Appended(s, t, dst, pos, rows);
    KindedSame(t.item, dst, d, pos + 2);
    ItemSpansBelow(s.offsets, rows, Len(s.items));
    ColumnFrame(t.item, dst, d, pos + 2);
    AppendedGrows(s.items, t.item, d, pos + 2, SpanIndexes(spans));
    AppendedOutside(s.items, t.item, d, pos + 2, SpanIndexes(spans));
    GrewFrom(s.items, t.item, dst, d, b, pos + 2, SpanIndexes(spans));
    ListGrew(s, t, dst, b, pos, rows);
  }

  /** A list grew when its mask, its offsets and its items did. */
  lemma {:induction false} ListGrew(s: Slice, t: Type, a: seq<Buffer>, b: seq<Buffer>, pos: nat, rows: seq<nat>)
    requires s.ListSlice? && Typed(s, t) && Shaped(t, a, pos) && Kinded(t, b, pos) && Below(rows, Len(s))
    requires b[pos] == NullBits(a[pos].bits + Pick(s.nulls.Bits(), rows))
    requires b[pos + 1] == Offsets(Grown(a[pos + 1].offsets, ItemSpans(s.offsets, rows)))
    requires Below(SpanIndexes(ItemSpans(s.offsets, rows)), Len(s.items))
    requires Grew(s.items, t.item, a, b, pos + 2, SpanIndexes(ItemSpans(s.offsets, rows)))
    ensures Grew(s, t, a, b, pos, rows)
  {
    hide BitAt, SpanIndexes, Grown, CellAt, ValueAt;
    ListGrewShape(s, t, a, b, pos, rows);
    forall i | 0 <= i < RowsAt(t, a, pos) ensures CellAt(t, b, pos, i) == CellAt(t, a, pos, i) {
      ListKept(s, t, a, b, pos, rows, i);
    }
    forall k | 0 <= k < |rows| ensures CellAt(t, b, pos, RowsAt(t, a, pos) + k) == ValueAt(s, t, rows[k]) {
      ListGrewAt(s, t, a, b, pos, rows, k);
    }
  }

  lemma {:induction false} ListGrewShape(s: Slice, t: Type, a: seq<Buffer>, b: seq<Buffer>, pos: nat, rows: seq<nat>)
    requires s.ListSlice? && Typed(s, t) && Shaped(t, a, pos) && Kinded(t, b, pos) && Below(rows, Len(s))
    requires b[pos] == NullBits(a[pos].bits + Pick(s.nulls.Bits(), rows))
    requires b[pos + 1] == Offsets(Grown(a[pos + 1].offsets, ItemSpans(s.offsets, rows)))
    requires Below(SpanIndexes(ItemSpans(s.offsets, rows)), Len(s.items))
    requires Grew(s.items, t.item, a, b, pos + 2, SpanIndexes(ItemSpans(s.offsets, rows)))
    ensures Shaped(t, b, pos) && RowsAt(t, b, pos) == RowsAt(t, a, pos) + |rows|
  {
    hide BitAt, SpanIndexes, Grown, CellAt, ValueAt;
    var spans, before := ItemSpans(s.offsets, rows), a[pos + 1].offsets;
    GrownAscends(before, spans);
    GrownAt(before, spans, |spans|);
    SkippedEnds(spans);
    assert b[pos + 1].offsets[0] == before[0];
  }

  lemma {:induction false} ListKept(s: Slice, t: Type, a: seq<Buffer>, b: seq<Buffer>, pos: nat, rows: seq<nat>, i: nat)
    requires s.ListSlice? && Typed(s, t) && Shaped(t, a, pos) && Shaped(t, b, pos) && Below(rows, Len(s))
    requires b[pos] == NullBits(a[pos].bits + Pick(s.nulls.Bits(), rows))
    requires b[pos + 1] == Offsets(Grown(a[pos + 1].offsets, ItemSpans(s.offsets, rows)))
    requires Below(SpanIndexes(ItemSpans(s.offsets, rows)), Len(s.items))
    requires Grew(s.items, t.item, a, b, pos + 2, SpanIndexes(ItemSpans(s.offsets, rows)))
    requires i < RowsAt(t, a, pos)
    ensures CellAt(t, b, pos, i) == CellAt(t, a, pos, i)
  {
    hide BitAt, SpanIndexes, Grown;
    var spans, before := ItemSpans(s.offsets, rows), a[pos + 1].offsets;
    GrownAt(before, spans, 0);
    assert b[pos + 1].offsets[i] == before[i] && b[pos + 1].offsets[i + 1] == before[i + 1];
    assert Cells(t.item, b, pos + 2, before[i], before[i + 1] - before[i])
        == Cells(t.item, a, pos + 2, before[i], before[i + 1] - before[i]);
  }

  lemma {:induction false} ListGrewAt(s: Slice, t: Type, a: seq<Buffer>, b: seq<Buffer>, pos: nat, rows: seq<nat>, k: nat)
    requires s.ListSlice? && Typed(s, t) && Shaped(t, a, pos) && Shaped(t, b, pos) && Below(rows, Len(s)) && k < |rows|
    requires b[pos] == NullBits(a[pos].bits + Pick(s.nulls.Bits(), rows))
    requires b[pos + 1] == Offsets(Grown(a[pos + 1].offsets, ItemSpans(s.offsets, rows)))
    requires Below(SpanIndexes(ItemSpans(s.offsets, rows)), Len(s.items))
    requires Grew(s.items, t.item, a, b, pos + 2, SpanIndexes(ItemSpans(s.offsets, rows)))
    ensures CellAt(t, b, pos, RowsAt(t, a, pos) + k) == ValueAt(s, t, rows[k])
  {
    hide BitAt, SpanIndexes, Grown;
    var spans, n := ItemSpans(s.offsets, rows), RowsAt(t, a, pos);
    GrownAt(a[pos + 1].offsets, spans, k);
    GrownAt(a[pos + 1].offsets, spans, k + 1);
    SkippedStep(spans, k);
    GrewWindow(s.items, t.item, a, b, pos + 2, spans, k);
    assert s.offsets[rows[k] + 1] <= s.offsets[|s.offsets| - 1];
  }

  lemma {:induction false} FixedSkipped(size: nat, rows: seq<nat>, k: nat)
    requires k <= |rows|
    ensures Skipped(FixedSpans(size, rows), k) == Times(k, size)
  {
    hide Times, Skipped;
    if k == 0 {
      SkippedEnds(FixedSpans(size, rows));
      TimesOne(size);
    } else {
      FixedSkipped(size, rows, k - 1);
      SkippedStep(FixedSpans(size, rows), k - 1);
      TimesAdd(k - 1, 1, size);
      TimesOne(size);
    }
  }

  lemma {:induction false} FixedGrows(s: Slice, t: Type, dst: seq<Buffer>, pos: nat, rows: seq<nat>)
    requires s.FixedSlice? && Typed(s, t) && Shaped(t, dst, pos) && Below(rows, Len(s))
    ensures Grew(s, t, dst, Appended(s, t, dst, pos, rows), pos, rows)
    decreases s, 0
  {
    hide BitAt, SpanIndexes, Times;
    var spans := FixedSpans(s.size, rows);
    var d := PutNulls(dst, pos, Pick(s.nulls.Bits(), rows));
    var b := Appended(s, t, dst, pos, rows);
    KindedSame(t.item, dst, d, pos + 1);
    FixedSpansBelow(s.size, rows, s.nulls.len);
    ColumnFrame(t.item, dst, d, pos + 1);
    AppendedGrows(s.items, t.item, d, pos + 1, SpanIndexes(spans));
    AppendedOutside(s.items, t.item, d, pos + 1, SpanIndexes(spans));
    GrewFrom(s.items, t.item, dst, d, b, pos + 1, SpanIndexes(spans));
    FixedGrew(s, t, dst, b, pos, rows);
  }

  lemma {:induction false} FixedGrew(s: Slice, t: Type, a: seq<Buffer>, b: seq<Buffer>, pos: nat, rows: seq<nat>)
    requires s.FixedSlice? && Typed(s, t) && Shaped(t, a, pos) && Kinded(t, b, pos) && Below(rows, Len(s))
    requires b[pos] == NullBits(a[pos].bits + Pick(s.nulls.Bits(), rows))
    requires Below(SpanIndexes(FixedSpans(s.size, rows)), Len(s.items))
    requires Grew(s.items, t.item, a, b, pos + 1, SpanIndexes(FixedSpans(s.size, rows)))
    ensures Grew(s, t, a, b, pos, rows)
  {
    hide BitAt, SpanIndexes, Times, CellAt, ValueAt;
    FixedGrewShape(s, t, a, b, pos, rows);
    forall i | 0 <= i < RowsAt(t, a, pos) ensures CellAt(t, b, pos, i) == CellAt(t, a, pos, i) {
      FixedKept(s, t, a, b, pos, rows, i);
    }
    forall k | 0 <= k < |rows| ensures CellAt(t, b, pos, RowsAt(t, a, pos) + k) == ValueAt(s, t, rows[k]) {
      FixedGrewAt(s, t, a, b, pos, rows, k);
    }
  }

  lemma {:induction false} FixedGrewShape(s: Slice, t: Type, a: seq<Buffer>, b: seq<Buffer>, pos: nat, rows: seq<nat>)
    requires s.FixedSlice? && Typed(s, t) && Shaped(t, a, pos) && Kinded(t, b, pos) && Below(rows, Len(s))
    requires b[pos] == NullBits(a[pos].bits + Pick(s.nulls.Bits(), rows))
    requires Below(SpanIndexes(FixedSpans(s.size, rows)), Len(s.items))
    requires Grew(s.items, t.item, a, b, pos + 1, SpanIndexes(FixedSpans(s.size, rows)))
    ensures Shaped(t, b, pos) && RowsAt(t, b, pos) == RowsAt(t, a, pos) + |rows|
  {
    hide BitAt, SpanIndexes, Times, Skipped, CellAt, ValueAt;
    SkippedEnds(FixedSpans(s.size, rows));
    FixedSkipped(s.size, rows, |rows|);
    TimesAdd(RowsAt(t, a, pos), |rows|, s.size);
  }

  lemma {:induction false} FixedKept(s: Slice, t: Type, a: seq<Buffer>, b: seq<Buffer>, pos: nat, rows: seq<nat>, i: nat)
    requires s.FixedSlice? && Typed(s, t) && Shaped(t, a, pos) && Shaped(t, b, pos) && Below(rows, Len(s))
    requires b[pos] == NullBits(a[pos].bits + Pick(s.nulls.Bits(), rows))
    requires Below(SpanIndexes(FixedSpans(s.size, rows)), Len(s.items))
    requires Grew(s.items, t.item, a, b, pos + 1, SpanIndexes(FixedSpans(s.size, rows)))
    requires i < RowsAt(t, a, pos)
    ensures CellAt(t, b, pos, i) == CellAt(t, a, pos, i)
  {
    hide BitAt, SpanIndexes, Times, ValueAt;
    var n, size := RowsAt(t, a, pos), s.size;
    TimesBound(i, n, size);
    TimesBound(i, n + |rows|, size);
    assert Cells(t.item, b, pos + 1, Times(i, size), size) == Cells(t.item, a, pos + 1, Times(i, size), size);
  }

  lemma {:induction false} FixedGrewAt(s: Slice, t: Type, a: seq<Buffer>, b: seq<Buffer>, pos: nat, rows: seq<nat>, k: nat)
    requires s.FixedSlice? && Typed(s, t) && Shaped(t, a, pos) && Shaped(t, b, pos) && Below(rows, Len(s))
    requires b[pos] == NullBits(a[pos].bits + Pick(s.nulls.Bits(), rows))
    requires Below(SpanIndexes(FixedSpans(s.size, rows)), Len(s.items))
    requires Grew(s.items, t.item, a, b, pos + 1, SpanIndexes(FixedSpans(s.size, rows)))
    requires k < |rows|
    ensures CellAt(t, b, pos, RowsAt(t, a, pos) + k) == ValueAt(s, t, rows[k])
  {
    hide BitAt, SpanIndexes, Times, Skipped;
    var n, size := RowsAt(t, a, pos), s.size;
    FixedSkipped(size, rows, k);
    TimesAdd(n, k, size);
    TimesBound(rows[k], s.nulls.len, size);
    TimesBound(n + k, n + |rows|, size);
    GrewWindow(s.items, t.item, a, b, pos + 1, FixedSpans(size, rows), k);
  }

  lemma {:induction false} StructGrows(s: Slice, t: Type, dst: seq<Buffer>, pos: nat, rows: seq<nat>)
    requires s.StructSlice? && Typed(s, t) && Shaped(t, dst, pos) && Below(rows, Len(s))
    ensures Grew(s, t, dst, Appended(s, t, dst, pos, rows), pos, rows)
    decreases s.columns, |s.columns| + 1
  {
    hide BitAt, FieldPos, NumBuffers;
    var inner := Shifted(rows, s.offset);
    var d := Masked(s, t, dst, pos, rows);
    var b := Appended(s, t, dst, pos, rows);
    forall c | 0 <= c < |t.fields| ensures Agree(t.fields[c], dst, d, FieldPos(t.fields, pos, c)) {
      FieldInside(t.fields, pos, c);
      ColumnFrame(t.fields[c], dst, d, FieldPos(t.fields, pos, c));
    }
    ColumnsGrow(s.columns, t.fields, s.nulls.len, d, pos, inner, |s.columns|);
    ColumnsOutside(s.columns, t.fields, s.nulls.len, d, pos, inner, |s.columns|);
    forall c | 0 <= c < |t.fields| ensures Grew(s.columns[c], t.fields[c], dst, b, FieldPos(t.fields, pos, c), inner) {
      GrewFrom(s.columns[c], t.fields[c], dst, d, b, FieldPos(t.fields, pos, c), inner);
    }
    KindedSame(t, dst, b, pos);
    StructGrew(s, t, dst, b, pos, rows);
  }

  /** A struct grew when its mask and all its fields did. */
  lemma {:induction false} StructGrew(s: Slice, t: Type, a: seq<Buffer>, b: seq<Buffer>, pos: nat, rows: seq<nat>)
    requires s.StructSlice? && Typed(s, t) && Shaped(t, a, pos) && Kinded(t, b, pos) && Below(rows, Len(s))
    requires Below(Shifted(rows, s.offset), s.nulls.len)
    requires b[pos] == NullBits(a[pos].bits + Pick(s.nulls.Bits(), Shifted(rows, s.offset)))
    requires forall c :: 0 <= c < |t.fields| ==> Grew(s.columns[c], t.fields[c], a, b, FieldPos(t.fields, pos, c), Shifted(rows, s.offset))
    ensures Grew(s, t, a, b, pos, rows)
  {
    hide BitAt, FieldPos, NumBuffers, CellAt, ValueAt;
    assert Shaped(t, b, pos);
    forall i | 0 <= i < RowsAt(t, a, pos) ensures CellAt(t, b, pos, i) == CellAt(t, a, pos, i) {
      StructKept(s, t, a, b, pos, rows, i);
    }
    forall k | 0 <= k < |rows| ensures CellAt(t, b, pos, RowsAt(t, a, pos) + k) == ValueAt(s, t, rows[k]) {
      StructGrewAt(s, t, a, b, pos, rows, k);
    }
  }

  lemma {:induction false} StructKept(s: Slice, t: Type, a: seq<Buffer>, b: seq<Buffer>, pos: nat, rows: seq<nat>, i: nat)
    requires s.StructSlice? && Typed(s, t) && Shaped(t, a, pos) && Shaped(t, b, pos) && Below(rows, Len(s))
    requires Below(Shifted(rows, s.offset), s.nulls.len)
    requires b[pos] == NullBits(a[pos].bits + Pick(s.nulls.Bits(), Shifted(rows, s.offset)))
    requires forall c :: 0 <= c < |t.fields| ==> Grew(s.columns[c], t.fields[c], a, b, FieldPos(t.fields, pos, c), Shifted(rows, s.offset))
    requires i < RowsAt(t, a, pos)
    ensures CellAt(t, b, pos, i) == CellAt(t, a, pos, i)
  {
    hide BitAt, FieldPos, NumBuffers, ValueAt;
    if a[pos].bits[i] { assert CellAt(t, b, pos, i).fields == CellAt(t, a, pos, i).fields; }
  }

  lemma {:induction false} StructGrewAt(s: Slice, t: Type, a: seq<Buffer>, b: seq<Buffer>, pos: nat, rows: seq<nat>, k: nat)
    requires s.StructSlice? && Typed(s, t) && Shaped(t, a, pos) && Shaped(t, b, pos) && Below(rows, Len(s))
    requires Below(Shifted(rows, s.offset), s.nulls.len)
    requires b[pos] == NullBits(a[pos].bits + Pick(s.nulls.Bits(), Shifted(rows, s.offset)))
    requires forall c :: 0 <= c < |t.fields| ==> Grew(s.columns[c], t.fields[c], a, b, FieldPos(t.fields, pos, c), Shifted(rows, s.offset))
    requires k < |rows|
    ensures CellAt(t, b, pos, RowsAt(t, a, pos) + k) == ValueAt(s, t, rows[k])
  {
    hide BitAt, FieldPos, NumBuffers;
    var n := RowsAt(t, a, pos);
    if b[pos].bits[n + k] { assert CellAt(t, b, pos, n + k).fields == ValueAt(s, t, rows[k]).fields; }
  }

  lemma {:induction false} ColumnsGrow(columns: seq<Slice>, fields: seq<Type>, n: nat, dst: seq<Buffer>, pos: nat,
                                       rows: seq<nat>, k: nat)
    requires k <= |columns| == |fields| && Below(rows, n)
    requires forall c :: 0 <= c < |columns| ==> Typed(columns[c], fields[c]) && Len(columns[c]) == n
    requires forall c :: 0 <= c < |columns| ==> Kinded(fields[c], dst, FieldPos(fields, pos, c))
    requires forall c :: 0 <= c < |columns| ==> Shaped(fields[c], dst, FieldPos(fields, pos, c))
    ensures forall c :: 0 <= c < k ==>
              Grew(columns[c], fields[c], dst, AppendedColumns(columns, fields, n, dst, pos, rows, k), FieldPos(fields, pos, c), rows)
    decreases columns, k
  {
    hide Kinded, Typed, Shaped, NumBuffers, Agree, Grew, FieldPos, Outside, Below;
    if k > 0 {
      var d := AppendedColumns(columns, fields, n, dst, pos, rows, k - 1);
      var b := AppendedColumns(columns, fields, n, dst, pos, rows, k);
      ColumnsGrow(columns, fields, n, dst, pos, rows, k - 1);
      NextColumnGrows(columns, fields, n, dst, pos, rows, k);
      forall c | 0 <= c < k - 1 ensures Grew(columns[c], fields[c], dst, b, FieldPos(fields, pos, c), rows) {
        EarlierField(columns[c], fields, pos, c, k - 1, dst, d, b, rows);
      }
    }
  }

  lemma {:induction false} NextColumnGrows(columns: seq<Slice>, fields: seq<Type>, n: nat, dst: seq<Buffer>, pos: nat,
                                           rows: seq<nat>, k: nat)
    requires 0 < k <= |columns| == |fields| && Below(rows, n)
    requires forall c :: 0 <= c < |columns| ==> Typed(columns[c], fields[c]) && Len(columns[c]) == n
    requires forall c :: 0 <= c < |columns| ==> Kinded(fields[c], dst, FieldPos(fields, pos, c))
    requires forall c :: 0 <= c < |columns| ==> Shaped(fields[c], dst, FieldPos(fields, pos, c))
    ensures var d, b := AppendedColumns(columns, fields, n, dst, pos, rows, k - 1), AppendedColumns(columns, fields, n, dst, pos, rows, k);
            && Grew(columns[k - 1], fields[k - 1], dst, b, FieldPos(fields, pos, k - 1), rows)
            && Outside(d, b, FieldPos(fields, pos, k - 1), NumBuffers(fields[k - 1]))
    decreases columns, k, 0
  {
    hide Kinded, Typed, Shaped, NumBuffers, Agree, Grew, FieldPos, Outside, Below;
    var d := AppendedColumns(columns, fields, n, dst, pos, rows, k - 1);
    var b := AppendedColumns(columns, fields, n, dst, pos, rows, k);
    var at := FieldPos(fields, pos, k - 1);
    ColumnsOutside(columns, fields, n, dst, pos, rows, k - 1);
    ColumnFrameAt(fields, pos, k - 1, dst, d);
    KindedSame(fields[k - 1], dst, d, at);
    AppendedGrows(columns[k - 1], fields[k - 1], d, at, rows);
    GrewFrom(columns[k - 1], fields[k - 1], dst, d, b, at, rows);
    AppendedOutside(columns[k - 1], fields[k - 1], d, at, rows);
  }

  /** A field not written yet still means what it meant. */
  lemma {:induction false} ColumnFrameAt(fields: seq<Type>, pos: nat, c: nat, a: seq<Buffer>, b: seq<Buffer>)
    requires c < |fields| && Shaped(fields[c], a, FieldPos(fields, pos, c))
    requires Outside(a, b, pos + 1, ColumnPos(fields, c))
    ensures Agree(fields[c], a, b, FieldPos(fields, pos, c)) && Shaped(fields[c], b, FieldPos(fields, pos, c))
  {
    ColumnFrame(fields[c], a, b, FieldPos(fields, pos, c));
  }

  /** A field written before is not touched by a later one. */
  lemma {:induction false} EarlierField(s: Slice, fields: seq<Type>, pos: nat, c: nat, k: nat, a: seq<Buffer>, d: seq<Buffer>,
                                        b: seq<Buffer>, rows: seq<nat>)
    requires c < k < |fields| && Typed(s, fields[c]) && Below(rows, Len(s))
    requires Grew(s, fields[c], a, d, FieldPos(fields, pos, c), rows)
    requires Outside(d, b, FieldPos(fields, pos, k), NumBuffers(fields[k]))
    ensures Grew(s, fields[c], a, b, FieldPos(fields, pos, c), rows)
  {
    ColumnPosAscends(fields, c, k);
    ColumnFrame(fields[c], d, b, FieldPos(fields, pos, c));
    GrewTo(s, fields[c], a, d, b, FieldPos(fields, pos, c), rows);
  }
}
