/** Selections of rows, range by range and index by index, through masks and through sub-views. */
module ColumnSelect {
  import opened Bits
  import opened ColumnBuffers
  import opened Columns
  import opened NullMask
  import opened Picking

  // ---- mask bits of a selection, as the readers produce them ----

  function ShiftedSpans(spans: seq<Span>, offset: nat): (r: seq<Span>)
    ensures |r| == |spans| && forall k :: 0 <= k < |spans| ==> r[k] == Span(offset + spans[k].start, spans[k].len)
  {
    seq(|spans|, k requires 0 <= k < |spans| => Span(offset + spans[k].start, spans[k].len))
  }

  function MaskRange(m: Bitmask, lo: nat, n: nat): (r: seq<bool>)
    requires m.Ok() && lo + n <= m.len
    ensures r == Pick(m.Bits(), Run(lo, n))
  {
    hide BitAt;
    BitsOf(m.data, m.offset + lo, n)
  }

  function MaskIndexes(m: Bitmask, rows: seq<nat>): (r: seq<bool>)
    requires m.Ok() && Below(rows, m.len)
    ensures r == Pick(m.Bits(), rows)
  {
    hide BitAt;
    PickBits(m.data, Shifted(rows, m.offset))
  }

  function MaskRanges(m: Bitmask, spans: seq<Span>): (r: seq<bool>)
    requires m.Ok() && SpansBelow(spans, m.len)
    ensures Below(SpanIndexes(spans), m.len) && r == Pick(m.Bits(), SpanIndexes(spans))
  {
    hide BitAt, SpanBits, SpanIndexes;
    SpanIndexesBelow(spans, m.len);
    SpanBitsPicked(m, spans);
    SpanBits(m.data, ShiftedSpans(spans, m.offset))
  }

  lemma {:induction false} SpanBitsPicked(m: Bitmask, spans: seq<Span>)
    requires m.Ok() && SpansBelow(spans, m.len) && Below(SpanIndexes(spans), m.len)
    ensures SpanBits(m.data, ShiftedSpans(spans, m.offset)) == Pick(m.Bits(), SpanIndexes(spans))
  {
    hide BitAt;
    if spans != [] {
      var init, last := spans[..|spans| - 1], spans[|spans| - 1];
      SpanIndexesBelow(init, m.len);
      SpanBitsPicked(m, init);
      assert ShiftedSpans(spans, m.offset)[..|spans| - 1] == ShiftedSpans(init, m.offset);
      PickJoin(m.Bits(), SpanIndexes(init), Run(last.start, last.len));
      assert BitsOf(m.data, m.offset + last.start, last.len) == Pick(m.Bits(), Run(last.start, last.len));
    }
  }

  lemma {:induction false} SpanCount(spans: seq<Span>)
    ensures |SpanIndexes(spans)| == Total(spans)
  {
    if spans != [] { SpanCount(spans[..|spans| - 1]); }
  }

  function NullsRange(m: Nulls, lo: nat, n: nat): (r: seq<bool>)
    requires m.Ok() && lo + n <= m.len
    ensures r == Pick(m.Bits(), Run(lo, n))
  {
    if m.mask.Some? then MaskRange(m.mask.value, lo, n) else Repeat(true, n)
  }

  function NullsIndexes(m: Nulls, rows: seq<nat>): (r: seq<bool>)
    requires m.Ok() && Below(rows, m.len)
    ensures r == Pick(m.Bits(), rows)
  {
    if m.mask.Some? then MaskIndexes(m.mask.value, rows) else Repeat(true, |rows|)
  }

  function NullsRanges(m: Nulls, spans: seq<Span>): (r: seq<bool>)
    requires m.Ok() && SpansBelow(spans, m.len)
    ensures Below(SpanIndexes(spans), m.len) && r == Pick(m.Bits(), SpanIndexes(spans))
  {
    hide SpanIndexes;
    SpanIndexesBelow(spans, m.len);
    SpanCount(spans);
    if m.mask.Some? then MaskRanges(m.mask.value, spans) else Repeat(true, Total(spans))
  }

  // ---- inner selections ----

  lemma {:induction false} SpanIndexesJoin(a: seq<Span>, b: seq<Span>)
    ensures SpanIndexes(a + b) == SpanIndexes(a) + SpanIndexes(b)
  {
    if b == [] {
      assert a + b == a;
    } else {
      assert (a + b)[..|a + b| - 1] == a + b[..|b| - 1];
      SpanIndexesJoin(a, b[..|b| - 1]);
    }
  }

  lemma {:induction false} RunJoin(start: nat, a: nat, b: nat)
    ensures Run(start, a) + Run(start + a, b) == Run(start, a + b)
  {
  }

  lemma {:induction false} OneSpan(span: Span)
    ensures SpanIndexes([span]) == Run(span.start, span.len)
  {
  }

  lemma {:induction false} RunSpans(offsets: seq<nat>, lo: nat, n: nat)
    requires Ascending(offsets) && lo + n < |offsets|
    ensures Below(Run(lo, n), |offsets| - 1)
    ensures n == 0 ==> ItemSpans(offsets, Run(lo, n)) == []
    ensures n > 0 ==> Below(Run(lo, n - 1), |offsets| - 1) && offsets[lo + n - 1] <= offsets[lo + n]
                      && ItemSpans(offsets, Run(lo, n)) == ItemSpans(offsets, Run(lo, n - 1))
                                                           + [Span(offsets[lo + n - 1], offsets[lo + n] - offsets[lo + n - 1])]
  {
  }

  /** The items of a run of list rows are one run of items. */
  lemma {:induction false} ItemsOfRun(offsets: seq<nat>, lo: nat, n: nat)
    requires Ascending(offsets) && lo + n < |offsets|
    ensures Below(Run(lo, n), |offsets| - 1) && offsets[lo] <= offsets[lo + n]
    ensures SpanIndexes(ItemSpans(offsets, Run(lo, n))) == Run(offsets[lo], offsets[lo + n] - offsets[lo])
  {
    hide Ascending, ItemSpans, Run, Below;
    RunSpans(offsets, lo, n);
    if n == 0 {
      assert Run(offsets[lo], 0) == [];
    } else {
      hide SpanIndexes;
      var last := Span(offsets[lo + n - 1], offsets[lo + n] - offsets[lo + n - 1]);
      ItemsOfRun(offsets, lo, n - 1);
      SpanIndexesJoin(ItemSpans(offsets, Run(lo, n - 1)), [last]);
      OneSpan(last);
      RunJoin(offsets[lo], offsets[lo + n - 1] - offsets[lo], last.len);
    }
  }

  lemma {:induction false} RunFixed(size: nat, lo: nat, n: nat)
    ensures n == 0 ==> FixedSpans(size, Run(lo, n)) == []
    ensures n > 0 ==> FixedSpans(size, Run(lo, n)) == FixedSpans(size, Run(lo, n - 1)) + [Span(Times(lo + n - 1, size), size)]
  {
  }

  lemma {:induction false} FixedOfRun(size: nat, lo: nat, n: nat)
    ensures SpanIndexes(FixedSpans(size, Run(lo, n))) == Run(Times(lo, size), Times(n, size))
  {
    hide Times, Run, FixedSpans;
    RunFixed(size, lo, n);
    TimesOne(size);
    if n == 0 {
      assert Run(Times(lo, size), 0) == [];
    } else {
      hide SpanIndexes;
      var last := Span(Times(lo + n - 1, size), size);
      FixedOfRun(size, lo, n - 1);
      SpanIndexesJoin(FixedSpans(size, Run(lo, n - 1)), [last]);
      OneSpan(last);
      TimesAdd(lo, n - 1, size);
      TimesAdd(n - 1, 1, size);
      RunJoin(Times(lo, size), Times(n - 1, size), size);
    }
  }

  lemma {:induction false} ItemSpansJoin(offsets: seq<nat>, a: seq<nat>, b: seq<nat>)
    requires offsets != [] && Ascending(offsets) && Below(a, |offsets| - 1) && Below(b, |offsets| - 1)
    ensures Below(a + b, |offsets| - 1)
    ensures ItemSpans(offsets, a + b) == ItemSpans(offsets, a) + ItemSpans(offsets, b)
  {
  }

  /** The items of ranges of list rows, range by range. */
  function ValueSpans(offsets: seq<nat>, spans: seq<Span>): (r: seq<Span>)
    requires offsets != [] && Ascending(offsets) && SpansBelow(spans, |offsets| - 1)
    ensures |r| == |spans|
    ensures forall k :: 0 <= k < |spans| ==>
              r[k] == Span(offsets[spans[k].start], offsets[spans[k].start + spans[k].len] - offsets[spans[k].start])
  {
    seq(|spans|, k requires 0 <= k < |spans| =>
      Span(offsets[spans[k].start], offsets[spans[k].start + spans[k].len] - offsets[spans[k].start]))
  }

  lemma {:induction false} ItemsOfRanges(offsets: seq<nat>, spans: seq<Span>)
    requires offsets != [] && Ascending(offsets) && SpansBelow(spans, |offsets| - 1)
    ensures Below(SpanIndexes(spans), |offsets| - 1)
    ensures SpanIndexes(ItemSpans(offsets, SpanIndexes(spans))) == SpanIndexes(ValueSpans(offsets, spans))
  {
    SpanIndexesBelow(spans, |offsets| - 1);
    if spans == [] {
      assert ItemSpans(offsets, []) == [];
    } else {
      hide ItemSpans, Run, Ascending, ValueSpans, SpanIndexes;
      var init, last := spans[..|spans| - 1], spans[|spans| - 1];
      var items := Span(offsets[last.start], offsets[last.start + last.len] - offsets[last.start]);
      SpanIndexesBelow(init, |offsets| - 1);
      ItemsOfRanges(offsets, init);
      ItemsOfRun(offsets, last.start, last.len);
      SpansSplit(offsets, spans);
      ItemSpansJoin(offsets, SpanIndexes(init), Run(last.start, last.len));
      SpanIndexesJoin(ItemSpans(offsets, SpanIndexes(init)), ItemSpans(offsets, Run(last.start, last.len)));
      SpanIndexesJoin(ValueSpans(offsets, init), [items]);
      OneSpan(items);
    }
  }

  lemma {:induction false} SpansSplit(offsets: seq<nat>, spans: seq<Span>)
    requires offsets != [] && Ascending(offsets) && SpansBelow(spans, |offsets| - 1) && spans != []
    ensures var init, last := spans[..|spans| - 1], spans[|spans| - 1];
            && SpanIndexes(spans) == SpanIndexes(init) + Run(last.start, last.len)
            && offsets[last.start] <= offsets[last.start + last.len]
            && ValueSpans(offsets, spans)
               == ValueSpans(offsets, init) + [Span(offsets[last.start], offsets[last.start + last.len] - offsets[last.start])]
  {
    hide Run;
    var init, last := spans[..|spans| - 1], spans[|spans| - 1];
    assert SpanIndexes(spans) == SpanIndexes(init) + Run(last.start, last.len);
    hide SpanIndexes;
    assert offsets[last.start] <= offsets[last.start + last.len];
    hide Ascending;
    var a, b := ValueSpans(offsets, spans), ValueSpans(offsets, init);
    forall k | 0 <= k < |b| ensures a[k] == b[k] {
      assert init[k] == spans[k];
    }
  }

  function Scaled(spans: seq<Span>, size: nat): (r: seq<Span>)
    ensures |r| == |spans| && forall k :: 0 <= k < |spans| ==> r[k] == Span(Times(spans[k].start, size), Times(spans[k].len, size))
  {
    seq(|spans|, k requires 0 <= k < |spans| => Span(Times(spans[k].start, size), Times(spans[k].len, size)))
  }

  lemma {:induction false} FixedSpansJoin(size: nat, a: seq<nat>, b: seq<nat>)
    ensures FixedSpans(size, a + b) == FixedSpans(size, a) + FixedSpans(size, b)
  {
  }

  lemma {:induction false} FixedOfRanges(size: nat, spans: seq<Span>)
    ensures SpanIndexes(FixedSpans(size, SpanIndexes(spans))) == SpanIndexes(Scaled(spans, size))
  {
    hide Times;
    if spans == [] {
      assert FixedSpans(size, []) == [];
    } else {
      hide FixedSpans, Run;
      var init, last := spans[..|spans| - 1], spans[|spans| - 1];
      FixedOfRanges(size, init);
      FixedOfRun(size, last.start, last.len);
      FixedSpansJoin(size, SpanIndexes(init), Run(last.start, last.len));
      SpanIndexesJoin(FixedSpans(size, SpanIndexes(init)), FixedSpans(size, Run(last.start, last.len)));
      assert Scaled(spans, size)[..|spans| - 1] == Scaled(init, size);
    }
  }

  lemma {:induction false} ScaledBelow(spans: seq<Span>, n: nat, size: nat)
    requires SpansBelow(spans, n)
    ensures SpansBelow(Scaled(spans, size), Times(n, size))
  {
  }

  /** Empty ranges may be left out. */
  function NonEmpty(spans: seq<Span>): (r: seq<Span>)
    ensures forall s :: s in r ==> s in spans
  {
    if spans == [] then []
    else
      var last := spans[|spans| - 1];
      NonEmpty(spans[..|spans| - 1]) + if last.len > 0 then [last] else []
  }

  lemma {:induction false} NonEmptyIndexes(spans: seq<Span>)
    ensures SpanIndexes(NonEmpty(spans)) == SpanIndexes(spans)
  {
    if spans != [] {
      var init, last := spans[..|spans| - 1], spans[|spans| - 1];
      NonEmptyIndexes(init);
      if last.len > 0 {
        SpanIndexesJoin(NonEmpty(init), [last]);
        OneSpan(last);
      } else {
        assert NonEmpty(spans) == NonEmpty(init);
      }
    }
  }

  // ---- writing through a sub-view ----

  lemma {:induction false} FixedShifted(size: nat, rows: seq<nat>, offset: nat)
    ensures SpanIndexes(FixedSpans(size, Shifted(rows, offset))) == Shifted(SpanIndexes(FixedSpans(size, rows)), Times(offset, size))
  {
    hide Times;
    if rows == [] {
      assert FixedSpans(size, Shifted(rows, offset)) == [] && FixedSpans(size, rows) == [];
    } else {
      var init, last := rows[..|rows| - 1], rows[|rows| - 1];
      FixedShifted(size, init, offset);
      assert FixedSpans(size, rows)[..|rows| - 1] == FixedSpans(size, init);
      assert FixedSpans(size, Shifted(rows, offset))[..|rows| - 1] == FixedSpans(size, Shifted(init, offset));
      TimesAdd(offset, last, size);
      var inner := SpanIndexes(FixedSpans(size, init));
      assert Shifted(inner + Run(Times(last, size), size), Times(offset, size))
          == Shifted(inner, Times(offset, size)) + Run(Times(offset, size) + Times(last, size), size);
    }
  }

  /** Rows of a sub-view are the shifted rows of the view it was cut from. */
  lemma {:induction false} AppendedSub(s: Slice, t: Type, offset: nat, n: nat, dst: seq<Buffer>, pos: nat, rows: seq<nat>)
    requires Typed(s, t) && offset + n <= Len(s) && Kinded(t, dst, pos) && Below(rows, n)
    ensures Below(Shifted(rows, offset), Len(s)) && (Sub(s, t, offset, n).Some? <==> Sliceable(t))
    ensures var sub := Sub(s, t, offset, n);
            sub.Some? ==>
              && Typed(sub.value, t) && Len(sub.value) == n
              && Appended(sub.value, t, dst, pos, rows) == Appended(s, t, dst, pos, Shifted(rows, offset))
  {
    hide Typed, Kinded, Appended, Sub, ValueAt;
    SubShows(s, t, offset, n);
    if Sub(s, t, offset, n).Some? {
      match s
      case ListSlice(nulls, offsets, items) => ListSub(s, t, offset, n, dst, pos, rows);
      case FixedSlice(nulls, size, items) => FixedSub(s, t, offset, n, dst, pos, rows);
      case StructSlice(nulls, columns, o, len) => StructSub(s, t, offset, n, dst, pos, rows);
      case _ => LeafSub(s, t, offset, n, dst, pos, rows);
    }
  }

  lemma {:induction false} LeafSub(s: Slice, t: Type, offset: nat, n: nat, dst: seq<Buffer>, pos: nat, rows: seq<nat>)
    requires s.RawSlice? || s.PrimSlice? || s.BoolSlice?
    requires Typed(s, t) && offset + n <= Len(s) && Kinded(t, dst, pos) && Below(rows, n)
    requires Sub(s, t, offset, n).Some? && Typed(Sub(s, t, offset, n).value, t) && Len(Sub(s, t, offset, n).value) == n
    requires Below(Shifted(rows, offset), Len(s))
    ensures Appended(Sub(s, t, offset, n).value, t, dst, pos, rows) == Appended(s, t, dst, pos, Shifted(rows, offset))
  {
    hide BitAt;
    if s.RawSlice? {
      assert Pick(s.raw[offset..offset + n], rows) == Pick(s.raw, Shifted(rows, offset));
    } else {
      SubNullBits(s.nulls, offset, n);
      assert Pick(s.nulls.Bits()[offset..offset + n], rows) == Pick(s.nulls.Bits(), Shifted(rows, offset));
      if s.PrimSlice? {
        assert Pick(s.values[offset..offset + n], rows) == Pick(s.values, Shifted(rows, offset));
      } else {
        assert Pick(SubMask(s.flags, offset, n).Bits(), rows) == Pick(s.flags.Bits(), Shifted(rows, offset));
      }
    }
  }

  lemma {:induction false} StructSub(s: Slice, t: Type, offset: nat, n: nat, dst: seq<Buffer>, pos: nat, rows: seq<nat>)
    requires s.StructSlice?
    requires Typed(s, t) && offset + n <= Len(s) && Kinded(t, dst, pos) && Below(rows, n)
    requires Sub(s, t, offset, n).Some? && Typed(Sub(s, t, offset, n).value, t) && Len(Sub(s, t, offset, n).value) == n
    requires Below(Shifted(rows, offset), Len(s))
    ensures Appended(Sub(s, t, offset, n).value, t, dst, pos, rows) == Appended(s, t, dst, pos, Shifted(rows, offset))
  {
    hide BitAt, NumBuffers, FieldPos, AppendedColumns;
    assert Shifted(Shifted(rows, offset), s.offset) == Shifted(rows, s.offset + offset);
  }

  lemma {:induction false} ListSub(s: Slice, t: Type, offset: nat, n: nat, dst: seq<Buffer>, pos: nat, rows: seq<nat>)
    requires s.ListSlice? && Typed(s, t) && offset + n <= Len(s) && Kinded(t, dst, pos) && Below(rows, n)
    requires Sub(s, t, offset, n).Some? && Typed(Sub(s, t, offset, n).value, t) && Len(Sub(s, t, offset, n).value) == n
    requires Below(Shifted(rows, offset), Len(s))
    ensures Appended(Sub(s, t, offset, n).value, t, dst, pos, rows) == Appended(s, t, dst, pos, Shifted(rows, offset))
  {
    hide BitAt, SpanIndexes;
    SubNullBits(s.nulls, offset, n);
    assert Pick(s.nulls.Bits()[offset..offset + n], rows) == Pick(s.nulls.Bits(), Shifted(rows, offset));
    assert ItemSpans(s.offsets[offset..offset + n + 1], rows) == ItemSpans(s.offsets, Shifted(rows, offset));
  }

  lemma {:induction false} FixedSub(s: Slice, t: Type, offset: nat, n: nat, dst: seq<Buffer>, pos: nat, rows: seq<nat>)
    requires s.FixedSlice? && Typed(s, t) && offset + n <= Len(s) && Kinded(t, dst, pos) && Below(rows, n)
    requires Sub(s, t, offset, n).Some? && Typed(Sub(s, t, offset, n).value, t) && Len(Sub(s, t, offset, n).value) == n
    requires Below(Shifted(rows, offset), Len(s))
    ensures Appended(Sub(s, t, offset, n).value, t, dst, pos, rows) == Appended(s, t, dst, pos, Shifted(rows, offset))
  {
    hide BitAt, Times, ValueAt, SpanIndexes;
    SubNullBits(s.nulls, offset, n);
    assert Pick(s.nulls.Bits()[offset..offset + n], rows) == Pick(s.nulls.Bits(), Shifted(rows, offset));
    var d := PutNulls(dst, pos, Pick(s.nulls.Bits(), Shifted(rows, offset)));
    KindedSame(t.item, dst, d, pos + 1);
    TimesFits(offset, n, s.nulls.len, s.size);
    FixedSpansBelow(s.size, rows, n);
    FixedShifted(s.size, rows, offset);
    LeafSub(s.items, t.item, Times(offset, s.size), Times(n, s.size), d, pos + 1, SpanIndexes(FixedSpans(s.size, rows)));
  }
}
