/** The write methods of views (crates/array/src/slice): buffers are reached by position and only appended to.
    That a buffer has the needed kind is a precondition of every access, so no write can hit a wrong one. */
module ColumnWriters {
  import opened ColumnBuffers
  import opened Columns
  import opened NullMask
  import opened OffsetsBuilders
  import opened Picking

  /** How many buffers a view writes. */
  function NumBuffersOf(s: Slice): nat
    decreases s, 0
  {
    match s
    case RawSlice(_) => 1
    case PrimSlice(_, _) => 2
    case BoolSlice(_, _) => 2
    case ListSlice(_, _, items) => 2 + NumBuffersOf(items)
    case FixedSlice(_, _, items) => 1 + NumBuffersOf(items)
    case StructSlice(_, columns, _, _) => 1 + BuffersOf(columns)
  }

  function BuffersOf(columns: seq<Slice>): nat
    decreases columns, 1
  {
    if columns == [] then 0 else BuffersOf(columns[..|columns| - 1]) + NumBuffersOf(columns[|columns| - 1])
  }

  lemma {:induction false} BuffersMatch(s: Slice, t: Type)
    requires Typed(s, t)
    ensures NumBuffersOf(s) == NumBuffers(t)
    decreases s, 0
  {
    match s
    case ListSlice(_, _, items) => BuffersMatch(items, t.item);
    case FixedSlice(_, _, items) => BuffersMatch(items, t.item);
    case StructSlice(_, columns, _, _) => ColumnsMatch(columns, t.fields, |columns|);
    case _ =>
  }

  lemma {:induction false} ColumnsMatch(columns: seq<Slice>, fields: seq<Type>, k: nat)
    requires k <= |columns| == |fields| && forall c :: 0 <= c < |columns| ==> Typed(columns[c], fields[c])
    ensures BuffersOf(columns[..k]) == ColumnPos(fields, k) && columns[..|columns|] == columns
    decreases columns, k
  {
    hide Typed;
    if k > 0 {
      ColumnsMatch(columns, fields, k - 1);
      assert columns[..k][..k - 1] == columns[..k - 1];
      BuffersMatch(columns[k - 1], fields[k - 1]);
    }
  }

  class Destination {
    var buffers: seq<Buffer>

    constructor (buffers: seq<Buffer>)
      ensures this.buffers == buffers
    {
      this.buffers := buffers;
    }

    method WriteNulls(pos: nat, bits: seq<bool>)
      requires pos < |buffers| && buffers[pos].NullBits?
      modifies this
      ensures buffers == PutNulls(old(buffers), pos, bits)
    {
      buffers := buffers[pos := NullBits(buffers[pos].bits + bits)];
    }

    method WriteFlags(pos: nat, bits: seq<bool>)
      requires pos < |buffers| && buffers[pos].FlagBits?
      modifies this
      ensures buffers == PutFlags(old(buffers), pos, bits)
    {
      buffers := buffers[pos := FlagBits(buffers[pos].bits + bits)];
    }

    method WriteNatives(pos: nat, values: seq<int>)
      requires pos < |buffers| && buffers[pos].Natives?
      modifies this
      ensures buffers == PutNatives(old(buffers), pos, values)
    {
      buffers := buffers[pos := Natives(buffers[pos].values + values)];
    }

    method WriteNativeIndexes(pos: nat, values: seq<int>, rows: seq<nat>)
      requires pos < |buffers| && buffers[pos].Natives? && Below(rows, |values|)
      modifies this
      ensures buffers == PutNatives(old(buffers), pos, Pick(values, rows))
    {
      var out := buffers[pos].values;
      for k := 0 to |rows|
        invariant out == old(buffers)[pos].values + Pick(values, rows)[..k] && buffers == old(buffers)
      {
        out := out + [values[rows[k]]];
      }
      assert Pick(values, rows)[..|rows|] == Pick(values, rows);
      buffers := buffers[pos := Natives(out)];
    }

    method WriteNativeRanges(pos: nat, values: seq<int>, ranges: seq<Span>)
      requires pos < |buffers| && buffers[pos].Natives? && SpansBelow(ranges, |values|)
      modifies this
      ensures Below(SpanIndexes(ranges), |values|)
      ensures buffers == PutNatives(old(buffers), pos, Pick(values, SpanIndexes(ranges)))
    {
      hide SpanIndexes;
      SpanIndexesBelow(ranges, |values|);
      var out := buffers[pos].values;
      assert SpanIndexes(ranges[..0]) == [] by { NoSpans([0], [0], ranges); }
      for k := 0 to |ranges|
        invariant buffers == old(buffers) && Below(SpanIndexes(ranges[..k]), |values|)
        invariant out == old(buffers)[pos].values + Pick(values, SpanIndexes(ranges[..k]))
      {
        var r := ranges[k];
        SpanIndexesStep(ranges, k);
        PickJoin(values, SpanIndexes(ranges[..k]), Run(r.start, r.len));
        PickRun(values, r.start, r.len);
        out := out + values[r.start..r.start + r.len];
      }
      assert ranges[..|ranges|] == ranges;
      buffers := buffers[pos := Natives(out)];
    }

    method WriteOffsets(pos: nat, offsets: seq<nat>, lo: nat, n: nat)
      requires pos < |buffers| && buffers[pos].Offsets? && buffers[pos].offsets != []
      requires Ascending(offsets) && lo + n < |offsets|
      modifies this
      ensures Below(Run(lo, n), |offsets| - 1)
      ensures buffers == PutLengths(old(buffers), pos, ItemSpans(offsets, Run(lo, n)))
    {
      RebasedIsGrown(buffers[pos].offsets, offsets, lo, n);
      var b := new OffsetsBuilder(buffers[pos].offsets);
      b.AppendSlice(offsets[lo..lo + n + 1]);
      buffers := buffers[pos := Offsets(b.buffer)];
    }

    method WriteOffsetIndexes(pos: nat, offsets: seq<nat>, rows: seq<nat>)
      requires pos < |buffers| && buffers[pos].Offsets? && buffers[pos].offsets != []
      requires offsets != [] && Ascending(offsets) && Below(rows, |offsets| - 1)
      modifies this
      ensures buffers == PutLengths(old(buffers), pos, ItemSpans(offsets, rows))
    {
      var b := new OffsetsBuilder(buffers[pos].offsets);
      b.AppendSliceIndexes(offsets, rows);
      buffers := buffers[pos := Offsets(b.buffer)];
    }

    method WriteOffsetRanges(pos: nat, offsets: seq<nat>, ranges: seq<Span>)
      requires pos < |buffers| && buffers[pos].Offsets? && buffers[pos].offsets != []
      requires offsets != [] && Ascending(offsets) && SpansBelow(ranges, |offsets| - 1)
      modifies this
      ensures Below(SpanIndexes(ranges), |offsets| - 1)
      ensures buffers == PutLengths(old(buffers), pos, ItemSpans(offsets, SpanIndexes(ranges)))
    {
      var b := new OffsetsBuilder(buffers[pos].offsets);
      b.AppendSliceRanges(offsets, ranges);
      buffers := buffers[pos := Offsets(b.buffer)];
    }
  }
}
