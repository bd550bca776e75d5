/** List offsets that are rebased while they are appended (crates/array/src/builder/offsets.rs). */
module OffsetsBuilders {
  import opened ColumnBuffers
  import opened ColumnSelect
  import opened Columns
  import opened NullMask
  import opened Picking

  /** A slice of offsets moved so that it continues from `last`. */
  function Moved(offsets: seq<nat>, last: nat): (r: seq<nat>)
    requires offsets != [] && Ascending(offsets)
    ensures |r| == |offsets| - 1 && forall j :: 0 <= j < |r| ==> r[j] == offsets[j + 1] - offsets[0] + last
  {
    seq(|offsets| - 1, j requires 0 <= j < |offsets| - 1 => offsets[j + 1] - offsets[0] + last)
  }

  function Rebased(buffer: seq<nat>, offsets: seq<nat>): seq<nat>
    requires buffer != [] && offsets != [] && Ascending(offsets)
  {
    buffer + Moved(offsets, buffer[|buffer| - 1])
  }

  lemma {:induction false} GrownJoin(buffer: seq<nat>, a: seq<Span>, b: seq<Span>)
    requires buffer != []
    ensures Grown(buffer, a + b) == Grown(Grown(buffer, a), b)
  {
    if b == [] {
      assert a + b == a;
    } else {
      assert (a + b)[..|a + b| - 1] == a + b[..|b| - 1];
      GrownJoin(buffer, a, b[..|b| - 1]);
    }
  }

  lemma {:induction false} MovedStep(buffer: seq<nat>, offsets: seq<nat>, lo: nat, n: nat)
    requires buffer != [] && Ascending(offsets) && lo + n < |offsets|
    ensures Ascending(offsets[lo..lo + n + 1])
    ensures var r := Rebased(buffer, offsets[lo..lo + n + 1]);
            && r[|r| - 1] == offsets[lo + n] - offsets[lo] + buffer[|buffer| - 1]
            && (n == 0 ==> r == buffer)
            && (n > 0 ==> Ascending(offsets[lo..lo + n]) && r == Rebased(buffer, offsets[lo..lo + n]) + [r[|r| - 1]])
  {
  }

  lemma {:induction false} GrownStep(buffer: seq<nat>, spans: seq<Span>, span: Span)
    requires buffer != []
    ensures var r := Grown(buffer, spans); Grown(buffer, spans + [span]) == r + [r[|r| - 1] + span.len]
  {
  }

  /** Rebasing a slice appends the lengths of its entries. */
  lemma {:induction false} RebasedIsGrown(buffer: seq<nat>, offsets: seq<nat>, lo: nat, n: nat)
    requires buffer != [] && Ascending(offsets) && lo + n < |offsets|
    ensures Below(Run(lo, n), |offsets| - 1) && Ascending(offsets[lo..lo + n + 1])
    ensures Rebased(buffer, offsets[lo..lo + n + 1]) == Grown(buffer, ItemSpans(offsets, Run(lo, n)))
  {
    hide Rebased, Ascending, ItemSpans, Run;
    MovedStep(buffer, offsets, lo, n);
    RunSpans(offsets, lo, n);
    if n > 0 {
      hide Grown;
      MovedStep(buffer, offsets, lo, n - 1);
      RebasedIsGrown(buffer, offsets, lo, n - 1);
      GrownStep(buffer, ItemSpans(offsets, Run(lo, n - 1)), Span(offsets[lo + n - 1], offsets[lo + n] - offsets[lo + n - 1]));
    }
  }

  /** One more range of a list of ranges. */
  lemma {:induction false} RangeGrown(start: seq<nat>, offsets: seq<nat>, ranges: seq<Span>, k: nat)
    requires start != [] && offsets != [] && Ascending(offsets) && SpansBelow(ranges, |offsets| - 1) && k < |ranges|
    requires Below(SpanIndexes(ranges[..k]), |offsets| - 1)
    ensures Below(SpanIndexes(ranges[..k + 1]), |offsets| - 1)
    ensures Rebased(Grown(start, ItemSpans(offsets, SpanIndexes(ranges[..k]))),
                    offsets[ranges[k].start..ranges[k].start + ranges[k].len + 1])
         == Grown(start, ItemSpans(offsets, SpanIndexes(ranges[..k + 1])))
  {
    hide SpanIndexes, Rebased, Grown;
    var r, done := ranges[k], SpanIndexes(ranges[..k]);
    var buffer := Grown(start, ItemSpans(offsets, done));
    RebasedIsGrown(buffer, offsets, r.start, r.len);
    SpanIndexesStep(ranges, k);
    ItemSpansJoin(offsets, done, Run(r.start, r.len));
    GrownJoin(start, ItemSpans(offsets, done), ItemSpans(offsets, Run(r.start, r.len)));
  }

  class OffsetsBuilder {
    var buffer: seq<nat>
    var lastOffset: nat

    ghost predicate Valid()
      reads this
    {
      buffer != [] && lastOffset == buffer[|buffer| - 1]
    }

    constructor (buffer: seq<nat>)
      requires buffer != []
      ensures Valid() && this.buffer == buffer
    {
      this.buffer, lastOffset := buffer, buffer[|buffer| - 1];
    }

    method AppendSlice(offsets: seq<nat>)
      requires Valid() && offsets != [] && Ascending(offsets)
      modifies this
      ensures Valid() && buffer == Rebased(old(buffer), offsets)
    {
      var beg := offsets[0];
      buffer := buffer + Moved(offsets, lastOffset);
      lastOffset := lastOffset + offsets[|offsets| - 1] - beg;
    }

    method AppendSliceIndexes(offsets: seq<nat>, indexes: seq<nat>)
      requires Valid() && offsets != [] && Ascending(offsets) && Below(indexes, |offsets| - 1)
      modifies this
      ensures Valid() && buffer == Grown(old(buffer), ItemSpans(offsets, indexes))
    {
      ghost var spans := ItemSpans(offsets, indexes);
      for k := 0 to |indexes|
        invariant Valid() && buffer == Grown(old(buffer), spans[..k])
      {
        assert spans[..k + 1][..k] == spans[..k];
        lastOffset := lastOffset + (offsets[indexes[k] + 1] - offsets[indexes[k]]);
        buffer := buffer + [lastOffset];
      }
      assert spans[..|indexes|] == spans;
    }

    method AppendSliceRanges(offsets: seq<nat>, ranges: seq<Span>)
      requires Valid() && offsets != [] && Ascending(offsets) && SpansBelow(ranges, |offsets| - 1)
      modifies this
      ensures Valid() && Below(SpanIndexes(ranges), |offsets| - 1)
      ensures buffer == Grown(old(buffer), ItemSpans(offsets, SpanIndexes(ranges)))
    {
      hide SpanIndexes, Rebased, ItemSpans;
      SpanIndexesBelow(ranges, |offsets| - 1);
      NoSpans(old(buffer), offsets, ranges);
      for k := 0 to |ranges|
        invariant Valid() && Below(SpanIndexes(ranges[..k]), |offsets| - 1)
        invariant buffer == Grown(old(buffer), ItemSpans(offsets, SpanIndexes(ranges[..k])))
      {
        var r := ranges[k];
        RangeGrown(old(buffer), offsets, ranges, k);
        AppendSlice(offsets[r.start..r.start + r.len + 1]);
      }
      assert ranges[..|ranges|] == ranges;
    }
  }

  lemma {:induction false} NoSpans(buffer: seq<nat>, offsets: seq<nat>, spans: seq<Span>)
    requires buffer != [] && offsets != [] && Ascending(offsets)
    ensures SpanIndexes(spans[..0]) == [] && Grown(buffer, ItemSpans(offsets, [])) == buffer
  {
  }
}
