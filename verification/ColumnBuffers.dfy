/** Flat destination buffers: their kinds, their meaning, and what appending chosen rows makes of them. */
module ColumnBuffers {
  import opened Bits
  import opened Columns
  import opened NullMask
  import opened Picking

  datatype Buffer =
    | NullBits(bits: seq<bool>)
    | FlagBits(bits: seq<bool>)
    | Natives(values: seq<int>)
    | Offsets(offsets: seq<nat>)

  /** `b` may replace `a`; offsets always have a first entry. */
  predicate SameKind(a: Buffer, b: Buffer) {
    match a
    case NullBits(_) => b.NullBits?
    case FlagBits(_) => b.FlagBits?
    case Natives(_) => b.Natives?
    case Offsets(offsets) => b.Offsets? && (offsets != [] ==> b.offsets != [])
  }

  ghost predicate SameKinds(a: seq<Buffer>, b: seq<Buffer>) {
    |a| == |b| && forall i :: 0 <= i < |a| ==> SameKind(a[i], b[i])
  }

  /** The buffers from `pos` on are of the kinds that type `t` needs. */
  ghost predicate Kinded(t: Type, dst: seq<Buffer>, pos: nat)
    decreases t
  {
    pos + NumBuffers(t) <= |dst| &&
    match t
    case Raw => dst[pos].Natives?
    case Prim => dst[pos].NullBits? && dst[pos + 1].Natives?
    case Boolean => dst[pos].NullBits? && dst[pos + 1].FlagBits?
    case List(item) => dst[pos].NullBits? && dst[pos + 1].Offsets? && dst[pos + 1].offsets != [] && Kinded(item, dst, pos + 2)
    case Fixed(_, item) => dst[pos].NullBits? && Kinded(item, dst, pos + 1)
    case Struct(fields) =>
      dst[pos].NullBits? && forall c :: 0 <= c < |fields| ==> Kinded(fields[c], dst, FieldPos(fields, pos, c))
  }

  // ---- the indexes that a selection of rows needs from inner columns ----

  function SpanIndexes(spans: seq<Span>): seq<nat> {
    if spans == [] then [] else SpanIndexes(spans[..|spans| - 1]) + Run(spans[|spans| - 1].start, spans[|spans| - 1].len)
  }

  lemma {:induction false} SpanIndexesStep(spans: seq<Span>, k: nat)
    requires k < |spans|
    ensures SpanIndexes(spans[..k + 1]) == SpanIndexes(spans[..k]) + Run(spans[k].start, spans[k].len)
  {
    assert spans[..k + 1][..k] == spans[..k];
  }

  ghost predicate SpansBelow(spans: seq<Span>, n: nat) {
    forall k :: 0 <= k < |spans| ==> spans[k].start + spans[k].len <= n
  }

  ghost predicate Below(indexes: seq<nat>, n: nat) {
    forall k :: 0 <= k < |indexes| ==> indexes[k] < n
  }

  lemma {:induction false} SpanIndexesBelow(spans: seq<Span>, n: nat)
    requires SpansBelow(spans, n)
    ensures Below(SpanIndexes(spans), n)
  {
    if spans != [] { SpanIndexesBelow(spans[..|spans| - 1], n); }
  }

  /** The items of list rows. */
  function ItemSpans(offsets: seq<nat>, rows: seq<nat>): (r: seq<Span>)
    requires offsets != [] && Below(rows, |offsets| - 1) && Ascending(offsets)
    ensures |r| == |rows|
    ensures forall k :: 0 <= k < |rows| ==> r[k] == Span(offsets[rows[k]], offsets[rows[k] + 1] - offsets[rows[k]])
  {
    seq(|rows|, k requires 0 <= k < |rows| => Span(offsets[rows[k]], offsets[rows[k] + 1] - offsets[rows[k]]))
  }

  /** The items of fixed-size rows. */
  function FixedSpans(size: nat, rows: seq<nat>): (r: seq<Span>)
    ensures |r| == |rows| && forall k :: 0 <= k < |rows| ==> r[k] == Span(Times(rows[k], size), size)
  {
    seq(|rows|, k requires 0 <= k < |rows| => Span(Times(rows[k], size), size))
  }

  lemma {:induction false} ItemSpansBelow(offsets: seq<nat>, rows: seq<nat>, n: nat)
    requires offsets != [] && Below(rows, |offsets| - 1) && Ascending(offsets) && offsets[|offsets| - 1] <= n
    ensures Below(SpanIndexes(ItemSpans(offsets, rows)), n)
  {
    SpanIndexesBelow(ItemSpans(offsets, rows), n);
  }

  lemma {:induction false} FixedSpansBelow(size: nat, rows: seq<nat>, n: nat)
    requires Below(rows, n)
    ensures Below(SpanIndexes(FixedSpans(size, rows)), Times(n, size))
  {
    hide Times;
    var spans := FixedSpans(size, rows);
    forall k | 0 <= k < |spans| ensures spans[k].start + spans[k].len <= Times(n, size) { TimesBound(rows[k], n, size); }
    SpanIndexesBelow(spans, Times(n, size));
  }

  function Shifted(rows: seq<nat>, by_: nat): (r: seq<nat>)
    ensures |r| == |rows| && forall k :: 0 <= k < |rows| ==> r[k] == by_ + rows[k]
  {
    seq(|rows|, k requires 0 <= k < |rows| => by_ + rows[k])
  }

  // ---- appending rows ----

  function PutNulls(dst: seq<Buffer>, pos: nat, bits: seq<bool>): (r: seq<Buffer>)
    requires pos < |dst| && dst[pos].NullBits?
    ensures |r| == |dst| && SameKinds(dst, r)
  {
    dst[pos := NullBits(dst[pos].bits + bits)]
  }

  function PutFlags(dst: seq<Buffer>, pos: nat, bits: seq<bool>): (r: seq<Buffer>)
    requires pos < |dst| && dst[pos].FlagBits?
    ensures |r| == |dst| && SameKinds(dst, r)
  {
    dst[pos := FlagBits(dst[pos].bits + bits)]
  }

  function PutNatives(dst: seq<Buffer>, pos: nat, values: seq<int>): (r: seq<Buffer>)
    requires pos < |dst| && dst[pos].Natives?
    ensures |r| == |dst| && SameKinds(dst, r)
  {
    dst[pos := Natives(dst[pos].values + values)]
  }

  /** Offsets followed by those of entries with the given lengths. */
  function Grown(offsets: seq<nat>, spans: seq<Span>): (r: seq<nat>)
    requires offsets != []
    ensures |r| == |offsets| + |spans|
  {
    if spans == [] then offsets
    else
      var r := Grown(offsets, spans[..|spans| - 1]);
      r + [r[|r| - 1] + spans[|spans| - 1].len]
  }

  function PutLengths(dst: seq<Buffer>, pos: nat, spans: seq<Span>): (r: seq<Buffer>)
    requires pos < |dst| && dst[pos].Offsets? && dst[pos].offsets != []
    ensures |r| == |dst| && SameKinds(dst, r)
  {
    dst[pos := Offsets(Grown(dst[pos].offsets, spans))]
  }

  lemma {:induction false} AtLeastTwo(t: Type)
    ensures t.Prim? || t.Boolean? || t.List? ==> NumBuffers(t) >= 2
  {
  }

  lemma {:induction false} KindedSame(t: Type, a: seq<Buffer>, b: seq<Buffer>, pos: nat)
    requires Kinded(t, a, pos) && SameKinds(a, b)
    ensures Kinded(t, b, pos)
    decreases t
  {
    hide NumBuffers, FieldPos;
    AtLeastTwo(t);
    match t
    case Raw =>
    case Prim =>
    case Boolean =>
    case List(item) => KindedSame(item, a, b, pos + 2);
    case Fixed(_, item) => KindedSame(item, a, b, pos + 1);
    case Struct(fields) =>
      forall c | 0 <= c < |fields| ensures Kinded(fields[c], b, FieldPos(fields, pos, c)) {
        KindedSame(fields[c], a, b, FieldPos(fields, pos, c));
      }
  }

  /** The buffers after rows `rows` of a view were appended from `pos` on. */
  ghost function Appended(s: Slice, t: Type, dst: seq<Buffer>, pos: nat, rows: seq<nat>): (r: seq<Buffer>)
    requires Typed(s, t) && Kinded(t, dst, pos) && Below(rows, Len(s))
    ensures SameKinds(dst, r)
    decreases s, 0
  {
    hide BitAt, Times, SpanIndexes, NumBuffers, FieldPos, Ascending, Grown;
    AtLeastTwo(t);
    match s
    case RawSlice(raw) => PutNatives(dst, pos, Pick(raw, rows))
    case PrimSlice(nulls, values) =>
      PutNatives(PutNulls(dst, pos, Pick(nulls.Bits(), rows)), pos + 1, Pick(values, rows))
    case BoolSlice(nulls, flags) =>
      PutFlags(PutNulls(dst, pos, Pick(nulls.Bits(), rows)), pos + 1, Pick(flags.Bits(), rows))
    case ListSlice(nulls, offsets, items) =>
      var spans := ItemSpans(offsets, rows);
      var d := PutLengths(PutNulls(dst, pos, Pick(nulls.Bits(), rows)), pos + 1, spans);
      KindedSame(t.item, dst, d, pos + 2);
      ItemSpansBelow(offsets, rows, Len(items));
      Appended(items, t.item, d, pos + 2, SpanIndexes(spans))
    case FixedSlice(nulls, size, items) =>
      var d := PutNulls(dst, pos, Pick(nulls.Bits(), rows));
      KindedSame(t.item, dst, d, pos + 1);
      FixedSpansBelow(size, rows, nulls.len);
      Appended(items, t.item, d, pos + 1, SpanIndexes(FixedSpans(size, rows)))
    case StructSlice(nulls, columns, offset, len) =>
      var inner := Shifted(rows, offset);
      var d := PutNulls(dst, pos, Pick(nulls.Bits(), inner));
      forall c | 0 <= c < |columns| ensures Kinded(t.fields[c], d, FieldPos(t.fields, pos, c)) {
        KindedSame(t.fields[c], dst, d, FieldPos(t.fields, pos, c));
      }
      AppendedColumns(columns, t.fields, nulls.len, d, pos, inner, |columns|)
  }

  /** The first `k` columns of a struct, each behind the buffers of those before it. */
  ghost function AppendedColumns(columns: seq<Slice>, fields: seq<Type>, n: nat, dst: seq<Buffer>, pos: nat,
                                 rows: seq<nat>, k: nat): (r: seq<Buffer>)
    requires k <= |columns| == |fields| && Below(rows, n)
    requires forall c :: 0 <= c < |columns| ==> Typed(columns[c], fields[c]) && Len(columns[c]) == n
    requires forall c :: 0 <= c < |columns| ==> Kinded(fields[c], dst, FieldPos(fields, pos, c))
    ensures SameKinds(dst, r)
    decreases columns, k
  {
    if k == 0 then dst
    else
      var d := AppendedColumns(columns, fields, n, dst, pos, rows, k - 1);
      KindedSame(fields[k - 1], dst, d, FieldPos(fields, pos, k - 1));
      Appended(columns[k - 1], fields[k - 1], d, FieldPos(fields, pos, k - 1), rows)
  }
}
