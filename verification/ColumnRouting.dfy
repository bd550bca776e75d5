/** Nested builders hand out their buffers by flat index (crates/array/src/builder/list.rs, struct.rs). */
module ColumnRouting {
  import opened ArrayOffsets
  import opened ColumnBuffers
  import opened ColumnMeaning
  import opened Columns
  import opened Options

  /** The tree of builders for a type. */
  datatype Builder =
    | Leaf(values: Buffer)
    | Flat(nulls: Buffer, values: Buffer)
    | Lists(nulls: Buffer, offsets: Buffer, items: Builder)
    | Sized(nulls: Buffer, items: Builder)
    | Structs(columnOffsets: seq<nat>, nulls: Buffer, columns: seq<Builder>)

  /** All buffers of a builder in order. */
  function Buffers(b: Builder): (r: seq<Buffer>)
    ensures r != []
    decreases b, 0
  {
    match b
    case Leaf(values) => [values]
    case Flat(nulls, values) => [nulls, values]
    case Lists(nulls, offsets, items) => [nulls, offsets] + Buffers(items)
    case Sized(nulls, items) => [nulls] + Buffers(items)
    case Structs(_, nulls, columns) => [nulls] + AllBuffers(columns, |columns|)
  }

  function AllBuffers(columns: seq<Builder>, k: nat): seq<Buffer>
    requires k <= |columns|
    decreases columns, k
  {
    if k == 0 then [] else AllBuffers(columns, k - 1) + Buffers(columns[k - 1])
  }

  datatype Kind = NullKind | FlagKind | NativeKind | OffsetKind

  function KindOf(b: Buffer): Kind {
    match b
    case NullBits(_) => NullKind
    case FlagBits(_) => FlagKind
    case Natives(_) => NativeKind
    case Offsets(_) => OffsetKind
  }

  /** Builders hold buffers of the kinds they are made for, and every struct knows where its columns start. */
  ghost predicate Indexed(b: Builder)
    decreases b
  {
    match b
    case Leaf(values) => values.Natives?
    case Flat(nulls, values) => nulls.NullBits? && (values.Natives? || values.FlagBits?)
    case Lists(nulls, offsets, items) => nulls.NullBits? && offsets.Offsets? && Indexed(items)
    case Sized(nulls, items) => nulls.NullBits? && Indexed(items)
    case Structs(columnOffsets, nulls, columns) =>
      && nulls.NullBits? && |columnOffsets| == |columns| + 1
      && (forall c :: 0 <= c <= |columns| ==> columnOffsets[c] == 1 + |AllBuffers(columns, c)|)
      && (forall c :: 0 <= c < |columns| ==> Indexed(columns[c]))
  }

  lemma {:induction false} OffsetsAscend(columns: seq<Builder>, offsets: seq<nat>)
    requires |offsets| == |columns| + 1 && forall c :: 0 <= c <= |columns| ==> offsets[c] == 1 + |AllBuffers(columns, c)|
    ensures Strict(offsets)
  {
    forall i, j | 0 <= i < j < |offsets| ensures offsets[i] < offsets[j] { BuffersGrow(columns, i, j); }
  }

  lemma {:induction false} BuffersGrow(columns: seq<Builder>, i: nat, j: nat)
    requires i < j <= |columns|
    ensures |AllBuffers(columns, i)| < |AllBuffers(columns, j)|
  {
    if i < j - 1 { BuffersGrow(columns, i, j - 1); }
  }

  /** Which column holds a buffer of a struct, and which of its buffers it is. */
  method FindColumn(b: Builder, buf: nat) returns (r: Option<(nat, nat)>)
    requires b.Structs? && Indexed(b)
    ensures r.Some? <==> 1 <= buf < |Buffers(b)|
    ensures r.Some? ==> r.value.0 < |b.columns| && buf == b.columnOffsets[r.value.0] + r.value.1
                        && r.value.1 < |Buffers(b.columns[r.value.0])|
  {
    OffsetsAscend(b.columns, b.columnOffsets);
    var col := BisectOffsets(b.columnOffsets, buf);
    if col.Some? {
      return Some((col.value, buf - b.columnOffsets[col.value]));
    }
    return None;
  }

  lemma {:induction false} AllBuffersAt(columns: seq<Builder>, c: nat, k: nat, j: nat)
    requires c < k <= |columns| && j < |Buffers(columns[c])|
    ensures |AllBuffers(columns, c)| + j < |AllBuffers(columns, k)|
    ensures AllBuffers(columns, k)[|AllBuffers(columns, c)| + j] == Buffers(columns[c])[j]
  {
    if c < k - 1 { AllBuffersAt(columns, c, k - 1, j); }
  }

  lemma {:induction false} AllBuffersLast(columns: seq<Builder>, k: nat)
    requires 0 < k <= |columns|
    ensures AllBuffers(columns, k) == AllBuffers(columns, k - 1) + Buffers(columns[k - 1])
  {
  }

  lemma {:induction false} PutBehind(a: seq<Buffer>, b: seq<Buffer>, j: nat, x: Buffer)
    requires j < |b|
    ensures a + b[j := x] == (a + b)[|a| + j := x]
  {
  }

  lemma {:induction false} PutBefore(a: seq<Buffer>, b: seq<Buffer>, j: nat, x: Buffer)
    requires j < |a|
    ensures a[j := x] + b == (a + b)[j := x]
  {
  }

  /** Replacing one buffer of one column replaces one buffer of all. */
  lemma {:induction false} AllBuffersPut(columns: seq<Builder>, c: nat, b: Builder, j: nat, x: Buffer, k: nat)
    requires c < |columns| && k <= |columns| && j < |Buffers(columns[c])| && Buffers(b) == Buffers(columns[c])[j := x]
    ensures |AllBuffers(columns[c := b], k)| == |AllBuffers(columns, k)|
    ensures c < k ==> |AllBuffers(columns, c)| + j < |AllBuffers(columns, k)|
    ensures AllBuffers(columns[c := b], k)
         == if c < k then AllBuffers(columns, k)[|AllBuffers(columns, c)| + j := x] else AllBuffers(columns, k)
  {
    if k > 0 {
      hide Buffers, AllBuffers;
      AllBuffersPut(columns, c, b, j, x, k - 1);
      AllBuffersLast(columns, k);
      AllBuffersLast(columns[c := b], k);
      var before, last := AllBuffers(columns, k - 1), Buffers(columns[k - 1]);
      if c == k - 1 {
        PutBehind(before, last, j, x);
      } else if c < k - 1 {
        PutBefore(before, last, |AllBuffers(columns, c)| + j, x);
      } else {
        assert columns[c := b][k - 1] == columns[k - 1];
      }
    }
  }

  /** Hands out buffer `buf` as one of kind `kind` and takes it back as `x`; `None` is an invalid access. */
  method Access(b: Builder, kind: Kind, buf: nat, x: Buffer) returns (r: Option<Builder>)
    requires Indexed(b) && KindOf(x) == kind
    ensures r.Some? <==> buf < |Buffers(b)| && KindOf(Buffers(b)[buf]) == kind
    ensures r.Some? ==> Indexed(r.value) && Buffers(r.value) == Buffers(b)[buf := x]
    decreases b, 1
  {
    match b
    case Leaf(values) =>
      if buf == 0 && kind.NativeKind? { return Some(Leaf(x)); }
      return None;
    case Flat(nulls, values) =>
      if buf == 0 && kind.NullKind? { return Some(Flat(x, values)); }
      if buf == 1 && kind == KindOf(values) { return Some(Flat(nulls, x)); }
      return None;
    case Lists(nulls, offsets, items) => r := AccessList(b, kind, buf, x);
    case Sized(nulls, items) => r := AccessSized(b, kind, buf, x);
    case Structs(columnOffsets, nulls, columns) =>
      if buf == 0 && kind.NullKind? { return Some(Structs(columnOffsets, x, columns)); }
      r := AccessColumn(b, kind, buf, x);
  }

  method AccessList(b: Builder, kind: Kind, buf: nat, x: Buffer) returns (r: Option<Builder>)
    requires Indexed(b) && b.Lists? && KindOf(x) == kind
    ensures r.Some? <==> buf < |Buffers(b)| && KindOf(Buffers(b)[buf]) == kind
    ensures r.Some? ==> Indexed(r.value) && Buffers(r.value) == Buffers(b)[buf := x]
    decreases b, 0
  {
    if buf == 0 {
      if kind.NullKind? { return Some(Lists(x, b.offsets, b.items)); }
      return None;
    } else if buf == 1 {
      if kind.OffsetKind? { return Some(Lists(b.nulls, x, b.items)); }
      return None;
    }
    var inner := Access(b.items, kind, buf - 2, x);
    if inner.None? { return None; }
    PutBehind([b.nulls, b.offsets], Buffers(b.items), buf - 2, x);
    return Some(Lists(b.nulls, b.offsets, inner.value));
  }

  method AccessSized(b: Builder, kind: Kind, buf: nat, x: Buffer) returns (r: Option<Builder>)
    requires Indexed(b) && b.Sized? && KindOf(x) == kind
    ensures r.Some? <==> buf < |Buffers(b)| && KindOf(Buffers(b)[buf]) == kind
    ensures r.Some? ==> Indexed(r.value) && Buffers(r.value) == Buffers(b)[buf := x]
    decreases b, 0
  {
    if buf == 0 {
      if kind.NullKind? { return Some(Sized(x, b.items)); }
      return None;
    }
    var inner := Access(b.items, kind, buf - 1, x);
    assert Buffers(b) == [b.nulls] + Buffers(b.items);
    if inner.None? { return None; }
    hide Buffers;
    PutBehind([b.nulls], Buffers(b.items), buf - 1, x);
    SizedBuffers(b.nulls, inner.value);
    return Some(Sized(b.nulls, inner.value));
  }

  lemma {:induction false} SizedBuffers(nulls: Buffer, items: Builder)
    ensures Buffers(Sized(nulls, items)) == [nulls] + Buffers(items)
  {
  }

  method AccessColumn(b: Builder, kind: Kind, buf: nat, x: Buffer) returns (r: Option<Builder>)
    requires Indexed(b) && b.Structs? && KindOf(x) == kind && !(buf == 0 && kind.NullKind?)
    ensures r.Some? <==> buf < |Buffers(b)| && KindOf(Buffers(b)[buf]) == kind
    ensures r.Some? ==> Indexed(r.value) && Buffers(r.value) == Buffers(b)[buf := x]
    decreases b, 0
  {
    hide Indexed, Buffers, AllBuffers;
    StructParts(b);
    var found := FindColumn(b, buf);
    if found.None? { return None; }
    var (col, j) := found.value;
    AllBuffersAt(b.columns, col, |b.columns|, j);
    var inner := Access(b.columns[col], kind, j, x);
    if inner.None? { return None; }
    ColumnReplaced(b, col, inner.value, j, x);
    return Some(Structs(b.columnOffsets, b.nulls, b.columns[col := inner.value]));
  }

  lemma {:induction false} StructParts(b: Builder)
    requires Indexed(b) && b.Structs?
    ensures b.nulls.NullBits? && Buffers(b) == [b.nulls] + AllBuffers(b.columns, |b.columns|)
    ensures |b.columnOffsets| == |b.columns| + 1
    ensures forall c :: 0 <= c < |b.columns| ==> b.columnOffsets[c] == 1 + |AllBuffers(b.columns, c)| && Indexed(b.columns[c])
  {
  }

  lemma {:induction false} ColumnReplaced(b: Builder, col: nat, column: Builder, j: nat, x: Buffer)
    requires Indexed(b) && b.Structs? && col < |b.columns| && Indexed(column) && j < |Buffers(b.columns[col])|
    requires Buffers(column) == Buffers(b.columns[col])[j := x]
    ensures var r := Structs(b.columnOffsets, b.nulls, b.columns[col := column]);
            && |b.columnOffsets| == |b.columns| + 1 && b.columnOffsets[col] + j < |Buffers(b)|
            && Indexed(r) && Buffers(r) == Buffers(b)[b.columnOffsets[col] + j := x]
  {
    var columns := b.columns[col := column];
    AllBuffersPut(b.columns, col, column, j, x, |b.columns|);
    PutBehind([b.nulls], AllBuffers(b.columns, |b.columns|), |AllBuffers(b.columns, col)| + j, x);
    forall k | 0 <= k <= |b.columns| ensures |AllBuffers(columns, k)| == |AllBuffers(b.columns, k)| {
      AllBuffersPut(b.columns, col, column, j, x, k);
    }
  }

  // ---- new builders ----

  /** The types destinations exist for: fixed-size lists only of raw bytes, raw bytes only inside lists. */
  predicate Buildable(t: Type)
    decreases t
  {
    match t
    case Raw => false
    case Prim => true
    case Boolean => true
    case List(item) => item.Raw? || Buildable(item)
    case Fixed(_, item) => item.Raw?
    case Struct(fields) => forall c :: 0 <= c < |fields| ==> Buildable(fields[c])
  }

  /** A new builder; `None`: the type is refused and the construction aborts. */
  function New(t: Type): Option<Builder>
    decreases t
  {
    match t
    case Raw => None
    case Prim => Some(Flat(NullBits([]), Natives([])))
    case Boolean => Some(Flat(NullBits([]), FlagBits([])))
    case List(item) =>
      if item.Raw? then Some(Lists(NullBits([]), Offsets([0]), Leaf(Natives([]))))
      else (match New(item)
            case None => None
            case Some(items) => Some(Lists(NullBits([]), Offsets([0]), items)))
    case Fixed(_, item) => if item.Raw? then Some(Sized(NullBits([]), Leaf(Natives([])))) else None
    case Struct(fields) =>
      if exists c :: 0 <= c < |fields| && New(fields[c]).None? then None
      else
        Some(Structs(seq(|fields| + 1, c requires 0 <= c <= |fields| => 1 + ColumnPos(fields, c)), NullBits([]),
                     seq(|fields|, c requires 0 <= c < |fields| => New(fields[c]).value)))
  }

  lemma {:induction false} NewIffBuildable(t: Type)
    ensures New(t).Some? <==> Buildable(t)
    decreases t
  {
    match t
    case List(item) => if !item.Raw? { NewIffBuildable(item); }
    case Struct(fields) =>
      forall c | 0 <= c < |fields| ensures New(fields[c]).Some? <==> Buildable(fields[c]) { NewIffBuildable(fields[c]); }
    case _ =>
  }

  /** Every kind of selection can be written to whatever destination exists. */
  lemma {:induction false} BuildableIsSelectable(t: Type)
    requires Buildable(t)
    ensures Sliceable(t) && Selectable(t)
    decreases t
  {
    match t
    case List(item) => if !item.Raw? { BuildableIsSelectable(item); }
    case Struct(fields) =>
      forall c | 0 <= c < |fields| ensures Sliceable(fields[c]) && Selectable(fields[c]) { BuildableIsSelectable(fields[c]); }
    case _ =>
  }

  /** An empty column of the type, wherever the buffers stand. */
  ghost predicate Serves(t: Type, b: Builder) {
    && Indexed(b) && |Buffers(b)| == NumBuffers(t)
    && forall dst: seq<Buffer>, pos: nat :: Placed(dst, pos, Buffers(b)) ==> Shaped(t, dst, pos) && RowsAt(t, dst, pos) == 0
  }

  /** A builder exists if and only if the type is buildable; a new one is indexed, has exactly the buffers its type needs,
      in the order in which views write them, and they are a column without rows. */
  lemma {:induction false} NewServesItsType(t: Type)
    ensures New(t).Some? <==> Buildable(t)
    ensures New(t).Some? ==> Serves(t, New(t).value)
    decreases t, 1
  {
    NewIffBuildable(t);
    if New(t).Some? {
      var b := New(t).value;
      match t
      case List(item) =>
        if item.Raw? { LeafServes(); } else { NewServesItsType(item); }
        ListServes(b.items, item);
      case Fixed(size, item) =>
        LeafServes();
        SizedServes(size);
      case Struct(fields) => NewStruct(t);
      case Prim => FlatServes(t, Natives([]));
      case Boolean => FlatServes(t, FlagBits([]));
    }
  }

  lemma {:induction false} LeafServes()
    ensures Serves(Raw, Leaf(Natives([])))
  {
    var part := [Natives([])];
    forall dst: seq<Buffer>, pos: nat | Placed(dst, pos, part) ensures Shaped(Raw, dst, pos) && RowsAt(Raw, dst, pos) == 0 {
      assert dst[pos + 0] == part[0];
    }
  }

  lemma {:induction false} FlatServes(t: Type, values: Buffer)
    requires (t.Prim? && values == Natives([])) || (t.Boolean? && values == FlagBits([]))
    ensures Serves(t, Flat(NullBits([]), values))
  {
    var part := [NullBits([]), values];
    forall dst: seq<Buffer>, pos: nat | Placed(dst, pos, part) ensures Shaped(t, dst, pos) && RowsAt(t, dst, pos) == 0 {
      assert dst[pos + 0] == part[0] && dst[pos + 1] == part[1];
    }
  }

  lemma {:induction false} ListServes(items: Builder, item: Type)
    requires Serves(item, items)
    ensures Serves(List(item), Lists(NullBits([]), Offsets([0]), items))
  {
    hide Indexed;
    var part := [NullBits([]), Offsets([0])] + Buffers(items);
    assert Indexed(Lists(NullBits([]), Offsets([0]), items)) by { ListIndexed(items); }
    forall dst: seq<Buffer>, pos: nat | Placed(dst, pos, part)
      ensures Shaped(List(item), dst, pos) && RowsAt(List(item), dst, pos) == 0
    {
      PlacedBehind(dst, pos, [NullBits([]), Offsets([0])], Buffers(items));
      assert dst[pos + 0] == part[0] && dst[pos + 1] == part[1];
    }
  }

  lemma {:induction false} ListIndexed(items: Builder)
    requires Indexed(items)
    ensures Indexed(Lists(NullBits([]), Offsets([0]), items))
  {
  }

  lemma {:induction false} SizedServes(size: nat)
    requires Serves(Raw, Leaf(Natives([])))
    ensures Serves(Fixed(size, Raw), Sized(NullBits([]), Leaf(Natives([]))))
  {
    var part := [NullBits([]), Natives([])];
    assert Buffers(Sized(NullBits([]), Leaf(Natives([])))) == part;
    assert Times(0, size) == 0;
    forall dst: seq<Buffer>, pos: nat | Placed(dst, pos, part)
      ensures Shaped(Fixed(size, Raw), dst, pos) && RowsAt(Fixed(size, Raw), dst, pos) == 0
    {
      assert dst[pos + 0] == part[0] && dst[pos + 1] == part[1];
    }
  }

  lemma {:induction false} PlacedBehind(dst: seq<Buffer>, pos: nat, front: seq<Buffer>, back: seq<Buffer>)
    requires Placed(dst, pos, front + back)
    ensures Placed(dst, pos, front) && Placed(dst, pos + |front|, back)
  {
    forall i | 0 <= i < |front| ensures dst[pos + i] == front[i] { assert (front + back)[i] == front[i]; }
    forall i | 0 <= i < |back| ensures dst[pos + |front| + i] == back[i] {
      assert dst[pos + (|front| + i)] == (front + back)[|front| + i];
    }
  }

  /** The given buffers stand in `dst` from `pos` on. */
  ghost predicate Placed(dst: seq<Buffer>, pos: nat, part: seq<Buffer>) {
    pos + |part| <= |dst| && forall i :: 0 <= i < |part| ==> dst[pos + i] == part[i]
  }

  lemma {:induction false} NewStruct(t: Type)
    requires t.Struct? && New(t).Some?
    ensures Serves(t, New(t).value)
    decreases t, 0
  {
    hide Kinded, Buffers, NumBuffers;
    var fields, columns := t.fields, New(t).value.columns;
    forall c | 0 <= c < |fields| ensures Serves(fields[c], columns[c]) { NewServesItsType(fields[c]); }
    StructIndexed(fields, columns, New(t).value);
    forall dst: seq<Buffer>, pos: nat | Placed(dst, pos, Buffers(New(t).value))
      ensures Shaped(t, dst, pos) && RowsAt(t, dst, pos) == 0
    {
      StructServes(fields, columns, New(t).value, dst, pos);
    }
  }

  ghost predicate StructOf(fields: seq<Type>, columns: seq<Builder>, b: Builder) {
    && |columns| == |fields| && (forall c :: 0 <= c < |fields| ==> Serves(fields[c], columns[c]))
    && b.Structs? && b.nulls == NullBits([]) && b.columns == columns && |b.columnOffsets| == |fields| + 1
    && forall c :: 0 <= c <= |fields| ==> b.columnOffsets[c] == 1 + ColumnPos(fields, c)
  }

  lemma {:induction false} StructIndexed(fields: seq<Type>, columns: seq<Builder>, b: Builder)
    requires StructOf(fields, columns, b)
    ensures Indexed(b) && |Buffers(b)| == NumBuffers(Struct(fields))
  {
    forall k | 0 <= k <= |fields| ensures |AllBuffers(columns, k)| == ColumnPos(fields, k) { NewColumnPos(fields, columns, k); }
  }

  lemma {:induction false} NewColumnPos(fields: seq<Type>, columns: seq<Builder>, k: nat)
    requires k <= |fields| == |columns| && forall c :: 0 <= c < |fields| ==> |Buffers(columns[c])| == NumBuffers(fields[c])
    ensures |AllBuffers(columns, k)| == ColumnPos(fields, k)
  {
    hide Buffers, NumBuffers;
    if k > 0 { NewColumnPos(fields, columns, k - 1); }
  }

  lemma {:induction false} StructServes(fields: seq<Type>, columns: seq<Builder>, b: Builder, dst: seq<Buffer>, pos: nat)
    requires StructOf(fields, columns, b) && Placed(dst, pos, Buffers(b))
    ensures Shaped(Struct(fields), dst, pos) && RowsAt(Struct(fields), dst, pos) == 0
  {
    StructIndexed(fields, columns, b);
    assert dst[pos + 0] == Buffers(b)[0] == NullBits([]);
    hide NumBuffers;
    forall c | 0 <= c < |fields|
      ensures Shaped(fields[c], dst, FieldPos(fields, pos, c)) && RowsAt(fields[c], dst, FieldPos(fields, pos, c)) == 0
      ensures Kinded(fields[c], dst, FieldPos(fields, pos, c))
    {
      NewColumnPos(fields, columns, c);
      FieldPlaced(NullBits([]), columns, c, dst, pos);
      assert Serves(fields[c], columns[c]);
    }
  }

  lemma {:induction false} FieldPlaced(nulls: Buffer, columns: seq<Builder>, c: nat, dst: seq<Buffer>, pos: nat)
    requires c < |columns| && Placed(dst, pos, [nulls] + AllBuffers(columns, |columns|))
    ensures Placed(dst, pos + 1 + |AllBuffers(columns, c)|, Buffers(columns[c]))
  {
    hide Buffers, AllBuffers;
    var all, before := AllBuffers(columns, |columns|), |AllBuffers(columns, c)|;
    AllBuffersAt(columns, c, |columns|, |Buffers(columns[c])| - 1);
    forall j | 0 <= j < |Buffers(columns[c])| ensures dst[pos + 1 + before + j] == Buffers(columns[c])[j] {
      AllBuffersAt(columns, c, |columns|, j);
      assert dst[pos + (1 + before + j)] == ([nulls] + all)[1 + before + j];
    }
  }
}
