/** What destination buffers mean, and that appending rows appends exactly their logical values. */
module ColumnMeaning {
  import opened ColumnBuffers
  import opened Columns

  /** How many rows the buffers of a column hold. */
  function RowsAt(t: Type, dst: seq<Buffer>, pos: nat): nat {
    if pos >= |dst| then 0
    else match dst[pos]
      case NullBits(bits) => |bits|
      case FlagBits(bits) => |bits|
      case Natives(values) => |values|
      case Offsets(offsets) => 0
  }

  /** Buffers of the right kinds whose lengths fit together. */
  ghost predicate Shaped(t: Type, dst: seq<Buffer>, pos: nat)
    decreases t
  {
    Kinded(t, dst, pos) &&
    match t
    case Raw => true
    case Prim => |dst[pos].bits| == |dst[pos + 1].values|
    case Boolean => |dst[pos].bits| == |dst[pos + 1].bits|
    case List(item) =>
      var offsets := dst[pos + 1].offsets;
      && |offsets| == |dst[pos].bits| + 1 && offsets[0] == 0 && Ascending(offsets)
      && Shaped(item, dst, pos + 2) && offsets[|offsets| - 1] == RowsAt(item, dst, pos + 2)
    case Fixed(size, item) =>
      Shaped(item, dst, pos + 1) && RowsAt(item, dst, pos + 1) == Times(|dst[pos].bits|, size)
    case Struct(fields) =>
      forall c :: 0 <= c < |fields| ==>
        && Shaped(fields[c], dst, FieldPos(fields, pos, c))
        && RowsAt(fields[c], dst, FieldPos(fields, pos, c)) == |dst[pos].bits|
  }

  ghost function Cells(t: Type, dst: seq<Buffer>, pos: nat, from: nat, n: nat): (r: seq<Value>)
    requires Shaped(t, dst, pos) && from + n <= RowsAt(t, dst, pos)
    ensures |r| == n
    decreases t, 1
  {
    seq(n, k requires 0 <= k < n => CellAt(t, dst, pos, from + k))
  }

  /** The logical value in row `i` of a column. */
  ghost function CellAt(t: Type, dst: seq<Buffer>, pos: nat, i: nat): Value
    requires Shaped(t, dst, pos) && i < RowsAt(t, dst, pos)
    decreases t, 0
  {
    match t
    case Raw => Num(dst[pos].values[i])
    case Prim => if dst[pos].bits[i] then Num(dst[pos + 1].values[i]) else Null
    case Boolean => if dst[pos].bits[i] then Flag(dst[pos + 1].bits[i]) else Null
    case List(item) =>
      var offsets := dst[pos + 1].offsets;
      assert offsets[i] <= offsets[i + 1] <= offsets[|offsets| - 1];
      if dst[pos].bits[i] then Items(Cells(item, dst, pos + 2, offsets[i], offsets[i + 1] - offsets[i])) else Null
    case Fixed(size, item) =>
      TimesBound(i, |dst[pos].bits|, size);
      if dst[pos].bits[i] then Items(Cells(item, dst, pos + 1, Times(i, size), size)) else Null
    case Struct(fields) =>
      if !dst[pos].bits[i] then Null
      else Record(seq(|fields|, c requires 0 <= c < |fields| => CellAt(fields[c], dst, FieldPos(fields, pos, c), i)))
  }

  /** Exactly the rows whose bit is not set are null; raw bytes never are. */
  lemma {:induction false} CellNullIffAbsent(t: Type, dst: seq<Buffer>, pos: nat, i: nat)
    requires Shaped(t, dst, pos) && i < RowsAt(t, dst, pos)
    ensures CellAt(t, dst, pos, i) == Null <==> dst[pos].NullBits? && !dst[pos].bits[i]
  {
    hide Times;
  }

  /** The same three lists, in buffers. */
  lemma {:induction false} ListsAreDecoded()
    ensures var dst := [NullBits([true, false, true]), Offsets([0, 2, 2, 3]), NullBits([true, true, false]), Natives([7, 8, 9])];
            && Shaped(List(Prim), dst, 0) && RowsAt(List(Prim), dst, 0) == 3
            && Cells(List(Prim), dst, 0, 0, 3) == [Items([Num(7), Num(8)]), Null, Items([Null])]
  {
    var dst := [NullBits([true, false, true]), Offsets([0, 2, 2, 3]), NullBits([true, true, false]), Natives([7, 8, 9])];
    assert Shaped(Prim, dst, 2);
    assert Shaped(List(Prim), dst, 0);
    assert Cells(Prim, dst, 2, 0, 2) == [Num(7), Num(8)] && Cells(Prim, dst, 2, 2, 1) == [Null];
  }

  // ---- a column is its own buffers and nothing else ----

  ghost predicate SameFrom(a: seq<Buffer>, b: seq<Buffer>, pos: nat, n: nat) {
    |a| == |b| && pos + n <= |a| && forall i :: pos <= i < pos + n ==> a[i] == b[i]
  }

  lemma {:induction false} KindedFrame(t: Type, a: seq<Buffer>, b: seq<Buffer>, pos: nat)
    requires Kinded(t, a, pos) && SameFrom(a, b, pos, NumBuffers(t))
    ensures Kinded(t, b, pos)
    decreases t
  {
    hide FieldPos;
    match t
    case Raw =>
    case Prim =>
    case Boolean =>
    case List(item) => KindedFrame(item, a, b, pos + 2);
    case Fixed(size, item) => KindedFrame(item, a, b, pos + 1);
    case Struct(fields) =>
      hide NumBuffers;
      forall c | 0 <= c < |fields| ensures Kinded(fields[c], b, FieldPos(fields, pos, c)) {
        FieldInside(fields, pos, c);
        KindedFrame(fields[c], a, b, FieldPos(fields, pos, c));
      }
  }

  /** Two buffer lists show the same column at a place. */
  ghost predicate Agree(t: Type, a: seq<Buffer>, b: seq<Buffer>, pos: nat) {
    && Shaped(t, a, pos) && Shaped(t, b, pos) && RowsAt(t, b, pos) == RowsAt(t, a, pos)
    && forall i :: 0 <= i < RowsAt(t, a, pos) ==> CellAt(t, b, pos, i) == CellAt(t, a, pos, i)
  }

  /** What a column means depends on its own buffers only. */
  lemma {:induction false} ColumnFrame(t: Type, a: seq<Buffer>, b: seq<Buffer>, pos: nat)
    requires Shaped(t, a, pos) && SameFrom(a, b, pos, NumBuffers(t))
    ensures Agree(t, a, b, pos)
    decreases t, 1
  {
    match t
    case Raw => KindedFrame(t, a, b, pos);
    case Prim => KindedFrame(t, a, b, pos);
    case Boolean => KindedFrame(t, a, b, pos);
    case List(item) => ListFrame(t, a, b, pos);
    case Fixed(size, item) => FixedFrame(t, a, b, pos);
    case Struct(fields) => StructFrame(t, a, b, pos);
  }

  lemma {:induction false} ListFrame(t: Type, a: seq<Buffer>, b: seq<Buffer>, pos: nat)
    requires t.List? && Shaped(t, a, pos) && SameFrom(a, b, pos, NumBuffers(t))
    ensures Agree(t, a, b, pos)
    decreases t, 0
  {
    KindedFrame(t, a, b, pos);
    ColumnFrame(t.item, a, b, pos + 2);
  }

  lemma {:induction false} FixedFrame(t: Type, a: seq<Buffer>, b: seq<Buffer>, pos: nat)
    requires t.Fixed? && Shaped(t, a, pos) && SameFrom(a, b, pos, NumBuffers(t))
    ensures Agree(t, a, b, pos)
    decreases t, 0
  {
    hide Times;
    KindedFrame(t, a, b, pos);
    ColumnFrame(t.item, a, b, pos + 1);
    forall i | 0 <= i < RowsAt(t, a, pos) ensures CellAt(t, b, pos, i) == CellAt(t, a, pos, i) {
      TimesBound(i, RowsAt(t, a, pos), t.size);
      assert Cells(t.item, b, pos + 1, Times(i, t.size), t.size) == Cells(t.item, a, pos + 1, Times(i, t.size), t.size);
    }
  }

  lemma {:induction false} StructFrame(t: Type, a: seq<Buffer>, b: seq<Buffer>, pos: nat)
    requires t.Struct? && Shaped(t, a, pos) && SameFrom(a, b, pos, NumBuffers(t))
    ensures Agree(t, a, b, pos)
    decreases t, 0
  {
    KindedFrame(t, a, b, pos);
    forall c | 0 <= c < |t.fields| ensures Agree(t.fields[c], a, b, FieldPos(t.fields, pos, c)) {
      FieldInside(t.fields, pos, c);
      ColumnFrame(t.fields[c], a, b, FieldPos(t.fields, pos, c));
    }
    StructAgrees(t, a, b, pos);
  }

  /** Structs agree when their masks and all their fields do. */
  lemma {:induction false} StructAgrees(t: Type, a: seq<Buffer>, b: seq<Buffer>, pos: nat)
    requires t.Struct? && Shaped(t, a, pos) && Kinded(t, b, pos) && a[pos] == b[pos]
    requires forall c :: 0 <= c < |t.fields| ==> Agree(t.fields[c], a, b, FieldPos(t.fields, pos, c))
    ensures Agree(t, a, b, pos)
  {
  }
}
