/** Columnar data: types, read-only views, flat destination buffers and what both of them mean
    (crates/array/src/slice, crates/array/src/util.rs). The layout is that of the Apache Arrow Columnar Format. */
module Columns {
  import opened Bits
  import opened NullMask
  import opened Options

  /** `Raw` is the bare content of a binary column; it occurs only inside lists. */
  datatype Type = Raw | Prim | Boolean | List(item: Type) | Fixed(size: nat, item: Type) | Struct(fields: seq<Type>)

  /** A logical value. */
  datatype Value = Null | Num(n: int) | Flag(flag: bool) | Items(items: seq<Value>) | Record(fields: seq<Value>)

  // ---- buffers per type ----

  function NumBuffers(t: Type): (r: nat)
    ensures r > 0
    decreases t, 0
  {
    match t
    case Raw => 1
    case Prim => 2
    case Boolean => 2
    case List(item) => 2 + NumBuffers(item)
    case Fixed(_, item) => 1 + NumBuffers(item)
    case Struct(fields) => 1 + ColumnPos(fields, |fields|)
  }

  /** How many buffers the first `k` fields take. */
  function ColumnPos(fields: seq<Type>, k: nat): nat
    requires k <= |fields|
    decreases fields, k
  {
    if k == 0 then 0 else ColumnPos(fields, k - 1) + NumBuffers(fields[k - 1])
  }

  /** Where the buffers of field `c` start in a struct at `pos`; the struct's null mask comes first. */
  function FieldPos(fields: seq<Type>, pos: nat, c: nat): (r: nat)
    requires c <= |fields|
    ensures r > pos
  {
    pos + 1 + ColumnPos(fields, c)
  }

  lemma {:induction false} FieldInside(fields: seq<Type>, pos: nat, c: nat)
    requires c < |fields|
    ensures FieldPos(fields, pos, c) + NumBuffers(fields[c]) <= pos + NumBuffers(Struct(fields))
  {
    ColumnPosAscends(fields, c, |fields|);
  }

  lemma {:induction false} ColumnPosAscends(fields: seq<Type>, j: nat, k: nat)
    requires j < k <= |fields|
    ensures ColumnPos(fields, j) + NumBuffers(fields[j]) <= ColumnPos(fields, k)
  {
    if j < k - 1 { ColumnPosAscends(fields, j, k - 1); }
  }

  // ---- views ----

  datatype Bitmask = Bitmask(data: seq<bv8>, offset: nat, len: nat) {
    predicate Ok() {
      offset + len <= 8 * |data|
    }

    function Bits(): seq<bool>
      requires Ok()
    {
      BitsOf(data, offset, len)
    }
  }

  /** Reading a single bit; `None` is the failed assertion of the original, which adds the offset before comparing. */
  function ReadBit(m: Bitmask, i: nat): Option<bool>
    requires m.Ok()
  {
    if m.offset + i < m.len then Some(BitAt(m.data, m.offset + i)) else None
  }

  /** Single reads serve a whole mask exactly when it starts at bit 0 (or is empty). */
  lemma {:induction false} ReadBitIffAtStart(m: Bitmask)
    requires m.Ok()
    ensures (forall i :: 0 <= i < m.len ==> ReadBit(m, i) == Some(m.Bits()[i])) <==> m.offset == 0 || m.len == 0
  {
    hide BitAt;
    if m.offset > 0 && m.len > 0 {
      assert ReadBit(m, m.len - 1) == None;
    }
  }

  lemma {:induction false} ReadBitRefusesInside()
    ensures var m := Bitmask([0xFF], 1, 2); m.Ok() && ReadBit(m, 1) == None && m.Bits()[1]
  {
  }

  /** A null mask; without bits nothing is null. */
  datatype Nulls = Nulls(mask: Option<Bitmask>, len: nat) {
    predicate Ok() {
      mask.Some? ==> mask.value.Ok() && mask.value.len == len
    }

    function Bits(): (r: seq<bool>)
      requires Ok()
      ensures |r| == len
    {
      if mask.Some? then mask.value.Bits() else Repeat(true, len)
    }
  }

  datatype Slice =
    | RawSlice(raw: seq<int>)
    | PrimSlice(nulls: Nulls, values: seq<int>)
    | BoolSlice(nulls: Nulls, flags: Bitmask)
    | ListSlice(nulls: Nulls, offsets: seq<nat>, items: Slice)
    | FixedSlice(nulls: Nulls, size: nat, items: Slice)
    | StructSlice(nulls: Nulls, columns: seq<Slice>, offset: nat, len: nat)

  ghost predicate Ascending(offsets: seq<nat>) {
    forall i, j :: 0 <= i <= j < |offsets| ==> offsets[i] <= offsets[j]
  }

  function Len(s: Slice): nat {
    match s
    case RawSlice(raw) => |raw|
    case PrimSlice(_, values) => |values|
    case BoolSlice(_, flags) => flags.len
    case ListSlice(nulls, _, _) => nulls.len
    case FixedSlice(nulls, _, _) => nulls.len
    case StructSlice(_, _, _, len) => len
  }

  /** A view of type `t` whose parts fit together. */
  ghost predicate Typed(s: Slice, t: Type)
    decreases s
  {
    match s
    case RawSlice(_) => t.Raw?
    case PrimSlice(nulls, values) => t.Prim? && nulls.Ok() && nulls.len == |values|
    case BoolSlice(nulls, flags) => t.Boolean? && nulls.Ok() && flags.Ok() && nulls.len == flags.len
    case ListSlice(nulls, offsets, items) =>
      && t.List? && nulls.Ok() && |offsets| == nulls.len + 1 && Ascending(offsets)
      && Typed(items, t.item) && offsets[|offsets| - 1] <= Len(items)
    case FixedSlice(nulls, size, items) =>
      t.Fixed? && nulls.Ok() && t.size == size && Typed(items, t.item) && Len(items) == Times(nulls.len, size)
    case StructSlice(nulls, columns, offset, len) =>
      && t.Struct? && nulls.Ok() && offset + len <= nulls.len && |columns| == |t.fields|
      && forall c :: 0 <= c < |columns| ==> Typed(columns[c], t.fields[c]) && Len(columns[c]) == nulls.len
  }

  /** The logical values in rows `from..from + n`. */
  ghost function Window(s: Slice, t: Type, from: nat, n: nat): (r: seq<Value>)
    requires Typed(s, t) && from + n <= Len(s)
    ensures |r| == n
    decreases s, 1
  {
    seq(n, k requires 0 <= k < n => ValueAt(s, t, from + k))
  }

  /** The logical value in row `i`. */
  ghost function ValueAt(s: Slice, t: Type, i: nat): Value
    requires Typed(s, t) && i < Len(s)
    decreases s, 0
  {
    match s
    case RawSlice(raw) => Num(raw[i])
    case PrimSlice(nulls, values) => if nulls.Bits()[i] then Num(values[i]) else Null
    case BoolSlice(nulls, flags) => if nulls.Bits()[i] then Flag(flags.Bits()[i]) else Null
    case ListSlice(nulls, offsets, items) =>
      assert offsets[i] <= offsets[i + 1] <= offsets[|offsets| - 1];
      if nulls.Bits()[i] then Items(Window(items, t.item, offsets[i], offsets[i + 1] - offsets[i])) else Null
    case FixedSlice(nulls, size, items) =>
      TimesBound(i, nulls.len, size);
      if nulls.Bits()[i] then Items(Window(items, t.item, Times(i, size), size)) else Null
    case StructSlice(nulls, columns, offset, len) =>
      if !nulls.Bits()[offset + i] then Null
      else Record(seq(|columns|, c requires 0 <= c < |columns| => ValueAt(columns[c], t.fields[c], offset + i)))
  }

  /** Whether row `i` is marked as present. */
  ghost predicate Present(s: Slice, t: Type, i: nat)
    requires Typed(s, t) && i < Len(s)
  {
    match s
    case RawSlice(_) => true
    case PrimSlice(nulls, _) => nulls.Bits()[i]
    case BoolSlice(nulls, _) => nulls.Bits()[i]
    case ListSlice(nulls, _, _) => nulls.Bits()[i]
    case FixedSlice(nulls, _, _) => nulls.Bits()[i]
    case StructSlice(nulls, _, offset, _) => nulls.Bits()[offset + i]
  }

  /** Exactly the rows that are not marked as present are null. */
  lemma {:induction false} NullIffAbsent(s: Slice, t: Type, i: nat)
    requires Typed(s, t) && i < Len(s)
    ensures ValueAt(s, t, i) == Null <==> !Present(s, t, i)
  {
    hide BitAt, Times;
  }

  /** Three rows of lists, the second one null and the third with a null number in it. */
  lemma {:induction false} ListsAreShown()
    ensures var numbers := PrimSlice(Nulls(Some(Bitmask([0x0B], 0, 4)), 4), [7, 8, 9, 10]);
            var s := ListSlice(Nulls(Some(Bitmask([0x05], 0, 3)), 3), [0, 2, 2, 3], numbers);
            && Typed(s, List(Prim))
            && Window(s, List(Prim), 0, 3) == [Items([Num(7), Num(8)]), Null, Items([Null])]
  {
    var numbers := PrimSlice(Nulls(Some(Bitmask([0x0B], 0, 4)), 4), [7, 8, 9, 10]);
    var s := ListSlice(Nulls(Some(Bitmask([0x05], 0, 3)), 3), [0, 2, 2, 3], numbers);
    assert Typed(numbers, Prim);
    assert Typed(s, List(Prim));
    assert BitAt([0x0B], 0) && BitAt([0x0B], 1) && !BitAt([0x0B], 2);
    assert BitAt([0x05], 0) && !BitAt([0x05], 1) && BitAt([0x05], 2);
    assert Window(numbers, Prim, 0, 2) == [Num(7), Num(8)] && Window(numbers, Prim, 2, 1) == [Null];
  }

  // ---- sub-views ----

  function SubMask(m: Bitmask, offset: nat, n: nat): Bitmask {
    Bitmask(m.data, m.offset + offset, n)
  }

  function SubNulls(m: Nulls, offset: nat, n: nat): Nulls {
    Nulls(if m.mask.Some? then Some(SubMask(m.mask.value, offset, n)) else None, n)
  }

  /** The types whose views can be cut: every one but a fixed-size list of anything other than raw bytes. */
  predicate Sliceable(t: Type) {
    t.Fixed? ==> t.item.Raw?
  }

  /** Rows `offset..offset + n` as a view; a struct only remembers the window. `None`: the list item of a fixed-size list
      does not support slicing and the operation aborts. */
  function Sub(s: Slice, ghost t: Type, offset: nat, n: nat): Option<Slice>
    requires Typed(s, t) && offset + n <= Len(s)
  {
    match s
    case RawSlice(raw) => Some(RawSlice(raw[offset..offset + n]))
    case PrimSlice(nulls, values) => Some(PrimSlice(SubNulls(nulls, offset, n), values[offset..offset + n]))
    case BoolSlice(nulls, flags) => Some(BoolSlice(SubNulls(nulls, offset, n), SubMask(flags, offset, n)))
    case ListSlice(nulls, offsets, items) =>
      Some(ListSlice(SubNulls(nulls, offset, n), offsets[offset..offset + n + 1], items))
    case FixedSlice(nulls, size, items) =>
      TimesFits(offset, n, nulls.len, size);
      if !items.RawSlice? then None
      else
        Some(FixedSlice(SubNulls(nulls, offset, n), size,
                        RawSlice(items.raw[Times(offset, size)..Times(offset, size) + Times(n, size)])))
    case StructSlice(nulls, columns, o, _) => Some(StructSlice(nulls, columns, o + offset, n))
  }

  lemma {:induction false} SubNullBits(m: Nulls, offset: nat, n: nat)
    requires m.Ok() && offset + n <= m.len
    ensures SubNulls(m, offset, n).Ok()
    ensures SubNulls(m, offset, n).Bits() == m.Bits()[offset..offset + n]
  {
  }

  /** A sub-view exists if and only if the type can be cut, and then shows exactly the rows it was cut from. */
  lemma {:induction false} SubShows(s: Slice, t: Type, offset: nat, n: nat)
    requires Typed(s, t) && offset + n <= Len(s)
    ensures Sub(s, t, offset, n).Some? <==> Sliceable(t)
    ensures var sub := Sub(s, t, offset, n);
            sub.Some? ==>
              && Typed(sub.value, t) && Len(sub.value) == n
              && forall i :: 0 <= i < n ==> ValueAt(sub.value, t, i) == ValueAt(s, t, offset + i)
  {
    hide BitAt, Times;
    match s
    case RawSlice(raw) =>
    case PrimSlice(nulls, values) => SubNullBits(nulls, offset, n);
    case BoolSlice(nulls, flags) => SubNullBits(nulls, offset, n);
    case ListSlice(nulls, offsets, items) => SubShowsList(s, t, offset, n);
    case FixedSlice(nulls, size, items) => if items.RawSlice? { SubShowsFixed(s, t, offset, n); }
    case StructSlice(nulls, columns, o, len) => SubShowsStruct(s, t, offset, n);
  }

  lemma {:induction false} SubShowsList(s: Slice, t: Type, offset: nat, n: nat)
    requires Typed(s, t) && offset + n <= Len(s) && s.ListSlice?
    ensures var sub := Sub(s, t, offset, n);
            && Typed(sub.value, t) && Len(sub.value) == n
            && forall i :: 0 <= i < n ==> ValueAt(sub.value, t, i) == ValueAt(s, t, offset + i)
  {
  }

  lemma {:induction false} SubShowsStruct(s: Slice, t: Type, offset: nat, n: nat)
    requires Typed(s, t) && offset + n <= Len(s) && s.StructSlice?
    ensures var sub := Sub(s, t, offset, n);
            && Typed(sub.value, t) && Len(sub.value) == n
            && forall i :: 0 <= i < n ==> ValueAt(sub.value, t, i) == ValueAt(s, t, offset + i)
  {
  }

  lemma {:induction false} SubShowsFixed(s: Slice, t: Type, offset: nat, n: nat)
    requires Typed(s, t) && offset + n <= Len(s) && s.FixedSlice? && s.items.RawSlice?
    ensures var sub := Sub(s, t, offset, n);
            && Typed(sub.value, t) && Len(sub.value) == n
            && forall i :: 0 <= i < n ==> ValueAt(sub.value, t, i) == ValueAt(s, t, offset + i)
  {
    hide BitAt, Times;
    var size, items, sub := s.size, s.items, Sub(s, t, offset, n).value;
    SubNullBits(s.nulls, offset, n);
    TimesFits(offset, n, s.nulls.len, size);
    forall i | 0 <= i < n ensures ValueAt(sub, t, i) == ValueAt(s, t, offset + i) {
      TimesBound(i, n, size);
      TimesBound(offset + i, s.nulls.len, size);
      TimesAdd(offset, i, size);
      RawWindow(items.raw, Times(offset, size), Times(n, size), Times(i, size), size);
    }
  }

  lemma {:induction false} RawWindow(raw: seq<int>, from: nat, n: nat, i: nat, m: nat)
    requires from + n <= |raw| && i + m <= n
    ensures Window(RawSlice(raw[from..from + n]), Raw, i, m) == Window(RawSlice(raw), Raw, from + i, m)
  {
    var cut, whole := RawSlice(raw[from..from + n]), RawSlice(raw);
    forall k | 0 <= k < m ensures Window(cut, Raw, i, m)[k] == Window(whole, Raw, from + i, m)[k] {
      assert ValueAt(cut, Raw, i + k) == Num(raw[from + i + k]);
      assert ValueAt(whole, Raw, from + i + k) == Num(raw[from + i + k]);
    }
  }

  /** The types whose rows can be written as a range list or an index list: no struct in them has a field whose views
      cannot be cut. */
  predicate Selectable(t: Type)
    decreases t
  {
    match t
    case List(item) => Selectable(item)
    case Fixed(_, item) => Selectable(item)
    case Struct(fields) => FieldsSelectable(fields, |fields|)
    case _ => true
  }

  predicate FieldsSelectable(fields: seq<Type>, n: nat)
    requires n <= |fields|
    decreases fields
  {
    forall c :: 0 <= c < n ==> Sliceable(fields[c]) && Selectable(fields[c])
  }

  lemma {:induction false} StructSelectable(t: Type)
    requires t.Struct?
    ensures FieldsSelectable(t.fields, 0)
    ensures Selectable(t) <==> FieldsSelectable(t.fields, |t.fields|)
  {
  }

  lemma {:induction false} FieldSelectable(fields: seq<Type>, c: nat)
    requires c < |fields|
    ensures FieldsSelectable(fields, c + 1) <==> FieldsSelectable(fields, c) && Sliceable(fields[c]) && Selectable(fields[c])
    ensures FieldsSelectable(fields, |fields|) ==> FieldsSelectable(fields, c + 1)
  {
    hide Selectable, Sliceable;
  }

  /** A struct of one column, a fixed-size list of two numbers: its rows can be viewed and its whole written, but its
      column cannot be cut, so a range list or an index list of its rows cannot be written. */
  lemma {:induction false} FixedListsCannotBeSelected()
    ensures var t, column := Struct([Fixed(2, Prim)]), FixedSlice(Nulls(None, 1), 2, PrimSlice(Nulls(None, 2), [7, 8]));
            var s := StructSlice(Nulls(None, 1), [column], 0, 1);
            && Typed(s, t) && Typed(column, t.fields[0]) && Len(column) == 1
            && ValueAt(s, t, 0) == Record([Items([Num(7), Num(8)])])
            && Sub(column, t.fields[0], 0, 1).None? && !Selectable(t)
  {
    var t, prims := Struct([Fixed(2, Prim)]), PrimSlice(Nulls(None, 2), [7, 8]);
    var column := FixedSlice(Nulls(None, 1), 2, prims);
    var s := StructSlice(Nulls(None, 1), [column], 0, 1);
    assert Typed(prims, Prim) && Times(1, 2) == 2;
    assert Typed(column, t.fields[0]);
    assert Window(prims, Prim, 0, 2) == [Num(7), Num(8)];
    assert ValueAt(column, t.fields[0], 0) == Items([Num(7), Num(8)]);
    assert ValueAt(s, t, 0).fields == [Items([Num(7), Num(8)])];
    assert !Sliceable(t.fields[0]);
  }

  // ---- multiples of a fixed size ----

  function Times(i: nat, size: nat): nat {
    i * size
  }

  lemma {:induction false} TimesAdd(a: nat, b: nat, size: nat)
    ensures Times(a + b, size) == Times(a, size) + Times(b, size)
  {
  }

  lemma {:induction false} TimesOne(size: nat)
    ensures Times(1, size) == size && Times(0, size) == 0
  {
  }

  lemma {:induction false} TimesBound(i: nat, n: nat, size: nat)
    requires i < n
    ensures Times(i, size) + size <= Times(n, size)
  {
    hide Times;
    TimesAdd(i, 1, size);
    TimesOne(size);
    TimesAdd(i + 1, n - i - 1, size);
  }

  lemma {:induction false} TimesFits(offset: nat, n: nat, len: nat, size: nat)
    requires offset + n <= len
    ensures Times(offset, size) + Times(n, size) <= Times(len, size)
  {
  }
}
