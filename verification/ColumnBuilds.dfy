/** Building a column: a new builder and whatever is written to it (crates/array/src/builder/any.rs, crates/array/src/slice). */
module ColumnBuilds {
  import opened ColumnBuffers
  import opened ColumnGrowth
  import opened ColumnMeaning
  import opened ColumnRouting
  import opened ColumnWriters
  import opened ColumnWrites
  import opened Columns
  import opened Options

  /** One write: rows selected from a view. */
  datatype Part = Part(slice: Slice, sel: Selection)

  ghost predicate PartsOf(parts: seq<Part>, t: Type) {
    forall k :: 0 <= k < |parts| ==> PartOf(parts[k], t)
  }

  ghost predicate PartOf(part: Part, t: Type) {
    Typed(part.slice, t) && Selects(part.sel, Len(part.slice))
  }

  /** The logical values a write selects. */
  ghost function PartValues(part: Part, t: Type): (r: seq<Value>)
    requires PartOf(part, t)
  {
    var rows := Selected(part.sel, Len(part.slice));
    SelectedBelow(part.sel, Len(part.slice));
    seq(|rows|, k requires 0 <= k < |rows| => ValueAt(part.slice, t, rows[k]))
  }

  ghost function Values(parts: seq<Part>, t: Type): seq<Value>
    requires PartsOf(parts, t)
  {
    if parts == [] then []
    else Values(parts[..|parts| - 1], t) + PartValues(parts[|parts| - 1], t)
  }

  lemma {:induction false} SelectedBelow(sel: Selection, len: nat)
    requires Selects(sel, len)
    ensures Below(Selected(sel, len), len)
  {
    hide SpanIndexes;
    if sel.Ranges? { SpanIndexesBelow(sel.ranges, len); }
  }

  /** The buffers are one column of the type that shows the values. */
  ghost predicate Shows(t: Type, buffers: seq<Buffer>, values: seq<Value>) {
    && Shaped(t, buffers, 0) && RowsAt(t, buffers, 0) == |values|
    && forall i :: 0 <= i < |values| ==> CellAt(t, buffers, 0, i) == values[i]
  }

  lemma {:induction false} ShowsMore(part: Part, t: Type, a: seq<Buffer>, b: seq<Buffer>, values: seq<Value>)
    requires PartOf(part, t) && Shows(t, a, values)
    requires var rows := Selected(part.sel, Len(part.slice)); Below(rows, Len(part.slice)) && Grew(part.slice, t, a, b, 0, rows)
    ensures Shows(t, b, values + PartValues(part, t))
  {
    hide Shaped, Typed, RowsAt, CellAt, ValueAt, Selects, Selected;
    var more, n := PartValues(part, t), |values|;
    forall i | 0 <= i < n + |more| ensures CellAt(t, b, 0, i) == (values + more)[i] {
      if i >= n {
        assert CellAt(t, b, 0, RowsAt(t, a, 0) + (i - n)) == ValueAt(part.slice, t, Selected(part.sel, Len(part.slice))[i - n]);
      }
    }
  }

  /** A column can be built if and only if its type is buildable; after any writes it shows exactly the selected values, in
      the order of the writes. */
  method Build(t: Type, parts: seq<Part>) returns (column: Option<seq<Buffer>>)
    requires PartsOf(parts, t)
    ensures column.Some? <==> Buildable(t)
    ensures column.Some? ==> Shows(t, column.value, Values(parts, t))
  {
    hide Typed, Shaped, Grew, CellAt, Buildable, Selectable, Shows, PartOf;
    NewServesItsType(t);
    var b := New(t);
    if b.None? {
      return None;
    }
    BuildableIsSelectable(t);
    var dst := new Destination(Buffers(b.value));
    NewShows(t, b.value);
    assert parts[..0] == [];
    for k := 0 to |parts|
      invariant Shows(t, dst.buffers, Values(parts[..k], t))
    {
      ghost var before := dst.buffers;
      ghost var values := Values(parts[..k], t);
      Opened(parts[k], t, before, values);
      var ok := WriteSelection(parts[k].slice, t, dst, 0, parts[k].sel);
      ShowsMore(parts[k], t, before, dst.buffers, values);
      assert parts[..k + 1][..k] == parts[..k];
    }
    assert parts[..|parts|] == parts;
    column := Some(dst.buffers);
  }

  lemma {:induction false} NewShows(t: Type, b: Builder)
    requires Serves(t, b)
    ensures Shows(t, Buffers(b), [])
  {
    assert Placed(Buffers(b), 0, Buffers(b));
  }

  lemma {:induction false} Opened(part: Part, t: Type, buffers: seq<Buffer>, values: seq<Value>)
    requires PartOf(part, t) && Shows(t, buffers, values)
    ensures Typed(part.slice, t) && Selects(part.sel, Len(part.slice)) && Shaped(t, buffers, 0)
  {
  }
}
