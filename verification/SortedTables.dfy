/** Reading a sorted table column by column and window by window
    (crates/data-core/src/table_sort.rs, crates/data-core/src/table_processor.rs). */
module SortedTables {
  import opened ArrayOffsets
  import opened ChunkRanges
  import Bits
  import Columns
  import NullMask
  import opened Options
  import opened Picking
  import opened SortIndexes
  import opened SortOrder
  import opened TableSort

  /** The first place a column has in a key. */
  method Position(key: seq<nat>, c: nat) returns (r: Option<nat>)
    ensures r.Some? <==> c in key
    ensures r.Some? ==> r.value < |key| && key[r.value] == c
  {
    for p := 0 to |key|
      invariant c !in key[..p]
    {
      if key[p] == c { return Some(p); }
    }
    return None;
  }

  // ---- the key columns in memory ----

  function ValidOps(column: seq<Cell>): (r: seq<NullMask.Op>)
    ensures |r| == |column| && forall i :: 0 <= i < |r| ==> r[i] == NullMask.One(column[i].Some?)
  {
    seq(|column|, i requires 0 <= i < |column| => NullMask.One(column[i].Some?))
  }

  lemma {:induction false} ValidOpsDenote(column: seq<Cell>)
    ensures |NullMask.Denoted(ValidOps(column))| == |column|
    ensures forall i :: 0 <= i < |column| ==> NullMask.Denoted(ValidOps(column))[i] == column[i].Some?
  {
    if column != [] {
      var n := |column| - 1;
      ValidOpsDenote(column[..n]);
      assert ValidOps(column)[..n] == ValidOps(column[..n]);
    }
  }

  /** A builder shows its column as a whole, with a mask if a null was pushed: every bit string starts at bit 0. */
  method BuilderView(column: seq<Cell>) returns (v: View)
    ensures v.Ok() && v.Len() == |column| && v.AtStart() && v.Cells() == column
  {
    hide Bits.BitAt;
    ValidOpsDenote(column);
    var mask, len := NullMask.Finished(ValidOps(column));
    var values := seq(|column|, i requires 0 <= i < |column| => if column[i].Some? then column[i].value else Num(0));
    v := View(Plain(values), if mask.Some? then Some(Columns.Bitmask(mask.value, 0, len)) else None);
    ghost var bits := NullMask.Denoted(ValidOps(column));
    forall i | 0 <= i < |column| ensures v.CellAt(i) == column[i] {
      assert mask.None? ==> bits[i];
    }
  }

  method BuilderViews(table: seq<seq<Cell>>, ghost n: nat) returns (views: seq<View>)
    requires Tall(table, n)
    ensures |views| == |table| && ViewsOk(views, n) && Shown(views, n) == table && Sortable(views, n)
  {
    hide View.Ok, View.Len, View.CellAt, View.Cells, View.AtStart, Sortable;
    views := [];
    for k := 0 to |table|
      invariant |views| == k
      invariant forall i :: 0 <= i < k ==>
                  views[i].Ok() && views[i].Len() == n && views[i].AtStart() && views[i].Cells() == table[i]
    {
      var v := BuilderView(table[k]);
      assert table[k] in table;
      views := views + [v];
    }
    AtStartIsSortable(views, n);
  }

  class SortedTable {
    const width: nat
    const dataKey: seq<nat>
    const dataTable: seq<seq<Cell>>
    const sortKey: seq<nat>
    const sortTable: seq<seq<Cell>>
    const batchOffsets: seq<nat>
    const len: nat
    var order: Option<seq<nat>>
    var tracker: ChunkTracker?
    ghost const rows: seq<Row>

    ghost predicate Valid()
      reads this, tracker
    {
      && Stores(width, rows, dataKey, dataTable, sortKey, sortTable, batchOffsets)
      && len == |rows|
      && (order.Some? ==> tracker != null && tracker.Valid() && Ready(order.value, tracker.chunks))
    }

    /** The merge order has been worked out. */
    ghost predicate Ready(merged: seq<nat>, chunks: seq<Range>)
    {
      && Tall(sortTable, len) && Arranges(merged, sortTable, len)
      && Rows(chunks) == merged && Compressed(batchOffsets, true, chunks)
    }

    constructor (sorter: TableSorter)
      requires sorter.Valid()
      ensures Valid() && order.None? && tracker == null && rows == sorter.rows && width == sorter.width && sortKey == sorter.sortKey
    {
      width, dataKey, dataTable := sorter.width, sorter.dataKey, sorter.dataTable;
      sortKey, sortTable, batchOffsets := sorter.sortKey, sorter.sortTable, sorter.batchOffsets;
      len := |sorter.sortTable[0]|;
      order, tracker := None, null;
      rows := sorter.rows;
    }

    /** The sorted rows, once the order is known. */
    ghost function Result(): seq<Row>
      requires Valid() && order.Some?
      reads this, tracker
    {
      Pick(rows, order.value)
    }

    lemma {:induction false} ResultIsSorted()
      requires Valid() && order.Some?
      ensures Rect(rows, width) && KeyFits(sortKey, width) && SortOf(Result(), rows, width, sortKey)
    {
      hide Sorted, SortOf;
      ArrangedRows(rows, width, sortKey, order.value);
    }

    method PrepareOrder()
      requires Valid() && order.None?
      modifies this`order, this`tracker
      ensures Valid() && order.Some? && fresh(tracker)
    {
      hide Sorted, Rows, Compressed, Sortable;
      var views := BuilderViews(sortTable, len);
      var merged := SortTableToIndexes(views, len);
      tracker := new ChunkTracker(batchOffsets, merged.value);
      order := merged;
    }

    /** Appends a window of one column of the sorted table. */
    method ReadColumn(dst: seq<Cell>, i: nat, offset: nat, n: nat) returns (out: seq<Cell>)
      requires Valid() && i < width && offset + n <= len
      modifies this, tracker
      ensures Valid() && (tracker == old(tracker) || fresh(tracker))
      ensures old(order).Some? ==> order == old(order)
      ensures n > 0 ==> order.Some?
      ensures n == 0 ==> out == dst && order == old(order)
      ensures n > 0 ==> Rect(Result(), width) && |Result()| == len
                        && out == dst + ColumnOf(Result(), width, i)[offset..offset + n]
    {
      if n == 0 {
        return dst;
      }
      if order.None? {
        PrepareOrder();
      }
      var pos := Position(sortKey, i);
      if pos.Some? {
        out := dst + ReadKey(pos.value, offset, n);
      } else {
        var pos := Position(dataKey, i);
        out := ReadData(dst, pos.value, offset, n);
      }
    }

    /** A window of a key column, gathered from memory. */
    function ReadKey(pos: nat, offset: nat, n: nat): (r: seq<Cell>)
      requires Valid() && order.Some? && pos < |sortKey| && offset + n <= len
      reads this, tracker
      ensures Rect(Result(), width) && |Result()| == len
      ensures r == ColumnOf(Result(), width, sortKey[pos])[offset..offset + n]
    {
      hide Sorted, Rows;
      WindowOfColumn(rows, width, sortKey[pos], order.value, offset, n);
      Pick(sortTable[pos], order.value[offset..offset + n])
    }

    /** A window of another column, read from its file range by range. */
    method ReadData(dst: seq<Cell>, pos: nat, offset: nat, n: nat) returns (out: seq<Cell>)
      requires Valid() && order.Some? && pos < |dataKey| && offset + n <= len && n > 0
      modifies tracker
      ensures Valid()
      ensures Rect(Result(), width) && |Result()| == len
      ensures out == dst + ColumnOf(Result(), width, dataKey[pos])[offset..offset + n]
    {
      hide Sorted, Rows, Compressed, Within, PartOf, Found.Ranges, Strict;
      var found := tracker.Find(offset, n);
      forall p | p in found.Ranges() ensures Within(batchOffsets, true, p) {
        PartsAreWithin(batchOffsets, tracker.chunks, p);
      }
      out := ReadFound(dataTable[pos], batchOffsets, found, dst);
      WindowOfColumn(rows, width, dataKey[pos], order.value, offset, n);
    }
  }

  /** The window of a column through an order is the window of the ordered rows' column. */
  lemma {:induction false} WindowOfColumn(rows: seq<Row>, width: nat, c: nat, order: seq<nat>, offset: nat, n: nat)
    requires Rect(rows, width) && c < width && offset + n <= |order|
    requires forall i :: 0 <= i < |order| ==> order[i] < |rows|
    ensures Rect(Pick(rows, order), width)
    ensures Pick(ColumnOf(rows, width, c), order[offset..offset + n])
         == ColumnOf(Pick(rows, order), width, c)[offset..offset + n]
  {
    GatherColumn(rows, width, c, order);
    PickWindow(ColumnOf(rows, width, c), order, offset, n);
  }

  /** Reads the first, the whole and the last chunks of a search one after the other. */
  method ReadFound(column: seq<Cell>, batchOffsets: seq<nat>, found: Found, dst: seq<Cell>) returns (out: seq<Cell>)
    requires batchOffsets != [] && Strict(batchOffsets) && batchOffsets[|batchOffsets| - 1] == |column|
    requires forall p :: p in found.Ranges() ==> Within(batchOffsets, true, p)
    ensures forall i :: 0 <= i < |Rows(found.Ranges())| ==> Rows(found.Ranges())[i] < |column|
    ensures out == dst + Pick(column, Rows(found.Ranges()))
  {
    hide Rows, Within;
    var a, b, c := Listed(found.first), found.middle, Listed(found.last);
    assert found.Ranges() == a + b + c;
    out := ReadChunkedRanges(column, batchOffsets, a, dst);
    out := ReadChunkedRanges(column, batchOffsets, b, out);
    out := ReadChunkedRanges(column, batchOffsets, c, out);
    RowsJoin(a, b);
    RowsJoin(a + b, c);
    PickJoin(column, Rows(a), Rows(b));
    PickJoin(column, Rows(a) + Rows(b), Rows(c));
  }
}
