/** The external table sorter (crates/data-core/src/table_sort.rs) and its in-memory counterpart. */
module TableSort {
  import opened ArrayOffsets
  import opened ChunkRanges
  import opened Options
  import opened Picking
  import opened SortIndexes
  import opened SortOrder

  type Row = seq<Cell>

  ghost predicate Rect(rows: seq<Row>, width: nat) {
    forall i :: 0 <= i < |rows| ==> |rows[i]| == width
  }

  function ColumnOf(rows: seq<Row>, width: nat, c: nat): (r: seq<Cell>)
    requires Rect(rows, width) && c < width
    ensures |r| == |rows| && forall i :: 0 <= i < |rows| ==> r[i] == rows[i][c]
  {
    seq(|rows|, i requires 0 <= i < |rows| => rows[i][c])
  }

  predicate KeyFits(key: seq<nat>, width: nat) {
    forall k :: 0 <= k < |key| ==> key[k] < width
  }

  function ColumnsOf(rows: seq<Row>, width: nat, key: seq<nat>): (r: seq<seq<Cell>>)
    requires Rect(rows, width) && KeyFits(key, width)
    ensures |r| == |key| && forall k :: 0 <= k < |key| ==> r[k] == ColumnOf(rows, width, key[k])
    ensures Tall(r, |rows|)
  {
    seq(|key|, k requires 0 <= k < |key| => ColumnOf(rows, width, key[k]))
  }

  function RowKey(row: Row, key: seq<nat>): Key
    requires KeyFits(key, |row|)
  {
    Pick(row, key)
  }

  function RowKeys(rows: seq<Row>, width: nat, key: seq<nat>): (r: seq<Key>)
    requires Rect(rows, width) && KeyFits(key, width)
    ensures |r| == |rows| && Uniform(r, |key|) && forall i :: 0 <= i < |rows| ==> r[i] == RowKey(rows[i], key)
  {
    seq(|rows|, i requires 0 <= i < |rows| => RowKey(rows[i], key))
  }

  /** `sorted` holds the rows of `rows`, each as often, in key order. */
  ghost predicate SortOf(sorted: seq<Row>, rows: seq<Row>, width: nat, key: seq<nat>)
    requires Rect(rows, width) && KeyFits(key, width)
  {
    && Rect(sorted, width)
    && multiset(sorted) == multiset(rows)
    && Sorted(RowKeys(sorted, width, key), |key|)
  }

  lemma {:induction false} ArrangedRows(rows: seq<Row>, width: nat, key: seq<nat>, order: seq<nat>)
    requires Rect(rows, width) && KeyFits(key, width)
    requires Arranges(order, ColumnsOf(rows, width, key), |rows|)
    ensures |order| == |rows| && forall i :: 0 <= i < |order| ==> order[i] < |rows|
    ensures Rect(Pick(rows, order), width) && SortOf(Pick(rows, order), rows, width, key)
  {
    hide KeyLe;
    PermutedRows(rows, order);
    var cols := ColumnsOf(rows, width, key);
    forall i | 0 <= i < |rows| ensures KeyAt(cols, |rows|, i) == RowKey(rows[i], key) {}
    assert Pick(KeysOf(ColumnsOf(rows, width, key), |rows|), order) == RowKeys(Pick(rows, order), width, key);
  }

  /** Gathering a column by an order is the column of the gathered rows. */
  lemma {:induction false} GatherColumn(rows: seq<Row>, width: nat, c: nat, order: seq<nat>)
    requires Rect(rows, width) && c < width && forall i :: 0 <= i < |order| ==> order[i] < |rows|
    ensures Rect(Pick(rows, order), width)
    ensures Pick(ColumnOf(rows, width, c), order) == ColumnOf(Pick(rows, order), width, c)
  {
  }

  lemma {:induction false} AppendColumn(a: seq<Row>, b: seq<Row>, width: nat, c: nat)
    requires Rect(a, width) && Rect(b, width) && c < width
    ensures Rect(a + b, width) && ColumnOf(a + b, width, c) == ColumnOf(a, width, c) + ColumnOf(b, width, c)
  {
  }

  // ---- batches ----

  /** A window of a table. */
  datatype TableSlice = TableSlice(columns: seq<View>, offset: nat, len: nat) {
    predicate Ok(width: nat) {
      |columns| == width && forall c :: 0 <= c < width ==> columns[c].Ok() && offset + len <= columns[c].Len()
    }

    function Column(c: nat): View
      requires c < |columns| && offset + len <= columns[c].Len()
    {
      columns[c].Sub(offset, len)
    }

    /** The rows in the window. */
    ghost function Content(width: nat): (r: seq<Row>)
      requires Ok(width)
      ensures |r| == len && Rect(r, width)
    {
      seq(len, i requires 0 <= i < len => seq(width, c requires 0 <= c < width => columns[c].CellAt(offset + i)))
    }
  }

  lemma {:induction false} ColumnCells(batch: TableSlice, width: nat, c: nat)
    requires batch.Ok(width) && c < width
    ensures batch.Column(c).Ok() && batch.Column(c).Len() == batch.len
    ensures batch.Column(c).Cells() == ColumnOf(batch.Content(width), width, c)
  {
    hide View.Ok, View.Len, View.CellAt, View.Sub;
    SubCells(batch.columns[c], batch.offset, batch.len);
  }

  /** The views of the key columns. */
  function KeyViews(batch: TableSlice, width: nat, key: seq<nat>): (r: seq<View>)
    requires batch.Ok(width) && KeyFits(key, width)
    ensures |r| == |key| && forall k :: 0 <= k < |key| ==> r[k] == batch.Column(key[k])
  {
    seq(|key|, k requires 0 <= k < |key| => batch.Column(key[k]))
  }

  lemma {:induction false} KeyViewsShow(batch: TableSlice, width: nat, key: seq<nat>)
    requires batch.Ok(width) && KeyFits(key, width)
    ensures ViewsOk(KeyViews(batch, width, key), batch.len)
    ensures Shown(KeyViews(batch, width, key), batch.len) == ColumnsOf(batch.Content(width), width, key)
  {
    hide View.Ok, View.Len, View.CellAt, View.Sub;
    forall k | 0 <= k < |key|
      ensures var v := KeyViews(batch, width, key)[k];
              v.Ok() && v.Len() == batch.len && v.Cells() == ColumnOf(batch.Content(width), width, key[k])
    {
      ColumnCells(batch, width, key[k]);
    }
  }

  /** The batch can be sorted by the key. */
  ghost predicate CanSort(batch: TableSlice, width: nat, key: seq<nat>)
    requires batch.Ok(width) && KeyFits(key, width)
  {
    KeyViewsShow(batch, width, key);
    Sortable(KeyViews(batch, width, key), batch.len)
  }

  /** A window that starts at row 0 of columns whose bits start at bit 0 can be sorted. */
  lemma {:induction false} WholeCanBeSorted(batch: TableSlice, width: nat, key: seq<nat>)
    requires batch.Ok(width) && KeyFits(key, width)
    requires batch.offset == 0 && forall k :: 0 <= k < |key| ==> batch.columns[key[k]].AtStart()
    ensures CanSort(batch, width, key)
  {
    KeyViewsShow(batch, width, key);
    AtStartIsSortable(KeyViews(batch, width, key), batch.len);
  }

  /** A window of two or more rows that starts further inside cannot be sorted by a column with a null mask. */
  lemma {:induction false} WindowCannotBeSorted(batch: TableSlice, width: nat, key: seq<nat>)
    requires batch.Ok(width) && KeyFits(key, width) && key != []
    requires batch.offset > 0 && batch.len >= 2 && batch.columns[key[0]].mask.Some?
    ensures !CanSort(batch, width, key)
  {
    KeyViewsShow(batch, width, key);
    InsideIsNotSortable(KeyViews(batch, width, key), batch.len);
  }

  /** Fewer than two rows need no comparison. */
  lemma {:induction false} FewRowsCanBeSorted(batch: TableSlice, width: nat, key: seq<nat>)
    requires batch.Ok(width) && KeyFits(key, width) && batch.len < 2
    ensures CanSort(batch, width, key)
  {
    KeyViewsShow(batch, width, key);
  }

  // ---- what a sorter holds ----

  /** The columns that are not part of the sort key. */
  function DataKey(width: nat, sortKey: seq<nat>): (r: seq<nat>)
    ensures KeyFits(r, width)
    ensures forall c :: c in r <==> 0 <= c < width && c !in sortKey
  {
    if width == 0 then []
    else DataKey(width - 1, sortKey) + if width - 1 in sortKey then [] else [width - 1]
  }

  /** The stored columns are those of `rows`, cut into batches at `batchOffsets`. */
  ghost predicate Stores(width: nat, rows: seq<Row>, dataKey: seq<nat>, dataTable: seq<seq<Cell>>,
                         sortKey: seq<nat>, sortTable: seq<seq<Cell>>, batchOffsets: seq<nat>) {
    && Rect(rows, width)
    && sortKey != [] && KeyFits(sortKey, width) && dataKey == DataKey(width, sortKey)
    && sortTable == ColumnsOf(rows, width, sortKey)
    && dataTable == ColumnsOf(rows, width, dataKey)
    && batchOffsets != [] && batchOffsets[0] == 0 && Strict(batchOffsets)
    && batchOffsets[|batchOffsets| - 1] == |rows|
  }

  lemma {:induction false} StoresMore(width: nat, rows: seq<Row>, dataKey: seq<nat>, dataTable: seq<seq<Cell>>,
                                      sortKey: seq<nat>, sortTable: seq<seq<Cell>>, batchOffsets: seq<nat>, more: seq<Row>)
    requires Stores(width, rows, dataKey, dataTable, sortKey, sortTable, batchOffsets)
    requires Rect(more, width) && more != []
    ensures Rect(rows + more, width)
    ensures Stores(width, rows + more, dataKey, ColumnsOf(rows + more, width, dataKey),
                   sortKey, ColumnsOf(rows + more, width, sortKey), batchOffsets + [|rows| + |more|])
  {
    hide ColumnsOf, DataKey;
    assert Rect(rows + more, width);
    var offsets := batchOffsets + [|rows| + |more|];
    forall i, k | 0 <= i < k < |offsets| ensures offsets[i] < offsets[k] {
      assert i < |batchOffsets| - 1 ==> batchOffsets[i] < batchOffsets[|batchOffsets| - 1];
    }
  }

  /** `more` are the rows of `batch` in the given order. */
  ghost predicate Gathers(order: seq<nat>, batch: seq<Row>, more: seq<Row>) {
    (forall i :: 0 <= i < |order| ==> order[i] < |batch|) && more == Pick(batch, order)
  }

  /** Appends the chosen rows of a batch to every column of a table. */
  method WriteColumns(table: seq<seq<Cell>>, key: seq<nat>, ghost rows: seq<Row>, width: nat,
                      batch: TableSlice, order: seq<nat>, ghost more: seq<Row>) returns (r: seq<seq<Cell>>)
    requires Rect(rows, width) && batch.Ok(width) && KeyFits(key, width) && table == ColumnsOf(rows, width, key)
    requires Gathers(order, batch.Content(width), more)
    ensures Rect(rows + more, width)
    ensures r == ColumnsOf(rows + more, width, key)
  {
    hide View.Ok, View.Len, View.CellAt, View.Sub;
    ghost var all := rows + more;
    assert Rect(all, width);
    r := table;
    for p := 0 to |key|
      invariant |r| == |key|
      invariant forall k :: 0 <= k < p ==> r[k] == ColumnOf(all, width, key[k])
      invariant forall k :: p <= k < |key| ==> r[k] == table[k]
    {
      GatherColumn(batch.Content(width), width, key[p], order);
      ColumnCells(batch, width, key[p]);
      AppendColumn(rows, more, width, key[p]);
      r := r[p := r[p] + Pick(batch.Column(key[p]).Cells(), order)];
    }
  }

  class TableSorter {
    const width: nat
    var dataTable: seq<seq<Cell>>
    var dataKey: seq<nat>
    var sortTable: seq<seq<Cell>>
    var sortKey: seq<nat>
    var batchOffsets: seq<nat>
    /** The rows written so far, in file order. */
    ghost var rows: seq<Row>

    ghost predicate Valid()
      reads this
    {
      Stores(width, rows, dataKey, dataTable, sortKey, sortTable, batchOffsets)
    }

    constructor (width: nat, key: seq<nat>)
      requires key != [] && KeyFits(key, width)
      ensures Valid() && rows == [] && sortKey == key && this.width == width
    {
      this.width, sortKey, dataKey, rows, batchOffsets := width, key, DataKey(width, key), [], [0];
      dataTable, sortTable := ColumnsOf([], width, DataKey(width, key)), ColumnsOf([], width, key);
    }

    /** Writes a batch in key order behind what is there, if the batch can be sorted; nothing has changed otherwise. */
    method PushBatch(batch: TableSlice) returns (ok: bool, ghost more: seq<Row>)
      requires Valid() && batch.Ok(width)
      modifies this
      ensures Valid() && sortKey == old(sortKey) && KeyFits(sortKey, width)
      ensures ok <==> CanSort(batch, width, sortKey)
      ensures ok ==> rows == old(rows) + more && SortOf(more, batch.Content(width), width, sortKey)
      ensures !ok ==> unchanged(this)
    {
      hide SortOf, Stores, Rect, KeyFits, ColumnsOf, Gathers, CanSort, TableSlice.Ok, TableSlice.Content;
      StoredKeys(width, rows, dataKey, dataTable, sortKey, sortTable, batchOffsets);
      if batch.len == 0 {
        FewRowsCanBeSorted(batch, width, sortKey);
        NothingSorted(batch.Content(width), width, sortKey);
        return true, [];
      }
      var order;
      order, more := SortBatch(batch, width, sortKey);
      if order.None? {
        return false, more;
      }
      StoresMore(width, rows, dataKey, dataTable, sortKey, sortTable, batchOffsets, more);
      var data := WriteColumns(dataTable, dataKey, rows, width, batch, order.value, more);
      var keys := WriteColumns(sortTable, sortKey, rows, width, batch, order.value, more);
      var boundary := batchOffsets[|batchOffsets| - 1] + batch.len;
      dataTable, sortTable, batchOffsets, rows := data, keys, batchOffsets + [boundary], rows + more;
      ok := true;
    }
  }

  /** The order of a batch and the rows in that order, or `None` if sorting aborts. */
  method SortBatch(batch: TableSlice, width: nat, key: seq<nat>) returns (order: Option<seq<nat>>, ghost more: seq<Row>)
    requires batch.Ok(width) && KeyFits(key, width) && key != []
    ensures order.Some? <==> CanSort(batch, width, key)
    ensures order.Some? ==> Gathers(order.value, batch.Content(width), more) && |more| == batch.len
    ensures order.Some? ==> Rect(more, width) && SortOf(more, batch.Content(width), width, key)
  {
    hide Sorted, SortOf, TableSlice.Ok, Sortable;
    KeyViewsShow(batch, width, key);
    order := SortTableToIndexes(KeyViews(batch, width, key), batch.len);
    more := [];
    if order.Some? {
      ArrangedRows(batch.Content(width), width, key, order.value);
      more := Pick(batch.Content(width), order.value);
    }
  }

  lemma {:induction false} NothingSorted(batch: seq<Row>, width: nat, key: seq<nat>)
    requires batch == [] && KeyFits(key, width)
    ensures SortOf(batch, batch, width, key)
  {
  }

  lemma {:induction false} StoredKeys(width: nat, rows: seq<Row>, dataKey: seq<nat>, dataTable: seq<seq<Cell>>,
                                      sortKey: seq<nat>, sortTable: seq<seq<Cell>>, batchOffsets: seq<nat>)
    requires Stores(width, rows, dataKey, dataTable, sortKey, sortTable, batchOffsets)
    ensures Rect(rows, width) && sortKey != [] && KeyFits(sortKey, width) && KeyFits(dataKey, width)
    ensures sortTable == ColumnsOf(rows, width, sortKey) && dataTable == ColumnsOf(rows, width, dataKey)
    ensures batchOffsets != [] && batchOffsets[|batchOffsets| - 1] == |rows|
  {
  }

  /** Reads absolute ranges of a stored column, each through the reader of its chunk. */
  method ReadChunkedRanges(column: seq<Cell>, batchOffsets: seq<nat>, ranges: seq<Range>, dst: seq<Cell>) returns (out: seq<Cell>)
    requires batchOffsets != [] && Strict(batchOffsets) && batchOffsets[|batchOffsets| - 1] == |column|
    requires forall p :: p in ranges ==> Within(batchOffsets, true, p)
    ensures forall i :: 0 <= i < |Rows(ranges)| ==> Rows(ranges)[i] < |column|
    ensures out == dst + Pick(column, Rows(ranges))
  {
    hide Rows;
    out := dst;
    NoRows();
    for k := 0 to |ranges|
      invariant forall i :: 0 <= i < |Rows(ranges[..k])| ==> Rows(ranges[..k])[i] < |column|
      invariant out == dst + Pick(column, Rows(ranges[..k]))
    {
      var r := ranges[k];
      assert r.offset + r.len <= |column| by { EndsInside(batchOffsets, r); }
      assert ranges[..k + 1] == ranges[..k] + [r];
      RowsJoin(ranges[..k], [r]);
      RowsOne(r);
      out := out + column[r.offset..r.offset + r.len];
    }
    assert ranges[..|ranges|] == ranges;
  }

  lemma {:induction false} EndsInside(batchOffsets: seq<nat>, r: Range)
    requires batchOffsets != [] && Strict(batchOffsets) && Within(batchOffsets, true, r)
    ensures r.offset + r.len <= batchOffsets[|batchOffsets| - 1]
  {
  }

  lemma {:induction false} PartsAreWithin(batchOffsets: seq<nat>, chunks: seq<Range>, p: Range)
    requires Compressed(batchOffsets, true, chunks) && PartOf(chunks, p)
    ensures Within(batchOffsets, true, p)
  {
  }
}
