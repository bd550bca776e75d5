/** Whole uses of the sorter: any batches in, any windows out; and the in-memory path beside it. */
module SortRuns {
  import opened Options
  import opened Picking
  import opened SortedTables
  import opened SortIndexes
  import opened SortOrder
  import opened TableSort

  /** A request for rows `offset..offset + len` of a column. */
  datatype Read = Read(column: nat, offset: nat, len: nat)

  predicate AllOk(batches: seq<TableSlice>, width: nat) {
    forall i :: 0 <= i < |batches| ==> batches[i].Ok(width)
  }

  /** Every batch can be sorted by the key. */
  ghost predicate AllCanSort(batches: seq<TableSlice>, width: nat, key: seq<nat>)
    requires AllOk(batches, width) && KeyFits(key, width)
  {
    forall i :: 0 <= i < |batches| ==> CanSort(batches[i], width, key)
  }

  /** The rows of all batches one after the other. */
  ghost function Flatten(batches: seq<TableSlice>, width: nat): (r: seq<Row>)
    requires AllOk(batches, width)
    ensures Rect(r, width)
  {
    if batches == [] then [] else Flatten(batches[..|batches| - 1], width) + batches[|batches| - 1].Content(width)
  }

  lemma {:induction false} FlattenStep(batches: seq<TableSlice>, width: nat, k: nat)
    requires k < |batches| && AllOk(batches, width)
    ensures Flatten(batches[..k + 1], width) == Flatten(batches[..k], width) + batches[k].Content(width)
  {
    hide TableSlice.Ok, TableSlice.Content;
    assert batches[..k + 1][..k] == batches[..k];
  }

  predicate InRange(r: Read, width: nat, n: nat) {
    r.column < width && r.offset + r.len <= n
  }

  /** What a read of the table `sorted` answers. */
  function Answer(sorted: seq<Row>, width: nat, r: Read): seq<Cell>
    requires Rect(sorted, width) && InRange(r, width, |sorted|)
  {
    ColumnOf(sorted, width, r.column)[r.offset..r.offset + r.len]
  }

  lemma {:induction false} PermutedKeepsCount(sorted: seq<Row>, rows: seq<Row>)
    requires multiset(sorted) == multiset(rows)
    ensures |sorted| == |rows|
  {
    assert |multiset(sorted)| == |sorted| && |multiset(rows)| == |rows|;
  }

  /** Loads batch after batch, up to the first that cannot be sorted. */
  method Load(batches: seq<TableSlice>, width: nat, key: seq<nat>) returns (ok: bool, sorter: TableSorter)
    requires AllOk(batches, width) && key != [] && KeyFits(key, width)
    ensures fresh(sorter) && sorter.Valid() && sorter.width == width && sorter.sortKey == key
    ensures ok <==> AllCanSort(batches, width, key)
    ensures ok ==> multiset(sorter.rows) == multiset(Flatten(batches, width))
  {
    hide SortOf, Stores, KeyFits, Flatten, CanSort, TableSlice.Ok, TableSlice.Content;
    sorter := new TableSorter(width, key);
    assert batches[..0] == [] && Flatten([], width) == [] by { FlattenNothing(width); }
    for k := 0 to |batches|
      invariant fresh(sorter) && sorter.Valid() && sorter.width == width && sorter.sortKey == key
      invariant AllCanSort(batches[..k], width, key)
      invariant multiset(sorter.rows) == multiset(Flatten(batches[..k], width))
    {
      ghost var more;
      ok, more := sorter.PushBatch(batches[k]);
      if !ok {
        return;
      }
      SortedSame(more, batches[k].Content(width), width, key);
      FlattenStep(batches, width, k);
      assert multiset(sorter.rows) == multiset(Flatten(batches[..k], width)) + multiset(batches[k].Content(width));
    }
    assert batches[..|batches|] == batches;
    ok := true;
  }

  lemma {:induction false} FlattenNothing(width: nat)
    ensures Flatten([], width) == []
  {
  }

  lemma {:induction false} SortedSame(sorted: seq<Row>, rows: seq<Row>, width: nat, key: seq<nat>)
    requires Rect(rows, width) && KeyFits(key, width) && SortOf(sorted, rows, width, key)
    ensures multiset(sorted) == multiset(rows) && |sorted| == |rows| && Rect(sorted, width)
  {
    PermutedKeepsCount(sorted, rows);
  }

  /** Every answer is the asked window of `sorted`. */
  ghost predicate ServedFrom(sorted: seq<Row>, width: nat, queries: seq<Read>, outs: seq<seq<Cell>>) {
    && Rect(sorted, width) && |outs| <= |queries|
    && forall i :: 0 <= i < |outs| ==> InRange(queries[i], width, |sorted|) && outs[i] == Answer(sorted, width, queries[i])
  }

  /** Before the first row is asked for there are only empty answers. */
  ghost predicate OnlyEmpty(queries: seq<Read>, outs: seq<seq<Cell>>) {
    |outs| <= |queries| && forall i :: 0 <= i < |outs| ==> queries[i].len == 0 && outs[i] == []
  }

  ghost predicate Served(table: SortedTable, queries: seq<Read>, outs: seq<seq<Cell>>)
    requires table.Valid()
    reads table, table.tracker
  {
    if table.order.Some? then ServedFrom(table.Result(), table.width, queries, outs) else OnlyEmpty(queries, outs)
  }

  lemma {:induction false} EmptyIsServed(sorted: seq<Row>, width: nat, queries: seq<Read>, outs: seq<seq<Cell>>)
    requires OnlyEmpty(queries, outs) && Rect(sorted, width)
    requires forall i :: 0 <= i < |queries| ==> InRange(queries[i], width, |sorted|)
    ensures ServedFrom(sorted, width, queries, outs)
  {
  }

  lemma {:induction false} ServedMore(sorted: seq<Row>, width: nat, queries: seq<Read>, outs: seq<seq<Cell>>, out: seq<Cell>)
    requires ServedFrom(sorted, width, queries, outs) && |outs| < |queries|
    requires InRange(queries[|outs|], width, |sorted|) && out == Answer(sorted, width, queries[|outs|])
    ensures ServedFrom(sorted, width, queries, outs + [out])
  {
  }

  method ReadAll(table: SortedTable, queries: seq<Read>) returns (outs: seq<seq<Cell>>)
    requires table.Valid() && table.order.None?
    requires forall i :: 0 <= i < |queries| ==> InRange(queries[i], table.width, table.len)
    modifies table, table.tracker
    ensures table.Valid() && table.order.Some? && |outs| == |queries|
    ensures ServedFrom(table.Result(), table.width, queries, outs)
  {
    hide Answer, ServedFrom, OnlyEmpty, Stores;
    outs := [];
    assert OnlyEmpty(queries, outs) by { NothingServed(queries); }
    for k := 0 to |queries|
      invariant table.Valid() && |outs| == k && (table.tracker == old(table.tracker) || fresh(table.tracker))
      invariant Served(table, queries, outs)
    {
      outs := ReadNext(table, queries, outs);
    }
    if table.order.None? {
      table.PrepareOrder();
      ResultShape(table);
      EmptyIsServed(table.Result(), table.width, queries, outs);
    }
  }

  lemma {:induction false} NothingServed(queries: seq<Read>)
    ensures OnlyEmpty(queries, [])
  {
  }

  lemma {:induction false} ResultShape(table: SortedTable)
    requires table.Valid() && table.order.Some?
    ensures Rect(table.Result(), table.width) && |table.Result()| == table.len
  {
  }

  method ReadNext(table: SortedTable, queries: seq<Read>, outs: seq<seq<Cell>>) returns (r: seq<seq<Cell>>)
    requires table.Valid() && |outs| < |queries| && Served(table, queries, outs)
    requires forall i :: 0 <= i < |queries| ==> InRange(queries[i], table.width, table.len)
    modifies table, table.tracker
    ensures table.Valid() && (table.tracker == old(table.tracker) || fresh(table.tracker))
    ensures |r| == |outs| + 1 && Served(table, queries, r)
  {
    hide ServedFrom, OnlyEmpty, Stores;
    var q := queries[|outs|];
    ghost var ready := table.order.Some?;
    var out := table.ReadColumn([], q.column, q.offset, q.len);
    r := outs + [out];
    if table.order.Some? {
      ResultShape(table);
      if !ready { EmptyIsServed(table.Result(), table.width, queries, outs); }
      ServedMore(table.Result(), table.width, queries, outs, out);
    } else {
      StillEmpty(queries, outs);
    }
  }

  lemma {:induction false} StillEmpty(queries: seq<Read>, outs: seq<seq<Cell>>)
    requires OnlyEmpty(queries, outs) && |outs| < |queries| && queries[|outs|].len == 0
    ensures OnlyEmpty(queries, outs + [[]])
  {
  }

  /** Whatever the batches and whatever is read, in whatever order: all answers are windows of one sorted table. A batch
      that cannot be sorted, and nothing else, aborts the run. */
  method SortAndRead(batches: seq<TableSlice>, width: nat, key: seq<nat>, queries: seq<Read>) returns (outs: Option<seq<seq<Cell>>>)
    requires AllOk(batches, width) && key != [] && KeyFits(key, width)
    requires forall i :: 0 <= i < |queries| ==> InRange(queries[i], width, |Flatten(batches, width)|)
    ensures outs.Some? <==> AllCanSort(batches, width, key)
    ensures outs.Some? ==> |outs.value| == |queries|
    ensures outs.Some? ==> exists sorted :: SortOf(sorted, Flatten(batches, width), width, key)
                                          && ServedFrom(sorted, width, queries, outs.value)
  {
    hide Stores, Flatten, ServedFrom, Sorted, CanSort, TableSlice.Ok;
    var ok, sorter := Load(batches, width, key);
    if !ok {
      return None;
    }
    PermutedKeepsCount(sorter.rows, Flatten(batches, width));
    var table := new SortedTable(sorter);
    var answers := ReadAll(table, queries);
    table.ResultIsSorted();
    assert SortOf(table.Result(), Flatten(batches, width), width, key);
    outs := Some(answers);
  }

  // ---- the in-memory path ----

  /** Sorts one batch in memory and gathers every column; without a key the batch is taken as it is. */
  method FromSlice(records: TableSlice, width: nat, key: seq<nat>) returns (columns: Option<seq<seq<Cell>>>)
    requires records.Ok(width) && KeyFits(key, width)
    ensures columns.Some? <==> key == [] || CanSort(records, width, key)
    ensures columns.Some? ==> exists sorted :: SortOf(sorted, records.Content(width), width, key)
                                             && columns.value == ColumnsOf(sorted, width, Iota(width))
    ensures key == [] ==> columns == Some(ColumnsOf(records.Content(width), width, Iota(width)))
  {
    hide CanSort, TableSlice.Ok, View.Ok, View.Len, View.CellAt, View.Sub;
    if key != [] && records.len > 0 {
      var order;
      ghost var sorted;
      order, sorted := SortBatch(records, width, key);
      if order.None? {
        return None;
      }
      var gathered := WriteColumns(ColumnsOf([], width, Iota(width)), Iota(width), [], width, records, order.value, sorted);
      assert [] + sorted == sorted;
      columns := Some(gathered);
    } else {
      if records.len == 0 { FewRowsCanBeSorted(records, width, key); }
      AsItIs(records.Content(width), width, key);
      KeyViewsShow(records, width, Iota(width));
      columns := Some(Shown(KeyViews(records, width, Iota(width)), records.len));
    }
  }

  lemma {:induction false} AsItIs(rows: seq<Row>, width: nat, key: seq<nat>)
    requires Rect(rows, width) && KeyFits(key, width) && (key == [] || rows == [])
    ensures SortOf(rows, rows, width, key)
  {
    hide KeyLe;
    if key == [] {
      forall i, j | 0 <= i < j < |rows|
        ensures KeyLe(RowKeys(rows, width, key)[i], RowKeys(rows, width, key)[j])
      {
        EmptyKeys(RowKeys(rows, width, key)[i], RowKeys(rows, width, key)[j]);
      }
    }
  }

  lemma {:induction false} EmptyKeys(a: Key, b: Key)
    requires |a| == |b| == 0
    ensures KeyLe(a, b)
  {
  }

  lemma {:induction false} KeysOfSame(a: seq<Row>, b: seq<Row>, width: nat, key: seq<nat>)
    requires Rect(a, width) && Rect(b, width) && KeyFits(key, width) && multiset(a) == multiset(b)
    ensures multiset(RowKeys(a, width, key)) == multiset(RowKeys(b, width, key))
    decreases |a|
  {
    if a == [] {
      PermutedKeepsCount(a, b);
      assert RowKeys(a, width, key) == RowKeys(b, width, key);
    } else {
      assert a[0] in multiset(b);
      var k :| 0 <= k < |b| && b[k] == a[0];
      KeysWithout(a, width, key, 0);
      KeysWithout(b, width, key, k);
      assert multiset(Without(a, 0)) == multiset(Without(b, k)) by {
        Removed(a, 0);
        Removed(b, k);
      }
      hide Without;
      KeysOfSame(Without(a, 0), Without(b, k), width, key);
    }
  }

  lemma {:induction false} KeysWithout(rows: seq<Row>, width: nat, key: seq<nat>, k: nat)
    requires Rect(rows, width) && KeyFits(key, width) && k < |rows|
    ensures Rect(Without(rows, k), width)
    ensures multiset(RowKeys(rows, width, key)) == multiset(RowKeys(Without(rows, k), width, key)) + multiset{RowKey(rows[k], key)}
  {
    Removed(RowKeys(rows, width, key), k);
    assert Without(RowKeys(rows, width, key), k) == RowKeys(Without(rows, k), width, key);
  }

  /** Two sorts of the same rows, by whatever path, have the same key in every position. */
  lemma {:induction false} SortsAgreeOnKeys(a: seq<Row>, b: seq<Row>, rows: seq<Row>, width: nat, key: seq<nat>)
    requires Rect(rows, width) && KeyFits(key, width)
    requires SortOf(a, rows, width, key) && SortOf(b, rows, width, key)
    ensures RowKeys(a, width, key) == RowKeys(b, width, key)
  {
    KeysOfSame(a, b, width, key);
    SortedKeysAreUnique(RowKeys(a, width, key), RowKeys(b, width, key), |key|);
  }

  /** Rows `lo..hi` are exactly those with key `k`. */
  ghost predicate Group(rows: seq<Row>, width: nat, key: seq<nat>, k: Key, lo: nat, hi: nat)
    requires Rect(rows, width) && KeyFits(key, width)
  {
    lo <= hi <= |rows| && forall i :: 0 <= i < |rows| ==> (RowKey(rows[i], key) == k <==> lo <= i < hi)
  }

  /** Two sorts differ only among rows with equal keys: every group has the same place and the same contents. */
  lemma {:induction false} GroupsAgree(a: seq<Row>, b: seq<Row>, rows: seq<Row>, width: nat, key: seq<nat>, k: Key, lo: nat, hi: nat)
    requires Rect(rows, width) && KeyFits(key, width)
    requires SortOf(a, rows, width, key) && SortOf(b, rows, width, key) && Group(a, width, key, k, lo, hi)
    ensures Group(b, width, key, k, lo, hi) && multiset(a[lo..hi]) == multiset(b[lo..hi])
  {
    hide Sorted;
    SortsAgreeOnKeys(a, b, rows, width, key);
    assert Group(b, width, key, k, lo, hi) by {
      forall i | 0 <= i < |b| ensures RowKey(b[i], key) == k <==> lo <= i < hi {
        assert RowKeys(a, width, key)[i] == RowKeys(b, width, key)[i];
      }
    }
    forall r: Row ensures multiset(a[lo..hi])[r] == multiset(b[lo..hi])[r] {
      GroupCount(a, width, key, k, lo, hi, r);
      GroupCount(b, width, key, k, lo, hi, r);
    }
  }

  /** A row with the group's key occurs in the group as often as overall, any other row not at all. */
  lemma {:induction false} GroupCount(rows: seq<Row>, width: nat, key: seq<nat>, k: Key, lo: nat, hi: nat, r: Row)
    requires Rect(rows, width) && KeyFits(key, width) && Group(rows, width, key, k, lo, hi)
    ensures multiset(rows[lo..hi])[r] == if |r| == width && RowKey(r, key) == k then multiset(rows)[r] else 0
  {
    assert rows == rows[..lo] + rows[lo..hi] + rows[hi..];
    if |r| == width && RowKey(r, key) == k {
      assert r !in rows[..lo] && r !in rows[hi..];
      assert multiset(rows) == multiset(rows[..lo]) + multiset(rows[lo..hi]) + multiset(rows[hi..]);
    } else {
      assert r !in rows[lo..hi];
    }
  }
}
