/** What one writer leaves behind: tiled block ranges in filled top directories, and the tracker that goes on from there
    (crates/archive/src/layout.rs). */
module ArchiveShape {
  import opened ArchiveLayout

  /** Consecutive ranges from `first` on, without gap or overlap. */
  ghost predicate Tiles(chunks: seq<Chunk>, first: nat) {
    && (chunks != [] ==> chunks[0].first == first)
    && (forall i :: 0 < i < |chunks| ==> chunks[i].first == chunks[i - 1].last + 1)
    && (forall i :: 0 <= i < |chunks| ==> chunks[i].first <= chunks[i].last)
  }

  /** The block after the last chunk. */
  function Next(chunks: seq<Chunk>, first: nat): nat {
    if chunks == [] then first else chunks[|chunks| - 1].last + 1
  }

  /** Top directories are named after the block at which they were started; all but the last are full, and none is overfull. */
  ghost predicate Shelved(shelves: seq<Shelf>, first: nat, size: nat) {
    && (forall i :: 0 <= i < |shelves| ==> shelves[i].top == Next(All(shelves[..i]), first))
    && (forall i :: 0 <= i < |shelves| - 1 ==> shelves[i].chunks != [] && |shelves[i].chunks| >= size)
    && (forall i :: 0 <= i < |shelves| ==> |shelves[i].chunks| <= size || |shelves[i].chunks| <= 1)
    && (forall i, c :: 0 <= i < |shelves| && c in shelves[i].chunks ==> c.top == shelves[i].top)
  }

  ghost predicate Shape(shelves: seq<Shelf>, first: nat, size: nat) {
    Tiles(All(shelves), first) && Shelved(shelves, first, size)
  }

  /** The chunks of the last top directory that has any. */
  function Current(shelves: seq<Shelf>): seq<Chunk> {
    if shelves == [] then []
    else if shelves[|shelves| - 1].chunks != [] then shelves[|shelves| - 1].chunks
    else if |shelves| == 1 then []
    else shelves[|shelves| - 2].chunks
  }

  /** Where the next chunk belongs. */
  function TopFor(shelves: seq<Shelf>, first: nat, size: nat): nat {
    var current := Current(shelves);
    if current == [] then first
    else if |current| >= size then Next(current, first)
    else current[|current| - 1].top
  }

  /** The chunk directory is created, and its top directory if there is none of that name. */
  function AddChunk(shelves: seq<Shelf>, c: Chunk): seq<Shelf> {
    var n := |shelves|;
    if n > 0 && shelves[n - 1].top == c.top
    then shelves[n - 1 := Shelf(c.top, shelves[n - 1].chunks + [c])]
    else shelves + [Shelf(c.top, [c])]
  }

  /** A chunk that continues the layout. */
  ghost predicate Fits(shelves: seq<Shelf>, c: Chunk, first: nat, size: nat) {
    c.first == Next(All(shelves), first) && c.first <= c.last && c.top == TopFor(shelves, first, size)
  }

  lemma {:induction false} AllAdded(shelves: seq<Shelf>, c: Chunk)
    ensures All(AddChunk(shelves, c)) == All(shelves) + [c]
  {
  }

  lemma {:induction false} TilesAdded(chunks: seq<Chunk>, c: Chunk, first: nat)
    requires Tiles(chunks, first) && c.first == Next(chunks, first) && c.first <= c.last
    ensures Tiles(chunks + [c], first)
  {
  }

  lemma {:induction false} AllSplit(shelves: seq<Shelf>)
    requires shelves != []
    ensures All(shelves) == All(shelves[..|shelves| - 1]) + shelves[|shelves| - 1].chunks
  {
  }

  /** The current chunks end the listing; with nothing current there is nothing at all. */
  lemma {:induction false} CurrentEnds(shelves: seq<Shelf>, first: nat, size: nat)
    requires Shelved(shelves, first, size)
    ensures Current(shelves) == [] ==> All(shelves) == []
    ensures Current(shelves) != [] ==> All(shelves) != []
    ensures Current(shelves) != [] ==> Next(All(shelves), first) == Next(Current(shelves), first)
    ensures Current(shelves) != [] ==> All(shelves)[|All(shelves)| - 1] == Current(shelves)[|Current(shelves)| - 1]
  {
    if shelves != [] {
      AllSplit(shelves);
      var init := shelves[..|shelves| - 1];
      if shelves[|shelves| - 1].chunks == [] && |shelves| > 1 {
        AllSplit(init);
        assert shelves[|shelves| - 2].chunks != [];
      } else if |shelves| == 1 {
        assert init == [];
      }
    }
  }

  /** A chunk that does not go into the last top directory starts a new one, which then is due. */
  lemma {:induction false} NewShelfIsDue(shelves: seq<Shelf>, c: Chunk, first: nat, size: nat)
    requires Shelved(shelves, first, size) && Fits(shelves, c, first, size)
    requires shelves == [] || shelves[|shelves| - 1].top != c.top
    ensures c.top == Next(All(shelves), first)
    ensures shelves != [] ==> shelves[|shelves| - 1].chunks != [] && |shelves[|shelves| - 1].chunks| >= size
  {
  }

  /** A chunk that goes into the last top directory finds room there. */
  lemma {:induction false} RoomLeft(shelves: seq<Shelf>, c: Chunk, first: nat, size: nat)
    requires Shape(shelves, first, size) && Fits(shelves, c, first, size)
    requires shelves != [] && shelves[|shelves| - 1].top == c.top
    ensures |shelves[|shelves| - 1].chunks| < size || shelves[|shelves| - 1].chunks == []
  {
    hide All, Tiles;
    var n := |shelves|;
    if shelves[n - 1].chunks != [] {
      ShelfInAll(shelves, n - 1, first, size);
      assert shelves[..n] == shelves;
      CurrentEnds(shelves, first, size);
    }
  }

  lemma {:induction false} AddKeepsShape(shelves: seq<Shelf>, c: Chunk, first: nat, size: nat)
    requires Shape(shelves, first, size) && Fits(shelves, c, first, size)
    ensures Shape(AddChunk(shelves, c), first, size)
    ensures All(AddChunk(shelves, c)) == All(shelves) + [c]
  {
    hide All;
    var n, r := |shelves|, AddChunk(shelves, c);
    AllAdded(shelves, c);
    TilesAdded(All(shelves), c, first);
    if n > 0 && shelves[n - 1].top == c.top {
      RoomLeft(shelves, c, first, size);
      assert forall i :: 0 <= i < n ==> r[..i] == shelves[..i];
    } else {
      NewShelfIsDue(shelves, c, first, size);
      assert forall i :: 0 <= i < n ==> r[..i] == shelves[..i];
      assert r[..n] == shelves;
    }
  }

  /** The last chunk directory is deleted; an empty top directory may stay (on a local disk) or vanish (in an object store). */
  function DropLast(shelves: seq<Shelf>, keepEmpty: bool): seq<Shelf>
    requires shelves != [] && shelves[|shelves| - 1].chunks != []
  {
    var n := |shelves|;
    var s := shelves[n - 1];
    var rest := s.chunks[..|s.chunks| - 1];
    if rest == [] && !keepEmpty then shelves[..n - 1] else shelves[n - 1 := Shelf(s.top, rest)]
  }

  lemma {:induction false} AllDropped(shelves: seq<Shelf>, keepEmpty: bool)
    requires shelves != [] && shelves[|shelves| - 1].chunks != []
    ensures All(shelves) != [] && All(DropLast(shelves, keepEmpty)) == All(shelves)[..|All(shelves)| - 1]
    ensures All(shelves)[|All(shelves)| - 1] == shelves[|shelves| - 1].chunks[|shelves[|shelves| - 1].chunks| - 1]
  {
  }

  lemma {:induction false} DropKeepsShape(shelves: seq<Shelf>, keepEmpty: bool, first: nat, size: nat)
    requires Shape(shelves, first, size) && shelves != [] && shelves[|shelves| - 1].chunks != []
    ensures Shape(DropLast(shelves, keepEmpty), first, size)
  {
    hide All;
    AllDropped(shelves, keepEmpty);
    var n, r := |shelves|, DropLast(shelves, keepEmpty);
    assert forall i :: 0 <= i < |r| ==> r[..i] == shelves[..i];
    forall i, c | 0 <= i < |r| && c in r[i].chunks ensures c.top == r[i].top { assert c in shelves[i].chunks; }
    assert Tiles(All(r), first);
    assert forall i :: 0 <= i < |r| ==> r[i].top == shelves[i].top;
  }

  /** A writer's layout is in order. */
  lemma {:induction false} ShapeIsLaid(shelves: seq<Shelf>, first: nat, size: nat)
    requires Shape(shelves, first, size)
    ensures Laid(shelves)
  {
    hide All;
    var all := All(shelves);
    forall i | 0 <= i < |shelves|
      ensures Ordered(shelves[i].chunks)
      ensures forall c :: c in shelves[i].chunks ==> shelves[i].top <= c.first && c.last < Next(All(shelves[..i + 1]), first)
    {
      ShelfInAll(shelves, i, first, size);
    }
    forall i, j | 0 <= i < j < |shelves| ensures shelves[i].top < shelves[j].top { TopsAscend(shelves, i, j, first, size); }
  }

  lemma {:induction false} TilesOrdered(chunks: seq<Chunk>, first: nat, i: nat, j: nat)
    requires Tiles(chunks, first) && i < j < |chunks|
    ensures chunks[i].last < chunks[j].first
  {
    if i < j - 1 { TilesOrdered(chunks, first, i, j - 1); }
  }

  lemma {:induction false} ShelfInAll(shelves: seq<Shelf>, i: nat, first: nat, size: nat)
    requires Shape(shelves, first, size) && i < |shelves|
    ensures Ordered(shelves[i].chunks)
    ensures forall c :: c in shelves[i].chunks ==> shelves[i].top <= c.first && c.last < Next(All(shelves[..i + 1]), first)
    ensures shelves[i].chunks != [] ==> shelves[i].top < Next(All(shelves[..i + 1]), first)
  {
    hide All, Tiles, Ordered;
    assert shelves[..i + 1][..i] == shelves[..i];
    AllSplit(shelves[..i + 1]);
    PrefixTiles(shelves, i + 1, first);
    PartOfTiles(All(shelves[..i]), shelves[i].chunks, first);
    assert shelves[i].top == Next(All(shelves[..i]), first);
  }

  lemma {:induction false} PartOfTiles(before: seq<Chunk>, mine: seq<Chunk>, first: nat)
    requires Tiles(before + mine, first)
    ensures Ordered(mine)
    ensures forall c :: c in mine ==> Next(before, first) <= c.first && c.last < Next(before + mine, first)
    ensures mine != [] ==> Next(before, first) < Next(before + mine, first)
  {
    hide Tiles;
    var all, m := before + mine, |before|;
    assert Next(all[..m], first) == Next(before, first) by { assert all[..m] == before; }
    forall j, k | 0 <= j < k < |mine| ensures mine[j].last < mine[k].first {
      TilesOrdered(all, first, m + j, m + k);
    }
    forall k | 0 <= k < |mine|
      ensures Next(before, first) <= mine[k].first <= mine[k].last < Next(all, first)
    {
      TilesBetween(all, first, m, m + k);
    }
  }

  /** A tile lies between where the tiles before it end and where all of them end. */
  lemma {:induction false} TilesBetween(chunks: seq<Chunk>, first: nat, m: nat, k: nat)
    requires Tiles(chunks, first) && m <= k < |chunks|
    ensures Next(chunks[..m], first) <= chunks[k].first <= chunks[k].last < Next(chunks, first)
  {
    if m < k { TilesOrdered(chunks, first, m, k); }
    if k < |chunks| - 1 { TilesOrdered(chunks, first, k, |chunks| - 1); }
    if m > 0 { assert chunks[m].first == chunks[m - 1].last + 1; }
  }

  lemma {:induction false} PrefixTiles(shelves: seq<Shelf>, k: nat, first: nat)
    requires k <= |shelves| && Tiles(All(shelves), first)
    ensures Tiles(All(shelves[..k]), first)
  {
    hide All;
    assert shelves == shelves[..k] + shelves[k..];
    AllJoin(shelves[..k], shelves[k..]);
    assert forall i :: 0 <= i < |All(shelves[..k])| ==> All(shelves[..k])[i] == All(shelves)[i];
  }

  lemma {:induction false} TopsAscend(shelves: seq<Shelf>, i: nat, j: nat, first: nat, size: nat)
    requires Shape(shelves, first, size) && i < j < |shelves|
    ensures shelves[i].top < shelves[j].top
  {
    hide All, Tiles;
    if i < j - 1 { TopsAscend(shelves, i, j - 1, first, size); }
    ShelfInAll(shelves, j - 1, first, size);
  }
}
