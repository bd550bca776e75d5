/** The chunk tracker: how it is rebuilt from the directories and how it issues chunks (crates/archive/src/layout.rs). */
module ArchiveTracker {
  import opened ArchiveLayout
  import opened ArchiveShape
  import opened Options

  const BLOCKS := "blocks.parquet"

  /** What a tracker knows. */
  datatype Tracker = Tracker(size: nat, base: Option<string>, limit: nat, top: nat, chunks: seq<Chunk>) {
    function NextBlock(): nat {
      if chunks == [] then top else chunks[|chunks| - 1].last + 1
    }

    function PrevHash(): Option<string> {
      if chunks == [] then base else Some(chunks[|chunks| - 1].hash)
    }

    /** The chunk issued for a block range. */
    function Issued(last: nat, hash: string): Chunk {
      Chunk(NextBlock(), last, hash, if |chunks| >= size then NextBlock() else top)
    }

    function Advanced(c: Chunk): Tracker {
      this.(top := c.top, chunks := (if |chunks| >= size then [] else chunks) + [c])
    }
  }

  /** The tracker stands at the end of a layout. */
  ghost predicate Matches(t: Tracker, shelves: seq<Shelf>, first: nat, size: nat) {
    && t.size == size && t.chunks == Current(shelves)
    && t.top == if t.chunks == [] then first else t.chunks[|t.chunks| - 1].top
  }

  lemma {:induction false} TrackerIsNext(t: Tracker, shelves: seq<Shelf>, first: nat, size: nat)
    requires Shape(shelves, first, size) && Matches(t, shelves, first, size)
    ensures t.NextBlock() == Next(All(shelves), first)
  {
  }

  /** An issued chunk continues the layout, and the tracker stands at its end again. */
  lemma {:induction false} IssuedFits(t: Tracker, shelves: seq<Shelf>, first: nat, size: nat, last: nat, hash: string)
    requires Shape(shelves, first, size) && Matches(t, shelves, first, size) && t.NextBlock() <= last
    ensures Fits(shelves, t.Issued(last, hash), first, size)
    ensures Shape(AddChunk(shelves, t.Issued(last, hash)), first, size)
    ensures Matches(t.Advanced(t.Issued(last, hash)), AddChunk(shelves, t.Issued(last, hash)), first, size)
  {
    hide All, Tiles;
    var c := t.Issued(last, hash);
    TrackerIsNext(t, shelves, first, size);
    CurrentEnds(shelves, first, size);
    AddKeepsShape(shelves, c, first, size);
    LastShelf(shelves, first, size);
  }

  /** Only an empty last top directory is named after the next block. */
  lemma {:induction false} LastShelf(shelves: seq<Shelf>, first: nat, size: nat)
    requires Shape(shelves, first, size)
    ensures shelves != [] ==> var s := shelves[|shelves| - 1];
                              && (s.chunks == [] <==> s.top == Next(All(shelves), first))
                              && (s.chunks != [] ==> s.chunks[|s.chunks| - 1].top == s.top)
                              && (s.chunks == [] && |shelves| > 1 ==> |shelves[|shelves| - 2].chunks| >= size)
  {
    hide All, Tiles;
    if shelves != [] {
      var n := |shelves|;
      AllSplit(shelves);
      ShelfInAll(shelves, n - 1, first, size);
      assert shelves[..n] == shelves;
      var s := shelves[n - 1];
      assert s.chunks != [] ==> s.chunks[|s.chunks| - 1] in s.chunks;
    }
  }

  class ChunkTracker {
    const size: nat
    const base: Option<string>
    const limit: nat
    var top: nat
    var chunks: seq<Chunk>

    function State(): Tracker
      reads this
    {
      Tracker(size, base, limit, top, chunks)
    }

    constructor (t: Tracker)
      ensures State() == t
    {
      size, base, limit, top, chunks := t.size, t.base, t.limit, t.top, t.chunks;
    }

    /** The preconditions are the assertions of the original. */
    method NextChunk(first: nat, last: nat, hash: string) returns (c: Chunk)
      requires State().NextBlock() == first && first <= last <= limit
      modifies this
      ensures c == old(State()).Issued(last, hash) && State() == old(State()).Advanced(c)
    {
      if |chunks| >= size {
        top := first;
        chunks := [];
      }
      c := Chunk(first, last, hash, top);
      chunks := chunks + [c];
    }
  }

  // ---- directories with files ----

  datatype FS = FS(shelves: seq<Shelf>, files: map<Chunk, seq<string>>) {
    function Ls(c: Chunk): seq<string> {
      if c in files then files[c] else []
    }
  }

  ghost predicate IsBlocks(file: string) {
    BLOCKS <= file
  }

  /** A chunk directory counts as written once it holds its block table. */
  ghost predicate Complete(fs: FS, c: Chunk) {
    exists i :: 0 <= i < |fs.Ls(c)| && IsBlocks(fs.Ls(c)[i])
  }

  method ChunkCheck(files: seq<string>) returns (ok: bool)
    ensures ok <==> exists i :: 0 <= i < |files| && IsBlocks(files[i])
  {
    for i := 0 to |files|
      invariant forall k :: 0 <= k < i ==> !IsBlocks(files[k])
    {
      if BLOCKS <= files[i] { return true; }
    }
    return false;
  }

  /** Every chunk but the last is written, and then an empty top directory means that all are. */
  ghost predicate Sound(fs: FS, first: nat, size: nat, limit: nat) {
    var all := All(fs.shelves);
    && Shape(fs.shelves, first, size)
    && (forall i :: 0 <= i < |all| - 1 ==> Complete(fs, all[i]))
    && (fs.shelves != [] && fs.shelves[|fs.shelves| - 1].chunks == [] && all != [] ==> Complete(fs, all[|all| - 1]))
    && (forall c :: c in all ==> c.last <= limit)
    && (forall c :: c in fs.files ==> c in all)
  }

  ghost predicate Unfinished(fs: FS) {
    var all := All(fs.shelves);
    all != [] && !Complete(fs, all[|all| - 1])
  }

  /** The unfinished directory, if there is one, is deleted. */
  ghost function Cleaned(fs: FS, keepEmpty: bool): FS {
    var all := All(fs.shelves);
    if Unfinished(fs) && fs.shelves != [] && fs.shelves[|fs.shelves| - 1].chunks != []
    then FS(DropLast(fs.shelves, keepEmpty), fs.files - {all[|all| - 1]})
    else fs
  }

  /** The tracker that continues a layout. */
  function Resumed(shelves: seq<Shelf>, size: nat, first: nat, limit: nat): Tracker {
    var current := Current(shelves);
    if current == [] then Tracker(size, None, limit, first, [])
    else Tracker(size, Some(current[|current| - 1].hash), limit, current[|current| - 1].top, current)
  }

  lemma {:induction false} UnfinishedShelf(fs: FS, first: nat, size: nat, limit: nat)
    requires Sound(fs, first, size, limit) && Unfinished(fs)
    ensures fs.shelves != [] && fs.shelves[|fs.shelves| - 1].chunks != []
    ensures var s := fs.shelves[|fs.shelves| - 1]; s.chunks[|s.chunks| - 1] == All(fs.shelves)[|All(fs.shelves)| - 1]
  {
    AllDroppedOrEmpty(fs.shelves);
  }

  lemma {:induction false} AllDroppedOrEmpty(shelves: seq<Shelf>)
    ensures shelves != [] && shelves[|shelves| - 1].chunks != [] ==>
              All(shelves)[|All(shelves)| - 1] == shelves[|shelves| - 1].chunks[|shelves[|shelves| - 1].chunks| - 1]
    ensures shelves == [] ==> All(shelves) == []
  {
  }

  lemma {:induction false} TilesDistinct(chunks: seq<Chunk>, first: nat, i: nat, j: nat)
    requires Tiles(chunks, first) && i < j < |chunks|
    ensures chunks[i] != chunks[j]
  {
    TilesOrdered(chunks, first, i, j);
  }

  /** Cleaning leaves a layout in which everything is written. */
  lemma {:induction false} CleanedIsSound(fs: FS, keepEmpty: bool, first: nat, size: nat, limit: nat)
    requires Sound(fs, first, size, limit)
    ensures Sound(Cleaned(fs, keepEmpty), first, size, limit) && !Unfinished(Cleaned(fs, keepEmpty))
    ensures All(Cleaned(fs, keepEmpty).shelves)
         == if Unfinished(fs) then All(fs.shelves)[..|All(fs.shelves)| - 1] else All(fs.shelves)
  {
    hide All, Shape, DropLast;
    if Unfinished(fs) {
      UnfinishedShelf(fs, first, size, limit);
      DropKeepsShape(fs.shelves, keepEmpty, first, size);
      AllDropped(fs.shelves, keepEmpty);
      var r, all, rest := Cleaned(fs, keepEmpty), All(fs.shelves), All(DropLast(fs.shelves, keepEmpty));
      ShapeTiles(fs.shelves, first, size);
      hide IsBlocks, Tiles;
      forall i | 0 <= i < |rest| ensures Complete(r, rest[i]) {
        TilesDistinct(all, first, i, |all| - 1);
        assert Complete(fs, all[i]) && r.Ls(all[i]) == fs.Ls(all[i]);
      }
    }
  }

  lemma {:induction false} ShapeTiles(shelves: seq<Shelf>, first: nat, size: nat)
    requires Shape(shelves, first, size)
    ensures Tiles(All(shelves), first)
  {
  }
}
