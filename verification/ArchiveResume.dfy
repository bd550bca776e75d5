/** Rebuilding the tracker after a stop or a crash (crates/archive/src/layout.rs). */
module ArchiveResume {
  import opened ArchiveLayout
  import opened ArchiveShape
  import opened ArchiveTracker
  import opened Options

  /** Part of the range belongs to another writer, or there is no range. */
  predicate Foreign(shelves: seq<Shelf>, first: nat, last: Option<nat>) {
    var wanted := Wanted(shelves, first, last);
    || first > End(last)
    || (wanted != [] && (wanted[0].first != first || (last.Some? && wanted[|wanted| - 1].last > last.value)))
  }

  /** The last and the second last chunk of the range, unless it is foreign. */
  method FindLast(shelves: seq<Shelf>, first: nat, last: Option<nat>) returns (ok: bool, chunks: seq<Chunk>)
    requires Laid(shelves)
    ensures ok <==> !Foreign(shelves, first, last)
    ensures ok ==> chunks == Reversed(Wanted(shelves, first, last))
  {
    if first > End(last) {
      return false, [];
    }
    var forward := GetChunks(shelves, first, last);
    if forward != [] && forward[0].first != first {
      return false, [];
    }
    chunks := GetChunksInReversedOrder(shelves, first, last);
    if chunks != [] && last.Some? && chunks[0].last > last.value {
      return false, [];
    }
    return true, chunks;
  }

  /** The chunks in one top directory. */
  method GetTopChunks(shelves: seq<Shelf>, top: nat) returns (chunks: seq<Chunk>)
    requires Laid(shelves)
    ensures forall i :: 0 <= i < |shelves| && shelves[i].top == top ==> chunks == shelves[i].chunks
    ensures (forall i :: 0 <= i < |shelves| ==> shelves[i].top != top) ==> chunks == []
  {
    for i := 0 to |shelves|
      invariant forall k :: 0 <= k < i ==> shelves[k].top != top
    {
      if shelves[i].top == top {
        assert forall k :: i < k < |shelves| ==> shelves[i].top < shelves[k].top;
        return shelves[i].chunks;
      }
    }
    return [];
  }

  lemma {:induction false} AllOverlap(chunks: seq<Chunk>, first: nat, last: nat)
    requires forall i :: 0 <= i < |chunks| ==> Overlaps(chunks[i], first, last)
    ensures Overlapping(chunks, first, last) == chunks
  {
    if chunks != [] {
      AllOverlap(chunks[..|chunks| - 1], first, last);
      assert chunks == chunks[..|chunks| - 1] + [chunks[|chunks| - 1]];
    }
  }

  lemma {:induction false} TilesFrom(chunks: seq<Chunk>, first: nat, i: nat)
    requires Tiles(chunks, first) && i < |chunks|
    ensures first <= chunks[i].first <= chunks[i].last && chunks[0].first == first
  {
    if i > 0 { TilesFrom(chunks, first, i - 1); }
  }

  /** A writer finds all of its chunks, and nothing foreign. */
  lemma {:induction false} OwnRange(fs: FS, first: nat, size: nat, last: Option<nat>)
    requires Sound(fs, first, size, End(last)) && first <= End(last)
    ensures Laid(fs.shelves) && Wanted(fs.shelves, first, last) == All(fs.shelves) && !Foreign(fs.shelves, first, last)
  {
    hide All, Shelved, Complete, Laid, Overlapping, Tiles;
    ShapeIsLaid(fs.shelves, first, size);
    var all := All(fs.shelves);
    forall i | 0 <= i < |all| ensures Overlaps(all[i], first, End(last)) {
      TilesFrom(all, first, i);
      assert all[i] in all;
    }
    AllOverlap(all, first, End(last));
    if all != [] {
      TilesFrom(all, first, 0);
      assert all[|all| - 1] in all;
    }
  }

  lemma {:induction false} CurrentShelf(shelves: seq<Shelf>, first: nat, size: nat)
    requires Shape(shelves, first, size) && All(shelves) != []
    ensures Current(shelves) != []
    ensures var c := All(shelves)[|All(shelves)| - 1];
            && c == Current(shelves)[|Current(shelves)| - 1]
            && exists i :: 0 <= i < |shelves| && shelves[i].top == c.top && shelves[i].chunks == Current(shelves)
  {
    CurrentEnds(shelves, first, size);
    var n, current := |shelves|, Current(shelves);
    var i := if shelves[n - 1].chunks != [] then n - 1 else n - 2;
    assert shelves[i].chunks == current && current[|current| - 1] in shelves[i].chunks;
  }

  function LastOf(chunks: seq<Chunk>): Option<Chunk> {
    if chunks == [] then None else Some(chunks[|chunks| - 1])
  }

  /** Deletes the last chunk when it is unfinished; the one before it then is the last. */
  method Clean(fs: FS, ghost size: nat, ghost first: nat, ghost limit: nat, keepEmpty: bool, chunks: seq<Chunk>)
    returns (out: FS, lastChunk: Option<Chunk>)
    requires Sound(fs, first, size, limit) && chunks == Reversed(All(fs.shelves))
    ensures out == Cleaned(fs, keepEmpty) && lastChunk == LastOf(All(out.shelves))
  {
    hide All, Shape, Sound;
    out, lastChunk := fs, if chunks == [] then None else Some(chunks[0]);
    if chunks != [] {
      var written := ChunkCheck(fs.Ls(chunks[0]));
      if !written {
        UnfinishedShelf(fs, first, size, limit);
        AllDropped(fs.shelves, keepEmpty);
        out := FS(DropLast(fs.shelves, keepEmpty), fs.files - {chunks[0]});
        lastChunk := if |chunks| < 2 then None else Some(chunks[1]);
      }
    }
  }

  method Resume(fs: FS, size: nat, first: nat, limit: nat, lastChunk: Option<Chunk>) returns (t: Tracker)
    requires Shape(fs.shelves, first, size) && lastChunk == LastOf(All(fs.shelves))
    ensures t == Resumed(fs.shelves, size, first, limit) && Matches(t, fs.shelves, first, size)
    ensures t.NextBlock() == Next(All(fs.shelves), first)
  {
    hide All, Tiles;
    if lastChunk.Some? {
      CurrentShelf(fs.shelves, first, size);
      ShapeIsLaid(fs.shelves, first, size);
      var current := GetTopChunks(fs.shelves, lastChunk.value.top);
      t := Tracker(size, Some(lastChunk.value.hash), limit, lastChunk.value.top, current);
    } else {
      CurrentEnds(fs.shelves, first, size);
      t := Tracker(size, None, limit, first, []);
    }
    TrackerIsNext(t, fs.shelves, first, size);
  }

  /** Deletes an unfinished last chunk and continues behind the last one that is left. */
  method CreateChunkTracker(fs: FS, size: nat, first: nat, last: Option<nat>, keepEmpty: bool) returns (t: Tracker, out: FS)
    requires Sound(fs, first, size, End(last)) && first <= End(last)
    ensures out == Cleaned(fs, keepEmpty) && t == Resumed(out.shelves, size, first, End(last))
    ensures Sound(out, first, size, End(last)) && !Unfinished(out)
    ensures Matches(t, out.shelves, first, size) && t.NextBlock() == Next(All(out.shelves), first)
  {
    hide All, Shape, Wanted, Sound, Current, Complete, Foreign, Cleaned, Unfinished, Matches;
    OwnRange(fs, first, size, last);
    var ok, chunks := FindLast(fs.shelves, first, last);
    CleanedIsSound(fs, keepEmpty, first, size, End(last));
    SoundShape(Cleaned(fs, keepEmpty), first, size, End(last));
    var lastChunk;
    out, lastChunk := Clean(fs, size, first, End(last), keepEmpty, chunks);
    t := Resume(out, size, first, End(last), lastChunk);
  }

  lemma {:induction false} SoundShape(fs: FS, first: nat, size: nat, limit: nat)
    requires Sound(fs, first, size, limit)
    ensures Shape(fs.shelves, first, size) && Shelved(fs.shelves, first, size)
  {
  }
}
