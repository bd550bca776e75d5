/** Cutting a block stream into chunks (crates/archive/src/proc.rs). */
module ArchiveProc {
  import opened ArchiveLayout
  import opened ArchiveShape
  import opened ArchiveTracker
  import opened Options

  datatype Block = Block(number: nat, hash: string, parentHash: string, mask: nat)

  /** A chunk on its way to the writer. */
  datatype Item = Item(chunk: Chunk, blocks: seq<Block>)

  function ShortHash(hash: string): string {
    if |hash| > 8 then hash[|hash| - 8..] else hash
  }

  function FallbackShortHash(hash: string): string {
    if |hash| >= 10 then hash[2..10] else ""
  }

  /** `name` is the last 8 characters of the hash, or all of a shorter one. */
  ghost predicate EndOf(hash: string, name: string) {
    (|name| == 8 || |name| == |hash| < 8) && exists front: string :: hash == front + name
  }

  /** `name` is what stands behind the first two characters of the hash, 8 characters long; it is empty if there are fewer. */
  ghost predicate MiddleOf(hash: string, name: string) {
    if |hash| < 10 then name == ""
    else |name| == 8 && forall i :: 0 <= i < 8 ==> name[i] == hash[2 + i]
  }

  lemma {:induction false} ShortHashIsEnd(hash: string, name: string)
    ensures EndOf(hash, name) <==> name == ShortHash(hash)
  {
    var k := |hash| - |ShortHash(hash)|;
    assert hash == hash[..k] + ShortHash(hash);
    if front: string :| hash == front + name && |name| == |ShortHash(hash)| {
      assert name == hash[|front|..];
    }
  }

  lemma {:induction false} FallbackIsMiddle(hash: string, name: string)
    ensures MiddleOf(hash, name) <==> name == FallbackShortHash(hash)
  {
    if |hash| >= 10 { assert forall i :: 0 <= i < 8 ==> hash[2..10][i] == hash[2 + i]; }
  }

  /** A stream continues a tracker: ascending numbers from its next block on, within its limit. */
  ghost predicate Continues(stream: seq<Block>, t: Tracker) {
    && (forall i :: 0 <= i < |stream| ==> t.NextBlock() <= stream[i].number <= t.limit)
    && (forall i, j :: 0 <= i < j < |stream| ==> stream[i].number < stream[j].number)
  }

  /** A chunk of this name can come right before a block with this parent. */
  ghost predicate Precedes(name: string, parentHash: string) {
    EndOf(parentHash, name) || MiddleOf(parentHash, name)
  }

  /** Whether block `k` may follow what was taken before. */
  ghost predicate Follows(t: Tracker, stream: seq<Block>, continuity: bool, k: nat)
    requires k < |stream|
  {
    var parent := stream[k].parentHash;
    if k == 0 then t.PrevHash().None? || Precedes(t.PrevHash().value, parent)
    else continuity ==> stream[k - 1].hash == parent
  }

  function TrackerAfter(t: Tracker, items: seq<Item>): Tracker {
    if items == [] then t else TrackerAfter(t, items[..|items| - 1]).Advanced(items[|items| - 1].chunk)
  }

  /** Blocks `a..b` belong together: one mask, and nothing filled up before the last of them. */
  ghost predicate Together(stream: seq<Block>, full: seq<bool>, a: nat, b: nat)
    requires |full| == |stream|
  {
    && a <= b <= |stream|
    && (forall j :: a <= j < b ==> stream[j].mask == stream[a].mask)
    && (forall j :: a <= j < b - 1 ==> !full[j])
  }

  /** A chunk may end before block `b`. */
  predicate Cut(stream: seq<Block>, full: seq<bool>, b: nat)
    requires |full| == |stream| && 0 < b <= |stream|
  {
    b == |stream| || full[b - 1] || stream[b].mask != stream[b - 1].mask
  }

  /** The items are the first `n` blocks of the stream, cut where they must be and only there, each under its own chunk. */
  ghost predicate Sent(t: Tracker, stream: seq<Block>, full: seq<bool>, items: seq<Item>, n: nat)
    requires |full| == |stream|
  {
    if items == [] then n == 0
    else
      var init, item := items[..|items| - 1], items[|items| - 1];
      && 0 < |item.blocks| <= n <= |stream|
      && item.blocks == stream[n - |item.blocks|..n]
      && Together(stream, full, n - |item.blocks|, n) && Cut(stream, full, n)
      && item.chunk == TrackerAfter(t, init).Issued(stream[n - 1].number, ShortHash(stream[n - 1].hash))
      && Sent(t, stream, full, init, n - |item.blocks|)
  }

  class Proc {
    const tracker: ChunkTracker
    var mask: nat
    var blocksBuffered: seq<Block>
    var firstBlock: nat
    var lastBlock: nat
    var lastHash: string
    var items: seq<Item>

    /** The process took `k` blocks of the stream and sent the first `n`. */
    ghost predicate Took(t: Tracker, stream: seq<Block>, full: seq<bool>, n: nat, k: nat)
      requires |full| == |stream|
      reads this, tracker
    {
      && n <= k <= |stream| && blocksBuffered == stream[n..k]
      && tracker.State() == TrackerAfter(t, items) && firstBlock == tracker.State().NextBlock() && tracker.limit == t.limit
      && Sent(t, stream, full, items, n) && Together(stream, full, n, k)
      && firstBlock == (if n == 0 then t.NextBlock() else stream[n - 1].number + 1)
      && (k > 0 ==> lastBlock == stream[k - 1].number && lastHash == stream[k - 1].hash)
    }

    constructor (t: Tracker)
      ensures fresh(tracker) && tracker.State() == t && items == [] && blocksBuffered == [] && firstBlock == t.NextBlock()
    {
      tracker := new ChunkTracker(t);
      mask, blocksBuffered, firstBlock, lastBlock, lastHash, items := 0, [], t.NextBlock(), 0, "", [];
    }

    /** Sends what is buffered as one chunk. */
    method SubmitChunk(ghost t: Tracker, ghost stream: seq<Block>, ghost full: seq<bool>, ghost n: nat, ghost k: nat)
      requires |full| == |stream| && Continues(stream, t) && Took(t, stream, full, n, k)
      requires n < k ==> Cut(stream, full, k)
      modifies this, tracker
      ensures Took(t, stream, full, k, k) && mask == old(mask)
    {
      hide Sent, Together, Cut, TrackerAfter;
      if |blocksBuffered| == 0 {
        return;
      }
      SubmitFits(t, stream, n, k);
      var chunk := tracker.NextChunk(firstBlock, lastBlock, ShortHash(lastHash));
      var item := Item(chunk, blocksBuffered);
      SentMore(t, stream, full, items, n, k, item);
      items := items + [item];
      blocksBuffered := [];
      firstBlock := lastBlock + 1;
    }

    /** Takes one block: a change of mask closes the chunk before it, a full chunk is closed behind it. */
    method Push(block: Block, isFull: bool, ghost t: Tracker, ghost stream: seq<Block>, ghost full: seq<bool>, ghost n: nat, ghost k: nat)
      returns (ghost sent: nat)
      requires |full| == |stream| && Continues(stream, t) && Took(t, stream, full, n, k)
      requires k < |stream| && block == stream[k] && isFull == full[k] && (n < k ==> !full[k - 1] && mask == stream[k - 1].mask)
      modifies this, tracker
      ensures Took(t, stream, full, sent, k + 1) && (sent < k + 1 ==> !full[k] && mask == stream[k].mask)
    {
      hide Sent, TrackerAfter, Continues;
      sent := n;
      if mask != block.mask {
        SubmitChunk(t, stream, full, n, k);
        sent := k;
        mask := block.mask;
      }
      assert Together(stream, full, sent, k + 1);
      assert stream[sent..k + 1] == stream[sent..k] + [block];
      blocksBuffered := blocksBuffered + [block];
      lastBlock, lastHash := block.number, block.hash;
      if isFull {
        SubmitChunk(t, stream, full, sent, k + 1);
        sent := k + 1;
      }
    }

    /** Runs over the whole stream; stops at the first block that does not follow. */
    method Run(stream: seq<Block>, full: seq<bool>, continuity: bool) returns (ok: bool, ghost n: nat)
      requires |full| == |stream| && items == [] && blocksBuffered == [] && firstBlock == tracker.State().NextBlock()
      requires Continues(stream, tracker.State())
      modifies this, tracker
      ensures Sent(old(tracker.State()), stream, full, items, n) && tracker.State() == TrackerAfter(old(tracker.State()), items)
      ensures ok <==> forall k :: 0 <= k < |stream| ==> Follows(old(tracker.State()), stream, continuity, k)
      ensures ok ==> n == |stream|
    {
      hide Sent, Together, TrackerAfter, Follows, Continues;
      ghost var t := tracker.State();
      n := 0;
      NothingSent(t, stream, full);
      for k := 0 to |stream|
        invariant Took(t, stream, full, n, k) && (n < k ==> !full[k - 1] && mask == stream[k - 1].mask)
        invariant forall j :: 0 <= j < k ==> Follows(t, stream, continuity, j)
      {
        var follows := Check(stream[k], k, continuity, t, stream, full, n);
        if !follows {
          return false, n;
        }
        n := Push(stream[k], full[k], t, stream, full, n, k);
      }
      if |blocksBuffered| > 0 {
        assert Cut(stream, full, |stream|);
        SubmitChunk(t, stream, full, n, |stream|);
        n := |stream|;
      }
      return true, n;
    }

    /** The first block is compared with the chunk before, the others with the block before. */
    method Check(block: Block, k: nat, continuity: bool, ghost t: Tracker, ghost stream: seq<Block>, ghost full: seq<bool>, ghost n: nat)
      returns (ok: bool)
      requires |full| == |stream| && Took(t, stream, full, n, k) && k < |stream| && block == stream[k]
      ensures ok <==> Follows(t, stream, continuity, k)
    {
      if k == 0 {
        var prev := tracker.State().PrevHash();
        if prev.Some? {
          ShortHashIsEnd(block.parentHash, prev.value);
          FallbackIsMiddle(block.parentHash, prev.value);
        }
        return prev.None? || prev.value == ShortHash(block.parentHash) || prev.value == FallbackShortHash(block.parentHash);
      }
      return !continuity || lastHash == block.parentHash;
    }
  }

  lemma {:induction false} NothingSent(t: Tracker, stream: seq<Block>, full: seq<bool>)
    requires |full| == |stream|
    ensures Sent(t, stream, full, [], 0) && TrackerAfter(t, []) == t && Together(stream, full, 0, 0)
  {
  }

  /** The range of a chunk is never empty and never beyond the limit. */
  lemma {:induction false} SubmitFits(t: Tracker, stream: seq<Block>, n: nat, k: nat)
    requires Continues(stream, t) && n < k <= |stream|
    ensures (if n == 0 then t.NextBlock() else stream[n - 1].number + 1) <= stream[k - 1].number <= t.limit
  {
  }

  lemma {:induction false} SentMore(t: Tracker, stream: seq<Block>, full: seq<bool>, items: seq<Item>, n: nat, k: nat, item: Item)
    requires |full| == |stream| && Sent(t, stream, full, items, n) && n < k <= |stream|
    requires item.blocks == stream[n..k] && Together(stream, full, n, k) && Cut(stream, full, k)
    requires item.chunk == TrackerAfter(t, items).Issued(stream[k - 1].number, ShortHash(stream[k - 1].hash))
    ensures Sent(t, stream, full, items + [item], k)
    ensures TrackerAfter(t, items + [item]) == TrackerAfter(t, items).Advanced(item.chunk)
    ensures Together(stream, full, k, k)
  {
  }

  // ---- what the sent items are ----

  function BlocksOf(items: seq<Item>): seq<Block> {
    if items == [] then [] else BlocksOf(items[..|items| - 1]) + items[|items| - 1].blocks
  }

  function ChunksOf(items: seq<Item>): seq<Chunk> {
    seq(|items|, i requires 0 <= i < |items| => items[i].chunk)
  }

  /** The last item, and what was sent before it. */
  lemma {:induction false} SentLast(t: Tracker, stream: seq<Block>, full: seq<bool>, items: seq<Item>, n: nat)
    requires |full| == |stream| && Sent(t, stream, full, items, n) && items != []
    ensures var init, item := items[..|items| - 1], items[|items| - 1];
            && 0 < |item.blocks| <= n <= |stream| && item.blocks == stream[n - |item.blocks|..n]
            && Together(stream, full, n - |item.blocks|, n)
            && item.chunk == TrackerAfter(t, init).Issued(stream[n - 1].number, ShortHash(stream[n - 1].hash))
            && Sent(t, stream, full, init, n - |item.blocks|)
            && TrackerAfter(t, items) == TrackerAfter(t, init).Advanced(item.chunk)
  {
    hide Together, Cut;
  }

  /** No block is lost, repeated or moved. */
  lemma {:induction false} SentIsPrefix(t: Tracker, stream: seq<Block>, full: seq<bool>, items: seq<Item>, n: nat)
    requires |full| == |stream| && Sent(t, stream, full, items, n)
    ensures n <= |stream| && BlocksOf(items) == stream[..n]
  {
    if items == [] {
      assert stream[..0] == [];
    } else {
      hide Together, Sent, TrackerAfter;
      var init, item := items[..|items| - 1], items[|items| - 1];
      SentLast(t, stream, full, items, n);
      SentIsPrefix(t, stream, full, init, n - |item.blocks|);
      Halves(stream, n - |item.blocks|, n);
    }
  }

  lemma {:induction false} Halves(stream: seq<Block>, a: nat, b: nat)
    requires a <= b <= |stream|
    ensures stream[..b] == stream[..a] + stream[a..b]
  {
  }

  /** One mask per chunk, and its blocks lie in its range. */
  lemma {:induction false} ItemIsUniform(t: Tracker, stream: seq<Block>, full: seq<bool>, items: seq<Item>, n: nat, i: nat)
    requires |full| == |stream| && Sent(t, stream, full, items, n) && Continues(stream, t) && i < |items|
    ensures var item := items[i];
            && item.blocks != []
            && (forall b :: b in item.blocks ==> b.mask == item.blocks[0].mask && item.chunk.first <= b.number <= item.chunk.last)
            && item.chunk.last == item.blocks[|item.blocks| - 1].number
            && EndOf(item.blocks[|item.blocks| - 1].hash, item.chunk.hash)
    decreases |items|
  {
    hide Together, Sent, TrackerAfter, EndOf, ShortHash;
    var init, item := items[..|items| - 1], items[|items| - 1];
    SentLast(t, stream, full, items, n);
    if i < |items| - 1 {
      ItemIsUniform(t, stream, full, init, n - |item.blocks|, i);
      assert init[i] == items[i];
    } else {
      SentNext(t, stream, full, init, n - |item.blocks|);
      LastItem(stream, full, item, n);
      ShortHashIsEnd(stream[n - 1].hash, item.chunk.hash);
    }
  }

  /** A chunk ends only where it is full, where the mask changes, or with what was sent; nothing in it but its last block fills
      it. */
  lemma {:induction false} ItemIsMaximal(t: Tracker, stream: seq<Block>, full: seq<bool>, items: seq<Item>, n: nat, i: nat) returns (b: nat)
    requires |full| == |stream| && Sent(t, stream, full, items, n) && i < |items|
    ensures |items[i].blocks| <= b <= n <= |stream| && 0 < b && items[i].blocks == stream[b - |items[i].blocks|..b]
    ensures i + 1 == |items| ==> b == n
    ensures i + 1 < |items| ==> b < n && (full[b - 1] || stream[b].mask != stream[b - 1].mask)
    ensures forall j :: b - |items[i].blocks| <= j < b - 1 ==> !full[j]
    decreases |items|
  {
    hide TrackerAfter, ShortHash;
    var init, item := items[..|items| - 1], items[|items| - 1];
    if i < |items| - 1 {
      b := ItemIsMaximal(t, stream, full, init, n - |item.blocks|, i);
      assert init[i] == items[i];
      if i + 1 == |items| - 1 { assert Cut(stream, full, b); }
    } else {
      b := n;
    }
  }

  lemma {:induction false} LastItem(stream: seq<Block>, full: seq<bool>, item: Item, n: nat)
    requires |full| == |stream| && 0 < |item.blocks| <= n <= |stream| && item.blocks == stream[n - |item.blocks|..n]
    requires Together(stream, full, n - |item.blocks|, n) && item.chunk.last == stream[n - 1].number
    requires item.chunk.first <= stream[n - |item.blocks|].number
    requires forall i, j :: 0 <= i < j < |stream| ==> stream[i].number < stream[j].number
    ensures forall b :: b in item.blocks ==> b.mask == item.blocks[0].mask && item.chunk.first <= b.number <= item.chunk.last
  {
  }

  /** The tracker stands right behind the last block that was sent. */
  lemma {:induction false} SentNext(t: Tracker, stream: seq<Block>, full: seq<bool>, items: seq<Item>, n: nat)
    requires |full| == |stream| && Sent(t, stream, full, items, n)
    ensures n <= |stream| && TrackerAfter(t, items).NextBlock() == if n == 0 then t.NextBlock() else stream[n - 1].number + 1
  {
  }

  /** What is sent keeps tiling whatever layout the tracker started from. */
  lemma {:induction false} SentKeepsShape(t: Tracker, stream: seq<Block>, full: seq<bool>, items: seq<Item>, n: nat,
                                          shelves: seq<Shelf>, first: nat, size: nat)
    requires |full| == |stream| && Sent(t, stream, full, items, n) && Continues(stream, t)
    requires Shape(shelves, first, size) && Matches(t, shelves, first, size)
    ensures Shape(Stacked(shelves, ChunksOf(items)), first, size)
    ensures Matches(TrackerAfter(t, items), Stacked(shelves, ChunksOf(items)), first, size)
    ensures All(Stacked(shelves, ChunksOf(items))) == All(shelves) + ChunksOf(items)
  {
    hide All, Shape, Matches, AddChunk, Together, Sent, TrackerAfter, Continues, Stacked, ChunksOf;
    if items == [] {
      NothingStacked(t, shelves);
    } else {
      var init, item := items[..|items| - 1], items[|items| - 1];
      var before := Stacked(shelves, ChunksOf(init));
      SentLast(t, stream, full, items, n);
      SentKeepsShape(t, stream, full, init, n - |item.blocks|, shelves, first, size);
      SentNext(t, stream, full, init, n - |item.blocks|);
      SubmitFits(t, stream, n - |item.blocks|, n);
      IssuedFits(TrackerAfter(t, init), before, first, size, stream[n - 1].number, ShortHash(stream[n - 1].hash));
      AllAdded(before, item.chunk);
      StackedLast(shelves, items);
    }
  }

  /** A process that starts on the layout that another one left accepts exactly the blocks whose parent hash ends with the name
      of the last chunk, or has it behind its first two characters; so it accepts the block that comes next. */
  lemma {:induction false} RestartLinks(t: Tracker, stream: seq<Block>, full: seq<bool>, items: seq<Item>, n: nat,
                                        shelves: seq<Shelf>, first: nat, size: nat, t': Tracker, next: seq<Block>, continuity: bool)
    requires |full| == |stream| && Sent(t, stream, full, items, n) && Continues(stream, t) && items != []
    requires Shape(shelves, first, size) && Matches(t, shelves, first, size)
    requires Matches(t', Stacked(shelves, ChunksOf(items)), first, size) && next != []
    ensures 0 < n <= |stream|
    ensures Follows(t', next, continuity, 0) <==> exists name :: EndOf(stream[n - 1].hash, name) && Precedes(name, next[0].parentHash)
    ensures next[0].parentHash == stream[n - 1].hash ==> Follows(t', next, continuity, 0)
  {
    hide All, Shape, Together, Sent, TrackerAfter, Continues, Stacked, EndOf, MiddleOf;
    SentLast(t, stream, full, items, n);
    SentKeepsShape(t, stream, full, items, n, shelves, first, size);
    var hash, now := stream[n - 1].hash, Stacked(shelves, ChunksOf(items));
    ShapeIsShelved(now, first, size);
    CurrentEnds(now, first, size);
    var name := items[|items| - 1].chunk.hash;
    assert All(now)[|All(now)| - 1] == ChunksOf(items)[|items| - 1];
    assert t'.PrevHash() == Some(name);
    forall other ensures EndOf(hash, other) <==> other == name { ShortHashIsEnd(hash, other); }
  }

  lemma {:induction false} ShapeIsShelved(shelves: seq<Shelf>, first: nat, size: nat)
    requires Shape(shelves, first, size)
    ensures Shelved(shelves, first, size)
  {
  }

  lemma {:induction false} NothingStacked(t: Tracker, shelves: seq<Shelf>)
    ensures ChunksOf([]) == [] && TrackerAfter(t, []) == t && Stacked(shelves, []) == shelves && All(shelves) + [] == All(shelves)
  {
  }

  lemma {:induction false} StackedLast(shelves: seq<Shelf>, items: seq<Item>)
    requires items != []
    ensures var init, c := items[..|items| - 1], items[|items| - 1].chunk;
            && ChunksOf(items) == ChunksOf(init) + [c]
            && Stacked(shelves, ChunksOf(items)) == AddChunk(Stacked(shelves, ChunksOf(init)), c)
  {
  }

  function Stacked(shelves: seq<Shelf>, chunks: seq<Chunk>): seq<Shelf> {
    if chunks == [] then shelves else AddChunk(Stacked(shelves, chunks[..|chunks| - 1]), chunks[|chunks| - 1])
  }
}
