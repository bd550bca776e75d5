/** Chunk directories grouped under top directories, and the scans over them (crates/archive/src/layout.rs). */
module ArchiveLayout {
  import opened Options

  const MAX_BLOCK: nat := 0xFFFF_FFFF_FFFF_FFFF

  /** A chunk directory: its block range, the short hash of its last block, and the top directory it lies in. */
  datatype Chunk = Chunk(first: nat, last: nat, hash: string, top: nat)

  /** A top directory with its chunks, as listed and sorted. */
  datatype Shelf = Shelf(top: nat, chunks: seq<Chunk>)

  function All(shelves: seq<Shelf>): seq<Chunk> {
    if shelves == [] then [] else All(shelves[..|shelves| - 1]) + shelves[|shelves| - 1].chunks
  }

  lemma {:induction false} AllJoin(a: seq<Shelf>, b: seq<Shelf>)
    ensures All(a + b) == All(a) + All(b)
  {
    if b == [] {
      assert a + b == a;
    } else {
      assert (a + b)[..|a + b| - 1] == a + b[..|b| - 1];
      AllJoin(a, b[..|b| - 1]);
    }
  }

  lemma {:induction false} AllOne(s: Shelf)
    ensures All([s]) == s.chunks
  {
  }

  // ---- listings in order ----

  ghost predicate Ordered(chunks: seq<Chunk>) {
    && (forall i :: 0 <= i < |chunks| ==> chunks[i].first <= chunks[i].last)
    && (forall i, j :: 0 <= i < j < |chunks| ==> chunks[i].last < chunks[j].first)
  }

  /** Chunks lie at or above their top directory's name and below the next one. */
  ghost predicate Laid(shelves: seq<Shelf>) {
    && (forall i, j :: 0 <= i < j < |shelves| ==> shelves[i].top < shelves[j].top)
    && (forall i :: 0 <= i < |shelves| ==> Ordered(shelves[i].chunks))
    && (forall i, c :: 0 <= i < |shelves| && c in shelves[i].chunks ==> shelves[i].top <= c.first)
    && (forall i, c :: 0 <= i < |shelves| - 1 && c in shelves[i].chunks ==> c.last < shelves[i + 1].top)
  }

  predicate Overlaps(c: Chunk, first: nat, last: nat) {
    c.first <= last && first <= c.last
  }

  ghost predicate HasBlock(c: Chunk, n: nat) {
    c.first <= n <= c.last
  }

  /** A chunk overlaps a range if and only if they have a block in common. */
  lemma {:induction false} OverlapIsShared(c: Chunk, first: nat, last: nat)
    requires c.first <= c.last && first <= last
    ensures Overlaps(c, first, last) <==> exists n: nat :: HasBlock(c, n) && first <= n <= last
  {
    if Overlaps(c, first, last) {
      var n := if c.first < first then first else c.first;
      assert HasBlock(c, n);
    }
  }

  /** The chunks that overlap a block range, in order. */
  function Overlapping(chunks: seq<Chunk>, first: nat, last: nat): seq<Chunk> {
    if chunks == [] then []
    else
      var c := chunks[|chunks| - 1];
      Overlapping(chunks[..|chunks| - 1], first, last) + if Overlaps(c, first, last) then [c] else []
  }

  lemma {:induction false} OverlappingJoin(a: seq<Chunk>, b: seq<Chunk>, first: nat, last: nat)
    ensures Overlapping(a + b, first, last) == Overlapping(a, first, last) + Overlapping(b, first, last)
  {
    if b == [] {
      assert a + b == a;
    } else {
      assert (a + b)[..|a + b| - 1] == a + b[..|b| - 1];
      OverlappingJoin(a, b[..|b| - 1], first, last);
    }
  }

  lemma {:induction false} NoneOverlap(chunks: seq<Chunk>, first: nat, last: nat)
    requires forall c :: c in chunks ==> !Overlaps(c, first, last)
    ensures Overlapping(chunks, first, last) == []
  {
    if chunks != [] { NoneOverlap(chunks[..|chunks| - 1], first, last); }
  }

  lemma {:induction false} InAll(shelves: seq<Shelf>, c: Chunk) returns (i: nat)
    requires c in All(shelves)
    ensures i < |shelves| && c in shelves[i].chunks
  {
    if c in shelves[|shelves| - 1].chunks {
      i := |shelves| - 1;
    } else {
      i := InAll(shelves[..|shelves| - 1], c);
    }
  }

  /** Nothing from shelf `i` on reaches down to `last`. */
  lemma {:induction false} BeyondShelf(shelves: seq<Shelf>, i: nat, first: nat, last: nat)
    requires Laid(shelves) && i < |shelves| && last < shelves[i].top
    ensures Overlapping(All(shelves[i..]), first, last) == []
  {
    forall c | c in All(shelves[i..]) ensures !Overlaps(c, first, last) {
      var k := InAll(shelves[i..], c);
      assert shelves[i..][k] == shelves[i + k] && shelves[i].top <= shelves[i + k].top;
    }
    NoneOverlap(All(shelves[i..]), first, last);
  }

  lemma {:induction false} LaterChunks(chunks: seq<Chunk>, k: nat, first: nat, last: nat)
    requires Ordered(chunks) && k < |chunks| && last < chunks[k].first
    ensures Overlapping(chunks, first, last) == Overlapping(chunks[..k], first, last)
  {
    hide Overlapping;
    forall d | d in chunks[k..] ensures !Overlaps(d, first, last) {
      var j :| k <= j < |chunks| && chunks[j] == d;
      assert j == k || chunks[k].last < chunks[j].first;
    }
    NoneOverlap(chunks[k..], first, last);
    assert chunks == chunks[..k] + chunks[k..];
    OverlappingJoin(chunks[..k], chunks[k..], first, last);
  }

  /** Appends the chunks of one top directory that overlap; `done` means that no later one can. */
  method ScanShelf(chunks: seq<Chunk>, first: nat, last: nat) returns (r: seq<Chunk>, done: bool)
    requires Ordered(chunks)
    ensures r == Overlapping(chunks, first, last)
    ensures done ==> exists c :: c in chunks && last < c.first
  {
    r, done := [], false;
    for k := 0 to |chunks|
      invariant r == Overlapping(chunks[..k], first, last) && !done
    {
      var c := chunks[k];
      assert chunks[..k + 1][..k] == chunks[..k];
      if last < c.first {
        LaterChunks(chunks, k, first, last);
        return r, true;
      }
      if !(first > c.last) { r := r + [c]; }
    }
    assert chunks[..|chunks|] == chunks;
  }

  function End(last: Option<nat>): nat {
    if last.Some? then last.value else MAX_BLOCK
  }

  /** The chunks asked for by a range, which may be empty. */
  function Wanted(shelves: seq<Shelf>, first: nat, last: Option<nat>): seq<Chunk> {
    if first > End(last) then [] else Overlapping(All(shelves), first, End(last))
  }

  lemma {:induction false} OverlappingAre(chunks: seq<Chunk>, first: nat, last: nat)
    ensures forall c :: c in Overlapping(chunks, first, last) <==> c in chunks && Overlaps(c, first, last)
    ensures Ordered(chunks) ==> Ordered(Overlapping(chunks, first, last))
  {
    if chunks != [] {
      var n := |chunks| - 1;
      var init := chunks[..n];
      OverlappingAre(init, first, last);
      assert chunks == init + [chunks[n]];
      if Ordered(chunks) {
        OrderedInit(chunks);
        assert forall c :: c in init ==> c.last < chunks[n].first;
      }
    }
  }

  lemma {:induction false} OrderedInit(chunks: seq<Chunk>)
    requires Ordered(chunks) && chunks != []
    ensures Ordered(chunks[..|chunks| - 1])
  {
  }

  lemma {:induction false} LaidIsOrdered(shelves: seq<Shelf>, k: nat)
    requires Laid(shelves) && k <= |shelves|
    ensures Ordered(All(shelves[..k]))
    ensures forall c :: c in All(shelves[..k]) && k < |shelves| ==> c.last < shelves[k].top
  {
    if k > 0 {
      LaidIsOrdered(shelves, k - 1);
      assert shelves[..k][..k - 1] == shelves[..k - 1];
      var before, mine := All(shelves[..k - 1]), shelves[k - 1].chunks;
      assert All(shelves[..k]) == before + mine;
      hide All;
      OrderedJoin(before, mine, shelves[k - 1].top);
      if k < |shelves| {
        forall c | c in before ensures c.last < shelves[k].top { assert shelves[k - 1].top < shelves[k].top; }
      }
    }
  }

  lemma {:induction false} OrderedJoin(a: seq<Chunk>, b: seq<Chunk>, top: nat)
    requires Ordered(a) && Ordered(b) && (forall c :: c in a ==> c.last < top) && (forall c :: c in b ==> top <= c.first)
    ensures Ordered(a + b)
  {
    var s := a + b;
    forall i, j | 0 <= i < j < |s| ensures s[i].last < s[j].first {
      if i < |a| <= j { assert a[i] in a && b[j - |a|] in b; }
    }
  }

  /** Asked for are exactly the chunks that have a block in the range, in order. */
  lemma {:induction false} WantedIsExact(shelves: seq<Shelf>, first: nat, last: Option<nat>)
    requires Laid(shelves)
    ensures Ordered(Wanted(shelves, first, last))
    ensures forall c :: c in Wanted(shelves, first, last) <==>
                        c in All(shelves) && exists n: nat :: HasBlock(c, n) && first <= n <= End(last)
  {
    LaidIsOrdered(shelves, |shelves|);
    assert shelves[..|shelves|] == shelves;
    var all := All(shelves);
    hide All, Overlapping, Laid;
    OverlappingAre(all, first, End(last));
    if first <= End(last) {
      forall c | c in all ensures Overlaps(c, first, End(last)) <==> exists n: nat :: HasBlock(c, n) && first <= n <= End(last) {
        OverlapIsShared(c, first, End(last));
      }
    }
  }

  lemma {:induction false} ShelfStep(shelves: seq<Shelf>, i: nat, first: nat, last: nat)
    requires i < |shelves|
    ensures Overlapping(All(shelves[..i + 1]), first, last)
         == Overlapping(All(shelves[..i]), first, last) + Overlapping(shelves[i].chunks, first, last)
  {
    assert shelves[..i + 1][..i] == shelves[..i];
    OverlappingJoin(All(shelves[..i]), shelves[i].chunks, first, last);
  }

  lemma {:induction false} SplitAt(shelves: seq<Shelf>, i: nat, first: nat, last: nat)
    requires i <= |shelves|
    ensures Overlapping(All(shelves), first, last)
         == Overlapping(All(shelves[..i]), first, last) + Overlapping(All(shelves[i..]), first, last)
  {
    assert shelves == shelves[..i] + shelves[i..];
    AllJoin(shelves[..i], shelves[i..]);
    OverlappingJoin(All(shelves[..i]), All(shelves[i..]), first, last);
  }

  /** When a chunk of shelf `i` starts beyond `last`, so does every later shelf. */
  lemma {:induction false} LaterShelves(shelves: seq<Shelf>, i: nat, c: Chunk, first: nat, last: nat)
    requires Laid(shelves) && i < |shelves| && c in shelves[i].chunks && last < c.first
    ensures Overlapping(All(shelves[i + 1..]), first, last) == []
  {
    if i + 1 < |shelves| {
      assert c.first <= c.last;
      BeyondShelf(shelves, i + 1, first, last);
    }
  }

  /** All chunks that overlap `first..=last`, in ascending order. */
  method GetChunks(shelves: seq<Shelf>, first: nat, last: Option<nat>) returns (r: seq<Chunk>)
    requires Laid(shelves)
    ensures r == Wanted(shelves, first, last)
  {
    hide All, Overlapping, Ordered;
    var end := End(last);
    r := [];
    if first > end {
      return;
    }
    AllNothing(shelves, first, end);
    for i := 0 to |shelves|
      invariant r == Overlapping(All(shelves[..i]), first, end)
    {
      ShelfStep(shelves, i, first, end);
      if end < shelves[i].top {
        BeyondShelf(shelves, i, first, end);
        SplitAt(shelves, i, first, end);
        return;
      }
      if i + 1 < |shelves| && shelves[i + 1].top < first {
        NoneOverlap(shelves[i].chunks, first, end);
        continue;
      }
      var part, done := ScanShelf(shelves[i].chunks, first, end);
      r := r + part;
      if done {
        ghost var c :| c in shelves[i].chunks && end < c.first;
        LaterShelves(shelves, i, c, first, end);
        SplitAt(shelves, i + 1, first, end);
        return;
      }
    }
    assert shelves[..|shelves|] == shelves;
  }

  lemma {:induction false} AllNothing(shelves: seq<Shelf>, first: nat, last: nat)
    ensures Overlapping(All(shelves[..0]), first, last) == []
  {
  }

  // ---- descending scans ----

  function Reversed(chunks: seq<Chunk>): (r: seq<Chunk>)
    ensures |r| == |chunks| && forall i :: 0 <= i < |r| ==> r[i] == chunks[|chunks| - 1 - i]
  {
    seq(|chunks|, i requires 0 <= i < |chunks| => chunks[|chunks| - 1 - i])
  }

  lemma {:induction false} ReversedJoin(a: seq<Chunk>, b: seq<Chunk>)
    ensures Reversed(a + b) == Reversed(b) + Reversed(a)
  {
  }

  /** The same chunks of one top directory from the last one down. */
  method ScanShelfReversed(chunks: seq<Chunk>, first: nat, last: nat) returns (r: seq<Chunk>, done: bool)
    requires Ordered(chunks)
    ensures r == Reversed(Overlapping(chunks, first, last))
    ensures done ==> exists c :: c in chunks && c.last < first
  {
    hide Overlapping;
    r, done := [], false;
    var k := |chunks|;
    assert chunks[k..] == [] && Overlapping([], first, last) == [] by { NoneOverlap([], first, last); }
    while k > 0
      invariant 0 <= k <= |chunks| && r == Reversed(Overlapping(chunks[k..], first, last)) && !done
    {
      k := k - 1;
      var c := chunks[k];
      assert chunks[k..] == [c] + chunks[k + 1..];
      OverlappingJoin([c], chunks[k + 1..], first, last);
      OverlapsOne(c, first, last);
      ReversedJoin(Overlapping([c], first, last), Overlapping(chunks[k + 1..], first, last));
      if c.first > last {
        continue;
      }
      if c.last < first {
        EarlierChunks(chunks, k, first, last);
        return r, true;
      }
      r := r + [c];
    }
    assert chunks[0..] == chunks;
  }

  lemma {:induction false} OverlapsOne(c: Chunk, first: nat, last: nat)
    ensures Overlapping([c], first, last) == if Overlaps(c, first, last) then [c] else []
  {
  }

  lemma {:induction false} EarlierChunks(chunks: seq<Chunk>, k: nat, first: nat, last: nat)
    requires Ordered(chunks) && k < |chunks| && chunks[k].last < first
    ensures Overlapping(chunks, first, last) == Overlapping(chunks[k + 1..], first, last)
  {
    hide Overlapping;
    forall d | d in chunks[..k + 1] ensures !Overlaps(d, first, last) {
      var j :| 0 <= j <= k && chunks[j] == d;
      assert j == k || chunks[j].last < chunks[k].first;
    }
    NoneOverlap(chunks[..k + 1], first, last);
    assert chunks == chunks[..k + 1] + chunks[k + 1..];
    OverlappingJoin(chunks[..k + 1], chunks[k + 1..], first, last);
  }

  /** When a chunk of shelf `i` ends before `first`, so does every earlier shelf. */
  lemma {:induction false} EarlierShelves(shelves: seq<Shelf>, i: nat, c: Chunk, first: nat, last: nat)
    requires Laid(shelves) && i < |shelves| && c in shelves[i].chunks && c.last < first
    ensures Overlapping(All(shelves[..i]), first, last) == []
  {
    forall d | d in All(shelves[..i]) ensures !Overlaps(d, first, last) {
      var k := InAll(shelves[..i], d);
      assert d in shelves[k].chunks && d.last < shelves[k + 1].top;
      assert shelves[k + 1].top <= shelves[i].top <= c.first <= c.last;
    }
    NoneOverlap(All(shelves[..i]), first, last);
  }

  /** All chunks that overlap `first..=last`, in descending order. */
  method GetChunksInReversedOrder(shelves: seq<Shelf>, first: nat, last: Option<nat>) returns (r: seq<Chunk>)
    requires Laid(shelves)
    ensures r == Reversed(Wanted(shelves, first, last))
  {
    hide All, Overlapping, Ordered;
    var end := End(last);
    r := [];
    if first > end {
      return;
    }
    var i := |shelves|;
    AllNothing(shelves[i..], first, end);
    assert shelves[i..][..0] == shelves[i..];
    while i > 0
      invariant 0 <= i <= |shelves| && r == Reversed(Overlapping(All(shelves[i..]), first, end))
    {
      i := i - 1;
      ShelfBefore(shelves, i, first, end);
      ReversedJoin(Overlapping(shelves[i].chunks, first, end), Overlapping(All(shelves[i + 1..]), first, end));
      if shelves[i].top > end {
        NoneOverlap(shelves[i].chunks, first, end);
        continue;
      }
      var part, done := ScanShelfReversed(shelves[i].chunks, first, end);
      r := r + part;
      if done {
        ghost var c :| c in shelves[i].chunks && c.last < first;
        EarlierShelves(shelves, i, c, first, end);
        SplitAt(shelves, i, first, end);
        return;
      }
    }
    assert shelves[0..] == shelves;
  }

  lemma {:induction false} ShelfBefore(shelves: seq<Shelf>, i: nat, first: nat, last: nat)
    requires i < |shelves|
    ensures Overlapping(All(shelves[i..]), first, last)
         == Overlapping(shelves[i].chunks, first, last) + Overlapping(All(shelves[i + 1..]), first, last)
  {
    assert shelves[i..] == [shelves[i]] + shelves[i + 1..];
    AllJoin([shelves[i]], shelves[i + 1..]);
    AllOne(shelves[i]);
    OverlappingJoin(shelves[i].chunks, All(shelves[i + 1..]), first, last);
  }
}
