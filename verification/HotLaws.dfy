/** What the reference model decides (crates/hotblocks-harness/src/model.rs), said about the stored blocks alone and without
    the functions that compute it. */
module HotLaws {
  import opened HotModel
  import opened HotSim
  import opened HotTypes
  import opened Options

  // ----- positions -----

  /** Some block is stored at or below position `n`. */
  ghost predicate Reaches(seg: seq<Block>, n: nat) {
    exists i :: 0 <= i < |seg| && seg[i].number <= n
  }

  /** No stored block at or below position `n` is above block `i`, which is one of them. */
  ghost predicate Highest(seg: seq<Block>, i: nat, n: nat) {
    i < |seg| && seg[i].number <= n && forall j :: 0 <= j < |seg| && seg[j].number <= n ==> seg[j].number <= seg[i].number
  }

  /** The chain of the window has this hash at position `n`; below the first block that is the anchor's, if it is known. */
  ghost predicate OnChain(w: Window, n: nat, hash: Hash) {
    if Reaches(w.seg, n) then exists i: nat :: Highest(w.seg, i, n) && i < |w.seg| && w.seg[i].hash == hash
    else w.anchor.number <= n && w.anchor.hash == Some(hash)
  }

  lemma {:induction false} BelowIff(seg: seq<Block>, n: nat)
    requires Ascending(seg)
    ensures forall i :: 0 <= i < |seg| ==> (seg[i].number < n <==> i < Below(seg, n))
  {
    var k := Below(seg, n);
    forall i | k <= i < |seg| ensures seg[i].number >= n { NotBelow(seg, n, i); }
  }

  lemma {:induction false} BelowIsHighest(seg: seq<Block>, n: nat)
    requires Ascending(seg)
    ensures Below(seg, n + 1) > 0 <==> Reaches(seg, n)
    ensures Below(seg, n + 1) > 0 ==> Highest(seg, Below(seg, n + 1) - 1, n)
  {
    BelowIff(seg, n + 1);
    hide Below;
    var m := Below(seg, n + 1);
    if m > 0 { assert seg[m - 1].number <= n; }
  }

  lemma {:induction false} HighestOne(seg: seq<Block>, i: nat, k: nat, n: nat)
    requires Ascending(seg) && Highest(seg, i, n) && Highest(seg, k, n)
    ensures i == k
  {
    assert seg[i].number == seg[k].number;
  }

  lemma {:induction false} HashAtIsExact(w: Window, n: nat, hash: Hash)
    requires Ascending(w.seg)
    ensures w.HashAt(n) == Some(hash) <==> OnChain(w, n, hash)
  {
    hide Below, Highest, Reaches, Ascending;
    BelowIsHighest(w.seg, n);
    if Reaches(w.seg, n) {
      var k := Below(w.seg, n + 1) - 1;
      if OnChain(w, n, hash) {
        var i: nat :| Highest(w.seg, i, n) && i < |w.seg| && w.seg[i].hash == hash;
        HighestOne(w.seg, i, k, n);
      }
    }
  }

  // ----- fork resolution -----

  /** The hints that are left when those below finality are dropped. */
  ghost predicate Relevant(w: Window, hints: seq<BlockRef>, h: BlockRef) {
    h in hints && (w.fin.Some? ==> w.fin.value.number <= h.number)
  }

  /** The signal is all below finality, or names another block at the finalized position. */
  ghost predicate ContradictsFinal(w: Window, hints: seq<BlockRef>) {
    w.fin.Some? &&
    ((forall h :: h in hints ==> h.number < w.fin.value.number)
     || exists h :: h in hints && h.number == w.fin.value.number && h.hash != w.fin.value.hash)
  }

  ghost predicate ContradictsAnchor(w: Window, hints: seq<BlockRef>, h: BlockRef) {
    && w.fin.None? && w.anchor.hash.Some?
    && h in hints && h.number == w.anchor.number && h.hash != w.anchor.hash.value
  }

  ghost predicate Known(w: Window, hints: seq<BlockRef>, h: BlockRef) {
    Relevant(w, hints, h) && OnChain(w, h.number, h.hash)
  }

  /** The known hint with the greatest number. */
  ghost predicate Best(w: Window, hints: seq<BlockRef>, h: BlockRef) {
    Known(w, hints, h) && forall g :: Known(w, hints, g) ==> g.number <= h.number
  }

  ghost predicate AllRelevant(w: Window, hints: seq<BlockRef>, kept: seq<BlockRef>) {
    RefsAscend(kept) && forall h :: h in kept <==> Relevant(w, hints, h)
  }

  /** A signal is refused if it is malformed or contradicts finality, starts over if it contradicts the anchor, and otherwise
      resumes behind the highest known hint. Only if no hint is known does it resume behind the finalized block or, without
      one, at the floor. */
  ghost predicate Resolves(w: Window, hints: seq<BlockRef>, r: Resolution) {
    if hints == [] || !RefsAscend(hints) then r == Malformed
    else if ContradictsFinal(w, hints) then r == Unapplicable
    else if exists h :: ContradictsAnchor(w, hints, h) then
      exists h :: ContradictsAnchor(w, hints, h) && r == Rebootstrap(Anchor(h.number, Some(h.hash)))
    else if exists h :: Known(w, hints, h) then
      exists h :: Best(w, hints, h) && r == Resume(h.number + 1, Some(h.hash))
    else if w.fin.Some? then r == Resume(w.fin.value.number + 1, Some(w.fin.value.hash))
    else r == Resume(if w.seg == [] then w.anchor.number + 1 else w.seg[0].number, w.anchor.hash)
  }

  /** Every window answers every signal as it should. */
  lemma {:induction false} ForkIsResolved(w: Window, hints: seq<BlockRef>)
    requires Wf(w)
    ensures Resolves(w, hints, ResolveFork(w, hints))
  {
    hide Wf, Best, Known, ContradictsFinal, ContradictsAnchor, RefsAscend, HintAt, LastKnown, DropBelow;
    if hints != [] && RefsAscend(hints) {
      var kept := if w.fin.Some? then DropBelow(hints, w.fin.value.number) else hints;
      KeptAreRelevant(w, hints, kept);
      hide AllRelevant;
      FinalIsContradicted(w, hints, kept);
      if !ContradictsFinal(w, hints) { HintsResolve(w, hints, kept); }
    }
  }

  lemma {:induction false} HintsResolve(w: Window, hints: seq<BlockRef>, kept: seq<BlockRef>)
    requires Wf(w) && hints != [] && RefsAscend(hints) && AllRelevant(w, hints, kept) && !ContradictsFinal(w, hints)
    ensures Resolves(w, hints, ResolveHints(w, kept))
  {
    hide Wf, Best, Known, ContradictsFinal, ContradictsAnchor, RefsAscend, HintAt, LastKnown, AllRelevant;
    AnchorIsContradicted(w, hints, kept);
    HintsAreResolved(w, hints, kept);
    var r, at, known := ResolveHints(w, kept), HintAt(kept, w.anchor.number), LastKnown(w, kept);
    if w.anchor.hash.Some? && at.Some? && at.value.hash != w.anchor.hash.value {
      assert r == Rebootstrap(Anchor(at.value.number, Some(at.value.hash)));
    } else if known.Some? {
      assert r == Resume(known.value.number + 1, Some(known.value.hash));
    }
  }

  lemma {:induction false} KeptAreRelevant(w: Window, hints: seq<BlockRef>, kept: seq<BlockRef>)
    requires hints != [] && RefsAscend(hints) && kept == if w.fin.Some? then DropBelow(hints, w.fin.value.number) else hints
    ensures AllRelevant(w, hints, kept)
  {
    var cut := |hints| - |kept|;
    assert kept == hints[cut..];
    forall h | Relevant(w, hints, h) ensures h in kept {
      var i :| 0 <= i < |hints| && hints[i] == h;
      assert i >= cut;
      assert kept[i - cut] == h;
    }
  }

  lemma {:induction false} FinalIsContradicted(w: Window, hints: seq<BlockRef>, kept: seq<BlockRef>)
    requires AllRelevant(w, hints, kept)
    ensures ContradictsFinal(w, hints) <==>
            w.fin.Some? && (kept == [] || (kept[0].number == w.fin.value.number && kept[0].hash != w.fin.value.hash))
  {
    if w.fin.Some? {
      if kept == [] {
        forall h | h in hints ensures h.number < w.fin.value.number {
          assert h in kept <==> Relevant(w, hints, h);
        }
      } else {
        assert kept[0] in kept;
        if h :| h in hints && h.number == w.fin.value.number && h.hash != w.fin.value.hash {
          assert h in kept;
          assert h == kept[0];
        }
      }
    }
  }

  lemma {:induction false} AnchorIsContradicted(w: Window, hints: seq<BlockRef>, kept: seq<BlockRef>)
    requires Wf(w) && AllRelevant(w, hints, kept)
    ensures var at := HintAt(kept, w.anchor.number);
            && ((exists h :: ContradictsAnchor(w, hints, h))
                <==> w.anchor.hash.Some? && at.Some? && at.value.hash != w.anchor.hash.value)
            && (w.anchor.hash.Some? && at.Some? && at.value.hash != w.anchor.hash.value ==> ContradictsAnchor(w, hints, at.value))
  {
    hide Linked;
    var at := HintAt(kept, w.anchor.number);
    if w.fin.Some? {
      FinalAboveAnchor(w);
    }
    if at.Some? { assert Relevant(w, hints, at.value); }
    forall h | ContradictsAnchor(w, hints, h) ensures at == Some(h) {
      assert h in kept;
      SameNumber(kept, h, at.value);
    }
  }

  lemma {:induction false} SameNumber(hints: seq<BlockRef>, g: BlockRef, h: BlockRef)
    requires RefsAscend(hints) && g in hints && h in hints && g.number == h.number
    ensures g == h
  {
    var i :| 0 <= i < |hints| && hints[i] == g;
    var j :| 0 <= j < |hints| && hints[j] == h;
    assert i == j;
  }

  lemma {:induction false} FinalAboveAnchor(w: Window)
    requires Wf(w) && w.fin.Some?
    ensures w.fin.value.number > w.anchor.number
  {
    assert w.seg[0].number <= BlockAt(w.seg, w.fin.value.number).value.number;
  }

  lemma {:induction false} HintsAreResolved(w: Window, hints: seq<BlockRef>, kept: seq<BlockRef>)
    requires Wf(w) && AllRelevant(w, hints, kept)
    ensures var known := LastKnown(w, kept);
            && (known.Some? <==> exists h :: Known(w, hints, h))
            && (known.Some? ==> Best(w, hints, known.value))
  {
    hide OnChain, Window.HashAt, LastKnown;
    var known := LastKnown(w, kept);
    forall h ensures Knows(w, h) <==> OnChain(w, h.number, h.hash) { HashAtIsExact(w, h.number, h.hash); }
    if known.Some? {
      var i :| 0 <= i < |kept| && kept[i] == known.value && Knows(w, kept[i])
               && forall j :: i < j < |kept| ==> !Knows(w, kept[j]);
      assert kept[i] in kept;
      assert Known(w, hints, known.value);
      forall g | Known(w, hints, g) ensures g.number <= known.value.number {
        assert g in kept;
        var j :| 0 <= j < |kept| && kept[j] == g;
        assert j <= i;
      }
    } else {
      forall h ensures !Known(w, hints, h) { assert h in kept <==> Relevant(w, hints, h); }
    }
  }

  // ----- finality -----

  /** A report is about the stored block of its number, or about the head if it is above it. */
  ghost predicate About(seg: seq<Block>, r: BlockRef, b: Block) {
    && b in seg && b.number <= r.number
    && (b.number == r.number || forall c :: c in seg ==> c.number <= b.number < r.number)
  }

  /** A report about no stored block, or about one below the watermark or at it, changes nothing; one that names another hash
      for a stored block is a fault; every other makes the block it is about final. */
  lemma {:induction false} FinalityIsExact(seg: seq<Block>, fin: Option<BlockRef>, r: BlockRef)
    requires Ascending(seg) && NamesStored(seg, fin)
    ensures FinalityOf(seg, fin, r).IntegrityFault? <==>
            exists b :: About(seg, r, b) && b.number == r.number && b.hash != r.hash && (fin.Some? ==> fin.value.number <= b.number)
    ensures forall b :: About(seg, r, b) && (b.number == r.number ==> b.hash == r.hash) && (fin.Some? ==> fin.value.number <= b.number)
                        ==> Watermark(seg, fin, r) == Some(b.Ref())
    ensures (forall b :: About(seg, r, b) ==> fin.Some? && b.number < fin.value.number) ==> Watermark(seg, fin, r) == fin
  {
    var t := Reported(seg, r);
    if t.Some? {
      assert About(seg, r, t.value);
      forall b | About(seg, r, b) ensures b == t.value { AboutOne(seg, r, b, t.value); }
    } else {
      forall b | About(seg, r, b) ensures false { NoneReported(seg, r, b); }
    }
  }

  lemma {:induction false} AboutOne(seg: seq<Block>, r: BlockRef, b: Block, c: Block)
    requires Ascending(seg) && About(seg, r, b) && About(seg, r, c)
    ensures b == c
  {
    var i :| 0 <= i < |seg| && seg[i] == b;
    var j :| 0 <= j < |seg| && seg[j] == c;
    assert b.number == c.number;
  }

  lemma {:induction false} NoneReported(seg: seq<Block>, r: BlockRef, b: Block)
    requires Ascending(seg) && About(seg, r, b)
    ensures Reported(seg, r).Some?
  {
    var i :| 0 <= i < |seg| && seg[i] == b;
    if b.number == r.number {
      BlockAtIndex(seg, i);
    }
  }

  /** A replacement that is accepted never leaves its own report behind: if the window had a block of the reported number above
      the watermark, and the new head is not below it, then that reference is final afterwards. */
  lemma {:induction false} AcceptedReportApplies(w: Window, from: nat, blocks: seq<Block>, r: BlockRef)
    requires Wf(w) && ReplaceAccepts(w, from, blocks, Some(r))
    requires (w.fin.Some? ==> w.fin.value.number < r.number) && exists b :: b in w.seg && b.number == r.number
    requires r.number <= blocks[|blocks| - 1].number
    ensures Replaced(w, from, blocks, Some(r)).fin == Some(r)
  {
    hide Linked, RefsUpTo;
    var seg' := Spliced(w.seg, from, blocks);
    var b :| b in w.seg && b.number == r.number;
    var i :| 0 <= i < |w.seg| && w.seg[i] == b;
    BlockAtIndex(w.seg, i);
    assert seg'[|seg'| - 1] == blocks[|blocks| - 1];
  }

  // ----- retention -----

  /** A bound inside the window, whose hash, if given, is that of the last block below it. */
  ghost predicate Trims(w: Window, from: nat, hash: Option<Hash>) {
    && w.seg != [] && w.seg[0].number < from <= w.seg[|w.seg| - 1].number + 1
    && (hash.Some? ==> exists i: nat, n: nat :: n + 1 == from && Highest(w.seg, i, n) && i < |w.seg| && w.seg[i].hash == hash.value)
  }

  /** A bound that leaves the window as it is: at the floor without a contradicting hash, or below an empty window. */
  ghost predicate Spares(w: Window, from: nat, hash: Option<Hash>) {
    var floor := if w.seg == [] then w.anchor.number + 1 else w.seg[0].number;
    || (from == floor && (hash.None? || w.anchor.hash.None? || hash == w.anchor.hash))
    || (w.seg == [] && from < floor)
  }

  /** A bound inside the window keeps exactly the blocks at or above it, anchored on the block before them, and the watermark if
      it is among them; one that neither trims nor spares the window starts over right below the bound. */
  lemma {:induction false} RetentionIsExact(w: Window, from: nat, hash: Option<Hash>)
    requires Wf(w) && from >= 1
    ensures var r := Retained(w, from, hash);
            && (Spares(w, from, hash) ==> r == w)
            && (Trims(w, from, hash) ==>
                  && CutBefore(w.seg, from, r.seg, r.anchor)
                  && (forall b :: b in r.seg <==> b in w.seg && b.number >= from)
                  && r.fin == if w.fin.Some? && w.fin.value.number >= from then w.fin else None)
            && (!Spares(w, from, hash) && !Trims(w, from, hash) ==>
                  r.seg == [] && r.fin == None && r.anchor == Anchor(from - 1, hash))
            && (!Spares(w, from, hash) ==> r.ver == w.ver + 1)
  {
    hide Linked, NamesStored, Highest, Ascending, Below, Reaches;
    if w.seg != [] && w.seg[0].number < from <= w.seg[|w.seg| - 1].number + 1 {
      var k, n: nat := Below(w.seg, from), from - 1;
      BelowIsHighest(w.seg, n);
      FirstReaches(w.seg, n);
      KeptAbove(w.seg, from);
      if hash.Some? && hash.value != w.seg[k - 1].hash {
        forall i: nat | Highest(w.seg, i, n) ensures i == k - 1 { HighestOne(w.seg, i, k - 1, n); }
        assert !Trims(w, from, hash);
      } else {
        assert n + 1 == from && Highest(w.seg, k - 1, n);
        var r := Retained(w, from, hash);
        assert r.seg == w.seg[k..] && r.anchor == Anchor(w.seg[k - 1].number, Some(w.seg[k - 1].hash));
        assert CutBefore(w.seg, from, r.seg, r.anchor);
      }
    }
  }

  lemma {:induction false} FirstReaches(seg: seq<Block>, n: nat)
    requires seg != [] && seg[0].number <= n
    ensures Reaches(seg, n)
  {
  }

  /** `rest` is what follows the last block below `from`, which is the anchor. */
  ghost predicate CutBefore(seg: seq<Block>, from: nat, rest: seq<Block>, anchor: Anchor) {
    exists k: nat :: 0 < k <= |seg| && rest == seg[k..] && seg[k - 1].number < from
                     && anchor == Anchor(seg[k - 1].number, Some(seg[k - 1].hash))
  }

  lemma {:induction false} KeptAbove(seg: seq<Block>, from: nat)
    requires Ascending(seg)
    ensures forall b :: b in seg[Below(seg, from)..] <==> b in seg && b.number >= from
  {
    BelowIff(seg, from);
    hide Below, Ascending;
    var k := Below(seg, from);
    forall b ensures b in seg[k..] <==> b in seg && b.number >= from {
      if b in seg && b.number >= from {
        var i :| 0 <= i < |seg| && seg[i] == b;
        assert seg[k..][i - k] == b;
      }
      if b in seg[k..] {
        var i :| 0 <= i < |seg[k..]| && seg[k..][i] == b;
        assert seg[k + i] == b;
      }
    }
  }

  // ----- queries -----

  /** The last number a query may cover. */
  ghost predicate Tip(w: Window, finalizedOnly: bool, n: nat) {
    if finalizedOnly then w.fin.Some? && n == w.fin.value.number else w.seg != [] && n == w.seg[|w.seg| - 1].number
  }

  ghost predicate Unavailable(w: Window, from: nat) {
    w.seg != [] && from < w.seg[0].number
  }

  /** The client's parent hash is not that of the window's chain at position `n`, which is known. */
  ghost predicate Diverged(w: Window, n: nat, expected: Option<Hash>) {
    expected.Some? && !OnChain(w, n, expected.value) && exists h :: OnChain(w, n, h)
  }

  /** Every query of every well-formed window: below the window it is refused; up to one position behind the tip a parent hash
      off the chain is a conflict; up to the tip it is covered, never beyond the tip nor the asked end; a finalized query thus
      never covers a number above the watermark. */
  lemma {:induction false} QueryIsPredicted(w: Window, from: nat, to: Option<nat>, finalizedOnly: bool, expected: Option<Hash>)
    requires Wf(w)
    ensures var p := PredictQuery(w, from, to, finalizedOnly, expected);
            && (p.RangeUnavailable? <==> Unavailable(w, from))
            && (p.Conflict? <==> !Unavailable(w, from) && 0 < from && Diverged(w, from - 1, expected)
                                 && exists t: nat :: Tip(w, finalizedOnly, t) && from <= t + 1)
            && (p.Covered? <==> !Unavailable(w, from) && (0 < from ==> !Diverged(w, from - 1, expected))
                                && exists t: nat :: Tip(w, finalizedOnly, t) && from <= t)
            && (p.Covered? ==> exists t: nat :: Tip(w, finalizedOnly, t) && p.hi <= t && (p.hi == t || to == Some(p.hi)))
            && (p.Covered? && to.Some? ==> p.hi <= to.value)
            && (p.Conflict? ==> Ancestors(w.seg, from, p.hints))
  {
    hide Linked, OnChain, Diverged, Window.HashAt, ConflictHints;
    if !Unavailable(w, from) && (if finalizedOnly then w.fin.Some? else w.seg != []) {
      var t := TipNumber(w, finalizedOnly);
      ParentIsExact(w, from, expected);
      AncestorsAre(w.seg, from);
      TipHash(w, finalizedOnly, t);
    }
  }

  lemma {:induction false} TipNumber(w: Window, finalizedOnly: bool) returns (t: nat)
    requires Wf(w) && if finalizedOnly then w.fin.Some? else w.seg != []
    ensures Tip(w, finalizedOnly, t) && w.seg != [] && w.seg[0].number > 0
  {
    t := if finalizedOnly then w.fin.value.number else w.seg[|w.seg| - 1].number;
  }

  lemma {:induction false} ParentIsExact(w: Window, from: nat, expected: Option<Hash>)
    requires Ascending(w.seg) && from > 0
    ensures Diverged(w, from - 1, expected) <==> expected.Some? && w.HashAt(from - 1).Some? && w.HashAt(from - 1) != expected
  {
    hide OnChain, Window.HashAt;
    var n: nat := from - 1;
    forall h ensures w.HashAt(n) == Some(h) <==> OnChain(w, n, h) { HashAtIsExact(w, n, h); }
    if w.HashAt(n).Some? { assert OnChain(w, n, w.HashAt(n).value); }
  }

  /** At its own number the tip is the chain. */
  lemma {:induction false} TipHash(w: Window, finalizedOnly: bool, t: nat)
    requires Wf(w) && Tip(w, finalizedOnly, t)
    ensures w.HashAt(t) == Some(if finalizedOnly then w.fin.value.hash else w.seg[|w.seg| - 1].hash)
  {
    hide Linked;
    var i := if finalizedOnly then Below(w.seg, t) else |w.seg| - 1;
    BelowIs(w.seg, t + 1, i + 1);
  }

  lemma {:induction false} AncestorsAre(seg: seq<Block>, from: nat)
    requires Ascending(seg) && from > 0
    ensures Ancestors(seg, from, ConflictHints(seg, from - 1))
  {
    assert from - 1 + 1 == from;
    var hi := Below(seg, from);
    var lo := if hi <= CONFLICT_WINDOW then 0 else hi - CONFLICT_WINDOW;
    BelowIff(seg, from);
    assert ConflictHints(seg, from - 1) == Refs(seg[lo..hi]);
  }

  /** What a query emits is exactly the stored blocks in its range, in order. */
  lemma {:induction false} EmissionIsExact(seg: seq<Block>, from: nat, to: nat)
    requires Ascending(seg)
    ensures Ascending(BlocksIn(seg, from, to))
    ensures forall b :: b in BlocksIn(seg, from, to) <==> b in seg && from <= b.number <= to
  {
    forall b ensures b in BlocksIn(seg, from, to) <==> b in seg && from <= b.number <= to { EmittedIff(seg, from, to, b); }
  }

  lemma {:induction false} EmittedIff(seg: seq<Block>, from: nat, to: nat, b: Block)
    requires Ascending(seg)
    ensures b in BlocksIn(seg, from, to) <==> b in seg && from <= b.number <= to
  {
    if from <= to {
      BelowGrows(seg, from, to + 1);
      BelowIff(seg, from);
      BelowIff(seg, to + 1);
      hide Below, Ascending;
      var lo, hi := Below(seg, from), Below(seg, to + 1);
      if b in seg[lo..hi] {
        var i :| 0 <= i < hi - lo && seg[lo..hi][i] == b;
        assert seg[lo + i] == b;
      }
      if b in seg && from <= b.number <= to {
        var i :| 0 <= i < |seg| && seg[i] == b;
        assert seg[lo..hi][i - lo] == b;
      }
    }
  }

  /** The hints are the last stored blocks below `from`, as many as fit. */
  ghost predicate Ancestors(seg: seq<Block>, from: nat, hints: seq<BlockRef>) {
    exists lo: nat, hi: nat :: lo <= hi <= |seg| && hints == Refs(seg[lo..hi]) && (lo == 0 || hi - lo == CONFLICT_WINDOW)
                     && hi - lo <= CONFLICT_WINDOW && (forall i :: 0 <= i < |seg| ==> (seg[i].number < from <==> i < hi))
  }

  // ----- the source -----

  /** The source's chain has this hash at position `n`, which is not above its tip; right below the start it is the anchor's. */
  ghost predicate OnSource(cfg: Config, s: Source, n: nat, hash: Hash)
    requires cfg.start >= 1
  {
    && (s.chain == [] || n <= s.chain[|s.chain| - 1].number)
    && if Reaches(s.chain, n) then exists i: nat :: Highest(s.chain, i, n) && i < |s.chain| && s.chain[i].hash == hash
       else n + 1 == cfg.start && hash == cfg.AnchorHash()
  }

  lemma {:induction false} ChainHashIsExact(cfg: Config, s: Source, n: nat, hash: Hash)
    requires cfg.start >= 1 && Ascending(s.chain)
    ensures ChainHashAt(cfg, s, n) == Some(hash) <==> OnSource(cfg, s, n, hash)
  {
    hide Below, Highest, Reaches, Ascending;
    BelowIsHighest(s.chain, n);
    if Reaches(s.chain, n) {
      var k := Below(s.chain, n + 1) - 1;
      if OnSource(cfg, s, n, hash) {
        var i: nat :| Highest(s.chain, i, n) && i < |s.chain| && s.chain[i].hash == hash;
        HighestOne(s.chain, i, k, n);
      }
    }
  }

  /** The parent hash is not that of the source's chain at position `n`. */
  ghost predicate Strays(cfg: Config, s: Source, n: nat, parent: Option<Hash>)
    requires cfg.start >= 1
  {
    parent.Some? && exists h :: OnSource(cfg, s, n, h) && h != parent.value
  }

  lemma {:induction false} StraysIs(cfg: Config, s: Source, n: nat, parent: Option<Hash>)
    requires cfg.start >= 1 && Ascending(s.chain)
    ensures Strays(cfg, s, n, parent) <==> parent.Some? && ChainHashAt(cfg, s, n).Some? && ChainHashAt(cfg, s, n) != parent
  {
    hide OnSource, ChainHashAt, Ascending;
    forall h ensures ChainHashAt(cfg, s, n) == Some(h) <==> OnSource(cfg, s, n, h) { ChainHashIsExact(cfg, s, n, h); }
    if ChainHashAt(cfg, s, n).Some? { assert OnSource(cfg, s, n, ChainHashAt(cfg, s, n).value); }
  }

  /** The hints are the last ancestors, or else the anchor. */
  ghost predicate Explains(cfg: Config, s: Source, n: nat, hints: seq<BlockRef>)
    requires cfg.start >= 1
  {
    if Reaches(s.chain, n) then Ancestors(s.chain, n + 1, hints) else hints == [BlockRef(cfg.start - 1, cfg.AnchorHash())]
  }

  lemma {:induction false} HintsExplain(cfg: Config, s: Source, n: nat)
    requires cfg.start >= 1 && Ascending(s.chain)
    ensures Explains(cfg, s, n, HintsEndingAt(cfg, s, n))
  {
    hide Below, ConflictHints, Reaches, Ancestors;
    BelowIsHighest(s.chain, n);
    AncestorsAre(s.chain, n + 1);
  }

  /** A parent hash off the source's chain is answered with a fork; any other request with all blocks from its position on, or
      with nothing if there are none. */
  lemma {:induction false} SourceAnswers(cfg: Config, s: Source, from: nat, parent: Option<Hash>)
    requires Honest(cfg, s)
    ensures var r, at := Respond(cfg, s, from, parent), if from == 0 then 0 else from - 1;
            var open := cfg.start <= from && s.chain != [] && from <= s.chain[|s.chain| - 1].number;
            if Strays(cfg, s, at, parent) then r.Fork? && Explains(cfg, s, at, r.hints)
            else if open then r.Blocks? && r.fin == s.fin && From(s.chain, from, r.blocks)
            else r == Nothing(s.fin)
  {
    hide Linked, Numbered, Stamped, NamesStored, Strays, ChainHashAt, Below, HintsEndingAt, Explains, Ascending, From;
    var at := if from == 0 then 0 else from - 1;
    StraysIs(cfg, s, at, parent);
    HintsExplain(cfg, s, at);
    FromIs(s.chain, from);
  }

  /** The blocks at or above `from`, in order. */
  ghost predicate From(chain: seq<Block>, from: nat, blocks: seq<Block>) {
    Ascending(blocks) && forall b :: b in blocks <==> b in chain && b.number >= from
  }

  lemma {:induction false} FromIs(chain: seq<Block>, from: nat)
    requires Ascending(chain)
    ensures From(chain, from, chain[Below(chain, from)..])
  {
    hide Below;
    KeptAbove(chain, from);
  }
}
