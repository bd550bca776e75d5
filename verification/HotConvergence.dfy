/** Closing the loop between an honest source and the model: request at the head, fork answer,
    resolution, re-request and replacement (crates/hotblocks-harness/src/sim.rs and model.rs). */
module HotConvergence {
  import opened HotLockstep
  import opened HotModel
  import opened HotSim
  import opened HotTypes
  import opened Options

  /** One round trip: ask for what follows the head and commit the answer. */
  ghost function Exchange(cfg: Config, s: Source, w: Window): Window
    requires cfg.start >= 1
  {
    match Respond(cfg, s, w.Next(), if w.seg == [] then w.anchor.hash else Some(w.seg[|w.seg| - 1].hash))
    case Blocks(blocks, fin) => Extended(w, blocks, fin)
    case Nothing(fin) => if fin.Some? then Finalized(w, fin.value) else w
    case Fork(hints) => AfterFork(cfg, s, w, ResolveFork(w, hints))
  }

  ghost function AfterFork(cfg: Config, s: Source, w: Window, r: Resolution): Window
    requires cfg.start >= 1
  {
    match r
    case Resume(from, parentHash) =>
      var again := Respond(cfg, s, from, parentHash);
      if again.Blocks? then Replaced(w, from, again.blocks, again.fin) else w
    case Rebootstrap(anchor) => Cleared(w, anchor)
    case _ => w
  }

  /** The source's chain shares exactly the first `k` blocks of the window. */
  ghost predicate ForkedAt(seg: seq<Block>, chain: seq<Block>, k: nat) {
    && k <= |seg| && k <= |chain| && seg[..k] == chain[..k]
    && forall i, j :: k <= i < |chain| && 0 <= j < |seg| ==> chain[i].hash != seg[j].hash
  }

  ghost predicate Minting(seg: seq<Block>, bound: nat) {
    forall i :: 0 <= i < |seg| ==> seg[i].hash == Minted(seg[i].number, seg[i].forkId) && seg[i].forkId < bound
  }

  ghost predicate FinalInPrefix(fin: Option<BlockRef>, seg: seq<Block>, k: nat)
    requires k <= |seg|
  {
    fin.Some? ==> k > 0 && fin.value.number <= seg[k - 1].number
  }

  /** How a window may stand to a source it followed: it shares a prefix that holds the window's
      finality, and whatever it has beyond belongs to branches the source has left for good. */
  ghost predicate Follows(cfg: Config, s: Source, w: Window, k: nat) {
    && Honest(cfg, s) && Wf(w)
    && w.anchor.number == cfg.start - 1
    && (w.anchor.hash.Some? ==> w.anchor.hash.value == cfg.AnchorHash())
    && (w.seg != [] ==> w.seg[0].number == cfg.start)
    && ForkedAt(w.seg, s.chain, k)
    && Minting(w.seg, if k < |w.seg| then s.forkId else s.nextForkId)
    && FinalInPrefix(w.fin, w.seg, k)
    && (w.fin.Some? ==> s.fin.Some? && w.fin.value.number <= s.fin.value.number)
  }

  ghost predicate Behind(s: Source, w: Window) {
    w.seg != [] && (s.chain == [] || s.chain[|s.chain| - 1].number < w.seg[|w.seg| - 1].number)
  }

  // ----- the request at the head -----

  lemma {:induction false} SilentWhenBehind(cfg: Config, s: Source, w: Window, k: nat)
    requires Follows(cfg, s, w, k) && Behind(s, w)
    ensures Respond(cfg, s, w.Next(), Some(w.seg[|w.seg| - 1].hash)) == Nothing(s.fin)
  {
    hide Linked, Numbered, Stamped, NamesStored, ForkedAt;
    assert w.seg[|w.seg| - 1].number >= cfg.start;
  }

  lemma {:induction false} PrefixOf(seg: seq<Block>, chain: seq<Block>)
    requires ForkedAt(seg, chain, |seg|)
    ensures chain == seg + chain[|seg|..]
  {
  }

  /** A source that only grew is followed by extension. */
  lemma {:induction false} GrowthIsExtended(cfg: Config, s: Source, w: Window)
    requires Follows(cfg, s, w, |w.seg|) && s.chain != w.seg
    ensures Respond(cfg, s, w.Next(), if w.seg == [] then w.anchor.hash else Some(w.seg[|w.seg| - 1].hash))
            == Blocks(s.chain[|w.seg|..], s.fin)
  {
    hide Linked, Numbered, Stamped, NamesStored, Minting, ForkedAt, Ascending, Respond;
    PrefixOf(w.seg, s.chain);
    StartsAt(cfg, s, w, |w.seg|);
    GrowthIsServed(cfg, s, |w.seg|, if w.seg == [] then w.anchor.hash else Some(w.seg[|w.seg| - 1].hash));
  }

  lemma {:induction false} GrowthIsServed(cfg: Config, s: Source, n: nat, parent: Option<Hash>)
    requires cfg.start >= 1 && Ascending(s.chain) && n < |s.chain| && s.chain[0].number == cfg.start
    requires parent.Some? ==> parent.value == if n == 0 then cfg.AnchorHash() else s.chain[n - 1].hash
    ensures Respond(cfg, s, if n == 0 then cfg.start else s.chain[n - 1].number + 1, parent) == Blocks(s.chain[n..], s.fin)
  {
    hide Below, HintsEndingAt, ChainHashAt, Ascending;
    PositionOf(cfg, s, n);
  }

  /** The position behind the first `n` blocks, and the hash the source knows there. */
  lemma {:induction false} PositionOf(cfg: Config, s: Source, n: nat)
    requires cfg.start >= 1 && Ascending(s.chain) && n < |s.chain| && s.chain[0].number == cfg.start
    ensures var c, from := s.chain, if n == 0 then cfg.start else s.chain[n - 1].number + 1;
            && Below(c, from) == n && cfg.start <= from <= c[|c| - 1].number
            && ChainHashAt(cfg, s, from - 1) == Some(if n == 0 then cfg.AnchorHash() else c[n - 1].hash)
  {
  }

  lemma {:induction false} QuietWhenEqual(cfg: Config, s: Source, w: Window)
    requires Follows(cfg, s, w, |w.seg|) && s.chain == w.seg
    ensures Respond(cfg, s, w.Next(), if w.seg == [] then w.anchor.hash else Some(w.seg[|w.seg| - 1].hash)) == Nothing(s.fin)
  {
    hide Linked, Stamped, NamesStored;
    if w.seg != [] {
      BelowIs(w.seg, w.Next(), |w.seg|);
    }
  }

  lemma {:induction false} SharedAt(seg: seq<Block>, chain: seq<Block>, k: nat, i: nat)
    requires ForkedAt(seg, chain, k) && i < k
    ensures seg[i] == chain[i]
  {
  }

  lemma {:induction false} SharedPrefix(seg: seq<Block>, chain: seq<Block>, k: nat, j: nat)
    requires ForkedAt(seg, chain, k) && j <= k
    ensures seg[..j] + chain[j..] == chain
  {
  }

  lemma {:induction false} LongerThanShared(cfg: Config, s: Source, w: Window, k: nat)
    requires Follows(cfg, s, w, k) && k < |w.seg| && !Behind(s, w)
    ensures k < |s.chain|
    ensures k <= Below(s.chain, w.Next()) && 0 < Below(s.chain, w.Next())
  {
    hide Linked, Stamped, NamesStored;
    var hi := Below(s.chain, w.Next());
    if k > 0 {
      SharedAt(w.seg, s.chain, k, k - 1);
      assert w.seg[k - 1].number < w.seg[|w.seg| - 1].number;
    } else {
      assert s.chain[0].number == cfg.start == w.seg[0].number <= w.seg[|w.seg| - 1].number;
    }
  }

  /** A source that left the window's branch and is not behind always says so. */
  lemma {:induction false} DivergenceIsSignalled(cfg: Config, s: Source, w: Window, k: nat)
    requires Follows(cfg, s, w, k) && k < |w.seg| && !Behind(s, w)
    ensures Respond(cfg, s, w.Next(), Some(w.seg[|w.seg| - 1].hash)) == Fork(ConflictHints(s.chain, w.Next() - 1))
  {
    hide Linked, Stamped, NamesStored;
    LongerThanShared(cfg, s, w, k);
    var head, i := |w.seg| - 1, Below(s.chain, w.Next()) - 1;
    if i < k {
      SharedAt(w.seg, s.chain, k, i);
      assert w.seg[i].number < w.seg[head].number;
      assert w.seg[i].hash != w.seg[head].hash;
    }
    assert s.chain[i].hash != w.seg[head].hash;
  }

  // ----- resolution -----

  /** A block of the source's chain is known to the window exactly when it is shared. */
  lemma {:induction false} KnownIffShared(cfg: Config, s: Source, w: Window, k: nat, i: nat)
    requires Follows(cfg, s, w, k) && i < |s.chain|
    ensures Knows(w, s.chain[i].Ref()) <==> i < k
  {
    hide Linked, NamesStored;
    var b := s.chain[i];
    var m := Below(w.seg, b.number + 1);
    assert b.number >= cfg.start;
    if i < k {
      SharedAt(w.seg, s.chain, k, i);
      BelowIs(w.seg, b.number + 1, i + 1);
    } else if m > 0 {
      assert b.hash != w.seg[m - 1].hash;
    } else {
      assert b.hash.Minted? && b.hash.number == b.number;
    }
  }

  /** The position right after the first `j` blocks of the window. */
  function After(w: Window, j: nat): Resolution
    requires j <= |w.seg|
  {
    if j == 0 then Resume(w.Floor(), w.anchor.hash) else Resume(w.seg[j - 1].number + 1, Some(w.seg[j - 1].hash))
  }

  lemma {:induction false} LastKnownIs(w: Window, hints: seq<BlockRef>, m: nat)
    requires m <= |hints| && forall i :: 0 <= i < |hints| ==> (Knows(w, hints[i]) <==> i < m)
    ensures LastKnown(w, hints) == if m == 0 then None else Some(hints[m - 1])
  {
  }

  /** Hints that are a run of the source's chain resolve to a shared position above finality:
      the last shared block if a hint names it, else the finalized block, else the floor. */
  lemma {:induction false} RunResolves(cfg: Config, s: Source, w: Window, k: nat, lo: nat, hi: nat) returns (j: nat)
    requires Follows(cfg, s, w, k) && lo < hi <= |s.chain| && k <= hi && k < |w.seg|
    ensures j <= k && FinalInPrefix(w.fin, w.seg, j) && (lo < k ==> j == k)
    ensures ResolveHints(w, Refs(s.chain[lo..hi])) == After(w, j)
  {
    hide Hangs, Numbered, Stamped, ForkedAt, Minting, Below, NamesStored, Knows;
    var hints := Refs(s.chain[lo..hi]);
    var m := if k <= lo then 0 else k - lo;
    forall i | 0 <= i < |hints| ensures hints[i] == s.chain[lo + i].Ref() && (Knows(w, hints[i]) <==> i < m) {
      KnownIffShared(cfg, s, w, k, lo + i);
    }
    LastKnownIs(w, hints, m);
    NoHintAtAnchor(cfg, s, w, k, lo, hi);
    if m > 0 {
      SharedAt(w.seg, s.chain, k, k - 1);
      j := k;
    } else if w.fin.Some? {
      var f := FinalIndex(w, k);
      j := f + 1;
    } else {
      j := 0;
    }
  }

  lemma {:induction false} NoHintAtAnchor(cfg: Config, s: Source, w: Window, k: nat, lo: nat, hi: nat)
    requires Follows(cfg, s, w, k) && lo < hi <= |s.chain|
    ensures HintAt(Refs(s.chain[lo..hi]), w.anchor.number).None?
  {
  }

  lemma {:induction false} FinalIndex(w: Window, k: nat) returns (i: nat)
    requires Wf(w) && w.fin.Some? && k <= |w.seg| && FinalInPrefix(w.fin, w.seg, k)
    ensures i < k && w.seg[i].Ref() == w.fin.value
  {
    hide Linked;
    i := Below(w.seg, w.fin.value.number);
  }

  lemma {:induction false} DropBelowRun(chain: seq<Block>, lo: nat, hi: nat, n: nat) returns (lo': nat)
    requires Ascending(chain) && lo < hi <= |chain| && chain[hi - 1].number >= n
    ensures lo <= lo' < hi && DropBelow(Refs(chain[lo..hi]), n) == Refs(chain[lo'..hi])
    ensures chain[lo'].number >= n && (lo < lo' ==> chain[lo' - 1].number < n)
  {
    hide DropBelow, Ascending, Refs;
    var hints := Refs(chain[lo..hi]);
    var r := DropBelow(hints, n);
    RefAt(chain, lo, hi, hi - 1);
    lo' := hi - |r|;
    RefsSuffix(chain, lo, lo', hi);
    RefAt(chain, lo, hi, lo');
    if lo < lo' { RefAt(chain, lo, hi, lo' - 1); }
  }

  lemma {:induction false} RefAt(chain: seq<Block>, lo: nat, hi: nat, i: nat)
    requires lo <= i < hi <= |chain|
    ensures Refs(chain[lo..hi])[i - lo] == chain[i].Ref()
  {
  }

  lemma {:induction false} RefsSuffix(chain: seq<Block>, lo: nat, mid: nat, hi: nat)
    requires lo <= mid <= hi <= |chain|
    ensures Refs(chain[lo..hi])[mid - lo..] == Refs(chain[mid..hi])
  {
  }

  /** The whole signal resolves there too, and behind the last shared block itself whenever that is among the blocks a signal
      carries. */
  lemma {:induction false} SignalResolves(cfg: Config, s: Source, w: Window, k: nat) returns (j: nat)
    requires Follows(cfg, s, w, k) && k < |w.seg| && !Behind(s, w)
    ensures j <= k && FinalInPrefix(w.fin, w.seg, j)
    ensures 0 < k && Below(s.chain, w.Next()) < k + CONFLICT_WINDOW ==> j == k
    ensures ResolveFork(w, ConflictHints(s.chain, w.Next() - 1)) == After(w, j)
  {
    hide Follows, Behind, ResolveFork, Below, Refs, FinalInPrefix, After, Ascending;
    LongerThanShared(cfg, s, w, k);
    StartsAt(cfg, s, w, k);
    var hi := Below(s.chain, w.Next());
    var lo := if hi <= CONFLICT_WINDOW then 0 else hi - CONFLICT_WINDOW;
    assert w.Next() - 1 + 1 == w.Next();
    assert ConflictHints(s.chain, w.Next() - 1) == Refs(s.chain[lo..hi]);
    j := HintsResolve(cfg, s, w, k, lo, hi);
  }

  lemma {:induction false} HintsResolve(cfg: Config, s: Source, w: Window, k: nat, lo: nat, hi: nat) returns (j: nat)
    requires Follows(cfg, s, w, k) && lo < hi <= |s.chain| && k <= hi && k < |w.seg|
    ensures j <= k && FinalInPrefix(w.fin, w.seg, j) && (lo < k ==> j == k)
    ensures ResolveFork(w, Refs(s.chain[lo..hi])) == After(w, j)
  {
    hide Follows, ResolveHints, Ascending, DropBelow, RefsAscend, Refs, FinalInPrefix, After;
    StartsAt(cfg, s, w, k);
    RunAscends(s.chain, lo, hi);
    if w.fin.Some? {
      var lo' := FinalCut(cfg, s, w, k, lo, hi);
      j := RunResolves(cfg, s, w, k, lo', hi);
    } else {
      j := RunResolves(cfg, s, w, k, lo, hi);
    }
  }

  lemma {:induction false} RunAscends(chain: seq<Block>, lo: nat, hi: nat)
    requires Ascending(chain) && lo < hi <= |chain|
    ensures RefsAscend(Refs(chain[lo..hi])) && |Refs(chain[lo..hi])| == hi - lo
  {
  }

  /** Dropping the hints below finality leaves a run that does not contradict the finalized block. */
  lemma {:induction false} FinalCut(cfg: Config, s: Source, w: Window, k: nat, lo: nat, hi: nat) returns (lo': nat)
    requires Follows(cfg, s, w, k) && w.fin.Some? && k <= hi && lo < hi <= |s.chain|
    ensures lo' < hi && (lo < k ==> lo' < k) && DropBelow(Refs(s.chain[lo..hi]), w.fin.value.number) == Refs(s.chain[lo'..hi])
    ensures s.chain[lo'].number == w.fin.value.number ==> s.chain[lo'].hash == w.fin.value.hash
    ensures Refs(s.chain[lo'..hi])[0] == s.chain[lo'].Ref()
  {
    hide Linked, Numbered, Stamped, Minting, Below, NamesStored;
    var f := FinalIndex(w, k);
    SharedAt(w.seg, s.chain, k, f);
    assert s.chain[f].number <= s.chain[hi - 1].number;
    lo' := DropBelowRun(s.chain, lo, hi, w.fin.value.number);
    assert s.chain[lo'].number == w.fin.value.number ==> lo' == f;
  }

  // ----- the re-request and the commit -----

  lemma {:induction false} SharedPositionIsServed(cfg: Config, s: Source, w: Window, k: nat, j: nat)
    requires Follows(cfg, s, w, k) && j <= k < |w.seg| && k < |s.chain|
    ensures After(w, j).Resume?
    ensures Respond(cfg, s, After(w, j).from, After(w, j).parentHash) == Blocks(s.chain[j..], s.fin)
    ensures Below(s.chain, After(w, j).from) == j && Below(w.seg, After(w, j).from) == j
  {
    hide Linked, Stamped, NamesStored, Below, Minting, Respond;
    var from := After(w, j).from;
    if j > 0 { SharedAt(w.seg, s.chain, k, j - 1); }
    GrowthIsServed(cfg, s, j, After(w, j).parentHash);
    PositionOf(cfg, s, j);
    BelowIs(w.seg, from, j);
  }

  lemma {:induction false} SharedPositionFits(cfg: Config, s: Source, w: Window, k: nat, j: nat)
    requires Follows(cfg, s, w, k) && j <= k < |w.seg| && k < |s.chain| && FinalInPrefix(w.fin, w.seg, j)
    ensures Spliced(w.seg, After(w, j).from, s.chain[j..]) == s.chain
    ensures Fits(w, After(w, j).from, s.chain[j..])
  {
    hide Linked, Stamped, Numbered, Minting, RefsUpTo, Below, Respond, NamesStored;
    SharedPositionIsServed(cfg, s, w, k, j);
    var c, from := s.chain, After(w, j).from;
    SharedPrefix(w.seg, c, k, j);
    hide ForkedAt;
    WeakerAnchor(cfg, w.anchor, c);
    StartsAt(cfg, s, w, k);
    if j > 0 {
      SharedAt(w.seg, c, k, j - 1);
      assert c[j - 1].number < c[j].number;
    }
    if w.fin.Some? {
      RefsKeptByFork(w.seg, from, c[j..], w.fin.value.number);
    }
  }

  lemma {:induction false} StartsAt(cfg: Config, s: Source, w: Window, k: nat)
    requires Follows(cfg, s, w, k)
    ensures s.chain != [] ==> s.chain[0].number == cfg.start
    ensures Ascending(s.chain) && Ascending(w.seg)
  {
  }

  /** The source's own finality never contradicts the chain it serves. */
  lemma {:induction false} SourceFinalityApplies(s: Source, fin: Option<BlockRef>)
    requires Ascending(s.chain) && NamesStored(s.chain, s.fin)
    requires fin.Some? ==> s.fin.Some? && fin.value.number <= s.fin.value.number
    ensures !Contradicts(s.chain, fin, s.fin) && Advanced(s.chain, fin, s.fin) == s.fin
  {
  }

  lemma {:induction false} ForkConverges(cfg: Config, s: Source, w: Window, k: nat)
    requires Follows(cfg, s, w, k) && k < |w.seg| && !Behind(s, w)
    ensures Exchange(cfg, s, w).seg == s.chain && Exchange(cfg, s, w).fin == s.fin
    ensures Exchange(cfg, s, w).anchor == w.anchor
  {
    hide Linked, Ascending, Stamped, Numbered, ForkedAt, Minting, RefsUpTo, Below, BlockAt, Respond, ResolveFork, ConflictHints, After, Spliced, FinalityOf, Reported;
    DivergenceIsSignalled(cfg, s, w, k);
    LongerThanShared(cfg, s, w, k);
    var j := SignalResolves(cfg, s, w, k);
    SharedPositionIsServed(cfg, s, w, k, j);
    SharedPositionFits(cfg, s, w, k, j);
    SourceFinalityApplies(s, w.fin);
  }

  lemma {:induction false} GrowthConverges(cfg: Config, s: Source, w: Window)
    requires Follows(cfg, s, w, |w.seg|)
    ensures Exchange(cfg, s, w).seg == s.chain && Exchange(cfg, s, w).fin == s.fin
    ensures Exchange(cfg, s, w).anchor == w.anchor
  {
    hide Linked, Ascending, Stamped, Numbered, Minting, RefsUpTo, Below, BlockAt, Respond, FinalityOf, Reported;
    PrefixOf(w.seg, s.chain);
    WeakerAnchor(cfg, w.anchor, s.chain);
    SourceFinalityApplies(s, w.fin);
    if s.chain == w.seg {
      QuietWhenEqual(cfg, s, w);
      if s.fin.Some? { WatermarkIsMonotone(w.seg, w.fin, s.fin.value); }
    } else {
      GrowthIsExtended(cfg, s, w);
    }
  }

  /** One round trip makes the window the source's chain, finality included, if and only if the
      source is not behind the window's head; if it is behind, the window keeps its blocks. No
      hint needs to be common. */
  lemma {:induction false} Converges(cfg: Config, s: Source, w: Window, k: nat)
    requires Follows(cfg, s, w, k)
    ensures Exchange(cfg, s, w).seg == s.chain <==> !Behind(s, w)
    ensures !Behind(s, w) ==> Exchange(cfg, s, w).fin == s.fin
    ensures Behind(s, w) ==> Exchange(cfg, s, w).seg == w.seg
  {
    hide Respond, ResolveFork, Wf, Honest, ForkedAt, Minting, FinalInPrefix;
    if Behind(s, w) {
      SilentWhenBehind(cfg, s, w, k);
    } else if k < |w.seg| {
      ForkConverges(cfg, s, w, k);
    } else {
      SharedLength(cfg, s, w, k);
      GrowthConverges(cfg, s, w);
    }
  }

  lemma {:induction false} SharedLength(cfg: Config, s: Source, w: Window, k: nat)
    requires Follows(cfg, s, w, k)
    ensures k <= |w.seg|
  {
  }
}
