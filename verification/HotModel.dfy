/** The reference model of one hot dataset (crates/hotblocks-harness/src/model.rs): a window of
    linked blocks over an anchor, with a finalized watermark. `Window` is its abstract state and
    `Model` the object whose methods update that state in place. */
module HotModel {
  import opened HotTypes
  import opened Options

  datatype Window = Window(seg: seq<Block>, anchor: Anchor, fin: Option<BlockRef>, ver: nat)
  {
    function Next(): nat {
      if seg == [] then anchor.number + 1 else seg[|seg| - 1].number + 1
    }

    function Floor(): nat {
      if seg == [] then anchor.number + 1 else seg[0].number
    }

    /** The chain hash at a position: of the highest stored block at or below it, else the anchor's. */
    function HashAt(n: nat): Option<Hash> {
      var i := Below(seg, n + 1);
      if i > 0 then Some(seg[i - 1].hash)
      else if n >= anchor.number then anchor.hash
      else None
    }
  }

  datatype Finality = Applied | Ignored | IntegrityFault

  datatype Resolution =
    | Resume(from: nat, parentHash: Option<Hash>)
    | Rebootstrap(anchor: Anchor)
    | Unapplicable
    | Malformed

  datatype Predicted = Covered(hi: nat) | NoData | RangeUnavailable | Conflict(hints: seq<BlockRef>)

  // ----- invariants -----

  /** INV-5 and INV-6: the watermark names a stored block. */
  ghost predicate NamesStored(seg: seq<Block>, fin: Option<BlockRef>) {
    fin.Some? ==> BlockAt(seg, fin.value.number).Some? && BlockAt(seg, fin.value.number).value.Ref() == fin.value
  }

  ghost predicate Wf(w: Window) {
    Hangs(w.anchor, w.seg) && NamesStored(w.seg, w.fin)
  }

  // ----- finality -----

  /** The stored block a finality report speaks about: the head when the report is above it,
      otherwise the block numbered exactly so. */
  function Reported(seg: seq<Block>, r: BlockRef): Option<Block> {
    if seg == [] then None
    else if r.number > seg[|seg| - 1].number then Some(seg[|seg| - 1])
    else BlockAt(seg, r.number)
  }

  function FinalityOf(seg: seq<Block>, fin: Option<BlockRef>, r: BlockRef): Finality {
    var t := Reported(seg, r);
    if t.None? || (fin.Some? && t.value.number < fin.value.number) then Ignored
    else if r.number == t.value.number && r.hash != t.value.hash then IntegrityFault
    else if fin == Some(t.value.Ref()) then Ignored
    else Applied
  }

  function Watermark(seg: seq<Block>, fin: Option<BlockRef>, r: BlockRef): Option<BlockRef> {
    if FinalityOf(seg, fin, r).Applied? then Some(Reported(seg, r).value.Ref()) else fin
  }

  predicate Contradicts(seg: seq<Block>, fin: Option<BlockRef>, report: Option<BlockRef>) {
    report.Some? && FinalityOf(seg, fin, report.value).IntegrityFault?
  }

  function Advanced(seg: seq<Block>, fin: Option<BlockRef>, report: Option<BlockRef>): Option<BlockRef> {
    if report.Some? then Watermark(seg, fin, report.value) else fin
  }

  lemma {:induction false} WatermarkIsMonotone(seg: seq<Block>, fin: Option<BlockRef>, r: BlockRef)
    requires Ascending(seg) && NamesStored(seg, fin)
    ensures NamesStored(seg, Watermark(seg, fin, r))
    ensures fin.Some? ==> Watermark(seg, fin, r).Some? && fin.value.number <= Watermark(seg, fin, r).value.number
    ensures Watermark(seg, fin, r) != fin <==> FinalityOf(seg, fin, r).Applied?
  {
    if FinalityOf(seg, fin, r).Applied? {
      var t := Reported(seg, r).value;
      var i :| 0 <= i < |seg| && seg[i] == t;
      BlockAtIndex(seg, i);
    }
  }

  // ----- the two commits -----

  /** An extension is accepted exactly when it leaves a chain and no finality report contradicts it. */
  ghost predicate ExtendAccepts(w: Window, blocks: seq<Block>, report: Option<BlockRef>) {
    && blocks != []
    && Hangs(w.anchor, w.seg + blocks)
    && !Contradicts(w.seg + blocks, w.fin, report)
  }

  ghost function Extended(w: Window, blocks: seq<Block>, report: Option<BlockRef>): Window {
    if ExtendAccepts(w, blocks, report)
    then w.(seg := w.seg + blocks, fin := Advanced(w.seg + blocks, w.fin, report), ver := w.ver + 1)
    else w
  }

  function Spliced(seg: seq<Block>, from: nat, blocks: seq<Block>): seq<Block> {
    seg[..Below(seg, from)] + blocks
  }

  /** The commit would drop, without a substitute, the very block that it reports as final. */
  predicate Evicts(seg: seq<Block>, fin: Option<BlockRef>, seg': seq<Block>, report: Option<BlockRef>)
    requires seg' != []
  {
    && report.Some?
    && report.value.number <= seg'[|seg'| - 1].number
    && (fin.Some? ==> fin.value.number < report.value.number)
    && BlockAt(seg, report.value.number).Some?
    && BlockAt(seg', report.value.number).None?
  }

  /** A replacement is accepted exactly when it stays inside the window, leaves a chain and keeps
      every reference at or below the finalized watermark. */
  ghost predicate ReplaceAccepts(w: Window, from: nat, blocks: seq<Block>, report: Option<BlockRef>) {
    && Fits(w, from, blocks)
    && var seg' := Spliced(w.seg, from, blocks);
    && !Evicts(w.seg, w.fin, seg', report)
    && !Contradicts(seg', w.fin, report)
  }

  ghost predicate Fits(w: Window, from: nat, blocks: seq<Block>) {
    && w.seg != [] && blocks != []
    && w.seg[0].number <= from <= blocks[0].number
    && var seg' := Spliced(w.seg, from, blocks);
    && Hangs(w.anchor, seg')
    && (w.fin.Some? ==> RefsUpTo(seg', w.fin.value.number) == RefsUpTo(w.seg, w.fin.value.number))
  }

  ghost function Replaced(w: Window, from: nat, blocks: seq<Block>, report: Option<BlockRef>): Window {
    if ReplaceAccepts(w, from, blocks, report)
    then var seg' := Spliced(w.seg, from, blocks);
         w.(seg := seg', fin := Advanced(seg', w.fin, report), ver := w.ver + 1)
    else w
  }

  function Finalized(w: Window, r: BlockRef): Window {
    if FinalityOf(w.seg, w.fin, r).Applied?
    then w.(fin := Watermark(w.seg, w.fin, r), ver := w.ver + 1)
    else w
  }

  // ----- re-anchoring -----

  function Cleared(w: Window, anchor: Anchor): Window {
    Window([], anchor, None, w.ver + 1)
  }

  /** What a retention bound leaves: nothing changes at the floor, a bound inside the window trims
      it, and a bound outside the window or a contradicting hash starts over below the bound. */
  function Retained(w: Window, from: nat, hash: Option<Hash>): Window
    requires from >= 1
  {
    var floor := w.Floor();
    if from == floor && hash.Some? && w.anchor.hash.Some? && hash != w.anchor.hash then
      Cleared(w, Anchor(from - 1, hash))
    else if from == floor || (w.seg == [] && from < floor) then w
    else if from < floor || w.seg == [] || from > w.Next() then Cleared(w, Anchor(from - 1, hash))
    else
      var drop := Below(w.seg, from);
      var base := w.seg[drop - 1];
      if hash.Some? && hash.value != base.hash then Cleared(w, Anchor(from - 1, hash))
      else Window(w.seg[drop..], Anchor(base.number, Some(base.hash)),
                  if w.fin.Some? && w.fin.value.number < from then None else w.fin, w.ver + 1)
  }

  // ----- fork resolution and queries -----

  predicate RefsAscend(hints: seq<BlockRef>) {
    forall i, j :: 0 <= i < j < |hints| ==> hints[i].number < hints[j].number
  }

  function DropBelow(hints: seq<BlockRef>, n: nat): (r: seq<BlockRef>)
    ensures |r| <= |hints| && r == hints[|hints| - |r|..]
    ensures r != [] ==> r[0].number >= n
    ensures forall i :: 0 <= i < |hints| - |r| ==> hints[i].number < n
  {
    if hints == [] || hints[0].number >= n then hints else DropBelow(hints[1..], n)
  }

  predicate Knows(w: Window, h: BlockRef) {
    w.HashAt(h.number) == Some(h.hash)
  }

  /** The highest hint on the stored chain or at the anchor. */
  function LastKnown(w: Window, hints: seq<BlockRef>): (r: Option<BlockRef>)
    ensures r.None? ==> forall i :: 0 <= i < |hints| ==> !Knows(w, hints[i])
    ensures r.Some? ==> exists i :: 0 <= i < |hints| && hints[i] == r.value && Knows(w, hints[i])
                                    && forall j :: i < j < |hints| ==> !Knows(w, hints[j])
  {
    hide Knows;
    if hints == [] then None
    else if Knows(w, hints[|hints| - 1]) then Some(hints[|hints| - 1])
    else
      var r := LastKnown(w, hints[..|hints| - 1]);
      assert forall i :: 0 <= i < |hints| - 1 ==> hints[..|hints| - 1][i] == hints[i];
      r
  }

  /** The first hint numbered `n`. */
  function HintAt(hints: seq<BlockRef>, n: nat): (r: Option<BlockRef>)
    ensures r.Some? ==> r.value in hints && r.value.number == n
    ensures r.None? ==> forall h :: h in hints ==> h.number != n
  {
    if hints == [] then None
    else if hints[0].number == n then Some(hints[0])
    else HintAt(hints[1..], n)
  }

  function ResolveHints(w: Window, hints: seq<BlockRef>): Resolution {
    var atAnchor := HintAt(hints, w.anchor.number);
    var known := LastKnown(w, hints);
    if w.anchor.hash.Some? && atAnchor.Some? && atAnchor.value.hash != w.anchor.hash.value then
      Rebootstrap(Anchor(w.anchor.number, Some(atAnchor.value.hash)))
    else if known.Some? then Resume(known.value.number + 1, Some(known.value.hash))
    else if w.fin.Some? then Resume(w.fin.value.number + 1, Some(w.fin.value.hash))
    else Resume(w.Floor(), w.anchor.hash)
  }

  /** Where a fork signal puts the write position. */
  function ResolveFork(w: Window, hints: seq<BlockRef>): Resolution {
    if hints == [] || !RefsAscend(hints) then Malformed
    else if w.fin.None? then ResolveHints(w, hints)
    else
      var kept := DropBelow(hints, w.fin.value.number);
      if kept == [] || (kept[0].number == w.fin.value.number && kept[0].hash != w.fin.value.hash)
      then Unapplicable
      else ResolveHints(w, kept)
  }

  /** The stored ancestors a conflict carries, ending at the position `at`. */
  function ConflictHints(seg: seq<Block>, at: nat): (r: seq<BlockRef>)
    ensures |r| <= CONFLICT_WINDOW
  {
    var hi := Below(seg, at + 1);
    Refs(seg[if hi <= CONFLICT_WINDOW then 0 else hi - CONFLICT_WINDOW..hi])
  }

  function PredictQuery(w: Window, from: nat, to: Option<nat>, finalizedOnly: bool, expected: Option<Hash>): Predicted
    requires Wf(w)
  {
    var tip := if finalizedOnly then w.fin else if w.seg == [] then None else Some(w.seg[|w.seg| - 1].Ref());
    if w.seg != [] && from < w.seg[0].number then RangeUnavailable
    else if expected.Some? && tip.Some? && from == tip.value.number + 1 && expected.value != tip.value.hash then
      Conflict(ConflictHints(w.seg, from - 1))
    else if tip.None? || from > tip.value.number then NoData
    else if expected.Some? && w.HashAt(from - 1).Some? && w.HashAt(from - 1) != expected then
      Conflict(ConflictHints(w.seg, from - 1))
    else Covered(if to.Some? && to.value < tip.value.number then to.value else tip.value.number)
  }

  function BlocksIn(seg: seq<Block>, from: nat, to: nat): seq<Block> {
    if to < from then [] else
      var lo, hi := Below(seg, from), Below(seg, to + 1);
      if lo <= hi then seg[lo..hi] else []
  }

  // ----- the object -----

  lemma {:induction false} BelowSpliced(seg: seq<Block>, from: nat, blocks: seq<Block>, n: nat)
    requires Ascending(Spliced(seg, from, blocks)) && Ascending(blocks) && from <= n
    ensures Below(Spliced(seg, from, blocks), n) == Below(seg, from) + Below(blocks, n)
  {
    var keep, mb := Below(seg, from), Below(blocks, n);
    BelowIs(Spliced(seg, from, blocks), n, keep + mb);
  }

  lemma {:induction false} RefsConcat(a: seq<Block>, b: seq<Block>)
    ensures Refs(a + b) == Refs(a) + Refs(b)
  {
  }

  lemma {:induction false} BelowGrows(s: seq<Block>, m: nat, n: nat)
    requires m <= n
    ensures Below(s, m) <= Below(s, n)
  {
  }

  lemma {:induction false} SamePrefixRefs(seg: seq<Block>, k: nat, m: nat, blocks: seq<Block>, mb: nat)
    requires k <= m <= |seg| && mb <= |blocks|
    ensures Refs((seg[..k] + blocks)[..k + mb]) == Refs(seg[..m]) <==> Refs(seg[k..m]) == Refs(blocks[..mb])
  {
    assert (seg[..k] + blocks)[..k + mb] == seg[..k] + blocks[..mb];
    assert seg[..m] == seg[..k] + seg[k..m];
    RefsConcat(seg[..k], blocks[..mb]);
    RefsConcat(seg[..k], seg[k..m]);
  }

  /** The element-wise check of a replay is the declarative one: every finalized reference is kept. */
  lemma {:induction false} ReplayKeepsFinalized(seg: seq<Block>, from: nat, blocks: seq<Block>, f: nat)
    requires Ascending(seg) && Ascending(blocks) && Ascending(Spliced(seg, from, blocks))
    requires blocks != [] && from <= blocks[0].number
    ensures Below(seg, from) <= Below(seg, f + 1) || f < from
    ensures RefsUpTo(Spliced(seg, from, blocks), f) == RefsUpTo(seg, f)
       <==> (from <= f ==> Refs(seg[Below(seg, from)..Below(seg, f + 1)]) == Refs(blocks[..Below(blocks, f + 1)]))
  {
    hide Below;
    var keep, m := Below(seg, from), Below(seg, f + 1);
    var seg' := Spliced(seg, from, blocks);
    if from <= f {
      BelowGrows(seg, from, f + 1);
      BelowSpliced(seg, from, blocks, f + 1);
      SamePrefixRefs(seg, keep, m, blocks, Below(blocks, f + 1));
    } else {
      BelowIs(seg', f + 1, m);
      assert seg'[..m] == seg[..m];
    }
  }

  lemma {:induction false} KeptPrefixNamesStored(seg: seq<Block>, seg': seq<Block>, fin: Option<BlockRef>)
    requires Ascending(seg) && Ascending(seg') && NamesStored(seg, fin)
    requires fin.Some? ==> RefsUpTo(seg', fin.value.number) == RefsUpTo(seg, fin.value.number)
    ensures NamesStored(seg', fin)
  {
    if fin.Some? {
      var n := fin.value.number;
      var i := Below(seg, n);
      BelowIs(seg, n + 1, i + 1);
      assert |RefsUpTo(seg', n)| == Below(seg', n + 1) == i + 1;
      assert RefsUpTo(seg', n)[i] == seg'[i].Ref();
      assert RefsUpTo(seg, n)[i] == seg[i].Ref();
      BlockAtIndex(seg', i);
    }
  }

  /** The same for chains that hang on the anchor. */
  lemma {:induction false} ReplayIsExact(anchor: Anchor, seg: seq<Block>, from: nat, blocks: seq<Block>, f: nat)
    requires Hangs(anchor, seg) && Ascending(blocks) && Hangs(anchor, Spliced(seg, from, blocks))
    requires blocks != [] && from <= blocks[0].number
    ensures Below(seg, from) <= Below(seg, f + 1) || f < from
    ensures RefsUpTo(Spliced(seg, from, blocks), f) == RefsUpTo(seg, f)
       <==> (from <= f ==> Refs(seg[Below(seg, from)..Below(seg, f + 1)]) == Refs(blocks[..Below(blocks, f + 1)]))
  {
    hide Below, Refs, Spliced, Linked;
    ReplayKeepsFinalized(seg, from, blocks, f);
  }

  /** The linkage checks of a replacement, one by one, are those of the spliced chain. */
  lemma {:induction false} SplicedHangs(anchor: Anchor, seg: seq<Block>, from: nat, blocks: seq<Block>)
    requires Hangs(anchor, seg) && seg != [] && blocks != [] && seg[0].number <= from <= blocks[0].number
    ensures var keep := Below(seg, from);
            Hangs(anchor, Spliced(seg, from, blocks)) <==>
            && Ascending(blocks) && Linked(blocks)
            && (keep > 0 ==> blocks[0].parentNumber == seg[keep - 1].number && blocks[0].parentHash == seg[keep - 1].hash)
            && (keep == 0 && anchor.hash.Some? ==> blocks[0].parentHash == anchor.hash.value)
  {
    var keep := Below(seg, from);
    HangsPrefix(anchor, seg, keep);
    if Hangs(anchor, Spliced(seg, from, blocks)) {
      HangsSplit(anchor, seg[..keep], blocks);
    } else if Ascending(blocks) && Linked(blocks) && (keep > 0 ==> IsChild(seg[keep - 1], blocks[0]))
      && (keep == 0 && anchor.hash.Some? ==> blocks[0].parentHash == anchor.hash.value) {
      HangsJoin(anchor, seg[..keep], blocks);
    }
  }

  class Model {
    var seg: seq<Block>
    var anchor: Anchor
    var fin: Option<BlockRef>
    var ver: nat

    ghost function State(): Window
      reads this
    {
      Window(seg, anchor, fin, ver)
    }

    constructor (anchor: Anchor)
      ensures State() == Window([], anchor, None, 0) && Wf(State())
    {
      this.seg, this.anchor, this.fin, this.ver := [], anchor, None, 0;
    }

    static method ValidRun(blocks: seq<Block>) returns (ok: bool)
      ensures ok <==> Ascending(blocks) && Linked(blocks)
    {
      var i := 1;
      while i < |blocks|
        invariant 1 <= i
        invariant forall a, b :: 0 <= a < b < i && b < |blocks| ==> blocks[a].number < blocks[b].number
        invariant forall j :: 0 < j < i && j < |blocks| ==> LinkedAt(blocks, j)
      {
        if !LinkedAt(blocks, i) {
          return false;
        }
        i := i + 1;
      }
      ok := true;
    }

    /** Shared by the three finality paths; only the watermark may move. */
    method ApplyFinality(r: BlockRef) returns (outcome: Finality)
      requires Wf(State())
      modifies this`fin
      ensures outcome == FinalityOf(seg, old(fin), r) && fin == Watermark(seg, old(fin), r)
      ensures Wf(State())
    {
      if seg == [] { return Ignored; }
      var first, head := seg[0].number, seg[|seg| - 1];
      BlockAtIndex(seg, |seg| - 1);
      WatermarkIsMonotone(seg, fin, r);
      var e := if r.number <= head.number then r.number else head.number;
      if e < first {
        BelowIs(seg, r.number, 0);
        return Ignored;
      }
      if fin.Some? && e < fin.value.number { return Ignored; }
      var target := head;
      if e == r.number {
        var stored := BlockAt(seg, e);
        if stored.None? { return Ignored; }
        if stored.value.hash != r.hash { return IntegrityFault; }
        target := stored.value;
      }
      if fin.Some? && e == fin.value.number && target.hash != fin.value.hash { return IntegrityFault; }
      var new' := BlockRef(e, target.hash);
      if fin == Some(new') { return Ignored; }
      fin := Some(new');
      outcome := Applied;
    }

    method Extend(blocks: seq<Block>, report: Option<BlockRef>) returns (ok: bool)
      requires Wf(State())
      modifies this
      ensures Wf(State())
      ensures ok <==> ExtendAccepts(old(State()), blocks, report)
      ensures State() == Extended(old(State()), blocks, report)
    {
      hide Ascending, Linked, LinkedAt, Below, BlockAt, FinalityOf, Reported;
      if blocks == [] { return false; }
      var valid := ValidRun(blocks);
      ghost var u := seg + blocks;
      if Hangs(anchor, u) { HangsSplit(anchor, seg, blocks); }
      if !valid { return false; }
      if seg != [] {
        var head := seg[|seg| - 1];
        if blocks[0].number < head.number + 1 || blocks[0].parentNumber != head.number || blocks[0].parentHash != head.hash {
          return false;
        }
      } else if blocks[0].number < anchor.number + 1 || (anchor.hash.Some? && blocks[0].parentHash != anchor.hash.value) {
        return false;
      }
      HangsJoin(anchor, seg, blocks);
      ExtensionNamesStored(seg, blocks, fin);
      var previous := (seg, fin, ver);
      seg, ver := seg + blocks, ver + 1;
      if report.Some? {
        var outcome := ApplyFinality(report.value);
        if outcome.IntegrityFault? {
          seg, fin, ver := previous.0, previous.1, previous.2;
          return false;
        }
      }
      assert Wf(State());
      ok := true;
    }

    /** The reported block is stored, not yet final, and missing from the incoming range that owns it. */
    method EvictsReported(from: nat, blocks: seq<Block>, report: BlockRef) returns (evicts: bool)
      requires Wf(State()) && seg != [] && blocks != [] && seg[0].number <= from <= blocks[0].number
      requires Ascending(blocks) && Ascending(Spliced(seg, from, blocks))
      ensures evicts == Evicts(seg, fin, Spliced(seg, from, blocks), Some(report))
    {
      hide Ascending, Below, BlockAt;
      EvictionIsLocal(seg, from, blocks, report.number);
      var postHead := blocks[|blocks| - 1].number;
      if report.number > postHead || report.number < seg[0].number { return false; }
      if fin.Some? && report.number <= fin.value.number { return false; }
      var absent := forall i :: 0 <= i < |blocks| ==> blocks[i].number != report.number;
      return from <= report.number && absent && BlockAt(seg, report.number).Some?;
    }

    /** The refusals of a replacement that do not concern its finality report. */
    method ReplacementFits(from: nat, blocks: seq<Block>) returns (ok: bool)
      requires Wf(State())
      ensures ok <==> Fits(State(), from, blocks)
    {
      hide Ascending, Linked, LinkedAt, Below, BlockAt, Hangs, RefsUpTo, NamesStored;
      if seg == [] || blocks == [] { return false; }
      var valid := ValidRun(blocks);
      if blocks[0].number < from || from < seg[0].number { return false; }
      var keep := Below(seg, from);
      SplicedHangs(anchor, seg, from, blocks);
      if !valid { return false; }
      if fin.Some? && from <= fin.value.number {
        // both runs ascend, so filtering by number is taking a slice
        BelowGrows(seg, from, fin.value.number + 1);
        var stored := seg[keep..Below(seg, fin.value.number + 1)];
        var replayed := blocks[..Below(blocks, fin.value.number + 1)];
        if Hangs(anchor, Spliced(seg, from, blocks)) { ReplayIsExact(anchor, seg, from, blocks, fin.value.number); }
        if Refs(stored) != Refs(replayed) { return false; }
      }
      if keep > 0 {
        if blocks[0].parentNumber != seg[keep - 1].number || blocks[0].parentHash != seg[keep - 1].hash { return false; }
      } else if anchor.hash.Some? && blocks[0].parentHash != anchor.hash.value {
        return false;
      }
      if fin.Some? { ReplayIsExact(anchor, seg, from, blocks, fin.value.number); }
      ok := true;
    }

    method Replace(from: nat, blocks: seq<Block>, report: Option<BlockRef>) returns (ok: bool)
      requires Wf(State())
      modifies this
      ensures Wf(State())
      ensures ok <==> ReplaceAccepts(old(State()), from, blocks, report)
      ensures State() == Replaced(old(State()), from, blocks, report)
    {
      hide Ascending, Linked, LinkedAt, Below, BlockAt, FinalityOf, Reported, RefsUpTo;
      var fits := ReplacementFits(from, blocks);
      if !fits { return false; }
      var keep := Below(seg, from);
      ghost var seg' := Spliced(seg, from, blocks);
      HangsSplit(anchor, seg[..keep], blocks);
      if report.Some? {
        var evicts := EvictsReported(from, blocks, report.value);
        if evicts { return false; }
      }
      KeptPrefixNamesStored(seg, seg', fin);
      var previous := (seg, fin, ver);
      seg, ver := seg[..keep] + blocks, ver + 1;
      if report.Some? {
        var outcome := ApplyFinality(report.value);
        if outcome.IntegrityFault? {
          seg, fin, ver := previous.0, previous.1, previous.2;
          return false;
        }
      }
      assert Wf(State());
      ok := true;
    }

    method Finalize(r: BlockRef) returns (outcome: Finality)
      requires Wf(State())
      modifies this
      ensures Wf(State())
      ensures outcome == FinalityOf(old(seg), old(fin), r)
      ensures State() == Finalized(old(State()), r)
    {
      outcome := ApplyFinality(r);
      if outcome.Applied? {
        ver := ver + 1;
      }
    }

    method Reset(anchor: Anchor)
      modifies this
      ensures State() == Cleared(old(State()), anchor) && Wf(State())
    {
      this.seg, this.anchor, this.fin, this.ver := [], anchor, None, ver + 1;
    }

    method Retain(from: nat, hash: Option<Hash>)
      requires Wf(State()) && from >= 1
      modifies this
      ensures Wf(State())
      ensures State() == Retained(old(State()), from, hash)
    {
      hide Ascending, Linked, LinkedAt, Below, BlockAt;
      var floor := if seg == [] then anchor.number + 1 else seg[0].number;
      if from == floor || (seg == [] && from < floor) {
        if hash.Some? && anchor.hash.Some? && from == floor && hash.value != anchor.hash.value {
          Reset(Anchor(from - 1, hash));
        }
        return;
      }
      if from < floor {
        Reset(Anchor(from - 1, hash));
        return;
      }
      if seg != [] && from <= seg[|seg| - 1].number + 1 {
        var drop := Below(seg, from);
        var base := seg[drop - 1];
        if hash.Some? && hash.value != base.hash {
          Reset(Anchor(from - 1, hash));
          return;
        }
        HangsSuffix(seg, drop);
        SuffixNamesStored(seg, from, fin);
        seg := seg[drop..];
        anchor := Anchor(base.number, Some(base.hash));
        if fin.Some? && fin.value.number < from {
          fin := None;
        }
        ver := ver + 1;
        assert Wf(State());
      } else {
        Reset(Anchor(from - 1, hash));
      }
    }
  }

  lemma {:induction false} ExtensionNamesStored(seg: seq<Block>, blocks: seq<Block>, fin: Option<BlockRef>)
    requires Ascending(seg + blocks) && NamesStored(seg, fin)
    ensures NamesStored(seg + blocks, fin)
  {
    if fin.Some? {
      BlockAtIndex(seg + blocks, Below(seg, fin.value.number));
    }
  }

  lemma {:induction false} BelowKept(seg: seq<Block>, seg': seq<Block>, k: nat, n: nat)
    requires Ascending(seg) && Ascending(seg') && k <= |seg| && k <= |seg'| && seg[..k] == seg'[..k]
    requires (k < |seg| ==> n < seg[k].number) && (k < |seg'| ==> n < seg'[k].number)
    ensures BlockAt(seg, n) == BlockAt(seg', n)
  {
    assert forall i :: 0 <= i < k ==> seg[i] == seg[..k][i] == seg'[i];
    var i := Below(seg, n);
    BelowIs(seg', n, i);
  }

  /** A stored block goes missing exactly when the incoming range owns its number and omits it. */
  lemma {:induction false} EvictionIsLocal(seg: seq<Block>, from: nat, blocks: seq<Block>, n: nat)
    requires Ascending(seg) && Ascending(blocks) && Ascending(Spliced(seg, from, blocks))
    requires seg != [] && blocks != [] && seg[0].number <= from <= blocks[0].number
    ensures BlockAt(seg, n).Some? ==> seg[0].number <= n
    ensures BlockAt(seg, n).Some? && BlockAt(Spliced(seg, from, blocks), n).None?
       <==> from <= n && (forall i :: 0 <= i < |blocks| ==> blocks[i].number != n) && BlockAt(seg, n).Some?
  {
    hide Below;
    var keep, seg' := Below(seg, from), Spliced(seg, from, blocks);
    if from <= n {
      BelowSpliced(seg, from, blocks, n);
      assert BlockAt(seg', n) == BlockAt(blocks, n);
      AbsentIffNone(blocks, n);
    } else {
      BelowKept(seg, seg', keep, n);
    }
  }

  lemma {:induction false} AbsentIffNone(s: seq<Block>, n: nat)
    requires Ascending(s)
    ensures BlockAt(s, n).None? <==> forall i :: 0 <= i < |s| ==> s[i].number != n
  {
    if i :| 0 <= i < |s| && s[i].number == n {
      BlockAtIndex(s, i);
    }
  }

  lemma {:induction false} SuffixNamesStored(seg: seq<Block>, from: nat, fin: Option<BlockRef>)
    requires Ascending(seg) && NamesStored(seg, fin)
    ensures NamesStored(seg[Below(seg, from)..], if fin.Some? && fin.value.number < from then None else fin)
  {
    if fin.Some? && fin.value.number >= from {
      var i, k := Below(seg, fin.value.number), Below(seg, from);
      assert i < |seg| && seg[i].Ref() == fin.value;
      hide Below, Ascending, BlockAt;
      BelowGrows(seg, from, fin.value.number);
      AscendingSuffix(seg, k);
      assert seg[k..][i - k] == seg[i];
      BlockAtIndex(seg[k..], i - k);
    }
  }

  lemma {:induction false} AscendingSuffix(s: seq<Block>, k: nat)
    requires Ascending(s) && k <= |s|
    ensures Ascending(s[k..])
  {
  }
}
