/** Whole runs of the reference model: no assertion of its well-formedness check can fail, and
    history at or below the finalized watermark is immutable. */
module HotRuns {
  import opened HotModel
  import opened HotTypes
  import opened Options

  datatype Op =
    | Extend(blocks: seq<Block>, report: Option<BlockRef>)
    | Replace(from: nat, blocks: seq<Block>, report: Option<BlockRef>)
    | Finalize(r: BlockRef)
    | Retain(bound: nat, hash: Option<Hash>)
    | Reset(anchor: Anchor)
  {
    /** A retention bound of zero has no block below it to anchor on. */
    predicate Legal() { Retain? ==> bound >= 1 }

    predicate Commits() { Extend? || Replace? || Finalize? }
  }

  ghost function Apply(w: Window, op: Op): Window
    requires op.Legal()
  {
    match op
    case Extend(blocks, report) => Extended(w, blocks, report)
    case Replace(from, blocks, report) => Replaced(w, from, blocks, report)
    case Finalize(r) => Finalized(w, r)
    case Retain(bound, hash) => Retained(w, bound, hash)
    case Reset(anchor) => Cleared(w, anchor)
  }

  ghost function Run(w: Window, ops: seq<Op>): Window
    requires forall i :: 0 <= i < |ops| ==> ops[i].Legal()
  {
    if ops == [] then w else Apply(Run(w, ops[..|ops| - 1]), ops[|ops| - 1])
  }

  lemma {:induction false} AdvancedIsMonotone(seg: seq<Block>, fin: Option<BlockRef>, report: Option<BlockRef>)
    requires Ascending(seg) && NamesStored(seg, fin)
    ensures NamesStored(seg, Advanced(seg, fin, report))
    ensures fin.Some? ==> Advanced(seg, fin, report).Some? && fin.value.number <= Advanced(seg, fin, report).value.number
  {
  }

  /** The version goes up by one with every change, and by nothing else. */
  lemma {:induction false} VersionTells(w: Window, op: Op)
    requires op.Legal()
    ensures Apply(w, op) == w || Apply(w, op).ver == w.ver + 1
  {
    hide Below, FinalityOf, Watermark, Advanced, Spliced, ExtendAccepts, ReplaceAccepts;
  }

  /** Two states of a run with the same version are the same. */
  lemma {:induction false} SameVersionSameState(w: Window, ops: seq<Op>)
    requires forall i :: 0 <= i < |ops| ==> ops[i].Legal()
    ensures w.ver <= Run(w, ops).ver && (Run(w, ops).ver == w.ver ==> Run(w, ops) == w)
  {
    if ops != [] {
      hide Apply;
      var n := |ops| - 1;
      SameVersionSameState(w, ops[..n]);
      VersionTells(Run(w, ops[..n]), ops[n]);
    }
  }

  /** Every transition keeps the window well formed. */
  lemma {:induction false} StepKeepsWf(w: Window, op: Op)
    requires Wf(w) && op.Legal()
    ensures Wf(Apply(w, op))
  {
    hide Ascending, Linked, Below, BlockAt, FinalityOf, Reported;
    match op
    case Extend(blocks, report) =>
      if ExtendAccepts(w, blocks, report) {
        ExtensionNamesStored(w.seg, blocks, w.fin);
        AdvancedIsMonotone(w.seg + blocks, w.fin, report);
      }
    case Replace(from, blocks, report) =>
      if ReplaceAccepts(w, from, blocks, report) {
        var seg' := Spliced(w.seg, from, blocks);
        KeptPrefixNamesStored(w.seg, seg', w.fin);
        AdvancedIsMonotone(seg', w.fin, report);
      }
    case Finalize(r) => WatermarkIsMonotone(w.seg, w.fin, r);
    case Retain(bound, hash) =>
      ClearedIsWf(w, Anchor(bound - 1, hash));
      if w.seg != [] && w.seg[0].number < bound {
        HangsSuffix(w.seg, Below(w.seg, bound));
        SuffixNamesStored(w.seg, bound, w.fin);
      }
    case Reset(anchor) => ClearedIsWf(w, anchor);
  }

  lemma {:induction false} ClearedIsWf(w: Window, anchor: Anchor)
    ensures Wf(Cleared(w, anchor))
  {
  }

  /** What holds at or below the watermark of `w` in a later window. */
  ghost predicate KeepsFinalized(w: Window, w': Window) {
    w.fin.Some? ==>
      && w'.fin.Some? && w.fin.value.number <= w'.fin.value.number
      && RefsUpTo(w'.seg, w.fin.value.number) == RefsUpTo(w.seg, w.fin.value.number)
  }

  lemma {:induction false} StepKeepsFinalized(w: Window, op: Op)
    requires Wf(w) && op.Legal() && op.Commits()
    ensures KeepsFinalized(w, Apply(w, op))
  {
    hide Ascending, Linked, Below, BlockAt, FinalityOf, Reported, RefsUpTo;
    match op
    case Extend(blocks, report) =>
      if ExtendAccepts(w, blocks, report) {
        ExtensionNamesStored(w.seg, blocks, w.fin);
        AdvancedIsMonotone(w.seg + blocks, w.fin, report);
        if w.fin.Some? { ExtensionKeepsRefs(w.seg, blocks, w.fin.value); }
      }
    case Replace(from, blocks, report) =>
      if ReplaceAccepts(w, from, blocks, report) {
        var seg' := Spliced(w.seg, from, blocks);
        KeptPrefixNamesStored(w.seg, seg', w.fin);
        AdvancedIsMonotone(seg', w.fin, report);
      }
    case Finalize(r) => WatermarkIsMonotone(w.seg, w.fin, r);
  }

  lemma {:induction false} ExtensionKeepsRefs(seg: seq<Block>, blocks: seq<Block>, fin: BlockRef)
    requires Ascending(seg + blocks) && Ascending(seg) && NamesStored(seg, Some(fin))
    ensures RefsUpTo(seg + blocks, fin.number) == RefsUpTo(seg, fin.number)
  {
    var i := Below(seg, fin.number);
    BelowIs(seg, fin.number + 1, i + 1);
    BelowIs(seg + blocks, fin.number + 1, i + 1);
    assert (seg + blocks)[..i + 1] == seg[..i + 1];
  }

  /** A longer kept prefix contains the shorter one. */
  lemma {:induction false} RefsUpToNarrows(s: seq<Block>, t: seq<Block>, m: nat, n: nat)
    requires Ascending(s) && Ascending(t) && m <= n
    requires RefsUpTo(s, n) == RefsUpTo(t, n)
    ensures RefsUpTo(s, m) == RefsUpTo(t, m)
  {
  }

  lemma {:induction false} RunKeepsWf(w: Window, ops: seq<Op>)
    requires Wf(w) && forall i :: 0 <= i < |ops| ==> ops[i].Legal()
    ensures Wf(Run(w, ops))
  {
    if ops != [] {
      RunKeepsWf(w, ops[..|ops| - 1]);
      StepKeepsWf(Run(w, ops[..|ops| - 1]), ops[|ops| - 1]);
    }
  }

  /** Over any run of commits, the stored history at or below the watermark that stood at the
      start is the same, block for block, and the watermark never moves back. */
  lemma {:induction false} RunKeepsFinalized(w: Window, ops: seq<Op>)
    requires Wf(w) && forall i :: 0 <= i < |ops| ==> ops[i].Legal() && ops[i].Commits()
    ensures Wf(Run(w, ops)) && KeepsFinalized(w, Run(w, ops))
  {
    hide Ascending, Linked, Below, BlockAt, Apply, RefsUpTo;
    if ops != [] {
      var mid := Run(w, ops[..|ops| - 1]);
      RunKeepsFinalized(w, ops[..|ops| - 1]);
      StepKeepsFinalized(mid, ops[|ops| - 1]);
      StepKeepsWf(mid, ops[|ops| - 1]);
      if w.fin.Some? {
        RefsUpToNarrows(mid.seg, Run(w, ops).seg, w.fin.value.number, mid.fin.value.number);
      }
    }
  }
}
