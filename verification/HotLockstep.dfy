/** One script drives the simulator and the model in lockstep
    (crates/hotblocks-harness/src/harness.rs). */
module HotLockstep {
  import opened HotModel
  import opened HotRuns
  import opened HotSim
  import opened HotTypes
  import opened Options

  datatype Script = Produce(n: nat) | ForkAt(from: nat, len: nat) | Final(number: nat)

  /** The steps a well-formed script takes: non-empty runs, forks the source admits on a chain that
      exists, and finality that names an existing block and never moves back. */
  ghost predicate Scripted(cfg: Config, s: Source, step: Script) {
    match step
    case Produce(n) => n >= 1
    case ForkAt(from, len) => len >= 1 && s.chain != [] && CanFork(cfg, s, from)
    case Final(number) =>
      BlockAt(s.chain, number).Some? && (s.fin.Some? ==> s.fin.value.number <= number)
  }

  function SourceStep(cfg: Config, s: Source, step: Script): Source
    requires cfg.start >= 1
  {
    match step
    case Produce(n) => Produced(cfg, s, n)
    case ForkAt(from, len) => Forked(cfg, s, from, len)
    case Final(number) =>
      var h := HashOf(cfg, s, number);
      if h.Some? then s.(fin := Some(BlockRef(number, h.value))) else s
  }

  lemma {:induction false} SourceStepKeepsHonest(cfg: Config, s: Source, step: Script)
    requires Honest(cfg, s) && Scripted(cfg, s, step)
    ensures Honest(cfg, SourceStep(cfg, s, step))
  {
    hide Hangs, Numbered, Stamped, Ascending, Below;
    match step
    case Produce(n) => ProducedKeepsHonest(cfg, s, n);
    case ForkAt(from, len) =>
      TruncatedKeepsHonest(cfg, s, from);
      ProducedKeepsHonest(cfg, Truncated(s, from), len);
    case Final(number) => FinalNamesBlock(cfg, s, number);
  }

  lemma {:induction false} FinalNamesBlock(cfg: Config, s: Source, number: nat)
    requires Honest(cfg, s) && BlockAt(s.chain, number).Some?
    ensures HashOf(cfg, s, number) == Some(BlockAt(s.chain, number).value.hash)
    ensures Honest(cfg, s.(fin := Some(BlockAt(s.chain, number).value.Ref())))
  {
  }

  /** The model's half of the same step. */
  ghost function ModelOp(cfg: Config, s: Source, step: Script): (op: Op)
    requires cfg.start >= 1
    ensures op.Commits()
  {
    var s' := SourceStep(cfg, s, step);
    match step
    case Produce(n) => Extend(s'.chain[|s.chain|..], None)
    case ForkAt(from, len) =>
      var k := Below(s.chain, from);
      Replace(from, if k <= |s'.chain| then s'.chain[k..] else [], None)
    case Final(number) => Finalize(if s'.fin.Some? then s'.fin.value else BlockRef(number, cfg.AnchorHash()))
  }

  ghost predicate Accepts(w: Window, op: Op) {
    match op
    case Extend(blocks, report) => ExtendAccepts(w, blocks, report)
    case Replace(from, blocks, report) => ReplaceAccepts(w, from, blocks, report)
    case Finalize(r) => !FinalityOf(w.seg, w.fin, r).IntegrityFault?
    case _ => true
  }

  /** The model holds the source's chain and finality; its anchor hash may be unknown. */
  ghost predicate InStep(cfg: Config, s: Source, w: Window) {
    && Honest(cfg, s)
    && w.seg == s.chain && w.fin == s.fin
    && w.anchor.number == cfg.start - 1
    && (w.anchor.hash.Some? ==> w.anchor.hash.value == cfg.AnchorHash())
  }

  lemma {:induction false} WeakerAnchor(cfg: Config, anchor: Anchor, chain: seq<Block>)
    requires cfg.start >= 1 && Hangs(Anchor(cfg.start - 1, Some(cfg.AnchorHash())), chain)
    requires anchor.number == cfg.start - 1 && (anchor.hash.Some? ==> anchor.hash.value == cfg.AnchorHash())
    ensures Hangs(anchor, chain)
  {
  }

  lemma {:induction false} ForkFits(cfg: Config, s: Source, w: Window, from: nat, len: nat)
    requires InStep(cfg, s, w) && len >= 1 && s.chain != [] && CanFork(cfg, s, from)
    ensures var s' := Forked(cfg, s, from, len);
            var k := Below(s.chain, from);
            && k <= |s'.chain| && Spliced(w.seg, from, s'.chain[k..]) == s'.chain
            && Fits(w, from, s'.chain[k..])
  {
    hide Linked, Numbered, Stamped, NamesStored, Ascending, RefsUpTo;
    var cut := Truncated(s, from);
    var s' := Forked(cfg, s, from, len);
    var k := Below(s.chain, from);
    TruncatedKeepsHonest(cfg, s, from);
    ProducedKeepsHonest(cfg, cut, len);
    ForkStartsAtOrAbove(cfg, s, from);
    FirstProduced(cfg, cut, len);
    assert s'.chain == s.chain[..k] + s'.chain[k..];
    WeakerAnchor(cfg, w.anchor, s'.chain);
    FirstIsStart(cfg, s);
    if w.fin.Some? {
      RefsKeptByFork(s.chain, from, s'.chain[k..], w.fin.value.number);
    }
  }

  lemma {:induction false} FirstIsStart(cfg: Config, s: Source)
    requires Honest(cfg, s) && s.chain != []
    ensures s.chain[0].number == cfg.start
  {
  }

  lemma {:induction false} FirstProduced(cfg: Config, s: Source, n: nat)
    requires cfg.start >= 1 && n >= 1
    ensures Produced(cfg, s, n).chain[|s.chain|] == Mint(cfg, s)
  {
    if n > 1 { FirstProduced(cfg, s, n - 1); }
  }

  lemma {:induction false} RefsKeptByFork(chain: seq<Block>, from: nat, blocks: seq<Block>, f: nat)
    requires Ascending(chain) && Ascending(Spliced(chain, from, blocks)) && f < from
    requires blocks != [] && from <= blocks[0].number
    ensures RefsUpTo(Spliced(chain, from, blocks), f) == RefsUpTo(chain, f)
  {
    var m := Below(chain, f + 1);
    BelowGrows(chain, f + 1, from);
    BelowIs(Spliced(chain, from, blocks), f + 1, m);
    assert Spliced(chain, from, blocks)[..m] == chain[..m];
  }

  lemma {:induction false} LockstepProduce(cfg: Config, s: Source, w: Window, n: nat)
    requires InStep(cfg, s, w) && n >= 1
    ensures var blocks := Produced(cfg, s, n).chain[|s.chain|..];
            && ExtendAccepts(w, blocks, None)
            && InStep(cfg, Produced(cfg, s, n), Extended(w, blocks, None))
  {
    hide Hangs, Numbered, Stamped, NamesStored, Mint;
    var s' := Produced(cfg, s, n);
    ProducedKeepsHonest(cfg, s, n);
    WeakerAnchor(cfg, w.anchor, s'.chain);
    assert s'.chain == s.chain + s'.chain[|s.chain|..];
  }

  lemma {:induction false} LockstepFork(cfg: Config, s: Source, w: Window, from: nat, len: nat)
    requires InStep(cfg, s, w) && len >= 1 && s.chain != [] && CanFork(cfg, s, from)
    ensures var s' := Forked(cfg, s, from, len);
            var k := Below(s.chain, from);
            && k <= |s'.chain| && ReplaceAccepts(w, from, s'.chain[k..], None)
            && InStep(cfg, s', Replaced(w, from, s'.chain[k..], None))
  {
    hide Hangs, Numbered, Stamped, NamesStored, Below, RefsUpTo, Spliced;
    SourceStepKeepsHonest(cfg, s, ForkAt(from, len));
    ForkFits(cfg, s, w, from, len);
  }

  lemma {:induction false} LockstepFinal(cfg: Config, s: Source, w: Window, number: nat)
    requires InStep(cfg, s, w) && Scripted(cfg, s, Final(number))
    ensures var r := BlockAt(s.chain, number).value.Ref();
            && HashOf(cfg, s, number) == Some(r.hash)
            && !FinalityOf(w.seg, w.fin, r).IntegrityFault?
            && InStep(cfg, s.(fin := Some(r)), Finalized(w, r))
  {
    hide Linked, Numbered, Stamped, BlockAt;
    FinalNamesBlock(cfg, s, number);
    FinalIsApplied(s.chain, s.fin, number);
  }

  lemma {:induction false} LockstepStep(cfg: Config, s: Source, w: Window, step: Script)
    requires InStep(cfg, s, w) && Scripted(cfg, s, step)
    ensures Accepts(w, ModelOp(cfg, s, step))
    ensures InStep(cfg, SourceStep(cfg, s, step), Apply(w, ModelOp(cfg, s, step)))
  {
    hide InStep, Extended, Replaced, Finalized, Below, BlockAt, FinalityOf;
    match step
    case Produce(n) => LockstepProduce(cfg, s, w, n);
    case ForkAt(from, len) => LockstepFork(cfg, s, w, from, len);
    case Final(number) => LockstepFinal(cfg, s, w, number);
  }

  lemma {:induction false} FinalIsApplied(chain: seq<Block>, fin: Option<BlockRef>, number: nat)
    requires Ascending(chain) && NamesStored(chain, fin) && BlockAt(chain, number).Some?
    requires fin.Some? ==> fin.value.number <= number
    ensures var r := BlockAt(chain, number).value.Ref();
            !FinalityOf(chain, fin, r).IntegrityFault? && Watermark(chain, fin, r) == Some(r)
  {
  }

  ghost function SourceRun(cfg: Config, s: Source, steps: seq<Script>): Source
    requires cfg.start >= 1
    decreases steps
  {
    if steps == [] then s else SourceRun(cfg, SourceStep(cfg, s, steps[0]), steps[1..])
  }

  ghost predicate ScriptedRun(cfg: Config, s: Source, steps: seq<Script>)
    requires cfg.start >= 1
    decreases steps
  {
    steps != [] ==> Scripted(cfg, s, steps[0]) && ScriptedRun(cfg, SourceStep(cfg, s, steps[0]), steps[1..])
  }

  ghost function ModelRun(cfg: Config, s: Source, w: Window, steps: seq<Script>): Window
    requires cfg.start >= 1
    decreases steps
  {
    if steps == [] then w
    else ModelRun(cfg, SourceStep(cfg, s, steps[0]), Apply(w, ModelOp(cfg, s, steps[0])), steps[1..])
  }

  ghost predicate AllAccepted(cfg: Config, s: Source, w: Window, steps: seq<Script>)
    requires cfg.start >= 1
    decreases steps
  {
    steps != [] ==>
      && Accepts(w, ModelOp(cfg, s, steps[0]))
      && AllAccepted(cfg, SourceStep(cfg, s, steps[0]), Apply(w, ModelOp(cfg, s, steps[0])), steps[1..])
  }

  /** For every script and every numbering, the model accepts each step the simulator takes and the
      two chains and watermarks never part. */
  lemma {:induction false} Lockstep(cfg: Config, s: Source, w: Window, steps: seq<Script>)
    requires InStep(cfg, s, w) && ScriptedRun(cfg, s, steps)
    ensures AllAccepted(cfg, s, w, steps)
    ensures InStep(cfg, SourceRun(cfg, s, steps), ModelRun(cfg, s, w, steps))
    decreases steps
  {
    hide Apply, ModelOp, Accepts, SourceStep, Scripted, Hangs, Numbered, Stamped, NamesStored;
    if steps != [] {
      LockstepStep(cfg, s, w, steps[0]);
      Lockstep(cfg, SourceStep(cfg, s, steps[0]), Apply(w, ModelOp(cfg, s, steps[0])), steps[1..]);
    }
  }
}
