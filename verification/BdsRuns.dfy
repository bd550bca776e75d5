/** All interleavings of the jobs that share the live chain: the grower and the finalizer of
    crates/bds/src/ingest/grow.rs, the writer that saves in any order, and the two observers of
    crates/bds/src/ingest/ingest.rs. Each step is atomic, as in crates/bds/src/chain_watch.rs. */
module BdsRuns {
  import opened BdsChain
  import BdsLive
  import opened BdsSearch
  import opened Options

  datatype Op =
    | Grow(isFinal: bool, block: Block)
    | Final(head: Ref)
    | Saved(r: Ref)
    | Mark(r: Ref)
    | Report

  function Flagged(d: Deques, r: Ref): Deques
    requires |d.stored| == |d.blocks|
  {
    d.(stored := seq(|d.stored|, i requires 0 <= i < |d.stored| => d.stored[i] || d.blocks[i].Id() == r))
  }

  /** The finalization loop takes note of the stored finalized head. */
  function Noted(d: Deques): Deques
    requires d.Aligned()
  {
    if StoredFinalizedHead(d).Some? then d.(reported := Some(StoredFinalizedAt(d))) else d
  }

  function Grown(d: Deques, isFinal: bool, block: Block): Deques
    requires d.Aligned()
  {
    var (outcome, d') := Push(d, block);
    if outcome.Attached? && isFinal then FinalAt(d', |d'.chain| - 1) else d'
  }

  /** A block reported saved is flagged and, if it was in hand, old stored blocks are dropped. */
  function Settled(d: Deques, r: Ref, minSize: nat): Deques
    requires d.Aligned()
  {
    var d' := Flagged(d, r);
    if exists i :: 0 <= i < |d.blocks| && d.blocks[i].Id() == r then Cleaned(d', Droppable(d'.stored, minSize)) else d'
  }

  function Apply(d: Deques, op: Op, minSize: nat): Deques
    requires d.Aligned()
  {
    match op
    case Grow(isFinal, block) => Grown(d, isFinal, block)
    case Final(head) => Finalize(d, head).1
    case Saved(r) => d.(saved := d.saved + {r})
    case Mark(r) => Settled(d, r, minSize)
    case Report => Noted(d)
  }

  ghost predicate Legal(d: Deques, op: Op, first: nat) {
    match op
    case Grow(_, block) => CanPush(d, block, first)
    case Mark(r) => r in d.saved
    case _ => true
  }

  /** What no step takes back: finalized history only grows, and the reported place only advances. */
  ghost predicate Advances(d: Deques, e: Deques)
    requires d.Aligned() && e.Aligned()
  {
    && d.Finalized() <= e.Finalized()
    && (d.reported.Some? ==> e.reported.Some? && d.reported.value <= e.reported.value)
  }

  lemma {:induction false} GrownKeeps(d: Deques, isFinal: bool, block: Block, first: nat)
    requires d.Valid(first) && CanPush(d, block, first)
    ensures Grown(d, isFinal, block).Valid(first) && Advances(d, Grown(d, isFinal, block))
  {
    hide Deques.Linked, Deques.Ordered, Deques.Safe, Deques.Reported, Deques.Finalized;
    PushKeepsValid(d, block, first);
    var (outcome, d') := Push(d, block);
    if outcome.Attached? && isFinal { FinalAtKeepsValid(d', |d'.chain| - 1, first); }
  }

  lemma {:induction false} FlaggedKeepsValid(d: Deques, r: Ref, first: nat)
    requires d.Valid(first) && r in d.saved
    ensures Flagged(d, r).Valid(first) && Flagged(d, r).Finalized() == d.Finalized()
  {
    hide Ascending, Block.Plausible;
    var p := Flagged(d, r);
    FlaggedKeepsSafe(d, r);
    assert p.Aligned() && p.Linked();
  }

  lemma {:induction false} FlaggedKeepsSafe(d: Deques, r: Ref)
    requires d.Aligned() && d.Safe() && d.Reported() && r in d.saved
    ensures Flagged(d, r).Aligned() && Flagged(d, r).Safe() && Flagged(d, r).Reported()
  {
  }

  lemma {:induction false} SettledKeeps(d: Deques, r: Ref, minSize: nat, first: nat)
    requires d.Valid(first) && r in d.saved
    ensures Settled(d, r, minSize).Valid(first) && Advances(d, Settled(d, r, minSize))
  {
    hide Deques.Linked, Deques.Ordered, Deques.Safe, Deques.Reported, Deques.Finalized, Flagged;
    FlaggedKeepsValid(d, r, first);
    var p := Flagged(d, r);
    SameShape(d, r);
    CleanedKeepsValid(p, Droppable(p.stored, minSize), first);
  }

  lemma {:induction false} SameShape(d: Deques, r: Ref)
    requires d.Aligned()
    ensures Flagged(d, r).reported == d.reported
  {
  }

  lemma {:induction false} NotedKeeps(d: Deques, first: nat)
    requires d.Valid(first)
    ensures Noted(d).Valid(first) && Advances(d, Noted(d))
  {
    hide Deques.Linked, Deques.Ordered, Deques.Safe, Deques.Reported, StoredFinalizedHead, StoredFinalizedAt;
    if StoredFinalizedHead(d).Some? { StoredFinalizedIsMonotone(d, first); }
  }

  lemma {:induction false} StepAdvances(d: Deques, op: Op, minSize: nat, first: nat)
    requires d.Valid(first) && Legal(d, op, first)
    ensures Apply(d, op, minSize).Valid(first) && Advances(d, Apply(d, op, minSize))
  {
    hide Deques.Linked, Deques.Ordered, Deques.Safe, Deques.Reported, Grown, Settled, Noted, CanPush;
    match op
    case Grow(isFinal, block) => GrownKeeps(d, isFinal, block, first);
    case Final(head) => FinalizeKeepsValid(d, head, first);
    case Saved(r) => BdsLive.SavedKeepsValid(d, r, first);
    case Mark(r) => SettledKeeps(d, r, minSize, first);
    case Report => NotedKeeps(d, first);
  }

  ghost function Run(d: Deques, ops: seq<Op>, minSize: nat, first: nat): Deques
    requires d.Valid(first) && LegalRun(d, ops, minSize, first)
    ensures Run(d, ops, minSize, first).Valid(first)
    decreases ops
  {
    if ops == [] then d
    else
      StepAdvances(d, ops[0], minSize, first);
      Run(Apply(d, ops[0], minSize), ops[1..], minSize, first)
  }

  ghost predicate LegalRun(d: Deques, ops: seq<Op>, minSize: nat, first: nat)
    requires d.Valid(first)
    decreases ops
  {
    if ops == [] then true
    else if !Legal(d, ops[0], first) then false
    else
      StepAdvances(d, ops[0], minSize, first);
      LegalRun(Apply(d, ops[0], minSize), ops[1..], minSize, first)
  }

  /** Over every interleaving, finalized history is append-only and reports only advance. */
  lemma {:induction false} RunAdvances(d: Deques, ops: seq<Op>, minSize: nat, first: nat)
    requires d.Valid(first) && LegalRun(d, ops, minSize, first)
    ensures Advances(d, Run(d, ops, minSize, first))
    decreases ops
  {
    hide Deques.Linked, Deques.Ordered, Deques.Safe, Deques.Reported, Deques.Finalized, Apply, Legal;
    if ops != [] {
      StepAdvances(d, ops[0], minSize, first);
      RunAdvances(Apply(d, ops[0], minSize), ops[1..], minSize, first);
    }
  }

  /** The finalized head of any state stays in the finalized history of every later one. */
  lemma {:induction false} FinalizedHeadIsNeverReplaced(d: Deques, ops: seq<Op>, minSize: nat, first: nat)
    requires d.Valid(first) && LegalRun(d, ops, minSize, first) && d.fin
    ensures var e := Run(d, ops, minSize, first);
            && e.fin && d.chain[0] in e.Finalized() && d.chain[0].number <= e.chain[0].number
            && (d.chain[0].number == e.chain[0].number ==> d.chain[0] == e.chain[0])
  {
    hide Deques.Linked, Deques.Safe, Deques.Reported, Apply, Legal, LegalRun, Run;
    RunAdvances(d, ops, minSize, first);
    var e := Run(d, ops, minSize, first);
    assert d.chain[0] == d.history[d.C()] && e.chain[0] == e.history[e.C()];
    assert d.Finalized()[d.C()] == e.Finalized()[d.C()] == e.history[d.C()];
  }

  /** What the finalization loop asks the store for: from the last reported number, or from the
      first block when nothing was reported yet. */
  ghost function RangeFrom(d: Deques, first: nat): nat
    requires d.Valid(first)
  {
    if d.reported.Some? then d.history[d.reported.value].number else first
  }

  lemma {:induction false} ReportedIsPlaced(d: Deques, first: nat)
    requires d.Valid(first) && d.reported.Some?
    ensures d.reported.value <= d.C() < |d.history| && d.fin
  {
    hide Deques.Linked, Deques.Ordered, Deques.Safe;
  }

  /** The loop's own check never fails: once a head was reported, after any further interleaving
      the next range starts at or above it, ends at a saved block and never runs backwards. */
  lemma {:induction false} RangesNeverGoBack(d: Deques, ops: seq<Op>, minSize: nat, first: nat)
    requires d.Valid(first) && LegalRun(d, ops, minSize, first)
    requires StoredFinalizedHead(Run(d, ops, minSize, first)).Some?
    ensures var e := Run(d, ops, minSize, first);
            var to := StoredFinalizedHead(e).value;
            && RangeFrom(d, first) <= RangeFrom(e, first) <= to.number
            && to in e.saved && to in e.Finalized()
  {
    hide Deques.Linked, Deques.Safe, Deques.Reported, Apply, Legal, LegalRun, Run, StoredFinalizedHead, StoredFinalizedAt;
    var e := Run(d, ops, minSize, first);
    RunAdvances(d, ops, minSize, first);
    StoredFinalizedIsMonotone(e, first);
    var at := StoredFinalizedAt(e);
    assert e.history[at] == e.Finalized()[at];
    if e.reported.Some? { ReportedIsPlaced(e, first); }
    if d.reported.Some? {
      ReportedIsPlaced(d, first);
      var i := d.reported.value;
      assert d.history[i] == d.Finalized()[i] == e.Finalized()[i] == e.history[i];
    }
  }

  /** A chain as it starts: nothing but a head that is in the store. */
  function Start(head: seq<Ref>): Deques {
    Deques(head, head != [], [], [], head, (set r | r in head), None)
  }

  lemma {:induction false} StartIsValid(head: seq<Ref>, first: nat)
    requires Ascending(head) && forall i :: 0 <= i < |head| ==> head[i].number >= first
    ensures Start(head).Valid(first)
  {
  }

  /** Saves complete in any order and forks happen at any time: over every run the stored head is safe,
      except in front of an unsaved genesis block that is its own parent by number. */
  lemma {:induction false} StoredHeadIsAlwaysSafe(head: seq<Ref>, ops: seq<Op>, minSize: nat, first: nat)
    requires Start(head).Valid(first) && LegalRun(Start(head), ops, minSize, first)
    ensures var e := Run(Start(head), ops, minSize, first);
            var k := FirstUnstored(e.stored);
            e.Valid(first) && (StoredHead(e).Some? ==>
              (CoveredBySaves(e, StoredHead(e).value) <==>
               (k < |e.blocks| && e.blocks[k].parentNumber == e.blocks[k].number ==> e.blocks[k].Id() in e.saved)))
  {
    hide Deques.Linked, Deques.Safe, Deques.Reported, Apply, Legal, LegalRun, Run;
    var e := Run(Start(head), ops, minSize, first);
    if StoredHead(e).Some? { StoredHeadIsSafe(e, first); }
  }

  /** A genesis block numbered like its parent, in hand but not saved, is at or below the stored head. */
  lemma {:induction false} GenesisMisleads()
    ensures var genesis := Block(0, "a", 0, "z");
            var e := Apply(Start([]), Grow(false, genesis), 0);
            && Start([]).Valid(0) && Legal(Start([]), Grow(false, genesis), 0)
            && StoredHead(e) == Some(Ref(0, "z")) && !CoveredBySaves(e, Ref(0, "z"))
  {
    var genesis := Block(0, "a", 0, "z");
    StartIsValid([], 0);
    var e := Apply(Start([]), Grow(false, genesis), 0);
    assert e.history == [Ref(0, "a")] && e.blocks == [genesis] && e.stored == [false] && e.saved == {};
    assert e.history[0] !in e.saved;
  }

  /** The position a fork resolves to is one from which the next block always attaches, with
      everything up to the fork base kept and nothing final lost. */
  lemma {:induction false} ForkBaseTakesTheNextBlock(d: Deques, hints: seq<Ref>, block: Block, first: nat)
    requires d.Valid(first) && ForkBase(d.chain, hints) == Some(block.Parent()) && block.parentNumber < block.number
    ensures exists i :: 0 <= i < |d.chain| && d.chain[i] == block.Parent()
              && Push(d, block).0.Attached? && Push(d, block).1.chain == d.chain[..i + 1] + [block.Id()]
  {
    hide Deques.Linked, Deques.Safe, Deques.Reported, Deques.Ordered, ForkBase, Lower, Ascending;
    ForkBaseIsInChain(d.chain, hints);
    BdsLive.ChainAscends(d, first);
    var i :| 0 <= i < |d.chain| && d.chain[i] == block.Parent();
    LowerIs(d.chain, block.parentNumber, i);
  }

  lemma {:induction false} ForkBaseIsInChain(chain: seq<Ref>, hints: seq<Ref>)
    requires ForkBase(chain, hints).Some?
    ensures ForkBase(chain, hints).value in chain
    decreases chain
  {
    if hints != [] && Last(hints).number < Last(chain).number {
      ForkBaseIsInChain(Init(chain), hints);
    } else {
      var kept := PopAbove(hints, Last(chain).number);
      if kept != [] && Last(kept) != Last(chain) { ForkBaseIsInChain(Init(chain), Init(kept)); }
    }
  }
}
