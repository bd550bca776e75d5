/** The live chain of the block data service (crates/bds/src/chain.rs, chain_watch.rs and
    ingest/ingest.rs): three deques aligned at the back, changed by a grower, a finalizer and a
    writer that saves blocks in any order. */
module BdsChain {
  import opened BdsSearch
  import opened Options

  datatype Block = Block(number: nat, hash: string, parentNumber: nat, parentHash: string)
  {
    function Id(): Ref { Ref(number, hash) }
    function Parent(): Ref { Ref(parentNumber, parentHash) }
    /** Away from genesis a block is numbered above its parent. */
    predicate Plausible() { parentNumber < number || (number == 0 && parentNumber == 0) }
  }

  function Ids(blocks: seq<Block>): (r: seq<Ref>)
    ensures |r| == |blocks| && forall i :: 0 <= i < |blocks| ==> r[i] == blocks[i].Id()
  {
    seq(|blocks|, i requires 0 <= i < |blocks| => blocks[i].Id())
  }

  /** How many leading references are numbered below `n`. */
  function Lower(s: seq<Ref>, n: nat): (k: nat)
    ensures k <= |s| && (forall i :: 0 <= i < k ==> s[i].number < n) && (k < |s| ==> s[k].number >= n)
  {
    if s == [] || s[0].number >= n then 0 else 1 + Lower(s[1..], n)
  }

  lemma {:induction false} LowerIs(s: seq<Ref>, n: nat, k: nat)
    requires Ascending(s) && LowerBound(s, n, k)
    ensures Lower(s, n) == k
  {
    assert k < |s| ==> s[k].number >= n;
  }

  datatype Pushed = Attached | Missing | Conflicting

  /** Where a block lands: how many references stay below it, and whether it is taken. */
  function Landing(chain: seq<Ref>, fin: bool, block: Block): (r: (Pushed, nat))
    ensures r.1 <= |chain|
  {
    var m := Lower(chain, block.parentNumber);
    if chain == [] then (Attached, 0)
    else if m < |chain| && chain[m] == block.Parent() then (Attached, m + 1)
    else if m > 0 then (Missing, m)
    else if fin then (Conflicting, 1)
    else (Attached, 0)
  }

  function Shrunk<T>(s: seq<T>, popped: nat): seq<T> {
    if popped <= |s| then s[..|s| - popped] else []
  }

  /** The highest index at or below `d` that is stored. */
  function HighestStored(stored: seq<bool>, d: nat): (r: Option<nat>)
    requires d < |stored|
    ensures r.Some? ==> r.value <= d && stored[r.value] && forall i :: r.value < i <= d ==> !stored[i]
    ensures r.None? ==> forall i :: 0 <= i <= d ==> !stored[i]
  {
    if stored[d] then Some(d) else if d == 0 then None else HighestStored(stored, d - 1)
  }

  // ----- the deques as a value -----

  /** The three deques and the finality flag, with what the specification remembers beside them.
      `history` is all that was ever part of the current chain, oldest first; `chain` and `blocks`
      are its ends, and only its back can be taken away. `saved` is what the store holds, and
      `reported` the place in `history` of the last stored finalized head that was reported. */
  datatype Deques = Deques(chain: seq<Ref>, fin: bool, blocks: seq<Block>, stored: seq<bool>,
                           history: seq<Ref>, saved: set<Ref>, reported: Option<nat>)
  {
    /** The index in `history` of the oldest reference of `chain`. */
    function C(): int { |history| - |chain| }
    /** The index in `history` of the oldest block of `blocks`. */
    function B(): int { |history| - |blocks| }

    ghost predicate Aligned() {
      && |stored| == |blocks| && C() >= 0 && B() >= 0
      && (forall i :: 0 <= i < |chain| ==> chain[i] == history[C() + i])
      && (forall i :: 0 <= i < |blocks| ==> blocks[i].Id() == history[B() + i])
      && (fin ==> chain != []) && (!fin ==> |chain| == |blocks|)
    }

    ghost predicate Ordered(first: nat) {
      && Ascending(history)
      && (forall i :: 0 <= i < |history| ==> history[i].number >= first)
    }

    ghost predicate Linked()
      requires Aligned()
    {
      forall i :: 0 <= i < |blocks| ==> blocks[i].Plausible() && (0 < B() + i ==> blocks[i].Parent() == history[B() + i - 1])
    }

    /** Everything older than the blocks in hand is saved, and so is every block flagged as stored. */
    ghost predicate Safe()
      requires Aligned()
    {
      && (forall j :: 0 <= j < B() ==> history[j] in saved)
      && (forall i :: 0 <= i < |stored| && stored[i] ==> blocks[i].Id() in saved)
    }

    /** The reported head is finalized and, if its block is still in hand, flagged as stored. */
    ghost predicate Reported()
      requires Aligned()
    {
      reported.Some? ==> fin && reported.value <= C() && (B() <= reported.value ==> stored[reported.value - B()])
    }

    ghost predicate Valid(first: nat) {
      Aligned() && Ordered(first) && Linked() && Safe() && Reported()
    }

    /** The finalized history since the start, up to the finalized head. */
    ghost function Finalized(): seq<Ref>
      requires Aligned()
    {
      if fin then history[..C() + 1] else []
    }
  }

  /** Without its newest block. */
  function Popped(d: Deques): Deques
    requires d.chain != [] && d.history != []
  {
    d.(chain := Init(d.chain), blocks := Shrunk(d.blocks, 1), stored := Shrunk(d.stored, 1), history := Init(d.history))
  }

  function Appended(d: Deques, block: Block): Deques {
    d.(chain := d.chain + [block.Id()], blocks := d.blocks + [block], stored := d.stored + [false],
       history := (if d.chain == [] then [] else d.history) + [block.Id()])
  }

  lemma {:induction false} PoppedAligned(d: Deques)
    requires d.Aligned() && |d.chain| > (if d.fin then 1 else 0)
    ensures Popped(d).Aligned() && Popped(d).C() == d.C()
    ensures |Popped(d).blocks| == (if d.blocks == [] then 0 else |d.blocks| - 1)
    ensures d.blocks != [] ==> Popped(d).B() == d.B()
  {
    var p := Popped(d);
    forall i | 0 <= i < |p.chain| ensures p.chain[i] == p.history[p.C() + i] { assert p.chain[i] == d.chain[i]; }
    forall i | 0 <= i < |p.blocks| ensures p.blocks[i].Id() == p.history[p.B() + i] { assert p.blocks[i] == d.blocks[i]; }
  }

  lemma {:induction false} PoppedLinked(d: Deques)
    requires d.Aligned() && d.Linked() && |d.chain| > (if d.fin then 1 else 0) && Popped(d).Aligned()
    ensures Popped(d).Linked()
  {
    hide Deques.Aligned;
    PoppedCounts(d);
    var p := Popped(d);
    forall i | 0 <= i < |p.blocks| ensures p.blocks[i].Plausible() && (0 < p.B() + i ==> p.blocks[i].Parent() == p.history[p.B() + i - 1]) {
      assert p.blocks[i] == d.blocks[i];
    }
  }

  lemma {:induction false} PoppedCounts(d: Deques)
    requires d.Aligned() && |d.chain| > (if d.fin then 1 else 0)
    ensures d.history != [] && |d.stored| == |d.blocks| <= |d.history| && |d.chain| <= |d.history|
    ensures !d.fin ==> |d.chain| == |d.blocks|
    ensures forall i :: 0 <= i < |d.blocks| ==> d.blocks[i].Id() == d.history[d.B() + i]
  {
  }

  lemma {:induction false} PoppedSafe(d: Deques)
    requires d.Aligned() && d.Safe() && d.Reported() && |d.chain| > (if d.fin then 1 else 0) && Popped(d).Aligned()
    ensures Popped(d).Safe() && Popped(d).Reported() && Popped(d).Finalized() == d.Finalized()
  {
    hide Deques.Aligned;
    PoppedCounts(d);
    var p := Popped(d);
    forall i | 0 <= i < |p.stored| && p.stored[i] ensures p.blocks[i].Id() in p.saved {
      assert p.stored[i] == d.stored[i] && p.blocks[i] == d.blocks[i];
    }
    forall j | 0 <= j < p.B() ensures p.history[j] in p.saved { assert p.history[j] == d.history[j]; }
    assert d.fin ==> p.Finalized() == d.history[..d.C() + 1];
  }

  lemma {:induction false} PoppedKeepsValid(d: Deques, first: nat)
    requires d.Valid(first) && |d.chain| > (if d.fin then 1 else 0)
    ensures Popped(d).Valid(first) && Popped(d).Finalized() == d.Finalized()
  {
    hide Deques.Aligned, Deques.Linked, Deques.Safe, Deques.Reported, Deques.Finalized;
    PoppedCounts(d);
    PoppedAligned(d);
    PoppedLinked(d);
    PoppedSafe(d);
  }

  lemma {:induction false} AppendedKeepsAligned(d: Deques, block: Block)
    requires d.Aligned() && d.Linked() && block.Plausible() && d.chain != [] && Last(d.chain) == block.Parent()
    ensures Appended(d, block).Aligned() && Appended(d, block).Linked()
  {
    var p := Appended(d, block);
    forall i | 0 <= i < |p.chain| ensures p.chain[i] == p.history[p.C() + i] {
      assert i < |d.chain| ==> p.chain[i] == d.chain[i];
    }
    forall i | 0 <= i < |p.blocks| ensures p.blocks[i].Id() == p.history[p.B() + i] {
      assert i < |d.blocks| ==> p.blocks[i] == d.blocks[i];
    }
    assert Last(d.chain) == Last(d.history);
    forall i | 0 <= i < |p.blocks| ensures p.blocks[i].Plausible() && (0 < p.B() + i ==> p.blocks[i].Parent() == p.history[p.B() + i - 1]) {
      assert i < |d.blocks| ==> p.blocks[i] == d.blocks[i];
    }
  }

  lemma {:induction false} AppendedKeepsOrdered(d: Deques, block: Block, first: nat)
    requires d.Aligned() && d.Ordered(first) && block.number >= first
    requires d.chain != [] && Last(d.chain).number < block.number
    ensures Appended(d, block).Ordered(first)
  {
    assert Last(d.chain) == Last(d.history);
  }

  lemma {:induction false} AppendedKeepsSafe(d: Deques, block: Block)
    requires d.Aligned() && d.Safe() && d.Reported() && d.chain != [] && Appended(d, block).Aligned()
    ensures Appended(d, block).Safe() && Appended(d, block).Reported() && Appended(d, block).Finalized() == d.Finalized()
  {
    var p := Appended(d, block);
    forall i | 0 <= i < |p.stored| && p.stored[i] ensures p.blocks[i].Id() in p.saved {
      assert p.stored[i] == d.stored[i] && p.blocks[i] == d.blocks[i];
    }
    assert d.fin ==> p.Finalized() == d.history[..d.C() + 1];
  }

  lemma {:induction false} AppendedKeepsValid(d: Deques, block: Block, first: nat)
    requires d.Valid(first) && block.Plausible() && block.number >= first
    requires d.chain != [] ==> Last(d.chain) == block.Parent() && block.parentNumber < block.number
    ensures Appended(d, block).Valid(first) && Appended(d, block).Finalized() == d.Finalized()
  {
    if d.chain == [] {
      FirstIsValid(d, block, first);
    } else {
      hide Deques.Aligned, Deques.Linked, Deques.Ordered, Deques.Safe, Deques.Reported;
      AppendedKeepsAligned(d, block);
      AppendedKeepsOrdered(d, block, first);
      AppendedKeepsSafe(d, block);
    }
  }

  lemma {:induction false} FirstIsValid(d: Deques, block: Block, first: nat)
    requires d.Valid(first) && block.Plausible() && block.number >= first && d.chain == []
    ensures Appended(d, block).Valid(first) && Appended(d, block).Finalized() == d.Finalized()
  {
    hide Deques.Linked, Deques.Ordered, Deques.Safe;
    assert d.blocks == [] && d.stored == [] && !d.fin && d.reported.None?;
    AloneIsValid(d, block, first);
  }

  lemma {:induction false} AloneIsValid(d: Deques, block: Block, first: nat)
    requires block.Plausible() && block.number >= first
    requires d.chain == [] && d.blocks == [] && d.stored == [] && !d.fin && d.reported.None?
    ensures Appended(d, block).Valid(first)
  {
    var r := block.Id();
    assert Appended(d, block) == Deques([r], false, [block], [false], [r], d.saved, None);
    hide Appended;
  }

  // ----- pushing -----

  /** The deques once the references above a landing are gone. */
  function Cut(d: Deques, keep: nat): Deques
    requires keep <= |d.chain| <= |d.history|
  {
    var popped := |d.chain| - keep;
    d.(chain := d.chain[..keep], blocks := Shrunk(d.blocks, popped), stored := Shrunk(d.stored, popped),
       history := d.history[..|d.history| - popped])
  }

  function Push(d: Deques, block: Block): (Pushed, Deques)
    requires |d.chain| <= |d.history|
  {
    var (outcome, keep) := Landing(d.chain, d.fin, block);
    (outcome, if outcome.Attached? then Appended(Cut(d, keep), block) else Cut(d, keep))
  }

  lemma {:induction false} CutOnce(d: Deques, keep: nat)
    requires keep < |d.chain| <= |d.history|
    ensures Cut(d, keep) == Cut(Popped(d), keep)
  {
    var p, n := Popped(d), |d.chain| - keep;
    assert Init(d.chain)[..keep] == d.chain[..keep];
    assert Init(d.history)[..|p.history| - (n - 1)] == d.history[..|d.history| - n];
    ShrunkOnce(d.blocks, n);
    ShrunkOnce(d.stored, n);
  }

  lemma {:induction false} ShrunkOnce<T>(s: seq<T>, n: nat)
    requires n > 0
    ensures Shrunk(Shrunk(s, 1), n - 1) == Shrunk(s, n)
  {
  }

  lemma {:induction false} CutKeepsValid(d: Deques, keep: nat, first: nat)
    requires d.Valid(first) && (if d.fin then 1 else 0) <= keep <= |d.chain|
    ensures Cut(d, keep).Valid(first) && Cut(d, keep).Finalized() == d.Finalized()
    decreases |d.chain|
  {
    hide Deques.Linked, Deques.Ordered, Deques.Safe, Deques.Reported;
    if keep < |d.chain| {
      PoppedKeepsValid(d, first);
      CutOnce(d, keep);
      CutKeepsValid(Popped(d), keep, first);
    } else {
      assert Cut(d, keep) == d;
    }
  }

  /** A push from a source that emits well-formed blocks from `first` on; no block in hand is the
      parent of a genesis block. */
  ghost predicate CanPush(d: Deques, block: Block, first: nat) {
    && block.Plausible() && block.number >= first
    && (block.parentNumber == block.number ==> block.Parent() !in d.chain)
  }

  /** Pushing never touches finalized history, whether the block is taken or refused. */
  lemma {:induction false} PushKeepsValid(d: Deques, block: Block, first: nat)
    requires d.Valid(first) && CanPush(d, block, first)
    ensures Push(d, block).1.Valid(first) && Push(d, block).1.Finalized() == d.Finalized()
  {
    hide Deques.Linked, Deques.Ordered, Deques.Safe, Deques.Reported, Deques.Finalized;
    var (outcome, keep) := Landing(d.chain, d.fin, block);
    CutKeepsValid(d, keep, first);
    if outcome.Attached? {
      assert keep > 0 ==> Last(d.chain[..keep]) == d.chain[keep - 1] && d.chain[keep - 1] in d.chain;
      AppendedKeepsValid(Cut(d, keep), block, first);
    }
  }

  /** The condition is exact: a block that has its parent's number, pushed onto that very parent, leaves two references with
      one number. */
  lemma {:induction false} CanPushIsExact(d: Deques, block: Block, first: nat)
    requires d.Valid(first) && block.Plausible() && block.number >= first
    ensures CanPush(d, block, first) <==> Push(d, block).1.Valid(first)
  {
    hide Deques.Linked, Deques.Safe, Deques.Reported, Deques.Finalized;
    if CanPush(d, block, first) {
      PushKeepsValid(d, block, first);
    } else {
      var i :| 0 <= i < |d.chain| && d.chain[i] == block.Parent();
      assert d.chain[i] == d.history[d.C() + i] && d.chain[i].number == 0;
      ZeroIsFirst(d.history, d.C() + i);
      var p := Push(d, block).1;
      assert Landing(d.chain, d.fin, block) == (Attached, 1);
      assert p.history == [d.history[0], block.Id()];
      assert p.history[0].number == p.history[1].number;
    }
  }

  lemma {:induction false} ZeroIsFirst(history: seq<Ref>, i: nat)
    requires Ascending(history) && i < |history| && history[i].number == 0
    ensures i == 0
  {
    var start := history[0];
  }

  // ----- cleaning -----

  /** How many of the oldest blocks are stored and not needed to keep the minimum. */
  function Droppable(stored: seq<bool>, minSize: nat): (k: nat)
    ensures k <= |stored| && (k > 0 ==> k <= |stored| - minSize)
    ensures (forall i :: 0 <= i < k ==> stored[i]) && (k < |stored| - minSize ==> !stored[k])
  {
    if |stored| > minSize && stored[0] then 1 + Droppable(stored[1..], minSize) else 0
  }

  function Cleaned(d: Deques, k: nat): Deques
    requires k <= |d.blocks| && k <= |d.stored| && (!d.fin ==> k <= |d.chain|)
  {
    d.(blocks := d.blocks[k..], stored := d.stored[k..], chain := if d.fin then d.chain else d.chain[k..])
  }

  lemma {:induction false} CleanedKeepsAligned(d: Deques, k: nat)
    requires d.Aligned() && d.Linked() && k <= |d.blocks|
    ensures Cleaned(d, k).Aligned() && Cleaned(d, k).Linked()
  {
    var p := Cleaned(d, k);
    forall i | 0 <= i < |p.blocks| ensures p.blocks[i] == d.blocks[i + k] && p.B() + i == d.B() + (i + k) {
    }
    assert p.Aligned();
  }

  lemma {:induction false} CleanedKeepsSafe(d: Deques, k: nat)
    requires d.Aligned() && d.Safe() && d.Reported() && k <= |d.blocks| && Cleaned(d, k).Aligned()
    requires forall i :: 0 <= i < k ==> d.stored[i]
    ensures Cleaned(d, k).Safe() && Cleaned(d, k).Reported()
  {
    var p := Cleaned(d, k);
    forall j | 0 <= j < p.B() ensures p.history[j] in p.saved {
      if j >= d.B() { assert d.blocks[j - d.B()].Id() == d.history[j] && d.stored[j - d.B()]; }
    }
    forall i | 0 <= i < |p.stored| && p.stored[i] ensures p.blocks[i].Id() in p.saved {
      assert p.stored[i] == d.stored[i + k] && p.blocks[i] == d.blocks[i + k];
    }
  }

  lemma {:induction false} CleanedKeepsValid(d: Deques, k: nat, first: nat)
    requires d.Valid(first) && k <= |d.blocks| && forall i :: 0 <= i < k ==> d.stored[i]
    ensures Cleaned(d, k).Valid(first) && Cleaned(d, k).Finalized() == d.Finalized()
  {
    hide Deques.Linked, Ascending, Deques.Safe, Deques.Reported;
    CleanedKeepsAligned(d, k);
    CleanedKeepsSafe(d, k);
  }

  // ----- finalizing -----

  datatype Verdict = Unchanged | Changed | Mismatch

  /** The finalized head becomes the reference at `pos`. */
  function FinalAt(d: Deques, pos: nat): Deques
    requires pos < |d.chain|
  {
    d.(fin := true, chain := d.chain[pos..])
  }

  function Finalize(d: Deques, head: Ref): (Verdict, Deques) {
    if d.chain == [] || head.number < d.chain[0].number then (Unchanged, d)
    else if Last(d.chain).number < head.number then
      if |d.chain| > 1 then (Changed, FinalAt(d, |d.chain| - 1)) else (Unchanged, d)
    else
      var pos := Lower(d.chain, head.number);
      if pos < |d.chain| && d.chain[pos] == head
      then (if d.fin && pos == 0 then Unchanged else Changed, FinalAt(d, pos))
      else (Mismatch, d)
  }

  lemma {:induction false} FinalAtKeepsAligned(d: Deques, pos: nat)
    requires d.Aligned() && pos < |d.chain|
    ensures FinalAt(d, pos).Aligned() && d.Finalized() <= FinalAt(d, pos).Finalized()
    ensures FinalAt(d, pos).Finalized() != [] && Last(FinalAt(d, pos).Finalized()) == d.chain[pos]
  {
    var p := FinalAt(d, pos);
    forall i | 0 <= i < |p.chain| ensures p.chain[i] == p.history[p.C() + i] {
      assert p.chain[i] == d.chain[i + pos];
    }
    assert d.chain[pos] == d.history[d.C() + pos];
  }

  lemma {:induction false} FinalAtKeepsValid(d: Deques, pos: nat, first: nat)
    requires d.Valid(first) && pos < |d.chain|
    ensures FinalAt(d, pos).Valid(first) && d.Finalized() <= FinalAt(d, pos).Finalized()
    ensures FinalAt(d, pos).Finalized() != [] && Last(FinalAt(d, pos).Finalized()) == d.chain[pos]
  {
    hide Deques.Aligned, Deques.Finalized, Ascending;
    FinalAtKeepsAligned(d, pos);
  }

  lemma {:induction false} FinalizeKeepsValid(d: Deques, head: Ref, first: nat)
    requires d.Valid(first)
    ensures Finalize(d, head).1.Valid(first) && d.Finalized() <= Finalize(d, head).1.Finalized()
    ensures Finalize(d, head).0.Mismatch? ==> Finalize(d, head).1 == d
  {
    hide Deques.Aligned, Deques.Ordered, Deques.Linked, Deques.Safe, Deques.Reported, Deques.Finalized, Lower;
    forall pos: nat | pos < |d.chain| ensures FinalAt(d, pos).Valid(first) && d.Finalized() <= FinalAt(d, pos).Finalized() {
      FinalAtKeepsValid(d, pos, first);
    }
  }

  // ----- what the observers see -----

  function FirstUnstored(stored: seq<bool>): (k: nat)
    ensures k <= |stored| && (forall i :: 0 <= i < k ==> stored[i]) && (k < |stored| ==> !stored[k])
  {
    if stored == [] || !stored[0] then 0 else 1 + FirstUnstored(stored[1..])
  }

  function StoredHead(d: Deques): Option<Ref>
    requires |d.stored| == |d.blocks|
  {
    var k := FirstUnstored(d.stored);
    if k < |d.blocks| then Some(d.blocks[k].Parent())
    else if d.chain == [] then None
    else Some(Last(d.chain))
  }

  /** Every block of the current chain at or below the reference is saved. */
  ghost predicate CoveredBySaves(d: Deques, head: Ref) {
    forall j :: 0 <= j < |d.history| && d.history[j].number <= head.number ==> d.history[j] in d.saved
  }

  /** The stored head is safe to publish, except in front of a genesis block that is its own
      parent by number: then it is safe exactly when that block happens to be saved already. */
  lemma {:induction false} StoredHeadIsSafe(d: Deques, first: nat)
    requires d.Valid(first) && StoredHead(d).Some?
    ensures var k := FirstUnstored(d.stored);
            CoveredBySaves(d, StoredHead(d).value) <==>
            (k < |d.blocks| && d.blocks[k].parentNumber == d.blocks[k].number ==> d.blocks[k].Id() in d.saved)
  {
    hide FirstUnstored;
    var k := FirstUnstored(d.stored);
    forall j | 0 <= j < d.B() + k ensures d.history[j] in d.saved {
      if j >= d.B() { assert d.blocks[j - d.B()].Id() == d.history[j] && d.stored[j - d.B()]; }
    }
    if k < |d.blocks| {
      assert d.history[d.B() + k] == d.blocks[k].Id();
    }
  }

  function StoredFinalizedHead(d: Deques): Option<Ref>
    requires |d.stored| == |d.blocks| && (d.fin ==> d.chain != [])
  {
    if !d.fin then None
    else if |d.chain| > |d.blocks| then Some(d.chain[0])
    else
      var i := HighestStored(d.stored, |d.blocks| - |d.chain|);
      if i.Some? then Some(d.blocks[i.value].Id()) else None
  }

  /** The place in history of the stored finalized head. */
  function StoredFinalizedAt(d: Deques): nat
    requires d.Aligned() && StoredFinalizedHead(d).Some?
  {
    if |d.chain| > |d.blocks| then d.C() else d.B() + HighestStored(d.stored, |d.blocks| - |d.chain|).value
  }

  /** A stored finalized head names a saved block of the finalized history and is never below what
      was reported before, whatever happened in between. */
  lemma {:induction false} StoredFinalizedIsMonotone(d: Deques, first: nat)
    requires d.Valid(first) && StoredFinalizedHead(d).Some?
    ensures var at := StoredFinalizedAt(d);
            && d.fin && at <= d.C() < |d.history| && d.history[at] == StoredFinalizedHead(d).value && d.history[at] in d.saved
            && (d.reported.Some? ==> d.reported.value <= at && d.history[d.reported.value].number <= d.history[at].number)
            && d.(reported := Some(at)).Valid(first)
  {
    hide HighestStored;
    var at := StoredFinalizedAt(d);
    if |d.chain| > |d.blocks| {
      assert d.chain[0] == d.history[d.C()];
    } else {
      assert d.blocks[at - d.B()].Id() == d.history[at];
    }
  }
}
