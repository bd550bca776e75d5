/** What pushing and finalizing do to the live chain (crates/bds/src/chain.rs), said about its references alone and without
    the functions that compute it. */
module BdsLaws {
  import opened BdsChain
  import BdsLive
  import opened BdsRuns
  import opened BdsSearch
  import opened Options

  // ----- finalizing -----

  /** Only what is final, and thus the front of the chain, may differ. */
  ghost predicate SameBlocks(d: Deques, e: Deques) {
    e.blocks == d.blocks && e.stored == d.stored && e.history == d.history && e.saved == d.saved && e.reported == d.reported
  }

  /** `r` is the finalized head, and the chain goes on behind it as before. */
  ghost predicate FinalNow(d: Deques, e: Deques, r: Ref)
    requires e.Aligned()
  {
    && e.Finalized() != [] && Last(e.Finalized()) == r && e.chain != [] && e.chain[0] == r
    && forall q :: q in e.chain <==> q in d.chain && q.number >= r.number
  }

  /** A reported reference of the chain becomes the finalized head; a report above the newest of several makes the newest
      final; a report below the oldest, or above a lone reference, changes nothing; any other contradicts the chain. */
  ghost predicate Finalizes(d: Deques, head: Ref, v: Verdict, e: Deques)
    requires e.Aligned()
  {
    var c := d.chain;
    if c == [] || head.number < c[0].number || (Last(c).number < head.number && |c| == 1) then v == Unchanged && e == d
    else if Last(c).number < head.number then v == Changed && FinalNow(d, e, Last(c)) && SameBlocks(d, e)
    else if head in c then
      v == (if d.fin && c[0] == head then Unchanged else Changed) && FinalNow(d, e, head) && SameBlocks(d, e)
    else v == Mismatch && e == d
  }

  lemma {:induction false} FinalizeIsExact(d: Deques, head: Ref, first: nat)
    requires d.Valid(first)
    ensures Finalize(d, head).1.Aligned() && Finalizes(d, head, Finalize(d, head).0, Finalize(d, head).1)
  {
    hide Deques.Linked, Deques.Safe, Deques.Reported, Deques.Ordered, Deques.Aligned, Deques.Finalized, Lower, Ascending, FinalNow,
      SameBlocks, FinalAt;
    BdsLive.ChainAscends(d, first);
    var c := d.chain;
    if c != [] && c[0].number <= head.number {
      FinalAtIs(d, |c| - 1, first);
      if head in c {
        var i := PlaceOf(c, head);
        FinalAtIs(d, i, first);
      }
    }
  }

  lemma {:induction false} PlaceOf(chain: seq<Ref>, r: Ref) returns (i: nat)
    requires Ascending(chain) && r in chain
    ensures i < |chain| && chain[i] == r && Lower(chain, r.number) == i && (r == chain[0] <==> i == 0)
  {
    hide Lower;
    i :| 0 <= i < |chain| && chain[i] == r;
    LowerAt(chain, i);
    OnlyFirst(chain, i);
  }

  lemma {:induction false} LowerAt(chain: seq<Ref>, i: nat)
    requires Ascending(chain) && i < |chain|
    ensures Lower(chain, chain[i].number) == i
  {
    hide Lower;
    LowerIs(chain, chain[i].number, i);
  }

  lemma {:induction false} OnlyFirst(chain: seq<Ref>, i: nat)
    requires Ascending(chain) && i < |chain|
    ensures chain[i] == chain[0] <==> i == 0
  {
  }

  /** The verdict tells whether there is another finalized head. */
  lemma {:induction false} VerdictIsExact(d: Deques, head: Ref, first: nat)
    requires d.Valid(first)
    ensures var (v, e) := Finalize(d, head);
            v.Changed? <==> e.fin && e.chain != [] && !(d.fin && d.chain != [] && d.chain[0] == e.chain[0])
  {
    hide Deques.Linked, Deques.Safe, Deques.Reported, Deques.Ordered, Lower, Ascending, FinalAt, Finalize;
    FinalizeIsExact(d, head, first);
    BdsLive.ChainAscends(d, first);
    if |d.chain| > 1 { OnlyFirst(d.chain, |d.chain| - 1); }
  }

  lemma {:induction false} FinalAtIs(d: Deques, pos: nat, first: nat)
    requires d.Valid(first) && Ascending(d.chain) && pos < |d.chain|
    ensures FinalAt(d, pos).Aligned() && FinalNow(d, FinalAt(d, pos), d.chain[pos]) && SameBlocks(d, FinalAt(d, pos))
  {
    hide Deques.Linked, Deques.Safe, Deques.Reported, Deques.Ordered, Deques.Finalized, Deques.Aligned;
    FinalAtKeepsAligned(d, pos);
    var r, rest := d.chain[pos], d.chain[pos..];
    forall q ensures q in rest <==> q in d.chain && q.number >= r.number {
      if q in rest {
        var i :| 0 <= i < |rest| && rest[i] == q;
        assert d.chain[pos + i] == q;
      }
      if q in d.chain && q.number >= r.number {
        var i :| 0 <= i < |d.chain| && d.chain[i] == q;
        assert rest[i - pos] == q;
      }
    }
  }

  // ----- pushing -----

  /** The references numbered below `n`, in order. */
  ghost predicate KeepsBelow(chain: seq<Ref>, n: nat, kept: seq<Ref>) {
    kept <= chain && forall q :: q in kept <==> q in chain && q.number < n
  }

  /** A block goes behind its parent, which drops what was there; onto nothing at all; or, when all references are at or above
      its parent's number and none is final, in place of all of them. It is refused when its parent is missing above some
      reference, or contradicts the finalized head; what is not below the parent is dropped then too, up to the finalized
      head. */
  ghost predicate Lands(c: seq<Ref>, fin: bool, block: Block, v: Pushed, c': seq<Ref>) {
    var p := block.Parent();
    if p in c then v == Attached && Behind(c, p, c', block.Id())
    else if c == [] then v == Attached && c' == [block.Id()]
    else if exists q :: q in c && q.number < p.number then v == Missing && KeepsBelow(c, p.number, c')
    else if fin then v == Conflicting && c' == c[..1]
    else v == Attached && c' == [block.Id()]
  }

  ghost predicate Behind(c: seq<Ref>, p: Ref, c': seq<Ref>, r: Ref) {
    exists i :: 0 <= i < |c| && c[i] == p && c' == c[..i + 1] + [r]
  }

  lemma {:induction false} PushIsExact(d: Deques, block: Block, first: nat)
    requires d.Valid(first)
    ensures |d.chain| <= |d.history| && Lands(d.chain, d.fin, block, Push(d, block).0, Push(d, block).1.chain)
    ensures var (v, e) := Push(d, block);
            && e.fin == d.fin && e.saved == d.saved && e.reported == d.reported
            && (v.Attached? ==> e.blocks != [] && Last(e.blocks) == block && e.stored != [] && !Last(e.stored))
  {
    hide Deques.Linked, Deques.Safe, Deques.Reported, Deques.Ordered, Lower, Ascending, Deques.Aligned, Lands, Landing;
    BdsLive.ChainAscends(d, first);
    ChainFits(d, first);
    LandingIsExact(d.chain, d.fin, block);
  }

  lemma {:induction false} LandingIsExact(c: seq<Ref>, fin: bool, block: Block)
    requires Ascending(c)
    ensures var (v, keep) := Landing(c, fin, block);
            Lands(c, fin, block, v, if v.Attached? then c[..keep] + [block.Id()] else c[..keep])
  {
    hide Lower, Ascending, KeepsBelow;
    var p := block.Parent();
    LowerSplits(c, p.number);
    if p in c {
      var i :| 0 <= i < |c| && c[i] == p;
      LowerAt(c, i);
    } else if Lower(c, p.number) > 0 {
      assert c[0] in c;
    }
  }

  lemma {:induction false} ChainFits(d: Deques, first: nat)
    requires d.Valid(first)
    ensures |d.chain| <= |d.history| && |d.stored| == |d.blocks| && (d.fin ==> d.chain != [])
  {
  }

  lemma {:induction false} LowerSplits(chain: seq<Ref>, n: nat)
    requires Ascending(chain)
    ensures Lower(chain, n) <= |chain| && KeepsBelow(chain, n, chain[..Lower(chain, n)])
    ensures Lower(chain, n) == 0 <==> !exists q :: q in chain && q.number < n
  {
    var m := Lower(chain, n);
    forall i | 0 <= i < |chain| ensures chain[i].number < n <==> i < m {
      if m <= i { assert chain[m].number <= chain[i].number; }
    }
    forall q ensures q in chain[..m] <==> q in chain && q.number < n {
      if q in chain && q.number < n {
        var i :| 0 <= i < |chain| && chain[i] == q;
        assert chain[..m][i] == q;
      }
    }
    if m > 0 { assert chain[0] in chain; }
  }

  // ----- what the observers see -----

  /** The block at place `j` of the history is in hand and not flagged as stored. */
  ghost predicate Awaits(d: Deques, j: nat)
    requires d.Aligned()
  {
    d.B() <= j < |d.history| && !d.stored[j - d.B()]
  }

  /** The stored head is right in front of the oldest block that is not stored yet; with none, it is the newest reference. */
  lemma {:induction false} StoredHeadIsExact(d: Deques, first: nat)
    requires d.Valid(first)
    ensures forall j: nat :: Awaits(d, j) && j > 0 && (forall i: nat :: i < j ==> !Awaits(d, i)) ==> StoredHead(d) == Some(d.history[j - 1])
    ensures (forall j: nat :: !Awaits(d, j)) ==> StoredHead(d) == if d.chain == [] then None else Some(Last(d.chain))
  {
    hide Deques.Safe, Deques.Reported, Deques.Ordered, FirstUnstored;
    var k := FirstUnstored(d.stored);
    if k < |d.blocks| {
      assert Awaits(d, d.B() + k);
      forall i: nat | i < d.B() + k ensures !Awaits(d, i) {}
    }
  }

  /** The place is at or below the finalized head, and its block is stored or no longer in hand. */
  ghost predicate Settles(d: Deques, j: nat)
    requires d.Aligned()
  {
    d.fin && j <= d.C() && !Awaits(d, j)
  }

  /** The stored finalized head is the highest such place whose block is still in hand, or the finalized head itself if its
      block is not. */
  lemma {:induction false} StoredFinalizedIsExact(d: Deques, first: nat)
    requires d.Valid(first)
    ensures StoredFinalizedHead(d).Some? <==> d.fin && exists j: nat :: Settles(d, j) && (d.B() <= j || j == d.C())
    ensures StoredFinalizedHead(d).Some? ==>
              exists j: nat :: Settles(d, j) && StoredFinalizedHead(d).value == d.history[j] && forall i: nat :: Settles(d, i) ==> i <= j
  {
    hide Deques.Safe, Deques.Reported, Deques.Ordered, Deques.Linked, HighestStored;
    if d.fin {
      if |d.chain| > |d.blocks| {
        assert Settles(d, d.C()) && d.chain[0] == d.history[d.C()];
      } else {
        var at := HighestStored(d.stored, |d.blocks| - |d.chain|);
        if at.Some? {
          var j: nat := d.B() + at.value;
          assert Settles(d, j) && d.blocks[at.value].Id() == d.history[j];
          forall i: nat | j < i <= d.C() ensures Awaits(d, i) { assert !d.stored[i - d.B()]; }
        } else {
          forall i: nat | d.B() <= i <= d.C() ensures Awaits(d, i) { assert !d.stored[i - d.B()]; }
        }
      }
    }
  }

  /** Marking a block that is in hand flags it and no other, and leaves nothing to clean: the oldest block is not stored, or
      no more than the minimum are left. Marking any other block changes nothing. */
  lemma {:induction false} MarkIsExact(d: Deques, r: Ref, minSize: nat, first: nat)
    requires d.Valid(first)
    ensures var e := Settled(d, r, minSize);
            && (r !in Ids(d.blocks) ==> e == d)
            && (r in Ids(d.blocks) ==>
                  && (e.blocks == [] || !e.stored[0] || |e.blocks| <= minSize)
                  && exists k :: 0 <= k <= |d.blocks| && DropsStored(d, r, e, k))
  {
    hide Deques.Linked, Deques.Safe, Deques.Reported, Deques.Ordered, Droppable, Deques.Aligned;
    ChainFits(d, first);
    var p := Flagged(d, r);
    if r in Ids(d.blocks) {
      var i :| 0 <= i < |d.blocks| && Ids(d.blocks)[i] == r;
      assert d.blocks[i].Id() == r;
      CleanedDrops(d, r, Droppable(p.stored, minSize));
    } else {
      forall i | 0 <= i < |d.blocks| ensures d.blocks[i].Id() != r { assert Ids(d.blocks)[i] == d.blocks[i].Id(); }
      assert p.stored == d.stored;
    }
  }

  lemma {:induction false} CleanedDrops(d: Deques, r: Ref, k: nat)
    requires d.Aligned() && k <= |d.blocks| && forall i :: 0 <= i < k ==> Flagged(d, r).stored[i]
    ensures DropsStored(d, r, Cleaned(Flagged(d, r), k), k)
  {
    var p := Flagged(d, r);
    forall i | 0 <= i < k ensures d.stored[i] || d.blocks[i].Id() == r { assert p.stored[i]; }
  }

  /** The oldest `k` blocks, all stored, are gone; of the others exactly those stored before or named `r` are stored. */
  ghost predicate DropsStored(d: Deques, r: Ref, e: Deques, k: nat)
    requires d.Aligned() && k <= |d.blocks|
  {
    && e.blocks == d.blocks[k..] && |e.stored| == |e.blocks|
    && (forall i :: 0 <= i < k ==> d.stored[i] || d.blocks[i].Id() == r)
    && (forall i :: k <= i < |d.blocks| ==> (e.stored[i - k] <==> d.stored[i] || d.blocks[i].Id() == r))
  }

  /** A final block that attaches is the finalized head. */
  lemma {:induction false} FinalBlockIsFinal(d: Deques, block: Block, first: nat)
    requires d.Valid(first) && CanPush(d, block, first) && Push(d, block).0.Attached?
    ensures var e := Grown(d, true, block); e.Aligned() && e.Finalized() != [] && Last(e.Finalized()) == block.Id()
  {
    hide Deques.Linked, Deques.Safe, Deques.Reported, Deques.Ordered, Deques.Aligned, Deques.Finalized, Push, CanPush;
    ChainFits(d, first);
    PushKeepsValid(d, block, first);
    PushedIsLast(d, block, first);
    var d' := Push(d, block).1;
    FinalAtKeepsAligned(d', |d'.chain| - 1);
  }

  /** What the finalization loop takes note of is where its next range starts. */
  lemma {:induction false} NotedIsNext(d: Deques, first: nat)
    requires d.Valid(first) && StoredFinalizedHead(d).Some?
    ensures Noted(d).Valid(first) && RangeFrom(Noted(d), first) == StoredFinalizedHead(d).value.number
  {
    hide Deques.Linked, Deques.Safe, Deques.Reported, Deques.Ordered, StoredFinalizedHead, StoredFinalizedAt;
    StoredFinalizedIsMonotone(d, first);
  }

  // ----- over whole runs -----

  /** The step says that everything up to this number is final. */
  ghost predicate Vouches(op: Op, n: nat) {
    (op.Final? && n <= op.head.number) || (op.Grow? && op.isFinal && n <= op.block.number)
  }

  lemma {:induction false} StepVouched(d: Deques, op: Op, minSize: nat, first: nat)
    requires d.Valid(first) && Legal(d, op, first)
    ensures Apply(d, op, minSize).Valid(first)
    ensures forall r :: r in Apply(d, op, minSize).Finalized() ==> r in d.Finalized() || Vouches(op, r.number)
  {
    hide Deques.Linked, Deques.Safe, Deques.Reported, Deques.Ordered, Deques.Finalized, Deques.Aligned, Settled, Noted, Finalize, Grown;
    StepAdvances(d, op, minSize, first);
    var e := Apply(d, op, minSize);
    match op
    case Grow(isFinal, block) => GrowVouched(d, isFinal, block, first);
    case Final(head) => FinalVouched(d, head, first);
    case Saved(r) => SameFinal(d, e);
    case Mark(r) => MarkVouched(d, r, minSize, first);
    case Report => NotedVouched(d);
  }

  lemma {:induction false} SameFinal(d: Deques, e: Deques)
    requires d.Aligned() && e.Aligned() && e.fin == d.fin && e.history == d.history && |e.chain| == |d.chain|
    ensures e.Finalized() == d.Finalized()
  {
  }

  lemma {:induction false} NotedVouched(d: Deques)
    requires d.Aligned() && Noted(d).Aligned()
    ensures Noted(d).Finalized() == d.Finalized()
  {
    hide StoredFinalizedHead, StoredFinalizedAt;
  }

  lemma {:induction false} MarkVouched(d: Deques, r: Ref, minSize: nat, first: nat)
    requires d.Valid(first) && r in d.saved
    ensures Settled(d, r, minSize).Aligned() && Settled(d, r, minSize).Finalized() == d.Finalized()
  {
    hide Deques.Linked, Deques.Safe, Deques.Reported, Deques.Ordered, Deques.Aligned, Deques.Finalized, Flagged, Cleaned;
    ChainFits(d, first);
    FlaggedKeepsValid(d, r, first);
    var p := Flagged(d, r);
    ChainFits(p, first);
    FlaggedFinal(d, r);
    CleanedKeepsValid(p, Droppable(p.stored, minSize), first);
  }

  lemma {:induction false} FlaggedFinal(d: Deques, r: Ref)
    requires d.Aligned() && Flagged(d, r).Aligned()
    ensures Flagged(d, r).Finalized() == d.Finalized()
  {
  }

  lemma {:induction false} FinalVouched(d: Deques, head: Ref, first: nat)
    requires d.Valid(first)
    ensures var e := Finalize(d, head).1;
            e.Aligned() && forall r :: r in e.Finalized() ==> r in d.Finalized() || r.number <= head.number
  {
    hide Deques.Linked, Deques.Safe, Deques.Reported, Deques.Aligned, Deques.Finalized, Finalize;
    FinalizeKeepsValid(d, head, first);
    FinalizeIsExact(d, head, first);
    var e := Finalize(d, head).1;
    if e != d { FinalBound(e, head.number, first); }
  }

  lemma {:induction false} GrowVouched(d: Deques, isFinal: bool, block: Block, first: nat)
    requires d.Valid(first) && CanPush(d, block, first)
    ensures var e := Grown(d, isFinal, block);
            e.Aligned() && forall r :: r in e.Finalized() ==> r in d.Finalized() || (isFinal && r.number <= block.number)
  {
    hide Deques.Linked, Deques.Safe, Deques.Reported, Deques.Ordered, Deques.Aligned, Deques.Finalized, Push, CanPush, FinalAt;
    ChainFits(d, first);
    PushKeepsValid(d, block, first);
    GrownKeeps(d, isFinal, block, first);
    var (v, d') := Push(d, block);
    if v.Attached? && isFinal {
      PushedIsLast(d, block, first);
      FinalAtKeepsAligned(d', |d'.chain| - 1);
      FinalBound(Grown(d, isFinal, block), block.number, first);
    }
  }

  lemma {:induction false} PushedIsLast(d: Deques, block: Block, first: nat)
    requires d.Valid(first) && Push(d, block).0.Attached?
    ensures Push(d, block).1.chain != [] && Last(Push(d, block).1.chain) == block.Id()
  {
  }

  /** The finalized head is the highest of what is final. */
  lemma {:induction false} FinalBound(e: Deques, n: nat, first: nat)
    requires e.Valid(first) && e.Finalized() != [] && Last(e.Finalized()).number <= n
    ensures forall r :: r in e.Finalized() ==> r.number <= n
  {
    hide Deques.Linked, Deques.Safe, Deques.Reported;
    var f := e.Finalized();
    forall i | 0 <= i < |f| ensures f[i].number <= n {
      assert f[i] == e.history[i] && Last(f) == e.history[|f| - 1];
    }
  }

  /** Nothing becomes final but what a report or a final block vouches for. */
  lemma {:induction false} FinalIsVouched(d: Deques, ops: seq<Op>, minSize: nat, first: nat, r: Ref)
    requires d.Valid(first) && LegalRun(d, ops, minSize, first) && r in Run(d, ops, minSize, first).Finalized()
    ensures r in d.Finalized() || exists op :: op in ops && Vouches(op, r.number)
    decreases ops
  {
    hide Deques.Linked, Deques.Safe, Deques.Reported, Deques.Ordered, Deques.Finalized, Apply, Legal, Vouches;
    if ops != [] {
      StepVouched(d, ops[0], minSize, first);
      var e := Apply(d, ops[0], minSize);
      FinalIsVouched(e, ops[1..], minSize, first, r);
      if r !in e.Finalized() {
        var op :| op in ops[1..] && Vouches(op, r.number);
        assert op in ops;
      } else if r !in d.Finalized() {
        assert ops[0] in ops;
      }
    }
  }
}
