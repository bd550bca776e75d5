/** The live chain as an object. */
module BdsLive {
  import opened BdsChain
  import opened BdsSearch
  import opened Options

  class Chain {
    var chain: seq<Ref>
    var fin: bool
    var blocks: seq<Block>
    var stored: seq<bool>
    const minSize: nat
    const firstBlock: nat

    ghost var history: seq<Ref>
    ghost var saved: set<Ref>
    ghost var reported: Option<nat>

    ghost function State(): Deques
      reads this
    {
      Deques(chain, fin, blocks, stored, history, saved, reported)
    }

    ghost predicate Valid()
      reads this
    {
      State().Valid(firstBlock)
    }

    /** `head` is empty or starts with the highest finalized block; all of it is in the store. */
    constructor (head: seq<Ref>, minSize: nat, firstBlock: nat)
      requires Ascending(head) && forall i :: 0 <= i < |head| ==> head[i].number >= firstBlock
      ensures Valid() && State() == Deques(head, head != [], [], [], head, (set r | r in head), None)
      ensures this.minSize == minSize && this.firstBlock == firstBlock
    {
      this.chain, this.fin, this.blocks, this.stored := head, head != [], [], [];
      this.minSize, this.firstBlock := minSize, firstBlock;
      this.history, this.saved, this.reported := head, (set r | r in head), None;
    }

    /** Pops the blocks of a fork and attaches the new one. A refused block leaves the pops behind. */
    method Push(block: Block) returns (outcome: Pushed)
      requires Valid() && CanPush(State(), block, firstBlock)
      modifies this`chain, this`blocks, this`stored, this`history
      ensures (outcome, State()) == BdsChain.Push(old(State()), block)
      ensures Valid() && State().Finalized() == old(State().Finalized())
    {
      hide Deques.Linked, Deques.Ordered, Deques.Safe, Deques.Reported, Landing, Cut, Ascending;
      PushKeepsValid(State(), block, firstBlock);
      ChainAscends(State(), firstBlock);
      ghost var keep := Landing(chain, fin, block).1;
      while true
        invariant Valid() && keep <= |chain| <= |old(chain)| && chain == old(chain)[..|chain|]
        invariant Cut(State(), keep) == Cut(old(State()), keep)
        invariant fin == old(fin) && saved == old(saved) && reported == old(reported)
        decreases |chain|
      {
        LandingStep(old(chain), fin, block, |chain|);
        if |chain| == keep { CutSelf(State()); }
        if chain == [] {
          PushBack(block);
          return Attached;
        }
        var prev := chain[|chain| - 1];
        assert prev == old(chain)[|chain| - 1];
        if prev == block.Parent() {
          PushBack(block);
          return Attached;
        }
        if block.parentNumber > prev.number { return Missing; }
        if fin {
          if |chain| <= 1 { return Conflicting; }
        } else {
          assert |chain| == |blocks|;
        }
        CutOnce(State(), keep);
        PoppedKeepsValid(State(), firstBlock);
        PopBack();
      }
    }

    method PushBack(block: Block)
      modifies this`chain, this`blocks, this`stored, this`history
      ensures State() == Appended(old(State()), block)
    {
      history := (if chain == [] then [] else history) + [block.Id()];
      chain := chain + [block.Id()];
      blocks := blocks + [block];
      stored := stored + [false];
    }

    method PopBack()
      requires chain != [] && history != []
      modifies this`chain, this`blocks, this`stored, this`history
      ensures State() == Popped(old(State()))
    {
      chain := chain[..|chain| - 1];
      blocks := if blocks == [] then [] else blocks[..|blocks| - 1];
      stored := if stored == [] then [] else stored[..|stored| - 1];
      history := history[..|history| - 1];
    }

    /** The store has saved a block; any block, in any order, at any time. */
    ghost method Save(r: Ref)
      requires Valid()
      modifies this`saved
      ensures Valid() && State() == old(State()).(saved := old(saved) + {r})
    {
      hide Deques.Valid;
      SavedKeepsValid(State(), r, firstBlock);
      saved := saved + {r};
    }

    /** Flags a block as stored if it is still part of the chain. */
    method MarkStored(number: nat, hash: string) returns (marked: bool)
      requires Valid() && Ref(number, hash) in saved
      modifies this`stored
      ensures Valid() && State() == old(State()).(stored := stored) && |stored| == |old(stored)|
      ensures marked <==> exists i :: 0 <= i < |blocks| && blocks[i].Id() == Ref(number, hash)
      ensures forall i :: 0 <= i < |stored| ==> stored[i] == (old(stored)[i] || (i < |blocks| && blocks[i].Id() == Ref(number, hash)))
    {
      hide Deques.Linked, Deques.Ordered, Deques.Safe, Deques.Reported;
      ChainAscends(State(), firstBlock);
      var pos := Bisect(Ids(blocks), number);
      if pos == |blocks| || blocks[pos].number != number || blocks[pos].hash != hash {
        return false;
      }
      MarkedKeepsValid(State(), pos, firstBlock);
      stored := stored[pos := true];
      marked := true;
    }

    /** Drops the oldest blocks that are stored, down to the minimum size. The chain of references
        is shortened only before anything is final. */
    method Clean() returns (dropped: bool)
      requires Valid()
      modifies this`chain, this`blocks, this`stored
      ensures Valid()
      ensures dropped <==> Droppable(old(stored), minSize) > 0
      ensures State() == Cleaned(old(State()), Droppable(old(stored), minSize))
      ensures State().Finalized() == old(State().Finalized())
    {
      hide Deques.Linked, Deques.Ordered, Deques.Safe, Deques.Reported, Droppable;
      ghost var n := Droppable(stored, minSize);
      CleanedKeepsValid(State(), n, firstBlock);
      var k := 0;
      var limit := if |blocks| >= minSize then |blocks| - minSize else 0;
      assert State() == Cleaned(State(), 0);
      while k < limit && stored[0]
        invariant k <= n && k <= limit && (n < limit ==> !old(stored)[n])
        invariant State() == Cleaned(old(State()), k)
      {
        stored := stored[1..];
        blocks := blocks[1..];
        if !fin {
          chain := chain[1..];
        }
        k := k + 1;
      }
      return k > 0;
    }

    method Finalize(head: Ref) returns (verdict: Verdict)
      requires Valid()
      modifies this`chain, this`fin
      ensures Valid() && (verdict, State()) == BdsChain.Finalize(old(State()), head)
      ensures old(State().Finalized()) <= State().Finalized()
    {
      hide Deques.Linked, Deques.Ordered, Deques.Safe, Deques.Reported, Ascending;
      FinalizeKeepsValid(State(), head, firstBlock);
      ChainAscends(State(), firstBlock);
      if chain == [] || head.number < chain[0].number { return Unchanged; }
      if chain[|chain| - 1].number < head.number {
        if |chain| > 1 {
          FinalizeAll();
          return Changed;
        }
        return Unchanged;
      }
      var pos := Bisect(chain, head.number);
      LowerIs(chain, head.number, pos);
      if chain[pos] == head {
        var was := fin;
        fin := true;
        chain := chain[pos..];
        return if was && pos == 0 then Unchanged else Changed;
      }
      return Mismatch;
    }

    /** Everything up to the newest block is final. */
    method FinalizeAll()
      requires Valid()
      modifies this`chain, this`fin
      ensures Valid()
      ensures State() == if |old(chain)| == 0 then old(State()) else FinalAt(old(State()), |old(chain)| - 1)
      ensures old(State().Finalized()) <= State().Finalized()
    {
      hide Deques.Linked, Deques.Ordered, Deques.Safe, Deques.Reported;
      if chain != [] {
        FinalAtKeepsValid(State(), |chain| - 1, firstBlock);
        chain := chain[|chain| - 1..];
        fin := true;
      }
    }

    method GetStoredHead() returns (r: Option<Ref>)
      requires Valid()
      ensures r == StoredHead(State())
    {
      hide Deques.Linked, Deques.Ordered, Deques.Safe, Deques.Reported, FirstUnstored;
      var i := 0;
      while i < |stored| && stored[i]
        invariant i <= |stored| && forall j :: 0 <= j < i ==> stored[j]
      {
        i := i + 1;
      }
      assert i == FirstUnstored(stored);
      if i < |stored| { return Some(blocks[i].Parent()); }
      return if chain == [] then None else Some(chain[|chain| - 1]);
    }

    method GetStoredFinalizedHead() returns (r: Option<Ref>)
      requires Valid()
      ensures r == StoredFinalizedHead(State())
    {
      hide Deques.Linked, Deques.Ordered, Deques.Safe, Deques.Reported, HighestStored;
      if !fin { return None; }
      if |chain| > |blocks| { return Some(chain[0]); }
      var i := |blocks| - |chain|;
      while true
        invariant 0 <= i <= |blocks| - |chain| < |stored| && forall j :: i < j <= |blocks| - |chain| ==> !stored[j]
        decreases i
      {
        if stored[i] { return Some(blocks[i].Id()); }
        if i == 0 { return None; }
        i := i - 1;
      }
    }
  }

  lemma {:induction false} SavedAligned(d: Deques, r: Ref)
    requires d.Aligned()
    ensures d.(saved := d.saved + {r}).Aligned()
    ensures d.Linked() ==> d.(saved := d.saved + {r}).Linked()
    ensures d.Reported() ==> d.(saved := d.saved + {r}).Reported()
  {
  }

  lemma {:induction false} SavedKeepsValid(d: Deques, r: Ref, first: nat)
    requires d.Valid(first)
    ensures d.(saved := d.saved + {r}).Valid(first)
  {
    hide Deques.Aligned, Deques.Linked, Deques.Reported;
    SavedAligned(d, r);
    SavedSafe(d, r);
  }

  lemma {:induction false} SavedSafe(d: Deques, r: Ref)
    requires d.Aligned() && d.Safe() && d.(saved := d.saved + {r}).Aligned()
    ensures d.(saved := d.saved + {r}).Safe()
  {
  }

  lemma {:induction false} MarkedAligned(d: Deques, pos: nat)
    requires d.Aligned() && pos < |d.blocks|
    ensures |d.stored| == |d.blocks| && d.(stored := d.stored[pos := true]).Aligned()
    ensures d.Linked() ==> d.(stored := d.stored[pos := true]).Linked()
  {
  }

  lemma {:induction false} MarkedSafe(d: Deques, pos: nat)
    requires d.Aligned() && d.Safe() && d.Reported() && pos < |d.blocks| == |d.stored| && d.blocks[pos].Id() in d.saved
    requires d.(stored := d.stored[pos := true]).Aligned()
    ensures d.(stored := d.stored[pos := true]).Safe() && d.(stored := d.stored[pos := true]).Reported()
  {
  }

  lemma {:induction false} MarkedKeepsValid(d: Deques, pos: nat, first: nat)
    requires d.Valid(first) && pos < |d.blocks| && d.blocks[pos].Id() in d.saved
    ensures |d.stored| == |d.blocks| && d.(stored := d.stored[pos := true]).Valid(first)
  {
    hide Deques.Aligned, Deques.Linked, Deques.Safe, Deques.Reported;
    MarkedAligned(d, pos);
    MarkedSafe(d, pos);
  }

  lemma {:induction false} ChainAscends(d: Deques, first: nat)
    requires d.Valid(first)
    ensures Ascending(d.chain) && Ascending(Ids(d.blocks))
  {
  }

  lemma {:induction false} CutSelf(d: Deques)
    requires |d.chain| <= |d.history|
    ensures Cut(d, |d.chain|) == d
  {
  }

  /** The walk back from the end stops exactly at the landing. */
  lemma {:induction false} LandingStep(chain: seq<Ref>, fin: bool, block: Block, n: nat)
    requires Ascending(chain) && Landing(chain, fin, block).1 <= n <= |chain| && (fin ==> n > 0)
    ensures var (outcome, keep) := Landing(chain, fin, block);
            && (n == 0 ==> outcome.Attached?)
            && (n > 0 && chain[n - 1] == block.Parent() <==> n > 0 && outcome.Attached? && n == keep)
            && (n > 0 && chain[n - 1] != block.Parent() && block.parentNumber > chain[n - 1].number
                <==> outcome.Missing? && n == keep)
            && (n == 1 && fin && chain[0] != block.Parent() && block.parentNumber <= chain[0].number
                <==> outcome.Conflicting? && n == keep)
  {
  }
}
