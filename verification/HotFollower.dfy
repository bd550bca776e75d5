/** The anchored follower (crates/hotblocks-harness/src/driver.rs): what a client holds after any
    answers, and how one conflict brings it back onto the served chain. */
module HotFollower {
  import opened HotModel
  import opened HotTypes
  import opened Options

  /** One block as the service emits it. */
  datatype Emitted = Emitted(number: nat, hash: Hash, parentHash: Hash)
  {
    function Ref(): BlockRef { BlockRef(number, hash) }
  }

  datatype Outcome =
    | Served(blocks: seq<Emitted>, head: Option<nat>, finalized: Option<nat>)
    | Empty
    | Conflicted(hints: seq<BlockRef>)
    | Failed

  datatype FollowStep = Applied(n: nat) | Idle | RolledBack(to: nat) | Broken

  function Emit(b: Block): Emitted { Emitted(b.number, b.hash, b.parentHash) }

  function EmitAll(s: seq<Block>): (r: seq<Emitted>)
    ensures |r| == |s| && forall i :: 0 <= i < |s| ==> r[i] == Emit(s[i])
  {
    seq(|s|, i requires 0 <= i < |s| => Emit(s[i]))
  }

  ghost predicate Rises(s: seq<Emitted>) {
    forall i, j :: 0 <= i < j < |s| ==> s[i].number < s[j].number
  }

  predicate Attached(s: seq<Emitted>, i: nat)
    requires 0 < i < |s|
  {
    s[i].number > s[i - 1].number && s[i].parentHash == s[i - 1].hash
  }

  ghost predicate IsChain(s: seq<Emitted>) {
    Rises(s) && forall i :: 0 < i < |s| ==> Attached(s, i)
  }

  /** What an answer may contain, by the request that produced it. */
  datatype Bounds = Bounds(from: nat, to: Option<nat>, expected: Option<Hash>, includeAll: bool)

  /** Neighbours that have to be parent and child: all of them if the query emits every covered block, else those with
      consecutive numbers. */
  predicate LinkedUnder(s: seq<Emitted>, i: nat, includeAll: bool)
    requires 0 < i < |s|
  {
    && s[i].number > s[i - 1].number
    && (includeAll || s[i].number == s[i - 1].number + 1 ==> s[i].parentHash == s[i - 1].hash)
  }

  ghost predicate WithinBounds(blocks: seq<Emitted>, head: Option<nat>, finalized: Option<nat>, bounds: Bounds) {
    blocks != [] ==>
      && Rises(blocks) && (forall i :: 0 < i < |blocks| ==> LinkedUnder(blocks, i, bounds.includeAll))
      && bounds.from <= blocks[0].number
      && (bounds.to.Some? ==> blocks[|blocks| - 1].number <= bounds.to.value)
      && (head.Some? ==> blocks[|blocks| - 1].number <= head.value)
      && (bounds.expected.Some? ==> blocks[0].parentHash == bounds.expected.value)
      && (head.Some? && finalized.Some? ==> finalized.value <= head.value)
  }

  /** The structural validators. */
  method Validate(blocks: seq<Emitted>, head: Option<nat>, finalized: Option<nat>, bounds: Bounds) returns (ok: bool)
    ensures ok <==> WithinBounds(blocks, head, finalized, bounds)
  {
    if blocks == [] { return true; }
    var i := 1;
    while i < |blocks|
      invariant 1 <= i <= |blocks|
      invariant forall a, b :: 0 <= a < b < i ==> blocks[a].number < blocks[b].number
      invariant forall j :: 0 < j < i ==> LinkedUnder(blocks, j, bounds.includeAll)
    {
      if !LinkedUnder(blocks, i, bounds.includeAll) { return false; }
      i := i + 1;
    }
    var last := blocks[|blocks| - 1].number;
    if blocks[0].number < bounds.from || (bounds.to.Some? && last > bounds.to.value) { return false; }
    if head.Some? && last > head.value { return false; }
    if bounds.expected.Some? && blocks[0].parentHash != bounds.expected.value { return false; }
    return !(head.Some? && finalized.Some? && finalized.value > head.value);
  }

  /** What the follower allows: any number of blocks behind its position, every one linked. */
  function FollowBounds(from: nat, expected: Option<Hash>): Bounds {
    Bounds(from, None, expected, true)
  }

  lemma {:induction false} AllLinkedIsChain(blocks: seq<Emitted>, head: Option<nat>, finalized: Option<nat>, from: nat, expected: Option<Hash>)
    requires WithinBounds(blocks, head, finalized, FollowBounds(from, expected))
    ensures IsChain(blocks)
  {
    forall i | 0 < i < |blocks| ensures Attached(blocks, i) {
      assert LinkedUnder(blocks, i, true);
    }
  }

  predicate Holds(local: seq<Emitted>, h: BlockRef) {
    exists i :: 0 <= i < |local| && local[i].Ref() == h
  }

  /** The highest hint the local chain has. */
  function LastHeld(local: seq<Emitted>, hints: seq<BlockRef>): (r: Option<BlockRef>)
    ensures r.None? ==> forall i :: 0 <= i < |hints| ==> !Holds(local, hints[i])
    ensures r.Some? ==> Holds(local, r.value) && r.value in hints
    ensures r.Some? ==> exists i :: 0 <= i < |hints| && hints[i] == r.value && forall j :: i < j < |hints| ==> !Holds(local, hints[j])
  {
    if hints == [] then None
    else if Holds(local, hints[|hints| - 1]) then Some(hints[|hints| - 1])
    else
      assert forall i :: 0 <= i < |hints| - 1 ==> hints[..|hints| - 1][i] == hints[i];
      LastHeld(local, hints[..|hints| - 1])
  }

  /** The blocks numbered below `n`, in order. */
  function Kept(local: seq<Emitted>, n: nat): (r: seq<Emitted>)
  {
    if local == [] then []
    else (if local[0].number < n then [local[0]] else []) + Kept(local[1..], n)
  }

  lemma {:induction false} KeptIsPrefix(local: seq<Emitted>, n: nat, k: nat)
    requires k <= |local| && (forall i :: 0 <= i < k ==> local[i].number < n)
    requires forall i :: k <= i < |local| ==> local[i].number >= n
    ensures Kept(local, n) == local[..k]
  {
    if local != [] {
      if k == 0 {
        KeptIsPrefix(local[1..], n, 0);
      } else {
        KeptIsPrefix(local[1..], n, k - 1);
        assert local[..k] == [local[0]] + local[1..][..k - 1];
      }
    }
  }

  lemma {:induction false} RisingPrefix(local: seq<Emitted>, n: nat) returns (k: nat)
    requires Rises(local)
    ensures k <= |local| && Kept(local, n) == local[..k]
    ensures (forall i :: 0 <= i < k ==> local[i].number < n) && (forall i :: k <= i < |local| ==> local[i].number >= n)
  {
    k := 0;
    while k < |local| && local[k].number < n
      invariant k <= |local| && forall i :: 0 <= i < k ==> local[i].number < n
    {
      k := k + 1;
    }
    KeptIsPrefix(local, n, k);
  }

  lemma {:induction false} PrefixIsChain(s: seq<Emitted>, k: nat)
    requires IsChain(s) && k <= |s|
    ensures IsChain(s[..k])
  {
    forall i | 0 < i < k ensures Attached(s[..k], i) {
      assert Attached(s, i);
    }
  }

  lemma {:induction false} ChainJoin(s: seq<Emitted>, t: seq<Emitted>)
    requires IsChain(s) && IsChain(t)
    requires s != [] && t != [] ==> s[|s| - 1].number < t[0].number && t[0].parentHash == s[|s| - 1].hash
    ensures IsChain(s + t)
  {
    RisesJoin(s, t);
    hide Rises;
    var u := s + t;
    forall i | 0 < i < |u| ensures Attached(u, i) {
      if i < |s| { assert Attached(s, i); }
      if i > |s| { assert Attached(t, i - |s|); }
    }
  }

  lemma {:induction false} RisesJoin(s: seq<Emitted>, t: seq<Emitted>)
    requires Rises(s) && Rises(t) && (s != [] && t != [] ==> s[|s| - 1].number < t[0].number)
    ensures Rises(s + t)
  {
    var u := s + t;
    forall i, j | 0 <= i < j < |u| ensures u[i].number < u[j].number {
      if i < |s| <= j {
        assert s[i].number <= s[|s| - 1].number < t[0].number <= t[j - |s|].number;
      }
    }
  }

  class Follower {
    var local: seq<Emitted>
    var from: nat
    var parent: Option<Hash>
    var rollbacks: nat

    /** The local blocks are one linked chain below the next position. */
    ghost predicate Valid()
      reads this
    {
      IsChain(local) && (local != [] ==> local[|local| - 1].number < from)
    }

    constructor (from: nat, parent: Option<Hash>)
      ensures Valid() && local == [] && this.from == from && this.parent == parent && rollbacks == 0
    {
      this.local, this.from, this.parent, this.rollbacks := [], from, parent, 0;
    }

    /** One round trip. Whatever the service answers, the local chain stays linked. */
    method Step(outcome: Outcome) returns (r: FollowStep)
      requires Valid() && (outcome.Conflicted? ==> outcome.hints != [])
      modifies this
      ensures Valid()
      ensures rollbacks == old(rollbacks) + if outcome.Conflicted? then 1 else 0
      ensures !r.Applied? && !r.RolledBack? ==> local == old(local) && from == old(from) && parent == old(parent)
      ensures outcome.Empty? ==> r == Idle
      ensures outcome.Failed? ==> r == Broken
      ensures outcome.Served? ==>
        (r.Applied? <==> && outcome.blocks != []
                         && WithinBounds(outcome.blocks, outcome.head, outcome.finalized, FollowBounds(old(from), old(parent)))
                         && (old(local) != [] ==> outcome.blocks[0].parentHash == old(local)[|old(local)| - 1].hash))
      ensures r.Applied? ==>
        && outcome.Served? && r.n == |outcome.blocks| > 0 && local == old(local) + outcome.blocks
        && from == local[|local| - 1].number + 1 && parent == Some(local[|local| - 1].hash)
      ensures outcome.Conflicted? && LastHeld(old(local), outcome.hints).Some? ==>
        var a := LastHeld(old(local), outcome.hints).value;
        r == RolledBack(a.number) && local == Kept(old(local), a.number + 1) && from == a.number + 1 && parent == Some(a.hash)
      ensures outcome.Conflicted? && LastHeld(old(local), outcome.hints).None? ==>
        var n := outcome.hints[0].number;
        r == RolledBack(if n == 0 then 0 else n - 1) && local == Kept(old(local), n) && from == n && parent == None
    {
      hide IsChain, LastHeld, Kept;
      match outcome
      case Served(blocks, head, finalized) =>
        var ok := Validate(blocks, head, finalized, FollowBounds(from, parent));
        if !ok || blocks == [] || (local != [] && blocks[0].parentHash != local[|local| - 1].hash) {
          return Broken;
        }
        AllLinkedIsChain(blocks, head, finalized, from, parent);
        ChainJoin(local, blocks);
        local := local + blocks;
        from, parent := blocks[|blocks| - 1].number + 1, Some(blocks[|blocks| - 1].hash);
        return FollowStep.Applied(|blocks|);
      case Empty => return Idle;
      case Failed => return Broken;
      case Conflicted(hints) =>
        rollbacks := rollbacks + 1;
        var anchor := LastHeld(local, hints);
        ghost var n := if anchor.Some? then anchor.value.number + 1 else hints[0].number;
        KeptKeepsChain(local, n);
        if anchor.Some? {
          local := Kept(local, anchor.value.number + 1);
          from, parent := anchor.value.number + 1, Some(anchor.value.hash);
          return RolledBack(from - 1);
        } else {
          local := Kept(local, hints[0].number);
          from, parent := hints[0].number, None;
          return RolledBack(if hints[0].number == 0 then 0 else hints[0].number - 1);
        }
    }
  }

  lemma {:induction false} KeptKeepsChain(local: seq<Emitted>, n: nat)
    requires IsChain(local)
    ensures IsChain(Kept(local, n))
    ensures Kept(local, n) != [] ==> Kept(local, n)[|Kept(local, n)| - 1].number < n
  {
    var k := RisingPrefix(local, n);
    PrefixIsChain(local, k);
  }

  // ----- recovery -----

  ghost predicate Common(local: seq<Emitted>, seg: seq<Block>, h: BlockRef) {
    Holds(local, h) && exists i :: 0 <= i < |seg| && seg[i].Ref() == h
  }

  ghost predicate HighestCommon(local: seq<Emitted>, seg: seq<Block>, h: BlockRef) {
    Common(local, seg, h) && forall g :: Common(local, seg, g) ==> g.number <= h.number
  }

  lemma {:induction false} TopHeldIsHighest(local: seq<Emitted>, seg: seq<Block>, top: nat)
    requires Ascending(seg) && top < |seg| && Holds(local, seg[top].Ref())
    requires forall p :: top < p < |seg| ==> !Holds(local, seg[p].Ref())
    ensures HighestCommon(local, seg, seg[top].Ref())
  {
  }

  lemma {:induction false} LastHeldIndex(local: seq<Emitted>, hints: seq<BlockRef>) returns (i: nat)
    requires LastHeld(local, hints).Some?
    ensures i < |hints| && hints[i] == LastHeld(local, hints).value && Holds(local, hints[i])
    ensures forall j :: i < j < |hints| ==> !Holds(local, hints[j])
  {
    hide Holds;
    i :| 0 <= i < |hints| && hints[i] == LastHeld(local, hints).value && forall j :: i < j < |hints| ==> !Holds(local, hints[j]);
  }

  lemma {:induction false} HighIsNotHeld(local: seq<Emitted>, from: nat, h: BlockRef)
    requires (forall i :: 0 <= i < |local| ==> local[i].number < from) && h.number >= from
    ensures !Holds(local, h)
  {
  }

  /** If any conflict hint is held locally, the follower rolls back to exactly the highest block
      the two chains have in common. */
  lemma {:induction false} RollbackIsExact(w: Window, local: seq<Emitted>, from: nat)
    requires Wf(w) && from > 0 && forall i :: 0 <= i < |local| ==> local[i].number < from
    requires LastHeld(local, ConflictHints(w.seg, from - 1)).Some?
    ensures HighestCommon(local, w.seg, LastHeld(local, ConflictHints(w.seg, from - 1)).value)
  {
    hide Linked, Ascending, Below, LastHeld, NamesStored, Holds, HighestCommon, Refs;
    var hi := Below(w.seg, from);
    var lo := if hi <= CONFLICT_WINDOW then 0 else hi - CONFLICT_WINDOW;
    var hints := ConflictHints(w.seg, from - 1);
    assert from - 1 + 1 == from;
    assert hints == Refs(w.seg[lo..hi]);
    var i := LastHeldIndex(local, hints);
    forall p | lo + i < p < |w.seg| ensures !Holds(local, w.seg[p].Ref()) {
      if p < hi {
        assert hints[p - lo] == w.seg[p].Ref();
      } else {
        NotBelow(w.seg, from, p);
        HighIsNotHeld(local, from, w.seg[p].Ref());
      }
    }
    TopHeldIsHighest(local, w.seg, lo + i);
  }

  /** The position after a common block never conflicts, at any height and across any hole. */
  lemma {:induction false} CommonPositionNeverConflicts(w: Window, h: BlockRef, to: Option<nat>, i: nat)
    requires Wf(w) && i < |w.seg| && w.seg[i].Ref() == h
    ensures !PredictQuery(w, h.number + 1, to, false, Some(h.hash)).Conflict?
    ensures var head := w.seg[|w.seg| - 1].number;
            PredictQuery(w, h.number + 1, to, false, Some(h.hash))
            == if i + 1 < |w.seg| then Covered(if to.Some? && to.value < head then to.value else head) else NoData
  {
    hide Linked, NamesStored, ConflictHints;
    if i + 1 < |w.seg| {
      assert w.seg[i].number < w.seg[i + 1].number <= w.seg[|w.seg| - 1].number;
      BlockAtIndex(w.seg, i);
    }
  }

  /** What the service emits from there is accepted, and leaves the follower on the served chain. */
  lemma {:induction false} RecoveryIsServed(w: Window, i: nat, l: nat)
    requires Wf(w) && i + 1 < |w.seg| && w.seg[i + 1].number <= l
    ensures i < Below(w.seg, l + 1)
    ensures var blocks := EmitAll(BlocksIn(w.seg, w.seg[i].number + 1, l));
            && blocks != [] && blocks[0].parentHash == w.seg[i].hash
            && blocks == EmitAll(w.seg[i + 1..Below(w.seg, l + 1)])
            && WithinBounds(blocks, HeadNumber(w), FinalNumber(w), FollowBounds(w.seg[i].number + 1, Some(w.seg[i].hash)))
  {
    hide Below, Wf, WithinBounds, EmitAll;
    var hi := Below(w.seg, l + 1);
    WfParts(w);
    BelowIs(w.seg, w.seg[i].number + 1, i + 1);
    BelowExceeds(w.seg, l + 1, i + 1);
    RunWithinBounds(w, i, hi);
  }

  lemma {:induction false} WfParts(w: Window)
    requires Wf(w)
    ensures Ascending(w.seg) && Linked(w.seg)
  {
  }

  lemma {:induction false} RunWithinBounds(w: Window, i: nat, hi: nat)
    requires Wf(w) && i + 1 < hi <= |w.seg|
    ensures var blocks := EmitAll(w.seg[i + 1..hi]);
            && blocks != [] && blocks[0].parentHash == w.seg[i].hash
            && WithinBounds(blocks, HeadNumber(w), FinalNumber(w), FollowBounds(w.seg[i].number + 1, Some(w.seg[i].hash)))
  {
    hide Wf, IsChain, LinkedUnder, Rises;
    WfParts(w);
    EmittedRun(w.seg, i + 1, hi);
    ChainIsLinked(EmitAll(w.seg[i + 1..hi]));
    assert LinkedAt(w.seg, i + 1);
    assert w.seg[i].number < w.seg[i + 1].number && w.seg[hi - 1].number <= w.seg[|w.seg| - 1].number;
    FinalBelowHead(w);
  }

  lemma {:induction false} ChainIsLinked(s: seq<Emitted>)
    requires IsChain(s)
    ensures Rises(s) && forall i :: 0 < i < |s| ==> LinkedUnder(s, i, true)
  {
    forall i | 0 < i < |s| ensures LinkedUnder(s, i, true) {
      assert Attached(s, i);
    }
  }

  /** A run of a linked chain is emitted as a chain. */
  lemma {:induction false} EmittedRun(seg: seq<Block>, lo: nat, hi: nat)
    requires Ascending(seg) && Linked(seg) && lo < hi <= |seg|
    ensures IsChain(EmitAll(seg[lo..hi]))
  {
    var blocks := EmitAll(seg[lo..hi]);
    forall j | 0 < j < |blocks| ensures Attached(blocks, j) {
      assert LinkedAt(seg, lo + j);
    }
  }

  lemma {:induction false} FinalBelowHead(w: Window)
    requires Wf(w) && w.seg != []
    ensures w.fin.Some? ==> w.fin.value.number <= w.seg[|w.seg| - 1].number
  {
  }

  function HeadNumber(w: Window): Option<nat> {
    if w.seg == [] then None else Some(w.seg[|w.seg| - 1].number)
  }

  function FinalNumber(w: Window): Option<nat> {
    if w.fin.Some? then Some(w.fin.value.number) else None
  }

  /** The answer that a prediction stands for; a covered query is answered up to `l`. */
  function Respond(w: Window, p: Predicted, from: nat, l: nat): Outcome {
    match p
    case Covered(hi) => Served(EmitAll(BlocksIn(w.seg, from, if l < hi then l else hi)), HeadNumber(w), FinalNumber(w))
    case NoData => Empty
    case Conflict(hints) => Conflicted(hints)
    case RangeUnavailable => Failed
  }

  /** An answer from `from` to `l` covers the next stored block, if there is one. */
  ghost predicate CoversNext(w: Window, from: nat, l: nat)
    requires Wf(w)
  {
    forall j :: 0 < j < |w.seg| && w.seg[j - 1].number < from <= w.seg[j].number ==> w.seg[j].number <= l
  }

  /** A whole recovery, on the object: one conflict, and what the service answers at the position behind the highest common
      block. The follower then holds its own blocks up to that one, followed by the served chain. */
  method Recover(f: Follower, w: Window, l: nat) returns (a: BlockRef, first: FollowStep, second: FollowStep, ghost k: nat, ghost i: nat)
    requires f.Valid() && Wf(w) && f.from > 0
    requires PredictQuery(w, f.from, None, false, f.parent) == Conflict(ConflictHints(w.seg, f.from - 1))
    requires LastHeld(f.local, ConflictHints(w.seg, f.from - 1)).Some?
    requires CoversNext(w, LastHeld(f.local, ConflictHints(w.seg, f.from - 1)).value.number + 1, l)
    modifies f
    ensures HighestCommon(old(f.local), w.seg, a)
    ensures k < |old(f.local)| && i < |w.seg| && old(f.local)[k].Ref() == a == w.seg[i].Ref()
    ensures first == RolledBack(a.number)
    ensures if i + 1 < |w.seg|
            then second.Applied? && i < Below(w.seg, l + 1)
                 && f.local == old(f.local)[..k + 1] + EmitAll(w.seg[i + 1..Below(w.seg, l + 1)])
            else second.Idle? && f.local == old(f.local)[..k + 1]
  {
    hide Hangs, Below, LastHeld, NamesStored, Kept, PredictQuery, ConflictHints, IsChain, WithinBounds, EmitAll, BlocksIn,
      CoversNext, Linked;
    var hints := ConflictHints(w.seg, f.from - 1);
    a := LastHeld(f.local, hints).value;
    RisingBound(f.local, f.from);
    RollbackIsExact(w, f.local, f.from);
    k, i := CommonIndexes(f.local, w, a);
    first := f.Step(Conflicted(hints));
    var answer := Respond(w, PredictQuery(w, f.from, None, false, f.parent), f.from, l);
    AnswerBehind(w, i, l);
    if i + 1 < |w.seg| { RecoveryIsServed(w, i, l); }
    second := f.Step(answer);
  }

  /** The service's answer behind a block that it stores: the blocks after it, or nothing if there are none. */
  lemma {:induction false} AnswerBehind(w: Window, i: nat, l: nat)
    requires Wf(w) && i < |w.seg| && CoversNext(w, w.seg[i].number + 1, l)
    ensures i + 1 < |w.seg| ==> w.seg[i + 1].number <= l
    ensures var from, expected := w.seg[i].number + 1, Some(w.seg[i].hash);
            Respond(w, PredictQuery(w, from, None, false, expected), from, l)
            == if i + 1 < |w.seg| then Served(EmitAll(BlocksIn(w.seg, from, l)), HeadNumber(w), FinalNumber(w)) else Empty
  {
    hide Linked, NamesStored, EmitAll, PredictQuery, BlocksIn, Below;
    CommonPositionNeverConflicts(w, w.seg[i].Ref(), None, i);
    if i + 1 < |w.seg| {
      assert w.seg[i].number < w.seg[i + 1].number <= w.seg[|w.seg| - 1].number;
      BlocksToHead(w, w.seg[i].number + 1, l);
    }
  }

  /** There is nothing to emit behind the head. */
  lemma {:induction false} BlocksToHead(w: Window, from: nat, l: nat)
    requires Wf(w) && w.seg != [] && from <= w.seg[|w.seg| - 1].number
    ensures var head := w.seg[|w.seg| - 1].number;
            BlocksIn(w.seg, from, if l < head then l else head) == BlocksIn(w.seg, from, l)
  {
    hide Linked, NamesStored;
    var head := w.seg[|w.seg| - 1].number;
    if l > head {
      BelowIs(w.seg, head + 1, |w.seg|);
      BelowIs(w.seg, l + 1, |w.seg|);
    }
  }

  lemma {:induction false} CommonIndexes(local: seq<Emitted>, w: Window, a: BlockRef) returns (k: nat, i: nat)
    requires IsChain(local) && Common(local, w.seg, a)
    ensures k < |local| && local[k].Ref() == a && Kept(local, a.number + 1) == local[..k + 1]
    ensures i < |w.seg| && w.seg[i].Ref() == a
    ensures local[..k + 1][|local[..k + 1]| - 1].hash == a.hash
  {
    k :| 0 <= k < |local| && local[k].Ref() == a;
    i :| 0 <= i < |w.seg| && w.seg[i].Ref() == a;
    KeptIsPrefix(local, a.number + 1, k + 1);
  }

  lemma {:induction false} RisingBound(local: seq<Emitted>, from: nat)
    requires IsChain(local) && (local != [] ==> local[|local| - 1].number < from)
    ensures forall i :: 0 <= i < |local| ==> local[i].number < from
  {
  }
}
