/** Blocks, references and sparse chains shared by the reference model, the source simulator and
    the follower (crates/hotblocks-harness/src/types.rs). */
module HotTypes {
  import opened Options

  /** Hashes are opaque and compared by equality. `Minted` is the simulator's deterministic hash of
      a number and a branch, taken to be collision free; `Foreign` is any other hash. */
  datatype Hash = Minted(number: nat, forkId: nat) | Foreign(text: string)

  datatype BlockRef = BlockRef(number: nat, hash: Hash)

  datatype Block = Block(number: nat, hash: Hash, parentNumber: nat, parentHash: Hash,
                         timestampMs: int, forkId: nat)
  {
    function Ref(): BlockRef { BlockRef(number, hash) }
  }

  /** `hash == None` means that linkage below the window is unverifiable. */
  datatype Anchor = Anchor(number: nat, hash: Option<Hash>)

  /** How many ancestors a conflict answer carries. */
  const CONFLICT_WINDOW: nat := 100

  // ----- chains -----

  ghost predicate Ascending(s: seq<Block>) {
    forall i, j :: 0 <= i < j < |s| ==> s[i].number < s[j].number
  }

  predicate IsChild(parent: Block, child: Block) {
    child.number > parent.number && child.parentNumber == parent.number && child.parentHash == parent.hash
  }

  predicate LinkedAt(s: seq<Block>, i: nat)
    requires 0 < i < |s|
  {
    IsChild(s[i - 1], s[i])
  }

  ghost predicate Linked(s: seq<Block>) {
    forall i :: 0 < i < |s| ==> LinkedAt(s, i)
  }

  /** A run of blocks that hangs on the anchor: INV-1, INV-2 and INV-3. */
  ghost predicate Hangs(anchor: Anchor, s: seq<Block>) {
    && Ascending(s)
    && Linked(s)
    && (s != [] ==> anchor.number < s[0].number)
    && (s != [] && anchor.hash.Some? ==> s[0].parentHash == anchor.hash.value)
  }

  /** The length of the longest prefix numbered below `n`: `partition_point(|b| b.number < n)`. */
  function Below(s: seq<Block>, n: nat): (r: nat)
    ensures r <= |s|
    ensures forall i :: 0 <= i < r ==> s[i].number < n
    ensures r < |s| ==> s[r].number >= n
  {
    if s == [] || s[0].number >= n then 0 else 1 + Below(s[1..], n)
  }

  lemma {:induction false} BelowIs(s: seq<Block>, n: nat, k: nat)
    requires Ascending(s) && k <= |s|
    requires k > 0 ==> s[k - 1].number < n
    requires k < |s| ==> s[k].number >= n
    ensures Below(s, n) == k
  {
  }

  lemma {:induction false} BelowExceeds(s: seq<Block>, n: nat, i: nat)
    requires Ascending(s) && i < |s| && s[i].number < n
    ensures i < Below(s, n)
  {
  }

  lemma {:induction false} NotBelow(s: seq<Block>, n: nat, i: nat)
    requires Ascending(s) && Below(s, n) <= i < |s|
    ensures s[i].number >= n
  {
    assert s[Below(s, n)].number <= s[i].number;
  }

  /** The block numbered exactly `n`, if any. */
  function BlockAt(s: seq<Block>, n: nat): (r: Option<Block>)
    ensures r.Some? ==> r.value in s && r.value.number == n
  {
    var i := Below(s, n);
    if i < |s| && s[i].number == n then Some(s[i]) else None
  }

  lemma {:induction false} BlockAtIndex(s: seq<Block>, i: nat)
    requires Ascending(s) && i < |s|
    ensures BlockAt(s, s[i].number) == Some(s[i])
  {
  }

  function Refs(s: seq<Block>): (r: seq<BlockRef>)
    ensures |r| == |s|
    ensures forall i :: 0 <= i < |s| ==> r[i] == s[i].Ref()
  {
    seq(|s|, i requires 0 <= i < |s| => s[i].Ref())
  }

  /** Number and hash of every block of `s` at or below `n`. */
  function RefsUpTo(s: seq<Block>, n: nat): (r: seq<BlockRef>)
  {
    Refs(s[..Below(s, n + 1)])
  }

  lemma {:induction false} HangsPrefix(anchor: Anchor, s: seq<Block>, k: nat)
    requires Hangs(anchor, s) && k <= |s|
    ensures Hangs(anchor, s[..k])
  {
    assert forall i :: 0 < i < k ==> LinkedAt(s, i) && (LinkedAt(s[..k], i) <==> LinkedAt(s, i));
  }

  lemma {:induction false} HangsSuffix(s: seq<Block>, k: nat)
    requires Ascending(s) && Linked(s) && 0 < k <= |s|
    ensures Hangs(Anchor(s[k - 1].number, Some(s[k - 1].hash)), s[k..])
  {
    forall i | 0 < i < |s| - k ensures LinkedAt(s[k..], i) {
      assert LinkedAt(s, i + k);
    }
    if k < |s| { assert LinkedAt(s, k); }
  }

  /** A chain extended by one linked run is a chain. */
  lemma {:induction false} HangsJoin(anchor: Anchor, s: seq<Block>, t: seq<Block>)
    requires Hangs(anchor, s) && Ascending(t) && Linked(t) && t != []
    requires s != [] ==> IsChild(s[|s| - 1], t[0])
    requires s == [] ==> anchor.number < t[0].number && (anchor.hash.Some? ==> t[0].parentHash == anchor.hash.value)
    ensures Hangs(anchor, s + t)
  {
    var u := s + t;
    forall i, j | 0 <= i < j < |u| ensures u[i].number < u[j].number {
      if i < |s| <= j {
        assert s[i].number <= s[|s| - 1].number < t[0].number <= t[j - |s|].number;
      }
    }
    forall i | 0 < i < |u| ensures LinkedAt(u, i) {
      if i < |s| { assert LinkedAt(s, i); }
      if i > |s| { assert LinkedAt(t, i - |s|); }
    }
  }

  /** The converse: what a joined chain says about the two parts and the joint. */
  lemma {:induction false} HangsSplit(anchor: Anchor, s: seq<Block>, t: seq<Block>)
    requires Hangs(anchor, s + t) && t != []
    ensures Hangs(anchor, s) && Ascending(t) && Linked(t)
    ensures s != [] ==> IsChild(s[|s| - 1], t[0])
    ensures s == [] ==> anchor.number < t[0].number && (anchor.hash.Some? ==> t[0].parentHash == anchor.hash.value)
  {
    var u := s + t;
    assert u[..|s|] == s && u[|s|..] == t;
    HangsPrefix(anchor, u, |s|);
    if s != [] {
      assert LinkedAt(u, |s|);
      HangsSuffix(u, |s|);
    } else {
      assert u == t;
    }
  }
}
