/** The honest source simulator (crates/hotblocks-harness/src/sim.rs): a chain that grows, forks
    above its own finality and answers stream requests. Any numbering of blocks is allowed. */
module HotSim {
  import opened HotModel
  import opened HotTypes
  import opened Options

  /** `skip(n)` is how many positions stay empty after the block numbered `n`. */
  datatype Config = Config(start: nat, skip: nat -> nat, baseTs: int)
  {
    function AnchorHash(): Hash
      requires start >= 1
    {
      Minted(start - 1, 0)
    }
  }

  datatype Source = Source(chain: seq<Block>, fin: Option<BlockRef>, forkId: nat, nextForkId: nat)

  datatype Reply = Blocks(blocks: seq<Block>, fin: Option<BlockRef>) | Fork(hints: seq<BlockRef>) | Nothing(fin: Option<BlockRef>)

  function Genesis(): Source { Source([], None, 0, 1) }

  function NextNumber(cfg: Config, s: Source): nat {
    if s.chain == [] then cfg.start
    else s.chain[|s.chain| - 1].number + 1 + cfg.skip(s.chain[|s.chain| - 1].number)
  }

  function Mint(cfg: Config, s: Source): Block
    requires cfg.start >= 1
  {
    var number := NextNumber(cfg, s);
    var (parentNumber, parentHash) :=
      if s.chain == [] then (cfg.start - 1, cfg.AnchorHash())
      else (s.chain[|s.chain| - 1].number, s.chain[|s.chain| - 1].hash);
    Block(number, Minted(number, s.forkId), parentNumber, parentHash,
          cfg.baseTs + (number - cfg.start) * 1000, s.forkId)
  }

  function Produced(cfg: Config, s: Source, n: nat): (r: Source)
    requires cfg.start >= 1
    ensures |r.chain| == |s.chain| + n && s.chain <= r.chain
    ensures r.fin == s.fin && r.forkId == s.forkId && r.nextForkId == s.nextForkId
  {
    if n == 0 then s
    else
      var p := Produced(cfg, s, n - 1);
      p.(chain := p.chain + [Mint(cfg, p)])
  }

  predicate CanFork(cfg: Config, s: Source, from: nat) {
    cfg.start <= from <= NextNumber(cfg, s) && (s.fin.Some? ==> s.fin.value.number < from)
  }

  function Truncated(s: Source, from: nat): Source {
    Source(s.chain[..Below(s.chain, from)], s.fin, s.nextForkId, s.nextForkId + 1)
  }

  function Forked(cfg: Config, s: Source, from: nat, len: nat): Source
    requires cfg.start >= 1
  {
    Produced(cfg, Truncated(s, from), len)
  }

  /** The exact hash at a position; the anchor counts as a block. */
  function HashOf(cfg: Config, s: Source, n: nat): Option<Hash>
    requires cfg.start >= 1
  {
    if n + 1 == cfg.start then Some(cfg.AnchorHash())
    else if BlockAt(s.chain, n).Some? then Some(BlockAt(s.chain, n).value.hash)
    else None
  }

  /** The last hash at or below a position; unknown above the tip. */
  function ChainHashAt(cfg: Config, s: Source, n: nat): Option<Hash>
    requires cfg.start >= 1
  {
    var i := Below(s.chain, n + 1);
    if s.chain != [] && n > s.chain[|s.chain| - 1].number then None
    else if i > 0 then Some(s.chain[i - 1].hash)
    else if n + 1 == cfg.start then Some(cfg.AnchorHash())
    else None
  }

  function HintsEndingAt(cfg: Config, s: Source, n: nat): (r: seq<BlockRef>)
    requires cfg.start >= 1
    ensures 0 < |r| <= CONFLICT_WINDOW
  {
    if Below(s.chain, n + 1) == 0 then [BlockRef(cfg.start - 1, cfg.AnchorHash())]
    else ConflictHints(s.chain, n)
  }

  function Respond(cfg: Config, s: Source, from: nat, parent: Option<Hash>): Reply
    requires cfg.start >= 1
  {
    var at := if from == 0 then 0 else from - 1;
    if parent.Some? && ChainHashAt(cfg, s, at).Some? && ChainHashAt(cfg, s, at) != parent then
      Fork(HintsEndingAt(cfg, s, at))
    else if from < cfg.start || s.chain == [] || from > s.chain[|s.chain| - 1].number then Nothing(s.fin)
    else Blocks(s.chain[Below(s.chain, from)..], s.fin)
  }

  // ----- what every reachable source satisfies -----

  ghost predicate Numbered(cfg: Config, chain: seq<Block>) {
    && (chain != [] ==> chain[0].number == cfg.start)
    && forall i :: 0 < i < |chain| ==> NumberedAt(cfg, chain, i)
  }

  predicate NumberedAt(cfg: Config, chain: seq<Block>, i: nat)
    requires 0 < i < |chain|
  {
    chain[i].number == chain[i - 1].number + 1 + cfg.skip(chain[i - 1].number)
  }

  /** Hashes are those of the minting branch, and every branch was opened already. */
  ghost predicate Stamped(s: Source) {
    && s.forkId < s.nextForkId
    && forall i :: 0 <= i < |s.chain| ==>
         s.chain[i].hash == Minted(s.chain[i].number, s.chain[i].forkId) && s.chain[i].forkId < s.nextForkId
  }

  ghost predicate Honest(cfg: Config, s: Source) {
    && cfg.start >= 1
    && Hangs(Anchor(cfg.start - 1, Some(cfg.AnchorHash())), s.chain)
    && Numbered(cfg, s.chain)
    && Stamped(s)
    && NamesStored(s.chain, s.fin)
  }

  lemma {:induction false} MintKeepsHonest(cfg: Config, s: Source)
    requires Honest(cfg, s)
    ensures Honest(cfg, s.(chain := s.chain + [Mint(cfg, s)]))
    ensures s.chain != [] ==> IsChild(s.chain[|s.chain| - 1], Mint(cfg, s))
  {
    var c := s.chain + [Mint(cfg, s)];
    HangsJoin(Anchor(cfg.start - 1, Some(cfg.AnchorHash())), s.chain, [Mint(cfg, s)]);
    forall i | 0 < i < |c| ensures NumberedAt(cfg, c, i) {
      assert i < |s.chain| ==> NumberedAt(cfg, s.chain, i);
    }
    ExtensionNamesStored(s.chain, [Mint(cfg, s)], s.fin);
  }

  lemma {:induction false} ProducedKeepsHonest(cfg: Config, s: Source, n: nat)
    requires Honest(cfg, s)
    ensures Honest(cfg, Produced(cfg, s, n))
    ensures forall i :: |s.chain| <= i < |s.chain| + n ==> Produced(cfg, s, n).chain[i].forkId == s.forkId
  {
    hide Hangs, Numbered, NamesStored;
    if n > 0 {
      ProducedKeepsHonest(cfg, s, n - 1);
      MintKeepsHonest(cfg, Produced(cfg, s, n - 1));
    }
  }

  lemma {:induction false} TruncatedKeepsHonest(cfg: Config, s: Source, from: nat)
    requires Honest(cfg, s) && (s.fin.Some? ==> s.fin.value.number < from)
    ensures Honest(cfg, Truncated(s, from))
  {
    var k := Below(s.chain, from);
    var c := s.chain[..k];
    HangsPrefix(Anchor(cfg.start - 1, Some(cfg.AnchorHash())), s.chain, k);
    forall i | 0 < i < k ensures NumberedAt(cfg, c, i) {
      assert NumberedAt(cfg, s.chain, i);
    }
    if s.fin.Some? {
      var i := Below(s.chain, s.fin.value.number);
      BelowGrows(s.chain, s.fin.value.number, from);
      BlockAtIndex(c, i);
    }
  }

  /** The first block of a fork is numbered at or above the fork point, however sparse the numbering. */
  lemma {:induction false} ForkStartsAtOrAbove(cfg: Config, s: Source, from: nat)
    requires Honest(cfg, s) && CanFork(cfg, s, from)
    ensures from <= NextNumber(cfg, Truncated(s, from))
  {
    var k := Below(s.chain, from);
    if 0 < k < |s.chain| { assert NumberedAt(cfg, s.chain, k); }
  }

  // ----- the object -----

  class DatasetSim {
    const cfg: Config
    var chain: seq<Block>
    var fin: Option<BlockRef>
    var forkId: nat
    var nextForkId: nat

    ghost function State(): Source
      reads this
    {
      Source(chain, fin, forkId, nextForkId)
    }

    constructor (cfg: Config)
      requires cfg.start >= 1
      ensures this.cfg == cfg && State() == Genesis() && Honest(cfg, State())
    {
      this.cfg := cfg;
      this.chain, this.fin, this.forkId, this.nextForkId := [], None, 0, 1;
    }

    method Produce(n: nat) returns (out: seq<Block>)
      requires Honest(cfg, State())
      modifies this`chain
      ensures State() == Produced(cfg, old(State()), n) && Honest(cfg, State())
      ensures chain == old(chain) + out && |out| == n
    {
      hide Hangs, Numbered, Stamped, NamesStored;
      out := [];
      for i := 0 to n
        invariant State() == Produced(cfg, old(State()), i)
        invariant chain == old(chain) + out && |out| == i
      {
        var block := Mint(cfg, Source(chain, fin, forkId, nextForkId));
        chain := chain + [block];
        out := out + [block];
      }
      ProducedKeepsHonest(cfg, old(State()), n);
    }

    method Fork(from: nat, len: nat) returns (out: Option<seq<Block>>)
      requires Honest(cfg, State())
      modifies this
      ensures out.Some? <==> CanFork(cfg, old(State()), from)
      ensures State() == if out.Some? then Forked(cfg, old(State()), from, len) else old(State())
      ensures Honest(cfg, State())
      ensures out.Some? ==> chain == Spliced(old(chain), from, out.value) && |out.value| == len
    {
      hide Hangs, Numbered, Stamped, NamesStored;
      if from < cfg.start || from > NextNumber(cfg, Source(chain, fin, forkId, nextForkId))
        || (fin.Some? && fin.value.number >= from) {
        return None;
      }
      TruncatedKeepsHonest(cfg, State(), from);
      chain := chain[..Below(chain, from)];
      forkId, nextForkId := nextForkId, nextForkId + 1;
      var blocks := Produce(len);
      return Some(blocks);
    }

    /** Declares a block final. The anchor passes as a block, and nothing checks that the new
        watermark is above the old one. */
    method Finalize(number: nat) returns (r: Option<BlockRef>)
      requires cfg.start >= 1
      modifies this`fin
      ensures r.Some? <==> HashOf(cfg, old(State()), number).Some?
      ensures r.Some? ==> r.value == BlockRef(number, HashOf(cfg, old(State()), number).value)
      ensures fin == if r.Some? then r else old(fin)
    {
      var hash := HashOf(cfg, Source(chain, fin, forkId, nextForkId), number);
      if hash.None? { return None; }
      r := Some(BlockRef(number, hash.value));
      fin := r;
    }
  }
}
