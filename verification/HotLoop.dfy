/** Every interleaving of an honest source's evolution with round trips of the model. */
module HotLoop {
  import opened HotConvergence
  import opened HotLockstep
  import opened HotModel
  import opened HotSim
  import opened HotTypes
  import opened Options

  datatype Event = Evolve(step: Script) | Sync

  ghost function SourceAfter(cfg: Config, s: Source, events: seq<Event>): Source
    requires cfg.start >= 1
    decreases events
  {
    if events == [] then s
    else SourceAfter(cfg, if events[0].Evolve? then SourceStep(cfg, s, events[0].step) else s, events[1..])
  }

  ghost function WindowAfter(cfg: Config, s: Source, w: Window, events: seq<Event>): Window
    requires cfg.start >= 1
    decreases events
  {
    if events == [] then w
    else if events[0].Evolve? then WindowAfter(cfg, SourceStep(cfg, s, events[0].step), w, events[1..])
    else WindowAfter(cfg, s, Exchange(cfg, s, w), events[1..])
  }

  ghost predicate HonestLoop(cfg: Config, s: Source, events: seq<Event>)
    requires cfg.start >= 1
    decreases events
  {
    events != [] ==>
      && (events[0].Evolve? ==> Scripted(cfg, s, events[0].step))
      && HonestLoop(cfg, if events[0].Evolve? then SourceStep(cfg, s, events[0].step) else s, events[1..])
  }

  lemma {:induction false} InStepFollows(cfg: Config, s: Source, w: Window)
    requires InStep(cfg, s, w)
    ensures Follows(cfg, s, w, |w.seg|)
  {
  }

  /** The harness starts the simulator and the model in step, whether or not it tells the anchor hash. */
  lemma {:induction false} HarnessStartsInStep(cfg: Config, anchored: bool)
    requires cfg.start >= 1
    ensures InStep(cfg, Genesis(), Window([], Anchor(cfg.start - 1, if anchored then Some(cfg.AnchorHash()) else None), None, 0))
  {
  }

  lemma {:induction false} ProduceKeepsFollows(cfg: Config, s: Source, w: Window, k: nat, n: nat)
    requires Follows(cfg, s, w, k)
    ensures Follows(cfg, Produced(cfg, s, n), w, k)
  {
    hide Linked, Numbered, NamesStored, Mint;
    var s' := Produced(cfg, s, n);
    ProducedKeepsHonest(cfg, s, n);
    assert s'.chain[..k] == s.chain[..k];
    forall i, j | k <= i < |s'.chain| && 0 <= j < |w.seg| ensures s'.chain[i].hash != w.seg[j].hash {
      if i < |s.chain| {
        assert s'.chain[i] == s.chain[i];
      } else if k == |w.seg| {
        SharedAt(w.seg, s.chain, k, j);
        assert s'.chain[j] == s.chain[j];
      }
    }
  }

  lemma {:induction false} TruncationKeepsFollows(cfg: Config, s: Source, w: Window, k: nat, from: nat)
    requires Follows(cfg, s, w, k) && CanFork(cfg, s, from)
    ensures var keep := Below(s.chain, from);
            Follows(cfg, Truncated(s, from), w, if k <= keep then k else keep)
  {
    hide Linked, Numbered, Below, BlockAt, NamesStored;
    var keep := Below(s.chain, from);
    var k' := if k <= keep then k else keep;
    TruncatedKeepsHonest(cfg, s, from);
    assert w.seg[..k'] == w.seg[..k][..k'] == s.chain[..k][..k'] == s.chain[..keep][..k'];
    if w.fin.Some? {
      var f := FinalIndex(w, k);
      SharedAt(w.seg, s.chain, k, f);
      BelowExceeds(s.chain, from, f);
      assert w.seg[f].number <= w.seg[k' - 1].number;
    }
  }

  lemma {:induction false} FinalKeepsFollows(cfg: Config, s: Source, w: Window, k: nat, number: nat)
    requires Follows(cfg, s, w, k) && Scripted(cfg, s, Final(number))
    ensures Follows(cfg, SourceStep(cfg, s, Final(number)), w, k)
  {
  }

  lemma {:induction false} EvolutionKeepsFollows(cfg: Config, s: Source, w: Window, k: nat, step: Script) returns (k': nat)
    requires Follows(cfg, s, w, k) && Scripted(cfg, s, step)
    ensures Follows(cfg, SourceStep(cfg, s, step), w, k')
  {
    hide Follows;
    match step
    case Produce(n) =>
      k' := k;
      ProduceKeepsFollows(cfg, s, w, k, n);
    case ForkAt(from, len) =>
      var keep := Below(s.chain, from);
      k' := if k <= keep then k else keep;
      TruncationKeepsFollows(cfg, s, w, k, from);
      ProduceKeepsFollows(cfg, Truncated(s, from), w, k', len);
    case Final(number) =>
      k' := k;
      FinalKeepsFollows(cfg, s, w, k, number);
  }

  lemma {:induction false} FaultlessFinalityIsShared(cfg: Config, s: Source, w: Window, k: nat)
    requires Follows(cfg, s, w, k) && Behind(s, w) && s.fin.Some?
    ensures Follows(cfg, s, Finalized(w, s.fin.value), k)
  {
    hide Linked, Numbered, Stamped;
    var r := s.fin.value;
    WatermarkIsMonotone(w.seg, w.fin, r);
    if FinalityOf(w.seg, w.fin, r).Applied? {
      var i, j := Below(s.chain, r.number), Below(w.seg, r.number);
      assert s.chain[i].number <= s.chain[|s.chain| - 1].number;
      assert w.seg[j].hash == s.chain[i].hash;
      assert i < k;
      SharedAt(w.seg, s.chain, k, i);
      assert w.seg[i].number <= w.seg[k - 1].number;
    }
  }

  lemma {:induction false} SyncKeepsFollows(cfg: Config, s: Source, w: Window, k: nat) returns (k': nat)
    requires Follows(cfg, s, w, k)
    ensures Follows(cfg, s, Exchange(cfg, s, w), k')
  {
    hide Hangs, Numbered, Stamped, ForkedAt, Minting, Respond, ResolveFork, FinalInPrefix, NamesStored, FinalityOf, Wf;
    if Behind(s, w) {
      k' := k;
      SilentWhenBehind(cfg, s, w, k);
      if s.fin.Some? { FaultlessFinalityIsShared(cfg, s, w, k); }
    } else {
      SharedLength(cfg, s, w, k);
      if k < |w.seg| { ForkConverges(cfg, s, w, k); } else { GrowthConverges(cfg, s, w); }
      k' := |s.chain|;
      InStepFollows(cfg, s, Exchange(cfg, s, w));
    }
  }

  lemma {:induction false} LoopKeepsFollows(cfg: Config, s: Source, w: Window, k: nat, events: seq<Event>) returns (k': nat)
    requires Follows(cfg, s, w, k) && HonestLoop(cfg, s, events)
    ensures Follows(cfg, SourceAfter(cfg, s, events), WindowAfter(cfg, s, w, events), k')
    decreases events
  {
    hide Hangs, Numbered, Stamped, ForkedAt, Minting, FinalInPrefix, NamesStored, Wf, Exchange, SourceStep, Scripted;
    k' := k;
    if events != [] {
      if events[0].Evolve? {
        var m := EvolutionKeepsFollows(cfg, s, w, k, events[0].step);
        k' := LoopKeepsFollows(cfg, SourceStep(cfg, s, events[0].step), w, m, events[1..]);
      } else {
        var m := SyncKeepsFollows(cfg, s, w, k);
        k' := LoopKeepsFollows(cfg, s, Exchange(cfg, s, w), m, events[1..]);
      }
    }
  }

  /** From a common start, after any interleaving of production, forks, finality and round trips,
      the next round trip hands the model exactly the source's chain and finality unless the
      source is shorter than what the model holds, in which case the model keeps its blocks. */
  lemma {:induction false} LoopConverges(cfg: Config, s: Source, w: Window, events: seq<Event>)
    requires InStep(cfg, s, w) && HonestLoop(cfg, s, events)
    ensures var s', w' := SourceAfter(cfg, s, events), WindowAfter(cfg, s, w, events);
            var w'' := Exchange(cfg, s', w');
            && (w''.seg == s'.chain <==> !Behind(s', w'))
            && (!Behind(s', w') ==> w''.fin == s'.fin)
            && (Behind(s', w') ==> w''.seg == w'.seg)
  {
    hide Follows, Exchange, SourceAfter, WindowAfter, HonestLoop, Hangs, Numbered, Stamped, NamesStored, Behind;
    InStepFollows(cfg, s, w);
    var k := LoopKeepsFollows(cfg, s, w, |w.seg|, events);
    Converges(cfg, SourceAfter(cfg, s, events), WindowAfter(cfg, s, w, events), k);
  }

  lemma {:induction false} TwoBlocks(cfg: Config)
    requires cfg.start >= 1
    ensures var s := Produced(cfg, Genesis(), 2);
            |s.chain| == 2 && s.chain[0].number == cfg.start < s.chain[1].number && s.fin == None
  {
    var one := Produced(cfg, Genesis(), 1);
    assert one.chain == Genesis().chain + [Mint(cfg, Genesis())];
    assert Produced(cfg, Genesis(), 2).chain == one.chain + [Mint(cfg, one)];
  }

  lemma {:induction false} OneBlockInstead(cfg: Config, s: Source)
    requires cfg.start >= 1 && |s.chain| == 2 && s.chain[0].number == cfg.start < s.chain[1].number
    ensures var t := Forked(cfg, s, cfg.start, 1); |t.chain| == 1 && t.chain[0].number == cfg.start
  {
    BelowIs(s.chain, cfg.start, 0);
    var cut := Truncated(s, cfg.start);
    assert cut.chain == [];
    assert Produced(cfg, cut, 1).chain == Produced(cfg, cut, 0).chain + [Mint(cfg, Produced(cfg, cut, 0))];
  }

  lemma {:induction false} ThreeEvents(cfg: Config, s: Source, w: Window, a: Script, b: Script)
    requires cfg.start >= 1
    ensures var events, mid := [Evolve(a), Sync, Evolve(b)], SourceStep(cfg, s, a);
            && SourceAfter(cfg, s, events) == SourceStep(cfg, mid, b)
            && WindowAfter(cfg, s, w, events) == Exchange(cfg, mid, w)
            && (HonestLoop(cfg, s, events) <==> Scripted(cfg, s, a) && Scripted(cfg, mid, b))
  {
    hide SourceStep, Exchange, Scripted;
    var events, mid := [Evolve(a), Sync, Evolve(b)], SourceStep(cfg, s, a);
    assert events[1..] == [Sync, Evolve(b)] && [Sync, Evolve(b)][1..] == [Evolve(b)] && [Evolve(b)][1..] == [];
    assert SourceAfter(cfg, mid, [Evolve(b)]) == SourceStep(cfg, mid, b);
    assert WindowAfter(cfg, mid, Exchange(cfg, mid, w), [Evolve(b)]) == Exchange(cfg, mid, w);
    assert HonestLoop(cfg, mid, [Evolve(b)]) <==> Scripted(cfg, mid, b);
  }

  /** A run that gets stuck: two blocks are produced and synced, then the source forks at the first one with a single block.
      A round trip leaves the model on the branch that was abandoned. */
  lemma {:induction false} ShorterForkIsNotFollowed(cfg: Config)
    requires cfg.start >= 1
    ensures var w := Window([], Anchor(cfg.start - 1, None), None, 0);
            var events := [Evolve(Produce(2)), Sync, Evolve(ForkAt(cfg.start, 1))];
            var s', w' := SourceAfter(cfg, Genesis(), events), WindowAfter(cfg, Genesis(), w, events);
            && InStep(cfg, Genesis(), w) && HonestLoop(cfg, Genesis(), events)
            && Behind(s', w') && Exchange(cfg, s', w').seg == w'.seg != s'.chain
  {
    hide Exchange, SourceAfter, WindowAfter, HonestLoop, InStep, Below, Produced, Mint;
    var w := Window([], Anchor(cfg.start - 1, None), None, 0);
    var mid := Produced(cfg, Genesis(), 2);
    HarnessStartsInStep(cfg, false);
    TwoBlocks(cfg);
    OneBlockInstead(cfg, mid);
    OneEvent(cfg, Genesis(), w, Produce(2));
    LoopConverges(cfg, Genesis(), w, [Evolve(Produce(2))]);
    assert Exchange(cfg, mid, w).seg == mid.chain;
    ThreeEvents(cfg, Genesis(), w, Produce(2), ForkAt(cfg.start, 1));
    LoopConverges(cfg, Genesis(), w, [Evolve(Produce(2)), Sync, Evolve(ForkAt(cfg.start, 1))]);
  }

  lemma {:induction false} OneEvent(cfg: Config, s: Source, w: Window, a: Script)
    requires cfg.start >= 1
    ensures SourceAfter(cfg, s, [Evolve(a)]) == SourceStep(cfg, s, a) && WindowAfter(cfg, s, w, [Evolve(a)]) == w
    ensures HonestLoop(cfg, s, [Evolve(a)]) <==> Scripted(cfg, s, a)
  {
    hide SourceStep, Scripted;
    assert [Evolve(a)][1..] == [];
  }
}
