/** What an endpoint does with a poll result (crates/data-source/src/standard.rs), said without the transition function. */
module SourceLaws {
  import opened DataSource
  import opened Options

  /** A transport or parse fault. */
  predicate Faulty(ep: Endpoint, poll: Poll) {
    (ep.state.InFlight? && poll.Failure?) || (ep.state.Streaming? && (poll.Failure? || poll.BadItem?))
  }

  /** The endpoint after these results, if it asks again before each. */
  function AfterFaults(sh: Shared, i: nat, ep: Endpoint, polls: seq<Poll>): Endpoint
    decreases |polls|
  {
    if polls == [] then ep
    else React(sh, i, Request'(sh, AfterFaults(sh, i, ep, polls[..|polls| - 1]).(state := Ready)), polls[|polls| - 1]).1
  }

  /** Faults in a row of an endpoint that always asks again, whenever it may: the first is retried at once, and the pause after
      each later one is the next rung of the ladder, whose last rung stays. Nothing else changes. */
  lemma {:induction false} FaultsClimb(sh: Shared, i: nat, ep: Endpoint, polls: seq<Poll>)
    requires ep.errors == 0 && forall k :: 0 <= k < |polls| ==> polls[k].Failure?
    ensures var r, n := AfterFaults(sh, i, ep, polls), |polls|;
            && r.errors == n && r.rejects == ep.rejects && r.committed == ep.committed
            && (n == 1 ==> r.state == Ready)
            && (n >= 2 ==> r.state == Parked(Fault, [100, 200, 500, 1000, 2000, 5000, 10000][if n <= 8 then n - 2 else 6]))
    decreases |polls|
  {
    if polls != [] {
      var n := |polls|;
      FaultsClimb(sh, i, ep, polls[..n - 1]);
      assert polls[n - 1].Failure?;
    }
  }

  /** A fault never touches the shared state, and a result that does not fit what the endpoint waits for changes nothing. */
  lemma {:induction false} FaultIsLocal(sh: Shared, i: nat, ep: Endpoint, poll: Poll)
    ensures Faulty(ep, poll) ==> React(sh, i, ep, poll).0 == sh && React(sh, i, ep, poll).1.errors == ep.errors + 1
    ensures !Faulty(ep, poll) && !poll.Pending? && React(sh, i, ep, poll).2 != Some(Quiet) && !ep.state.Parked? ==>
              React(sh, i, ep, poll).1.errors == 0
    ensures React(sh, i, ep, poll).2 == Some(Quiet) ==> React(sh, i, ep, poll).0 == sh && React(sh, i, ep, poll).1 == ep
  {
  }

  /** What a streamed block can come to: it is older than the position, or it is committed, or it does not link. */
  lemma {:induction false} BlockIsJudged(sh: Shared, i: nat, ep: Endpoint, block: Block)
    requires ep.state.Streaming?
    ensures var (sh', ep', event) := React(sh, i, ep, Item(block));
            var older := block.number < sh.position.first;
            var links := sh.position.parent == None || sh.position.parent == Some(block.parentHash);
            && ep'.errors == 0
            && (older ==> sh' == sh && event == None && ep' == ep.(errors := 0))
            && (!older && links ==>
                  && event == Some(NewBlock(block, block.number <= ep.state.finalized)) && ep'.state == ep.state
                  && sh'.position == Request(block.number + 1, Some(block.hash)) && ep'.committed == Some(block.number) && ep'.rejects == 0)
            && (!older && !links ==>
                  && event == None && Unlinked(sh.position, block) && sh'.position == sh.position && ep'.rejects == ep.rejects + 1
                  && (ep.rejects == 0 <==> ep'.state == Ready) && (ep.rejects > 0 ==> Resting(ep', Linkage)))
  {
  }

  /** An opened stream remembers up to which number its endpoint holds blocks final; a fork answer keeps the request it
      answers. */
  lemma {:induction false} AnswerIsKept(sh: Shared, i: nat, ep: Endpoint, poll: Poll)
    requires ep.state.InFlight?
    ensures poll.Answer? && poll.finalized.Some? ==> React(sh, i, ep, poll).1.state == Streaming(poll.finalized.value.number)
    ensures poll.Answer? && poll.finalized.None? ==> React(sh, i, ep, poll).1.state == Streaming(0)
    ensures poll.ForkAnswer? ==> React(sh, i, ep, poll).1.state == Forked(ep.state.req, poll.hints) && React(sh, i, ep, poll).0.started
  {
  }
}
