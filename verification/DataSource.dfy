/** Ingestion from several endpoints that share one position
    (crates/data-source/src/standard.rs). Every poll of a future, stream or timer is an input. */
module DataSource {
  import opened Options

  datatype BlockRef = BlockRef(number: nat, hash: string)

  datatype Block = Block(number: nat, hash: string, parentHash: string)

  datatype Request = Request(first: nat, parent: Option<string>)

  /** Why an endpoint was parked. Recorded for the specification; no transition reads it. */
  datatype Cause = Linkage | Fault

  datatype EndpointState =
    | Ready
    | InFlight(req: Request)
    | Streaming(finalized: nat)
    | Forked(req: Request, hints: seq<BlockRef>)
    | Parked(cause: Cause, pause: nat)

  datatype Endpoint = Endpoint(state: EndpointState, errors: nat, rejects: nat, committed: Option<nat>)

  /** The result of polling whatever the endpoint waits for; one that does not fit is no result. */
  datatype Poll =
    | Pending
    | Answer(finalized: Option<BlockRef>)
    | ForkAnswer(hints: seq<BlockRef>)
    | Failure
    | Item(block: Block)
    | BadItem
    | End
    | Elapsed

  datatype Event =
    | Quiet
    | NewBlock(block: Block, isFinal: bool)
    | FinalizedHead(head: BlockRef)
    | Fork(hints: seq<BlockRef>)
    | MaybeOnHead

  // ----- the log of a run -----

  datatype Entry =
    | Moved(position: Request)
    | Committed(endpoint: nat, block: Block)
    | Final(head: BlockRef, reported: BlockRef)
    | Voted(votes: seq<Request>, total: nat, active: nat, timedOut: bool)
    | Retried(endpoint: nat, block: Block)
    | Paused(endpoint: nat, block: Block)
    | Roused(linkage: set<nat>, woken: set<nat>)

  function Init(log: seq<Entry>): seq<Entry>
    requires log != []
  {
    log[..|log| - 1]
  }

  function Last(log: seq<Entry>): Entry
    requires log != []
  {
    log[|log| - 1]
  }

  /** The position a run has reached: right after the last committed block or reposition. */
  function Cursor(log: seq<Entry>): Request {
    if log == [] then Request(0, None)
    else match Last(log)
      case Moved(p) => p
      case Committed(_, b) => Request(b.number + 1, Some(b.hash))
      case _ => Cursor(Init(log))
  }

  /** The endpoint whose block the position is right behind; none after a reposition. */
  function Committer(log: seq<Entry>): Option<nat> {
    if log == [] then None
    else match Last(log)
      case Moved(_) => None
      case Committed(i, _) => Some(i)
      case _ => Committer(Init(log))
  }

  /** The request was for the position that was current at some point. */
  ghost predicate WasCurrent(log: seq<Entry>, req: Request) {
    exists k: nat :: k <= |log| && Cursor(log[..k]) == req
  }

  /** The finalized head since the last reposition. */
  function Watermark(log: seq<Entry>): Option<BlockRef> {
    if log == [] then None
    else match Last(log)
      case Moved(_) => None
      case Final(h, _) => Some(h)
      case _ => Watermark(Init(log))
  }

  /** The endpoint was rejected without a pause since the position last changed. */
  predicate RetriedHere(log: seq<Entry>, endpoint: nat) {
    log != [] && match Last(log)
      case Moved(_) => false
      case Committed(_, _) => false
      case Retried(i, _) => i == endpoint || RetriedHere(Init(log), endpoint)
      case _ => RetriedHere(Init(log), endpoint)
  }

  /** A reported head below the position is taken as it is. One above counts for the block before the position, and only once
      a block was committed there. */
  predicate PlacedHead(position: Request, committed: bool, head: BlockRef, reported: BlockRef) {
    if reported.number < position.first then head == reported
    else committed && position.first > 0 && position.parent.Some? && head == BlockRef(position.first - 1, position.parent.value)
  }

  /** A block that should come next but does not name the block before the position. */
  predicate Unlinked(position: Request, b: Block) {
    position.first <= b.number && position.parent.Some? && b.parentHash != position.parent.value
  }

  /** What may come next in a run. */
  ghost predicate Follows(log: seq<Entry>, e: Entry) {
    match e
    case Committed(_, b) =>
      Cursor(log).first <= b.number && (Cursor(log).parent.Some? ==> b.parentHash == Cursor(log).parent.value)
    case Final(head, reported) =>
      && (Watermark(log).Some? ==> Watermark(log).value.number < reported.number && Watermark(log).value.number <= head.number)
      && PlacedHead(Cursor(log), Committer(log).Some?, head, reported)
    case Voted(votes, total, active, timedOut) =>
      && votes != [] && (forall i :: 0 <= i < |votes| ==> votes[i] == Cursor(log))
      && (|votes| > total / 2 || |votes| == active || timedOut)
    case Retried(i, b) => !RetriedHere(log, i) && Unlinked(Cursor(log), b)
    case Paused(i, b) => RetriedHere(log, i) && Unlinked(Cursor(log), b)
    case Roused(linkage, woken) => woken == linkage && Committer(log).Some? && forall i :: !RetriedHere(log, i)
    case _ => true
  }

  ghost predicate Sound(log: seq<Entry>) {
    log != [] ==> Sound(Init(log)) && Follows(Init(log), Last(log))
  }

  lemma {:induction false} Append(log: seq<Entry>, e: Entry)
    ensures Sound(log) && Follows(log, e) ==> Sound(log + [e])
    ensures Cursor(log + [e]) == match e
                                 case Moved(p) => p
                                 case Committed(_, b) => Request(b.number + 1, Some(b.hash))
                                 case _ => Cursor(log)
    ensures Committer(log + [e]) == if e.Moved? then None else if e.Committed? then Some(e.endpoint) else Committer(log)
    ensures Watermark(log + [e]) == if e.Moved? then None else if e.Final? then Some(e.head) else Watermark(log)
    ensures forall i :: RetriedHere(log + [e], i) <==>
                        !e.Moved? && !e.Committed? && ((e.Retried? && e.endpoint == i) || RetriedHere(log, i))
    ensures forall req :: WasCurrent(log, req) ==> WasCurrent(log + [e], req)
    ensures WasCurrent(log, Cursor(log))
  {
    assert Init(log + [e]) == log && log[..|log|] == log;
    forall req | WasCurrent(log, req) ensures WasCurrent(log + [e], req) {
      var k: nat :| k <= |log| && Cursor(log[..k]) == req;
      assert (log + [e])[..k] == log[..k];
    }
  }

  lemma {:induction false} NowIsCurrent(log: seq<Entry>)
    ensures WasCurrent(log, Cursor(log))
  {
    assert log[..|log|] == log;
  }

  // ----- one endpoint -----

  const LADDER: seq<nat> := [0, 100, 200, 500, 1000, 2000, 5000, 10000]

  function BackoffMs(consecutive: nat): (ms: nat)
    ensures ms == 0 <==> consecutive == 0
  {
    LADDER[if consecutive < |LADDER| then consecutive else |LADDER| - 1]
  }

  /** The ladder only climbs and tops out at ten seconds. */
  lemma {:induction false} BackoffClimbs(a: nat, b: nat)
    requires a <= b
    ensures BackoffMs(a) <= BackoffMs(b) <= 10000
    ensures b >= 7 <==> BackoffMs(b) == 10000
  {
  }

  function OnError(ep: Endpoint): Endpoint {
    var pause := BackoffMs(ep.errors);
    ep.(state := if pause > 0 then Parked(Fault, pause) else Ready, errors := ep.errors + 1)
  }

  function OnReject(ep: Endpoint): Endpoint {
    var pause := BackoffMs(ep.rejects);
    ep.(state := if pause > 0 then Parked(Linkage, pause) else Ready, rejects := ep.rejects + 1)
  }

  /** What a peer's commit does to an endpoint: it decides by the two counters alone. */
  function Rouse(ep: Endpoint): Endpoint {
    var attributable := ep.rejects > 0 && ep.errors == 0;
    ep.(rejects := 0, state := if attributable && ep.state.Parked? then Ready else ep.state)
  }

  predicate EndpointOk(ep: Endpoint, position: Request, started: bool) {
    match ep.state
    case InFlight(req) => req.first <= position.first
    case Forked(req, hints) => req.first <= position.first && hints != [] && (req == position ==> started)
    case Parked(Linkage, pause) => ep.errors == 0 && ep.rejects >= 2 && pause == BackoffMs(ep.rejects - 1)
    case Parked(Fault, pause) => ep.errors >= 2 && pause == BackoffMs(ep.errors - 1)
    case _ => true
  }

  /** The endpoint committed the block right before the position. */
  predicate CommittedLast(ep: Endpoint, position: Request) {
    ep.committed.Some? && ep.committed.value + 1 == position.first
  }

  predicate Asking(ep: Endpoint) {
    ep.state.InFlight? || ep.state.Forked?
  }

  /** After its poll an endpoint waits, and a fork answer it holds concerns the current position. */
  predicate Settled(ep: Endpoint, position: Request) {
    !ep.state.Ready? && (ep.state.Forked? ==> ep.state.req == position)
  }

  predicate Resting(ep: Endpoint, cause: Cause) {
    ep.state.Parked? && ep.state.cause == cause
  }

  /** The counters tell a linkage backoff from a transport backoff in every reachable state. */
  lemma {:induction false} RouseWakesExactlyLinkage(ep: Endpoint, position: Request, started: bool)
    requires EndpointOk(ep, position, started)
    ensures Resting(ep, Linkage) <==> ep.state.Parked? && Rouse(ep).state == Ready
    ensures Resting(ep, Fault) ==> Rouse(ep).state == ep.state
    ensures !Resting(Rouse(ep), Linkage) && EndpointOk(Rouse(ep), position, started)
  {
  }

  function Votes(eps: seq<Endpoint>): (r: seq<Request>)
  {
    if eps == [] then []
    else Votes(eps[..|eps| - 1]) + if eps[|eps| - 1].state.Forked? then [eps[|eps| - 1].state.req] else []
  }

  function Active(eps: seq<Endpoint>): nat {
    if eps == [] then 0 else Active(eps[..|eps| - 1]) + if eps[|eps| - 1].state.Parked? then 0 else 1
  }

  lemma {:induction false} VotesAre(eps: seq<Endpoint>, position: Request)
    requires forall i :: 0 <= i < |eps| ==> Settled(eps[i], position)
    ensures forall v :: v in Votes(eps) ==> v == position
    ensures Votes(eps) == [] <==> forall i :: 0 <= i < |eps| ==> !eps[i].state.Forked?
  {
    if eps != [] { VotesAre(eps[..|eps| - 1], position); }
  }

  // ----- what a poll does, as a function -----

  datatype Shared = Shared(position: Request, canonical: bool, finalizedHead: Option<BlockRef>, maxSeen: nat,
                           timer: bool, started: bool, log: seq<Entry>)

  /** A reported head counts when it is news and can be placed: below the position, or above it
      once the position itself is known to be canonical. */
  predicate RaisesHead(sh: Shared, head: Option<BlockRef>) {
    && head.Some? && sh.position.first > 0 && sh.position.parent.Some?
    && (sh.finalizedHead.Some? ==> sh.finalizedHead.value.number < head.value.number)
    && (head.value.number < sh.position.first || sh.canonical)
  }

  function SeeHead(sh: Shared, head: Option<BlockRef>): Shared {
    var seen := if head.Some? && sh.maxSeen < head.value.number then sh.(maxSeen := head.value.number) else sh;
    if !RaisesHead(sh, head) then seen
    else
      var h := if head.value.number < sh.position.first then head.value
               else BlockRef(sh.position.first - 1, sh.position.parent.value);
      seen.(finalizedHead := Some(h), log := sh.log + [Final(h, head.value)])
  }

  predicate Links(sh: Shared, block: Block) {
    sh.position.parent.Some? ==> sh.position.parent.value == block.parentHash
  }

  function Commit(sh: Shared, i: nat, block: Block, isFinal: bool): Shared {
    var head := BlockRef(block.number, block.hash);
    Shared(Request(block.number + 1, Some(block.hash)), true,
           if isFinal then Some(head) else sh.finalizedHead,
           sh.maxSeen, false, false,
           sh.log + [Committed(i, block)] + if isFinal then [Final(head, head)] else [])
  }

  /** The effect of one poll result on endpoint `i`; an event ends the poll of that endpoint. */
  function React(sh: Shared, i: nat, ep: Endpoint, poll: Poll): (Shared, Endpoint, Option<Event>) {
    match (ep.state, poll)
    case (InFlight(_), Answer(head)) =>
      (SeeHead(sh, head), ep.(errors := 0, state := Streaming(if head.Some? then head.value.number else 0)),
       if RaisesHead(sh, head) then Some(FinalizedHead(head.value)) else None)
    case (InFlight(req), ForkAnswer(hints)) => (sh.(started := true), ep.(errors := 0, state := Forked(req, hints)), None)
    case (InFlight(_), Failure) => (sh, OnError(ep), None)
    case (Streaming(_), Failure) => (sh, OnError(ep), None)
    case (Streaming(_), BadItem) => (sh, OnError(ep), None)
    case (Streaming(_), End) =>
      var prev := if sh.position.first == 0 then 0 else sh.position.first - 1;
      (sh, ep.(errors := 0, state := Ready), if prev >= sh.maxSeen && ep.committed == Some(prev) then Some(MaybeOnHead) else None)
    case (Streaming(finalized), Item(block)) =>
      if block.number < sh.position.first then (sh, ep.(errors := 0), None)
      else if Links(sh, block) then
        (Commit(sh, i, block, finalized >= block.number), ep.(errors := 0, rejects := 0, committed := Some(block.number)),
         Some(NewBlock(block, finalized >= block.number)))
      else
        (sh.(log := sh.log + [if ep.rejects == 0 then Retried(i, block) else Paused(i, block)]), OnReject(ep.(errors := 0)), None)
    case (Parked(_, _), Elapsed) => (sh, ep.(state := Ready), None)
    case _ => (sh, ep, Some(Quiet))
  }

  /** An idle endpoint, or one whose fork answer is stale, asks again at the current position. */
  function Request'(sh: Shared, ep: Endpoint): Endpoint {
    if ep.state.Ready? || (ep.state.Forked? && ep.state.req != sh.position)
    then ep.(state := InFlight(sh.position)) else ep
  }

  function Drive(sh: Shared, i: nat, ep: Endpoint, polls: seq<Poll>): (Shared, Endpoint, Event)
    decreases polls
  {
    var waiting := Request'(sh, ep);
    if waiting.state.Forked? || polls == [] then (sh, waiting, Quiet)
    else
      var (sh', ep', event) := React(sh, i, waiting, polls[0]);
      if event.Some? then (sh', ep', event.value) else Drive(sh', i, ep', polls[1..])
  }

  lemma {:induction false} DriveOnce(sh: Shared, i: nat, ep: Endpoint, polls: seq<Poll>, k: nat)
    requires k < |polls| && !ep.state.Ready? && !ep.state.Forked?
    ensures var (sh', ep', event) := React(sh, i, ep, polls[k]);
            Drive(sh, i, ep, polls[k..]) == if event.Some? then (sh', ep', event.value) else Drive(sh', i, ep', polls[k + 1..])
  {
  }

  /** Polls the endpoints in order until one has something to report. */
  function Sweep(sh: Shared, eps: seq<Endpoint>, i: nat, polls: seq<seq<Poll>>): (Shared, seq<Endpoint>, Event, nat)
    requires i <= |eps|
    decreases |eps| - i
  {
    if i == |eps| then (sh, eps, Quiet, i)
    else
      var (sh', ep', event) := Drive(sh, i, eps[i], if i < |polls| then polls[i] else []);
      if event.Quiet? then Sweep(sh', eps[i := ep'], i + 1, polls) else (sh', eps[i := ep'], event, i)
  }

  /** The longest list of hints among the fork answers, the first one on a tie. */
  function LongestHints(eps: seq<Endpoint>): seq<BlockRef> {
    if eps == [] then []
    else
      var rest, last := LongestHints(eps[..|eps| - 1]), eps[|eps| - 1].state;
      if last.Forked? && |last.hints| > |rest| then last.hints else rest
  }

  function Restarted(eps: seq<Endpoint>): (r: seq<Endpoint>)
    ensures |r| == |eps| && forall i :: 0 <= i < |eps| ==> r[i] == eps[i].(state := Ready)
  {
    seq(|eps|, i requires 0 <= i < |eps| => eps[i].(state := Ready))
  }

  /** A fork is declared by a majority of all endpoints, by all that are not parked, or by time. */
  function Decide(sh: Shared, eps: seq<Endpoint>, elapsed: bool): (Shared, seq<Endpoint>, Event) {
    var votes, active := Votes(eps), Active(eps);
    var agreed := |votes| > |eps| / 2 || |votes| == active;
    if votes == [] then (sh.(timer := false, started := false), eps, Quiet)
    else if !agreed && !elapsed then (sh.(timer := true), eps, Quiet)
    else (sh.(timer := false, started := false, log := sh.log + [Voted(votes, |eps|, active, !agreed)]),
          Restarted(eps), Fork(LongestHints(eps)))
  }

  // ----- fork consensus, by sets of endpoints -----

  ghost function ForkedSet(eps: seq<Endpoint>): set<nat> {
    set i: nat | i < |eps| && eps[i].state.Forked?
  }

  ghost function ActiveSet(eps: seq<Endpoint>): set<nat> {
    set i: nat | i < |eps| && !eps[i].state.Parked?
  }

  /** Some endpoint reports a fork, and they are more than half of all, or all others are parked, or the time is over. */
  ghost predicate Consensus(eps: seq<Endpoint>, elapsed: bool) {
    var forked := ForkedSet(eps);
    forked != {} && (2 * |forked| > |eps| || (forall i :: 0 <= i < |eps| ==> i in forked || eps[i].state.Parked?) || elapsed)
  }

  /** One of the fork answers, and none is longer. */
  ghost predicate Longest(eps: seq<Endpoint>, hints: seq<BlockRef>) {
    && (exists i :: 0 <= i < |eps| && eps[i].state.Forked? && eps[i].state.hints == hints)
    && (forall i :: 0 <= i < |eps| && eps[i].state.Forked? ==> |eps[i].state.hints| <= |hints|)
  }

  /** What is recorded about a vote: how many reported a fork, of how many, how many were active, and whether time decided. */
  ghost predicate Recorded(eps: seq<Endpoint>, e: Entry) {
    && e.Voted? && |e.votes| == |ForkedSet(eps)| && e.total == |eps| && e.active == |ActiveSet(eps)|
    && (e.timedOut <==> 2 * |ForkedSet(eps)| <= |eps| && ForkedSet(eps) != ActiveSet(eps))
  }

  lemma {:induction false} SetsGrow(eps: seq<Endpoint>)
    requires eps != []
    ensures var n, init := |eps| - 1, eps[..|eps| - 1];
            && n !in ForkedSet(init) && n !in ActiveSet(init)
            && ForkedSet(eps) == (if eps[n].state.Forked? then ForkedSet(init) + {n} else ForkedSet(init))
            && ActiveSet(eps) == (if eps[n].state.Parked? then ActiveSet(init) else ActiveSet(init) + {n})
  {
    var n, init := |eps| - 1, eps[..|eps| - 1];
    assert forall i :: 0 <= i < n ==> init[i] == eps[i];
  }

  lemma {:induction false} CountsAre(eps: seq<Endpoint>)
    ensures |Votes(eps)| == |ForkedSet(eps)| && Active(eps) == |ActiveSet(eps)|
  {
    if eps == [] {
      assert ForkedSet(eps) == {} && ActiveSet(eps) == {};
    } else {
      hide ForkedSet, ActiveSet;
      SetsGrow(eps);
      CountsAre(eps[..|eps| - 1]);
    }
  }

  lemma {:induction false} SubsetOfSameSize(a: set<nat>, b: set<nat>)
    requires a <= b
    ensures |a| == |b| <==> a == b
  {
    assert |b| == |a| + |b - a| by { assert b == a + (b - a); }
    assert |b - a| == 0 <==> b - a == {};
  }

  lemma {:induction false} LongestIs(eps: seq<Endpoint>)
    requires forall i :: 0 <= i < |eps| && eps[i].state.Forked? ==> eps[i].state.hints != []
    ensures ForkedSet(eps) != {} ==> Longest(eps, LongestHints(eps))
    ensures ForkedSet(eps) == {} ==> LongestHints(eps) == []
  {
    if eps != [] {
      var n, init := |eps| - 1, eps[..|eps| - 1];
      LongestIs(init);
      SetsGrow(eps);
      hide ForkedSet;
      forall i | 0 <= i < n ensures eps[i] == init[i] {}
      if ForkedSet(init) != {} {
        var i :| 0 <= i < |init| && init[i].state.Forked? && init[i].state.hints == LongestHints(init);
        assert eps[i].state.hints == LongestHints(init);
      } else {
        NoneForked(init);
      }
    }
  }

  lemma {:induction false} NoneForked(eps: seq<Endpoint>)
    requires ForkedSet(eps) == {}
    ensures forall i :: 0 <= i < |eps| ==> !eps[i].state.Forked?
  {
    forall i | 0 <= i < |eps| ensures !eps[i].state.Forked? {
      assert i !in ForkedSet(eps);
    }
  }

  /** A fork is declared exactly by consensus. The record of the vote gives the true numbers, the answer is a longest list of
      hints, and otherwise the timer runs exactly while some endpoint reports a fork. */
  lemma {:induction false} ForkIffConsensus(sh: Shared, eps: seq<Endpoint>, elapsed: bool)
    requires forall i :: 0 <= i < |eps| && eps[i].state.Forked? ==> eps[i].state.hints != []
    ensures var (sh', eps', event) := Decide(sh, eps, elapsed);
            && (event.Fork? <==> Consensus(eps, elapsed)) && (event.Fork? || event.Quiet?)
            && (event.Fork? ==> Longest(eps, event.hints) && sh'.log != [] && Recorded(eps, Last(sh'.log)) && !sh'.timer)
            && (event.Quiet? ==> sh'.log == sh.log && (sh'.timer <==> ForkedSet(eps) != {}))
  {
    hide Votes, Active, LongestHints, Longest;
    CountsAre(eps);
    LongestIs(eps);
    var forked, active := ForkedSet(eps), ActiveSet(eps);
    SubsetOfSameSize(forked, active);
    assert forked == active <==> forall i :: 0 <= i < |eps| ==> i in forked || eps[i].state.Parked?;
    assert |forked| == 0 <==> forked == {};
  }

  function RousedBy(eps: seq<Endpoint>, committer: nat): (r: seq<Endpoint>)
    ensures |r| == |eps| && forall j :: 0 <= j < |eps| ==> r[j] == if j == committer then eps[j] else Rouse(eps[j])
  {
    seq(|eps|, j requires 0 <= j < |eps| => if j == committer then eps[j] else Rouse(eps[j]))
  }

  function LinkageParked(eps: seq<Endpoint>): set<nat> {
    set j: nat | j < |eps| && Resting(eps[j], Linkage)
  }

  /** One poll of the whole source. */
  function Round(sh: Shared, eps: seq<Endpoint>, polls: seq<seq<Poll>>, elapsed: bool): (Shared, seq<Endpoint>, Event) {
    var (sh', eps', event, i) := Sweep(sh, eps, 0, polls);
    if event.NewBlock? then
      (sh'.(log := sh'.log + [Roused(LinkageParked(eps'), LinkageParked(eps'))]), RousedBy(eps', i), event)
    else if event.Quiet? then Decide(sh', eps', elapsed)
    else (sh', eps', event)
  }

  // ----- the shared state -----

  class StandardDataSource {
    var endpoints: seq<Endpoint>
    var position: Request
    var canonical: bool
    var finalizedHead: Option<BlockRef>
    var maxSeen: nat
    var timer: bool
    var started: bool
    /** What happened so far; no transition reads it. */
    var log: seq<Entry>

    /** The shared state is what its history says. */
    ghost predicate Core()
      reads this
    {
      && Sound(log)
      && position == Cursor(log)
      && finalizedHead == Watermark(log) && (finalizedHead.Some? ==> finalizedHead.value.number < position.first)
      && (canonical <==> Committer(log).Some?) && (canonical ==> position.first > 0 && position.parent.Some?)
    }

    /** The endpoints fit the shared state, and their requests were current when they were made. */
    ghost predicate Tracked()
      reads this
    {
      && (forall i :: 0 <= i < |endpoints| ==> EndpointOk(endpoints[i], position, started))
      && (forall i :: 0 <= i < |endpoints| && RetriedHere(log, i) ==> endpoints[i].rejects >= 1)
      && (forall i :: 0 <= i < |endpoints| && Asking(endpoints[i]) ==> WasCurrent(log, endpoints[i].state.req))
    }

    /** The endpoint right behind whose block the position is knows so, and no other. */
    ghost predicate Credited()
      reads this
    {
      && (forall i :: 0 <= i < |endpoints| ==> (CommittedLast(endpoints[i], position) <==> Committer(log) == Some(i)))
      && (forall i :: 0 <= i < |endpoints| && endpoints[i].committed.Some? ==> endpoints[i].committed.value < position.first)
    }

    /** Strikes are only held against endpoints that were rejected at the current position. */
    ghost predicate Fair()
      reads this
    {
      forall i :: 0 <= i < |endpoints| && endpoints[i].rejects >= 1 ==> RetriedHere(log, i)
    }

    ghost predicate Valid()
      reads this
    {
      Core() && Tracked() && Credited() && Fair()
    }

    ghost function State(): Shared
      reads this
    {
      Shared(position, canonical, finalizedHead, maxSeen, timer, started, log)
    }

    constructor (n: nat)
      ensures Valid() && log == [] && State() == Shared(Request(0, None), false, None, 0, false, false, [])
      ensures endpoints == seq(n, _ => Endpoint(Ready, 0, 0, None))
    {
      endpoints := seq(n, _ => Endpoint(Ready, 0, 0, None));
      position, canonical, finalizedHead, maxSeen := Request(0, None), false, None, 0;
      timer, started, log := false, false, [];
    }

    method SetPosition(next: nat, parent: Option<string>)
      requires Valid()
      modifies this
      ensures Valid() && State() == Moves(old(State()), next, parent) && endpoints == Repositioned(old(endpoints))
    {
      hide Sound, Cursor, Committer, Watermark, RetriedHere, WasCurrent;
      Append(log, Moved(Request(next, parent)));
      position := Request(next, parent);
      canonical, finalizedHead := false, None;
      ResetConsensus();
      endpoints := seq(|endpoints|, i requires 0 <= i < |endpoints| reads this =>
        endpoints[i].(state := Ready, committed := None, rejects := 0));
      log := log + [Moved(position)];
    }

    method ResetConsensus()
      modifies this`timer, this`started
      ensures !timer && !started
    {
      timer, started := false, false;
    }

    /** Commits a block that links to the position; a block that does not is refused untouched. */
    method AcceptNewBlock(i: nat, block: Block, isFinal: bool) returns (accepted: bool)
      requires Core() && Tracked() && position.first <= block.number
      modifies this`position, this`canonical, this`timer, this`started, this`finalizedHead, this`log
      ensures Core() && Tracked()
      ensures accepted <==> Links(old(State()), block)
      ensures State() == if accepted then Commit(old(State()), i, block, isFinal) else old(State())
      ensures accepted ==> Committer(log) == Some(i) && forall j :: !RetriedHere(log, j)
      ensures !accepted ==> Unlinked(position, block)
    {
      hide Sound, Cursor, Committer, Watermark, RetriedHere, WasCurrent;
      if position.parent.Some? && position.parent.value != block.parentHash {
        return false;
      }
      var head := BlockRef(block.number, block.hash);
      Append(log, Committed(i, block));
      Append(log + [Committed(i, block)], Final(head, head));
      position := Request(block.number + 1, Some(block.hash));
      canonical := true;
      ResetConsensus();
      log := log + [Committed(i, block)];
      if isFinal {
        finalizedHead := Some(head);
        log := log + [Final(head, head)];
      }
      accepted := true;
    }

    /** A head of this number is news and can be placed: below the position, or above it behind a committed block. */
    ghost predicate Placeable(n: nat)
      reads this
    {
      && Cursor(log).first > 0 && Cursor(log).parent.Some? && (Watermark(log).Some? ==> Watermark(log).value.number < n)
      && (n < Cursor(log).first || Committer(log).Some?)
    }

    method OnNewFinalizedHead(head: Option<BlockRef>) returns (updated: bool)
      requires Valid()
      modifies this`maxSeen, this`finalizedHead, this`log
      ensures Valid()
      ensures updated <==> RaisesHead(old(State()), head)
      ensures State() == SeeHead(old(State()), head)
      ensures maxSeen >= old(maxSeen) && (head.Some? ==> maxSeen >= head.value.number)
      ensures maxSeen == old(maxSeen) || (head.Some? && maxSeen == head.value.number)
      ensures updated ==> log != [] && Last(log).Final? && head == Some(Last(log).reported)
      ensures updated <==> head.Some? && old(Placeable(head.value.number))
    {
      hide Sound, Cursor, Committer, Watermark, RetriedHere, WasCurrent;
      if head.None? { return false; }
      maxSeen := if maxSeen >= head.value.number then maxSeen else head.value.number;
      if position.first == 0 || position.parent.None? { return false; }
      if finalizedHead.Some? && finalizedHead.value.number >= head.value.number { return false; }
      var next := head.value;
      if head.value.number >= position.first {
        if !canonical { return false; }
        next := BlockRef(position.first - 1, position.parent.value);
      }
      RaiseHead(next, head.value);
      updated := true;
    }

    method RaiseHead(head: BlockRef, reported: BlockRef)
      requires Valid() && Follows(log, Final(head, reported)) && head.number < position.first
      modifies this`finalizedHead, this`log
      ensures Valid() && finalizedHead == Some(head) && log == old(log) + [Final(head, reported)]
    {
      hide Sound, Cursor, Committer, Watermark, RetriedHere, WasCurrent, EndpointOk, Follows;
      Append(log, Final(head, reported));
      finalizedHead := Some(head);
      log := log + [Final(head, reported)];
    }

    /** Records a linkage reject of endpoint `i`: the first one at a position is retried at once. */
    method Reject(i: nat, block: Block)
      requires Valid() && i < |endpoints| && endpoints[i].errors == 0 && Unlinked(position, block)
      modifies this`endpoints, this`log
      ensures Valid() && endpoints == old(endpoints)[i := OnReject(old(endpoints)[i])]
      ensures log == old(log) + [if old(endpoints)[i].rejects == 0 then Retried(i, block) else Paused(i, block)]
    {
      hide Sound, Cursor, Committer, Watermark, RetriedHere, WasCurrent;
      var e := if endpoints[i].rejects == 0 then Retried(i, block) else Paused(i, block);
      Append(log, e);
      endpoints := endpoints[i := OnReject(endpoints[i])];
      log := log + [e];
    }

    /** Handles a parsed block from the stream of endpoint `i`. Blocks below the position are skipped. */
    method Deliver(i: nat, block: Block, finalized: nat) returns (event: Event)
      requires Valid() && i < |endpoints| && endpoints[i].state == Streaming(finalized)
      modifies this
      ensures event.Quiet? ==> Valid()
      ensures |endpoints| == |old(endpoints)| && forall j :: 0 <= j < |endpoints| && j != i ==> endpoints[j] == old(endpoints)[j]
      ensures (State(), endpoints[i], if event.Quiet? then None else Some(event))
              == React(old(State()), i, old(endpoints)[i], Item(block))
      ensures event.Quiet? ==> position == old(position)
      ensures !event.Quiet? ==> event.NewBlock? && CommittedBy(i, event.block)
    {
      hide Sound, Cursor, Committer, Watermark, RetriedHere, WasCurrent;
      var ep := endpoints[i];
      endpoints := endpoints[i := ep.(errors := 0)];
      if block.number < position.first { return Quiet; }
      var isFinal := finalized >= block.number;
      var accepted := AcceptNewBlock(i, block, isFinal);
      if !accepted {
        Reject(i, block);
        return Quiet;
      }
      endpoints := endpoints[i := ep.(errors := 0, rejects := 0, committed := Some(block.number))];
      event := NewBlock(block, isFinal);
    }

    /** Endpoint `i` has just moved the position past `block` and keeps its stream. Only the strikes of the others are stale. */
    ghost predicate CommittedBy(i: nat, block: Block)
      reads this
    {
      && Core() && Tracked() && Credited()
      && position == Request(block.number + 1, Some(block.hash))
      && i < |endpoints| && endpoints[i].state.Streaming? && endpoints[i].rejects == 0 && endpoints[i].committed == Some(block.number)
      && forall j :: !RetriedHere(log, j)
    }

    /** Endpoint `i` goes to another state; its strikes and its credit stay. */
    method Put(i: nat, ep: Endpoint)
      requires Valid() && i < |endpoints| && EndpointOk(ep, position, started)
      requires ep.rejects == endpoints[i].rejects && ep.committed == endpoints[i].committed
      requires Asking(ep) ==> ep.state.req == position || (Asking(endpoints[i]) && ep.state.req == endpoints[i].state.req)
      modifies this`endpoints
      ensures Valid() && endpoints == old(endpoints)[i := ep]
    {
      hide Sound, Cursor, Committer, Watermark, RetriedHere, WasCurrent, EndpointOk;
      NowIsCurrent(log);
      endpoints := endpoints[i := ep];
    }

    method SetTimer(on: bool)
      requires Valid()
      modifies this`timer
      ensures Valid() && timer == on
    {
      hide Sound, Cursor, Committer, Watermark, RetriedHere, WasCurrent;
      timer := on;
    }

    /** Without fork answers there is nothing to wait for. */
    method DropConsensus()
      requires Valid() && forall i :: 0 <= i < |endpoints| ==> !endpoints[i].state.Forked?
      modifies this`timer, this`started
      ensures Valid() && !timer && !started
    {
      hide Sound, Cursor, Committer, Watermark, RetriedHere, WasCurrent;
      ResetConsensus();
    }

    method StartConsensus()
      requires Valid()
      modifies this`started
      ensures Valid() && started
    {
      hide Sound, Cursor, Committer, Watermark, RetriedHere, WasCurrent;
      started := true;
    }

    /** The vote goes on record. */
    method Record(e: Entry)
      requires Valid() && e.Voted? && Follows(log, e)
      modifies this`log
      ensures Valid() && log == old(log) + [e]
    {
      hide Sound, Cursor, Committer, Watermark, RetriedHere, WasCurrent, EndpointOk, Follows;
      Append(log, e);
      log := log + [e];
    }

    ghost predicate Credit(i: nat)
      reads this
    {
      Committer(log) == Some(i)
    }

    lemma {:induction false} CreditIs(i: nat)
      requires Valid() && i < |endpoints|
      ensures CommittedLast(endpoints[i], position) <==> Credit(i)
      ensures endpoints[i].committed.Some? ==> endpoints[i].committed.value < position.first
    {
    }

    lemma {:induction false} ForkPending()
      requires Valid() && (forall i :: 0 <= i < |endpoints| ==> Settled(endpoints[i], position))
      ensures position == Cursor(log) && forall i :: 0 <= i < |endpoints| && endpoints[i].state.Forked? ==> started && endpoints[i].state.hints != []
    {
      hide Sound, Cursor, Committer, Watermark, RetriedHere, WasCurrent;
    }

    lemma {:induction false} ParkedOk(i: nat)
      requires Valid() && i < |endpoints|
      ensures EndpointOk(endpoints[i], position, started)
    {
    }

    /** Reacts to one poll result; `None` means that the endpoint is polled again. */
    method Handle(i: nat, poll: Poll) returns (event: Option<Event>)
      requires Valid() && i < |endpoints| && (poll.ForkAnswer? ==> poll.hints != [])
      requires !endpoints[i].state.Ready? && !endpoints[i].state.Forked?
      modifies this
      ensures !(event.Some? && event.value.NewBlock?) ==> Valid()
      ensures |endpoints| == |old(endpoints)| && forall j :: 0 <= j < |endpoints| && j != i ==> endpoints[j] == old(endpoints)[j]
      ensures event == Some(MaybeOnHead) <==>
              old(endpoints)[i].state.Streaming? && poll.End? && old(Credit(i)) && maxSeen < position.first
      ensures event == Some(MaybeOnHead) ==> Credit(i)
      ensures (State(), endpoints[i], event) == React(old(State()), i, old(endpoints)[i], poll)
      ensures event.None? ==> position == old(position)
      ensures event == Some(Quiet) ==> endpoints == old(endpoints) && position == old(position)
      ensures event.Some? ==> !event.value.Fork?
      ensures event.Some? && event.value.NewBlock? ==> CommittedBy(i, event.value.block)
    {
      hide Core, Tracked, Credited, Fair, Committer, RetriedHere, SeeHead, Commit, RaisesHead, CommittedBy;
      ParkedOk(i);
      var ep := endpoints[i];
      match ep.state
      case InFlight(_) => event := HandleAnswer(i, poll);
      case Streaming(_) => event := HandleStream(i, poll);
      case Parked(_, _) =>
        if poll.Elapsed? {
          Put(i, ep.(state := Ready));
          return None;
        }
        return Some(Quiet);
    }

    method HandleAnswer(i: nat, poll: Poll) returns (event: Option<Event>)
      requires Valid() && i < |endpoints| && (poll.ForkAnswer? ==> poll.hints != []) && endpoints[i].state.InFlight?
      modifies this
      ensures Valid() && position == old(position)
      ensures |endpoints| == |old(endpoints)| && forall j :: 0 <= j < |endpoints| && j != i ==> endpoints[j] == old(endpoints)[j]
      ensures (State(), endpoints[i], event) == React(old(State()), i, old(endpoints)[i], poll)
      ensures event == Some(Quiet) ==> endpoints == old(endpoints)
    {
      hide Core, Tracked, Credited, Fair, SeeHead, Commit, RaisesHead;
      ParkedOk(i);
      var ep := endpoints[i];
      match poll
      case Answer(head) =>
        var updated := OnNewFinalizedHead(head);
        Put(i, ep.(errors := 0, state := Streaming(if head.Some? then head.value.number else 0)));
        return if updated then Some(FinalizedHead(head.value)) else None;
      case ForkAnswer(hints) =>
        StartConsensus();
        Put(i, ep.(errors := 0, state := Forked(ep.state.req, hints)));
        return None;
      case Failure =>
        Put(i, OnError(ep));
        return None;
      case _ => return Some(Quiet);
    }

    method HandleStream(i: nat, poll: Poll) returns (event: Option<Event>)
      requires Valid() && i < |endpoints| && endpoints[i].state.Streaming?
      modifies this
      ensures !(event.Some? && event.value.NewBlock?) ==> Valid() && position == old(position)
      ensures |endpoints| == |old(endpoints)| && forall j :: 0 <= j < |endpoints| && j != i ==> endpoints[j] == old(endpoints)[j]
      ensures event == Some(MaybeOnHead) <==> poll.End? && old(Credit(i)) && maxSeen < position.first
      ensures event == Some(MaybeOnHead) ==> Credit(i)
      ensures (State(), endpoints[i], event) == React(old(State()), i, old(endpoints)[i], poll)
      ensures event == Some(Quiet) ==> endpoints == old(endpoints)
      ensures event.Some? && event.value.NewBlock? ==> CommittedBy(i, event.value.block)
    {
      hide Core, Tracked, Credited, Fair, Committer, RetriedHere, SeeHead, Commit, RaisesHead, CommittedBy;
      ParkedOk(i);
      CreditIs(i);
      var ep := endpoints[i];
      match poll
      case Failure =>
        Put(i, OnError(ep));
        return None;
      case BadItem =>
        Put(i, OnError(ep));
        return None;
      case End =>
        Put(i, ep.(errors := 0, state := Ready));
        var prev := if position.first == 0 then 0 else position.first - 1;
        return if prev >= maxSeen && ep.committed == Some(prev) then Some(MaybeOnHead) else None;
      case Item(block) =>
        var delivered := Deliver(i, block, ep.state.finalized);
        return if delivered.Quiet? then None else Some(delivered);
      case _ => return Some(Quiet);
    }

    /** Polls endpoint `i` until it waits or has something to report. */
    method PollEndpoint(i: nat, polls: seq<Poll>) returns (event: Event)
      requires Valid() && i < |endpoints|
      requires forall k :: 0 <= k < |polls| && polls[k].ForkAnswer? ==> polls[k].hints != []
      modifies this
      ensures !event.NewBlock? ==> Valid()
      ensures |endpoints| == |old(endpoints)| && forall j :: 0 <= j < |endpoints| && j != i ==> endpoints[j] == old(endpoints)[j]
      ensures event.MaybeOnHead? ==> Credit(i) && maxSeen < position.first
      ensures (State(), endpoints[i], event) == Drive(old(State()), i, old(endpoints)[i], polls)
      ensures !event.Fork?
      ensures event.Quiet? ==> position == old(position) && Settled(endpoints[i], position)
      ensures event.NewBlock? ==> CommittedBy(i, event.block)
    {
      hide Sound, Cursor, Committer, Watermark, RetriedHere, WasCurrent, React;
      assert polls[0..] == polls;
      var k := 0;
      while true
        invariant k <= |polls| && Valid() && position == old(position)
        invariant |endpoints| == |old(endpoints)| && forall j :: 0 <= j < |endpoints| && j != i ==> endpoints[j] == old(endpoints)[j]
        invariant Drive(old(State()), i, old(endpoints)[i], polls) == Drive(State(), i, endpoints[i], polls[k..])
        decreases |polls| - k, if endpoints[i].state.Forked? then 2 else if endpoints[i].state.Ready? then 1 else 0
      {
        var ep := endpoints[i];
        if ep.state.Ready? {
          Put(i, ep.(state := InFlight(position)));
          continue;
        }
        if ep.state.Forked? {
          if ep.state.req == position { return Quiet; }
          Put(i, ep.(state := Ready));
          continue;
        }
        if k == |polls| { return Quiet; }
        DriveOnce(State(), i, ep, polls, k);
        var handled := Handle(i, polls[k]);
        k := k + 1;
        if handled.Some? { return handled.value; }
      }
    }

    /** A commit moved the position: strikes at the old one are stale for every other endpoint. */
    method RouseOthers(committer: nat)
      requires Core() && Tracked() && Credited() && committer < |endpoints| && (forall i :: !RetriedHere(log, i))
      requires endpoints[committer].state.Streaming? && endpoints[committer].rejects == 0 && Committer(log) == Some(committer)
      modifies this`endpoints, this`log
      ensures Valid() && endpoints == RousedBy(old(endpoints), committer)
      ensures log == old(log) + [Roused(LinkageParked(old(endpoints)), LinkageParked(old(endpoints)))]
      ensures forall j :: 0 <= j < |endpoints| ==> endpoints[j].rejects == 0 && !Resting(endpoints[j], Linkage)
    {
      hide Sound, Cursor, Committer, Watermark, RetriedHere, WasCurrent;
      var linkage := LinkageParked(endpoints);
      var woken: set<nat> := {};
      for j := 0 to |endpoints|
        modifies this`endpoints
        invariant |endpoints| == |old(endpoints)| && endpoints[committer] == old(endpoints)[committer]
        invariant forall m :: 0 <= m < j && m != committer ==> endpoints[m] == Rouse(old(endpoints)[m])
        invariant forall m :: j <= m < |endpoints| ==> endpoints[m] == old(endpoints)[m]
        invariant forall m: nat :: m in woken <==> m < j && Resting(old(endpoints)[m], Linkage)
      {
        if j != committer {
          RouseWakesExactlyLinkage(endpoints[j], position, started);
          var other := Rouse(endpoints[j]);
          if endpoints[j].state.Parked? && other.state == Ready { woken := woken + {j}; }
          endpoints := endpoints[j := other];
        }
      }
      assert woken == linkage;
      Append(log, Roused(linkage, woken));
      log := log + [Roused(linkage, woken)];
      forall j | 0 <= j < |endpoints| ensures EndpointOk(endpoints[j], position, started) && !Resting(endpoints[j], Linkage) {
        RouseWakesExactlyLinkage(old(endpoints)[j], position, started);
      }
    }

    /** Takes the longest list of hints and puts every endpoint, voter or not, back to work. */
    method ExtractFork() returns (chain: seq<BlockRef>)
      requires Valid() && exists i :: 0 <= i < |endpoints| && endpoints[i].state.Forked?
      modifies this`endpoints, this`timer, this`started
      ensures Valid() && !timer && !started && endpoints == Restarted(old(endpoints))
      ensures chain != [] && chain == LongestHints(old(endpoints))
    {
      hide Sound, Cursor, Committer, Watermark, RetriedHere, WasCurrent;
      ResetConsensus();
      chain := [];
      for i := 0 to |endpoints|
        modifies this`endpoints
        invariant |endpoints| == |old(endpoints)|
        invariant forall m :: 0 <= m < i ==> endpoints[m] == old(endpoints)[m].(state := Ready)
        invariant forall m :: i <= m < |endpoints| ==> endpoints[m] == old(endpoints)[m]
        invariant chain == LongestHints(old(endpoints)[..i])
        invariant forall m :: 0 <= m < i && old(endpoints)[m].state.Forked? ==> |old(endpoints)[m].state.hints| <= |chain|
      {
        var state := endpoints[i].state;
        assert old(endpoints)[..i + 1][..i] == old(endpoints)[..i];
        endpoints := endpoints[i := endpoints[i].(state := Ready)];
        if state.Forked? && |state.hints| > |chain| {
          chain := state.hints;
        }
      }
      assert old(endpoints)[..|old(endpoints)|] == old(endpoints);
      assert chain != [];
      assert endpoints == Restarted(old(endpoints));
    }

    /** With every endpoint waiting, decides whether the fork answers amount to a fork. */
    method DecideFork(elapsed: bool) returns (event: Event)
      requires Valid() && forall i :: 0 <= i < |endpoints| ==> Settled(endpoints[i], position)
      modifies this`endpoints, this`timer, this`started, this`log
      ensures Valid() && (State(), endpoints, event) == Decide(old(State()), old(endpoints), elapsed)
      ensures event.Quiet? || event.Fork?
      ensures event.Fork? <==> Consensus(old(endpoints), elapsed)
      ensures endpoints == if event.Fork? then Restarted(old(endpoints)) else old(endpoints)
      ensures event.Fork? ==> ForkDecided(event.hints) && Longest(old(endpoints), event.hints) && Recorded(old(endpoints), Last(log))
    {
      hide Core, Tracked, Credited, Fair, Cursor, Votes, Active, LongestHints, Consensus, Longest, Recorded;
      ForkPending();
      ForkIffConsensus(State(), endpoints, elapsed);
      VotesAre(endpoints, position);
      var votes, active := Votes(endpoints), Active(endpoints);
      if votes == [] {
        DropConsensus();
        return Quiet;
      }
      var timedOut := false;
      if |votes| <= |endpoints| / 2 && |votes| != active {
        SetTimer(true);
        if !elapsed { return Quiet; }
        SetTimer(false);
        timedOut := true;
      }
      assert started;  // the consensus clock was started by the first fork signal
      var e := Voted(votes, |endpoints|, active, timedOut);
      assert forall j :: 0 <= j < |votes| ==> votes[j] in votes;
      var hints := ExtractFork();
      Record(e);
      event := Fork(hints);
    }

    /** The vote just recorded is unanimous about the current position, and every endpoint starts over. */
    ghost predicate ForkDecided(hints: seq<BlockRef>)
      reads this
    {
      && hints != [] && (forall i :: 0 <= i < |endpoints| ==> endpoints[i].state == Ready)
      && log != [] && Last(log).Voted? && Last(log).votes != []
      && forall v :: v in Last(log).votes ==> v == position
    }

    /** One poll of the stream of events. `polls[i]` answers endpoint `i`; `elapsed` tells whether
        the consensus timer has run out. */
    method PollNextEvent(polls: seq<seq<Poll>>, elapsed: bool) returns (event: Event)
      requires Valid()
      requires forall i, k :: 0 <= i < |polls| && 0 <= k < |polls[i]| && polls[i][k].ForkAnswer? ==> polls[i][k].hints != []
      modifies this
      ensures Valid()
      ensures (State(), endpoints, event) == Round(old(State()), old(endpoints), polls, elapsed)
      ensures event.NewBlock? ==> forall i :: 0 <= i < |endpoints| ==> endpoints[i].rejects == 0 && !Resting(endpoints[i], Linkage)
      ensures event.Fork? ==> ForkDecided(event.hints) && position == old(position)
      ensures event.Quiet? ==> (forall i :: 0 <= i < |endpoints| ==> Settled(endpoints[i], position)) && !Consensus(endpoints, elapsed)
      ensures event.Fork? ==> exists waiting :: Decided(waiting, elapsed, event.hints)
    {
      hide Sound, Cursor, Committer, Watermark, RetriedHere, WasCurrent, Drive, Decide, RousedBy, LinkageParked, Consensus, Longest, Recorded;
      var i := 0;
      while i < |endpoints|
        invariant i <= |endpoints| == |old(endpoints)| && Valid() && position == old(position)
        invariant forall m :: 0 <= m < i ==> Settled(endpoints[m], position)
        invariant Sweep(old(State()), old(endpoints), 0, polls) == Sweep(State(), endpoints, i, polls)
      {
        ghost var before := endpoints;
        event := PollEndpoint(i, if i < |polls| then polls[i] else []);
        assert endpoints == before[i := endpoints[i]];
        if !event.Quiet? {
          if event.NewBlock? { RouseOthers(i); }
          return;
        }
        i := i + 1;
      }
      ghost var waiting := endpoints;
      event := DecideFork(elapsed);
      if event.Fork? { assert Decided(waiting, elapsed, event.hints); }
    }

    /** The endpoints that were waiting had reached consensus, and this is their vote. */
    ghost predicate Decided(waiting: seq<Endpoint>, elapsed: bool, hints: seq<BlockRef>)
      reads this
    {
      && endpoints == Restarted(waiting) && (forall i :: 0 <= i < |waiting| ==> Settled(waiting[i], position))
      && Consensus(waiting, elapsed) && Longest(waiting, hints) && log != [] && Recorded(waiting, Last(log))
    }
  }

  // ----- what soundness means entry by entry -----

  lemma {:induction false} SoundAt(log: seq<Entry>, k: nat)
    requires Sound(log) && k < |log|
    ensures Sound(log[..k]) && Follows(log[..k], log[k])
    decreases |log|
  {
    if k + 1 < |log| {
      SoundAt(Init(log), k);
      assert Init(log)[..k] == log[..k];
    }
  }

  ghost predicate NoMove(log: seq<Entry>, a: nat, b: nat) {
    forall k :: a < k < b && k < |log| ==> !log[k].Moved?
  }

  lemma {:induction false} CursorSince(log: seq<Entry>, a: nat, b: nat)
    requires Sound(log) && a < b <= |log| && log[a].Committed? && NoMove(log, a, b)
    ensures Cursor(log[..b]).first > log[a].block.number
    ensures (forall k :: a < k < b ==> !log[k].Committed?) ==> Cursor(log[..b]) == Request(log[a].block.number + 1, Some(log[a].block.hash))
  {
    assert Init(log[..b]) == log[..b - 1] && Last(log[..b]) == log[b - 1];
    if a + 1 < b {
      CursorSince(log, a, b - 1);
      SoundAt(log, b - 1);
    }
  }

  /** Between repositionings, whatever mix of endpoints delivered them, emitted blocks strictly
      ascend and each one names the previous one as its parent. */
  lemma {:induction false} EmittedBlocksFormAChain(log: seq<Entry>, a: nat, b: nat)
    requires Sound(log) && a < b < |log| && log[a].Committed? && log[b].Committed? && NoMove(log, a, b)
    ensures log[a].block.number < log[b].block.number
    ensures (forall k :: a < k < b ==> !log[k].Committed?) ==> log[b].block.parentHash == log[a].block.hash
  {
    CursorSince(log, a, b);
    SoundAt(log, b);
  }

  lemma {:induction false} WatermarkSince(log: seq<Entry>, a: nat, b: nat)
    requires Sound(log) && a < b <= |log| && log[a].Final? && NoMove(log, a, b)
    ensures Watermark(log[..b]).Some? && log[a].head.number <= Watermark(log[..b]).value.number
  {
    assert Init(log[..b]) == log[..b - 1] && Last(log[..b]) == log[b - 1];
    if a + 1 < b {
      WatermarkSince(log, a, b - 1);
      SoundAt(log, b - 1);
    }
  }

  lemma {:induction false} FinalityNeverMovesBack(log: seq<Entry>, a: nat, b: nat)
    requires Sound(log) && a < b < |log| && log[a].Final? && log[b].Final? && NoMove(log, a, b)
    ensures log[a].head.number <= log[b].head.number < Cursor(log[..b]).first
  {
    WatermarkSince(log, a, b);
    SoundAt(log, b);
  }

  lemma {:induction false} RetriedSince(log: seq<Entry>, a: nat, b: nat)
    requires a < b <= |log| && log[a].Retried?
    requires NoMove(log, a, b) && forall k :: a < k < b ==> !log[k].Committed?
    ensures RetriedHere(log[..b], log[a].endpoint)
  {
    assert Init(log[..b]) == log[..b - 1] && Last(log[..b]) == log[b - 1];
    if a + 1 < b { RetriedSince(log, a, b - 1); }
  }

  /** Two unpaused rejects of one endpoint are always separated by a change of position. */
  lemma {:induction false} OneFreeRetryPerPosition(log: seq<Entry>, a: nat, b: nat)
    requires Sound(log) && a < b < |log| && log[a].Retried? && log[b].Retried? && log[a].endpoint == log[b].endpoint
    ensures exists k :: a < k < b && (log[k].Moved? || log[k].Committed?)
  {
    SoundAt(log, b);
    if !exists k :: a < k < b && (log[k].Moved? || log[k].Committed?) {
      RetriedSince(log, a, b);
      assert false;
    }
  }

  datatype Op = PollAll(polls: seq<seq<Poll>>, elapsed: bool) | Move(next: nat, parent: Option<string>)

  /** A client never reports a fork without hints. */
  predicate WellFormed(op: Op) {
    op.PollAll? ==> forall i, k :: 0 <= i < |op.polls| && 0 <= k < |op.polls[i]| && op.polls[i][k].ForkAnswer? ==> op.polls[i][k].hints != []
  }

  function Moves(sh: Shared, next: nat, parent: Option<string>): Shared {
    Shared(Request(next, parent), false, None, sh.maxSeen, false, false, sh.log + [Moved(Request(next, parent))])
  }

  function Repositioned(eps: seq<Endpoint>): seq<Endpoint> {
    seq(|eps|, i requires 0 <= i < |eps| => eps[i].(state := Ready, committed := None, rejects := 0))
  }

  /** The state after a run of operations. */
  function After(n: nat, ops: seq<Op>): (Shared, seq<Endpoint>) {
    if ops == [] then
      (Shared(Request(0, None), false, None, 0, false, false, []), seq(n, _ => Endpoint(Ready, 0, 0, None)))
    else
      var (sh, eps) := After(n, ops[..|ops| - 1]);
      match ops[|ops| - 1]
      case PollAll(polls, elapsed) => var (sh', eps', _) := Round(sh, eps, polls, elapsed); (sh', eps')
      case Move(next, parent) => (Moves(sh, next, parent), Repositioned(eps))
  }

  // ----- what a run shows its caller -----

  /** What the caller of one operation learns. */
  datatype Seen = Polled(event: Event) | Placed(position: Request)

  /** The entries of a log that a caller can tell from what it has seen: retries, pauses and wake-ups are internal. */
  predicate Visible(e: Entry) {
    e.Moved? || e.Committed? || e.Final? || e.Voted?
  }

  function VisibleIn(log: seq<Entry>): seq<Entry> {
    if log == [] then [] else VisibleIn(Init(log)) + if Visible(Last(log)) then [Last(log)] else []
  }

  /** How many visible entries an operation leaves. */
  function Size(seen: Seen): nat {
    match seen
    case Placed(_) => 1
    case Polled(NewBlock(_, isFinal)) => if isFinal then 2 else 1
    case Polled(FinalizedHead(_)) => 1
    case Polled(Fork(_)) => 1
    case Polled(_) => 0
  }

  /** The visible entries that go with what was seen. */
  predicate Told(seen: Seen, entries: seq<Entry>) {
    |entries| == Size(seen) &&
    match seen
    case Placed(p) => entries[0] == Moved(p)
    case Polled(NewBlock(b, isFinal)) =>
      && entries[0].Committed? && entries[0].block == b
      && (isFinal ==> entries[1].Final? && entries[1].head == BlockRef(b.number, b.hash))
    case Polled(FinalizedHead(h)) => entries[0].Final? && entries[0].reported == h
    case Polled(Fork(_)) => entries[0].Voted?
    case Polled(_) => true
  }

  /** What was seen, operation by operation, accounts for all visible entries in order. */
  ghost predicate Accounts(seen: seq<Seen>, entries: seq<Entry>) {
    if seen == [] then entries == []
    else
      var last := seen[|seen| - 1];
      && Size(last) <= |entries|
      && Accounts(seen[..|seen| - 1], entries[..|entries| - Size(last)]) && Told(last, entries[|entries| - Size(last)..])
  }

  lemma {:induction false} AccountsMore(seen: seq<Seen>, entries: seq<Entry>, last: Seen, more: seq<Entry>)
    requires Accounts(seen, entries) && Told(last, more)
    ensures Accounts(seen + [last], entries + more)
  {
    hide Told;
    ToldSize(last, more);
    assert (seen + [last])[..|seen|] == seen;
    assert (entries + more)[..|entries|] == entries && (entries + more)[|entries|..] == more;
  }

  lemma {:induction false} ToldSize(seen: Seen, entries: seq<Entry>)
    requires Told(seen, entries)
    ensures |entries| == Size(seen)
  {
  }

  lemma {:induction false} VisibleMore(log: seq<Entry>, e: Entry)
    ensures VisibleIn(log + [e]) == VisibleIn(log) + if Visible(e) then [e] else []
  {
    assert Init(log + [e]) == log;
  }

  /** What is visible of a sound log is a sound log by itself, at the same position and watermark. */
  lemma {:induction false} VisibleIsSound(log: seq<Entry>)
    requires Sound(log)
    ensures Sound(VisibleIn(log)) && Cursor(VisibleIn(log)) == Cursor(log) && Committer(VisibleIn(log)) == Committer(log)
    ensures Watermark(VisibleIn(log)) == Watermark(log)
  {
    if log != [] {
      hide RetriedHere;
      VisibleIsSound(Init(log));
      var before, e := VisibleIn(Init(log)), Last(log);
      if Visible(e) {
        Append(before, e);
      } else {
        assert VisibleIn(log) == before;
      }
    }
  }

  /** `b` is `a` with the visible entries of `seen` behind it, and internal ones. */
  ghost predicate Shows(a: seq<Entry>, b: seq<Entry>, seen: Seen) {
    exists more :: Told(seen, more) && VisibleIn(b) == VisibleIn(a) + more
  }

  lemma {:induction false} ShowsNothing(a: seq<Entry>, b: seq<Entry>, event: Event)
    requires VisibleIn(a) == VisibleIn(b) && (event.Quiet? || event.MaybeOnHead?)
    ensures Shows(a, b, Polled(event))
  {
    assert Told(Polled(event), []) && VisibleIn(b) == VisibleIn(a) + [];
  }

  lemma {:induction false} ReactShows(sh: Shared, i: nat, ep: Endpoint, poll: Poll)
    ensures var (sh', _, event) := React(sh, i, ep, poll);
            if event.Some? then Shows(sh.log, sh'.log, Polled(event.value)) else VisibleIn(sh'.log) == VisibleIn(sh.log)
  {
    hide VisibleIn;
    var (sh', _, event) := React(sh, i, ep, poll);
    if ep.state.InFlight? && poll.Answer? {
      if RaisesHead(sh, poll.finalized) {
        var e := Final(sh'.finalizedHead.value, poll.finalized.value);
        VisibleMore(sh.log, e);
        assert Told(Polled(event.value), [e]);
      }
    } else if ep.state.Streaming? && poll.Item? {
      var block := poll.block;
      if block.number >= sh.position.first {
        if Links(sh, block) {
          CommitShows(sh, i, block, ep.state.finalized >= block.number);
        } else {
          VisibleMore(sh.log, if ep.rejects == 0 then Retried(i, block) else Paused(i, block));
        }
      }
    } else if event.Some? {
      ShowsNothing(sh.log, sh'.log, event.value);
    }
  }

  lemma {:induction false} CommitShows(sh: Shared, i: nat, block: Block, isFinal: bool)
    ensures Shows(sh.log, Commit(sh, i, block, isFinal).log, Polled(NewBlock(block, isFinal)))
  {
    hide VisibleIn;
    var e, head := Committed(i, block), BlockRef(block.number, block.hash);
    var log, final := sh.log + [e], Final(head, head);
    VisibleMore(sh.log, e);
    if isFinal {
      VisibleMore(log, final);
      assert Told(Polled(NewBlock(block, isFinal)), [e, final]);
      assert VisibleIn(log + [final]) == VisibleIn(sh.log) + [e, final];
    } else {
      assert log + [] == log;
      assert Told(Polled(NewBlock(block, isFinal)), [e]);
    }
  }

  lemma {:induction false} DriveShows(sh: Shared, i: nat, ep: Endpoint, polls: seq<Poll>)
    ensures var (sh', _, event) := Drive(sh, i, ep, polls); Shows(sh.log, sh'.log, Polled(event))
    decreases polls
  {
    hide React, VisibleIn, Told;
    var waiting := Request'(sh, ep);
    if waiting.state.Forked? || polls == [] {
      ShowsNothing(sh.log, sh.log, Quiet);
    } else {
      ReactShows(sh, i, waiting, polls[0]);
      var (sh', ep', event) := React(sh, i, waiting, polls[0]);
      if event.None? { DriveShows(sh', i, ep', polls[1..]); }
    }
  }

  lemma {:induction false} QuietShows(a: seq<Entry>, b: seq<Entry>)
    requires Shows(a, b, Polled(Quiet))
    ensures VisibleIn(b) == VisibleIn(a)
  {
    var more :| Told(Polled(Quiet), more) && VisibleIn(b) == VisibleIn(a) + more;
    assert more == [];
  }

  lemma {:induction false} SweepShows(sh: Shared, eps: seq<Endpoint>, i: nat, polls: seq<seq<Poll>>)
    requires i <= |eps|
    ensures var (sh', _, event, _) := Sweep(sh, eps, i, polls); Shows(sh.log, sh'.log, Polled(event))
    decreases |eps| - i
  {
    hide Drive, VisibleIn, Told;
    if i == |eps| {
      ShowsNothing(sh.log, sh.log, Quiet);
    } else {
      var own := if i < |polls| then polls[i] else [];
      DriveShows(sh, i, eps[i], own);
      var (sh', ep', event) := Drive(sh, i, eps[i], own);
      if event.Quiet? {
        QuietShows(sh.log, sh'.log);
        SweepShows(sh', eps[i := ep'], i + 1, polls);
      }
    }
  }

  /** One poll of the source leaves exactly the visible entries of the event that it returns. */
  lemma {:induction false} RoundShows(sh: Shared, eps: seq<Endpoint>, polls: seq<seq<Poll>>, elapsed: bool)
    ensures var (sh', _, event) := Round(sh, eps, polls, elapsed); Shows(sh.log, sh'.log, Polled(event))
  {
    hide Sweep, VisibleIn, Told, Votes, Active, LongestHints;
    SweepShows(sh, eps, 0, polls);
    var (sh', eps', event, i) := Sweep(sh, eps, 0, polls);
    if event.NewBlock? {
      VisibleMore(sh'.log, Roused(LinkageParked(eps'), LinkageParked(eps')));
    } else if event.Quiet? {
      QuietShows(sh.log, sh'.log);
      DecideShows(sh', eps', elapsed);
    }
  }

  lemma {:induction false} DecideShows(sh: Shared, eps: seq<Endpoint>, elapsed: bool)
    ensures var (sh', _, event) := Decide(sh, eps, elapsed); Shows(sh.log, sh'.log, Polled(event))
  {
    hide VisibleIn, Votes, Active, LongestHints;
    var (sh', _, event) := Decide(sh, eps, elapsed);
    if event.Quiet? {
      ShowsNothing(sh.log, sh'.log, Quiet);
    } else {
      var e := Last(sh'.log);
      VisibleMore(sh.log, e);
      assert Told(Polled(event), [e]);
    }
  }

  lemma {:induction false} AccountsStep(seen: seq<Seen>, a: seq<Entry>, b: seq<Entry>, last: Seen)
    requires Accounts(seen, VisibleIn(a)) && Shows(a, b, last)
    ensures Accounts(seen + [last], VisibleIn(b))
  {
    hide Accounts, VisibleIn, Told;
    var more :| Told(last, more) && VisibleIn(b) == VisibleIn(a) + more;
    AccountsMore(seen, VisibleIn(a), last, more);
  }

  /** For any number of endpoints, any repositionings and any poll results, the whole run is sound:
      emitted blocks ascend and link, finality lags the position and never moves back, every vote in
      a fork decision is about the position then current, at most one reject per endpoint and
      position goes unpaused, and a commit wakes exactly the endpoints parked by a linkage reject.
      The caller sees exactly that: the events it gets are the visible entries, in order. */
  method Run(n: nat, ops: seq<Op>) returns (log: seq<Entry>, seen: seq<Seen>)
    requires forall i :: 0 <= i < |ops| ==> WellFormed(ops[i])
    ensures Sound(log) && log == After(n, ops).0.log
    ensures |seen| == |ops| && Accounts(seen, VisibleIn(log)) && Sound(VisibleIn(log))
  {
    hide Sound, Cursor, Committer, Watermark, RetriedHere, WasCurrent, Round, WellFormed, Accounts, VisibleIn, Shows;
    var source := new StandardDataSource(n);
    seen := [];
    NothingSeen();
    for i := 0 to |ops|
      invariant fresh(source) && source.Valid() && |seen| == i
      invariant (source.State(), source.endpoints) == After(n, ops[..i])
      invariant Accounts(seen, VisibleIn(source.log))
    {
      assert ops[..i + 1][..i] == ops[..i];
      ghost var before := source.log;
      match ops[i]
      case PollAll(polls, elapsed) =>
        WellFormedPolls(ops[i]);
        RoundShows(source.State(), source.endpoints, polls, elapsed);
        var event := source.PollNextEvent(polls, elapsed);
        AccountsStep(seen, before, source.log, Polled(event));
        seen := seen + [Polled(event)];
      case Move(next, parent) =>
        source.SetPosition(next, parent);
        MoveShows(before, Request(next, parent));
        AccountsStep(seen, before, source.log, Placed(Request(next, parent)));
        seen := seen + [Placed(Request(next, parent))];
    }
    assert ops[..|ops|] == ops;
    log := source.log;
    VisibleIsSound(log);
  }

  lemma {:induction false} NothingSeen()
    ensures VisibleIn([]) == [] && Accounts([], [])
  {
  }

  lemma {:induction false} MoveShows(log: seq<Entry>, p: Request)
    ensures Shows(log, log + [Moved(p)], Placed(p))
  {
    VisibleMore(log, Moved(p));
    assert Told(Placed(p), [Moved(p)]);
  }

  lemma {:induction false} WellFormedPolls(op: Op)
    requires WellFormed(op) && op.PollAll?
    ensures forall i, k :: 0 <= i < |op.polls| && 0 <= k < |op.polls[i]| && op.polls[i][k].ForkAnswer? ==> op.polls[i][k].hints != []
  {
  }
}
