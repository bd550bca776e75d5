/** Whole lives of an archive: chunks issued ahead of the writer, file moves, crashes at any point, restarts
    (crates/archive/src/writer.rs, crates/archive/src/layout.rs). */
module ArchiveRuns {
  import opened ArchiveLayout
  import opened ArchiveShape
  import opened ArchiveTracker
  import opened Options

  /** What stays the same over all restarts. */
  datatype Params = Params(first: nat, size: nat, limit: nat, keepEmpty: bool)

  /** A running process: its tracker, and the chunks it issued that are not fully moved yet. */
  datatype Run = Run(tracker: Tracker, queue: seq<Chunk>)

  datatype Sys = Sys(fs: FS, run: Option<Run>)

  datatype Step =
    | Submit(last: nat, hash: string)  // a chunk is cut and sent to the writer
    | OpenTop                          // on a disk: the top directory of the next chunk is created
    | Open                             // on a disk: the directory of the next chunk is created
    | Move(file: string)               // the writer moves a table other than the block table
    | Finish                           // the writer moves the block table
    | Crash
    | Erase(left: seq<string>)         // a crash while an unfinished directory is being deleted
    | Restart

  /** Files appear in a chunk directory, which is created when needed. */
  function AddFiles(fs: FS, c: Chunk, more: seq<string>): FS {
    FS(if c in All(fs.shelves) then fs.shelves else AddChunk(fs.shelves, c), fs.files[c := fs.Ls(c) + more])
  }

  function WithTop(shelves: seq<Shelf>, top: nat): seq<Shelf> {
    shelves + [Shelf(top, [])]
  }

  function AddTop(fs: FS, top: nat): FS {
    var n := |fs.shelves|;
    if n > 0 && fs.shelves[n - 1].top == top then fs else fs.(shelves := WithTop(fs.shelves, top))
  }

  ghost predicate Enabled(p: Params, s: Sys, step: Step) {
    match step
    case Submit(last, _) => s.run.Some? && s.run.value.tracker.NextBlock() <= last <= p.limit
    case OpenTop => p.keepEmpty && s.run.Some? && s.run.value.queue != []
    case Open => p.keepEmpty && s.run.Some? && s.run.value.queue != []
    case Move(file) => s.run.Some? && s.run.value.queue != [] && !IsBlocks(file)
    case Finish => s.run.Some? && s.run.value.queue != []
    case Crash => true
    case Erase(left) => s.run.None? && Unfinished(s.fs) && forall i :: 0 <= i < |left| ==> !IsBlocks(left[i])
    case Restart => s.run.None?
  }

  ghost function Apply(p: Params, s: Sys, step: Step): Sys
    requires Enabled(p, s, step)
  {
    match step
    case Submit(last, hash) =>
      var run := s.run.value;
      var c := run.tracker.Issued(last, hash);
      Sys(s.fs, Some(Run(run.tracker.Advanced(c), run.queue + [c])))
    case OpenTop => Sys(if s.run.value.queue[0] in All(s.fs.shelves) then s.fs else AddTop(s.fs, s.run.value.queue[0].top), s.run)
    case Open => Sys(AddFiles(s.fs, s.run.value.queue[0], []), s.run)
    case Move(file) => Sys(AddFiles(s.fs, s.run.value.queue[0], [file]), s.run)
    case Finish =>
      var run := s.run.value;
      Sys(AddFiles(s.fs, run.queue[0], [BLOCKS]), Some(Run(run.tracker, run.queue[1..])))
    case Crash => Sys(s.fs, None)
    case Erase(left) =>
      var all := All(s.fs.shelves);
      Sys(FS(s.fs.shelves, s.fs.files[all[|all| - 1] := left]), None)
    case Restart =>
      var fs := Cleaned(s.fs, p.keepEmpty);
      Sys(fs, Some(Run(Resumed(fs.shelves, p.size, p.first, p.limit), [])))
  }

  // ---- the layout the queue leads to ----

  /** Each chunk in turn continues the layout. */
  ghost predicate Growing(p: Params, shelves: seq<Shelf>, rest: seq<Chunk>)
    decreases |rest|
  {
    && Shape(shelves, p.first, p.size)
    && (rest != [] ==> Fits(shelves, rest[0], p.first, p.size) && rest[0].last <= p.limit
                       && Growing(p, AddChunk(shelves, rest[0]), rest[1..]))
  }

  function Extended(shelves: seq<Shelf>, rest: seq<Chunk>): seq<Shelf>
    decreases |rest|
  {
    if rest == [] then shelves else Extended(AddChunk(shelves, rest[0]), rest[1..])
  }

  lemma {:induction false} GrowingMore(p: Params, shelves: seq<Shelf>, rest: seq<Chunk>, c: Chunk)
    requires Growing(p, shelves, rest) && c.last <= p.limit
    requires Fits(Extended(shelves, rest), c, p.first, p.size) && Shape(AddChunk(Extended(shelves, rest), c), p.first, p.size)
    ensures Growing(p, shelves, rest + [c]) && Extended(shelves, rest + [c]) == AddChunk(Extended(shelves, rest), c)
    decreases |rest|
  {
    hide Shape, Fits, AddChunk;
    if rest == [] {
      assert (rest + [c])[1..] == [] && (rest + [c])[0] == c;
    } else {
      assert (rest + [c])[1..] == rest[1..] + [c];
      GrowingMore(p, AddChunk(shelves, rest[0]), rest[1..], c);
    }
  }

  lemma {:induction false} ExtendedShape(p: Params, shelves: seq<Shelf>, rest: seq<Chunk>)
    requires Growing(p, shelves, rest)
    ensures Shape(Extended(shelves, rest), p.first, p.size)
    decreases |rest|
  {
    hide Shape, Fits, AddChunk;
    if rest != [] { ExtendedShape(p, AddChunk(shelves, rest[0]), rest[1..]); }
  }

  /** The issued chunks that have no directory yet. */
  function Rest(fs: FS, queue: seq<Chunk>): seq<Chunk> {
    if queue != [] && queue[0] in All(fs.shelves) then queue[1..] else queue
  }

  /** The running process is ahead of the directories by exactly its queue. */
  ghost predicate Running(p: Params, fs: FS, run: Run) {
    && run.tracker.limit == p.limit
    && Growing(p, fs.shelves, Rest(fs, run.queue))
    && Matches(run.tracker, Extended(fs.shelves, Rest(fs, run.queue)), p.first, p.size)
    && (Unfinished(fs) <==> run.queue != [] && run.queue[0] in All(fs.shelves))
    && (Unfinished(fs) ==> run.queue[0] == All(fs.shelves)[|All(fs.shelves)| - 1])
  }

  ghost predicate Inv(p: Params, s: Sys) {
    Sound(s.fs, p.first, p.size, p.limit) && (s.run.Some? ==> Running(p, s.fs, s.run.value))
  }

  /** A chunk that continues the layout is not there yet. */
  lemma {:induction false} FitsIsNew(shelves: seq<Shelf>, c: Chunk, first: nat, size: nat)
    requires Shape(shelves, first, size) && Fits(shelves, c, first, size)
    ensures c !in All(shelves)
  {
    hide All, Shelved;
    if c in All(shelves) {
      var k :| 0 <= k < |All(shelves)| && All(shelves)[k] == c;
      TilesBetween(All(shelves), first, 0, k);
    }
  }

  lemma {:induction false} SubmitKeeps(p: Params, s: Sys, last: nat, hash: string)
    requires Inv(p, s) && Enabled(p, s, Submit(last, hash))
    ensures Inv(p, Apply(p, s, Submit(last, hash)))
  {
    hide All, Shape, Fits, Matches, Sound, Growing, Extended, AddChunk;
    var run := s.run.value;
    var rest := Rest(s.fs, run.queue);
    var c := run.tracker.Issued(last, hash);
    ExtendedShape(p, s.fs.shelves, rest);
    IssuedFits(run.tracker, Extended(s.fs.shelves, rest), p.first, p.size, last, hash);
    GrowingMore(p, s.fs.shelves, rest, c);
    if run.queue == [] {
      GrowingNow(p, s.fs.shelves, rest);
      assert [] + [c] == [c];
      FitsNow(p, s.fs.shelves, [c]);
      FitsIsNew(s.fs.shelves, c, p.first, p.size);
    } else {
      assert Rest(s.fs, run.queue + [c]) == rest + [c];
    }
  }

  lemma {:induction false} GrowingNow(p: Params, shelves: seq<Shelf>, rest: seq<Chunk>)
    requires Growing(p, shelves, rest)
    ensures Shape(shelves, p.first, p.size) && Extended(shelves, []) == shelves
  {
  }

  lemma {:induction false} FitsNow(p: Params, shelves: seq<Shelf>, rest: seq<Chunk>)
    requires Growing(p, shelves, rest) && rest != []
    ensures Fits(shelves, rest[0], p.first, p.size) && rest[0].last <= p.limit && Shape(shelves, p.first, p.size)
    ensures Growing(p, AddChunk(shelves, rest[0]), rest[1..])
    ensures Extended(shelves, rest) == Extended(AddChunk(shelves, rest[0]), rest[1..])
  {
  }

  // ---- file moves ----

  ghost predicate HasBlocks(files: seq<string>) {
    exists i :: 0 <= i < |files| && IsBlocks(files[i])
  }

  lemma {:induction false} LsOther(fs: FS, c: Chunk, more: seq<string>, d: Chunk)
    ensures d != c ==> AddFiles(fs, c, more).Ls(d) == fs.Ls(d)
    ensures AddFiles(fs, c, more).Ls(c) == fs.Ls(c) + more
  {
  }

  lemma {:induction false} CompleteAfter(fs: FS, c: Chunk, more: seq<string>, d: Chunk)
    ensures d != c ==> (Complete(AddFiles(fs, c, more), d) <==> Complete(fs, d))
    ensures Complete(AddFiles(fs, c, more), c) <==> Complete(fs, c) || HasBlocks(more)
  {
    hide IsBlocks, AddFiles;
    LsOther(fs, c, more, d);
    var was, now := fs.Ls(c), AddFiles(fs, c, more).Ls(c);
    assert forall i :: 0 <= i < |was| ==> now[i] == was[i];
    forall i | 0 <= i < |more| ensures now[|was| + i] == more[i] {}
    if i :| 0 <= i < |now| && IsBlocks(now[i]) {
      if i >= |was| { assert more[i - |was|] == now[i]; }
    }
  }

  /** More files in the last directory. */
  lemma {:induction false} TouchedLast(p: Params, fs: FS, more: seq<string>)
    requires Sound(fs, p.first, p.size, p.limit) && All(fs.shelves) != []
    ensures var all := All(fs.shelves);
            var r := AddFiles(fs, all[|all| - 1], more);
            && r.shelves == fs.shelves && Sound(r, p.first, p.size, p.limit)
            && (Unfinished(r) <==> Unfinished(fs) && !HasBlocks(more))
  {
    hide All, IsBlocks, Complete, Shape, HasBlocks;
    var all := All(fs.shelves);
    var c := all[|all| - 1];
    var r := AddFiles(fs, c, more);
    CompleteAfter(fs, c, more, c);
    ShapeTiles(fs.shelves, p.first, p.size);
    forall i | 0 <= i < |all| - 1 ensures Complete(r, all[i]) {
      TilesDistinct(all, p.first, i, |all| - 1);
      CompleteAfter(fs, c, more, all[i]);
    }
  }

  /** A new directory and its first files. */
  lemma {:induction false} TouchedNew(p: Params, fs: FS, c: Chunk, more: seq<string>)
    requires Sound(fs, p.first, p.size, p.limit) && !Unfinished(fs)
    requires Fits(fs.shelves, c, p.first, p.size) && c.last <= p.limit
    ensures var r := AddFiles(fs, c, more);
            && r.shelves == AddChunk(fs.shelves, c) && Sound(r, p.first, p.size, p.limit)
            && All(r.shelves) == All(fs.shelves) + [c] && (Unfinished(r) <==> !HasBlocks(more))
  {
    hide All, IsBlocks, Shape, Fits, HasBlocks;
    FitsIsNew(fs.shelves, c, p.first, p.size);
    AddKeepsShape(fs.shelves, c, p.first, p.size);
    var all, r := All(fs.shelves), AddFiles(fs, c, more);
    CompleteAfter(fs, c, more, c);
    assert fs.Ls(c) == [] && !Complete(fs, c);
    forall i | 0 <= i < |all| ensures Complete(r, (all + [c])[i]) {
      CompleteAfter(fs, c, more, all[i]);
      assert i == |all| - 1 || Complete(fs, all[i]);
    }
  }

  /** Files, or none yet, appear in the directory of the next chunk. */
  lemma {:induction false} AddKeeps(p: Params, s: Sys, more: seq<string>)
    requires Inv(p, s) && s.run.Some? && s.run.value.queue != [] && !HasBlocks(more)
    ensures Inv(p, Sys(AddFiles(s.fs, s.run.value.queue[0], more), s.run))
  {
    hide All, Shape, Fits, Matches, Sound, Growing, Extended, AddChunk, AddFiles, Unfinished, HasBlocks;
    var queue := s.run.value.queue;
    if queue[0] in All(s.fs.shelves) {
      TouchedLast(p, s.fs, more);
    } else {
      FitsNow(p, s.fs.shelves, queue);
      TouchedNew(p, s.fs, queue[0], more);
    }
  }

  lemma {:induction false} MoveKeeps(p: Params, s: Sys, file: string)
    requires Inv(p, s) && Enabled(p, s, Move(file))
    ensures Inv(p, Apply(p, s, Move(file)))
  {
    hide Inv, IsBlocks, AddFiles;
    AddKeeps(p, s, [file]);
  }

  lemma {:induction false} OpenKeeps(p: Params, s: Sys)
    requires Inv(p, s) && Enabled(p, s, Open)
    ensures Inv(p, Apply(p, s, Open))
  {
    hide Inv, AddFiles;
    AddKeeps(p, s, []);
  }

  lemma {:induction false} OpenTopKeeps(p: Params, s: Sys)
    requires Inv(p, s) && Enabled(p, s, OpenTop)
    ensures Inv(p, Apply(p, s, OpenTop))
  {
    hide Inv, Running;
    var c, shelves := s.run.value.queue[0], s.fs.shelves;
    if c !in All(shelves) && (shelves == [] || shelves[|shelves| - 1].top != c.top) { TopOpened(p, s); }
  }

  lemma {:induction false} TopOpened(p: Params, s: Sys)
    requires Inv(p, s) && s.run.Some? && s.run.value.queue != [] && s.run.value.queue[0] !in All(s.fs.shelves)
    requires s.fs.shelves == [] || s.fs.shelves[|s.fs.shelves| - 1].top != s.run.value.queue[0].top
    ensures Inv(p, Sys(s.fs.(shelves := WithTop(s.fs.shelves, s.run.value.queue[0].top)), s.run))
  {
    hide All, Shape, Fits, Matches, Growing, Extended, AddChunk, Complete;
    var queue, shelves := s.run.value.queue, s.fs.shelves;
    var more := WithTop(shelves, queue[0].top);
    FitsNow(p, shelves, queue);
    EmptyTop(shelves, queue[0], p.first, p.size);
    GrowsFromTop(p, shelves, more, queue);
    LsKept(s.fs, more);
    assert Rest(s.fs.(shelves := more), queue) == queue == Rest(s.fs, queue);
  }

  lemma {:induction false} LsKept(fs: FS, shelves: seq<Shelf>)
    ensures forall c :: Complete(fs.(shelves := shelves), c) <==> Complete(fs, c)
  {
    forall c ensures Complete(fs.(shelves := shelves), c) <==> Complete(fs, c) {
      assert fs.(shelves := shelves).Ls(c) == fs.Ls(c);
    }
  }

  /** A new top directory that is still empty changes nothing about where the next chunk belongs. */
  lemma {:induction false} EmptyTop(shelves: seq<Shelf>, c: Chunk, first: nat, size: nat)
    requires Shape(shelves, first, size) && Fits(shelves, c, first, size)
    requires shelves == [] || shelves[|shelves| - 1].top != c.top
    ensures var more := WithTop(shelves, c.top);
            && Shape(more, first, size) && Fits(more, c, first, size)
            && All(more) == All(shelves) && AddChunk(more, c) == AddChunk(shelves, c)
  {
    hide Shelved, All, WithTop, AddChunk, TopFor, Tiles;
    NewShelfIsDue(shelves, c, first, size);
    TopHoldsNothing(shelves, c.top);
    TopIsShelved(shelves, c.top, first, size);
    TopIsFilledNext(shelves, c);
    TopForSame(shelves, c.top, first, size);
  }

  lemma {:induction false} TopHoldsNothing(shelves: seq<Shelf>, top: nat)
    ensures All(WithTop(shelves, top)) == All(shelves)
  {
    var more := WithTop(shelves, top);
    AllSplit(more);
    assert more[..|shelves|] == shelves && All(shelves) + [] == All(shelves);
  }

  lemma {:induction false} TopIsShelved(shelves: seq<Shelf>, top: nat, first: nat, size: nat)
    requires Shelved(shelves, first, size) && top == Next(All(shelves), first)
    requires shelves != [] ==> shelves[|shelves| - 1].chunks != [] && |shelves[|shelves| - 1].chunks| >= size
    ensures Shelved(WithTop(shelves, top), first, size)
  {
    hide All;
    var n, more := |shelves|, WithTop(shelves, top);
    forall i | 0 <= i < |more| ensures more[i].top == Next(All(more[..i]), first) {
      assert more[..i] == shelves[..i];
      assert i == n ==> shelves[..i] == shelves;
    }
  }

  lemma {:induction false} TopIsFilledNext(shelves: seq<Shelf>, c: Chunk)
    requires shelves == [] || shelves[|shelves| - 1].top != c.top
    ensures AddChunk(WithTop(shelves, c.top), c) == AddChunk(shelves, c)
  {
    assert [] + [c] == [c];
    assert WithTop(shelves, c.top)[|shelves| := Shelf(c.top, [c])] == shelves + [Shelf(c.top, [c])];
  }

  lemma {:induction false} TopForSame(shelves: seq<Shelf>, top: nat, first: nat, size: nat)
    requires shelves != [] ==> shelves[|shelves| - 1].chunks != []
    ensures TopFor(WithTop(shelves, top), first, size) == TopFor(shelves, first, size)
  {
    if shelves != [] { assert WithTop(shelves, top)[|shelves| - 1] == shelves[|shelves| - 1]; }
  }

  lemma {:induction false} GrowsFromTop(p: Params, shelves: seq<Shelf>, more: seq<Shelf>, rest: seq<Chunk>)
    requires rest != [] && Growing(p, shelves, rest) && Shape(more, p.first, p.size)
    requires Fits(more, rest[0], p.first, p.size) && AddChunk(more, rest[0]) == AddChunk(shelves, rest[0])
    ensures Growing(p, more, rest) && Extended(more, rest) == Extended(shelves, rest)
  {
    hide Shape, Fits, AddChunk;
  }

  lemma {:induction false} FinishKeeps(p: Params, s: Sys)
    requires Inv(p, s) && Enabled(p, s, Finish)
    ensures Inv(p, Apply(p, s, Finish))
  {
    hide All, Shape, Fits, Matches, Sound, Growing, Extended, AddChunk, AddFiles, Unfinished;
    var queue := s.run.value.queue;
    var fs := AddFiles(s.fs, queue[0], [BLOCKS]);
    assert HasBlocks([BLOCKS]) by { assert IsBlocks([BLOCKS][0]); }
    hide HasBlocks;
    if queue[0] in All(s.fs.shelves) {
      TouchedLast(p, s.fs, [BLOCKS]);
    } else {
      FitsNow(p, s.fs.shelves, queue);
      TouchedNew(p, s.fs, queue[0], [BLOCKS]);
    }
    if |queue| > 1 {
      FitsNow(p, fs.shelves, queue[1..]);
      FitsIsNew(fs.shelves, queue[1], p.first, p.size);
    }
  }

  // ---- crashes and restarts ----

  lemma {:induction false} EraseKeeps(p: Params, s: Sys, left: seq<string>)
    requires Inv(p, s) && Enabled(p, s, Erase(left))
    ensures Inv(p, Apply(p, s, Erase(left)))
  {
    hide All, Shape, IsBlocks;
    var all := All(s.fs.shelves);
    var c := all[|all| - 1];
    var r := FS(s.fs.shelves, s.fs.files[c := left]);
    ShapeTiles(s.fs.shelves, p.first, p.size);
    forall i | 0 <= i < |all| - 1 ensures Complete(r, all[i]) {
      TilesDistinct(all, p.first, i, |all| - 1);
      assert Complete(s.fs, all[i]) && r.Ls(all[i]) == s.fs.Ls(all[i]);
    }
  }

  lemma {:induction false} RestartKeeps(p: Params, s: Sys)
    requires Inv(p, s) && Enabled(p, s, Restart)
    ensures Inv(p, Apply(p, s, Restart))
    ensures !Unfinished(Apply(p, s, Restart).fs)
    ensures Apply(p, s, Restart).run.value.tracker.NextBlock() == Next(All(Cleaned(s.fs, p.keepEmpty).shelves), p.first)
  {
    hide All, Sound, Unfinished, Cleaned, Shelved, Tiles;
    CleanedIsSound(s.fs, p.keepEmpty, p.first, p.size, p.limit);
    var fs := Cleaned(s.fs, p.keepEmpty);
    SoundIsShaped(fs, p);
    TrackerIsNext(Resumed(fs.shelves, p.size, p.first, p.limit), fs.shelves, p.first, p.size);
  }

  lemma {:induction false} SoundIsShaped(fs: FS, p: Params)
    requires Sound(fs, p.first, p.size, p.limit)
    ensures Shape(fs.shelves, p.first, p.size)
  {
  }

  lemma {:induction false} StepKeeps(p: Params, s: Sys, step: Step)
    requires Inv(p, s) && Enabled(p, s, step)
    ensures Inv(p, Apply(p, s, step))
  {
    hide Inv, Enabled, Apply;
    match step
    case Submit(last, hash) => SubmitKeeps(p, s, last, hash);
    case OpenTop => OpenTopKeeps(p, s);
    case Open => OpenKeeps(p, s);
    case Move(file) => MoveKeeps(p, s, file);
    case Finish => FinishKeeps(p, s);
    case Crash => CrashKeeps(p, s);
    case Erase(left) => EraseKeeps(p, s, left);
    case Restart => RestartKeeps(p, s);
  }

  lemma {:induction false} CrashKeeps(p: Params, s: Sys)
    requires Inv(p, s)
    ensures Inv(p, Apply(p, s, Crash))
  {
    hide Sound, Running;
  }

  // ---- whole runs ----

  /** Steps that can be taken one after the other. */
  ghost predicate Possible(p: Params, s: Sys, steps: seq<Step>)
    decreases |steps|
  {
    steps != [] ==> Enabled(p, s, steps[0]) && Possible(p, Apply(p, s, steps[0]), steps[1..])
  }

  ghost function After(p: Params, s: Sys, steps: seq<Step>): Sys
    requires Possible(p, s, steps)
    decreases |steps|
  {
    if steps == [] then s else After(p, Apply(p, s, steps[0]), steps[1..])
  }

  const EMPTY := Sys(FS([], map[]), None)

  lemma {:induction false} RunKeeps(p: Params, s: Sys, steps: seq<Step>)
    requires Inv(p, s) && Possible(p, s, steps)
    ensures Inv(p, After(p, s, steps))
    decreases |steps|
  {
    hide Inv, Enabled, Apply;
    if steps != [] {
      StepKeeps(p, s, steps[0]);
      RunKeeps(p, Apply(p, s, steps[0]), steps[1..]);
    }
  }

  /** The directories that hold a block table. */
  ghost function Written(fs: FS): seq<Chunk> {
    var all := All(fs.shelves);
    if Unfinished(fs) then all[..|all| - 1] else all
  }

  /** Crash recovery: after any run from an empty archive the written directories tile the blocks from the first one on,
      at most one directory is unfinished and it is the last, and a restart continues right behind the written ones. */
  lemma {:induction false} ArchiveIsAlwaysTiled(p: Params, steps: seq<Step>)
    requires Possible(p, EMPTY, steps)
    ensures var s := After(p, EMPTY, steps);
            var all, written := All(s.fs.shelves), Written(s.fs);
            && Tiles(written, p.first) && (forall c :: c in written ==> Complete(s.fs, c) && c.last <= p.limit)
            && Tiles(all, p.first) && written <= all && |all| <= |written| + 1
            && (|all| == |written| + 1 ==> !Complete(s.fs, all[|all| - 1]))
            && (s.run.None? ==>
                  var r := Apply(p, s, Restart);
                  r.run.value.tracker.NextBlock() == Next(written, p.first) && All(r.fs.shelves) == written)
  {
    hide Enabled, Shelved;
    EmptyIsSound(p);
    RunKeeps(p, EMPTY, steps);
    var s := After(p, EMPTY, steps);
    var all, written := All(s.fs.shelves), Written(s.fs);
    WrittenTiles(p, s.fs);
    CleanedIsSound(s.fs, p.keepEmpty, p.first, p.size, p.limit);
    if s.run.None? { RestartsBehind(p, s); }
  }

  lemma {:induction false} RestartsBehind(p: Params, s: Sys)
    requires Inv(p, s) && s.run.None?
    ensures var r := Apply(p, s, Restart);
            r.run.value.tracker.NextBlock() == Next(Written(s.fs), p.first) && All(r.fs.shelves) == Written(s.fs)
  {
    hide All, Shelved, Sound, Cleaned, Unfinished;
    RestartKeeps(p, s);
    CleanedIsSound(s.fs, p.keepEmpty, p.first, p.size, p.limit);
  }

  lemma {:induction false} EmptyIsSound(p: Params)
    ensures Inv(p, EMPTY)
  {
  }

  lemma {:induction false} WrittenTiles(p: Params, fs: FS)
    requires Sound(fs, p.first, p.size, p.limit)
    ensures Tiles(Written(fs), p.first) && Tiles(All(fs.shelves), p.first)
    ensures forall c :: c in Written(fs) ==> Complete(fs, c) && c.last <= p.limit
  {
  }
}
