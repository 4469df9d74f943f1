/**
 A whole batch from the phone, undisturbed: from any unfinished state there is a way to
 completion that leaves every file at its target, byte for byte.
 */
module Delivery {
  import opened Optional
  import opened Entries
  import opened Upload
  import opened Completion
  import opened Resume
  import Batches

  /** The steps of one entry within its batch. */
  function At(i: nat, steps: seq<Step>): seq<BatchStep> {
    if steps == [] then [] else [EntryMoves(i, steps[0])] + At(i, steps[1..])
  }

  lemma {:induction false} RunsAt(b: Batch, i: nat, steps: seq<Step>)
    requires Shaped(b) && i < |b.entries| && !b.directory[i] && forall s <- steps :: !s.Crashes?
    ensures RunBatch(b, At(i, steps)) == b.(entries := b.entries[i := Run(b.entries[i], b.sizes[i], steps)])
    decreases |steps|
  {
    if steps != [] {
      var b1 := NextBatch(b, EntryMoves(i, steps[0]));
      assert b1 == b.(entries := b.entries[i := Next(b.entries[i], b.sizes[i], steps[0])]);
      RunsAt(b1, i, steps[1..]);
      assert At(i, steps)[0] == EntryMoves(i, steps[0]) && At(i, steps)[1..] == At(i, steps[1..]);
    }
  }

  function Sizes(sources: seq<Bytes>): (r: seq<nat>)
    ensures |r| == |sources|
  {
    seq(|sources|, i requires 0 <= i < |sources| => |sources[i]|)
  }

  /** A directory is made, a file is sent in one request and verified. */
  function Work(i: nat, source: Bytes, directory: bool, background: bool): seq<BatchStep> {
    if directory then [DirectoryMade(i)] else At(i, Sends(0, [source], background))
  }

  /** The first `n` entries, one after the other. */
  function Works(sources: seq<Bytes>, directory: seq<bool>, background: bool, n: nat): seq<BatchStep>
    requires n <= |sources| == |directory|
  {
    if n == 0 then [] else Works(sources, directory, background, n - 1) + Work(n - 1, sources[n - 1], directory[n - 1], background)
  }

  function Delivered(source: Bytes, directory: bool): Entry {
    Entry(None, if directory then None else Some(SyncedFile(source)), Progress(Completed, |source|), NoOperation, NoJob)
  }

  predicate IsManifest(sources: seq<Bytes>, directory: seq<bool>) {
    |sources| == |directory| && forall i :: 0 <= i < |sources| && directory[i] ==> sources[i] == []
  }

  /** The first `n` entries delivered, the others untouched. */
  function PartWay(state: Batches.BatchState, sources: seq<Bytes>, directory: seq<bool>, n: nat): Batch
    requires n <= |sources| == |directory|
  {
    Batch(state, Sizes(sources), directory,
          seq(|sources|, i requires 0 <= i < |sources| => if i < n then Delivered(sources[i], directory[i]) else FRESH), NoScan)
  }

  lemma FrameHasNoCrash(chunks: seq<Bytes>)
    ensures forall s <- Frames(chunks) :: !s.Crashes?
  {
  }

  lemma SentWithoutCrash(chunks: seq<Bytes>, background: bool)
    ensures forall s <- Sends(0, chunks, background) :: !s.Crashes?
  {
    FrameHasNoCrash(chunks);
  }

  lemma DeliversOne(source: Bytes, background: bool)
    ensures Run(FRESH, |source|, Sends(0, [source], background)) == Delivered(source, false)
  {
    FreshIsOk(source);
    OneChunk(source);
    assert source[0..] == source;
    ResumeCompletes(FRESH, source, [source], background);
  }

  lemma WorkDelivers(state: Batches.BatchState, sources: seq<Bytes>, directory: seq<bool>, background: bool, n: nat)
    requires IsManifest(sources, directory) && n < |sources|
    ensures RunBatch(PartWay(state, sources, directory, n), Work(n, sources[n], directory[n], background))
            == PartWay(state, sources, directory, n + 1)
  {
    var b, done := PartWay(state, sources, directory, n), Delivered(sources[n], directory[n]);
    assert b.entries[n] == FRESH && b.sizes[n] == |sources[n]|;
    assert b.entries[n := done] == PartWay(state, sources, directory, n + 1).entries;
    if directory[n] {
      assert [DirectoryMade(n)][1..] == [];
      assert RunBatch(b, [DirectoryMade(n)]) == NextBatch(b, DirectoryMade(n));
    } else {
      SentWithoutCrash([sources[n]], background);
      RunsAt(b, n, Sends(0, [sources[n]], background));
      DeliversOne(sources[n], background);
    }
  }

  lemma WorksUnrolled(b: Batch, sources: seq<Bytes>, directory: seq<bool>, background: bool, n: nat)
    requires Shaped(b) && 0 < n <= |sources| == |directory|
    ensures RunBatch(b, Works(sources, directory, background, n))
            == RunBatch(RunBatch(b, Works(sources, directory, background, n - 1)), Work(n - 1, sources[n - 1], directory[n - 1], background))
  {
    BatchConcat(b, Works(sources, directory, background, n - 1), Work(n - 1, sources[n - 1], directory[n - 1], background));
  }

  lemma NothingYet(state: Batches.BatchState, sources: seq<Bytes>, directory: seq<bool>)
    requires |sources| == |directory|
    ensures NewBatch(state, Sizes(sources), directory) == PartWay(state, sources, directory, 0)
  {
  }

  lemma WorksOn(b: Batch, state: Batches.BatchState, sources: seq<Bytes>, directory: seq<bool>, background: bool, n: nat)
    requires Shaped(b) && IsManifest(sources, directory) && 0 < n <= |sources|
    requires RunBatch(b, Works(sources, directory, background, n - 1)) == PartWay(state, sources, directory, n - 1)
    ensures RunBatch(b, Works(sources, directory, background, n)) == PartWay(state, sources, directory, n)
  {
    WorkDelivers(state, sources, directory, background, n - 1);
    WorksUnrolled(b, sources, directory, background, n);
  }

  lemma {:induction false} WorksDeliver(b: Batch, state: Batches.BatchState, sources: seq<Bytes>, directory: seq<bool>, background: bool, n: nat)
    requires Shaped(b) && IsManifest(sources, directory) && n <= |sources| && b == PartWay(state, sources, directory, 0)
    ensures RunBatch(b, Works(sources, directory, background, n)) == PartWay(state, sources, directory, n)
  {
    if n > 0 {
      WorksDeliver(b, state, sources, directory, background, n - 1);
      WorksOn(b, state, sources, directory, background, n);
    }
  }

  /** The states on the way to Transferring. */
  function WayFrom(state: Batches.BatchState): seq<Batches.BatchState> {
    match state
    case WaitingConfirmation => [Batches.Queued, Batches.Preparing, Batches.Transferring]
    case Queued => [Batches.Preparing, Batches.Transferring]
    case NeedsReselection => [Batches.Preparing, Batches.Transferring]
    case Preparing => [Batches.Transferring]
    case WaitingNetwork => [Batches.Transferring]
    case _ => []
  }

  function Moves(states: seq<Batches.BatchState>): seq<BatchStep> {
    if states == [] then [] else [StateMoves(states[0])] + Moves(states[1..])
  }

  predicate Leads(from: Batches.BatchState, states: seq<Batches.BatchState>)
    decreases |states|
  {
    if states == [] then from.Transferring?
    else Batches.CanTransition(from, states[0]) && !Batches.IsTerminal(states[0]) && Leads(states[0], states[1..])
  }

  lemma {:induction false} MovesLead(b: Batch, states: seq<Batches.BatchState>)
    requires Shaped(b) && Leads(b.state, states)
    ensures RunBatch(b, Moves(states)) == b.(state := Batches.Transferring)
    decreases |states|
  {
    if states != [] {
      MovesLead(NextBatch(b, StateMoves(states[0])), states[1..]);
      assert Moves(states)[1..] == Moves(states[1..]);
    }
  }

  lemma LeadsOn(from: Batches.BatchState, next: Batches.BatchState, rest: seq<Batches.BatchState>)
    requires Batches.CanTransition(from, next) && !Batches.IsTerminal(next) && Leads(next, rest)
    ensures Leads(from, [next] + rest)
  {
    assert ([next] + rest)[1..] == rest;
  }

  lemma WayLeads(state: Batches.BatchState)
    requires !Batches.IsTerminal(state)
    ensures Leads(state, WayFrom(state))
  {
    var last := [Batches.Transferring];
    LeadsOn(Batches.Preparing, Batches.Transferring, []);
    LeadsOn(Batches.WaitingNetwork, Batches.Transferring, []);
    assert [Batches.Transferring] + [] == last;
    LeadsOn(Batches.Queued, Batches.Preparing, last);
    LeadsOn(Batches.NeedsReselection, Batches.Preparing, last);
    LeadsOn(Batches.WaitingConfirmation, Batches.Queued, [Batches.Preparing] + last);
    assert [Batches.Queued] + ([Batches.Preparing] + last) == WayFrom(Batches.WaitingConfirmation);
    assert [Batches.Preparing] + last == WayFrom(Batches.Queued) == WayFrom(Batches.NeedsReselection);
  }

  /** The whole way: the state moves, the entries, and the completion request. */
  function Whole(state: Batches.BatchState, sources: seq<Bytes>, directory: seq<bool>, background: bool): seq<BatchStep>
    requires |sources| == |directory|
  {
    Moves(WayFrom(state)) + Works(sources, directory, background, |sources|) + ([ScanStarts] + Reads(|sources|)) + [ScanEnds]
  }

  lemma ScanCompletesAll(b: Batch)
    requires Shaped(b) && b.scan.NoScan? && b.state.Transferring? && forall i :: 0 <= i < |b.entries| ==> Finished(b, i)
    ensures RunBatch(RunBatch(b, [ScanStarts] + Reads(|b.entries|)), [ScanEnds]) == b.(state := Batches.BatchState.Completed)
  {
    assert ([ScanStarts] + Reads(|b.entries|))[1..] == Reads(|b.entries|);
    assert [ScanEnds][1..] == [];
    var read := RunBatch(NextBatch(b, ScanStarts), Reads(|b.entries|));
    assert RunBatch(b, [ScanStarts] + Reads(|b.entries|)) == read;
    assert RunBatch(read, [ScanEnds]) == NextBatch(read, ScanEnds);
    ScanDecides(b);
  }

  lemma WholeRun(state: Batches.BatchState, sources: seq<Bytes>, directory: seq<bool>, background: bool)
    requires IsManifest(sources, directory) && !Batches.IsTerminal(state)
    ensures RunBatch(NewBatch(state, Sizes(sources), directory), Whole(state, sources, directory, background))
            == PartWay(Batches.BatchState.Completed, sources, directory, |sources|)
  {
    var b, way, n := NewBatch(state, Sizes(sources), directory), WayFrom(state), |sources|;
    var moves, works, scan := Moves(way), Works(sources, directory, background, n), [ScanStarts] + Reads(n);
    WayLeads(state);
    MovesLead(b, way);
    NothingYet(Batches.Transferring, sources, directory);
    WorksDeliver(b.(state := Batches.Transferring), Batches.Transferring, sources, directory, background, n);
    BatchConcat(b, moves, works);
    ScanCompletesAll(PartWay(Batches.Transferring, sources, directory, n));
    BatchConcat(b, moves + works, scan);
    BatchConcat(b, moves + works + scan, [ScanEnds]);
  }

  /**
   Every unfinished batch that nothing was received of can be delivered, with verifications
   in the requests or in the background: it ends Completed, every directory is done, and
   every file is at its target, synced and equal to its source.
   */
  lemma EveryBatchCanBeDelivered(state: Batches.BatchState, sources: seq<Bytes>, directory: seq<bool>, background: bool)
    requires IsManifest(sources, directory) && !Batches.IsTerminal(state)
    ensures var last := RunBatch(NewBatch(state, Sizes(sources), directory), Whole(state, sources, directory, background));
            && last.state.Completed? && |last.entries| == |sources|
            && forall i :: 0 <= i < |sources| ==>
                 && last.entries[i].progress == Progress(Completed, |sources[i]|)
                 && last.entries[i].target == (if directory[i] then None else Some(SyncedFile(sources[i])))
                 && last.entries[i].part.None? && Free(last.entries[i])
  {
    WholeRun(state, sources, directory, background);
  }
}
