/**
 A phone-to-computer batch whose entries are worked on by interleaved requests while the
 completion request reads their progress one by one.  The lease of an upload may be taken
 in one step, or late: after a look at the verification map that is no longer true.
 */
module Completion {
  import opened Optional
  import opened Entries
  import opened Upload
  import opened Leases
  import Batches

  datatype Scan = NoScan | Scanning(next: nat, terminal: bool, failed: bool)

  datatype Batch = Batch(
    state: Batches.BatchState, sizes: seq<nat>, directory: seq<bool>, entries: seq<Entry>, scan: Scan)

  datatype BatchStep =
    | EntryMoves(i: nat, step: Step)
    | LateTakes(i: nat, offset: nat)
    | LateReports(i: nat)
    | DirectoryMade(i: nat)
    | ScanStarts
    | ScanReads
    | ScanEnds
    | ScanDropped
    | StateMoves(next: Batches.BatchState)
    | CleansUp(i: nat)
    | CrashesAll(parts: seq<Option<File>>, targets: seq<Option<File>>)

  /** What the scan concludes from one entry's progress. */
  function ScanEntry(scan: Scan, p: Progress, size: nat): Scan
    requires scan.Scanning?
  {
    match p.state
    case Completed => Scanning(scan.next + 1, scan.terminal && p.offset == size, scan.failed)
    case Failed | Canceled => Scanning(scan.next + 1, scan.terminal, true)
    case _ => Scanning(scan.next + 1, false, scan.failed)
  }

  function Crashed(b: Batch, parts: seq<Option<File>>, targets: seq<Option<File>>): (r: seq<Entry>)
    requires |b.sizes| == |b.entries| == |parts| == |targets|
    ensures |r| == |b.entries|
  {
    seq(|b.entries|, i requires 0 <= i < |b.entries| => Next(b.entries[i], b.sizes[i], Crashes(parts[i], targets[i])))
  }

  /** The part is removed by name; an upload that has it open goes on with a file that is gone. */
  function CleanedUp(e: Entry): Entry {
    e.(part := None, op := if HasOpen(e.op) && e.op.file.Staged? then e.op.(file := Orphan) else e.op)
  }

  predicate Shaped(b: Batch) {
    && |b.sizes| == |b.entries| == |b.directory|
    && (forall i :: 0 <= i < |b.sizes| && b.directory[i] ==> b.sizes[i] == 0)
    && (b.scan.Scanning? ==> b.scan.next <= |b.entries|)
  }

  /** Only the completion scan finishes a batch; a step that is not possible changes nothing. */
  function NextBatch(b: Batch, s: BatchStep): (r: Batch)
    requires Shaped(b)
    ensures Shaped(r)
  {
    match s
    case EntryMoves(i, step) =>
      if i < |b.entries| && !b.directory[i] && !step.Crashes?
      then b.(entries := b.entries[i := Next(b.entries[i], b.sizes[i], step)]) else b
    case LateTakes(i, offset) =>
      if i < |b.entries| && !b.directory[i]
      then b.(entries := b.entries[i := TakesLate(b.entries[i], b.sizes[i], offset)]) else b
    case LateReports(i) =>
      if i < |b.entries| && !b.directory[i]
      then b.(entries := b.entries[i := ReportsLate(b.entries[i], b.sizes[i])]) else b
    case DirectoryMade(i) =>
      if i < |b.entries| && b.directory[i]
      then b.(entries := b.entries[i := b.entries[i].(progress := Progress(Completed, 0))]) else b
    case ScanStarts =>
      if b.scan.NoScan? && !Batches.IsTerminal(b.state) then b.(scan := Scanning(0, true, false)) else b
    case ScanReads =>
      if b.scan.Scanning? && b.scan.next < |b.entries|
      then b.(scan := ScanEntry(b.scan, b.entries[b.scan.next].progress, b.sizes[b.scan.next])) else b
    case ScanEnds =>
      if b.scan.Scanning? && b.scan.next == |b.entries| then
        var next := if b.scan.failed then Batches.PartialFailure else Batches.BatchState.Completed;
        b.(scan := NoScan, state := if b.scan.terminal && Batches.CanTransition(b.state, next) then next else b.state)
      else b
    case ScanDropped => b.(scan := NoScan)
    case StateMoves(next) =>
      if Batches.CanTransition(b.state, next) && !next.Completed? && !next.PartialFailure? then b.(state := next) else b
    case CleansUp(i) =>
      if Batches.IsTerminal(b.state) && i < |b.entries| then b.(entries := b.entries[i := CleanedUp(b.entries[i])]) else b
    case CrashesAll(parts, targets) =>
      if |parts| == |targets| == |b.entries| then b.(entries := Crashed(b, parts, targets), scan := NoScan) else b
  }

  /** An upload that may still open or write its part, or a failure report that has not marked the entry yet. */
  predicate Exposed(e: Entry) { (Uploading(e.op) && !Stuck(e)) || e.op.Failing? }

  /** Whoever works on the entry, nobody who could undo it does so on a finished one. */
  predicate Exclusive(e: Entry, size: nat) {
    && (e.progress.state.Completed? ==>
          e.progress.offset == size && (e.op.NoOperation? || e.op.Verifying? || e.op.FailMarked? || Stuck(e)))
    && (Exposed(e) ==> e.job.NoJob? || e.job.Done? || e.job.Starting? || (e.target.Some? && e.job == Running(Checked(true))))
  }

  /** A verification accepts the entry and can go on to complete it. */
  predicate Succeeds(e: Entry, size: nat, s: Step) {
    s == JobChecks(true) && e.job.Starting? && CheckedCommit(e, size, true).Some? && !(e.part.Some? && e.target.Some?)
  }

  /** No verification succeeds beside an upload or a failure report that could take it back. */
  predicate Undisturbed(e: Entry, size: nat, s: Step) {
    Exposed(e) ==> !Succeeds(e, size, s)
  }

  /**
   The condition on the two-step lease: when a late upload or a late failure report reads the
   progress, no verification that was already looking can still complete the entry, and none
   that has not looked yet succeeds before the upload is over or the entry is marked.
   */
  predicate Guarded(b: Batch, s: BatchStep)
    requires Shaped(b)
  {
    match s
    case EntryMoves(i, step) => i < |b.entries| ==> Undisturbed(b.entries[i], b.sizes[i], step)
    case LateTakes(i, offset) =>
      i < |b.entries| && OpensLate(b.entries[i], b.sizes[i], offset) ==> !CanStillRecord(b.entries[i])
    case LateReports(i) => i < |b.entries| && b.entries[i].op.NoOperation? ==> !CanStillRecord(b.entries[i])
    case _ => true
  }

  predicate Finished(b: Batch, i: nat)
    requires Shaped(b) && i < |b.entries|
  {
    b.entries[i].progress == Progress(Completed, b.sizes[i])
  }

  ghost predicate BatchInv(b: Batch) {
    && Shaped(b)
    && (forall i :: 0 <= i < |b.entries| ==> Exclusive(b.entries[i], b.sizes[i]))
    && (forall i :: 0 <= i < |b.entries| && b.directory[i] ==> b.entries[i].op.NoOperation? && b.entries[i].job.NoJob?)
    && (b.scan.Scanning? && b.scan.terminal && !b.scan.failed ==> forall i :: 0 <= i < b.scan.next ==> Finished(b, i))
    && (b.state.Completed? ==> forall i :: 0 <= i < |b.entries| ==> Finished(b, i))
  }

  /** No step of any request, and no crash, moves a finished entry. */
  lemma ExclusiveStep(e: Entry, size: nat, s: Step)
    requires Exclusive(e, size) && Undisturbed(e, size, s)
    ensures Exclusive(Next(e, size, s), size)
    ensures e.progress.state.Completed? ==> Next(e, size, s).progress == e.progress
  {
  }

  lemma LateExclusive(e: Entry, size: nat, offset: nat)
    requires Exclusive(e, size) && (OpensLate(e, size, offset) ==> !CanStillRecord(e))
    ensures Exclusive(TakesLate(e, size, offset), size)
    ensures e.progress.state.Completed? ==> TakesLate(e, size, offset).progress == e.progress
  {
  }

  lemma LateReportExclusive(e: Entry, size: nat)
    requires Exclusive(e, size) && (e.op.NoOperation? ==> !CanStillRecord(e))
    ensures Exclusive(ReportsLate(e, size), size)
    ensures ReportsLate(e, size).progress == e.progress
  {
  }

  lemma CleanedUpExclusive(e: Entry, size: nat)
    requires Exclusive(e, size)
    ensures Exclusive(CleanedUp(e), size) && CleanedUp(e).progress == e.progress
  {
  }

  /** Cleaning up takes the part away, also from an upload that has it open, and leaves target and progress. */
  lemma CleanedUpPart(e: Entry)
    ensures var e1 := CleanedUp(e);
            && e1.part.None? && e1.target == e.target && e1.progress == e.progress && e1.job == e.job
            && (HasOpen(e.op) && e.op.file.Staged? ==> HasOpen(e1.op) && Open(e1).None?)
            && (!HasOpen(e.op) || !e.op.file.Staged? ==> e1.op == e.op)
  {
  }

  lemma EntriesKeep(b: Batch, s: BatchStep, i: nat)
    requires BatchInv(b) && Guarded(b, s) && i < |b.entries|
    ensures var b1 := NextBatch(b, s);
            Exclusive(b1.entries[i], b.sizes[i]) && (Finished(b, i) ==> Finished(b1, i))
  {
    match s {
      case EntryMoves(j, step) =>
        if i == j {
          ExclusiveStep(b.entries[i], b.sizes[i], step);
        }
      case LateTakes(j, offset) =>
        if i == j {
          LateExclusive(b.entries[i], b.sizes[i], offset);
        }
      case LateReports(j) =>
        if i == j {
          LateReportExclusive(b.entries[i], b.sizes[i]);
        }
      case CleansUp(_) => CleanedUpExclusive(b.entries[i], b.sizes[i]);
      case CrashesAll(parts, targets) =>
        if |parts| == |targets| == |b.entries| {
          ExclusiveStep(b.entries[i], b.sizes[i], Crashes(parts[i], targets[i]));
        }
      case _ =>
    }
  }

  /** Nobody uploads, reports or verifies a directory. */
  lemma DirectoriesKeep(b: Batch, s: BatchStep, i: nat)
    requires BatchInv(b) && i < |b.entries| && b.directory[i]
    ensures NextBatch(b, s).entries[i].op.NoOperation? && NextBatch(b, s).entries[i].job.NoJob?
  {
  }

  lemma BatchStepKeeps(b: Batch, s: BatchStep)
    requires BatchInv(b) && Guarded(b, s)
    ensures BatchInv(NextBatch(b, s))
    ensures forall i :: 0 <= i < |b.entries| && Finished(b, i) ==> Finished(NextBatch(b, s), i)
  {
    var b1 := NextBatch(b, s);
    forall i | 0 <= i < |b.entries|
      ensures Exclusive(b1.entries[i], b1.sizes[i])
      ensures b1.directory[i] ==> b1.entries[i].op.NoOperation? && b1.entries[i].job.NoJob?
      ensures Finished(b, i) ==> Finished(b1, i)
    {
      EntriesKeep(b, s, i);
      if b.directory[i] {
        DirectoriesKeep(b, s, i);
      }
    }
    forall i | 0 <= i < |b.entries| && (b1.state.Completed? || (b1.scan.Scanning? && b1.scan.terminal && !b1.scan.failed && i < b1.scan.next))
      ensures Finished(b1, i)
    {
      assert Finished(b, i) || s.ScanReads?;
    }
  }

  function RunBatch(b: Batch, steps: seq<BatchStep>): (r: Batch)
    requires Shaped(b)
    ensures Shaped(r)
    decreases |steps|
  {
    if steps == [] then b else RunBatch(NextBatch(b, steps[0]), steps[1..])
  }

  predicate GuardedRun(b: Batch, steps: seq<BatchStep>)
    requires Shaped(b)
    decreases |steps|
  {
    steps == [] || (Guarded(b, steps[0]) && GuardedRun(NextBatch(b, steps[0]), steps[1..]))
  }

  /** A batch as it is before anything was received. */
  function NewBatch(state: Batches.BatchState, sizes: seq<nat>, directory: seq<bool>): Batch {
    Batch(state, sizes, directory, seq(|sizes|, _ => FRESH), NoScan)
  }

  predicate NewOk(state: Batches.BatchState, sizes: seq<nat>, directory: seq<bool>) {
    |sizes| == |directory| && !state.Completed? && forall i :: 0 <= i < |sizes| && directory[i] ==> sizes[i] == 0
  }

  /**
   Over every guarded interleaving of uploads, verifications, failure reports, scans,
   cancels and crashes: a finished entry stays finished, and a batch that reached Completed
   has every entry completed at its full size, although the scan read them one by one.
   */
  lemma {:induction false} CompletedBatchIsComplete(b: Batch, steps: seq<BatchStep>)
    requires BatchInv(b) && GuardedRun(b, steps)
    ensures var last := RunBatch(b, steps);
            && BatchInv(last) && |last.entries| == |b.entries| && last.sizes == b.sizes
            && (forall i :: 0 <= i < |b.entries| && Finished(b, i) ==> Finished(last, i))
            && (last.state.Completed? ==> forall i :: 0 <= i < |last.entries| ==> Finished(last, i))
    decreases |steps|
  {
    if steps != [] {
      BatchStepKeeps(b, steps[0]);
      CompletedBatchIsComplete(NextBatch(b, steps[0]), steps[1..]);
    }
  }

  // ---------------------------------------------------------------------------
  // What an undisturbed scan decides
  // ---------------------------------------------------------------------------

  function Reads(n: nat): seq<BatchStep> { seq(n, _ => ScanReads) }

  predicate Abandoned(e: Entry) { e.progress.state.Failed? || e.progress.state.Canceled? }

  /** What a scan that has read the first `n` entries has seen. */
  predicate Seen(b: Batch, scan: Scan, n: nat)
    requires Shaped(b) && n <= |b.entries|
  {
    && scan.Scanning? && scan.next == n
    && (scan.terminal <==> forall i :: 0 <= i < n ==> Finished(b, i) || Abandoned(b.entries[i]))
    && (scan.failed <==> exists i :: 0 <= i < n && Abandoned(b.entries[i]))
  }

  lemma SeenOne(b: Batch, scan: Scan, n: nat)
    requires Shaped(b) && n < |b.entries| && Seen(b, scan, n)
    ensures Seen(b, ScanEntry(scan, b.entries[n].progress, b.sizes[n]), n + 1)
  {
    var next := ScanEntry(scan, b.entries[n].progress, b.sizes[n]);
    assert next.failed <==> scan.failed || Abandoned(b.entries[n]);
    assert next.terminal <==> scan.terminal && (Finished(b, n) || Abandoned(b.entries[n]));
  }

  lemma SeenIsOfEntries(a: Batch, b: Batch, scan: Scan, n: nat)
    requires Shaped(a) && Shaped(b) && n <= |a.entries| && a.entries == b.entries && a.sizes == b.sizes && Seen(a, scan, n)
    ensures Seen(b, scan, n)
  {
    assert forall i :: 0 <= i < n ==> (Finished(a, i) <==> Finished(b, i));
  }

  lemma ReadsUnrolled(b: Batch, m: nat)
    requires Shaped(b) && m > 0
    ensures RunBatch(b, Reads(m)) == RunBatch(NextBatch(b, ScanReads), Reads(m - 1))
  {
    assert Reads(m)[0] == ScanReads && Reads(m)[1..] == Reads(m - 1);
  }

  lemma SeenNext(b: Batch, n: nat)
    requires Shaped(b) && n < |b.entries| && Seen(b, b.scan, n)
    ensures var b1 := NextBatch(b, ScanReads); b1 == b.(scan := b1.scan) && Seen(b1, b1.scan, n + 1)
  {
    SeenOne(b, b.scan, n);
    var b1 := NextBatch(b, ScanReads);
    SeenIsOfEntries(b, b1, b1.scan, n + 1);
  }

  lemma {:induction false} SeenAll(b: Batch, n: nat)
    requires Shaped(b) && n <= |b.entries| && Seen(b, b.scan, n)
    ensures var last := RunBatch(b, Reads(|b.entries| - n));
            last == b.(scan := last.scan) && Seen(last, last.scan, |b.entries|)
    decreases |b.entries| - n
  {
    if n < |b.entries| {
      SeenNext(b, n);
      SeenAll(NextBatch(b, ScanReads), n + 1);
      ReadsUnrolled(b, |b.entries| - n);
    }
  }

  predicate Settled(b: Batch)
    requires Shaped(b)
  {
    forall i :: 0 <= i < |b.entries| ==> Finished(b, i) || Abandoned(b.entries[i])
  }

  lemma EndDecides(b: Batch)
    requires Shaped(b) && Seen(b, b.scan, |b.entries|) && !Batches.IsTerminal(b.state)
    ensures var last := NextBatch(b, ScanEnds);
            && last == b.(scan := NoScan, state := last.state)
            && (last.state.Completed? <==> b.state.Transferring? && forall i :: 0 <= i < |b.entries| ==> Finished(b, i))
            && (last.state.PartialFailure? <==>
                  && (b.state.Transferring? || b.state.Preparing?) && Settled(b)
                  && exists i :: 0 <= i < |b.entries| && Abandoned(b.entries[i]))
            && (last.state.Completed? || last.state.PartialFailure? || last.state == b.state)
  {
    if b.scan.failed {
      var i :| 0 <= i < |b.entries| && Abandoned(b.entries[i]);
      assert !Finished(b, i);
    }
  }

  lemma ScanUnrolled(b: Batch)
    requires Shaped(b) && b.scan.NoScan? && !Batches.IsTerminal(b.state)
    ensures var read := RunBatch(NextBatch(b, ScanStarts), Reads(|b.entries|));
            read == b.(scan := read.scan) && Seen(read, read.scan, |b.entries|)
  {
    var b1 := NextBatch(b, ScanStarts);
    assert Seen(b1, b1.scan, 0);
    SeenAll(b1, 0);
  }

  /**
   A completion request with nothing in between decides exactly: Completed when every entry
   is completed at its size, PartialFailure when all are settled and some were failed or
   canceled, and otherwise, or when the batch may not move there, nothing.
   */
  lemma ScanDecides(b: Batch)
    requires Shaped(b) && b.scan.NoScan? && !Batches.IsTerminal(b.state)
    ensures var last := NextBatch(RunBatch(NextBatch(b, ScanStarts), Reads(|b.entries|)), ScanEnds);
            && last == b.(state := last.state)
            && (last.state.Completed? <==> b.state.Transferring? && forall i :: 0 <= i < |b.entries| ==> Finished(b, i))
            && (last.state.PartialFailure? <==>
                  && (b.state.Transferring? || b.state.Preparing?) && Settled(b)
                  && exists i :: 0 <= i < |b.entries| && Abandoned(b.entries[i]))
            && (last.state.Completed? || last.state.PartialFailure? || last.state == b.state)
  {
    ScanUnrolled(b);
    var read := RunBatch(NextBatch(b, ScanStarts), Reads(|b.entries|));
    EndDecides(read);
    assert forall i :: 0 <= i < |b.entries| ==> (Finished(b, i) <==> Finished(read, i));
  }

  predicate Late(s: BatchStep) { s.LateTakes? || s.LateReports? }

  /** No upload and no failure report holds the lease beside a background verification. */
  predicate LeftAlone(e: Entry) { Uploading(e.op) || e.op.Failing? ==> e.job.NoJob? }

  predicate Alone(b: Batch) {
    forall i :: 0 <= i < |b.entries| ==> LeftAlone(b.entries[i])
  }

  lemma AloneStep(e: Entry, size: nat, s: Step)
    requires LeftAlone(e)
    ensures LeftAlone(Next(e, size, s))
  {
  }

  lemma StaysAlone(b: Batch, s: BatchStep)
    requires Shaped(b) && Alone(b) && !Late(s)
    ensures Guarded(b, s) && Alone(NextBatch(b, s))
  {
    var b1 := NextBatch(b, s);
    forall i | 0 <= i < |b.entries|
      ensures LeftAlone(b1.entries[i])
    {
      match s {
        case EntryMoves(_, step) => AloneStep(b.entries[i], b.sizes[i], step);
        case CrashesAll(parts, targets) =>
          if |parts| == |targets| == |b.entries| {
            AloneStep(b.entries[i], b.sizes[i], Crashes(parts[i], targets[i]));
          }
        case _ =>
      }
    }
  }

  /** With the lease taken in one step every run is guarded. */
  lemma {:induction false} OneStepLeaseIsGuarded(b: Batch, steps: seq<BatchStep>)
    requires Shaped(b) && Alone(b) && forall s <- steps :: !Late(s)
    ensures GuardedRun(b, steps)
    decreases |steps|
  {
    if steps != [] {
      StaysAlone(b, steps[0]);
      OneStepLeaseIsGuarded(NextBatch(b, steps[0]), steps[1..]);
    }
  }

  lemma NewBatchIsOk(state: Batches.BatchState, sizes: seq<nat>, directory: seq<bool>)
    requires NewOk(state, sizes, directory)
    ensures BatchInv(NewBatch(state, sizes, directory)) && Alone(NewBatch(state, sizes, directory))
  {
  }

  /** From the start of a batch: guarded, or with the lease taken in one step, a completed batch is complete. */
  lemma EveryCompletedBatchIsComplete(state: Batches.BatchState, sizes: seq<nat>, directory: seq<bool>, steps: seq<BatchStep>)
    requires NewOk(state, sizes, directory)
    ensures var b := NewBatch(state, sizes, directory);
            var last := RunBatch(b, steps);
            (GuardedRun(b, steps) || forall s <- steps :: !Late(s)) && last.state.Completed? ==>
              last.sizes == sizes && forall i :: 0 <= i < |last.entries| ==> Finished(last, i)
  {
    var b := NewBatch(state, sizes, directory);
    NewBatchIsOk(state, sizes, directory);
    if forall s <- steps :: !Late(s) {
      OneStepLeaseIsGuarded(b, steps);
    }
    if GuardedRun(b, steps) {
      CompletedBatchIsComplete(b, steps);
    }
  }

  // ---------------------------------------------------------------------------
  // Without the guard
  // ---------------------------------------------------------------------------

  /** A batch of one file. */
  function Single(state: Batches.BatchState, size: nat, e: Entry): Batch {
    Batch(state, [size], [false], [e], NoScan)
  }

  function Lift(s: Step): BatchStep {
    if s.Crashes? then CrashesAll([s.part], [s.target]) else EntryMoves(0, s)
  }

  function LiftAll(steps: seq<Step>): seq<BatchStep> {
    if steps == [] then [] else [Lift(steps[0])] + LiftAll(steps[1..])
  }

  /** In a batch of one file the entry's steps are the batch's. */
  lemma LiftStep(state: Batches.BatchState, size: nat, e: Entry, s: Step)
    ensures NextBatch(Single(state, size, e), Lift(s)) == Single(state, size, Next(e, size, s))
  {
    if s.Crashes? {
      assert Crashed(Single(state, size, e), [s.part], [s.target]) == [Next(e, size, s)];
    }
  }

  lemma {:induction false} LiftRun(state: Batches.BatchState, size: nat, e: Entry, steps: seq<Step>)
    ensures RunBatch(Single(state, size, e), LiftAll(steps)) == Single(state, size, Run(e, size, steps))
    decreases |steps|
  {
    if steps != [] {
      LiftStep(state, size, e, steps[0]);
      LiftRun(state, size, Next(e, size, steps[0]), steps[1..]);
      assert ([Lift(steps[0])] + LiftAll(steps[1..]))[1..] == LiftAll(steps[1..]);
    }
  }

  lemma {:induction false} BatchConcat(b: Batch, x: seq<BatchStep>, y: seq<BatchStep>)
    requires Shaped(b)
    ensures RunBatch(b, x + y) == RunBatch(RunBatch(b, x), y)
    decreases |x|
  {
    if x == [] {
      assert x + y == y;
    } else {
      assert (x + y)[1..] == x[1..] + y;
      BatchConcat(NextBatch(b, x[0]), x[1..], y);
    }
  }

  const SCAN := [ScanStarts, ScanReads, ScanEnds]

  lemma ScanCompletes(size: nat, e: Entry)
    requires e.progress == Progress(Completed, size)
    ensures RunBatch(Single(Batches.Transferring, size, e), SCAN) == Single(Batches.BatchState.Completed, size, e)
  {
    var b := Single(Batches.Transferring, size, e);
    var b1 := NextBatch(b, ScanStarts);
    var b2 := NextBatch(b1, ScanReads);
    assert SCAN[1..] == [ScanReads, ScanEnds] && SCAN[1..][1..] == [ScanEnds] && SCAN[1..][1..][1..] == [];
    assert RunBatch(b, SCAN) == RunBatch(b1, [ScanReads, ScanEnds]) == RunBatch(b2, [ScanEnds]);
  }

  lemma LateStep(size: nat, e: Entry, k: nat)
    ensures RunBatch(Single(Batches.Transferring, size, e), [LateTakes(0, k)])
            == Single(Batches.Transferring, size, TakesLate(e, size, k))
  {
    assert [LateTakes(0, k)][1..] == [];
  }

  /**
   The guard is needed: for every committed length short of the whole file there is a run
   from the start of a batch of that one file, with one late upload, whose batch ends
   Completed while its entry is not, and whose published file is cut off.
   */
  lemma UnguardedBatchBreaks(source: Bytes, k: nat) returns (steps: seq<BatchStep>)
    requires k < |source|
    ensures var last := RunBatch(NewBatch(Batches.Transferring, [|source|], [false]), steps);
            && last.state.Completed? && |last.entries| == 1 && last.entries[0].progress == Progress(Transferring, k)
            && last.entries[0].target.Some? && last.entries[0].target.value.data == source[..k] != source
  {
    var size := |source|;
    var upload, cut := LateTakePublishesCutFile(source, k);
    var e := Run(FRESH, size, upload);
    var late := TakesLate(e, size, k);
    var done := Run(late, size, cut);
    var b := Single(Batches.Transferring, size, FRESH);
    assert b == NewBatch(Batches.Transferring, [size], [false]);
    LiftRun(Batches.Transferring, size, FRESH, upload);
    LateStep(size, e, k);
    LiftRun(Batches.Transferring, size, late, cut);
    ScanCompletes(size, done);
    LiftRun(Batches.BatchState.Completed, size, done, [UploadMarks]);
    assert Run(done, size, [UploadMarks]) == Next(done, size, UploadMarks);
    BatchConcat(b, LiftAll(upload), [LateTakes(0, k)]);
    BatchConcat(b, LiftAll(upload) + [LateTakes(0, k)], LiftAll(cut));
    BatchConcat(b, LiftAll(upload) + [LateTakes(0, k)] + LiftAll(cut), SCAN);
    BatchConcat(b, LiftAll(upload) + [LateTakes(0, k)] + LiftAll(cut) + SCAN, LiftAll([UploadMarks]));
    steps := LiftAll(upload) + [LateTakes(0, k)] + LiftAll(cut) + SCAN + LiftAll([UploadMarks]);
  }
}
