/**
 The lease of an entry is taken in two steps: the verification map is looked at under one
 lock, the lease is inserted under another.  An upload whose look came before a background
 verification started takes its lease beside it.
 */
module Leases {
  import opened Optional
  import opened Entries
  import opened Upload

  /** The lease taken, and the progress read, although a background verification is in its map. */
  function TakesLate(e: Entry, size: nat, offset: nat): Entry {
    Next(e.(job := NoJob), size, UploadReads(offset)).(job := e.job)
  }

  /** The late request gets its lease and goes on to open the part. */
  predicate GetsLease(e: Entry, size: nat, offset: nat) {
    e.op.NoOperation? && TakesLate(e, size, offset).op.Ready?
  }

  function PartLength(e: Entry): nat { if e.part.Some? then |e.part.value.data| else 0 }

  /** And the part file, as it is now, is long enough to be opened. */
  predicate OpensLate(e: Entry, size: nat, offset: nat) {
    GetsLease(e, size, offset) && offset <= PartLength(e)
  }

  /** An upload that will be refused because its part is too short. */
  predicate Stuck(e: Entry) { e.op.Ready? && PartLength(e) < e.op.offset }

  /** A background verification that was already looking can still complete the entry. */
  predicate CanStillRecord(e: Entry) {
    match e.job
    case NoJob | Starting | Done => false
    case Running(Checked(true)) => e.target.None?
    case Running(_) => true
  }

  /** A background verification that can still succeed is in the map when the progress is read. */
  predicate CanStillSucceed(e: Entry, source: Bytes) {
    if e.job.Starting? then e.target.None? || (e.part.None? && e.target.value.data == source) else CanStillRecord(e)
  }

  /** Otherwise the late upload is as good as one that came in time. */
  lemma LateTakeKeeps(e: Entry, source: Bytes, offset: nat)
    requires Inv(e, source) && OpensLate(e, |source|, offset) && !CanStillSucceed(e, source)
    ensures Inv(TakesLate(e, |source|, offset), source)
  {
  }

  lemma {:induction false} CompletedStays(e: Entry, source: Bytes, steps: seq<Step>)
    requires Inv(e, source) && HonestRun(e, source, steps)
    ensures Inv(Run(e, |source|, steps), source)
    ensures e.progress.state.Completed? ==> Run(e, |source|, steps).progress.state.Completed?
    decreases |steps|
  {
    if steps != [] {
      StepKeeps(e, source, steps[0]);
      if e.progress.state.Completed? {
        CompletedIsFinal(e, source, steps[0]);
      }
      CompletedStays(Next(e, |source|, steps[0]), source, steps[1..]);
    }
  }

  /** An honest run completes the entry, and its continuation takes that back. */
  predicate Undoes(e: Entry, source: Bytes, steps: seq<Step>, more: seq<Step>) {
    var completed := Run(e, |source|, steps);
    && HonestRun(e, source, steps) && HonestRun(completed, source, more)
    && completed.progress.state.Completed? && !Run(completed, |source|, more).progress.state.Completed?
  }

  lemma One(e: Entry, source: Bytes, s: Step)
    requires Honest(e, source, s)
    ensures HonestRun(e, source, [s]) && Run(e, |source|, [s]) == Next(e, |source|, s)
  {
    Then(e, source, s, []);
    assert [s] + [] == [s];
  }

  lemma Two(e: Entry, source: Bytes, s: Step, t: Step)
    requires Honest(e, source, s) && Honest(Next(e, |source|, s), source, t)
    ensures HonestRun(e, source, [s] + [t]) && Run(e, |source|, [s] + [t]) == Next(Next(e, |source|, s), |source|, t)
  {
    One(Next(e, |source|, s), source, t);
    Then(e, source, s, [t]);
  }

  /** What is left when a verification records a file it published while the upload had it open. */
  lemma CutWhilePublishing(e: Entry, source: Bytes) returns (steps: seq<Step>)
    requires e.op.Ready? && e.target.None? && e.job == Running(Checked(true))
    requires e.part.Some? && e.op.offset <= |e.part.value.data|
    ensures HonestRun(e, source, steps)
    ensures var last := Run(e, |source|, steps);
            && last.progress == Progress(Completed, |source|) && last.op == Cut(e.op.offset, Moved)
            && last.target.Some? && last.target.value.data == e.part.value.data[..e.op.offset]
  {
    var started := Next(e, |source|, UploadOpens);
    var cut := Next(started, |source|, UploadCuts);
    assert cut == e.(part := Some(Truncate(e.part.value, e.op.offset)), op := Cut(e.op.offset, Staged));
    Two(cut, source, Publishes(true), Records(true));
    Then(started, source, UploadCuts, [Publishes(true)] + [Records(true)]);
    Then(e, source, UploadOpens, [UploadCuts] + ([Publishes(true)] + [Records(true)]));
    steps := [UploadOpens] + ([UploadCuts] + ([Publishes(true)] + [Records(true)]));
  }

  lemma CheckedIsUndone(e: Entry, source: Bytes) returns (steps: seq<Step>, more: seq<Step>)
    requires e.op.Ready? && e.target.None? && e.job == Running(Checked(true))
    requires e.part.Some? && e.op.offset <= |e.part.value.data|
    ensures Undoes(e, source, steps, more)
  {
    steps := CutWhilePublishing(e, source);
    more := [UploadMarks];
    One(Run(e, |source|, steps), source, UploadMarks);
  }

  /** A late upload whose offset is zero, and which has not opened its part yet, starts from the beginning. */
  lemma StartsOver(e: Entry, source: Bytes) returns (more: seq<Step>)
    requires e.op == Ready(0)
    ensures HonestRun(e, source, more) && Run(e, |source|, more).progress == Progress(Transferring, 0)
  {
    var started := Next(e, |source|, UploadOpens);
    assert started.op == Opened(0, Staged);
    Two(started, source, UploadCuts, UploadMarks);
    Then(e, source, UploadOpens, [UploadCuts] + [UploadMarks]);
    more := [UploadOpens] + ([UploadCuts] + [UploadMarks]);
  }

  /** The verification records the entry between the upload's look and its opening of the part. */
  lemma PublishedIsUndone(e: Entry, source: Bytes) returns (steps: seq<Step>, more: seq<Step>)
    requires e.op == Ready(0) && (e.job == Running(Checked(false)) || e.job == Running(Published))
    ensures Undoes(e, source, steps, more)
  {
    if e.job == Running(Published) {
      steps := [Records(true)];
      One(e, source, Records(true));
    } else {
      steps := [Publishes(true)] + [Records(true)];
      Two(e, source, Publishes(true), Records(true));
    }
    more := StartsOver(Run(e, |source|, steps), source);
  }

  lemma FoundIsUndone(e: Entry, source: Bytes) returns (steps: seq<Step>, more: seq<Step>)
    requires e.op == Ready(0) && e.job.Starting? && e.part.None? && e.target.Some? && e.target.value.data == source
    ensures Undoes(e, source, steps, more)
  {
    var checked := Next(e, |source|, JobChecks(true));
    var rest;
    rest, more := PublishedIsUndone(checked, source);
    Then(e, source, JobChecks(true), rest);
    steps := [JobChecks(true)] + rest;
  }

  /** The late upload receives the whole rest of the file before the verification looks at it. */
  lemma ReceivesTheRest(e: Entry, source: Bytes) returns (steps: seq<Step>)
    requires e.op.Receiving? && e.op.file.Staged? && e.part.Some? && e.op.received <= |source| && e.part.value.data == source[..e.op.received]
    ensures HonestRun(e, source, steps)
    ensures Run(e, |source|, steps) == e.(part := Some(SyncedFile(source)), op := Synced(|source|, Staged))
  {
    var rest := source[e.op.received..];
    assert source[..e.op.received] + rest == source;
    assert WriteAt(e.part.value, e.op.received, rest).data == source;
    steps := [UploadWrites(rest)] + [UploadSyncs];
    Two(e, source, UploadWrites(rest), UploadSyncs);
  }

  lemma VerifiesBeside(e: Entry, source: Bytes) returns (steps: seq<Step>)
    requires e.op.Synced? && e.part == Some(SyncedFile(source)) && e.target.None? && e.job.Starting?
    ensures HonestRun(e, source, steps)
    ensures var last := Run(e, |source|, steps); last.progress == Progress(Completed, |source|) && last.op == Renamed(e.op)
  {
    var checked := Next(e, |source|, JobChecks(true));
    Two(checked, source, Publishes(true), Records(true));
    Then(e, source, JobChecks(true), [Publishes(true)] + [Records(true)]);
    steps := [JobChecks(true)] + ([Publishes(true)] + [Records(true)]);
  }

  lemma StartingIsUndone(e: Entry, source: Bytes) returns (steps: seq<Step>, more: seq<Step>)
    requires e.op.Ready? && e.target.None? && e.job.Starting? && e.op.offset <= |source|
    requires var kept := if e.part.Some? then e.part.value.data else [];
             e.op.offset <= |kept| && kept[..e.op.offset] == source[..e.op.offset]
    ensures Undoes(e, source, steps, more)
  {
    var started := Next(e, |source|, UploadOpens);
    Two(started, source, UploadCuts, UploadMarks);
    Then(e, source, UploadOpens, [UploadCuts] + [UploadMarks]);
    var opening := [UploadOpens] + ([UploadCuts] + [UploadMarks]);
    var marked := Run(e, |source|, opening);
    assert marked.part.value.data == source[..e.op.offset];
    var receive := ReceivesTheRest(marked, source);
    var whole := Run(marked, |source|, receive);
    var verify := VerifiesBeside(whole, source);
    Concat(marked, source, receive, verify);
    Concat(e, source, opening, receive + verify);
    steps := opening + (receive + verify);
    more := [UploadPersists(true)];
    One(Run(e, |source|, steps), source, UploadPersists(true));
  }

  /** A finished entry is only worked on by requests that cannot change it, and leases are kept but for a stuck upload. */
  predicate Calm(e: Entry, size: nat) {
    && (e.progress.state.Completed? ==>
          e.progress.offset == size && (e.op.NoOperation? || e.op.Verifying? || e.op.FailMarked? || Stuck(e)))
    && ((Uploading(e.op) && !Stuck(e)) || e.op.Failing? || e.op.FailMarked? ==> e.job.NoJob?)
  }

  lemma CalmStep(e: Entry, size: nat, s: Step)
    requires Calm(e, size)
    ensures Calm(Next(e, size, s), size)
    ensures e.progress.state.Completed? ==> Next(e, size, s).progress == e.progress
  {
  }

  lemma {:induction false} CalmRun(e: Entry, size: nat, steps: seq<Step>)
    requires Calm(e, size)
    ensures Calm(Run(e, size, steps), size)
    ensures e.progress.state.Completed? ==> Run(e, size, steps).progress.state.Completed?
    decreases |steps|
  {
    if steps != [] {
      CalmStep(e, size, steps[0]);
      CalmRun(Next(e, size, steps[0]), size, steps[1..]);
    }
  }

  lemma LateTakeIsUndone(e: Entry, source: Bytes, offset: nat) returns (steps: seq<Step>, more: seq<Step>)
    requires Inv(e, source) && OpensLate(e, |source|, offset) && CanStillSucceed(e, source)
    ensures Undoes(TakesLate(e, |source|, offset), source, steps, more)
  {
    var late := TakesLate(e, |source|, offset);
    match e.job {
      case Starting =>
        if e.target.None? {
          steps, more := StartingIsUndone(late, source);
        } else {
          steps, more := FoundIsUndone(late, source);
        }
      case Running(Checked(true)) => steps, more := CheckedIsUndone(late, source);
      case Running(_) => steps, more := PublishedIsUndone(late, source);
    }
  }

  lemma LateTakeIsHarmless(e: Entry, source: Bytes, offset: nat, steps: seq<Step>, more: seq<Step>)
    requires Inv(e, source) && GetsLease(e, |source|, offset)
    requires !(OpensLate(e, |source|, offset) && CanStillSucceed(e, source))
    ensures !Undoes(TakesLate(e, |source|, offset), source, steps, more)
  {
    var late := TakesLate(e, |source|, offset);
    if OpensLate(e, |source|, offset) {
      LateTakeKeeps(e, source, offset);
      if Undoes(late, source, steps, more) {
        CompletedStays(late, source, steps);
        CompletedStays(Run(late, |source|, steps), source, more);
      }
    } else {
      CalmRun(late, |source|, steps);
      CalmRun(Run(late, |source|, steps), |source|, more);
    }
  }

  /**
   An upload that takes its lease late can take a completion back exactly when it can open
   its part and a background verification that can still succeed was in the map when it read
   the progress.
   */
  lemma LateTakeUndoesIff(e: Entry, source: Bytes, offset: nat)
    requires Inv(e, source) && GetsLease(e, |source|, offset)
    ensures (exists steps, more :: Undoes(TakesLate(e, |source|, offset), source, steps, more))
            <==> OpensLate(e, |source|, offset) && CanStillSucceed(e, source)
  {
    if OpensLate(e, |source|, offset) && CanStillSucceed(e, source) {
      var steps, more := LateTakeIsUndone(e, source, offset);
      assert Undoes(TakesLate(e, |source|, offset), source, steps, more);
    } else {
      forall steps, more
        ensures !Undoes(TakesLate(e, |source|, offset), source, steps, more)
      {
        LateTakeIsHarmless(e, source, offset, steps, more);
      }
    }
  }

  /** The same for a failure report: it found the entry unfinished and has not marked it yet. */
  function ReportsLate(e: Entry, size: nat): Entry {
    Next(e.(job := NoJob), size, FailureStarts).(job := e.job)
  }

  /** A background verification that can still succeed before the report marks the entry. */
  predicate CanSucceedFirst(e: Entry, source: Bytes) {
    if e.job.Starting? then Verifiable(e, source) else CanStillRecord(e)
  }

  lemma LateReportKeeps(e: Entry, source: Bytes)
    requires Inv(e, source) && !CanSucceedFirst(e, source)
    ensures Inv(ReportsLate(e, |source|), source)
  {
  }

  lemma CheckedIsReported(e: Entry, source: Bytes) returns (steps: seq<Step>, more: seq<Step>)
    requires e.op.Failing? && e.job.Running? && (e.job.commit == Checked(true) ==> e.target.None? && e.part.Some?)
    ensures Undoes(e, source, steps, more)
  {
    if e.job == Running(Published) {
      steps := [Records(true)];
      One(e, source, Records(true));
    } else {
      steps := [Publishes(true)] + [Records(true)];
      Two(e, source, Publishes(true), Records(true));
    }
    more := [FailureMarks];
    One(Run(e, |source|, steps), source, FailureMarks);
  }

  lemma StartingIsReported(e: Entry, source: Bytes) returns (steps: seq<Step>, more: seq<Step>)
    requires e.op.Failing? && e.job.Starting? && Verifiable(e, source)
    ensures Undoes(e, source, steps, more)
  {
    var checked := Next(e, |source|, JobChecks(true));
    var rest;
    rest, more := CheckedIsReported(checked, source);
    Then(e, source, JobChecks(true), rest);
    steps := [JobChecks(true)] + rest;
  }

  /** A late failure report can take a completion back exactly when the verification can still succeed before it. */
  lemma LateReportUndoesIff(e: Entry, source: Bytes)
    requires Inv(e, source) && e.op.NoOperation? && ReportsLate(e, |source|).op.Failing?
    ensures (exists steps, more :: Undoes(ReportsLate(e, |source|), source, steps, more)) <==> CanSucceedFirst(e, source)
  {
    var late := ReportsLate(e, |source|);
    if CanSucceedFirst(e, source) {
      var steps, more;
      if e.job.Starting? {
        steps, more := StartingIsReported(late, source);
      } else {
        steps, more := CheckedIsReported(late, source);
      }
      assert Undoes(late, source, steps, more);
    } else {
      LateReportKeeps(e, source);
      forall steps, more | Undoes(late, source, steps, more)
        ensures false
      {
        CompletedStays(late, source, steps);
        CompletedStays(Run(late, |source|, steps), source, more);
      }
    }
  }

  /** An honest upload of `k` committed bytes whose file a background verification has checked. */
  lemma ReachesChecked(source: Bytes, k: nat) returns (upload: seq<Step>)
    requires k <= |source|
    ensures HonestRun(FRESH, source, upload) && Run(FRESH, |source|, upload) == Partial(source, k).(job := Running(Checked(true)))
    ensures Inv(Run(FRESH, |source|, upload), source)
  {
    var first := PartialUpload(source, k);
    Two(Partial(source, k), source, JobStarts, JobChecks(true));
    Concat(FRESH, source, first, [JobStarts] + [JobChecks(true)]);
    upload := first + ([JobStarts] + [JobChecks(true)]);
    FreshIsOk(source);
    CompletedStays(FRESH, source, upload);
  }

  /**
   It can be worse.  For every committed length short of the whole file an honest upload
   leads to a running verification beside which a late upload opens the part and cuts it:
   the file is published cut off, after its hash was checked, and recorded as complete.
   */
  lemma LateTakePublishesCutFile(source: Bytes, k: nat) returns (upload: seq<Step>, steps: seq<Step>)
    requires k < |source|
    ensures HonestRun(FRESH, source, upload)
    ensures var e := Run(FRESH, |source|, upload);
            var late := TakesLate(e, |source|, k);
            && Inv(e, source) && CanStillSucceed(e, source) && OpensLate(e, |source|, k) && HonestRun(late, source, steps)
            && var last := Run(late, |source|, steps);
            && last.progress == Progress(Completed, |source|)
            && last.target.Some? && last.target.value.data == source[..k] != source
            && Next(last, |source|, UploadMarks) == last.(progress := Progress(Transferring, k), op := Receiving(k, Moved))
  {
    upload := ReachesChecked(source, k);
    steps := CutWhilePublishing(TakesLate(Run(FRESH, |source|, upload), |source|, k), source);
  }

  /**
   And worse still: if the part is cut after it was renamed, the late upload cuts a target
   that is already recorded as complete, and goes on to write into it.
   */
  lemma LateTakeOverwritesTarget(source: Bytes, k: nat) returns (upload: seq<Step>, steps: seq<Step>)
    requires k < |source|
    ensures HonestRun(FRESH, source, upload)
    ensures var late := TakesLate(Run(FRESH, |source|, upload), |source|, k);
            && HonestRun(late, source, steps)
            && var last := Run(late, |source|, steps);
            && last.progress == Progress(Completed, |source|) && last.target.Some? && last.target.value.data == source
            && HoldsTarget(last)
            && var cut := Next(last, |source|, UploadCuts);
            cut.progress == last.progress && cut.target.Some? && cut.target.value.data == source[..k] != source
  {
    upload := ReachesChecked(source, k);
    var late := TakesLate(Run(FRESH, |source|, upload), |source|, k);
    var started := Next(late, |source|, UploadOpens);
    assert started == late.(op := Opened(k, Staged));
    Two(started, source, Publishes(true), Records(true));
    Then(late, source, UploadOpens, [Publishes(true)] + [Records(true)]);
    steps := [UploadOpens] + ([Publishes(true)] + [Records(true)]);
  }
}
