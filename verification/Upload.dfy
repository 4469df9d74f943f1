/**
 One uploaded file on the computer: its part file, its target, its durable progress
 record, and the requests that work on it.  Every single file operation is one step, so
 a disconnect or a crash may come between any two of them.  A crash keeps the synced
 bytes of a file and may leave anything behind them.
 */
module Upload {
  import opened Optional
  import opened Entries

  type Bytes = seq<bv8>

  /**
   The bytes a reader sees, how many of them a crash cannot take away, and the greatest
   length the file had since it was last synced.  Syncing or renaming a file makes its
   name durable too.
   */
  datatype File = File(data: Bytes, synced: nat, reach: nat, named: bool)

  /**
   The file an upload has open: the part, the target it was renamed to meanwhile, or a file
   that was removed.  A handle follows its file.
   */
  datatype Handle = Staged | Moved | Orphan

  /** A request that holds the entry's lease, at the file operation it does next. */
  datatype Operation =
    | NoOperation
    | Ready(offset: nat)                     // the progress was read and the offset accepted
    | Opened(offset: nat, file: Handle)      // the part file is open, longer than or as long as the offset
    | Cut(offset: nat, file: Handle)         // it was cut to the offset
    | Receiving(received: nat, file: Handle) // progress was marked, the body is being written
    | Synced(received: nat, file: Handle)    // what was received is synced
    | Failing                                // a failure report that found the entry unfinished
    | FailMarked                             // the entry is marked failed, its part is still there
    | Verifying(at: Commit)                  // a verification that runs inside its request

  /** A verification: the bytes were checked, the part was renamed. */
  datatype Commit = Checked(staged: bool) | Published

  /** A background verification occupies its map key until its result is collected. */
  datatype Job = NoJob | Running(commit: Commit) | Starting | Done

  datatype Entry = Entry(part: Option<File>, target: Option<File>, progress: Progress, op: Operation, job: Job)

  // ---------------------------------------------------------------------------
  // Steps
  // ---------------------------------------------------------------------------

  datatype Step =
    | UploadReads(offset: nat)
    | UploadOpens
    | UploadCuts
    | UploadMarks
    | UploadWrites(chunk: Bytes)
    | UploadSyncs
    | UploadPersists(last: bool)
    | FailureStarts
    | FailureMarks
    | FailureRemoves
    | VerifyStarts(accepts: bool)
    | JobStarts
    | JobChecks(accepts: bool)
    | Publishes(background: bool)
    | Records(background: bool)
    | JobCollected
    | GivesUp(background: bool)
    | Crashes(part: Option<File>, target: Option<File>)

  /**
   What a crash may make of a file: the synced bytes stay, the rest may be anything or
   missing, and a file whose name is not durable may be gone.
   */
  predicate CrashOf(before: Option<File>, after: Option<File>) {
    match (before, after)
    case (None, None) => true
    case (Some(f), Some(g)) =>
      && f.synced <= |f.data| && f.synced <= |g.data| <= f.reach && g.synced == |g.data| == g.reach && g.named
      && g.data[..f.synced] == f.data[..f.synced]
    case (Some(f), None) => !f.named
    case (None, Some(_)) => false
  }

  function Min(a: nat, b: nat): nat { if a <= b then a else b }

  function Max(a: nat, b: nat): nat { if a <= b then b else a }

  /** The upload writes at the position it has reached. */
  function WriteAt(f: File, position: nat, chunk: Bytes): (g: File)
    requires position <= |f.data|
  {
    var data := f.data[..position] + chunk + (if position + |chunk| <= |f.data| then f.data[position + |chunk|..] else []);
    File(data, Min(f.synced, position), Max(f.reach, |data|), f.named)
  }

  function Truncate(f: File, n: nat): File
    requires n <= |f.data|
  {
    File(f.data[..n], Min(f.synced, n), f.reach, f.named)
  }

  function SyncedFile(data: Bytes): File { File(data, |data|, |data|, true) }

  const NEW_FILE := File([], 0, 0, false)

  predicate HasOpen(op: Operation) { op.Opened? || op.Cut? || op.Receiving? || op.Synced? }

  /** The file behind the upload's handle, while it has a name. */
  function Open(e: Entry): Option<File>
    requires HasOpen(e.op)
  {
    match e.op.file
    case Staged => e.part
    case Moved => e.target
    case Orphan => None
  }

  function WithOpen(e: Entry, f: File): Entry
    requires HasOpen(e.op)
  {
    match e.op.file
    case Staged => e.(part := Some(f))
    case Moved => e.(target := Some(f))
    case Orphan => e
  }

  /** The part is renamed to the target under whoever has it open. */
  function Renamed(op: Operation): Operation {
    if HasOpen(op) && op.file.Staged? then op.(file := Moved) else op
  }

  function ReleaseOp(e: Entry): Entry { e.(op := NoOperation) }

  function CommitOf(e: Entry, background: bool): Option<Commit> {
    if background then (if e.job.Running? then Some(e.job.commit) else None)
    else (if e.op.Verifying? then Some(e.op.at) else None)
  }

  function WithCommit(e: Entry, background: bool, c: Option<Commit>): Entry {
    if background then e.(job := if c.None? then Done else Running(c.value))
    else e.(op := if c.None? then NoOperation else Verifying(c.value))
  }

  /** Which file a verification reads, and whether its length is right; `accepts` is the hash check. */
  function CheckedCommit(e: Entry, size: nat, accepts: bool): Option<Commit> {
    var path := if e.part.Some? then e.part else e.target;
    if path.None? || |path.value.data| != size || !accepts then None else Some(Checked(e.part.Some?))
  }

  /** One step; a step that is not possible changes nothing.  `size` is the entry's manifest size. */
  function Next(e: Entry, size: nat, s: Step): Entry {
    match s
    case UploadReads(offset) =>
      if e.op.NoOperation? && e.job.NoJob? && offset <= size && offset == e.progress.offset && !e.progress.state.Completed?
      then e.(op := Ready(offset)) else e
    case UploadOpens =>
      if e.op.Ready? then
        var found := if e.part.Some? then e else e.(part := Some(NEW_FILE));
        found.(op := if |found.part.value.data| < e.op.offset then NoOperation else Opened(e.op.offset, Staged))
      else e
    case UploadCuts =>
      if e.op.Opened? then
        var f := Open(e);
        var e1 := if f.Some? && e.op.offset <= |f.value.data| then WithOpen(e, Truncate(f.value, e.op.offset)) else e;
        e1.(op := Cut(e.op.offset, e.op.file))
      else e
    case UploadMarks =>
      if e.op.Cut? then e.(progress := Progress(Transferring, e.op.offset), op := Receiving(e.op.offset, e.op.file)) else e
    case UploadWrites(chunk) =>
      if e.op.Receiving? && e.op.received + |chunk| <= size then
        var f := Open(e);
        var e1 := if f.Some? && e.op.received <= |f.value.data| then WithOpen(e, WriteAt(f.value, e.op.received, chunk)) else e;
        e1.(op := Receiving(e.op.received + |chunk|, e.op.file))
      else e
    case UploadSyncs =>
      if e.op.Receiving? then
        var f := Open(e);
        var e1 := if f.Some? then WithOpen(e, SyncedFile(f.value.data)) else e;
        e1.(op := Synced(e.op.received, e.op.file))
      else e
    case UploadPersists(last) =>
      if e.op.Synced? then
        e.(progress := Progress(if last && e.op.received != size then WaitingNetwork else Transferring, e.op.received),
           op := if last then NoOperation else Receiving(e.op.received, e.op.file))
      else e
    case FailureStarts =>
      if e.op.NoOperation? && e.job.NoJob? && !e.progress.state.Completed? then e.(op := Failing) else e
    case FailureMarks =>
      if e.op.Failing? then e.(progress := e.progress.(state := Failed), op := FailMarked) else e
    case FailureRemoves =>
      if e.op.FailMarked? then e.(part := None, op := NoOperation) else e
    case VerifyStarts(accepts) =>
      if e.op.NoOperation? then WithCommit(e, false, CheckedCommit(e, size, accepts)) else e
    case JobStarts =>
      if e.op.NoOperation? && e.job.NoJob? then e.(job := Starting) else e
    case JobChecks(accepts) =>
      if e.job.Starting? then WithCommit(e, true, CheckedCommit(e, size, accepts)) else e
    case Publishes(background) =>
      (match CommitOf(e, background)
       case Some(Checked(true)) =>
         if e.target.Some? || e.part.None? then WithCommit(e, background, None)
         else
           var published := e.(target := Some(e.part.value.(named := true)), part := None, op := Renamed(e.op));
           WithCommit(published, background, Some(Published))
       case Some(Checked(false)) => WithCommit(e, background, Some(Published))
       case _ => e)
    case Records(background) =>
      if CommitOf(e, background) == Some(Published)
      then WithCommit(e.(progress := Progress(Completed, size)), background, None) else e
    case JobCollected => if e.job.Done? then e.(job := NoJob) else e
    case GivesUp(background) =>
      if background then (if e.job.Running? || e.job.Starting? then e.(job := Done) else e) else ReleaseOp(e)
    case Crashes(part, target) =>
      if CrashOf(e.part, part) && CrashOf(e.target, target) then Entry(part, target, e.progress, NoOperation, NoJob) else e
  }

  // ---------------------------------------------------------------------------
  // What every step keeps
  // ---------------------------------------------------------------------------

  /** The file a verification would read. */
  function Candidate(e: Entry): Option<File> {
    if e.part.Some? then e.part else e.target
  }

  /**
   The phone sends its own file: each chunk is the source at the position reached, and its
   hash is accepted for no other bytes.
   */
  predicate Honest(e: Entry, source: Bytes, s: Step) {
    match s
    case UploadWrites(chunk) =>
      e.op.Receiving? && e.op.received + |chunk| <= |source| ==>
        chunk == source[e.op.received..e.op.received + |chunk|]
    case VerifyStarts(accepts) => accepts && Candidate(e).Some? ==> Candidate(e).value.data == source
    case JobChecks(accepts) => accepts && Candidate(e).Some? ==> Candidate(e).value.data == source
    case _ => true
  }

  predicate FileOk(f: Option<File>) {
    f.Some? ==> f.value.synced <= |f.value.data| <= f.value.reach
  }

  /** A part that reaches the committed offset holds the source up to there, and has it synced. */
  predicate PrefixOk(e: Entry, source: Bytes) {
    e.part.Some? && e.progress.offset <= |source| ==>
      if e.progress.offset <= |e.part.value.data|
      then
        && e.progress.offset <= e.part.value.synced && (e.progress.offset > 0 ==> e.part.value.named)
        && e.part.value.data[..e.progress.offset] == source[..e.progress.offset]
      else e.part.value.reach < e.progress.offset
  }

  predicate UploadOk(e: Entry, source: Bytes) {
    match e.op
    case Ready(offset) => offset == e.progress.offset && !e.progress.state.Completed?
    case Opened(offset, file) =>
      file.Staged? && e.part.Some? && offset == e.progress.offset <= |e.part.value.data| && !e.progress.state.Completed?
    case Cut(offset, file) =>
      file.Staged? && e.part.Some? && offset == e.progress.offset == |e.part.value.data| && !e.progress.state.Completed?
    case Receiving(received, file) =>
      && file.Staged? && e.part.Some? && e.progress.offset <= received <= |source| && e.progress.state.Transferring?
      && e.part.value.data == source[..received]
    case Synced(received, file) =>
      && file.Staged? && e.part.Some? && e.progress.offset <= received <= |source| && e.progress.state.Transferring?
      && e.part.value == SyncedFile(source[..received])
    case Failing => !e.progress.state.Completed?
    case FailMarked => e.progress.state.Failed?
    case _ => true
  }

  predicate CommitOk(e: Entry, source: Bytes, c: Option<Commit>) {
    match c
    case None => true
    case Some(Checked(true)) => e.target.Some? || (e.part.Some? && e.part.value.data == source)
    case Some(_) => e.part.None? && e.target.Some?
  }

  predicate Uploading(op: Operation) { op.Ready? || HasOpen(op) }

  /** A background verification that must fail: it will find a part beside the target, or other bytes. */
  predicate Doomed(e: Entry, source: Bytes) {
    e.target.Some? &&
    if e.job.Starting? then e.part.Some? || e.target.value.data != source else e.job == Running(Checked(true))
  }

  /** An upload beside a background verification: one that cannot succeed any more. */
  predicate Shared(e: Entry, source: Bytes) {
    Uploading(e.op) ==> e.job.NoJob? || e.job.Done? || Doomed(e, source)
  }

  /** A verification that looks now would publish the entry, or find it published. */
  predicate Verifiable(e: Entry, source: Bytes) {
    Candidate(e).Some? && Candidate(e).value.data == source && !(e.part.Some? && e.target.Some?)
  }

  /** A failure report beside one: likewise. */
  predicate ReportOk(e: Entry, source: Bytes) {
    e.op.Failing? || e.op.FailMarked? ==>
      e.job.NoJob? || e.job.Done? || (if e.job.Starting? then !Verifiable(e, source) else Doomed(e, source))
  }

  predicate Inv(e: Entry, source: Bytes) {
    && FileOk(e.part) && FileOk(e.target) && (e.target.Some? ==> e.target.value.named)
    && e.progress.offset <= |source|
    && PrefixOk(e, source)
    && (e.part.Some? ==> e.part.value.reach <= |source|)
    && (e.target.None? && !e.progress.state.Failed? && e.progress.offset > 0 ==>
          e.part.Some? && e.progress.offset <= |e.part.value.data|)
    && (e.progress.state.Completed? ==> e.progress.offset == |source| && e.target.Some? && e.part.None?)
    && Shared(e, source) && ReportOk(e, source)
    && UploadOk(e, source)
    && CommitOk(e, source, CommitOf(e, true)) && CommitOk(e, source, CommitOf(e, false))
  }

  lemma UploadStepKeeps(e: Entry, source: Bytes, s: Step)
    requires Inv(e, source) && Honest(e, source, s)
    requires s.UploadReads? || s.UploadOpens? || s.UploadCuts? || s.UploadMarks? || s.UploadWrites? || s.UploadSyncs? || s.UploadPersists?
    ensures Inv(Next(e, |source|, s), source)
  {
    if s.UploadWrites? && e.op.Receiving? && e.op.received + |s.chunk| <= |source| {
      assert source[..e.op.received] + s.chunk == source[..e.op.received + |s.chunk|];
    }
  }

  lemma PrefixSurvives(f: Bytes, g: Bytes, k: nat, n: nat)
    requires n <= k <= |f| && k <= |g| && g[..k] == f[..k]
    ensures g[..n] == f[..n]
  {
    assert g[..n] == g[..k][..n];
    assert f[..n] == f[..k][..n];
  }

  lemma CrashKeeps(e: Entry, source: Bytes, s: Step)
    requires Inv(e, source) && s.Crashes?
    ensures Inv(Next(e, |source|, s), source)
  {
    if CrashOf(e.part, s.part) && e.part.Some? && s.part.Some? && e.progress.offset <= |e.part.value.data| {
      PrefixSurvives(e.part.value.data, s.part.value.data, e.part.value.synced, e.progress.offset);
    }
  }

  lemma CheckStepKeeps(e: Entry, source: Bytes, s: Step)
    requires Inv(e, source) && Honest(e, source, s)
    requires s.VerifyStarts? || s.JobStarts? || s.JobChecks?
    ensures Inv(Next(e, |source|, s), source)
  {
  }

  lemma PublishKeeps(e: Entry, source: Bytes, s: Step)
    requires Inv(e, source) && s.Publishes?
    ensures Inv(Next(e, |source|, s), source)
  {
  }

  lemma RecordKeeps(e: Entry, source: Bytes, s: Step)
    requires Inv(e, source) && (s.Records? || s.JobCollected?)
    ensures Inv(Next(e, |source|, s), source)
  {
  }

  lemma ReportStepKeeps(e: Entry, source: Bytes, s: Step)
    requires Inv(e, source) && (s.FailureStarts? || s.FailureMarks? || s.FailureRemoves? || s.GivesUp?)
    ensures Inv(Next(e, |source|, s), source)
  {
  }

  /** Every single step of every request, and every crash, keeps the invariant. */
  lemma StepKeeps(e: Entry, source: Bytes, s: Step)
    requires Inv(e, source) && Honest(e, source, s)
    ensures Inv(Next(e, |source|, s), source)
  {
    match s {
      case UploadReads(_) | UploadOpens | UploadCuts | UploadMarks | UploadWrites(_) | UploadSyncs | UploadPersists(_) =>
        UploadStepKeeps(e, source, s);
      case VerifyStarts(_) | JobStarts | JobChecks(_) => CheckStepKeeps(e, source, s);
      case Publishes(_) => PublishKeeps(e, source, s);
      case Records(_) | JobCollected => RecordKeeps(e, source, s);
      case Crashes(_, _) => CrashKeeps(e, source, s);
      case FailureStarts | FailureMarks | FailureRemoves | GivesUp(_) => ReportStepKeeps(e, source, s);
    }
  }

  function Run(e: Entry, size: nat, steps: seq<Step>): Entry
    decreases |steps|
  {
    if steps == [] then e else Run(Next(e, size, steps[0]), size, steps[1..])
  }

  predicate HonestRun(e: Entry, source: Bytes, steps: seq<Step>)
    decreases |steps|
  {
    steps == [] || (Honest(e, source, steps[0]) && HonestRun(Next(e, |source|, steps[0]), source, steps[1..]))
  }

  const FRESH := Entry(None, None, Progress(Pending, 0), NoOperation, NoJob)

  lemma FreshIsOk(source: Bytes)
    ensures Inv(FRESH, source) && Solid(FRESH, source)
  {
  }

  /**
   Over any run of uploads, disconnects, retries, failure reports, verifications and
   crashes: an unpublished entry that was not reported failed has a synced part holding
   the source up to the committed offset, so a part committed at full length is the
   source.
   */
  lemma {:induction false} EveryRunKeepsThePrefix(e: Entry, source: Bytes, steps: seq<Step>)
    requires Inv(e, source) && HonestRun(e, source, steps)
    ensures var last := Run(e, |source|, steps);
            && Inv(last, source)
            && (last.target.None? && !last.progress.state.Failed? && last.progress.offset > 0 ==>
                  && last.part.Some?
                  && last.progress.offset <= last.part.value.synced <= |last.part.value.data|
                  && last.part.value.data[..last.progress.offset] == source[..last.progress.offset])
            && (last.target.None? && last.part.Some? && last.progress.offset == |source| == |last.part.value.data| ==>
                  last.part.value.data == source)
    decreases |steps|
  {
    if steps != [] {
      StepKeeps(e, source, steps[0]);
      EveryRunKeepsThePrefix(Next(e, |source|, steps[0]), source, steps[1..]);
    } else if e.part.Some? && e.progress.offset == |source| == |e.part.value.data| {
      assert e.part.value.data == e.part.value.data[..|source|];
      assert source == source[..|source|];
    }
  }

  /** From the first request on. */
  lemma EveryUploadKeepsThePrefix(source: Bytes, steps: seq<Step>)
    requires HonestRun(FRESH, source, steps)
    ensures var last := Run(FRESH, |source|, steps);
            && last.progress.offset <= |source|
            && (last.target.None? && !last.progress.state.Failed? && last.progress.offset > 0 ==>
                  && last.part.Some?
                  && last.progress.offset <= last.part.value.synced <= |last.part.value.data|
                  && last.part.value.data[..last.progress.offset] == source[..last.progress.offset])
            && (last.target.None? && last.part.Some? && last.progress.offset == |source| == |last.part.value.data| ==>
                  last.part.value.data == source)
            && (last.progress.state.Completed? ==> last.progress.offset == |source| && last.target.Some? && last.part.None?)
  {
    FreshIsOk(source);
    EveryRunKeepsThePrefix(FRESH, source, steps);
  }

  /** A finished entry never changes again, whoever else is still at work on it. */
  lemma CompletedIsFinal(e: Entry, source: Bytes, s: Step)
    requires Inv(e, source) && Honest(e, source, s) && e.progress.state.Completed?
    ensures Next(e, |source|, s).progress == Progress(Completed, |source|)
  {
  }

  /** An upload has the target open: the part it opened was renamed under it. */
  predicate HoldsTarget(e: Entry) { HasOpen(e.op) && e.op.file.Moved? }

  /** An existing target changes in no state and by no request unless an upload has it open. */
  lemma TargetChangesOnlyWhileOpen(e: Entry, size: nat, s: Step)
    requires e.target.Some? && !s.Crashes? && Next(e, size, s).target != e.target
    ensures HoldsTarget(e) && (s.UploadCuts? || s.UploadWrites? || s.UploadSyncs?)
  {
  }

  /** Then it is cut to the upload's offset, and written to. */
  lemma OpenTargetIsWritten(e: Entry, size: nat, chunk: Bytes)
    requires HoldsTarget(e) && e.target.Some?
    ensures e.op.Opened? && e.op.offset <= |e.target.value.data| ==>
              Next(e, size, UploadCuts).target == Some(Truncate(e.target.value, e.op.offset))
    ensures e.op.Receiving? && e.op.received == |e.target.value.data| && e.op.received + |chunk| <= size ==>
              && Next(e, size, UploadWrites(chunk)).target.Some?
              && Next(e, size, UploadWrites(chunk)).target.value.data == e.target.value.data + chunk
  {
  }

  /** And an upload comes to have the target open exactly when a background verification renames the part it has open. */
  lemma TargetIsOpenedIff(e: Entry, size: nat, s: Step)
    requires !HoldsTarget(e)
    ensures HoldsTarget(Next(e, size, s)) <==>
            && s == Publishes(true) && e.job == Running(Checked(true)) && e.target.None? && e.part.Some?
            && HasOpen(e.op) && e.op.file.Staged?
  {
  }

  /** So while the leases are kept no request overwrites or removes an existing target. */
  lemma TargetIsNeverOverwritten(e: Entry, source: Bytes, s: Step)
    requires Inv(e, source) && e.target.Some? && !s.Crashes?
    ensures Next(e, |source|, s).target == e.target
  {
  }

  // ---------------------------------------------------------------------------
  // Durability of what is published
  // ---------------------------------------------------------------------------

  /** A staged file is only verified at committed offset `k`. */
  predicate VerifiesAt(e: Entry, k: nat, s: Step) {
    (s.VerifyStarts? || s.JobChecks?) && e.part.Some? ==> e.progress.offset == k
  }

  predicate VerifyingRun(e: Entry, size: nat, k: nat, steps: seq<Step>)
    decreases |steps|
  {
    steps == [] || (VerifiesAt(e, k, steps[0]) && VerifyingRun(Next(e, size, steps[0]), size, k, steps[1..]))
  }

  /** The target is the source and is synced, and so is a part about to become the target. */
  predicate Solid(e: Entry, source: Bytes) {
    && (e.target.Some? ==> e.target.value == SyncedFile(source))
    && (forall background :: CommitOf(e, background) == Some(Checked(true)) && e.part.Some? && e.target.None? ==>
          e.part.value.(named := true) == SyncedFile(source))
  }

  lemma SolidStep(e: Entry, source: Bytes, s: Step)
    requires Inv(e, source) && Solid(e, source) && Honest(e, source, s) && VerifiesAt(e, |source|, s)
    ensures Solid(Next(e, |source|, s), source)
  {
    if s.Crashes? && e.target.Some? && CrashOf(e.target, s.target) {
      assert source == source[..|source|];
      assert s.target.value.data == s.target.value.data[..|source|];
    }
  }

  /** Verified only at full length, a completed entry's target is the source, and stays so through every crash. */
  lemma {:induction false} FullyCommittedRunIsDurable(e: Entry, source: Bytes, steps: seq<Step>)
    requires Inv(e, source) && Solid(e, source)
    requires HonestRun(e, source, steps) && VerifyingRun(e, |source|, |source|, steps)
    ensures var last := Run(e, |source|, steps);
            && Inv(last, source) && Solid(last, source)
            && (last.progress.state.Completed? ==> last.target == Some(SyncedFile(source)) && last.part.None?)
    decreases |steps|
  {
    if steps != [] {
      StepKeeps(e, source, steps[0]);
      SolidStep(e, source, steps[0]);
      FullyCommittedRunIsDurable(Next(e, |source|, steps[0]), source, steps[1..]);
    }
  }

  /** Whatever a crash leaves of the target is the source. */
  ghost predicate CrashProof(e: Entry, source: Bytes) {
    e.target.Some? ==> e.target.value.named && forall g: File :: CrashOf(e.target, Some(g)) ==> g.data == source
  }

  lemma SyncedIsCrashProof(e: Entry, source: Bytes)
    requires e.target.Some? ==> e.target.value == SyncedFile(source)
    ensures CrashProof(e, source)
  {
    if e.target.Some? {
      forall g: File | CrashOf(e.target, Some(g))
        ensures g.data == source
      {
        assert source[..|source|] == source && g.data[..|source|] == g.data;
      }
    }
  }

  lemma Then(e: Entry, source: Bytes, s: Step, rest: seq<Step>)
    requires Honest(e, source, s) && HonestRun(Next(e, |source|, s), source, rest)
    ensures HonestRun(e, source, [s] + rest)
    ensures Run(e, |source|, [s] + rest) == Run(Next(e, |source|, s), |source|, rest)
  {
    assert ([s] + rest)[1..] == rest;
  }

  lemma {:induction false} Concat(e: Entry, source: Bytes, a: seq<Step>, b: seq<Step>)
    requires HonestRun(e, source, a) && HonestRun(Run(e, |source|, a), source, b)
    ensures HonestRun(e, source, a + b) && Run(e, |source|, a + b) == Run(Run(e, |source|, a), |source|, b)
    decreases |a|
  {
    if a == [] {
      assert a + b == b;
    } else {
      assert (a + b)[1..] == a[1..] + b;
      Concat(Next(e, |source|, a[0]), source, a[1..], b);
    }
  }

  lemma {:induction false} VerifyingConcat(e: Entry, size: nat, k: nat, a: seq<Step>, b: seq<Step>)
    requires VerifyingRun(e, size, k, a) && VerifyingRun(Run(e, size, a), size, k, b)
    ensures VerifyingRun(e, size, k, a + b)
    decreases |a|
  {
    if a == [] {
      assert a + b == b;
    } else {
      assert (a + b)[1..] == a[1..] + b;
      VerifyingConcat(Next(e, size, a[0]), size, k, a[1..], b);
    }
  }

  /** One more honest step at the front, a verification only at offset `k`. */
  lemma First(e: Entry, source: Bytes, k: nat, s: Step, rest: seq<Step>)
    requires Honest(e, source, s) && VerifiesAt(e, k, s)
    requires HonestRun(Next(e, |source|, s), source, rest) && VerifyingRun(Next(e, |source|, s), |source|, k, rest)
    ensures Run(e, |source|, [s] + rest) == Run(Next(e, |source|, s), |source|, rest)
    ensures HonestRun(e, source, [s] + rest) && VerifyingRun(e, |source|, k, [s] + rest)
  {
    Then(e, source, s, rest);
    assert ([s] + rest)[1..] == rest;
  }

  /** The file operations of one verification, inside its request or in the background. */
  function CommitSteps(background: bool): seq<Step> {
    if background then [JobStarts, JobChecks(true), Publishes(true), Records(true)]
    else [VerifyStarts(true), Publishes(false), Records(false)]
  }

  lemma CommitUnrolled(e: Entry, size: nat)
    ensures var e1 := Next(e, size, VerifyStarts(true));
            Run(e, size, CommitSteps(false)) == Next(Next(e1, size, Publishes(false)), size, Records(false))
  {
    var steps := CommitSteps(false);
    assert steps[1..] == [Publishes(false), Records(false)] && steps[1..][1..] == [Records(false)] && steps[1..][1..][1..] == [];
  }

  /** All bytes received, the first `k` of them synced and committed, and the connection gone. */
  function Partial(source: Bytes, k: nat): Entry {
    Entry(Some(File(source, k, |source|, true)), None, Progress(Transferring, k), NoOperation, NoJob)
  }

  /** The request after its first commit: it writes the rest of the body and loses the connection. */
  lemma LosesTheRest(source: Bytes, k: nat) returns (steps: seq<Step>)
    requires k <= |source|
    ensures var e := Partial(source, k).(part := Some(SyncedFile(source[..k])), op := Receiving(k, Staged));
            HonestRun(e, source, steps) && VerifyingRun(e, |source|, k, steps) && Run(e, |source|, steps) == Partial(source, k)
  {
    var e := Partial(source, k).(part := Some(SyncedFile(source[..k])), op := Receiving(k, Staged));
    var rest := source[k..];
    assert source[..k] + rest == source;
    assert WriteAt(e.part.value, k, rest) == File(source, k, |source|, true);
    var e1 := Next(e, |source|, UploadWrites(rest));
    First(e1, source, k, GivesUp(false), []);
    First(e, source, k, UploadWrites(rest), [GivesUp(false)]);
    steps := [UploadWrites(rest)] + [GivesUp(false)];
  }

  lemma CommitsTheStart(source: Bytes, k: nat, rest: seq<Step>) returns (steps: seq<Step>)
    requires k <= |source|
    requires var e := Partial(source, k).(part := Some(SyncedFile(source[..k])), op := Receiving(k, Staged));
             HonestRun(e, source, rest) && VerifyingRun(e, |source|, k, rest)
    ensures var e := Partial(source, k).(part := Some(SyncedFile(source[..k])), op := Receiving(k, Staged));
            var first := Entry(Some(NEW_FILE), None, Progress(Transferring, 0), Receiving(0, Staged), NoJob);
            HonestRun(first, source, steps) && VerifyingRun(first, |source|, k, steps)
            && Run(first, |source|, steps) == Run(e, |source|, rest)
  {
    var first := Entry(Some(NEW_FILE), None, Progress(Transferring, 0), Receiving(0, Staged), NoJob);
    var begin := source[..k];
    assert source[0..k] == begin && WriteAt(NEW_FILE, 0, begin) == File(begin, 0, k, false);
    var written := Next(first, |source|, UploadWrites(begin));
    var synced := Next(written, |source|, UploadSyncs);
    First(synced, source, k, UploadPersists(false), rest);
    First(written, source, k, UploadSyncs, [UploadPersists(false)] + rest);
    First(first, source, k, UploadWrites(begin), [UploadSyncs] + ([UploadPersists(false)] + rest));
    steps := [UploadWrites(begin)] + ([UploadSyncs] + ([UploadPersists(false)] + rest));
  }

  /** An honest upload that commits `k` bytes, writes all of them and loses the connection. */
  lemma PartialUpload(source: Bytes, k: nat) returns (steps: seq<Step>)
    requires k <= |source|
    ensures HonestRun(FRESH, source, steps) && VerifyingRun(FRESH, |source|, k, steps)
    ensures Run(FRESH, |source|, steps) == Partial(source, k)
  {
    var last := LosesTheRest(source, k);
    var rest := CommitsTheStart(source, k, last);
    var ready := FRESH.(op := Ready(0));
    var started := FRESH.(part := Some(NEW_FILE), op := Opened(0, Staged));
    var cut := started.(op := Cut(0, Staged));
    assert Truncate(NEW_FILE, 0) == NEW_FILE;
    First(cut, source, k, UploadMarks, rest);
    First(started, source, k, UploadCuts, [UploadMarks] + rest);
    First(ready, source, k, UploadOpens, [UploadCuts] + ([UploadMarks] + rest));
    First(FRESH, source, k, UploadReads(0), [UploadOpens] + ([UploadCuts] + ([UploadMarks] + rest)));
    steps := [UploadReads(0)] + ([UploadOpens] + ([UploadCuts] + ([UploadMarks] + rest)));
  }

  lemma PartialCommitIsHonest(source: Bytes, k: nat)
    requires k <= |source|
    ensures HonestRun(Partial(source, k), source, CommitSteps(false))
    ensures VerifyingRun(Partial(source, k), |source|, k, CommitSteps(false))
  {
    var e := Partial(source, k);
    var checked := Next(e, |source|, VerifyStarts(true));
    First(Next(checked, |source|, Publishes(false)), source, k, Records(false), []);
    First(checked, source, k, Publishes(false), [Records(false)]);
    First(e, source, k, VerifyStarts(true), [Publishes(false)] + [Records(false)]);
    assert CommitSteps(false) == [VerifyStarts(true)] + ([Publishes(false)] + [Records(false)]);
  }

  /** An undisturbed verification that accepts the staged file publishes and records it. */
  lemma StagedCommit(e: Entry, size: nat)
    requires Free(e) && e.part.Some? && |e.part.value.data| == size && e.target.None?
    ensures Run(e, size, CommitSteps(false))
            == e.(target := Some(e.part.value.(named := true)), part := None, progress := Progress(Completed, size))
  {
    CommitUnrolled(e, size);
    var checked := Next(e, size, VerifyStarts(true));
    assert checked == e.(op := Verifying(Checked(true)));
    assert Next(checked, size, Publishes(false))
           == e.(target := Some(e.part.value.(named := true)), part := None, op := Verifying(Published));
  }

  lemma CrashToCommitted(source: Bytes, k: nat)
    requires k <= |source|
    ensures CrashOf(Some(File(source, k, |source|, true)), Some(SyncedFile(source[..k])))
  {
    assert source[..k][..k] == source[..k];
  }

  /** The same file verified and recorded. */
  function Lossy(source: Bytes, k: nat): Entry {
    Entry(None, Some(File(source, k, |source|, true)), Progress(Completed, |source|), NoOperation, NoJob)
  }

  /** A crash leaves only what was committed. */
  lemma LossyLoses(source: Bytes, k: nat)
    requires k < |source|
    ensures var crash := Crashes(None, Some(SyncedFile(source[..k])));
            Next(Lossy(source, k), |source|, crash).target == Some(SyncedFile(source[..k])) && !CrashProof(Lossy(source, k), source)
  {
    CrashToCommitted(source, k);
  }

  /**
   The server does not wait for the commit: for every committed length short of the whole
   file there is an honest upload whose file verifies and completes, and of which a crash
   leaves only the committed bytes.
   */
  lemma UnsyncedUploadCanBeLost(source: Bytes, k: nat) returns (steps: seq<Step>)
    requires k < |source|
    ensures HonestRun(FRESH, source, steps) && VerifyingRun(FRESH, |source|, k, steps)
    ensures var last := Run(FRESH, |source|, steps);
            && last.progress == Progress(Completed, |source|) && last.target.Some? && last.target.value.data == source
            && Next(last, |source|, Crashes(None, Some(SyncedFile(source[..k])))).target == Some(SyncedFile(source[..k]))
            && !CrashProof(last, source)
  {
    var upload := PartialUpload(source, k);
    PartialCommitIsHonest(source, k);
    Concat(FRESH, source, upload, CommitSteps(false));
    VerifyingConcat(FRESH, |source|, k, upload, CommitSteps(false));
    steps := upload + CommitSteps(false);
    StagedCommit(Partial(source, k), |source|);
    assert Run(FRESH, |source|, steps) == Lossy(source, k);
    LossyLoses(source, k);
  }

  /** An honest run from the start that verifies staged files at committed offset `k` only. */
  ghost predicate VerifiedRun(source: Bytes, k: nat, steps: seq<Step>) {
    HonestRun(FRESH, source, steps) && VerifyingRun(FRESH, |source|, k, steps)
  }

  /**
   Exactly when is a published file safe from crashes?  When it was verified at its full
   committed length: for any smaller committed length some honest run loses it.
   */
  lemma DurableIffFullyCommitted(source: Bytes, k: nat)
    requires k <= |source|
    ensures (forall steps :: VerifiedRun(source, k, steps) ==> CrashProof(Run(FRESH, |source|, steps), source))
            <==> k == |source|
  {
    if k == |source| {
      forall steps | VerifiedRun(source, k, steps)
        ensures CrashProof(Run(FRESH, |source|, steps), source)
      {
        FreshIsOk(source);
        FullyCommittedRunIsDurable(FRESH, source, steps);
        SyncedIsCrashProof(Run(FRESH, |source|, steps), source);
      }
    } else {
      var steps := UnsyncedUploadCanBeLost(source, k);
      assert VerifiedRun(source, k, steps);
    }
  }

  // ---------------------------------------------------------------------------
  // Recovery of an interrupted commit
  // ---------------------------------------------------------------------------

  predicate Free(e: Entry) { e.op.NoOperation? && e.job.NoJob? }

  predicate Committed(e: Entry, source: Bytes) {
    e.target == Some(SyncedFile(source)) && e.part.None? && e.progress == Progress(Completed, |source|)
  }

  lemma {:induction false} RunPrefix(e: Entry, size: nat, steps: seq<Step>, k: nat)
    requires k < |steps|
    ensures Run(e, size, steps[..k + 1]) == Next(Run(e, size, steps[..k]), size, steps[k])
    decreases k
  {
    if k == 0 {
      assert steps[..1][1..] == [];
    } else {
      assert steps[..k + 1][1..] == steps[1..][..k] && steps[..k][1..] == steps[1..][..k - 1];
      RunPrefix(Next(e, size, steps[0]), size, steps[1..], k - 1);
    }
  }

  /** Where a commit may be when it is cut off: staged, published, or recorded. */
  predicate Underway(e: Entry, source: Bytes) {
    || (e.part == Some(SyncedFile(source)) && e.target.None?)
    || (e.part.None? && e.target == Some(SyncedFile(source)))
  }

  /** The entry after `k` operations of a commit that started with a staged, synced file. */
  predicate CommitAt(e: Entry, source: Bytes, background: bool, k: nat) {
    var staged := e.part == Some(SyncedFile(source)) && e.target.None?;
    var published := e.part.None? && e.target == Some(SyncedFile(source));
    if background then
      match k
      case 0 => Free(e) && staged
      case 1 => e.op.NoOperation? && e.job.Starting? && staged
      case 2 => e.job == Running(Checked(true)) && staged
      case 3 => e.job == Running(Published) && published
      case _ => published && e.progress == Progress(Completed, |source|)
    else
      match k
      case 0 => Free(e) && staged
      case 1 => e.op == Verifying(Checked(true)) && staged
      case 2 => e.op == Verifying(Published) && published
      case _ => published && e.progress == Progress(Completed, |source|)
  }

  lemma CommitAdvances(e: Entry, source: Bytes, background: bool, k: nat)
    requires k < |CommitSteps(background)| && CommitAt(e, source, background, k)
    ensures CommitAt(Next(e, |source|, CommitSteps(background)[k]), source, background, k + 1)
  {
  }

  lemma {:induction false} CommitReaches(e: Entry, source: Bytes, background: bool, k: nat)
    requires CommitAt(e, source, background, 0) && k <= |CommitSteps(background)|
    ensures CommitAt(Run(e, |source|, CommitSteps(background)[..k]), source, background, k)
  {
    if k > 0 {
      CommitReaches(e, source, background, k - 1);
      RunPrefix(e, |source|, CommitSteps(background), k - 1);
      CommitAdvances(Run(e, |source|, CommitSteps(background)[..k - 1]), source, background, k - 1);
    }
  }

  lemma CommitStaysUnderway(e: Entry, source: Bytes, background: bool, k: nat)
    requires Free(e) && e.part == Some(SyncedFile(source)) && e.target.None? && k <= |CommitSteps(background)|
    ensures var e1 := Run(e, |source|, CommitSteps(background)[..k]);
            && Underway(e1, source)
            && (k == |CommitSteps(background)| ==> Committed(e1, source))
  {
    CommitReaches(e, source, background, k);
  }

  lemma CrashKeepsUnderway(e: Entry, source: Bytes, part: Option<File>, target: Option<File>)
    requires Underway(e, source) && CrashOf(e.part, part) && CrashOf(e.target, target)
    ensures Underway(Next(e, |source|, Crashes(part, target)), source)
  {
    if e.part.Some? && part.Some? {
      assert part.value.data == part.value.data[..|source|] == source[..|source|] == source;
    }
    if e.target.Some? {
      assert target.value.data == target.value.data[..|source|] == source[..|source|] == source;
    }
  }

  lemma ReplayCommits(e: Entry, source: Bytes)
    requires Free(e) && Underway(e, source)
    ensures Committed(Run(e, |source|, CommitSteps(false)), source)
  {
    CommitUnrolled(e, |source|);
  }

  /**
   Cut the commit of a staged, synced file off after any of its file operations, crash,
   and verify again: the target holds the staged bytes, the part is gone, and the entry is
   completed.
   */
  lemma InterruptedCommitRecovers(e: Entry, source: Bytes, background: bool, k: nat, part: Option<File>, target: Option<File>)
    requires Free(e) && e.part == Some(SyncedFile(source)) && e.target.None?
    requires k <= |CommitSteps(background)|
    requires var e1 := Run(e, |source|, CommitSteps(background)[..k]);
             CrashOf(e1.part, part) && CrashOf(e1.target, target)
    ensures var e1 := Run(e, |source|, CommitSteps(background)[..k]);
            Committed(Run(Next(e1, |source|, Crashes(part, target)), |source|, CommitSteps(false)), source)
  {
    CommitStaysUnderway(e, source, background, k);
    var e1 := Run(e, |source|, CommitSteps(background)[..k]);
    CrashKeepsUnderway(e1, source, part, target);
    ReplayCommits(Next(e1, |source|, Crashes(part, target)), source);
  }

  lemma PublishedRecovers(e: Entry, source: Bytes)
    requires Free(e) && e.target == Some(SyncedFile(source)) && e.part.None?
    ensures Committed(Run(e, |source|, CommitSteps(false)), source)
  {
    ReplayCommits(e, source);
  }

  /** Published, and a part file there as well: a verification inside a request can at most have checked the part. */
  predicate Blocked(e: Entry) {
    && e.target.Some? && e.part.Some? && !e.progress.state.Completed?
    && (e.op.NoOperation? || e.op == Verifying(Checked(true)))
  }

  lemma StaysBlocked(e: Entry, size: nat, s: Step)
    requires Blocked(e) && (s == VerifyStarts(true) || s == Publishes(false) || s == Records(false))
    ensures Blocked(Next(e, size, s))
  {
  }

  lemma PartBlocksRecovery(e: Entry, size: nat)
    requires Blocked(e)
    ensures Blocked(Run(e, size, CommitSteps(false)))
  {
    CommitUnrolled(e, size);
    var e1 := Next(e, size, VerifyStarts(true));
    StaysBlocked(e, size, VerifyStarts(true));
    StaysBlocked(e1, size, Publishes(false));
    StaysBlocked(Next(e1, size, Publishes(false)), size, Records(false));
  }

  /**
   Once the file is published, verifying again completes the entry exactly when no part file
   is there, and then everything is as it should be: an upload request that comes in between
   creates an empty one and blocks it.
   */
  lemma PublishedRecoversIffNoPart(e: Entry, source: Bytes)
    requires Free(e) && e.target == Some(SyncedFile(source)) && !e.progress.state.Completed?
    ensures var last := Run(e, |source|, CommitSteps(false));
            && (last.progress.state.Completed? <==> e.part.None?)
            && (Committed(last, source) <==> e.part.None?)
    ensures e.part.None? && source != [] && e.progress.offset == |source| ==>
              Next(Next(e, |source|, UploadReads(|source|)), |source|, UploadOpens) == e.(part := Some(NEW_FILE))
  {
    if e.part.None? {
      PublishedRecovers(e, source);
    } else {
      PartBlocksRecovery(e, |source|);
    }
  }
}
