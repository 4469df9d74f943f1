/**
 Resuming an upload: from any state a run can leave a free, unpublished file in, the phone
 sends the rest of it from the committed offset.  When does that complete the file, and
 when can nothing complete it any more?
 */
module Resume {
  import opened Optional
  import opened Entries
  import opened Upload

  function Joined(chunks: seq<Bytes>): Bytes {
    if chunks == [] then [] else chunks[0] + Joined(chunks[1..])
  }

  /** The body in frames of any size. */
  function Frames(chunks: seq<Bytes>): seq<Step> {
    if chunks == [] then [] else [UploadWrites(chunks[0])] + Frames(chunks[1..])
  }

  /** The upload has its part open and has received the source up to `received`. */
  predicate Got(e: Entry, source: Bytes, received: nat) {
    && received <= |source| && e.op == Receiving(received, Staged)
    && e.part.Some? && e.part.value.data == source[..received]
  }

  lemma WritesOne(e: Entry, source: Bytes, received: nat, chunk: Bytes)
    requires Got(e, source, received) && received + |chunk| <= |source|
    requires chunk == source[received..received + |chunk|]
    ensures Honest(e, source, UploadWrites(chunk))
    ensures var e1 := Next(e, |source|, UploadWrites(chunk));
            Got(e1, source, received + |chunk|) && e1.target == e.target && e1.job == e.job && e1.progress == e.progress
  {
    assert source[..received] + chunk == source[..received + |chunk|];
  }

  lemma {:induction false} WritesAll(e: Entry, source: Bytes, received: nat, chunks: seq<Bytes>)
    requires Got(e, source, received) && Joined(chunks) == source[received..]
    ensures HonestRun(e, source, Frames(chunks))
    ensures var e1 := Run(e, |source|, Frames(chunks));
            Got(e1, source, |source|) && e1.target == e.target && e1.job == e.job && e1.progress == e.progress
    decreases |chunks|
  {
    if chunks != [] {
      var chunk, rest := chunks[0], Frames(chunks[1..]);
      var next := received + |chunk|;
      assert |Joined(chunks)| == |source| - received;
      assert chunk == Joined(chunks)[..|chunk|] == source[received..next];
      assert Joined(chunks[1..]) == Joined(chunks)[|chunk|..] == source[next..];
      WritesOne(e, source, received, chunk);
      WritesAll(Next(e, |source|, UploadWrites(chunk)), source, next, chunks[1..]);
      Then(e, source, UploadWrites(chunk), rest);
      assert ([UploadWrites(chunk)] + rest)[1..] == rest;
    }
  }

  function Opening(k: nat): seq<Step> { [UploadReads(k), UploadOpens, UploadCuts, UploadMarks] }

  const CLOSING: seq<Step> := [UploadSyncs, UploadPersists(true)]

  /** A verification, inside its request or in the background until its result is collected. */
  function Verification(background: bool): seq<Step> {
    if background then CommitSteps(true) + [JobCollected] else CommitSteps(false)
  }

  /** One whole upload request from offset `k`, and the verification after it. */
  function Sends(k: nat, chunks: seq<Bytes>, background: bool): seq<Step> {
    Opening(k) + Frames(chunks) + CLOSING + Verification(background)
  }

  lemma OpeningUnrolled(e: Entry, source: Bytes, k: nat)
    ensures var e1 := Next(e, |source|, UploadReads(k));
            var e2 := Next(e1, |source|, UploadOpens);
            var e3 := Next(e2, |source|, UploadCuts);
            Run(e, |source|, Opening(k)) == Next(e3, |source|, UploadMarks)
    ensures HonestRun(e, source, Opening(k))
  {
    var e1 := Next(e, |source|, UploadReads(k));
    var e2 := Next(e1, |source|, UploadOpens);
    var rest := [UploadCuts, UploadMarks];
    assert rest[1..] == [UploadMarks] && rest[1..][1..] == [];
    assert HonestRun(e2, source, rest) && Run(e2, |source|, rest) == Next(Next(e2, |source|, UploadCuts), |source|, UploadMarks);
    assert Opening(k)[1..] == [UploadOpens] + rest && ([UploadOpens] + rest)[1..] == rest;
    Then(e1, source, UploadOpens, rest);
  }

  lemma ClosingUnrolled(e: Entry, source: Bytes)
    ensures Run(e, |source|, CLOSING) == Next(Next(e, |source|, UploadSyncs), |source|, UploadPersists(true))
    ensures HonestRun(e, source, CLOSING)
  {
    assert CLOSING[1..] == [UploadPersists(true)] && CLOSING[1..][1..] == [];
  }

  /** A part that reaches the committed offset is cut to it, and is then the source up to there. */
  lemma Opens(e: Entry, source: Bytes)
    requires Inv(e, source) && Free(e) && e.target.None? && Resumable(e)
    ensures var e1 := Run(e, |source|, Opening(e.progress.offset));
            && Got(e1, source, e.progress.offset) && e1.target.None? && e1.job.NoJob?
            && e1.progress == Progress(Transferring, e.progress.offset)
  {
    OpeningUnrolled(e, source, e.progress.offset);
  }

  lemma Closes(e: Entry, source: Bytes)
    requires Got(e, source, |source|)
    ensures Run(e, |source|, CLOSING)
            == e.(part := Some(SyncedFile(source)), progress := Progress(Transferring, |source|), op := NoOperation)
  {
    ClosingUnrolled(e, source);
    assert source[..|source|] == source;
  }

  /** The committed bytes are there. */
  predicate Resumable(e: Entry) {
    e.progress.offset == 0 || (e.part.Some? && e.progress.offset <= |e.part.value.data|)
  }

  lemma Onward(e: Entry, source: Bytes, s: Step, rest: seq<Step>)
    requires Honest(e, source, s) && HonestRun(Next(e, |source|, s), source, rest)
    ensures HonestRun(e, source, [s] + rest) && Run(e, |source|, [s] + rest) == Run(Next(e, |source|, s), |source|, rest)
  {
    assert ([s] + rest)[1..] == rest;
  }

  lemma RecordsAndCollects(e: Entry, source: Bytes)
    requires e.op.NoOperation? && e.job == Running(Published)
    ensures HonestRun(e, source, [Records(true)] + [JobCollected])
    ensures Run(e, |source|, [Records(true)] + [JobCollected]) == e.(progress := Progress(Completed, |source|), job := NoJob)
  {
    var e1 := Next(e, |source|, Records(true));
    assert [JobCollected][1..] == [];
    assert HonestRun(e1, source, [JobCollected]);
    Onward(e, source, Records(true), [JobCollected]);
  }

  lemma PublishesOn(e: Entry, source: Bytes)
    requires e.op.NoOperation? && e.job == Running(Checked(true)) && e.part == Some(SyncedFile(source)) && e.target.None?
    ensures var rest := [Publishes(true)] + ([Records(true)] + [JobCollected]);
            && HonestRun(e, source, rest)
            && Run(e, |source|, rest)
               == e.(target := Some(SyncedFile(source)), part := None, progress := Progress(Completed, |source|), job := NoJob)
  {
    RecordsAndCollects(Next(e, |source|, Publishes(true)), source);
    Onward(e, source, Publishes(true), [Records(true)] + [JobCollected]);
  }

  lemma BackgroundUnrolled(e: Entry, source: Bytes)
    requires Free(e) && e.part == Some(SyncedFile(source)) && e.target.None?
    ensures HonestRun(e, source, Verification(true))
    ensures Run(e, |source|, Verification(true))
            == e.(target := Some(SyncedFile(source)), part := None, progress := Progress(Completed, |source|))
  {
    var rest := [Publishes(true)] + ([Records(true)] + [JobCollected]);
    var starting := Next(e, |source|, JobStarts);
    PublishesOn(Next(starting, |source|, JobChecks(true)), source);
    Onward(starting, source, JobChecks(true), rest);
    Onward(e, source, JobStarts, [JobChecks(true)] + rest);
    assert Verification(true) == [JobStarts] + ([JobChecks(true)] + rest);
  }

  /** Verified undisturbed, a staged and synced file is published, recorded and free again. */
  lemma Verifies(e: Entry, source: Bytes, background: bool)
    requires Free(e) && e.part == Some(SyncedFile(source)) && e.target.None?
    ensures HonestRun(e, source, Verification(background))
    ensures Run(e, |source|, Verification(background))
            == e.(target := Some(SyncedFile(source)), part := None, progress := Progress(Completed, |source|))
  {
    if background {
      BackgroundUnrolled(e, source);
    } else {
      StagedCommit(e, |source|);
      var s := CommitSteps(false);
      assert s[1..] == [Publishes(false), Records(false)] && s[1..][1..] == [Records(false)] && s[1..][1..][1..] == [];
    }
  }

  lemma ResumeCompletes(e: Entry, source: Bytes, chunks: seq<Bytes>, background: bool)
    requires Inv(e, source) && Free(e) && e.target.None? && Resumable(e)
    requires Joined(chunks) == source[e.progress.offset..]
    ensures HonestRun(e, source, Sends(e.progress.offset, chunks, background))
    ensures Run(e, |source|, Sends(e.progress.offset, chunks, background))
            == Entry(None, Some(SyncedFile(source)), Progress(Completed, |source|), NoOperation, NoJob)
  {
    var k := e.progress.offset;
    Opens(e, source);
    OpeningUnrolled(e, source, k);
    var e1 := Run(e, |source|, Opening(k));
    WritesAll(e1, source, k, chunks);
    Concat(e, source, Opening(k), Frames(chunks));
    var e2 := Run(e1, |source|, Frames(chunks));
    Closes(e2, source);
    ClosingUnrolled(e2, source);
    Concat(e, source, Opening(k) + Frames(chunks), CLOSING);
    var e3 := Run(e2, |source|, CLOSING);
    Verifies(e3, source, background);
    Concat(e, source, Opening(k) + Frames(chunks) + CLOSING, Verification(background));
  }

  /** The committed bytes are gone: no file here is, or can become by a crash, as long as the committed offset. */
  predicate Lost(e: Entry, size: nat) {
    && 0 < e.progress.offset <= size && !e.progress.state.Completed? && e.target.None?
    && (e.part.Some? ==> |e.part.value.data| <= e.part.value.reach < e.progress.offset)
    && (e.op.NoOperation? || e.op == Ready(e.progress.offset) || e.op.Failing? || e.op.FailMarked?)
    && !e.job.Running?
  }

  lemma LostStep(e: Entry, size: nat, s: Step)
    requires Lost(e, size)
    ensures Lost(Next(e, size, s), size)
  {
  }

  /** No request, verification or crash ever brings a lost file to completion. */
  lemma {:induction false} LostForGood(e: Entry, size: nat, steps: seq<Step>)
    requires Lost(e, size)
    ensures Lost(Run(e, size, steps), size)
    decreases |steps|
  {
    if steps != [] {
      LostStep(e, size, steps[0]);
      LostForGood(Next(e, size, steps[0]), size, steps[1..]);
    }
  }

  ghost predicate CanComplete(e: Entry, source: Bytes) {
    exists steps :: HonestRun(e, source, steps) && Run(e, |source|, steps).progress.state.Completed?
  }

  lemma OneChunk(b: Bytes)
    ensures Joined([b]) == b
  {
    assert [b][1..] == [];
  }

  /**
   From every reachable state of a free, unpublished file, sending the rest from the
   committed offset in frames of any size, and verifying it, publishes the whole source
   exactly when the committed bytes are still there; otherwise no run at all completes it.
   */
  lemma ResumeCompletesIff(e: Entry, source: Bytes, chunks: seq<Bytes>, background: bool)
    requires Inv(e, source) && Free(e) && e.target.None? && Joined(chunks) == source[e.progress.offset..]
    ensures var last := Run(e, |source|, Sends(e.progress.offset, chunks, background));
            && (Committed(last, source) <==> Resumable(e)) && (Resumable(e) ==> Free(last))
            && (last.progress.state.Completed? <==> Resumable(e))
            && (CanComplete(e, source) <==> Resumable(e))
    ensures !e.progress.state.Failed? ==> Resumable(e)
  {
    var sends := Sends(e.progress.offset, chunks, background);
    if Resumable(e) {
      ResumeCompletes(e, source, chunks, background);
      assert HonestRun(e, source, sends) && Run(e, |source|, sends).progress.state.Completed?;
    } else {
      forall steps
        ensures Lost(Run(e, |source|, steps), |source|)
      {
        LostForGood(e, |source|, steps);
      }
      assert Lost(Run(e, |source|, sends), |source|);
    }
  }

  // ---------------------------------------------------------------------------
  // Failure reports
  // ---------------------------------------------------------------------------

  const REPORT: seq<Step> := [FailureStarts, FailureMarks, FailureRemoves]

  /** A report marks an unfinished file failed, keeps its committed offset and removes its part; a completed one stays. */
  lemma ReportedFailure(e: Entry, size: nat)
    requires Free(e)
    ensures Run(e, size, REPORT)
            == if e.progress.state.Completed? then e else e.(part := None, progress := Progress(Failed, e.progress.offset))
  {
    assert REPORT[1..] == [FailureMarks, FailureRemoves] && REPORT[1..][1..] == [FailureRemoves] && REPORT[1..][1..][1..] == [];
  }

  /** A reported file can still be completed exactly when nothing of it had been committed. */
  lemma ReportIsFinalIff(e: Entry, source: Bytes)
    requires Inv(e, source) && Free(e) && e.target.None?
    ensures CanComplete(Run(e, |source|, REPORT), source) <==> e.progress.offset == 0
  {
    ReportedFailure(e, |source|);
    var failed := Run(e, |source|, REPORT);
    var rest := source[e.progress.offset..];
    OneChunk(rest);
    ResumeCompletesIff(failed, source, [rest], false);
  }
}
