/**
 The upload request and the upload commit as the code runs them: loops over the body and
 file operations one after the other.  Each file operation is a step of module `Upload`,
 so whatever is proved there about every run holds for these, cut off at any point.
 */
module Receiving {
  import opened Optional
  import opened Entries
  import opened Upload

  /** What the connection delivers next, and what the clock and the ticket say then. */
  datatype Frame =
    | Data(bytes: Bytes, ticketActive: bool, persistDue: bool)
    | Trailers(ticketActive: bool)
    | Broken

  datatype Failure =
    | InvalidOffset | OffsetMismatch | TransferCanceled | BodyReadFailed | SizeMismatch | IntegrityFailed
    | TargetUnavailable | TargetExists

  datatype Received = Received(committed: nat, completed: bool) | Rejected(why: Failure)

  function Body(frames: seq<Frame>): Bytes {
    if frames == [] then []
    else Body(frames[..|frames| - 1]) + (if frames[|frames| - 1].Data? then frames[|frames| - 1].bytes else [])
  }

  /** The connection stays up and the ticket active until the body is over. */
  predicate Undisturbed(frames: seq<Frame>) {
    forall f <- frames :: !f.Broken? && f.ticketActive
  }

  lemma {:induction false} BodyGrows(frames: seq<Frame>, i: nat)
    requires i <= |frames|
    ensures |Body(frames[..i])| <= |Body(frames)|
    decreases |frames|
  {
    if i < |frames| {
      BodyGrows(frames[..|frames| - 1], i);
      assert frames[..|frames| - 1][..i] == frames[..i];
    } else {
      assert frames[..i] == frames;
    }
  }

  lemma {:induction false} RunAppend(e: Entry, size: nat, steps: seq<Step>, s: Step)
    ensures Run(e, size, steps + [s]) == Next(Run(e, size, steps), size, s)
    decreases |steps|
  {
    if steps == [] {
      assert ([] + [s])[1..] == [];
    } else {
      assert (steps + [s])[1..] == steps[1..] + [s];
      RunAppend(Next(e, size, steps[0]), size, steps[1..], s);
    }
  }

  class Staging {
    const size: nat
    var entry: Entry
    ghost const initial: Entry
    ghost var steps: seq<Step>

    /** The files are exactly what the steps taken so far made of them. */
    ghost predicate Valid()
      reads this
    {
      entry == Run(initial, size, steps)
    }

    constructor (e: Entry, size: nat)
      ensures Valid() && entry == e && initial == e && this.size == size && steps == []
    {
      entry, initial, this.size, steps := e, e, size, [];
    }

    /** One file operation. */
    method Do(s: Step)
      requires Valid()
      modifies this
      ensures Valid() && entry == Next(old(entry), size, s) && steps == old(steps) + [s]
    {
      RunAppend(initial, size, steps, s);
      entry := Next(entry, size, s);
      steps := steps + [s];
    }

    /** The part file is being received: it holds exactly these bytes. */
    ghost predicate Holds(bytes: Bytes)
      reads this
    {
      Valid() && entry.op == Operation.Receiving(|bytes|, Staged) && entry.part.Some? && entry.part.value.data == bytes
    }

    /** Opens or creates the part, cuts it back to the offset and marks the entry. */
    method OpenPart(offset: nat) returns (ok: bool)
      requires Valid() && entry.op.NoOperation? && entry.job.NoJob?
      requires offset == entry.progress.offset <= size && !entry.progress.state.Completed?
      modifies this
      ensures Valid() && old(steps) <= steps && entry.target == old(entry).target
      ensures var kept := if old(entry).part.Some? then old(entry).part.value.data else [];
              && ok == (offset <= |kept|)
              && if ok then Holds(kept[..offset]) else entry.op.NoOperation?
    {
      Do(UploadReads(offset));
      Do(UploadOpens);
      if entry.op.NoOperation? { return false; }
      Do(UploadCuts);
      Do(UploadMarks);
      return true;
    }

    /** Writes one frame and, when it is due, syncs and commits what was received. */
    method StoreFrame(frame: Frame, received: nat, ghost sofar: Bytes) returns (why: Option<Failure>)
      requires Holds(sofar) && received == |sofar| <= size
      modifies this
      ensures Valid() && old(steps) <= steps && entry.target == old(entry).target
      ensures why.Some? ==> entry.op.NoOperation?
      ensures why.None? <==> !frame.Broken? && frame.ticketActive && |sofar + Body([frame])| <= size
      ensures why.None? ==> Holds(sofar + Body([frame])) && |sofar + Body([frame])| <= size
    {
      assert Body([frame]) == (if frame.Data? then frame.bytes else []);
      if frame.Broken? || !frame.ticketActive {
        Do(GivesUp(false));
        return Some(if frame.Broken? then BodyReadFailed else TransferCanceled);
      }
      if frame.Trailers? {
        assert sofar + [] == sofar;
        return None;
      }
      if received + |frame.bytes| > size {
        Do(GivesUp(false));
        return Some(SizeMismatch);
      }
      Do(UploadWrites(frame.bytes));
      assert entry.part.value.data == sofar + frame.bytes;
      if frame.persistDue {
        Do(UploadSyncs);
        Do(UploadPersists(false));
      }
      return None;
    }

    /** The body is over: sync it and commit its length. */
    method CloseBody(received: nat, hashMatches: bool, ghost bytes: Bytes) returns (r: Received)
      requires Holds(bytes) && received == |bytes| <= size
      modifies this
      ensures Valid() && entry.op.NoOperation? && old(steps) <= steps && entry.target == old(entry).target
      ensures if received == size && !hashMatches then r == Rejected(IntegrityFailed)
              else
                && r == Received(received, false) && entry.part == Some(SyncedFile(bytes))
                && entry.progress == Progress(if received == size then Transferring else WaitingNetwork, received)
    {
      Do(UploadSyncs);
      if received == size && !hashMatches {
        Do(GivesUp(false));
        return Rejected(IntegrityFailed);
      }
      Do(UploadPersists(true));
      return Received(received, false);
    }

    /**
     Stores the body after the offset the phone resumes at.  On success the part is the
     kept prefix followed by the whole body, all of it synced, and exactly that length is
     committed.
     */
    method ReceiveFile(offset: nat, frames: seq<Frame>, hashMatches: bool) returns (r: Received)
      requires Valid() && entry.op.NoOperation? && entry.job.NoJob?
      modifies this
      ensures Valid() && entry.op.NoOperation? && old(steps) <= steps && entry.target == old(entry).target
      ensures offset > size ==> r == Rejected(InvalidOffset)
      ensures offset <= size && offset != old(entry).progress.offset ==> r == Rejected(OffsetMismatch)
      ensures r.Received? && r.completed <==> offset == old(entry).progress.offset <= size && old(entry).progress.state.Completed?
      ensures r.Received? && r.completed ==> r.committed == size && entry == old(entry)
      ensures r.Received? && !r.completed ==>
                var kept := if old(entry).part.Some? then old(entry).part.value.data else [];
                && offset <= |kept|
                && entry.part == Some(SyncedFile(kept[..offset] + Body(frames)))
                && r.committed == offset + |Body(frames)| <= size
                && entry.progress == Progress(if r.committed == size then Transferring else WaitingNetwork, r.committed)
      ensures var kept := if old(entry).part.Some? then old(entry).part.value.data else [];
              var end := offset + |Body(frames)|;
              (&& offset == old(entry).progress.offset <= |kept| && end <= size && Undisturbed(frames)
               && (end == size ==> hashMatches)) ==> r.Received?
    {
      if offset > size { return Rejected(InvalidOffset); }
      if offset != entry.progress.offset { return Rejected(OffsetMismatch); }
      if entry.progress.state.Completed? { return Received(size, true); }
      ghost var kept := if entry.part.Some? then entry.part.value.data else [];
      var ok := OpenPart(offset);
      if !ok { return Rejected(OffsetMismatch); }
      var received := offset;
      assert kept[..offset] + Body([]) == kept[..offset];
      for i := 0 to |frames|
        invariant old(steps) <= steps && entry.target == old(entry).target
        invariant received == offset + |Body(frames[..i])| <= size
        invariant Holds(kept[..offset] + Body(frames[..i]))
      {
        ghost var sofar := kept[..offset] + Body(frames[..i]);
        var why := StoreFrame(frames[i], received, sofar);
        assert frames[..i + 1][..i] == frames[..i];
        assert sofar + Body([frames[i]]) == kept[..offset] + Body(frames[..i + 1]);
        BodyGrows(frames, i + 1);
        if why.Some? { return Rejected(why.value); }
        received := received + if frames[i].Data? then |frames[i].bytes| else 0;
      }
      assert frames[..|frames|] == frames;
      r := CloseBody(received, hashMatches, kept[..offset] + Body(frames));
    }

    /**
     Publishes the staged file once its length and hash are right, or finds the target
     already published by an earlier attempt.
     */
    method CommitUploadedFile(accepts: bool, ticketActive: bool) returns (r: Option<Failure>)
      requires Valid() && entry.op.NoOperation?
      modifies this
      ensures Valid() && entry.op.NoOperation? && old(steps) <= steps
      ensures var e := old(entry);
              var path := Candidate(e);
              if path.None? then r == Some(TargetUnavailable) && entry == e
              else if |path.value.data| != size || !accepts then r == Some(IntegrityFailed) && entry == e
              else if !ticketActive then r == Some(TransferCanceled) && entry == e
              else if e.part.Some? && e.target.Some? then r == Some(TargetExists) && entry == e
              else
                && r.None? && entry.progress == Progress(Completed, size) && entry.part.None?
                && entry.target.Some? && entry.target.value.data == path.value.data
    {
      var staged := entry.part.Some?;
      var path := if staged then entry.part else entry.target;
      if path.None? { return Some(TargetUnavailable); }
      if |path.value.data| != size || !accepts { return Some(IntegrityFailed); }
      Do(VerifyStarts(accepts));
      if !ticketActive {
        Do(GivesUp(false));
        return Some(TransferCanceled);
      }
      if staged && entry.target.Some? {
        Do(GivesUp(false));
        return Some(TargetExists);
      }
      Do(Publishes(false));
      Do(Records(false));
      return None;
    }
  }
}
