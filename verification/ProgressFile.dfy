/**
 The progress file: one fixed record per entry, written in any order into a file that
 starts empty, where a record that was never written reads as a pending entry.
 */
module ProgressFile {
  import opened Optional
  import opened Entries
  import opened Bytes

  const RECORD: nat := 16
  const VERSION: byte := 1

  const UNTOUCHED := Progress(Pending, 0)

  function Code(s: EntryState): byte {
    match s
    case Pending => 0
    case Transferring => 1
    case WaitingNetwork => 2
    case NeedsReselection => 3
    case Completed => 4
    case Failed => 5
    case Canceled => 6
  }

  function StateOf(code: byte): Option<EntryState> {
    match code
    case 0 => Some(Pending)
    case 1 => Some(Transferring)
    case 2 => Some(WaitingNetwork)
    case 3 => Some(NeedsReselection)
    case 4 => Some(Completed)
    case 5 => Some(Failed)
    case 6 => Some(Canceled)
    case _ => None
  }

  function Zeros(n: nat): (r: seq<byte>)
    ensures |r| == n
  {
    seq(n, _ => 0)
  }

  function Encode(p: Progress): (r: seq<byte>)
    ensures |r| == RECORD
  {
    [VERSION, Code(p.state)] + Zeros(6) + ToLittleEndian(p.offset, 8)
  }

  function Decode(record: seq<byte>): Option<Progress>
    requires |record| == RECORD
  {
    if record == Zeros(RECORD) then Some(UNTOUCHED)
    else if record[0] != VERSION || record[2..8] != Zeros(6) then None
    else
      var state := StateOf(record[1]);
      if state.None? then None else Some(Progress(state.value, FromLittleEndian(record[8..16])))
  }

  /** Every state with every 64-bit offset is read back, and is never taken for an unwritten record. */
  lemma RecordRoundTrip(p: Progress)
    requires p.offset < U64
    ensures Decode(Encode(p)) == Some(p) && Encode(p) != Zeros(RECORD)
  {
    var record := Encode(p);
    assert record[0] == VERSION && Zeros(RECORD)[0] == 0;
    assert record[2..8] == Zeros(6);
    assert record[8..16] == ToLittleEndian(p.offset, 8);
    OffsetRoundTrip(p.offset);
  }

  /** The states in the order of their codes. */
  const STATES: seq<EntryState> := [Pending, Transferring, WaitingNetwork, NeedsReselection, Completed, Failed, Canceled]

  /** Version 1, the state's code, six zeros, and the offset with its least significant byte first. */
  lemma RecordLayout(p: Progress)
    requires p.offset < U64
    ensures var r := Encode(p);
            && |r| == 16 && r[0] == 1 && r[1] < 7 && STATES[r[1]] == p.state && (forall i :: 2 <= i < 8 ==> r[i] == 0)
            && p.offset == Worth(r[8], r[9], r[10], r[11]) + 0x1_0000_0000 * Worth(r[12], r[13], r[14], r[15])
  {
    var bytes := ToLittleEndian(p.offset, 8);
    OffsetRoundTrip(p.offset);
    LittleEndianValue(bytes);
    assert forall i :: 0 <= i < 8 ==> Encode(p)[8 + i] == bytes[i];
  }

  /** Sixteen zeros read as a pending entry; any other record is read exactly when version, state and padding are right. */
  lemma ReadableIff(r: seq<byte>)
    requires |r| == 16
    ensures if forall i :: 0 <= i < 16 ==> r[i] == 0 then Decode(r) == Some(Progress(Pending, 0))
            else
              && (Decode(r).Some? <==> r[0] == 1 && r[1] < 7 && forall i :: 2 <= i < 8 ==> r[i] == 0)
              && (Decode(r).Some? ==> Decode(r).value.state == STATES[r[1]])
  {
    assert r[2..8] == Zeros(6) <==> forall i :: 2 <= i < 8 ==> r[i] == 0 by {
      assert forall i :: 2 <= i < 8 ==> r[i] == r[2..8][i - 2];
    }
  }

  // ---------------------------------------------------------------------------
  // The file
  // ---------------------------------------------------------------------------

  /** Writing past the end leaves zeros in between. */
  function Padded(file: seq<byte>, at: nat): (r: seq<byte>)
    ensures |r| >= at
  {
    if |file| < at then file + Zeros(at - |file|) else file
  }

  function Patched(file: seq<byte>, at: nat, record: seq<byte>): seq<byte>
    requires at <= |file|
  {
    file[..at] + record + (if at + |record| <= |file| then file[at + |record|..] else [])
  }

  function WriteRecord(file: seq<byte>, ordinal: nat, p: Progress): seq<byte> {
    Patched(Padded(file, ordinal * RECORD), ordinal * RECORD, Encode(p))
  }

  /** `None` is the source's "incomplete" or "invalid progress record" error. */
  function ReadRecord(file: seq<byte>, ordinal: nat): Option<Progress> {
    var at := ordinal * RECORD;
    if |file| <= at then Some(UNTOUCHED)
    else if |file| < at + RECORD then None
    else Decode(file[at..at + RECORD])
  }

  lemma PaddedReads(file: seq<byte>, ordinal: nat, k: nat)
    requires |file| % RECORD == 0
    ensures |Padded(file, ordinal * RECORD)| % RECORD == 0
    ensures ReadRecord(Padded(file, ordinal * RECORD), k) == ReadRecord(file, k)
  {
    var whole := |file| / RECORD;
    if whole < ordinal {
      assert Padded(file, ordinal * RECORD) == file + Zeros((ordinal - whole) * RECORD);
      ZerosReadAsUntouched(file, ordinal - whole, whole, k);
    }
  }

  /** Zeros appended to whole records change nothing that is read. */
  lemma ZerosReadAsUntouched(file: seq<byte>, n: nat, whole: nat, k: nat)
    requires |file| == whole * RECORD
    ensures ReadRecord(file + Zeros(n * RECORD), k) == ReadRecord(file, k)
  {
    var here := k * RECORD;
    var file1 := file + Zeros(n * RECORD);
    if here + RECORD <= |file| {
      assert file1[here..here + RECORD] == file[here..here + RECORD];
    } else if here + RECORD <= |file1| {
      assert file1[here..here + RECORD] == Zeros(RECORD);
    }
  }

  lemma PatchedReads(file: seq<byte>, ordinal: nat, record: seq<byte>, k: nat)
    requires |file| % RECORD == 0 && ordinal * RECORD <= |file| && |record| == RECORD
    ensures |Patched(file, ordinal * RECORD, record)| % RECORD == 0
    ensures ReadRecord(Patched(file, ordinal * RECORD, record), k)
            == if k == ordinal then Decode(record) else ReadRecord(file, k)
  {
    var at, here := ordinal * RECORD, k * RECORD;
    var file1 := Patched(file, at, record);
    if k == ordinal {
      assert file1[at..at + RECORD] == record;
    } else if here + RECORD <= |file| {
      assert file1[here..here + RECORD] == file[here..here + RECORD];
    }
  }

  /** A write is read back, and no other record changes. */
  lemma WriteReads(file: seq<byte>, ordinal: nat, p: Progress, k: nat)
    requires |file| % RECORD == 0 && p.offset < U64
    ensures |WriteRecord(file, ordinal, p)| % RECORD == 0
    ensures ReadRecord(WriteRecord(file, ordinal, p), k) == if k == ordinal then Some(p) else ReadRecord(file, k)
  {
    RecordRoundTrip(p);
    PaddedReads(file, ordinal, k);
    PatchedReads(Padded(file, ordinal * RECORD), ordinal, Encode(p), k);
  }

  /** The file stands for a total map from ordinals to progress. */
  ghost predicate Refines(file: seq<byte>, m: map<nat, Progress>) {
    |file| % RECORD == 0 && forall k: nat :: ReadRecord(file, k) == Some(Get(m, k))
  }

  function Get(m: map<nat, Progress>, k: nat): Progress {
    if k in m then m[k] else UNTOUCHED
  }

  lemma WriteRefines(file: seq<byte>, m: map<nat, Progress>, ordinal: nat, p: Progress)
    requires Refines(file, m) && p.offset < U64
    ensures Refines(WriteRecord(file, ordinal, p), m[ordinal := p])
  {
    var file1, m1 := WriteRecord(file, ordinal, p), m[ordinal := p];
    WriteReads(file, ordinal, p, 0);
    forall k: nat
      ensures ReadRecord(file1, k) == Some(Get(m1, k))
    {
      WriteReads(file, ordinal, p, k);
    }
  }

  datatype Update = Update(ordinal: nat, progress: Progress)

  function WriteAll(file: seq<byte>, updates: seq<Update>): seq<byte>
    decreases |updates|
  {
    if updates == [] then file
    else WriteAll(WriteRecord(file, updates[0].ordinal, updates[0].progress), updates[1..])
  }

  function Updated(m: map<nat, Progress>, updates: seq<Update>): map<nat, Progress>
    decreases |updates|
  {
    if updates == [] then m else Updated(m[updates[0].ordinal := updates[0].progress], updates[1..])
  }

  /** Over any sequence of writes, in any order, the file reads as the map of the last write to each entry. */
  lemma {:induction false} EveryWriteSequenceRefines(file: seq<byte>, m: map<nat, Progress>, updates: seq<Update>)
    requires Refines(file, m) && forall u <- updates :: u.progress.offset < U64
    ensures Refines(WriteAll(file, updates), Updated(m, updates))
    decreases |updates|
  {
    if updates != [] {
      WriteRefines(file, m, updates[0].ordinal, updates[0].progress);
      EveryWriteSequenceRefines(WriteRecord(file, updates[0].ordinal, updates[0].progress),
                                m[updates[0].ordinal := updates[0].progress], updates[1..]);
    }
  }

  lemma EmptyRefines()
    ensures Refines([], map[])
  {
  }

  /** From the empty file of a new batch on: each entry reads as its last write, or as pending. */
  lemma EveryProgressFileRefines(updates: seq<Update>, k: nat)
    requires forall u <- updates :: u.progress.offset < U64
    ensures var file, m := WriteAll([], updates), Updated(map[], updates);
            Refines(file, m) && ReadRecord(file, k) == Some(if k in m then m[k] else UNTOUCHED)
  {
    EmptyRefines();
    EveryWriteSequenceRefines([], map[], updates);
  }

  // ---------------------------------------------------------------------------
  // The summary
  // ---------------------------------------------------------------------------

  function Saturate(n: nat): nat { if n < U64 then n else U64 - 1 }

  function TotalOffset(m: map<nat, Progress>, count: nat): nat {
    if count == 0 then 0 else TotalOffset(m, count - 1) + Get(m, count - 1).offset
  }

  function CountState(m: map<nat, Progress>, count: nat, s: EntryState): (r: nat)
    ensures r <= count
  {
    if count == 0 then 0 else CountState(m, count - 1, s) + if Get(m, count - 1).state == s then 1 else 0
  }

  /** Entries after the end of the file add nothing. */
  lemma {:induction false} RestIsPending(file: seq<byte>, m: map<nat, Progress>, count: nat, upto: nat)
    requires Refines(file, m) && |file| <= count * RECORD && count <= upto
    ensures TotalOffset(m, upto) == TotalOffset(m, count)
    ensures CountState(m, upto, Completed) == CountState(m, count, Completed)
    ensures CountState(m, upto, Failed) == CountState(m, count, Failed)
    decreases upto
  {
    if count < upto {
      RestIsPending(file, m, count, upto - 1);
      assert ReadRecord(file, upto - 1) == Some(UNTOUCHED);
    }
  }

  class ProgressStore {
    var file: seq<byte>

    constructor ()
      ensures file == []
    {
      file := [];
    }

    /** Pads the file up to the record and overwrites it. */
    method Put(ordinal: nat, p: Progress)
      modifies this
      ensures file == WriteRecord(old(file), ordinal, p)
    {
      var at := ordinal * RECORD;
      if |file| < at {
        file := file + Zeros(at - |file|);
      }
      file := Patched(file, at, Encode(p));
    }

    method Write(ordinal: nat, p: Progress, ghost m: map<nat, Progress>)
      requires Refines(file, m) && p.offset < U64
      modifies this
      ensures file == WriteRecord(old(file), ordinal, p) && Refines(file, m[ordinal := p])
    {
      WriteRefines(file, m, ordinal, p);
      Put(ordinal, p);
    }

    /** Streams the records and stops at the end of the file; a damaged file is refused. */
    method Summary(count: nat, ghost m: map<nat, Progress>) returns (ok: bool, bytes: nat, completed: nat, failed: nat)
      requires count < U64
      ensures Refines(file, m) ==>
                && ok && bytes == Saturate(TotalOffset(m, count))
                && completed == CountState(m, count, Completed) && failed == CountState(m, count, Failed)
      ensures !ok ==> exists k: nat :: k < count && ReadRecord(file, k).None?
    {
      ok, bytes, completed, failed := true, 0, 0, 0;
      var i := 0;
      while i < count
        invariant 0 <= i <= count && ok
        invariant Refines(file, m) ==>
                    && bytes == Saturate(TotalOffset(m, i))
                    && completed == CountState(m, i, Completed) && failed == CountState(m, i, Failed)
      {
        var at := i * RECORD;
        if |file| <= at {
          if Refines(file, m) {
            RestIsPending(file, m, i, count);
          }
          return;
        }
        assert Refines(file, m) ==> ReadRecord(file, i) == Some(Get(m, i));
        var decoded := if |file| < at + RECORD then None else Decode(file[at..at + RECORD]);
        assert decoded == ReadRecord(file, i);
        if decoded.None? { return false, 0, 0, 0; }
        var progress := decoded.value;
        bytes := if bytes + progress.offset < U64 then bytes + progress.offset else U64 - 1;
        if progress.state.Completed? {
          completed := completed + 1;
        } else if progress.state.Failed? {
          failed := failed + 1;
        }
        i := i + 1;
      }
    }
  }
}
