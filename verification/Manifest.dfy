/**
 The durable manifest: entries appended line by line with an index of line offsets, and
 read back either in sequence or through the index.  The line encoding is abstract: it is
 read back as it was written, and contains no newline.
 */
module Manifest {
  import opened Optional
  import opened Bytes
  import opened Ingest

  /** `rest` stands for the fields that are only passed through: time, media type, hash. */
  datatype Entry = Entry(ordinal: nat, id: string, path: string, directory: bool, size: nat, rest: seq<byte>)

  datatype Codec = Codec(
    encode: Entry -> seq<byte>, decode: seq<byte> -> Option<Entry>,
    valid: Entry -> bool, digest: seq<byte> -> seq<byte>)
  {
    ghost predicate Lawful() {
      forall e: Entry :: decode(encode(e)) == Some(e) && NEWLINE !in encode(e)
    }
  }

  datatype Complete = Complete(count: nat, digest: seq<byte>)

  // ---------------------------------------------------------------------------
  // What the two files hold for a sequence of entries
  // ---------------------------------------------------------------------------

  function Line(c: Codec, e: Entry): seq<byte> { c.encode(e) + [NEWLINE] }

  function Data(c: Codec, entries: seq<Entry>): seq<byte> {
    if entries == [] then [] else Data(c, entries[..|entries| - 1]) + Line(c, entries[|entries| - 1])
  }

  function Index(c: Codec, entries: seq<Entry>): (r: seq<byte>)
    ensures |r| == 8 * |entries|
  {
    if entries == [] then []
    else Index(c, entries[..|entries| - 1]) + ToLittleEndian(|Data(c, entries[..|entries| - 1])|, 8)
  }

  predicate Numbered(c: Codec, entries: seq<Entry>) {
    forall i :: 0 <= i < |entries| ==> entries[i].ordinal == i && c.valid(entries[i])
  }

  predicate DistinctIds(entries: seq<Entry>) {
    forall i, j :: 0 <= i < j < |entries| ==> entries[i].id != entries[j].id
  }

  function Files(entries: seq<Entry>): nat {
    if entries == [] then 0 else Files(entries[..|entries| - 1]) + if entries[|entries| - 1].directory then 0 else 1
  }

  function Directories(entries: seq<Entry>): nat {
    if entries == [] then 0 else Directories(entries[..|entries| - 1]) + if entries[|entries| - 1].directory then 1 else 0
  }

  function TotalSize(entries: seq<Entry>): nat {
    if entries == [] then 0 else TotalSize(entries[..|entries| - 1]) + entries[|entries| - 1].size
  }

  lemma {:induction false} CountsAddUp(entries: seq<Entry>)
    ensures Files(entries) + Directories(entries) == |entries|
  {
    if entries != [] {
      CountsAddUp(entries[..|entries| - 1]);
    }
  }

  // ---------------------------------------------------------------------------
  // The writer
  // ---------------------------------------------------------------------------

  /** How the buffered writes of one append go: all of it, or cut off somewhere. */
  datatype Io = Written | IndexFails(upto: nat) | DataFails(upto: nat)

  /** The writer's fields. */
  datatype Writer = Writer(
    nextOrdinal: nat, files: nat, directories: nat, bytes: nat, entryIds: set<string>,
    nextOffset: nat, data: seq<byte>, index: seq<byte>)

  /** The two files and the byte count are exactly those of the accepted entries. */
  ghost predicate Exact(c: Codec, w: Writer, entries: seq<Entry>) {
    && w.bytes == TotalSize(entries) && w.data == Data(c, entries) && w.index == Index(c, entries)
    && w.nextOffset == |w.data| < U64
  }

  /**
   An append that was rejected after it was counted leaves the counters ahead of the
   accepted entries; as long as none was, everything is exact.
   */
  ghost predicate WriterOk(c: Codec, w: Writer, entries: seq<Entry>) {
    && w.nextOrdinal == |entries| && Numbered(c, entries) && DistinctIds(entries)
    && (forall i :: 0 <= i < |entries| ==> entries[i].id in w.entryIds)
    && w.files >= Files(entries) && w.directories >= Directories(entries)
    && (w.files + w.directories == |entries| ==> Exact(c, w, entries))
  }

  /** The counters with one more entry in them. */
  function Counted(w: Writer, e: Entry): Writer {
    w.(entryIds := w.entryIds + {e.id},
       files := w.files + (if e.directory then 0 else 1), directories := w.directories + (if e.directory then 1 else 0))
  }

  function Stored(c: Codec, w: Writer, e: Entry): Writer {
    w.(data := w.data + Line(c, e), index := w.index + ToLittleEndian(w.nextOffset, 8),
       nextOffset := w.nextOffset + |Line(c, e)|, nextOrdinal := w.nextOrdinal + 1)
  }

  lemma OneMore(c: Codec, entries: seq<Entry>, e: Entry)
    ensures var all := entries + [e];
            && Data(c, all) == Data(c, entries) + Line(c, e)
            && Index(c, all) == Index(c, entries) + ToLittleEndian(|Data(c, entries)|, 8)
            && Files(all) == Files(entries) + (if e.directory then 0 else 1)
            && Directories(all) == Directories(entries) + (if e.directory then 1 else 0)
            && TotalSize(all) == TotalSize(entries) + e.size
  {
    assert (entries + [e])[..|entries|] == entries;
  }

  /** The counters are ahead of the accepted entries. */
  predicate Ahead(w: Writer, entries: seq<Entry>) { w.files + w.directories > |entries| }

  /** A rejected append that was already counted puts the counters ahead. */
  lemma CountedIsAhead(c: Codec, w: Writer, entries: seq<Entry>, e: Entry, w1: Writer)
    requires WriterOk(c, w, entries)
    requires w1 == Counted(w, e).(bytes := w1.bytes, data := w1.data, index := w1.index)
    ensures WriterOk(c, w1, entries) && Ahead(w1, entries)
  {
    CountsAddUp(entries);
  }

  lemma NumberedAppend(c: Codec, entries: seq<Entry>, e: Entry, ids: set<string>)
    requires Numbered(c, entries) && DistinctIds(entries) && c.valid(e) && e.ordinal == |entries| && e.id !in ids
    requires forall i :: 0 <= i < |entries| ==> entries[i].id in ids
    ensures var all := entries + [e];
            && Numbered(c, all) && DistinctIds(all)
            && (forall i :: 0 <= i < |all| ==> all[i].id in ids + {e.id})
  {
  }

  lemma StoredIsOk(c: Codec, w: Writer, entries: seq<Entry>, e: Entry)
    requires WriterOk(c, w, entries) && c.valid(e) && e.ordinal == w.nextOrdinal && e.id !in w.entryIds
    requires w.nextOffset + |Line(c, e)| < U64
    ensures WriterOk(c, Stored(c, Counted(w, e).(bytes := w.bytes + e.size), e), entries + [e])
  {
    NumberedAppend(c, entries, e, w.entryIds);
    OneMore(c, entries, e);
  }

  class ManifestWriter {
    const codec: Codec
    const expectedFiles: nat
    const expectedDirectories: nat
    const expectedBytes: nat
    var w: Writer
    ghost var entries: seq<Entry>   // the accepted ones

    ghost predicate Valid()
      reads this
    {
      codec.Lawful() && WriterOk(codec, w, entries)
    }

    constructor (codec: Codec, files: nat, directories: nat, bytes: nat)
      requires codec.Lawful()
      ensures Valid() && entries == [] && this.codec == codec
      ensures expectedFiles == files && expectedDirectories == directories && expectedBytes == bytes
    {
      this.codec, expectedFiles, expectedDirectories, expectedBytes := codec, files, directories, bytes;
      w, entries := Writer(0, 0, 0, 0, {}, 0, [], []), [];
    }

    /** The entry passes every check before anything is written for it. */
    predicate Expects(e: Entry)
      reads this
    {
      && codec.valid(e) && e.ordinal == w.nextOrdinal < expectedFiles + expectedDirectories && e.id !in w.entryIds
      && Counted(w, e).files <= expectedFiles && Counted(w, e).directories <= expectedDirectories
      && w.bytes + e.size <= expectedBytes && w.bytes + e.size < U64
    }

    /** Rejections come before or after the entry was counted; only an accepted entry is stored. */
    method Append(e: Entry, io: Io) returns (ok: bool)
      requires Valid()
      modifies this
      ensures Valid()
      ensures entries == if ok then old(entries) + [e] else old(entries)
      ensures ok <==> old(Expects(e)) && io.Written? && old(w).nextOffset + |Line(codec, e)| < U64
      ensures old(Ahead(w, entries)) ==> Ahead(w, entries)
      ensures !ok && old(w).entryIds != w.entryIds ==> Ahead(w, entries)
    {
      if !codec.valid(e) { return false; }
      if e.ordinal != w.nextOrdinal || w.nextOrdinal >= expectedFiles + expectedDirectories { return false; }
      if e.id in w.entryIds { return false; }
      ghost var before := w;
      w := Counted(w, e);
      if w.bytes + e.size >= U64 {
        CountedIsAhead(codec, before, entries, e, w);
        return false;
      }
      w := w.(bytes := w.bytes + e.size);
      if w.files > expectedFiles || w.directories > expectedDirectories || w.bytes > expectedBytes {
        CountedIsAhead(codec, before, entries, e, w);
        return false;
      }
      ok := WriteLine(e, io, before);
    }

    /** The index record, the line, and the next offset of an entry already counted. */
    method WriteLine(e: Entry, io: Io, ghost before: Writer) returns (ok: bool)
      requires codec.Lawful() && WriterOk(codec, before, entries)
      requires codec.valid(e) && e.ordinal == before.nextOrdinal && e.id !in before.entryIds
      requires w == Counted(before, e).(bytes := before.bytes + e.size)
      modifies this
      ensures Valid() && entries == if ok then old(entries) + [e] else old(entries)
      ensures ok <==> io.Written? && before.nextOffset + |Line(codec, e)| < U64
      ensures !ok || Ahead(before, old(entries)) ==> Ahead(w, entries)
    {
      var line, record := Line(codec, e), ToLittleEndian(w.nextOffset, 8);
      if io.IndexFails? {
        w := w.(index := w.index + record[..if io.upto < 8 then io.upto else 8]);
        CountedIsAhead(codec, before, entries, e, w);
        return false;
      }
      if io.DataFails? {
        w := w.(index := w.index + record, data := w.data + line[..if io.upto < |line| then io.upto else |line|]);
        CountedIsAhead(codec, before, entries, e, w);
        return false;
      }
      if w.nextOffset + |line| >= U64 {
        w := w.(index := w.index + record, data := w.data + line);
        CountedIsAhead(codec, before, entries, e, w);
        return false;
      }
      StoredIsOk(codec, before, entries, e);
      w := Stored(codec, w, e);
      entries := entries + [e];
      return true;
    }

    /**
     Whatever was rejected on the way, a manifest that finishes holds exactly the accepted
     entries, numbered from zero, with distinct ids and exactly the announced totals.
     */
    method Finish() returns (r: Option<Complete>)
      requires Valid()
      ensures Ahead(w, entries) ==> r.None?
      ensures r.Some? ==>
                && Numbered(codec, entries) && DistinctIds(entries)
                && Files(entries) == expectedFiles && Directories(entries) == expectedDirectories
                && TotalSize(entries) == expectedBytes
                && w.data == Data(codec, entries) && w.index == Index(codec, entries) && |w.data| < U64
                && r.value == Complete(|entries|, codec.digest(w.data))
      ensures r.None? <==> !(|entries| == expectedFiles + expectedDirectories && Files(entries) == expectedFiles == w.files
                             && Directories(entries) == expectedDirectories == w.directories && TotalSize(entries) == expectedBytes)
    {
      CountsAddUp(entries);
      if w.nextOrdinal != expectedFiles + expectedDirectories || w.files != expectedFiles
         || w.directories != expectedDirectories || w.bytes != expectedBytes { return None; }
      return Some(Complete(w.nextOrdinal, codec.digest(w.data)));
    }
  }

  // ---------------------------------------------------------------------------
  // Reading it back
  // ---------------------------------------------------------------------------

  /** Where the line of entry `i` starts. */
  function Start(c: Codec, entries: seq<Entry>, i: nat): nat
    requires i <= |entries|
  {
    |Data(c, entries[..i])|
  }

  lemma Slices(a: seq<byte>, b: seq<byte>, i: nat, j: nat)
    requires i <= j <= |a|
    ensures (a + b)[i..j] == a[i..j] && (a + b)[|a|..|a| + |b|] == b
  {
  }

  lemma {:induction false} LineAt(c: Codec, entries: seq<Entry>, i: nat)
    requires i < |entries|
    ensures var at := Start(c, entries, i);
            && Start(c, entries, i + 1) == at + |Line(c, entries[i])| <= |Data(c, entries)|
            && Data(c, entries)[at..at + |Line(c, entries[i])|] == Line(c, entries[i])
    decreases |entries|
  {
    var most, last := entries[..|entries| - 1], entries[|entries| - 1];
    if i == |entries| - 1 {
      assert entries[..i] == most && entries[..i + 1] == entries;
    } else {
      LineAt(c, most, i);
      assert most[..i] == entries[..i] && most[..i + 1] == entries[..i + 1];
      Slices(Data(c, most), Line(c, last), Start(c, entries, i), Start(c, entries, i + 1));
    }
  }

  lemma IndexLast(c: Codec, entries: seq<Entry>)
    requires entries != []
    ensures var n := |entries| - 1;
            Index(c, entries)[8 * n..8 * n + 8] == ToLittleEndian(Start(c, entries, n), 8)
  {
    var most := entries[..|entries| - 1];
    Slices(Index(c, most), ToLittleEndian(|Data(c, most)|, 8), 0, 0);
  }

  lemma IndexEarlier(c: Codec, entries: seq<Entry>, i: nat)
    requires i < |entries| - 1
    ensures var most := entries[..|entries| - 1];
            Index(c, entries)[8 * i..8 * i + 8] == Index(c, most)[8 * i..8 * i + 8] && Start(c, entries, i) == Start(c, most, i)
  {
    var most := entries[..|entries| - 1];
    Slices(Index(c, most), ToLittleEndian(|Data(c, most)|, 8), 8 * i, 8 * i + 8);
    assert most[..i] == entries[..i];
  }

  /** Index record `i` is where line `i` starts. */
  lemma {:induction false} IndexAt(c: Codec, entries: seq<Entry>, i: nat)
    requires i < |entries|
    ensures Index(c, entries)[8 * i..8 * i + 8] == ToLittleEndian(Start(c, entries, i), 8)
    decreases |entries|
  {
    if i == |entries| - 1 {
      IndexLast(c, entries);
    } else {
      IndexAt(c, entries[..|entries| - 1], i);
      IndexEarlier(c, entries, i);
    }
  }

  lemma {:induction false} NoNewline(s: seq<byte>)
    requires NEWLINE !in s
    ensures FirstNewline(s) == |s|
    decreases |s|
  {
    if s != [] {
      NoNewline(s[1..]);
    }
  }

  function From(data: seq<byte>, at: nat): seq<byte> {
    if at <= |data| then data[at..] else []
  }

  lemma LineThenRest(line: seq<byte>, rest: seq<byte>)
    requires NEWLINE !in line
    ensures var all := line + [NEWLINE] + rest; FirstNewline(all) == |line| && all[..|line|] == line
  {
    var more := [NEWLINE] + rest;
    assert line + [NEWLINE] + rest == line + more;
    NoNewline(line);
    FirstNewlineOf(line, more);
    assert FirstNewline(more) == 0;
  }

  /** Reading up to the newline at a line's start gives exactly its encoding. */
  lemma ReadLine(c: Codec, entries: seq<Entry>, i: nat)
    requires c.Lawful() && i < |entries|
    ensures var rest := From(Data(c, entries), Start(c, entries, i));
            FirstNewline(rest) == |c.encode(entries[i])| < |rest| && rest[..FirstNewline(rest)] == c.encode(entries[i])
  {
    LineAt(c, entries, i);
    var line, at, data := c.encode(entries[i]), Start(c, entries, i), Data(c, entries);
    var next := at + |line| + 1;
    assert data[at..] == data[at..next] + data[next..];
    LineThenRest(line, data[next..]);
  }

  /** The files and the completion record are those of these entries. */
  ghost predicate Holds(c: Codec, data: seq<byte>, index: seq<byte>, marker: Complete, entries: seq<Entry>) {
    && c.Lawful() && Numbered(c, entries) && data == Data(c, entries) && index == Index(c, entries)
    && |data| < U64 && marker == Complete(|entries|, c.digest(data))
  }

  /** One entry through the index: for every ordinal it is the entry the sequential scan visits there. */
  method ManifestEntry(c: Codec, data: seq<byte>, index: seq<byte>, marker: Complete, ordinal: nat,
                       ghost entries: seq<Entry>) returns (r: Option<Entry>)
    ensures Holds(c, data, index, marker, entries) ==>
              r == if ordinal < |entries| then Some(entries[ordinal]) else None
    ensures r.Some? ==> c.valid(r.value) && r.value.ordinal == ordinal < marker.count
  {
    if ordinal >= marker.count || |index| < 8 * ordinal + 8 { return None; }
    var at := FromLittleEndian(index[8 * ordinal..8 * ordinal + 8]);
    if Holds(c, data, index, marker, entries) {
      IndexAt(c, entries, ordinal);
      LineAt(c, entries, ordinal);
      OffsetRoundTrip(Start(c, entries, ordinal));
      ReadLine(c, entries, ordinal);
    }
    var rest := From(data, at);
    var n := FirstNewline(rest);
    if n == |rest| { return None; }
    var e := c.decode(rest[..n]);
    if e.None? || !c.valid(e.value) || e.value.ordinal != ordinal { return None; }
    return e;
  }

  /** All entries in sequence, checked against the completion record at the end. */
  method ForEachManifestEntry(c: Codec, data: seq<byte>, index: seq<byte>, marker: Complete, ghost entries: seq<Entry>)
    returns (r: Option<seq<Entry>>)
    ensures Holds(c, data, index, marker, entries) ==> r == Some(entries)
    ensures r.Some? ==> |r.value| == marker.count && Numbered(c, r.value) && c.digest(data) == marker.digest
  {
    ghost var holds := Holds(c, data, index, marker, entries);
    var at, visited := 0, [];
    assert holds ==> entries[..|entries|] == entries;
    while at < |data|
      invariant at <= |data| && Numbered(c, visited)
      invariant holds ==> |visited| <= |entries| && visited == entries[..|visited|] && at == Start(c, entries, |visited|)
      decreases |data| - at
    {
      if holds {
        assert visited != entries;
        ReadLine(c, entries, |visited|);
        LineAt(c, entries, |visited|);
      }
      var rest := From(data, at);
      var n := FirstNewline(rest);
      if n == |rest| { return None; }
      var e := c.decode(rest[..n]);
      if e.None? || !c.valid(e.value) || e.value.ordinal != |visited| { return None; }
      visited := visited + [e.value];
      at := at + n + 1;
    }
    if holds && |visited| < |entries| {
      LineAt(c, entries, |visited|);
    }
    if |visited| != marker.count || c.digest(data) != marker.digest { return None; }
    return Some(visited);
  }
}
