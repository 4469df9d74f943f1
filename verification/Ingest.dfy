/**
 Manifest ingestion: the request body arrives in frames of any size and is cut into lines
 as it comes.  The outcome is the outcome of cutting the whole body at its newlines.
 */
module Ingest {
  import opened Optional
  import opened Bytes

  const NEWLINE: byte := 10
  const CARRIAGE_RETURN: byte := 13
  const MAX_LINE: nat := 16 * 1024

  datatype Outcome<+W> = Accepted(writer: W) | LineTooLarge | InvalidManifest | IncompleteLine

  /** Hands one line, without its line ending, to the manifest writer. */
  type Handler<!W> = (W, seq<byte>) -> Option<W>

  /** The position of the first newline, or the length if there is none. */
  function FirstNewline(s: seq<byte>): (n: nat)
    ensures n <= |s|
    decreases |s|
  {
    if s == [] || s[0] == NEWLINE then 0 else 1 + FirstNewline(s[1..])
  }

  function StripReturn(line: seq<byte>): seq<byte> {
    if line != [] && line[|line| - 1] == CARRIAGE_RETURN then line[..|line| - 1] else line
  }

  /** The whole body at once. */
  function IngestWhole<W>(body: seq<byte>, w: W, accept: Handler<W>): Outcome<W>
    decreases |body|
  {
    var n := FirstNewline(body);
    if n == |body| then
      if n > MAX_LINE then LineTooLarge else if n > 0 then IncompleteLine else Accepted(w)
    else if n > MAX_LINE then LineTooLarge
    else
      var next := accept(w, StripReturn(body[..n]));
      if next.None? then InvalidManifest else IngestWhole(body[n + 1..], next.value, accept)
  }

  function Flatten(frames: seq<seq<byte>>): seq<byte> {
    if frames == [] then [] else frames[0] + Flatten(frames[1..])
  }

  /** What follows does not move the first newline, and cannot come before the end of a line without one. */
  lemma {:induction false} FirstNewlineOf(s: seq<byte>, rest: seq<byte>)
    ensures var n := FirstNewline(s);
            FirstNewline(s + rest) == if n < |s| then n else |s| + FirstNewline(rest)
    decreases |s|
  {
    if s == [] {
      assert s + rest == rest;
    } else {
      assert (s + rest)[1..] == s[1..] + rest;
      if s[0] != NEWLINE {
        FirstNewlineOf(s[1..], rest);
      }
    }
  }

  /** Cutting the first line off a body whose newline has already arrived. */
  lemma TakeLine<W>(pending: seq<byte>, rest: seq<byte>, w: W, accept: Handler<W>)
    requires FirstNewline(pending) < |pending|
    ensures var n := FirstNewline(pending);
            IngestWhole(pending + rest, w, accept)
            == if n > MAX_LINE then LineTooLarge
               else
                 var next := accept(w, StripReturn(pending[..n]));
                 if next.None? then InvalidManifest else IngestWhole(pending[n + 1..] + rest, next.value, accept)
  {
    var n := FirstNewline(pending);
    FirstNewlineOf(pending, rest);
    assert (pending + rest)[..n] == pending[..n];
    assert (pending + rest)[n + 1..] == pending[n + 1..] + rest;
  }

  /** An unfinished line that is already too long fails however the body goes on. */
  lemma TooLongAlready<W>(pending: seq<byte>, rest: seq<byte>, w: W, accept: Handler<W>)
    requires FirstNewline(pending) == |pending| > MAX_LINE
    ensures IngestWhole(pending + rest, w, accept) == LineTooLarge
  {
    FirstNewlineOf(pending, rest);
  }

  /** Consumes every complete line of `pending`; `more` is the body that has not arrived yet. */
  method ConsumeLines<W>(pending: seq<byte>, w: W, accept: Handler<W>, ghost more: seq<byte>)
    returns (r: Outcome<W>, left: seq<byte>)
    ensures if r.Accepted?
            then FirstNewline(left) == |left|
                 && IngestWhole(left + more, r.writer, accept) == IngestWhole(pending + more, w, accept)
            else r == IngestWhole(pending + more, w, accept)
  {
    left := pending;
    var writer := w;
    var n := FirstNewline(left);
    while n < |left|
      invariant n == FirstNewline(left)
      invariant IngestWhole(left + more, writer, accept) == IngestWhole(pending + more, w, accept)
      decreases |left|
    {
      TakeLine(left, more, writer, accept);
      if n > MAX_LINE { return LineTooLarge, left; }
      var next := accept(writer, StripReturn(left[..n]));
      if next.None? { return InvalidManifest, left; }
      writer := next.value;
      left := left[n + 1..];
      n := FirstNewline(left);
    }
    return Accepted(writer), left;
  }

  /** Whatever the frames, the lines accepted and the first error are those of the whole body. */
  method IngestManifest<W>(frames: seq<seq<byte>>, w: W, accept: Handler<W>) returns (r: Outcome<W>)
    ensures r == IngestWhole(Flatten(frames), w, accept)
  {
    var pending, writer := [], w;
    assert [] + Flatten(frames) == Flatten(frames) && frames[0..] == frames;
    for i := 0 to |frames|
      invariant FirstNewline(pending) == |pending| <= MAX_LINE
      invariant IngestWhole(pending + Flatten(frames[i..]), writer, accept) == IngestWhole(Flatten(frames), w, accept)
    {
      ghost var more := Flatten(frames[i + 1..]);
      assert frames[i..][1..] == frames[i + 1..];
      assert pending + Flatten(frames[i..]) == (pending + frames[i]) + more;
      pending := pending + frames[i];
      r, pending := ConsumeLines(pending, writer, accept, more);
      if !r.Accepted? { return; }
      writer := r.writer;
      if |pending| > MAX_LINE {
        TooLongAlready(pending, more, writer, accept);
        return LineTooLarge;
      }
    }
    assert frames[|frames|..] == [] && pending + [] == pending;
    if pending != [] { return IncompleteLine; }
    return Accepted(writer);
  }

  // ---------------------------------------------------------------------------
  // Line by line
  // ---------------------------------------------------------------------------

  /** A line as its writer meant it: a text, ended by CR LF or by LF alone. */
  datatype TextLine = TextLine(text: seq<byte>, withReturn: bool)

  predicate Plain(s: seq<byte>) {
    forall i :: 0 <= i < |s| ==> s[i] != 10
  }

  /** Ended by LF alone, a text does not end in CR. */
  predicate IsLine(l: TextLine) {
    Plain(l.text) && (!l.withReturn && l.text != [] ==> l.text[|l.text| - 1] != 13)
  }

  function Raw(l: TextLine): seq<byte> {
    l.text + if l.withReturn then [13] else []
  }

  function Wire(lines: seq<TextLine>): seq<byte> {
    if lines == [] then [] else Raw(lines[0]) + [10] + Wire(lines[1..])
  }

  /** The writer after the texts of the first `k` lines, each of which fits and is accepted. */
  function Feed<W>(lines: seq<TextLine>, k: nat, w: W, accept: Handler<W>): Option<W>
    requires k <= |lines|
    decreases k
  {
    if k == 0 then Some(w)
    else if |Raw(lines[0])| > 16384 then None
    else
      var next := accept(w, lines[0].text);
      if next.None? then None else Feed(lines[1..], k - 1, next.value, accept)
  }

  lemma {:induction false} NoNewline(s: seq<byte>)
    requires Plain(s)
    ensures FirstNewline(s) == |s|
    decreases |s|
  {
    if s != [] {
      NoNewline(s[1..]);
    }
  }

  /** The first line on the wire ends at the first newline, and its text is what is handed over. */
  lemma FirstLine(l: TextLine, rest: seq<byte>)
    requires IsLine(l)
    ensures var body := Raw(l) + [10] + rest;
            && FirstNewline(body) == |Raw(l)|
            && StripReturn(body[..|Raw(l)|]) == l.text && body[|Raw(l)| + 1..] == rest
  {
    var raw := Raw(l);
    NoNewline(raw);
    FirstNewlineOf(raw, [10] + rest);
    assert raw + [10] + rest == raw + ([10] + rest);
    assert (raw + [10] + rest)[..|raw|] == raw;
    if l.withReturn {
      assert raw[..|raw| - 1] == l.text;
    }
  }

  /** One line is read from the wire. */
  lemma ReadLine<W>(lines: seq<TextLine>, tail: seq<byte>, w: W, accept: Handler<W>)
    requires lines != [] && IsLine(lines[0])
    ensures IngestWhole(Wire(lines) + tail, w, accept)
            == if |Raw(lines[0])| > 16384 then LineTooLarge
               else if accept(w, lines[0].text).None? then InvalidManifest
               else IngestWhole(Wire(lines[1..]) + tail, accept(w, lines[0].text).value, accept)
  {
    var rest := Wire(lines[1..]) + tail;
    assert Wire(lines) + tail == Raw(lines[0]) + [10] + rest;
    FirstLine(lines[0], rest);
  }

  /** What the body with these lines and this unfinished rest comes to. */
  ghost predicate Comes<W>(r: Outcome<W>, lines: seq<TextLine>, tail: seq<byte>, w: W, accept: Handler<W>) {
    var last := Feed(lines, |lines|, w, accept);
    && (r.Accepted? <==> last.Some? && tail == [])
    && (r.Accepted? ==> r.writer == last.value)
    && (r.IncompleteLine? <==> last.Some? && 0 < |tail| <= 16384)
    && (r.LineTooLarge? <==>
          || (last.Some? && |tail| > 16384)
          || exists k :: 0 <= k < |lines| && Feed(lines, k, w, accept).Some? && |Raw(lines[k])| > 16384)
    && (r.InvalidManifest? <==>
          exists k :: && 0 <= k < |lines| && Feed(lines, k, w, accept).Some? && |Raw(lines[k])| <= 16384
                      && accept(Feed(lines, k, w, accept).value, lines[k].text).None?)
  }

  lemma ComesOnward<W>(r: Outcome<W>, lines: seq<TextLine>, tail: seq<byte>, w: W, accept: Handler<W>)
    requires lines != [] && |Raw(lines[0])| <= 16384 && accept(w, lines[0].text).Some?
    requires Comes(r, lines[1..], tail, accept(w, lines[0].text).value, accept)
    ensures Comes(r, lines, tail, w, accept)
  {
    var rest, next := lines[1..], accept(w, lines[0].text).value;
    forall k | 0 <= k < |rest|
      ensures Feed(lines, k + 1, w, accept) == Feed(rest, k, next, accept) && rest[k] == lines[k + 1]
    {
    }
    if r.LineTooLarge? && !(Feed(lines, |lines|, w, accept).Some? && |tail| > 16384) {
      var k :| 0 <= k < |rest| && Feed(rest, k, next, accept).Some? && |Raw(rest[k])| > 16384;
      assert Feed(lines, k + 1, w, accept).Some? && |Raw(lines[k + 1])| > 16384;
    }
    if r.InvalidManifest? {
      var k :| && 0 <= k < |rest| && Feed(rest, k, next, accept).Some? && |Raw(rest[k])| <= 16384
               && accept(Feed(rest, k, next, accept).value, rest[k].text).None?;
      assert Feed(lines, k + 1, w, accept).Some? && lines[k + 1] == rest[k];
    }
    forall k | 0 <= k < |lines| && Feed(lines, k, w, accept).Some? && |Raw(lines[k])| > 16384
      ensures r.LineTooLarge?
    {
      assert Feed(rest, k - 1, next, accept).Some? && rest[k - 1] == lines[k];
    }
    forall k | && 0 <= k < |lines| && Feed(lines, k, w, accept).Some? && |Raw(lines[k])| <= 16384
               && accept(Feed(lines, k, w, accept).value, lines[k].text).None?
      ensures r.InvalidManifest?
    {
      assert k > 0 && Feed(rest, k - 1, next, accept).Some? && rest[k - 1] == lines[k];
    }
  }

  /**
   The body made of these lines is the fold of the handler over their texts: CR LF and LF
   end a line alike, and the first line that is too long or refused, or a rest without its
   newline, decides the error.
   */
  lemma {:induction false} IngestLines<W>(lines: seq<TextLine>, tail: seq<byte>, w: W, accept: Handler<W>)
    requires (forall l <- lines :: IsLine(l)) && Plain(tail)
    ensures Comes(IngestWhole(Wire(lines) + tail, w, accept), lines, tail, w, accept)
    decreases |lines|
  {
    var r := IngestWhole(Wire(lines) + tail, w, accept);
    if lines == [] {
      assert Wire(lines) + tail == tail;
      NoNewline(tail);
    } else {
      ReadLine(lines, tail, w, accept);
      if |Raw(lines[0])| > 16384 || accept(w, lines[0].text).None? {
        StoppedAtFirst(lines, tail, w, accept);
      } else {
        IngestLines(lines[1..], tail, accept(w, lines[0].text).value, accept);
        ComesOnward(r, lines, tail, w, accept);
      }
    }
  }

  lemma StoppedAtFirst<W>(lines: seq<TextLine>, tail: seq<byte>, w: W, accept: Handler<W>)
    requires lines != [] && (|Raw(lines[0])| > 16384 || accept(w, lines[0].text).None?)
    ensures Comes(if |Raw(lines[0])| > 16384 then LineTooLarge else InvalidManifest, lines, tail, w, accept)
  {
    assert Feed(lines, 0, w, accept) == Some(w);
    forall k | 0 < k <= |lines|
      ensures Feed(lines, k, w, accept).None?
    {
    }
  }

  /** Every body is some lines and a rest without a newline. */
  lemma {:induction false} SplitLines(body: seq<byte>) returns (lines: seq<TextLine>, tail: seq<byte>)
    ensures (forall l <- lines :: IsLine(l)) && Plain(tail) && body == Wire(lines) + tail
    decreases |body|
  {
    var n := FirstNewline(body);
    PlainBefore(body);
    if n == |body| {
      lines, tail := [], body;
      assert body[..n] == body;
    } else {
      var raw := body[..n];
      var l := if raw != [] && raw[n - 1] == 13 then TextLine(raw[..n - 1], true) else TextLine(raw, false);
      var rest;
      rest, tail := SplitLines(body[n + 1..]);
      lines := [l] + rest;
      assert lines[1..] == rest;
      assert Raw(l) == raw;
      assert body == raw + [10] + (Wire(rest) + tail);
    }
  }

  lemma {:induction false} PlainBefore(s: seq<byte>)
    ensures var n := FirstNewline(s); Plain(s[..n]) && (n < |s| ==> s[n] == 10)
    decreases |s|
  {
    if s != [] && s[0] != NEWLINE {
      PlainBefore(s[1..]);
      var n := FirstNewline(s);
      forall i | 0 <= i < n
        ensures s[..n][i] != 10
      {
        if i > 0 { assert s[1..][..n - 1][i - 1] == s[..n][i]; }
      }
    }
  }
}
