/**
 The text service (TIP) that lives in the target application: the commands it accepts,
 the document it edits, and what each command does to both.

 Text is a sequence of UTF-16 units.  Everything the host application decides (focus,
 whether an edit session is granted, whether it ends the composition on its own) is a
 `Host` record, so every statement below is for all answers the host may give.
 */
module Tip {
  import opened Optional

  type Text = seq<char>

  datatype Command =
    | Begin(id: string, sequence: int, text: Text, attachExisting: bool)
    | Update(id: string, sequence: int, text: Text)
    | Finish(id: string, sequence: int)
    | Cancel(id: string)
    | Query(id: string)
    | Ping

  datatype Response =
    | Ready
    | Begun(id: string)
    | Applied(id: string, sequence: int)
    | Finished(id: string, sequence: int)
    | Cancelled(id: string)
    | NoFocus
    | SessionMismatch
    | SequenceConflict
    | CompositionTerminated
    | SessionActive(id: string, sequence: int)
    | RebindRejected
    | EditRejected

  /** What the host application answers while one command runs. */
  datatype Host = Host(
    focused: bool,    // the session's document has the focus
    advised: bool,    // the edit sink could be installed
    granted: bool,    // the edit session was granted and its reads succeeded
    readable: bool,   // the text before the caret could be read when attaching
    wrote: bool,      // SetText succeeded
    caretSet: bool,   // SetSelection succeeded
    closed: bool,     // EndComposition succeeded
    ended: bool)      // the host ended the composition while our edit ran

  /** A document and its selection, `[selStart, selEnd)`. */
  datatype Document = Document(text: Text, selStart: nat, selEnd: nat) {
    predicate Valid() { selStart <= selEnd <= |text| }
  }

  datatype Span = Span(start: nat, end: nat)

  /** One performed SetText: who asked for it, and what it put into the range. */
  datatype Write = Write(id: string, sequence: int, text: Text)

  datatype State = State(
    session: Option<string>, sequence: int, text: Text,
    composition: bool, range: Option<Span>, sink: bool,
    terminated: bool, modified: bool,
    doc: Document, log: seq<Write>)
  {
    predicate Valid() {
      && doc.Valid()
      && (range.Some? ==> range.value.start <= range.value.end <= |doc.text|)
      && (session.Some? ==> range.Some?)
      && (session.None? ==>
            sequence == 0 && text == [] && !composition && range.None? && !sink && !modified)
      && (composition ==> !terminated)
    }

    /** The session-level part of the state, as `TipSessionModel` has it. */
    function Model(): SessionModel {
      SessionModel(session, sequence, text, terminated, modified)
    }
  }

  // ---------------------------------------------------------------------------
  // Anchors and documents
  // ---------------------------------------------------------------------------

  /** Where an anchor ends up when `[i, j)` is deleted and `n` units are inserted at `i`. */
  function Shift(anchor: nat, forward: bool, i: nat, j: nat, n: nat): nat
    requires i <= j
  {
    if anchor < i then anchor
    else if anchor > j then anchor - (j - i) + n
    else if forward then i + n
    else i
  }

  function Splice(text: Text, i: nat, j: nat, ins: Text): (r: Text)
    requires i <= j <= |text|
    ensures |r| == |text| - (j - i) + |ins|
  {
    text[..i] + ins + text[j..]
  }

  function SetText(d: Document, s: Span, ins: Text): (r: Document)
    requires s.start <= s.end <= |d.text|
    ensures d.Valid() ==> r.Valid()
  {
    Document(
      Splice(d.text, s.start, s.end, ins),
      Shift(d.selStart, true, s.start, s.end, |ins|),
      Shift(d.selEnd, true, s.start, s.end, |ins|))
  }

  function SetCaret(d: Document, position: nat): Document {
    Document(d.text, position, position)
  }

  /** The owned range reads exactly `t.text` and the caret is collapsed at its end. */
  predicate Matches(t: State)
    requires t.range.Some? ==> t.range.value.start <= t.range.value.end <= |t.doc.text|
  {
    && t.range.Some?
    && t.doc.text[t.range.value.start .. t.range.value.end] == t.text
    && t.doc.selStart == t.doc.selEnd == t.range.value.end
  }

  // ---------------------------------------------------------------------------
  // Commands
  // ---------------------------------------------------------------------------

  function Idle(doc: Document, log: seq<Write>): State {
    State(None, 0, [], false, None, false, false, false, doc, log)
  }

  function MarkTerminated(t: State): State {
    t.(terminated := true, composition := false, sink := false)
  }

  function EndedBy(t: State, h: Host): State {
    if h.ended && t.composition then MarkTerminated(t) else t
  }

  /** The text just before a collapsed caret, when it is exactly `text`. */
  function ExactSuffix(d: Document, text: Text): (r: Option<Span>)
    ensures r.Some? ==> r.value.start <= r.value.end <= |d.text|
    ensures r.Some? ==> d.text[r.value.start .. r.value.end] == text && r.value.end == d.selStart
  {
    if 0 < |text| <= 0x7FFF_FFFF && d.selStart == d.selEnd <= |d.text| && |text| <= d.selStart
       && d.text[d.selStart - |text| .. d.selStart] == text
    then Some(Span(d.selStart - |text|, d.selStart))
    else None
  }

  /** The edit session of a Begin: own the selection or the exact text before the caret. */
  function EditBegin(t: State, id: string, sequence: int, text: Text, attach: bool, h: Host): (r: (State, bool))
    requires t.doc.Valid()
    ensures r.0.doc.Valid()
    ensures r.1 && t.session.Some? ==> r.0.Valid()
  {
    if !h.granted then (t, false)
    else
      var attached := if attach && h.readable then ExactSuffix(t.doc, text) else None;
      var span := if attached.Some? then attached.value else Span(t.doc.selStart, t.doc.selEnd);
      var started := t.(terminated := false, composition := true, range := Some(span));
      if attached.Some? then PlaceCaret(EndedBy(started, h), h)
      else if !h.wrote then (started, false)
      else PlaceCaret(EndedBy(WriteRange(started, id, sequence, text), h), h)
  }

  /** SetText on the owned range, which then covers the new text. */
  function WriteRange(t: State, id: string, sequence: int, text: Text): State
    requires t.range.Some? && t.range.value.start <= t.range.value.end <= |t.doc.text|
  {
    t.(doc := SetText(t.doc, t.range.value, text),
       range := Some(Span(t.range.value.start, t.range.value.start + |text|)),
       log := t.log + [Write(id, sequence, text)])
  }

  function PlaceCaret(t: State, h: Host): (State, bool)
    requires t.range.Some?
  {
    (if h.caretSet then t.(doc := SetCaret(t.doc, t.range.value.end)) else t, h.caretSet)
  }

  /** The edit session of an Update: write only over a range that still matches. */
  function EditUpdate(t: State, id: string, sequence: int, text: Text, h: Host): (r: (State, bool))
    requires t.Valid() && t.session.Some?
    ensures r.0.Valid()
  {
    if t.modified || !h.granted then (t, false)
    else if !Matches(t) then (EndedBy(t.(modified := true), h), false)
    else if !h.wrote then (EndedBy(t, h), false)
    else PlaceCaret(EndedBy(WriteRange(t, id, sequence, text), h), h)
  }

  function DoBegin(t: State, id: string, sequence: int, text: Text, attach: bool, h: Host): (r: (State, Response))
    requires t.Valid()
    ensures r.0.Valid()
  {
    if t.session == Some(id) then
      (t, if t.modified then CompositionTerminated else Begun(id))
    else if t.session.Some? then (t, RebindRejected)
    else if !h.focused then (t, NoFocus)
    else if !h.advised then (Idle(t.doc, t.log), EditRejected)
    else
      var (t1, ok) := EditBegin(t.(session := Some(id), sink := true), id, sequence, text, attach, h);
      if ok then (t1.(sequence := sequence, text := text), Begun(id))
      else (Idle(t1.doc, t1.log), EditRejected)
  }

  function DoUpdate(t: State, id: string, sequence: int, text: Text, h: Host): (r: (State, Response))
    requires t.Valid()
    ensures r.0.Valid()
  {
    if t.session != Some(id) then (t, SessionMismatch)
    else if t.modified then (t, CompositionTerminated)
    else if sequence < t.sequence then (t, Applied(id, t.sequence))
    else if sequence == t.sequence then
      (t, if text == t.text then Applied(id, sequence) else SequenceConflict)
    else if !h.focused then (t, NoFocus)
    else
      var (t1, ok) := EditUpdate(t, id, sequence, text, h);
      if ok then (t1.(sequence := sequence, text := text), Applied(id, sequence))
      else (t1, if t1.modified then CompositionTerminated else EditRejected)
  }

  function DoFinish(t: State, id: string, sequence: int, h: Host): (r: (State, Response))
    requires t.Valid()
    ensures r.0.Valid()
  {
    if t.session != Some(id) || t.sequence != sequence then (t, SessionMismatch)
    else if t.modified then (t, CompositionTerminated)
    else if !h.granted || !Matches(t) || (t.composition && !h.closed) then (t, EditRejected)
    else (Idle(t.doc, t.log), Finished(id, sequence))
  }

  function DoCancel(t: State, id: string): (r: (State, Response))
    requires t.Valid()
    ensures r.0.Valid()
  {
    if t.session != Some(id) then (t, SessionMismatch) else (Idle(t.doc, t.log), Cancelled(id))
  }

  function DoQuery(t: State, id: string): Response {
    if t.session != Some(id) then SessionMismatch
    else if t.modified then CompositionTerminated
    else SessionActive(id, t.sequence)
  }

  function Execute(t: State, c: Command, h: Host): (r: (State, Response))
    requires t.Valid()
    ensures r.0.Valid()
  {
    match c
    case Begin(id, sequence, text, attach) => DoBegin(t, id, sequence, text, attach, h)
    case Update(id, sequence, text) => DoUpdate(t, id, sequence, text, h)
    case Finish(id, sequence) => DoFinish(t, id, sequence, h)
    case Cancel(id) => DoCancel(t, id)
    case Query(id) => (t, DoQuery(t, id))
    case Ping => (t, Ready)
  }

  // ---------------------------------------------------------------------------
  // What the host does on its own
  // ---------------------------------------------------------------------------

  datatype HostEvent =
    | Edit(i: nat, j: nat, ins: Text, selStart: nat, selEnd: nat, readable: bool)
    | EndsComposition
    | RunsAsyncFinish

  /** The owned range with backward gravity at its start and forward gravity at its end. */
  function ShiftRange(s: Span, i: nat, j: nat, n: nat): Span
    requires i <= j
  {
    Span(Shift(s.start, false, i, j, n), Shift(s.end, true, i, j, n))
  }

  /** The document after an edit made in the application; malformed edits do nothing. */
  function EditDocument(t: State, e: HostEvent): (r: State)
    requires t.Valid() && e.Edit?
    ensures r.Valid()
    ensures r == t.(doc := r.doc, range := r.range)
  {
    if e.i <= e.j <= |t.doc.text| && e.selStart <= e.selEnd <= |t.doc.text| - (e.j - e.i) + |e.ins| then
      t.(doc := Document(Splice(t.doc.text, e.i, e.j, e.ins), e.selStart, e.selEnd),
         range := if t.range.None? then None else Some(ShiftRange(t.range.value, e.i, e.j, |e.ins|)))
    else t
  }

  function React(t: State, e: HostEvent): (r: State)
    requires t.Valid()
    ensures r.Valid()
  {
    match e
    case Edit(_, _, _, _, _, readable) =>
      var t1 := EditDocument(t, e);
      if t.session.Some? && t.sink && !t.terminated && !t.modified && readable && !Matches(t1)
      then t1.(modified := true) else t1
    case EndsComposition =>
      if t.composition then MarkTerminated(t.(modified := true)) else t
    case RunsAsyncFinish => MarkTerminated(t)
  }

  // ---------------------------------------------------------------------------
  // Runs: commands and host events in any order
  // ---------------------------------------------------------------------------

  datatype Action = Runs(command: Command, host: Host) | Reacts(event: HostEvent)

  function Act(t: State, a: Action): (r: State)
    requires t.Valid()
    ensures r.Valid()
  {
    match a
    case Runs(c, h) => Execute(t, c, h).0
    case Reacts(e) => React(t, e)
  }

  function Run(t: State, actions: seq<Action>): (r: State)
    requires t.Valid()
    ensures r.Valid()
    decreases |actions|
  {
    if actions == [] then t else Run(Act(t, actions[0]), actions[1..])
  }

  /** The document outside the owned range. */
  function Before(t: State): Text
    requires t.Valid() && t.session.Some?
  {
    t.doc.text[..t.range.value.start]
  }

  function After(t: State): Text
    requires t.Valid() && t.session.Some?
  {
    t.doc.text[t.range.value.end..]
  }

  // ---------------------------------------------------------------------------
  // The simple specification of a TIP session
  // ---------------------------------------------------------------------------

  datatype SessionModel = SessionModel(
    session: Option<string>, sequence: int, text: Text, compositionEnded: bool, targetModified: bool)

  datatype ModelStep =
    | ModelBegin(id: string, sequence: int, text: Text)
    | ModelUpdate(id: string, sequence: int, text: Text)
    | ModelFinish(id: string, sequence: int)
    | ModelCancel(id: string)
    | ModelTerminate
    | ModelEndComposition

  /** `Accepted` is the source's Ok(()) or Ok(true), `Stale` its Ok(false). */
  datatype Answer = Accepted | Stale | Refused(response: Response)

  const CLEARED := SessionModel(None, 0, [], false, false)

  function ModelApply(m: SessionModel, s: ModelStep): (SessionModel, Answer) {
    match s
    case ModelBegin(id, sequence, text) =>
      if m.session == Some(id) then
        (m, if m.targetModified then Refused(CompositionTerminated) else Accepted)
      else if m.session.Some? then (m, Refused(SessionMismatch))
      else (SessionModel(Some(id), sequence, text, false, false), Accepted)
    case ModelUpdate(id, sequence, text) =>
      if m.session != Some(id) then (m, Refused(SessionMismatch))
      else if m.targetModified then (m, Refused(CompositionTerminated))
      else if sequence < m.sequence then (m, Stale)
      else if sequence == m.sequence then
        (m, if m.text == text then Stale else Refused(SequenceConflict))
      else (m.(sequence := sequence, text := text), Accepted)
    case ModelFinish(id, sequence) =>
      if m.session != Some(id) || m.sequence != sequence then (m, Refused(SessionMismatch))
      else if m.targetModified then (m, Refused(CompositionTerminated))
      else (CLEARED, Accepted)
    case ModelCancel(id) =>
      if m.session != Some(id) then (m, Refused(SessionMismatch)) else (CLEARED, Accepted)
    case ModelTerminate => (m.(targetModified := true), Accepted)
    case ModelEndComposition => (m.(compositionEnded := true), Accepted)
  }

  function ModelRun(m: SessionModel, steps: seq<ModelStep>): SessionModel
    decreases |steps|
  {
    if steps == [] then m else ModelRun(ModelApply(m, steps[0]).0, steps[1..])
  }

  /** The command's own step in the model, if the model has one. */
  function OwnStep(c: Command): seq<ModelStep> {
    match c
    case Begin(id, sequence, text, _) => [ModelBegin(id, sequence, text)]
    case Update(id, sequence, text) => [ModelUpdate(id, sequence, text)]
    case Finish(id, sequence) => [ModelFinish(id, sequence)]
    case Cancel(id) => [ModelCancel(id)]
    case Query(_) | Ping => []
  }

  /** Steps taken before the command's own step: the edit found the target modified. */
  function StepsBefore(t: State, c: Command, h: Host): seq<ModelStep>
    requires t.Valid()
  {
    if !t.modified && Execute(t, c, h).0.modified then [ModelTerminate] else []
  }

  /** Steps taken after it: a rejected Begin clears, and the host may end the composition. */
  function StepsAfter(t: State, c: Command, h: Host): seq<ModelStep>
    requires t.Valid()
  {
    var r := Execute(t, c, h);
    if c.Begin? && r.1.EditRejected? then [ModelCancel(c.id)]
    else if r.0.session.Some? && r.0.terminated && (!t.terminated || t.session.None?) then [ModelEndComposition]
    else []
  }

  /** A command the host kept from running leaves the model alone. */
  predicate Stutters(c: Command, r: Response) {
    r.NoFocus? || (r.EditRejected? && !c.Begin?)
  }

  function ModelSteps(t: State, a: Action): seq<ModelStep>
    requires t.Valid()
  {
    match a
    case Runs(c, h) =>
      if Stutters(c, Execute(t, c, h).1) then StepsAfter(t, c, h)
      else StepsBefore(t, c, h) + OwnStep(c) + StepsAfter(t, c, h)
    case Reacts(Edit(_, _, _, _, _, _)) => if !t.modified && React(t, a.event).modified then [ModelTerminate] else []
    case Reacts(EndsComposition) => if t.composition then [ModelTerminate, ModelEndComposition] else []
    case Reacts(RunsAsyncFinish) => [ModelEndComposition]
  }

  /** The service's answer to the command is the model's answer from state `m`, up to the names of refusals. */
  predicate SameAnswer(c: Command, r: Response, m: SessionModel, answer: Answer) {
    match answer
    case Refused(x) => r == (if c.Begin? && x.SessionMismatch? then RebindRejected else x)
    case Stale => c.Update? && r == Applied(c.id, m.sequence)
    case Accepted =>
      match c
      case Begin(id, _, _, _) => r == Begun(id) || r == EditRejected
      case Update(id, sequence, _) => r == Applied(id, sequence)
      case Finish(id, sequence) => r == Finished(id, sequence)
      case Cancel(id) => r == Cancelled(id)
      case _ => false
  }

  lemma ModelRunAppend(m: SessionModel, a: seq<ModelStep>, b: seq<ModelStep>)
    ensures ModelRun(m, a + b) == ModelRun(ModelRun(m, a), b)
    decreases |a|
  {
    if a == [] {
      assert a + b == b;
    } else {
      assert (a + b)[1..] == a[1..] + b;
      ModelRunAppend(ModelApply(m, a[0]).0, a[1..], b);
    }
  }

  /** The command takes `ModelSteps` in the model and, unless kept from running, gets the model's answer. */
  ghost predicate Simulated(t: State, c: Command, h: Host)
    requires t.Valid()
  {
    var (t1, r) := Execute(t, c, h);
    && t1.Model() == ModelRun(t.Model(), ModelSteps(t, Runs(c, h)))
    && (OwnStep(c) != [] && !Stutters(c, r) ==>
          var m := ModelRun(t.Model(), StepsBefore(t, c, h));
          SameAnswer(c, r, m, ModelApply(m, OwnStep(c)[0]).1))
  }

  lemma JoinSteps(m: SessionModel, before: seq<ModelStep>, own: seq<ModelStep>, after: seq<ModelStep>)
    requires |before| <= 1 && |own| <= 1 && |after| <= 1
    ensures var m1 := if before == [] then m else ModelApply(m, before[0]).0;
            var m2 := if own == [] then m1 else ModelApply(m1, own[0]).0;
            && ModelRun(m, before) == m1
            && ModelRun(m, before + own + after) == if after == [] then m2 else ModelApply(m2, after[0]).0
  {
    ModelRunAppend(m, before + own, after);
    ModelRunAppend(m, before, own);
  }

  /** What the edit session of an update may do to it. */
  lemma EditOutcome(t: State, id: string, sequence: int, text: Text, h: Host)
    requires t.Valid() && t.session.Some? && !t.modified
    ensures var (t1, ok) := EditUpdate(t, id, sequence, text, h);
            && t1.session == t.session && t1.sequence == t.sequence && t1.text == t.text
            && (t.terminated ==> t1.terminated) && (ok ==> !t1.modified)
  {
  }

  /** What an update may do to the session-level state. */
  lemma UpdateOutcome(t: State, id: string, sequence: int, text: Text, h: Host)
    requires t.Valid()
    ensures var (t1, r) := DoUpdate(t, id, sequence, text, h);
            && t1.session == t.session
            && (r.Applied? && t.sequence < sequence ==>
                  t.session == Some(id) && t1.Model() == t.Model().(sequence := sequence, text := text, compositionEnded := t1.terminated))
            && (!(r.Applied? && t.sequence < sequence) ==>
                  t1.Model() == t.Model().(targetModified := t1.modified, compositionEnded := t1.terminated))
            && (t.terminated ==> t1.terminated)
            && (t.modified ==> t1.modified)
            && (r.CompositionTerminated? <==> t.session == Some(id) && t1.modified)
            && (r.Applied? || r.EditRejected? || r.NoFocus? ==> t1.modified == t.modified)
            && (r.SessionMismatch? || r.SequenceConflict? || r.NoFocus? ==> t1 == t)
  {
    if t.session == Some(id) && !t.modified {
      EditOutcome(t, id, sequence, text, h);
    }
  }

  lemma UpdateSimulates(t: State, c: Command, h: Host)
    requires t.Valid() && c.Update?
    ensures Simulated(t, c, h)
  {
    JoinSteps(t.Model(), StepsBefore(t, c, h), OwnStep(c), StepsAfter(t, c, h));
    UpdateOutcome(t, c.id, c.sequence, c.text, h);
  }

  lemma BeginSimulates(t: State, c: Command, h: Host)
    requires t.Valid() && c.Begin?
    ensures Simulated(t, c, h)
  {
    JoinSteps(t.Model(), StepsBefore(t, c, h), OwnStep(c), StepsAfter(t, c, h));
  }

  /** Every command of the real service, with any host, is a command of the simple model. */
  lemma CommandSimulates(t: State, c: Command, h: Host)
    requires t.Valid()
    ensures Simulated(t, c, h)
  {
    if c.Begin? {
      BeginSimulates(t, c, h);
    } else if c.Update? {
      UpdateSimulates(t, c, h);
    } else {
      JoinSteps(t.Model(), StepsBefore(t, c, h), OwnStep(c), StepsAfter(t, c, h));
    }
  }

  /** So does everything the host does on its own. */
  lemma ReactionSimulates(t: State, e: HostEvent)
    requires t.Valid()
    ensures React(t, e).Model() == ModelRun(t.Model(), ModelSteps(t, Reacts(e)))
  {
    if e.EndsComposition? {
      ModelRunAppend(t.Model(), [ModelTerminate], [ModelEndComposition]);
      assert [ModelTerminate] + [ModelEndComposition] == [ModelTerminate, ModelEndComposition];
    }
  }

  function AllModelSteps(t: State, actions: seq<Action>): seq<ModelStep>
    requires t.Valid()
    decreases |actions|
  {
    if actions == [] then []
    else ModelSteps(t, actions[0]) + AllModelSteps(Act(t, actions[0]), actions[1..])
  }

  /** Every run of the real service, with any host, is a run of the simple model. */
  lemma {:induction false} RunSimulates(t: State, actions: seq<Action>)
    requires t.Valid()
    ensures Run(t, actions).Model() == ModelRun(t.Model(), AllModelSteps(t, actions))
    decreases |actions|
  {
    if actions != [] {
      var t1 := Act(t, actions[0]);
      match actions[0] {
        case Runs(c, h) => CommandSimulates(t, c, h);
        case Reacts(e) => ReactionSimulates(t, e);
      }
      RunSimulates(t1, actions[1..]);
      ModelRunAppend(t.Model(), ModelSteps(t, actions[0]), AllModelSteps(t1, actions[1..]));
    }
  }

  // ---------------------------------------------------------------------------
  // What may touch the document
  // ---------------------------------------------------------------------------

  lemma EditWritesOnlyTheOwnedRange(t: State, id: string, sequence: int, text: Text, h: Host)
    requires t.Valid() && t.session.Some?
    ensures var t1 := EditUpdate(t, id, sequence, text, h).0;
            && (t1.log == t.log ==> t1.doc == t.doc && t1.range == t.range)
            && (t1.log != t.log ==>
                  && !t.modified && Matches(t) && t1.log == t.log + [Write(id, sequence, text)]
                  && t1.doc.text == Before(t) + text + After(t)
                  && t1.range == Some(Span(t.range.value.start, t.range.value.start + |text|)))
            && t1.session == t.session
  {
  }

  lemma UpdateWritesOnlyTheOwnedRange(t: State, c: Command, h: Host)
    requires t.Valid() && t.session.Some? && c.Update?
    ensures var t1 := Execute(t, c, h).0;
            && (t1.log == t.log ==> t1.doc == t.doc)
            && (t1.log != t.log ==>
                  && t.session == Some(c.id) && t.sequence < c.sequence && !t.modified && Matches(t)
                  && t1.log == t.log + [Write(c.id, c.sequence, c.text)]
                  && t1.doc.text == Before(t) + c.text + After(t))
            && t1.session == t.session && Before(t1) == Before(t) && After(t1) == After(t)
  {
    EditWritesOnlyTheOwnedRange(t, c.id, c.sequence, c.text, h);
  }

  /**
   A command that writes during a session found the owned range reading exactly the last
   applied text with the caret at its end, and changed nothing outside that range.
   */
  lemma CommandsWriteOnlyTheOwnedRange(t: State, c: Command, h: Host)
    requires t.Valid() && t.session.Some?
    ensures var t1 := Execute(t, c, h).0;
            && (t1.log == t.log ==> t1.doc == t.doc)
            && (t1.log != t.log ==>
                  && c.Update? && t.session == Some(c.id) && t.sequence < c.sequence
                  && !t.modified && Matches(t)
                  && t1.log == t.log + [Write(c.id, c.sequence, c.text)]
                  && t1.doc.text == Before(t) + c.text + After(t))
            && (t1.session.Some? ==> t1.session == t.session && Before(t1) == Before(t) && After(t1) == After(t))
  {
    if c.Update? {
      UpdateWritesOnlyTheOwnedRange(t, c, h);
    }
  }

  /** No action is an edit made in the application. */
  predicate Undisturbed(actions: seq<Action>) {
    forall a <- actions :: a.Reacts? ==> !a.event.Edit?
  }

  /** No action starts another session. */
  predicate NoBegin(actions: seq<Action>) {
    forall a <- actions :: a.Runs? ==> !a.command.Begin?
  }

  /**
   Whatever revisions, refusals and host reactions come in between, a session that is
   still open after an undisturbed run owns a range with the same text around it.
   */
  lemma {:induction false} RunKeepsSurroundings(t: State, actions: seq<Action>)
    requires t.Valid() && t.session.Some? && Undisturbed(actions) && NoBegin(actions)
    ensures var t1 := Run(t, actions);
            t1.session.Some? ==> t1.session == t.session && Before(t1) == Before(t) && After(t1) == After(t)
    decreases |actions|
  {
    if actions != [] {
      var t1 := Act(t, actions[0]);
      if actions[0].Runs? {
        CommandsWriteOnlyTheOwnedRange(t, actions[0].command, actions[0].host);
      }
      if t1.session.Some? {
        RunKeepsSurroundings(t1, actions[1..]);
      } else {
        RunStaysIdle(t1, actions[1..]);
      }
    }
  }

  lemma {:induction false} RunStaysIdle(t: State, actions: seq<Action>)
    requires t.Valid() && t.session.None? && NoBegin(actions)
    ensures Run(t, actions).session.None? && Run(t, actions).log == t.log
    decreases |actions|
  {
    if actions != [] {
      RunStaysIdle(Act(t, actions[0]), actions[1..]);
    }
  }

  lemma CutAtRange(d: Text, s: Span, text: Text)
    requires s.start <= s.end <= |d| && d[s.start..s.end] == text
    ensures d == d[..s.start] + text + d[s.end..]
  {
    assert d == d[..s.start] + d[s.start..s.end] + d[s.end..];
  }

  /** The owned range is the text that was just before the collapsed caret, in a document that did not change. */
  predicate AttachedAt(t: State, t1: State, text: Text) {
    && t1.doc.text == t.doc.text && t.doc.selStart == t.doc.selEnd && |text| <= t.doc.selStart
    && t1.range == Some(Span(t.doc.selStart - |text|, t.doc.selStart))
  }

  /** The edit session of a Begin that succeeded owns exactly its text, with the caret at its end. */
  lemma EditBegun(t: State, id: string, sequence: int, text: Text, attach: bool, h: Host)
    requires t.doc.Valid() && EditBegin(t, id, sequence, text, attach, h).1
    ensures var t1 := EditBegin(t, id, sequence, text, attach, h).0;
            && t1.range.Some? && t1.range.value.start <= t1.range.value.end <= |t1.doc.text|
            && t1.doc.text[t1.range.value.start..t1.range.value.end] == text
            && t1.doc.selStart == t1.doc.selEnd == t1.range.value.end
            && t1.session == t.session && t1.modified == t.modified
            && (t1.log == t.log ==> attach && AttachedAt(t, t1, text))
  {
  }

  /** What a Begin that opens a session makes of the document. */
  lemma BegunSession(t: State, c: Command, h: Host)
    requires t.Valid() && t.session.None? && c.Begin? && Execute(t, c, h).1.Begun?
    ensures var t1 := Execute(t, c, h).0;
            && t1.session == Some(c.id) && t1.sequence == c.sequence && t1.text == c.text
            && !t1.modified && Matches(t1)
            && t1.doc.text == Before(t1) + c.text + After(t1)
            && (t1.log == t.log ==> c.attachExisting && AttachedAt(t, t1, c.text))
  {
    var t1 := Execute(t, c, h).0;
    EditBegun(t.(session := Some(c.id), sink := true), c.id, c.sequence, c.text, c.attachExisting, h);
    CutAtRange(t1.doc.text, t1.range.value, c.text);
  }

  /** Unless it attached to the text before the caret, it replaced the selection. */
  lemma BegunSurroundings(t: State, c: Command, h: Host)
    requires t.Valid() && t.session.None? && c.Begin? && Execute(t, c, h).1.Begun?
    ensures var t1 := Execute(t, c, h).0;
            t1.session.Some?
            && (t1.log != t.log ==> Before(t1) == t.doc.text[..t.doc.selStart] && After(t1) == t.doc.text[t.doc.selEnd..])
  {
  }

  /**
   A Finish that is answered Finished leaves the text before, the last applied snapshot
   and the text after, and the last applied snapshot is the one with the finished sequence.
   */
  lemma FinishedDocument(t: State, actions: seq<Action>, c: Command, h: Host)
    requires t.Valid() && t.session.Some? && Undisturbed(actions) && NoBegin(actions)
    requires c.Finish? && Execute(Run(t, actions), c, h).1.Finished?
    ensures var last := Run(t, actions);
            && last.session == t.session && last.sequence == c.sequence
            && Execute(last, c, h).0.doc.text == Before(t) + last.text + After(t)
  {
    var last := Run(t, actions);
    assert last.session.Some?;
    RunKeepsSurroundings(t, actions);
    assert last.doc.text == Before(last) + last.doc.text[last.range.value.start..last.range.value.end] + After(last);
  }

  /**
   Once the target is marked modified, no command writes again in that session: until it
   is cancelled it stays open, stays marked, and its log of writes does not grow.
   */
  lemma {:induction false} ModifiedTargetIsNeverWritten(t: State, actions: seq<Action>)
    requires t.Valid() && t.session.Some? && t.modified
    requires forall a <- actions :: a.Runs? ==> a.command != Cancel(t.session.value)
    ensures var t1 := Run(t, actions);
            t1.session == t.session && t1.modified && t1.log == t.log
    decreases |actions|
  {
    if actions != [] {
      ModifiedTargetIsNeverWritten(Act(t, actions[0]), actions[1..]);
    }
  }

  /** With this gravity an insertion lands inside the owned range exactly when it touches it. */
  lemma InsertionTouchesRange(s: Span, p: nat, n: nat)
    requires s.start <= s.end && n > 0
    ensures var s1 := ShiftRange(s, p, p, n);
            && (s.start <= p <= s.end <==> s1.end - s1.start == s.end - s.start + n)
            && (!(s.start <= p <= s.end) <==> s1.end - s1.start == s.end - s.start)
  {
  }

  /**
   Typing anywhere in or at the edge of the owned range of a matching session is seen:
   the range no longer matches, a live sink marks the target modified, and without a live
   sink the next newer Update finds out before it writes.
   */
  lemma TypingIntoRangeIsSeen(t: State, e: HostEvent, c: Command, h: Host)
    requires t.Valid() && t.session.Some? && !t.modified && Matches(t)
    requires e.Edit? && e.i == e.j && e.ins != []
    requires t.range.value.start <= e.i <= t.range.value.end
    requires e.selStart <= e.selEnd <= |t.doc.text| + |e.ins|
    requires c.Update?
    ensures var t1 := React(t, e);
            && !Matches(t1)
            && (t1.modified <==> t.sink && !t.terminated && e.readable)
            && Execute(t1, c, h).0.log == t1.log
            && Execute(t1, c, h).0.doc == t1.doc
            && (c.id == t.session.value && t.sequence < c.sequence && h.focused && h.granted ==>
                  Execute(t1, c, h).1 == CompositionTerminated && Execute(t1, c, h).0.modified)
  {
    InsertionTouchesRange(t.range.value, e.i, |e.ins|);
    var t1 := React(t, e);
    assert |t1.doc.text[t1.range.value.start..t1.range.value.end]| == |t.text| + |e.ins|;
  }

  /** An insertion elsewhere leaves the owned text as it is. */
  lemma TypingElsewhereKeepsRange(t: State, e: HostEvent)
    requires t.Valid() && t.session.Some?
    requires e.Edit? && e.i == e.j <= |t.doc.text| && e.selStart <= e.selEnd <= |t.doc.text| + |e.ins|
    requires e.i < t.range.value.start || t.range.value.end < e.i
    ensures var t1 := React(t, e);
            t1.doc.text[t1.range.value.start..t1.range.value.end] == t.doc.text[t.range.value.start..t.range.value.end]
  {
    var t1 := React(t, e);
    assert t1.doc.text[t1.range.value.start..t1.range.value.end] == t.doc.text[t.range.value.start..t.range.value.end];
  }

  // ---------------------------------------------------------------------------
  // Exactly when a command succeeds, and what it then leaves
  // ---------------------------------------------------------------------------

  /** The owned range reads the last applied text, and the caret is collapsed at its end. */
  predicate Intact(t: State)
    requires t.Valid()
  {
    && t.session.Some?
    && var a, b := t.range.value.start, t.range.value.end;
    t.doc.text[a..b] == t.text && t.doc.selStart == b && t.doc.selEnd == b
  }

  /** The document with the range replaced by `text` and the caret behind it. */
  predicate Rewritten(t: State, t1: State, text: Text)
    requires t.Valid()
  {
    && t.session.Some?
    && var a, b := t.range.value.start, t.range.value.end;
    && t1.doc.text == t.doc.text[..a] + text + t.doc.text[b..]
    && t1.range == Some(Span(a, a + |text|)) && t1.doc.selStart == t1.doc.selEnd == a + |text|
  }

  lemma EditAppliedIff(t: State, id: string, sequence: int, text: Text, h: Host)
    requires t.Valid() && t.session.Some?
    ensures var (t1, ok) := EditUpdate(t, id, sequence, text, h);
            && (ok <==> !t.modified && Intact(t) && h.granted && h.wrote && h.caretSet)
            && (ok ==> Rewritten(t, t1, text) && t1.log == t.log + [Write(id, sequence, text)] && t1.session == t.session && !t1.modified)
  {
  }

  /**
   A newer update is answered Applied exactly when the session is this one, unmodified and
   intact, and focus, grant, write and caret all succeed; and then the range reads its text.
   */
  lemma UpdateAppliedIff(t: State, id: string, sequence: int, text: Text, h: Host)
    requires t.Valid() && t.sequence < sequence
    ensures var (t1, r) := Execute(t, Update(id, sequence, text), h);
            && (r.Applied? <==> && t.session == Some(id) && !t.modified && Intact(t)
                                && h.focused && h.granted && h.wrote && h.caretSet)
            && (r.Applied? ==>
                  && r == Applied(id, sequence) && t1.session == Some(id) && t1.sequence == sequence && t1.text == text
                  && t1.log == t.log + [Write(id, sequence, text)] && Rewritten(t, t1, text) && !t1.modified)
  {
    if t.session == Some(id) {
      EditAppliedIff(t, id, sequence, text, h);
    }
  }

  lemma EditModifiedIff(t: State, id: string, sequence: int, text: Text, h: Host)
    requires t.Valid() && t.session.Some? && !t.modified
    ensures EditUpdate(t, id, sequence, text, h).0.modified <==> h.granted && !Intact(t)
  {
  }

  /** Every other answer of an update, exactly. */
  lemma UpdateRefusals(t: State, id: string, sequence: int, text: Text, h: Host)
    requires t.Valid()
    ensures var (t1, r) := Execute(t, Update(id, sequence, text), h);
            if t.session != Some(id) then r == SessionMismatch && t1 == t
            else if t.modified then r == CompositionTerminated && t1 == t
            else if sequence < t.sequence || (sequence == t.sequence && text == t.text) then r == Applied(id, t.sequence) && t1 == t
            else if sequence == t.sequence then r == SequenceConflict && t1 == t
            else if !h.focused then r == NoFocus && t1 == t
            else if h.granted && !Intact(t) then r == CompositionTerminated && t1.modified && t1.doc == t.doc
            else if h.granted && h.wrote && h.caretSet then r == Applied(id, sequence)
            else r == EditRejected && !t1.modified && t1.session == t.session && t1.sequence == t.sequence && t1.text == t.text
  {
    if t.session == Some(id) && !t.modified && t.sequence < sequence {
      EditOutcome(t, id, sequence, text, h);
      EditAppliedIff(t, id, sequence, text, h);
      EditModifiedIff(t, id, sequence, text, h);
      EditWritesOnlyTheOwnedRange(t, id, sequence, text, h);
    }
  }

  /** The caret is collapsed and just behind this text, which can be attached to. */
  predicate Attachable(d: Document, text: Text) {
    && 0 < |text| <= 2147483647 && d.selStart == d.selEnd <= |d.text| && |text| <= d.selStart
    && d.text[d.selStart - |text|..d.selStart] == text
  }

  lemma EditBegunIff(t: State, id: string, sequence: int, text: Text, attach: bool, h: Host)
    requires t.doc.Valid()
    ensures var (t1, ok) := EditBegin(t, id, sequence, text, attach, h);
            var attached := attach && h.readable && Attachable(t.doc, text);
            && (ok <==> h.granted && (attached || h.wrote) && h.caretSet)
            && (ok ==> t1.log == if attached then t.log else t.log + [Write(id, sequence, text)])
  {
  }

  /** On an idle service, a Begin begins exactly under these conditions. */
  lemma BeginBegunIff(t: State, id: string, sequence: int, text: Text, attach: bool, h: Host)
    requires t.Valid() && t.session.None?
    ensures var (t1, r) := Execute(t, Begin(id, sequence, text, attach), h);
            var attached := attach && h.readable && Attachable(t.doc, text);
            && (r == Begun(id) <==> h.focused && h.advised && h.granted && (attached || h.wrote) && h.caretSet)
            && (r == NoFocus <==> !h.focused)
            && (r != Begun(id) ==> t1.session.None? && (r == NoFocus || r == EditRejected))
            && (r == Begun(id) ==> t1.log == if attached then t.log else t.log + [Write(id, sequence, text)])
  {
    EditBegunIff(t.(session := Some(id), sink := true), id, sequence, text, attach, h);
  }

  /** A service with a session answers a Begin without changing anything. */
  lemma BoundBegin(t: State, id: string, sequence: int, text: Text, attach: bool, h: Host)
    requires t.Valid() && t.session.Some?
    ensures Execute(t, Begin(id, sequence, text, attach), h)
            == (t, if t.session != Some(id) then RebindRejected else if t.modified then CompositionTerminated else Begun(id))
  {
  }

  /** A finish succeeds exactly when session and sequence are these, nothing was modified, and the edit can be ended. */
  lemma FinishFinishedIff(t: State, id: string, sequence: int, h: Host)
    requires t.Valid()
    ensures var (t1, r) := Execute(t, Finish(id, sequence), h);
            && (r == Finished(id, sequence) <==>
                  && t.session == Some(id) && t.sequence == sequence && !t.modified && Intact(t)
                  && h.granted && (t.composition ==> h.closed))
            && (r == Finished(id, sequence) ==> t1 == Idle(t.doc, t.log))
            && (r != Finished(id, sequence) ==>
                  && t1 == t
                  && r == if t.session != Some(id) || t.sequence != sequence then SessionMismatch
                          else if t.modified then CompositionTerminated else EditRejected)
  {
  }

  /** Cancelling, asking and pinging. */
  lemma OtherAnswers(t: State, id: string, h: Host)
    requires t.Valid()
    ensures Execute(t, Cancel(id), h) == if t.session == Some(id) then (Idle(t.doc, t.log), Cancelled(id)) else (t, SessionMismatch)
    ensures Execute(t, Query(id), h)
            == (t, if t.session != Some(id) then SessionMismatch
                   else if t.modified then CompositionTerminated else SessionActive(id, t.sequence))
    ensures Execute(t, Ping, h) == (t, Ready)
  {
  }

  /** An edit in the application marks the target exactly when a live, readable session is no longer intact. */
  lemma EditMarksIff(t: State, e: HostEvent)
    requires t.Valid() && t.session.Some? && e.Edit?
    ensures var t1 := React(t, e);
            && t1.session == t.session && t1.text == t.text
            && (t1.modified <==> t.modified || (t.sink && !t.terminated && e.readable && !Intact(t1)))
  {
  }

  /** A composition the host ends outside our edits marks the target; a finish it runs by itself does not. */
  lemma EndedComposition(t: State)
    requires t.Valid() && t.session.Some?
    ensures var t1 := React(t, EndsComposition);
            if t.composition then t1.modified && t1.terminated && !t1.composition && !t1.sink else t1 == t
    ensures var t1 := React(t, RunsAsyncFinish);
            t1.modified == t.modified && t1.terminated && !t1.composition && !t1.sink && t1.doc == t.doc
  {
  }

  /** Any edit that keeps clear of the owned range leaves its text, and moves it with what comes before. */
  lemma EditElsewhereKeepsRange(t: State, e: HostEvent)
    requires t.Valid() && t.session.Some? && e.Edit?
    requires e.i <= e.j <= |t.doc.text| && e.selStart <= e.selEnd <= |t.doc.text| - (e.j - e.i) + |e.ins|
    requires e.j < t.range.value.start || t.range.value.end < e.i
    ensures var t1 := React(t, e);
            var moved := if e.j < t.range.value.start then |e.ins| - (e.j - e.i) else 0;
            && t1.range == Some(Span(t.range.value.start + moved, t.range.value.end + moved))
            && t1.doc.text == t.doc.text[..e.i] + e.ins + t.doc.text[e.j..]
            && t1.doc.text[t1.range.value.start..t1.range.value.end] == t.doc.text[t.range.value.start..t.range.value.end]
  {
    SpliceElsewhere(t.doc.text, e.i, e.j, e.ins, t.range.value.start, t.range.value.end);
  }

  lemma SpliceElsewhere(text: Text, i: nat, j: nat, ins: Text, a: nat, b: nat)
    requires i <= j <= |text| && a <= b <= |text| && (j < a || b < i)
    ensures var d := if j < a then |ins| - (j - i) else 0;
            (text[..i] + ins + text[j..])[a + d..b + d] == text[a..b]
  {
    var all, d := text[..i] + ins + text[j..], if j < a then |ins| - (j - i) else 0;
    if j < a {
      assert forall k :: a <= k < b ==> all[k + d] == text[j..][k - j] == text[k];
    } else {
      assert forall k :: a <= k < b ==> all[k] == text[k];
    }
  }
}
