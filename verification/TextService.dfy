/**
 The text service as the object it is: cells that are set one after the other while a
 command runs, an edit guard, and callbacks that may arrive while the guard is up.
 Every method is proved to do exactly what module `Tip` says the command does.
 */
module TextService {
  import opened Optional
  import opened Tip

  class Controller {
    var cells: State               // the cells of CompositionState, and the document
    var applyingRemoteEdit: bool

    ghost predicate Valid()
      reads this
    {
      cells.Valid() && !applyingRemoteEdit
    }

    constructor (doc: Document)
      requires doc.Valid()
      ensures Valid() && cells == Idle(doc, [])
    {
      cells, applyingRemoteEdit := Idle(doc, []), false;
    }

    // --- CompositionState ----------------------------------------------------

    method Clear()
      modifies this
      ensures cells == Idle(old(cells.doc), old(cells.log)) && !applyingRemoteEdit
    {
      cells := cells.(sink := false);
      cells := cells.(session := None, sequence := 0, text := []);
      cells := cells.(composition := false, range := None);
      cells := cells.(terminated := false, modified := false);
      applyingRemoteEdit := false;
    }

    /** The host's callback; only a composition ended outside our own edit is external. */
    method CompositionTerminated()
      modifies this`cells
      ensures cells == MarkTerminated(
                         if applyingRemoteEdit then old(cells) else old(cells).(modified := true))
    {
      if !applyingRemoteEdit {
        cells := cells.(modified := true);
      }
      cells := cells.(terminated := true);
      cells := cells.(composition := false, sink := false);
    }

    /** The callback as it arrives in the middle of one of our edits. */
    method HostMayEnd(h: Host)
      requires applyingRemoteEdit
      modifies this`cells
      ensures cells == EndedBy(old(cells), h)
    {
      if h.ended && cells.composition {
        CompositionTerminated();
      }
    }

    method MatchesExpectedEditState() returns (r: bool)
      requires cells.Valid() && cells.session.Some?
      ensures r == Matches(cells)
    {
      var range := cells.range.value;
      if cells.doc.text[range.start..range.end] != cells.text { return false; }
      if cells.doc.selStart != cells.doc.selEnd { return false; }
      return cells.doc.selStart == range.end;
    }

    // --- EditSession ---------------------------------------------------------

    method EditBegin(id: string, sequence: int, initial: Text, attach: bool, h: Host) returns (ok: bool)
      requires cells.doc.Valid() && applyingRemoteEdit
      modifies this`cells
      ensures (cells, ok) == Tip.EditBegin(old(cells), id, sequence, initial, attach, h)
    {
      if !h.granted { return false; }
      var attached := None;
      if attach && h.readable {
        attached := ExactSuffix(cells.doc, initial);
      }
      var tracked := if attached.Some? then attached.value else Span(cells.doc.selStart, cells.doc.selEnd);
      cells := cells.(terminated := false, composition := true, range := Some(tracked));
      if attached.None? {
        if !h.wrote { return false; }
        cells := WriteRange(cells, id, sequence, initial);
      }
      HostMayEnd(h);
      ok := SetCaretToCompositionEnd(h);
    }

    method SetCaretToCompositionEnd(h: Host) returns (ok: bool)
      requires cells.range.Some?
      modifies this`cells
      ensures (cells, ok) == PlaceCaret(old(cells), h)
    {
      if !h.caretSet { return false; }
      cells := cells.(doc := SetCaret(cells.doc, cells.range.value.end));
      return true;
    }

    method EditUpdate(id: string, sequence: int, text: Text, h: Host) returns (ok: bool)
      requires cells.Valid() && cells.session.Some? && applyingRemoteEdit
      modifies this`cells
      ensures (cells, ok) == Tip.EditUpdate(old(cells), id, sequence, text, h)
    {
      if cells.modified || !h.granted { return false; }
      var matches := MatchesExpectedEditState();
      if !matches {
        cells := cells.(modified := true);
        HostMayEnd(h);
        return false;
      }
      if !h.wrote {
        HostMayEnd(h);
        return false;
      }
      cells := WriteRange(cells, id, sequence, text);
      HostMayEnd(h);
      if cells.modified { return false; }
      ok := SetCaretToCompositionEnd(h);
    }

    method EditFinish(h: Host) returns (ok: bool)
      requires cells.Valid() && cells.session.Some?
      ensures ok == (h.granted && !cells.modified && Matches(cells) && (cells.composition ==> h.closed))
    {
      if !h.granted || cells.modified { return false; }
      var matches := MatchesExpectedEditState();
      return matches && (!cells.composition || h.closed);
    }

    // --- Controller ----------------------------------------------------------

    method Begin(id: string, sequence: int, initial: Text, attach: bool, h: Host) returns (r: Response)
      requires Valid()
      modifies this
      ensures Valid()
      ensures (cells, r) == DoBegin(old(cells), id, sequence, initial, attach, h)
    {
      if cells.session == Some(id) {
        return if cells.modified then Response.CompositionTerminated else Begun(id);
      }
      if cells.session.Some? { return RebindRejected; }
      if !h.focused { return NoFocus; }
      if !h.advised {
        Clear();
        return EditRejected;
      }
      cells := cells.(sink := true);
      cells := cells.(session := Some(id), sequence := 0, text := [], modified := false);
      applyingRemoteEdit := true;
      var ok := EditBegin(id, sequence, initial, attach, h);
      applyingRemoteEdit := false;
      if !ok {
        Clear();
        return EditRejected;
      }
      cells := cells.(sequence := sequence, text := initial);
      return Begun(id);
    }

    method Update(id: string, sequence: int, text: Text, h: Host) returns (r: Response)
      requires Valid()
      modifies this
      ensures Valid()
      ensures (cells, r) == DoUpdate(old(cells), id, sequence, text, h)
    {
      if cells.session != Some(id) { return SessionMismatch; }
      if cells.modified { return Response.CompositionTerminated; }
      if sequence < cells.sequence { return Applied(id, cells.sequence); }
      if sequence == cells.sequence {
        return if text == cells.text then Applied(id, sequence) else SequenceConflict;
      }
      if !h.focused { return NoFocus; }
      applyingRemoteEdit := true;
      var ok := EditUpdate(id, sequence, text, h);
      applyingRemoteEdit := false;
      if !ok {
        return if cells.modified then Response.CompositionTerminated else EditRejected;
      }
      cells := cells.(sequence := sequence, text := text);
      return Applied(id, sequence);
    }

    method Finish(id: string, sequence: int, h: Host) returns (r: Response)
      requires Valid()
      modifies this
      ensures Valid()
      ensures (cells, r) == DoFinish(old(cells), id, sequence, h)
    {
      if cells.session != Some(id) || cells.sequence != sequence { return SessionMismatch; }
      if cells.modified { return Response.CompositionTerminated; }
      var ok := EditFinish(h);
      if !ok { return EditRejected; }
      Clear();
      return Finished(id, sequence);
    }

    method Cancel(id: string) returns (r: Response)
      requires Valid()
      modifies this
      ensures Valid()
      ensures (cells, r) == DoCancel(old(cells), id)
    {
      if cells.session != Some(id) { return SessionMismatch; }
      Clear();
      return Cancelled(id);
    }

    method Query(id: string) returns (r: Response)
      requires Valid()
      ensures r == DoQuery(cells, id)
    {
      if cells.session != Some(id) { return SessionMismatch; }
      return if cells.modified then Response.CompositionTerminated else SessionActive(id, cells.sequence);
    }

    method HandleCommand(c: Command, h: Host) returns (r: Response)
      requires Valid()
      modifies this
      ensures Valid()
      ensures (cells, r) == Execute(old(cells), c, h)
    {
      match c {
        case Begin(id, sequence, initial, attach) => r := Begin(id, sequence, initial, attach, h);
        case Update(id, sequence, text) => r := Update(id, sequence, text, h);
        case Finish(id, sequence) => r := Finish(id, sequence, h);
        case Cancel(id) => r := Cancel(id);
        case Query(id) => r := Query(id);
        case Ping => r := Ready;
      }
    }

    // --- Callbacks from the host --------------------------------------------

    /** An edit in the application followed by the sink's OnEndEdit. */
    method OnEdit(e: HostEvent)
      requires Valid() && e.Edit?
      modifies this`cells
      ensures Valid() && cells == React(old(cells), e)
    {
      cells := EditDocument(cells, e);
      if !cells.sink || cells.session.None? || applyingRemoteEdit || cells.terminated || cells.modified { return; }
      var matches := MatchesExpectedEditState();
      if e.readable && !matches {
        cells := cells.(modified := true);
      }
    }

    method OnHostEvent(e: HostEvent)
      requires Valid()
      modifies this`cells
      ensures Valid() && cells == React(old(cells), e)
    {
      match e {
        case Edit(_, _, _, _, _, _) => OnEdit(e);
        case EndsComposition =>
          if cells.composition {
            CompositionTerminated();
          }
        case RunsAsyncFinish =>
          cells := cells.(terminated := true, composition := false, sink := false);
      }
    }
  }
}
