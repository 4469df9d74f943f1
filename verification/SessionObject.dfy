/**
 `TipSessionModel` as the object it is, following the text service: whatever commands and
 host events come, the two objects stay equal in id, sequence, text and flags.
 */
module SessionObject {
  import opened Optional
  import opened Tip
  import opened TextService

  class TipSession {
    var session: Option<string>
    var sequence: int
    var text: Text
    var compositionEnded: bool
    var targetModified: bool

    ghost function View(): SessionModel
      reads this
    {
      SessionModel(session, sequence, text, compositionEnded, targetModified)
    }

    constructor ()
      ensures View() == CLEARED
    {
      session, sequence, text, compositionEnded, targetModified := None, 0, [], false, false;
    }

    method Begin(id: string, sequence: int, text: Text) returns (r: Answer)
      modifies this
      ensures (View(), r) == ModelApply(old(View()), ModelBegin(id, sequence, text))
    {
      if session == Some(id) {
        return if targetModified then Refused(CompositionTerminated) else Accepted;
      }
      if session.Some? { return Refused(SessionMismatch); }
      session := Some(id);
      this.sequence, this.text := sequence, text;
      compositionEnded, targetModified := false, false;
      return Accepted;
    }

    method Update(id: string, sequence: int, text: Text) returns (r: Answer)
      modifies this
      ensures (View(), r) == ModelApply(old(View()), ModelUpdate(id, sequence, text))
    {
      if session != Some(id) { return Refused(SessionMismatch); }
      if targetModified { return Refused(CompositionTerminated); }
      if sequence < this.sequence { return Stale; }
      if sequence == this.sequence {
        return if this.text == text then Stale else Refused(SequenceConflict);
      }
      this.sequence, this.text := sequence, text;
      return Accepted;
    }

    method Terminate()
      modifies this
      ensures View() == ModelApply(old(View()), ModelTerminate).0
    {
      targetModified := true;
    }

    method EndComposition()
      modifies this
      ensures View() == ModelApply(old(View()), ModelEndComposition).0
    {
      compositionEnded := true;
    }

    method Finish(id: string, sequence: int) returns (r: Answer)
      modifies this
      ensures (View(), r) == ModelApply(old(View()), ModelFinish(id, sequence))
    {
      if session != Some(id) || this.sequence != sequence { return Refused(SessionMismatch); }
      if targetModified { return Refused(CompositionTerminated); }
      Clear();
      return Accepted;
    }

    method Cancel(id: string) returns (r: Answer)
      modifies this
      ensures (View(), r) == ModelApply(old(View()), ModelCancel(id))
    {
      if session != Some(id) { return Refused(SessionMismatch); }
      Clear();
      return Accepted;
    }

    method Take(s: ModelStep) returns (r: Answer)
      modifies this
      ensures (View(), r) == ModelApply(old(View()), s)
    {
      r := Accepted;
      match s {
        case ModelBegin(id, sequence, text) => r := Begin(id, sequence, text);
        case ModelUpdate(id, sequence, text) => r := Update(id, sequence, text);
        case ModelFinish(id, sequence) => r := Finish(id, sequence);
        case ModelCancel(id) => r := Cancel(id);
        case ModelTerminate => Terminate();
        case ModelEndComposition => EndComposition();
      }
    }

    method TakeAll(steps: seq<ModelStep>)
      modifies this
      ensures View() == ModelRun(old(View()), steps)
    {
      assert steps[0..] == steps;
      for i := 0 to |steps|
        invariant ModelRun(View(), steps[i..]) == ModelRun(old(View()), steps)
      {
        assert steps[i..][0] == steps[i] && steps[i..][1..] == steps[i + 1..];
        var _ := Take(steps[i]);
      }
      assert steps[|steps|..] == [];
    }

    method Clear()
      modifies this
      ensures View() == CLEARED
    {
      session, sequence, text := None, 0, [];
      compositionEnded, targetModified := false, false;
    }
  }

  /** The service does one thing, and the model takes the steps that stand for it. */
  method Follow(service: Controller, session: TipSession, a: Action)
    requires service.Valid() && session.View() == service.cells.Model()
    modifies service, session
    ensures service.Valid() && service.cells == Act(old(service.cells), a)
    ensures session.View() == service.cells.Model()
  {
    var steps := ModelSteps(service.cells, a);
    match a {
      case Runs(c, h) =>
        CommandSimulates(service.cells, c, h);
        var _ := service.HandleCommand(c, h);
      case Reacts(e) =>
        ReactionSimulates(service.cells, e);
        service.OnHostEvent(e);
    }
    session.TakeAll(steps);
  }

  /** Over every run the text service and the session model stay equal, step by step. */
  method FollowAll(service: Controller, session: TipSession, actions: seq<Action>)
    requires service.Valid() && session.View() == service.cells.Model()
    modifies service, session
    ensures service.Valid() && service.cells == Run(old(service.cells), actions)
    ensures session.View() == service.cells.Model()
  {
    assert actions[0..] == actions;
    for i := 0 to |actions|
      invariant service.Valid() && session.View() == service.cells.Model()
      invariant Run(service.cells, actions[i..]) == Run(old(service.cells), actions)
    {
      assert actions[i..][0] == actions[i] && actions[i..][1..] == actions[i + 1..];
      Follow(service, session, actions[i]);
    }
    assert actions[|actions|..] == [];
  }
}
