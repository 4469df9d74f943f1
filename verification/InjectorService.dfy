/**
 The injector process as the object it is: `handle_request` and its helpers take the
 session out and put it back while they talk to the text services.  Every method is
 proved to do exactly what module `Injector` says.
 */
module InjectorService {
  import opened Optional
  import opened Tip
  import opened Injector

  class Service {
    var session: Option<Active>
    var completed: Option<Completed>
    var tips: map<TipKey, Line>
    var nextGeneration: nat

    ghost function View(): World
      reads this
    {
      World(session, completed, tips, nextGeneration)
    }

    ghost predicate Valid()
      reads this
    {
      TipsValid(View())
    }

    constructor ()
      ensures Valid() && View() == START
    {
      session, completed, tips, nextGeneration := None, None, map[], 1;
    }

    /** One command to one client: queued, and answered in time or not. */
    method SendTo(key: TipKey, c: Command, call: Call) returns (r: Option<Response>)
      requires Valid()
      modifies this`tips
      ensures Valid() && (View(), r) == Send(old(View()), key, c, call)
    {
      if key !in tips { return None; }
      var line := LineRun(tips[key], call.script);
      if call.timedOut {
        // a full channel holds the sender back until there is room
        ghost var room := MakesRoom(line, call.host);
        while |line.queue| >= LINE_CAPACITY
          invariant line.tip.Valid() && MakesRoom(line, call.host) == room
          decreases |line.queue|
        {
          line := LineStep(line, Delivers(call.host));
        }
        tips := tips[key := line.(queue := line.queue + [c])];
        return None;
      }
      line := line.(queue := line.queue + [c]);
      // the client works through its line, the new command last
      ghost var target := Flush(LineRun(tips[key], call.script), call.host);
      while |line.queue| > 1
        invariant line.tip.Valid()
        invariant |line.queue| >= 1 && line.queue[|line.queue| - 1] == c
        invariant Flush(Line(line.tip, line.queue[..|line.queue| - 1]), call.host) == target
        decreases |line.queue|
      {
        ghost var rest := Line(line.tip, line.queue[..|line.queue| - 1]);
        var (t, _) := Execute(line.tip, line.queue[0], call.host);
        assert LineStep(rest, Delivers(call.host)) == Line(t, line.queue[1..][..|line.queue| - 2]);
        line := Line(t, line.queue[1..]);
      }
      assert line.queue[..0] == [];
      var (t, response) := Execute(line.tip, line.queue[0], call.host);
      tips := tips[key := Line(t, [])];
      return Some(response);
    }

    method EndFailed(cleanup: Call)
      requires Valid()
      modifies this`session, this`tips
      ensures Valid() && View() == EndFailedSession(old(View()), cleanup)
    {
      if session.Some? {
        var active := session.value;
        session := None;
        var _ := SendTo(active.tip, Command.Cancel(active.id), cleanup);
      }
    }

    /** Tries the candidates until one begins, one refuses to rebind, or none is left. */
    method BeginOnTarget(c: Command, attempts: seq<Attempt>) returns (r: Registered)
      requires Valid() && c.Begin?
      modifies this`tips
      ensures Valid() && (View(), r) == BeginForTarget(old(View()), c, attempts, false)
    {
      var rejected := false;
      var i := 0;
      while i < |attempts|
        invariant 0 <= i <= |attempts|
        invariant Valid() && session == old(session) && completed == old(completed) && nextGeneration == old(nextGeneration)
        invariant BeginForTarget(View(), c, attempts[i..], rejected) == BeginForTarget(old(View()), c, attempts, false)
      {
        var a := attempts[i];
        assert attempts[i..][0] == a && attempts[i..][1..] == attempts[i + 1..];
        var response := SendTo(a.key, c, a.AsCall());
        if response == Some(Begun(c.id)) { return Registered(a.key); }
        if response == Some(NoFocus) || response == Some(EditRejected) {
          rejected := true;
        }
        if response == Some(RebindRejected) { return Failed(TargetModified); }
        i := i + 1;
      }
      return Failed(if rejected then TargetUnsupported else TsfUnavailable);
    }

    method Begin(q: Request, env: Env) returns (r: Reply)
      requires Valid() && q.BeginSession?
      modifies this
      ensures Valid() && (View(), r) == DoBeginSession(old(View()), q, env)
    {
      if session.Some? && session.value.id == q.id { return SessionBegun; }
      if completed.Some? && completed.value.id == q.id {
        return SessionFinished(q.id, completed.value.sequence, completed.value.text);
      }
      match ClassifyReplacement(if session.Some? then Some(session.value.id) else None, q.replacing) {
        case Reject => return InvalidRequest;
        case Replace => EndFailed(env.cleanup);
        case Start =>
      }
      match env.gate {
        case NoTarget => return TargetInvalid;
        case Unsupported => return TargetUnsupported;
        case NotActivated => return TargetNotForeground;
        case NoMonitor => return InjectionUnknown;
        case Open =>
      }
      r := OpenOn(q, env);
    }

    method OpenOn(q: Request, env: Env) returns (r: Reply)
      requires Valid() && q.BeginSession?
      modifies this
      ensures Valid() && (View(), r) == OpenSession(old(View()), q, env)
    {
      var begun := BeginOnTarget(BeginOf(q), env.attempts);
      if begun.Failed? { return begun.reply; }
      completed := None;
      session := Some(Active(q.id, q.sequence, q.text, begun.key, env.epoch));
      return SessionBegun;
    }

    method Apply(id: string, sequence: int, text: Text, env: Env) returns (r: Reply)
      requires Valid()
      modifies this`session, this`tips
      ensures Valid() && (View(), r) == DoApply(old(View()), id, sequence, text, env)
    {
      if session.None? || session.value.id != id { return InvalidRequest; }
      var active := session.value;
      if !env.targetValid { return TargetInvalid; }
      if active.inputEpoch != env.epoch {
        EndFailed(env.cleanup);
        return TargetModified;
      }
      if !env.foreground { return TargetNotForeground; }
      if sequence < active.sequence { return AppliedReply(active.sequence); }
      if sequence == active.sequence {
        if text == active.text { return AppliedReply(sequence); }
        EndFailed(env.cleanup);
        return InvalidRequest;
      }
      var response := SendTo(active.tip, Command.Update(id, sequence, text), env.call);
      r := Answer(active, sequence, text, response, env.cleanup);
    }

    /** What becomes of the session after the text service's answer to an update. */
    method Answer(active: Active, sequence: int, text: Text, response: Option<Response>, cleanup: Call) returns (r: Reply)
      requires Valid()
      modifies this`session, this`tips
      ensures Valid() && (View(), r) == AnswerApply(old(View()), active, sequence, text, response, cleanup)
    {
      match response {
        case Some(Applied(appliedId, applied)) =>
          if appliedId == active.id {
            if applied == sequence {
              session := Some(active.(sequence := sequence, text := text));
            }
            return AppliedReply(applied);
          }
        case Some(NoFocus) => return TargetNotForeground;
        case _ =>
      }
      EndFailed(cleanup);
      return match response
        case Some(CompositionTerminated) => TargetModified
        case Some(SessionMismatch) => InvalidRequest
        case Some(SequenceConflict) => InvalidRequest
        case _ => InjectionUnknown;
    }

    method Finish(id: string, sequence: int, env: Env) returns (r: Reply)
      requires Valid()
      modifies this`session, this`tips, this`completed
      ensures Valid() && (View(), r) == DoFinishSession(old(View()), id, sequence, env)
    {
      if session.None? { return InvalidRequest; }
      var active := session.value;
      if active.id != id || active.sequence != sequence { return InvalidRequest; }
      var response := SendTo(active.tip, Command.Finish(id, sequence), env.call);
      if response == Some(Response.Finished(id, sequence)) {
        session := None;
        completed := Some(Completed(id, sequence, active.text));
        return FinishedReply(sequence);
      }
      EndFailed(env.cleanup);
      return if response == Some(SessionMismatch) || response == Some(SequenceConflict) then InvalidRequest
             else InjectionUnknown;
    }

    method QueryActive(active: Active, env: Env) returns (r: Reply)
      requires Valid()
      modifies this`session, this`tips
      ensures Valid() && (View(), r) == AskActive(old(View()), active, env)
    {
      if active.inputEpoch != env.epoch {
        EndFailed(env.cleanup);
        return if SubmittedCandidate(active.text, active.inputEpoch, env.epoch, env.lastWasReturn)
               then TargetSubmitted else TargetModified;
      }
      if !env.queryDue { return ActiveReply(active.id, active.sequence, active.text); }
      var response := SendTo(active.tip, Command.Query(active.id), env.call);
      r := AnswerState(active, response, env);
    }

    method AnswerState(active: Active, response: Option<Response>, env: Env) returns (r: Reply)
      requires Valid()
      modifies this`session, this`tips
      ensures Valid() && (View(), r) == AnswerQuery(old(View()), active, response, env)
    {
      if response.Some? && response.value.SessionActive? {
        return ActiveReply(active.id, active.sequence, active.text);
      }
      EndFailed(env.cleanup);
      return if response == Some(CompositionTerminated)
                && SubmittedCandidate(active.text, active.inputEpoch, env.epochAfter, env.lastWasReturn)
             then TargetSubmitted else TargetModified;
    }

    method Query(id: string, env: Env) returns (r: Reply)
      requires Valid()
      modifies this`session, this`tips
      ensures Valid() && (View(), r) == DoQuerySession(old(View()), id, env)
    {
      if session.Some? && session.value.id == id {
        r := QueryActive(session.value, env);
      } else if completed.Some? && completed.value.id == id {
        r := SessionFinished(id, completed.value.sequence, completed.value.text);
      } else {
        r := SessionMissing;
      }
    }

    method HandleRequest(q: Request, env: Env) returns (r: Reply)
      requires Valid()
      modifies this
      ensures Valid() && (View(), r) == Handle(old(View()), q, env)
    {
      match q {
        case Hello => r := HelloReply;
        case BeginSession(_, _, _, _, _) => r := Begin(q, env);
        case ApplyState(id, sequence, text) =>
          var early := CompletedReply(completed, id, sequence, text);
          if early.Some? { return early.value; }
          r := Apply(id, sequence, text, env);
        case FinishSession(id, sequence) => r := Finish(id, sequence, env);
        case QuerySession(id) => r := Query(id, env);
        case ProbeTarget =>
          r := if env.gate.NoTarget? || !env.targetValid then TargetInvalid
               else if env.gate.Unsupported? then TargetUnsupported
               else TargetReady;
        case CancelInvalidSession(id) =>
          if session.Some? && session.value.id == id {
            EndFailed(env.cleanup);
          }
          r := CancelledReply;
      }
    }

    /** One request; if the two sides agreed and a Begin is answered in time, they agree afterwards. */
    method Serve(q: Request, env: Env) returns (r: Reply)
      requires Valid()
      modifies this
      ensures Valid() && (View(), r) == Handle(old(View()), q, env)
      ensures old(Agree(View())) && InTime(old(View()), q, env) ==> Agree(View())
    {
      ghost var w := View();
      if Agree(w) && InTime(w, q, env) {
        HandleAgrees(View(), q, env);
      }
      r := HandleRequest(q, env);
    }

    /** The app's pipe closed. */
    method Close(cleanup: Call)
      requires Valid()
      modifies this
      ensures Valid() && View() == Disconnect(old(View()), cleanup) && session.None? && completed.None?
      ensures old(Agree(View())) ==> Agree(View())
    {
      if Agree(View()) {
        AgreeIsRecoverable(View());
        EndFailedSessionAgrees(View(), cleanup);
      }
      EndFailed(cleanup);
      completed := None;
    }

    /** Serves one connection of the app until the pipe closes, then clears both sessions. */
    method ServeConnection(requests: seq<(Request, Env)>, cleanup: Call) returns (replies: seq<Reply>)
      requires Valid()
      modifies this
      ensures Valid() && session.None? && completed.None?
      ensures View() == Disconnect(Served(old(View()), requests).0, cleanup) && replies == Served(old(View()), requests).1
      ensures old(Agree(View())) && ServedInTime(old(View()), requests) ==> Agree(View())
    {
      replies := [];
      for i := 0 to |requests|
        invariant Valid() && (View(), replies) == Served(old(View()), requests[..i])
        invariant old(Agree(View())) && ServedInTime(old(View()), requests[..i]) ==> Agree(View())
      {
        assert requests[..i + 1][..i] == requests[..i];
        var reply := Serve(requests[i].0, requests[i].1);
        replies := replies + [reply];
      }
      assert requests[..|requests|] == requests;
      Close(cleanup);
    }
  }
}
