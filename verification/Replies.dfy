/**
 What the injector answers, exactly: every outcome of every request as a condition on the
 session, on the environment, and on the state the text service is in when it executes the
 command.
 */
module Replies {
  import opened Optional
  import opened Tip
  import opened Injector
  import opened Dispatcher

  /** The session's service is connected, and the call is answered in time. */
  predicate Reaches(w: World, call: Call) {
    w.session.Some? && w.session.value.tip in w.tips && !call.timedOut
  }

  /** The state in which the session's service executes the command of this call. */
  function AtCall(w: World, call: Call): (t: State)
    requires TipsValid(w) && Reaches(w, call)
    ensures t.Valid()
  {
    LineRun(w.tips[w.session.value.tip], call.script).tip
  }

  /** Two sides that agree are such that the active session's service holds it. */
  lemma AgreeIsHeld(w: World)
    requires Agree(w)
    ensures OwnHeld(w)
  {
  }

  lemma HeldAnswer(w: World, c: Command, call: Call)
    requires OwnHeld(w) && Reaches(w, call)
    ensures var key, t := w.session.value.tip, AtCall(w, call);
            && t.session == Some(w.session.value.id) && t.sequence == w.session.value.sequence && t.text == w.session.value.text
            && Send(w, key, c, call) == (w.(tips := w.tips[key := Line(Execute(t, c, call.host).0, [])]), Some(Execute(t, c, call.host).1))
  {
    HeldRun(w.tips[w.session.value.tip], w.session.value, call.script);
  }

  lemma NoAnswer(w: World, c: Command, call: Call)
    requires TipsValid(w) && w.session.Some? && !Reaches(w, call)
    ensures Send(w, w.session.value.tip, c, call).1.None?
  {
  }

  // ---------------------------------------------------------------------------
  // Finish
  // ---------------------------------------------------------------------------

  ghost predicate CanFinish(w: World, id: string, sequence: int, call: Call)
    requires TipsValid(w)
  {
    && Reaches(w, call) && w.session.value.id == id && w.session.value.sequence == sequence
    && var t := AtCall(w, call);
    !t.modified && Intact(t) && call.host.granted && (t.composition ==> call.host.closed)
  }

  /** The service's answer to the finish of its session, when it is reached. */
  lemma FinishAnswer(w: World, call: Call)
    requires OwnHeld(w) && Reaches(w, call)
    ensures var a, t := w.session.value, AtCall(w, call);
            var (w1, response) := Send(w, a.tip, Command.Finish(a.id, a.sequence), call);
            if CanFinish(w, a.id, a.sequence, call) then
              && response == Some(Response.Finished(a.id, a.sequence))
              && a.tip in w1.tips && w1.tips[a.tip].tip.session.None? && w1.tips[a.tip].tip.doc == t.doc
            else response == Some(CompositionTerminated) || response == Some(EditRejected)
  {
    var a := w.session.value;
    HeldAnswer(w, Command.Finish(a.id, a.sequence), call);
    FinishFinishedIff(AtCall(w, call), a.id, a.sequence, call.host);
  }

  /**
   A finish succeeds exactly when the session has this id and sequence, its service is
   reached, and there the target is unmodified and intact, the edit is granted and the
   composition can be ended.  Then the session is gone and remembered.
   */
  lemma FinishSucceedsIff(w: World, id: string, sequence: int, env: Env)
    requires OwnHeld(w)
    ensures var (w1, reply) := Handle(w, FinishSession(id, sequence), env);
            && (reply == FinishedReply(sequence) <==> CanFinish(w, id, sequence, env.call))
            && (reply == FinishedReply(sequence) ==>
                  && w1.session.None? && w1.completed == Some(Completed(id, sequence, w.session.value.text))
                  && w.session.value.tip in w1.tips && w1.tips[w.session.value.tip].tip.session.None?
                  && w1.tips[w.session.value.tip].tip.doc == AtCall(w, env.call).doc)
  {
    if w.session.Some? && w.session.value.id == id && w.session.value.sequence == sequence {
      if Reaches(w, env.call) {
        FinishAnswer(w, env.call);
      } else {
        NoAnswer(w, Command.Finish(id, sequence), env.call);
      }
    }
  }

  /** A finish of another session or sequence changes nothing; any other that fails ends the session. */
  lemma FinishRefusals(w: World, id: string, sequence: int, env: Env)
    requires OwnHeld(w) && !CanFinish(w, id, sequence, env.call)
    ensures var (w1, reply) := Handle(w, FinishSession(id, sequence), env);
            if w.session.None? || w.session.value.id != id || w.session.value.sequence != sequence
            then reply == InvalidRequest && w1 == w
            else reply == InjectionUnknown && w1.session.None? && w1.completed == w.completed
  {
    if w.session.Some? && w.session.value.id == id && w.session.value.sequence == sequence {
      if Reaches(w, env.call) {
        FinishAnswer(w, env.call);
      } else {
        NoAnswer(w, Command.Finish(id, sequence), env.call);
      }
    }
  }

  // ---------------------------------------------------------------------------
  // Apply
  // ---------------------------------------------------------------------------

  ghost predicate CanApply(w: World, env: Env)
    requires TipsValid(w) && w.session.Some?
  {
    && env.targetValid && w.session.value.inputEpoch == env.epoch && env.foreground && Reaches(w, env.call)
    && var t, h := AtCall(w, env.call), env.call.host;
    !t.modified && Intact(t) && h.focused && h.granted && h.wrote && h.caretSet
  }

  /** What each answer of the service makes of an update. */
  lemma AnswerReplies(w: World, a: Active, sequence: int, text: Text, response: Option<Response>, cleanup: Call)
    requires TipsValid(w)
    requires response.Some? ==> response.value in {Applied(a.id, sequence), NoFocus, CompositionTerminated, EditRejected}
    ensures var (w1, reply) := AnswerApply(w, a, sequence, text, response, cleanup);
            if response == Some(Applied(a.id, sequence)) then
              w1 == w.(session := Some(a.(sequence := sequence, text := text))) && reply == AppliedReply(sequence)
            else if response == Some(NoFocus) then w1 == w && reply == TargetNotForeground
            else w1.session.None? && reply == if response == Some(CompositionTerminated) then TargetModified else InjectionUnknown
  {
  }

  /** The service's answer to the newer snapshot, when it is reached. */
  lemma UpdateAnswer(w: World, sequence: int, text: Text, call: Call)
    requires OwnHeld(w) && Reaches(w, call) && w.session.value.sequence < sequence
    ensures var a, t, h := w.session.value, AtCall(w, call), call.host;
            var (w1, response) := Send(w, a.tip, Command.Update(a.id, sequence, text), call);
            && w1.session == w.session && a.tip in w1.tips
            && response == Some(if t.modified || (h.focused && h.granted && !Intact(t)) then CompositionTerminated
                                else if !h.focused then NoFocus
                                else if h.granted && h.wrote && h.caretSet then Applied(a.id, sequence) else EditRejected)
            && (response == Some(Applied(a.id, sequence)) ==>
                  var t1 := w1.tips[a.tip].tip;
                  && t1.session == Some(a.id) && t1.sequence == sequence && t1.text == text
                  && Rewritten(t, t1, text) && t1.log == t.log + [Write(a.id, sequence, text)])
  {
    var a, t := w.session.value, AtCall(w, call);
    HeldAnswer(w, Command.Update(a.id, sequence, text), call);
    UpdateAppliedIff(t, a.id, sequence, text, call.host);
    UpdateRefusals(t, a.id, sequence, text, call.host);
  }

  /**
   A newer snapshot is answered Applied exactly when the target, the input and the window are
   still right, the service is reached, and there the update succeeds.  Then the range in the
   document reads the snapshot, with the caret behind it, and both sides have it.
   */
  lemma ApplySucceedsIff(w: World, q: Request, env: Env)
    requires OwnHeld(w) && q.ApplyState? && (w.completed.Some? ==> w.completed.value.id != q.id)
    requires w.session.Some? && w.session.value.id == q.id && w.session.value.sequence < q.sequence
    ensures Handle(w, q, env).1.AppliedReply? <==> CanApply(w, env)
    ensures CanApply(w, env) ==> Applies(w, q, env.call, Handle(w, q, env).0, Handle(w, q, env).1)
  {
    ApplyUnsentReplies(w, q, env);
    if Sends(w, q.id, q.sequence, env) {
      ApplySent(w, q, env);
    }
  }

  /** The snapshot is in the document, and with both sides. */
  ghost predicate Applies(w: World, q: Request, call: Call, w1: World, reply: Reply)
    requires TipsValid(w) && Reaches(w, call) && q.ApplyState?
  {
    && reply == AppliedReply(q.sequence)
    && w1.session == Some(w.session.value.(sequence := q.sequence, text := q.text))
    && w.session.value.tip in w1.tips
    && var t, t1 := AtCall(w, call), w1.tips[w.session.value.tip].tip;
    && t1.session == Some(q.id) && t1.sequence == q.sequence && t1.text == q.text
    && Rewritten(t, t1, q.text) && t1.log == t.log + [Write(q.id, q.sequence, q.text)]
  }

  /** What is answered once the update was sent. */
  lemma ApplySent(w: World, q: Request, env: Env)
    requires OwnHeld(w) && q.ApplyState? && (w.completed.Some? ==> w.completed.value.id != q.id)
    requires Sends(w, q.id, q.sequence, env)
    ensures var (w1, reply) := Handle(w, q, env);
            var h := env.call.host;
            if !Reaches(w, env.call) then w1.session.None? && reply == InjectionUnknown
            else
              var t := AtCall(w, env.call);
              if t.modified || (h.focused && h.granted && !Intact(t)) then w1.session.None? && reply == TargetModified
              else if !h.focused then w1.session == w.session && reply == TargetNotForeground
              else if h.granted && h.wrote && h.caretSet then Applies(w, q, env.call, w1, reply)
              else w1.session.None? && reply == InjectionUnknown
  {
    var c, a := Command.Update(q.id, q.sequence, q.text), w.session.value;
    var (w1, response) := Send(w, a.tip, c, env.call);
    SentApply(w, q.id, q.sequence, q.text, env);
    assert Handle(w, q, env) == AnswerApply(w1, a, q.sequence, q.text, response, env.cleanup);
    if Reaches(w, env.call) {
      UpdateAnswer(w, q.sequence, q.text, env.call);
    } else {
      NoAnswer(w, c, env.call);
    }
    AnswerReplies(w1, a, q.sequence, q.text, response, env.cleanup);
  }

  /** What is answered before the service is asked. */
  lemma ApplyUnsentReplies(w: World, q: Request, env: Env)
    requires TipsValid(w) && q.ApplyState?
    ensures var (w1, reply) := Handle(w, q, env);
            if w.completed.Some? && w.completed.value.id == q.id then
              w1 == w && reply == if w.completed.value == Completed(q.id, q.sequence, q.text) then FinishedReply(q.sequence) else InvalidRequest
            else if w.session.None? || w.session.value.id != q.id then w1 == w && reply == InvalidRequest
            else if !env.targetValid then w1 == w && reply == TargetInvalid
            else if w.session.value.inputEpoch != env.epoch then w1.session.None? && reply == TargetModified
            else if !env.foreground then w1 == w && reply == TargetNotForeground
            else if q.sequence < w.session.value.sequence then w1 == w && reply == AppliedReply(w.session.value.sequence)
            else if q.sequence == w.session.value.sequence && q.text == w.session.value.text then w1 == w && reply == AppliedReply(q.sequence)
            else if q.sequence == w.session.value.sequence then w1.session.None? && reply == InvalidRequest
            else Sends(w, q.id, q.sequence, env)
  {
  }

  // ---------------------------------------------------------------------------
  // Query, cancel and the rest
  // ---------------------------------------------------------------------------

  /** The user pressed Return: the snapshot ends in a line feed and a real Return came since. */
  predicate Submitted(text: Text, was: nat, now: nat, lastWasReturn: bool) {
    0 < |text| && text[|text| - 1] == '\n' && was != now && lastWasReturn
  }

  /** The query of the active session. */
  lemma QueryReplies(w: World, id: string, env: Env)
    requires OwnHeld(w) && w.session.Some? && w.session.value.id == id
    ensures var (w1, reply) := Handle(w, QuerySession(id), env);
            var a := w.session.value;
            if a.inputEpoch != env.epoch then
              w1.session.None? && reply == if Submitted(a.text, a.inputEpoch, env.epoch, env.lastWasReturn) then TargetSubmitted else TargetModified
            else if !env.queryDue then w1 == w && reply == ActiveReply(id, a.sequence, a.text)
            else if Reaches(w, env.call) && !AtCall(w, env.call).modified then
              w1.session == w.session && reply == ActiveReply(id, a.sequence, a.text)
            else
              && w1.session.None?
              && reply == if Reaches(w, env.call) && Submitted(a.text, a.inputEpoch, env.epochAfter, env.lastWasReturn)
                          then TargetSubmitted else TargetModified
  {
    if SendsQuery(w, id, env) {
      SentQuery(w, id, env);
      if Reaches(w, env.call) {
        HeldAnswer(w, Command.Query(id), env.call);
        OtherAnswers(AtCall(w, env.call), id, env.call.host);
      } else {
        NoAnswer(w, Command.Query(id), env.call);
      }
    }
  }

  /** Asking about any other session, cancelling, and the requests that touch no session. */
  lemma OtherReplies(w: World, id: string, env: Env)
    requires TipsValid(w)
    ensures w.session.None? || w.session.value.id != id ==>
              Handle(w, QuerySession(id), env)
              == (w, if w.completed.Some? && w.completed.value.id == id
                     then SessionFinished(id, w.completed.value.sequence, w.completed.value.text) else SessionMissing)
    ensures var (w1, reply) := Handle(w, CancelInvalidSession(id), env);
            reply == CancelledReply && if w.session.Some? && w.session.value.id == id then w1.session.None? else w1 == w
    ensures Handle(w, Hello, env) == (w, HelloReply)
    ensures Handle(w, ProbeTarget, env)
            == (w, if env.gate.NoTarget? || !env.targetValid then TargetInvalid
                   else if env.gate.Unsupported? then TargetUnsupported else TargetReady)
  {
  }

  // ---------------------------------------------------------------------------
  // Begin
  // ---------------------------------------------------------------------------

  /** What is answered before any client is asked. */
  lemma BeginReplies(w: World, q: Request, env: Env)
    requires TipsValid(w) && q.BeginSession?
    ensures var (w1, reply) := Handle(w, q, env);
            if w.session.Some? && w.session.value.id == q.id then w1 == w && reply == SessionBegun
            else if w.completed.Some? && w.completed.value.id == q.id then
              w1 == w && reply == SessionFinished(q.id, w.completed.value.sequence, w.completed.value.text)
            else if w.session.Some? && q.replacing != Some(w.session.value.id) then w1 == w && reply == InvalidRequest
            else (w1, reply) == OpenOnTarget(EndFailedSession(w, env.cleanup), q, env)
  {
    if !BeginChangesNothing(w, q) {
      BeginShape(w, q, env);
    }
  }

  lemma GateReplies(w: World, q: Request, env: Env)
    requires TipsValid(w) && q.BeginSession?
    ensures OpenOnTarget(w, q, env)
            == match env.gate
               case NoTarget => (w, TargetInvalid)
               case Unsupported => (w, TargetUnsupported)
               case NotActivated => (w, TargetNotForeground)
               case NoMonitor => (w, InjectionUnknown)
               case Open => OpenSession(w, q, env)
  {
  }

  /** How the candidates' answers add up. */
  lemma {:induction false} CandidateReplies(w: World, c: Command, attempts: seq<Attempt>, rejected: bool)
    requires Agree(w) && w.session.None? && c.Begin? && !LeftWaiting(w, c, attempts)
    ensures var begun := BeginForTarget(w, c, attempts, rejected).1;
            if WhenBegun(w, c, attempts).Some? then begun.Registered?
            else begun == Failed(if rejected || exists i :: 0 <= i < |attempts| && attempts[i].key in w.tips then TargetUnsupported else TsfUnavailable)
    decreases |attempts|
  {
    if attempts != [] {
      var a := attempts[0];
      var (w1, response) := Send(w, a.key, c, a.AsCall());
      WhenBegunUnrolled(w, c, attempts);
      AnsweredAttemptAgrees(w, c, a, 0);
      if a.key in w.tips {
        SettledBegin(w.tips[a.key], c, a.AsCall());
      }
      if response != Some(Begun(c.id)) {
        var more := rejected || response == Some(NoFocus) || response == Some(EditRejected);
        CandidateReplies(w1, c, attempts[1..], more);
        Candidates(w, w1, attempts, rejected, more);
        assert BeginForTarget(w, c, attempts, rejected) == BeginForTarget(w1, c, attempts[1..], more);
      }
    }
  }

  lemma Candidates(w: World, w1: World, attempts: seq<Attempt>, rejected: bool, more: bool)
    requires attempts != [] && w1.tips.Keys == w.tips.Keys && more == (rejected || attempts[0].key in w.tips)
    ensures (more || exists i :: 0 <= i < |attempts| - 1 && attempts[1..][i].key in w1.tips)
            <==> (rejected || exists i :: 0 <= i < |attempts| && attempts[i].key in w.tips)
  {
    if i :| 0 < i < |attempts| && attempts[i].key in w.tips {
      assert attempts[1..][i - 1] == attempts[i];
    }
  }

  /**
   On agreed ground a Begin that reaches the clients opens the session exactly when one of
   them began, and otherwise tells a target without a text service from one that refuses.
   */
  lemma OpenReplies(w: World, q: Request, env: Env)
    requires Agree(w) && w.session.None? && q.BeginSession? && !LeftWaiting(w, BeginOf(q), env.attempts)
    ensures var (w1, reply) := OpenSession(w, q, env);
            if WhenBegun(w, BeginOf(q), env.attempts).Some? then
              && reply == SessionBegun && w1.completed.None? && w1.session.Some?
              && w1.session.value == Active(q.id, q.sequence, q.text, w1.session.value.tip, env.epoch)
            else
              && w1.session.None? && w1.completed == w.completed
              && reply == if exists i :: 0 <= i < |env.attempts| && env.attempts[i].key in w.tips then TargetUnsupported else TsfUnavailable
  {
    CandidateReplies(w, BeginOf(q), env.attempts, false);
    var (w1, begun) := BeginForTarget(w, BeginOf(q), env.attempts, false);
    assert OpenSession(w, q, env) == Register(w1, begun, q, env.epoch);
  }

  // ---------------------------------------------------------------------------
  // Recovery over a new pipe
  // ---------------------------------------------------------------------------

  /** The input is the session's, and its service need not be asked, or is reached and unmodified. */
  ghost predicate FoundAlive(w: World, env: Env)
    requires TipsValid(w) && w.session.Some?
  {
    w.session.value.inputEpoch == env.epoch && (env.queryDue ==> Reaches(w, env.call) && !AtCall(w, env.call).modified)
  }

  /** The query leaves a session exactly when it finds it alive. */
  lemma QueryKeepsIff(w: World, id: string, env: Env)
    requires OwnHeld(w) && HasSession(w, id)
    ensures var w2 := Handle(w, QuerySession(id), env).0;
            (HasSession(w2, id) <==> FoundAlive(w, env)) && (HasSession(w2, id) ==> w2.session == w.session)
  {
    QueryReplies(w, id, env);
  }

  /**
   What a lost request comes to with the same injector over pipes that work.  The session at
   an older snapshot, or at the one to finish: the request is handled again and its reply is
   the outcome.  Exactly this snapshot, active or completed: it is confirmed.  In every other
   case the app has to recover.
   */
  lemma LostRequestOutcome(w: World, q: Request, query: Answers, retry: Answers, w1: World, r: Outcome)
    requires OwnHeld(w) && (q.ApplyState? || q.FinishSession?) && query.pipe.Works? && retry.pipe.Works?
    requires Reconciles(w, q, query, retry, w1, r)
    ensures var w2 := Handle(w, QuerySession(q.id), query.env).0;
            var alive := HasSession(w, q.id) && FoundAlive(w, query.env);
            if alive && (if q.ApplyState? then w.session.value.sequence < q.sequence else w.session.value.sequence == q.sequence)
            then w1 == Handle(w2, q, retry.env).0 && r == Ok(Handle(w2, q, retry.env).1)
            else if alive && q.ApplyState? && w.session.value.sequence == q.sequence && w.session.value.text == q.text
            then r == Ok(AppliedReply(q.sequence))
            else if !HasSession(w, q.id) && w.completed.Some? && w.completed.value.id == q.id && w.completed.value.sequence == q.sequence
                    && (q.ApplyState? ==> w.completed.value.text == q.text)
            then w1 == w && r == Ok(FinishedReply(q.sequence))
            else r == RecoveryRequired
  {
    if HasSession(w, q.id) {
      QueryKeepsIff(w, q.id, query.env);
    } else {
      OtherReplies(w, q.id, query.env);
    }
  }
}
