/**
 The desktop app's side of the injector pipe: one request at a time, and a recovery when
 the pipe fails before or after the request ran.  The injector behind the pipe may keep
 or clear its session when the pipe closes, and may be another instance afterwards.
 */
module Dispatcher {
  import opened Optional
  import opened Tip
  import opened Injector

  // ---------------------------------------------------------------------------
  // How often a snapshot was, or still may be, written
  // ---------------------------------------------------------------------------

  function Writes(log: seq<Write>, id: string, sequence: int): nat {
    if log == [] then 0
    else
      var last := log[|log| - 1];
      Writes(log[..|log| - 1], id, sequence) + if last.id == id && last.sequence == sequence then 1 else 0
  }

  /** Executing the command may write this snapshot. */
  predicate Carries(c: Command, id: string, sequence: int) {
    (c.Update? || c.Begin?) && c.id == id && c.sequence == sequence
  }

  function Waiting(queue: seq<Command>, id: string, sequence: int): nat {
    if queue == [] then 0
    else (if Carries(queue[0], id, sequence) then 1 else 0) + Waiting(queue[1..], id, sequence)
  }

  /** Writes done for a snapshot plus writes still waiting in the line. */
  function Uses(l: Line, id: string, sequence: int): nat {
    Writes(l.tip.log, id, sequence) + Waiting(l.queue, id, sequence)
  }

  lemma WritesAppend(log: seq<Write>, w: Write, id: string, sequence: int)
    ensures Writes(log + [w], id, sequence)
            == Writes(log, id, sequence) + if w.id == id && w.sequence == sequence then 1 else 0
  {
    assert (log + [w])[..|log|] == log;
  }

  lemma {:induction false} WaitingAppend(queue: seq<Command>, c: Command, id: string, sequence: int)
    ensures Waiting(queue + [c], id, sequence)
            == Waiting(queue, id, sequence) + if Carries(c, id, sequence) then 1 else 0
  {
    if queue == [] {
      assert queue + [c] == [c];
    } else {
      assert (queue + [c])[1..] == queue[1..] + [c];
      WaitingAppend(queue[1..], c, id, sequence);
    }
  }

  lemma BeginLog(t: State, c: Command, h: Host)
    requires t.Valid() && c.Begin?
    ensures var log := Execute(t, c, h).0.log; log == t.log || log == t.log + [Write(c.id, c.sequence, c.text)]
  {
  }

  /** This answer means that nothing was written: no focus, or an update older than what the service has. */
  predicate NothingWritten(c: Command, r: Response) {
    r.NoFocus? || (c.Update? && r.Applied? && r.sequence != c.sequence)
  }

  /** Executing a command writes at most once, and only the snapshot it carries. */
  lemma CommandLog(t: State, c: Command, h: Host)
    requires t.Valid()
    ensures var (t1, r) := Execute(t, c, h);
            && (t1.log == t.log || ((c.Update? || c.Begin?) && t1.log == t.log + [Write(c.id, c.sequence, c.text)]))
            && (NothingWritten(c, r) ==> t1.log == t.log)
  {
    if c.Begin? {
      BeginLog(t, c, h);
    } else if t.session.Some? {
      CommandsWriteOnlyTheOwnedRange(t, c, h);
    }
  }

  lemma ExecuteUses(t: State, c: Command, h: Host, id: string, sequence: int)
    requires t.Valid()
    ensures var (t1, r) := Execute(t, c, h);
            && Writes(t1.log, id, sequence) <= Writes(t.log, id, sequence) + (if Carries(c, id, sequence) then 1 else 0)
            && (NothingWritten(c, r) ==> t1.log == t.log)
  {
    CommandLog(t, c, h);
    if Execute(t, c, h).0.log != t.log {
      WritesAppend(t.log, Write(c.id, c.sequence, c.text), id, sequence);
    }
  }

  lemma LineStepUses(l: Line, e: TipEvent, id: string, sequence: int)
    requires l.tip.Valid()
    ensures Uses(LineStep(l, e), id, sequence) <= Uses(l, id, sequence)
  {
    if e.Delivers? && l.queue != [] {
      ExecuteUses(l.tip, l.queue[0], e.host, id, sequence);
    }
  }

  lemma {:induction false} LineRunUses(l: Line, script: seq<TipEvent>, id: string, sequence: int)
    requires l.tip.Valid()
    ensures Uses(LineRun(l, script), id, sequence) <= Uses(l, id, sequence)
    decreases |script|
  {
    if script != [] {
      LineStepUses(l, script[0], id, sequence);
      LineRunUses(LineStep(l, script[0]), script[1..], id, sequence);
    }
  }

  lemma {:induction false} FlushUses(l: Line, h: Host, id: string, sequence: int)
    requires l.tip.Valid()
    ensures Uses(Flush(l, h), id, sequence) <= Uses(l, id, sequence)
    decreases |l.queue|
  {
    if l.queue != [] {
      LineStepUses(l, Delivers(h), id, sequence);
      FlushUses(LineStep(l, Delivers(h)), h, id, sequence);
    }
  }

  /** A call costs one use only if it carries the snapshot. */
  lemma CallUses(l: Line, c: Command, call: Call, id: string, sequence: int)
    requires l.tip.Valid()
    ensures var cost := if Carries(c, id, sequence) then 1 else 0;
            var (l1, response) := Answered(l, c, call);
            && Uses(l1, id, sequence) <= Uses(l, id, sequence) + cost
            && Uses(TimedOut(l, c, call), id, sequence) <= Uses(l, id, sequence) + cost
            && (NothingWritten(c, response) ==> Uses(l1, id, sequence) <= Uses(l, id, sequence))
  {
    LineRunUses(l, call.script, id, sequence);
    var l1 := LineRun(l, call.script);
    var room := WaitingForRoomIsAScript(l1, call.host);
    LineRunUses(l1, room, id, sequence);
    WaitingAppend(MakesRoom(l1, call.host).queue, c, id, sequence);
    FlushUses(l1, call.host, id, sequence);
    ExecuteUses(Flush(l1, call.host).tip, c, call.host, id, sequence);
  }

  /** From `w` to `w1` every service's uses of the snapshot grew by at most what `at` allows. */
  ghost predicate UsesBounded(w: World, w1: World, id: string, sequence: int, at: Option<TipKey>) {
    && w1.tips.Keys == w.tips.Keys
    && forall k <- w.tips :: Uses(w1.tips[k], id, sequence) <= Uses(w.tips[k], id, sequence) + if at == Some(k) then 1 else 0
  }

  lemma SendUses(w: World, key: TipKey, c: Command, call: Call, id: string, sequence: int)
    requires TipsValid(w)
    ensures var (w1, response) := Send(w, key, c, call);
            && UsesBounded(w, w1, id, sequence, if Carries(c, id, sequence) then Some(key) else None)
            && (response.Some? && NothingWritten(c, response.value) ==> UsesBounded(w, w1, id, sequence, None))
  {
    if key in w.tips {
      CallUses(w.tips[key], c, call, id, sequence);
    }
  }

  lemma EndFailedUses(w: World, cleanup: Call, id: string, sequence: int)
    requires TipsValid(w)
    ensures UsesBounded(w, EndFailedSession(w, cleanup), id, sequence, None)
  {
    if w.session.Some? {
      SendUses(w.(session := None), w.session.value.tip, Command.Cancel(w.session.value.id), cleanup, id, sequence);
    }
  }

  /** The snapshot can no longer be written by applying it again: nothing newer is pending here. */
  ghost predicate Spent(w: World, id: string, sequence: int) {
    w.session.Some? && w.session.value.id == id ==> sequence <= w.session.value.sequence
  }

  lemma UsesThen(w: World, w1: World, w2: World, id: string, sequence: int, at: Option<TipKey>)
    requires UsesBounded(w, w1, id, sequence, at) && UsesBounded(w1, w2, id, sequence, None)
    ensures UsesBounded(w, w2, id, sequence, at)
  {
  }

  /** The ways an apply that was sent on can end. */
  ghost predicate SentEnds(w: World, id: string, sequence: int, text: Text, env: Env, w2: World)
    requires TipsValid(w) && w.session.Some?
  {
    var active, c := w.session.value, Command.Update(id, sequence, text);
    var (w1, response) := Send(w, active.tip, c, env.call);
    || (response.Some? && NothingWritten(c, response.value) && w2 == w1)
    || (w2.tips == w1.tips && w2.session == Some(active.(sequence := sequence, text := text)))
    || w2 == EndFailedSession(w1, env.cleanup)
  }

  lemma AnswerSpends(w: World, id: string, sequence: int, text: Text, env: Env)
    requires TipsValid(w) && Sends(w, id, sequence, env)
    ensures SentEnds(w, id, sequence, text, env, DoApply(w, id, sequence, text, env).0)
  {
    var c, active := Command.Update(id, sequence, text), w.session.value;
    var (w1, response) := Send(w, active.tip, c, env.call);
    SentApply(w, id, sequence, text, env);
    AnswerShape(w1, active, sequence, text, response, env.cleanup);
  }

  /** An update that was sent uses its snapshot at most once; if it may have, the snapshot is spent. */
  lemma SentUses(w: World, id: string, sequence: int, text: Text, env: Env, w2: World)
    requires TipsValid(w) && w.session.Some? && w.session.value.id == id && w.session.value.sequence < sequence
    requires SentEnds(w, id, sequence, text, env, w2)
    ensures UsesBounded(w, w2, id, sequence, Some(w.session.value.tip))
    ensures UsesBounded(w, w2, id, sequence, None) || Spent(w2, id, sequence)
  {
    var c, key := Command.Update(id, sequence, text), w.session.value.tip;
    var w1 := Send(w, key, c, env.call).0;
    SendUses(w, key, c, env.call, id, sequence);
    EndFailedUses(w1, env.cleanup, id, sequence);
    UsesThen(w, w1, EndFailedSession(w1, env.cleanup), id, sequence, Some(key));
  }

  /**
   In any state, applying a snapshot uses it at most once, at the session's service; if it
   may have been used, applying it again can no longer use it.
   */
  lemma ApplyUses(w: World, id: string, sequence: int, text: Text, env: Env)
    requires TipsValid(w)
    ensures var w1 := DoApply(w, id, sequence, text, env).0;
            || UsesBounded(w, w1, id, sequence, None)
            || (w.session.Some? && Spent(w1, id, sequence) && !Spent(w, id, sequence)
                && UsesBounded(w, w1, id, sequence, Some(w.session.value.tip)))
  {
    if Sends(w, id, sequence, env) {
      AnswerSpends(w, id, sequence, text, env);
      SentUses(w, id, sequence, text, env, DoApply(w, id, sequence, text, env).0);
    } else {
      UnsentApply(w, id, sequence, text, env);
      EndFailedUses(w, env.cleanup, id, sequence);
    }
  }

  /** Asking about a session never uses a snapshot, and never brings a session back. */
  lemma QueryUses(w: World, query: string, env: Env, id: string, sequence: int)
    requires TipsValid(w)
    ensures var w1 := DoQuerySession(w, query, env).0;
            UsesBounded(w, w1, id, sequence, None) && (w1.session.Some? ==> w1.session == w.session)
  {
    if w.session.Some? && w.session.value.id == query {
      QueryShape(w, query, env);
      EndFailedUses(w, env.cleanup, id, sequence);
      var c := Command.Query(query);
      var w1 := Send(w, w.session.value.tip, c, env.call).0;
      SendUses(w, w.session.value.tip, c, env.call, id, sequence);
      EndFailedUses(w1, env.cleanup, id, sequence);
      UsesThen(w, w1, EndFailedSession(w1, env.cleanup), id, sequence, None);
    }
  }

  // ---------------------------------------------------------------------------
  // Recovery
  // ---------------------------------------------------------------------------

  datatype Decision = ItApplied | ItFinished | Retry | Unknown

  function ClassifyApply(id: string, sequence: int, text: Text, state: Reply): Decision {
    match state
    case SessionFinished(i, s, t) => if i == id && s == sequence && t == text then ItFinished else Unknown
    case ActiveReply(i, s, t) =>
      if i == id && s == sequence && t == text then ItApplied
      else if i == id && s < sequence then Retry
      else Unknown
    case _ => Unknown
  }

  function ClassifyFinish(id: string, sequence: int, state: Reply): Decision {
    match state
    case SessionFinished(i, s, _) => if i == id && s == sequence then ItFinished else Unknown
    case ActiveReply(i, s, _) => if i == id && s == sequence then Retry else Unknown
    case _ => Unknown
  }

  /** The injector process at the other end of the pipe. */
  datatype Peer = Peer(instance: nat, world: World)

  /** How the pipe behaves during one request, and what the injector does when it closes. */
  datatype Pipe = Works | FailsBefore(close: Closing) | FailsAfter(close: Closing)

  datatype Closing = Keeps | Clears(cleanup: Call)

  function Closed(w: World, c: Closing): (r: World)
    requires TipsValid(w)
    ensures TipsValid(r)
  {
    match c
    case Keeps => w
    case Clears(cleanup) => Disconnect(w, cleanup)
  }

  /** One request over the pipe; `None` is an I/O error. */
  function Ask(w: World, q: Request, env: Env, pipe: Pipe): (r: (World, Option<Reply>))
    requires TipsValid(w)
    ensures TipsValid(r.0)
  {
    match pipe
    case Works => var (w1, reply) := Handle(w, q, env); (w1, Some(reply))
    case FailsBefore(close) => (Closed(w, close), None)
    case FailsAfter(close) => (Closed(Handle(w, q, env).0, close), None)
  }

  datatype Reconnection = Unreachable | SameInstance | OtherInstance(peer: Peer)

  datatype Outcome = Ok(reply: Reply) | Unavailable | RecoveryRequired

  datatype Answers = Answers(env: Env, pipe: Pipe)

  /** What the caller is told is what the injector holds. */
  ghost predicate Confirms(w: World, q: Request, reply: Reply) {
    match q
    case ApplyState(id, sequence, text) =>
      && NamesActive(w, reply, id, sequence, text)
      && (reply.FinishedReply? ==> reply.sequence == sequence && w.completed == Some(Completed(id, sequence, text)))
    case FinishSession(id, sequence) =>
      && !reply.AppliedReply?
      && (reply.FinishedReply? ==> reply.sequence == sequence && w.completed.Some?
                                   && w.completed.value.id == id && w.completed.value.sequence == sequence)
    case _ => true
  }

  /** At most one use of the snapshot, at the session's service, and none once it is spent. */
  ghost predicate UsedAtMostOnce(w: World, w1: World, id: string, sequence: int) {
    || UsesBounded(w, w1, id, sequence, None)
    || (w.session.Some? && !Spent(w, id, sequence) && UsesBounded(w, w1, id, sequence, Some(w.session.value.tip)))
  }

  /** The session is over, or still the same one and not older. */
  ghost predicate Continues(w: World, w1: World) {
    w1.session.Some? ==>
      && w.session.Some? && w1.session.value.id == w.session.value.id && w1.session.value.tip == w.session.value.tip
      && w.session.value.sequence <= w1.session.value.sequence
  }

  /** A first use leaves the snapshot spent, so that a second round cannot use it. */
  ghost predicate UsedOnceThenSpent(w: World, w1: World, id: string, sequence: int) {
    && UsedAtMostOnce(w, w1, id, sequence)
    && (UsesBounded(w, w1, id, sequence, None) || Spent(w1, id, sequence))
    && Continues(w, w1)
  }

  lemma UsesAfter(w: World, w1: World, w2: World, id: string, sequence: int)
    requires UsedOnceThenSpent(w, w1, id, sequence) && UsedAtMostOnce(w1, w2, id, sequence)
    ensures UsedAtMostOnce(w, w2, id, sequence)
  {
    if UsesBounded(w1, w2, id, sequence, None) {
      UsesThen(w, w1, w2, id, sequence, if UsesBounded(w, w1, id, sequence, None) then None else Some(w.session.value.tip));
    } else {
      UsesFirstLater(w, w1, w2, id, sequence, w.session.value.tip);
    }
  }

  lemma UsesFirstLater(w: World, w1: World, w2: World, id: string, sequence: int, key: TipKey)
    requires UsesBounded(w, w1, id, sequence, None) && UsesBounded(w1, w2, id, sequence, Some(key))
    ensures UsesBounded(w, w2, id, sequence, Some(key))
  {
  }

  /** Closing the pipe uses nothing and brings no session back. */
  lemma ClosedUses(w: World, c: Closing, id: string, sequence: int)
    requires TipsValid(w)
    ensures UsesBounded(w, Closed(w, c), id, sequence, None)
    ensures Closed(w, c).session.Some? ==> Closed(w, c).session == w.session
  {
    if c.Clears? {
      EndFailedUses(w, c.cleanup, id, sequence);
    }
  }

  lemma ClosedAgrees(w: World, c: Closing)
    requires Agree(w)
    ensures Agree(Closed(w, c))
  {
    if c.Clears? {
      AgreeIsRecoverable(w);
      EndFailedSessionAgrees(w, c.cleanup);
    }
  }

  /** Asking over a pipe that may fail keeps agreement, and confirms what it answers. */
  lemma AskAgrees(w: World, q: Request, a: Answers)
    requires Agree(w) && InTime(w, q, a.env)
    ensures var (w1, reply) := Ask(w, q, a.env, a.pipe);
            Agree(w1) && (reply.Some? ==> Confirms(w1, q, reply.value))
  {
    HandleAgrees(w, q, a.env);
    var w1 := Handle(w, q, a.env).0;
    match a.pipe {
      case Works =>
      case FailsBefore(close) => ClosedAgrees(w, close);
      case FailsAfter(close) => ClosedAgrees(w1, close);
    }
  }

  lemma AskQueryUses(w: World, query: string, a: Answers, id: string, sequence: int)
    requires TipsValid(w)
    ensures var w1 := Ask(w, QuerySession(query), a.env, a.pipe).0;
            UsesBounded(w, w1, id, sequence, None) && (w1.session.Some? ==> w1.session == w.session)
  {
    QueryUses(w, query, a.env, id, sequence);
    var w1 := Handle(w, QuerySession(query), a.env).0;
    match a.pipe {
      case Works =>
      case FailsBefore(close) => ClosedUses(w, close, id, sequence);
      case FailsAfter(close) =>
        ClosedUses(w1, close, id, sequence);
        UsesThen(w, w1, Closed(w1, close), id, sequence, None);
    }
  }

  lemma HandleApplyUses(w: World, q: Request, env: Env)
    requires TipsValid(w) && q.ApplyState?
    ensures UsedOnceThenSpent(w, Handle(w, q, env).0, q.id, q.sequence)
  {
    if CompletedReply(w.completed, q.id, q.sequence, q.text).None? {
      ApplyUses(w, q.id, q.sequence, q.text, env);
      if w.session.Some? {
        ApplyContinues(w, q.id, q.sequence, q.text, env);
      }
    }
  }

  lemma ApplyContinues(w: World, id: string, sequence: int, text: Text, env: Env)
    requires TipsValid(w)
    ensures Continues(w, DoApply(w, id, sequence, text, env).0)
  {
    if Sends(w, id, sequence, env) {
      AnswerSpends(w, id, sequence, text, env);
    } else {
      UnsentApply(w, id, sequence, text, env);
    }
  }

  /** Whether or not the pipe survives, one Apply uses its snapshot at most once and then it is spent. */
  lemma AskApplyUses(w: World, q: Request, a: Answers)
    requires TipsValid(w) && q.ApplyState?
    ensures UsedOnceThenSpent(w, Ask(w, q, a.env, a.pipe).0, q.id, q.sequence)
  {
    match a.pipe {
      case Works => HandleApplyUses(w, q, a.env);
      case FailsBefore(close) => ClosedUses(w, close, q.id, q.sequence);
      case FailsAfter(close) =>
        var w1 := Handle(w, q, a.env).0;
        HandleApplyUses(w, q, a.env);
        ClosedUses(w1, close, q.id, q.sequence);
        CloseUses(w, w1, Closed(w1, close), q.id, q.sequence);
    }
  }

  lemma CloseUses(w: World, w1: World, w2: World, id: string, sequence: int)
    requires UsedOnceThenSpent(w, w1, id, sequence) && UsesBounded(w1, w2, id, sequence, None)
    requires w2.session.Some? ==> w2.session == w1.session
    ensures UsedOnceThenSpent(w, w2, id, sequence)
  {
    if UsesBounded(w, w1, id, sequence, None) {
      UsesThen(w, w1, w2, id, sequence, None);
    } else {
      UsesThen(w, w1, w2, id, sequence, Some(w.session.value.tip));
    }
  }

  predicate HasSession(w: World, id: string) { w.session.Some? && w.session.value.id == id }

  /** What a query finds: the session as it is, its end, or what is remembered of it. */
  lemma QueryFinds(w: World, id: string, env: Env)
    requires TipsValid(w)
    ensures var (w1, state) := DoQuerySession(w, id, env);
            if !HasSession(w, id) then
              && w1 == w
              && state == if w.completed.Some? && w.completed.value.id == id
                          then SessionFinished(id, w.completed.value.sequence, w.completed.value.text) else SessionMissing
            else if HasSession(w1, id) then w1.session == w.session && state == ActiveReply(id, w.session.value.sequence, w.session.value.text)
            else state == TargetModified || state == TargetSubmitted
  {
    if SendsQuery(w, id, env) {
      var (w1, response) := Send(w, w.session.value.tip, Command.Query(id), env.call);
      SentQuery(w, id, env);
      QueryAnswerShape(w1, w.session.value, response, env);
    }
  }

  /** One more try over the new pipe. */
  function Retried(w: World, q: Request, retry: Answers): (World, Outcome)
    requires TipsValid(w)
  {
    var (w1, reply) := Ask(w, q, retry.env, retry.pipe);
    (w1, if reply.None? then Unavailable else Ok(reply.value))
  }

  /**
   The decision, by what the injector has before (`w`) and after (`w2`) a query that was
   answered: an older snapshot is retried, exactly this one confirmed, and anything else
   needs the caller's recovery.
   */
  function DecisionFor(w: World, w2: World, q: Request): Decision
    requires q.ApplyState? || q.FinishSession?
  {
    if HasSession(w, q.id) then
      if HasSession(w2, q.id) && (if q.ApplyState? then w2.session.value.sequence < q.sequence else w2.session.value.sequence == q.sequence)
      then Retry
      else if HasSession(w2, q.id) && q.ApplyState? && w2.session.value.sequence == q.sequence && w2.session.value.text == q.text
      then ItApplied
      else Unknown
    else if && w2.completed.Some? && w2.completed.value.id == q.id && w2.completed.value.sequence == q.sequence
            && (q.ApplyState? ==> w2.completed.value.text == q.text)
    then ItFinished
    else Unknown
  }

  ghost predicate Decides(w: World, w2: World, q: Request, retry: Answers, w1: World, r: Outcome)
    requires TipsValid(w2) && (q.ApplyState? || q.FinishSession?)
  {
    match DecisionFor(w, w2, q)
    case Retry => (w1, r) == Retried(w2, q, retry)
    case ItApplied => w1 == w2 && r == Ok(AppliedReply(q.sequence))
    case ItFinished => w1 == w2 && r == Ok(FinishedReply(q.sequence))
    case Unknown => w1 == w2 && r == RecoveryRequired
  }

  function Classified(q: Request, state: Reply): Decision
    requires q.ApplyState? || q.FinishSession?
  {
    if q.ApplyState? then ClassifyApply(q.id, q.sequence, q.text, state) else ClassifyFinish(q.id, q.sequence, state)
  }

  /** The reply to the query is classified by what the injector has. */
  lemma QueryDecides(w: World, q: Request, env: Env)
    requires TipsValid(w) && (q.ApplyState? || q.FinishSession?)
    ensures var (w2, state) := DoQuerySession(w, q.id, env); Classified(q, state) == DecisionFor(w, w2, q)
  {
    QueryFinds(w, q.id, env);
  }

  /** What a lost Apply or Finish comes to over a new pipe to the same instance. */
  ghost predicate Reconciles(w: World, q: Request, query: Answers, retry: Answers, w1: World, r: Outcome)
    requires TipsValid(w) && (q.ApplyState? || q.FinishSession?)
  {
    var (w2, state) := Ask(w, QuerySession(q.id), query.env, query.pipe);
    if query.pipe.Works? then Decides(w, w2, q, retry, w1, r) else w1 == w2 && r == Unavailable
  }

  /** The retry over the pipe, after a query that left the session as it was or ended it. */
  method Again(w: World, w2: World, q: Request, retry: Answers) returns (w3: World, r: Outcome)
    requires Agree(w) && Agree(w2) && (q.ApplyState? || q.FinishSession?)
    requires UsesBounded(w, w2, q.id, q.sequence, None) && (w2.session.Some? ==> w2.session == w.session)
    ensures Agree(w3) && (r.Ok? ==> Confirms(w3, q, r.reply)) && (w3, r) == Retried(w2, q, retry)
    ensures q.ApplyState? ==> UsedAtMostOnce(w, w3, q.id, q.sequence)
  {
    AskAgrees(w2, q, retry);
    var (world, reply) := Ask(w2, q, retry.env, retry.pipe);
    w3 := world;
    if q.ApplyState? {
      AskApplyUses(w2, q, retry);
      UsesAfter(w, w2, w3, q.id, q.sequence);
    }
    r := if reply.None? then Unavailable else Ok(reply.value);
  }

  /** A query about a finished session reports what is remembered. */
  lemma FinishedStateIsHeld(w: World, id: string, env: Env)
    requires TipsValid(w)
    ensures var (w1, state) := DoQuerySession(w, id, env);
            state.SessionFinished? ==> w1.completed == Some(Completed(state.id, state.sequence, state.text))
  {
  }

  /** What the query reports is what the injector holds. */
  lemma DecisionConfirms(w: World, q: Request, env: Env)
    requires Agree(w) && (q.ApplyState? || q.FinishSession?)
    ensures var (w1, state) := DoQuerySession(w, q.id, env);
            && (Classified(q, state).ItApplied? ==> Confirms(w1, q, AppliedReply(q.sequence)))
            && (Classified(q, state).ItFinished? ==> Confirms(w1, q, FinishedReply(q.sequence)))
  {
    QueryAgrees(w, q.id, env);
    FinishedStateIsHeld(w, q.id, env);
  }

  /** The query that decides what happened, and the retry it may allow. */
  method Reconcile(w: World, q: Request, query: Answers, retry: Answers) returns (w1: World, r: Outcome)
    requires Agree(w) && (q.ApplyState? || q.FinishSession?)
    ensures Agree(w1)
    ensures r.Ok? ==> Confirms(w1, q, r.reply)
    ensures Reconciles(w, q, query, retry, w1, r)
    ensures q.ApplyState? ==> UsedAtMostOnce(w, w1, q.id, q.sequence)
  {
    QueryDecides(w, q, query.env);
    AskAgrees(w, QuerySession(q.id), query);
    AskQueryUses(w, q.id, query, q.id, q.sequence);
    DecisionConfirms(w, q, query.env);
    var (w2, state) := Ask(w, QuerySession(q.id), query.env, query.pipe);
    if state.None? { return w2, Unavailable; }
    match Classified(q, state.value) {
      case ItApplied => return w2, Ok(AppliedReply(q.sequence));
      case ItFinished => return w2, Ok(FinishedReply(q.sequence));
      case Unknown => return w2, RecoveryRequired;
      case Retry => w1, r := Again(w, w2, q, retry);
    }
  }

  /**
   What the app does over the new pipe.  Only the instance it talked to before is known to
   agree with its services; any other may have found them with sessions of their own.
   */
  method Recover(w: World, sameInstance: bool, q: Request, query: Answers, retry: Answers) returns (w1: World, r: Outcome)
    requires TipsValid(w) && (sameInstance && (q.ApplyState? || q.FinishSession?) ==> Agree(w))
    ensures TipsValid(w1) && (Agree(w) && InTime(w, q, retry.env) ==> Agree(w1))
    ensures q.ApplyState? || q.FinishSession? ==>
              if sameInstance then Reconciles(w, q, query, retry, w1, r) && (r.Ok? ==> Confirms(w1, q, r.reply))
              else w1 == w && r == RecoveryRequired
    ensures q.ApplyState? ==> UsedAtMostOnce(w, w1, q.id, q.sequence)
  {
    match q {
      case ApplyState(_, _, _) | FinishSession(_, _) =>
        if !sameInstance { return w, RecoveryRequired; }
        w1, r := Reconcile(w, q, query, retry);
      case _ =>
        if q.QuerySession? && !sameInstance { return w, RecoveryRequired; }
        if Agree(w) && InTime(w, q, retry.env) {
          AskAgrees(w, q, retry);
        }
        var (world, reply) := Ask(w, q, retry.env, retry.pipe);
        w1 := world;
        r := if reply.None? then Unavailable else Ok(reply.value);
    }
  }

  /** The first try, over a pipe to the instance the app already talks to, or has just reached. */
  method FirstTry(reached: bool, w: World, q: Request, first: Answers) returns (w1: World, answer: Option<Reply>)
    requires Agree(w)
    ensures TipsValid(w1) && (InTime(w, q, first.env) ==> Agree(w1))
    ensures (w1, answer) == if reached then Ask(w, q, first.env, first.pipe) else (w, None)
    ensures answer.Some? && InTime(w, q, first.env) ==> Confirms(w1, q, answer.value)
    ensures q.ApplyState? ==> UsedOnceThenSpent(w, w1, q.id, q.sequence)
  {
    if !reached { return w, None; }
    if InTime(w, q, first.env) {
      AskAgrees(w, q, first);
    }
    if q.ApplyState? {
      AskApplyUses(w, q, first);
    }
    var (world, reply) := Ask(w, q, first.env, first.pipe);
    return world, reply;
  }

  /**
   One request of the app.  Whatever the pipe does, an acknowledged Apply or Finish is
   what this same injector instance holds, and the document is written for the snapshot
   at most once, whether the injector keeps or clears its session when the pipe closes.
   `left` is how the first instance was left; another instance that answers instead, whatever
   its services are doing, is not touched by an Apply or a Finish.
   */
  method RequestBlocking(client: Option<nat>, connects: bool, peer: Peer, q: Request,
                         first: Answers, again: Reconnection, query: Answers, retry: Answers)
    returns (client1: Option<nat>, peer1: Peer, r: Outcome, ghost left: World)
    requires Agree(peer.world)
    requires again.OtherInstance? ==>
               && again.peer.instance != peer.instance && TipsValid(again.peer.world)
               && (client == Some(again.peer.instance) ==> Agree(again.peer.world))
    ensures InTime(peer.world, q, first.env) && (q.BeginSession? ==> Prompt(retry.env.attempts)) ==> Agree(left)
    ensures if peer1.instance == peer.instance then peer1.world == left
            else again.OtherInstance? && peer1.instance == again.peer.instance
                 && (Agree(again.peer.world) && InTime(again.peer.world, q, retry.env) ==> Agree(peer1.world))
    ensures (q.ApplyState? || q.FinishSession?) && r.Ok? ==>
              && peer1.instance == (if client.Some? then client.value else peer.instance)
              && client1 == Some(peer1.instance) && Confirms(peer1.world, q, r.reply)
    ensures q.ApplyState? || q.FinishSession? ==>
              (peer1.instance != peer.instance && client != Some(peer1.instance) ==> peer1 == again.peer && r == RecoveryRequired)
    ensures (if client.Some? then client.value == peer.instance else connects) ==>
              var (w, answer) := Ask(peer.world, q, first.env, first.pipe);
              if answer.Some? then client1 == Some(peer.instance) && peer1 == Peer(peer.instance, w) && r == Ok(answer.value)
              else if again.Unreachable? then client1 == None && peer1 == Peer(peer.instance, w) && r == Unavailable
              else again.SameInstance? && (q.ApplyState? || q.FinishSession?) ==> Reconciles(w, q, query, retry, peer1.world, r)
    ensures q.ApplyState? ==> UsedAtMostOnce(peer.world, left, q.id, q.sequence)
    ensures q.ApplyState? && peer1.instance != peer.instance ==> UsedAtMostOnce(again.peer.world, peer1.world, q.id, q.sequence)
  {
    if client.None? && !connects { return None, peer, Unavailable, peer.world; }
    var previous := if client.Some? then client.value else peer.instance;
    var w, answer := FirstTry(previous == peer.instance, peer.world, q, first);
    if answer.Some? { return Some(previous), Peer(peer.instance, w), Ok(answer.value), w; }
    if again.Unreachable? { return None, Peer(peer.instance, w), Unavailable, w; }
    var recovered := if again.OtherInstance? then again.peer else Peer(peer.instance, w);
    var w3;
    if q.BeginSession? ==> Prompt(retry.env.attempts) {
      PromptIsInTime(recovered.world, q, retry.env);
    }
    w3, r := Recover(recovered.world, recovered.instance == previous, q, query, retry);
    if q.ApplyState? && recovered.instance == peer.instance {
      UsesAfter(peer.world, w, w3, q.id, q.sequence);
    }
    client1 := if r == Unavailable then None else Some(recovered.instance);
    peer1 := Peer(recovered.instance, w3);
    left := if recovered.instance == peer.instance then w3 else w;
  }
}
