/**
 The injector between the desktop app and the text services: one active or one completed
 session, a registry of text services, and a first-in first-out line of commands to each
 of them.  A call that times out stays in the line and is executed later.
 */
module Injector {
  import opened Optional
  import opened Tip

  datatype TipKey = TipKey(process: nat, thread: nat, generation: nat)

  datatype Active = Active(id: string, sequence: int, text: Text, tip: TipKey, inputEpoch: nat)

  datatype Completed = Completed(id: string, sequence: int, text: Text)

  /** A connected text service and the commands it has not executed yet. */
  datatype Line = Line(tip: State, queue: seq<Command>)

  datatype World = World(
    session: Option<Active>, completed: Option<Completed>,
    tips: map<TipKey, Line>, nextGeneration: nat)

  datatype Request =
    | Hello
    | BeginSession(id: string, replacing: Option<string>, sequence: int, text: Text, attachExisting: bool)
    | ApplyState(id: string, sequence: int, text: Text)
    | FinishSession(id: string, sequence: int)
    | QuerySession(id: string)
    | ProbeTarget
    | CancelInvalidSession(id: string)

  datatype Reply =
    | HelloReply
    | SessionBegun
    | AppliedReply(sequence: int)
    | FinishedReply(sequence: int)
    | ActiveReply(id: string, sequence: int, text: Text)
    | SessionFinished(id: string, sequence: int, text: Text)
    | SessionMissing
    | TargetReady
    | CancelledReply
    | TargetNotForeground
    | TargetInvalid
    | TargetModified
    | TargetSubmitted
    | TargetUnsupported
    | TsfUnavailable
    | InjectionUnknown
    | InvalidRequest

  // ---------------------------------------------------------------------------
  // One line
  // ---------------------------------------------------------------------------

  /** What can happen at a text service while the injector waits or is idle. */
  datatype TipEvent = Delivers(host: Host) | HostActs(event: HostEvent)

  function LineStep(l: Line, e: TipEvent): (r: Line)
    requires l.tip.Valid()
    ensures r.tip.Valid()
  {
    match e
    case Delivers(h) =>
      if l.queue == [] then l else Line(Execute(l.tip, l.queue[0], h).0, l.queue[1..])
    case HostActs(event) => l.(tip := React(l.tip, event))
  }

  function LineRun(l: Line, script: seq<TipEvent>): (r: Line)
    requires l.tip.Valid()
    ensures r.tip.Valid()
    decreases |script|
  {
    if script == [] then l else LineRun(LineStep(l, script[0]), script[1..])
  }

  function Flush(l: Line, h: Host): (r: Line)
    requires l.tip.Valid()
    ensures r.tip.Valid() && r.queue == []
    decreases |l.queue|
  {
    if l.queue == [] then l else Flush(LineStep(l, Delivers(h)), h)
  }

  /** One call: what happens before the answer, how the host answers, whether it is too late. */
  datatype Call = Call(script: seq<TipEvent>, host: Host, timedOut: bool)

  function Answered(l: Line, c: Command, call: Call): (r: (Line, Response))
    requires l.tip.Valid()
    ensures r.0.tip.Valid() && r.0.queue == []
  {
    var l1 := Flush(LineRun(l, call.script), call.host);
    var (t, response) := Execute(l1.tip, c, call.host);
    (Line(t, []), response)
  }

  /** Eight commands fit into the channel to a client, and one more is being executed. */
  const LINE_CAPACITY: nat := 9

  /** A full line holds the sender back until the client has executed enough of it. */
  function MakesRoom(l: Line, h: Host): (r: Line)
    requires l.tip.Valid()
    ensures r.tip.Valid() && |r.queue| < LINE_CAPACITY
    decreases |l.queue|
  {
    if |l.queue| < LINE_CAPACITY then l else MakesRoom(LineStep(l, Delivers(h)), h)
  }

  function TimedOut(l: Line, c: Command, call: Call): (r: Line)
    requires l.tip.Valid()
    ensures r.tip.Valid() && |r.queue| <= LINE_CAPACITY
  {
    var l1 := MakesRoom(LineRun(l, call.script), call.host);
    l1.(queue := l1.queue + [c])
  }

  /** Waiting for room is a script of deliveries, so what is proved of scripts holds of it. */
  lemma {:induction false} WaitingForRoomIsAScript(l: Line, h: Host) returns (script: seq<TipEvent>)
    requires l.tip.Valid()
    ensures LineRun(l, script) == MakesRoom(l, h) && forall e <- script :: e == Delivers(h)
    decreases |l.queue|
  {
    if |l.queue| < LINE_CAPACITY {
      script := [];
    } else {
      var rest := WaitingForRoomIsAScript(LineStep(l, Delivers(h)), h);
      script := [Delivers(h)] + rest;
      assert script[1..] == rest;
    }
  }

  /** `None` is the source's I/O error: the client left, or it did not answer in time. */
  function Send(w: World, key: TipKey, c: Command, call: Call): (r: (World, Option<Response>))
    requires TipsValid(w)
    ensures TipsValid(r.0)
    ensures r.0 == w.(tips := r.0.tips) && r.0.tips.Keys == w.tips.Keys
  {
    if key !in w.tips then (w, None)
    else if call.timedOut then (w.(tips := w.tips[key := TimedOut(w.tips[key], c, call)]), None)
    else
      var (l, response) := Answered(w.tips[key], c, call);
      (w.(tips := w.tips[key := l]), Some(response))
  }

  /** The same services are connected, and none was registered in between. */
  predicate SameServices(w: World, w1: World) {
    w1.tips.Keys == w.tips.Keys && w1.nextGeneration == w.nextGeneration
  }

  ghost predicate TipsValid(w: World) {
    forall k <- w.tips :: w.tips[k].tip.Valid()
  }

  // ---------------------------------------------------------------------------
  // Requests
  // ---------------------------------------------------------------------------

  /** What `capture_foreground` and the checks after it decided. */
  datatype Gate = NoTarget | Unsupported | NotActivated | NoMonitor | Open

  /** One Begin sent to one candidate client. */
  datatype Attempt = Attempt(key: TipKey, script: seq<TipEvent>, host: Host, timedOut: bool) {
    function AsCall(): Call { Call(script, host, timedOut) }
  }

  /** Everything outside the injector that one request depends on. */
  datatype Env = Env(
    gate: Gate, attempts: seq<Attempt>,
    epoch: nat, epochAfter: nat, lastWasReturn: bool,
    targetValid: bool, foreground: bool, queryDue: bool,
    call: Call, cleanup: Call)

  function EndFailedSession(w: World, cleanup: Call): (r: World)
    requires TipsValid(w)
    ensures TipsValid(r) && r.session.None? && r.completed == w.completed && SameServices(w, r)
  {
    if w.session.None? then w
    else Send(w.(session := None), w.session.value.tip, Command.Cancel(w.session.value.id), cleanup).0
  }

  datatype Replacement = Start | Replace | Reject

  function ClassifyReplacement(active: Option<string>, replacing: Option<string>): Replacement {
    if active.None? then Start
    else if replacing == active then Replace
    else Reject
  }

  datatype Registered = Registered(key: TipKey) | Failed(reply: Reply)

  /** The candidates are tried one after the other until one begins or refuses to rebind. */
  function BeginForTarget(w: World, c: Command, attempts: seq<Attempt>, rejected: bool): (r: (World, Registered))
    requires TipsValid(w) && c.Begin?
    ensures TipsValid(r.0)
    ensures r.0 == w.(tips := r.0.tips) && r.0.tips.Keys == w.tips.Keys
    ensures r.1.Failed? ==> r.1.reply == TargetUnsupported || r.1.reply == TsfUnavailable || r.1.reply == TargetModified
    decreases |attempts|
  {
    if attempts == [] then (w, Failed(if rejected then TargetUnsupported else TsfUnavailable))
    else
      var a := attempts[0];
      var (w1, response) := Send(w, a.key, c, a.AsCall());
      if response == Some(Begun(c.id)) then (w1, Registered(a.key))
      else if response == Some(RebindRejected) then (w1, Failed(TargetModified))
      else BeginForTarget(w1, c, attempts[1..],
                          rejected || response == Some(NoFocus) || response == Some(EditRejected))
  }

  function BeginOf(q: Request): Command
    requires q.BeginSession?
  {
    Command.Begin(q.id, q.sequence, q.text, q.attachExisting)
  }

  /** What the injector makes of the client that began, or of the failure. */
  function Register(w: World, begun: Registered, q: Request, epoch: nat): (World, Reply)
    requires q.BeginSession?
  {
    match begun
    case Failed(reply) => (w, reply)
    case Registered(key) => (w.(session := Some(Active(q.id, q.sequence, q.text, key, epoch)), completed := None), SessionBegun)
  }

  function OpenSession(w: World, q: Request, env: Env): (r: (World, Reply))
    requires TipsValid(w) && q.BeginSession?
    ensures TipsValid(r.0) && SameServices(w, r.0)
  {
    var (w1, begun) := BeginForTarget(w, BeginOf(q), env.attempts, false);
    Register(w1, begun, q, env.epoch)
  }

  function OpenOnTarget(w: World, q: Request, env: Env): (r: (World, Reply))
    requires TipsValid(w) && q.BeginSession?
    ensures TipsValid(r.0) && SameServices(w, r.0)
  {
    match env.gate
    case NoTarget => (w, TargetInvalid)
    case Unsupported => (w, TargetUnsupported)
    case NotActivated => (w, TargetNotForeground)
    case NoMonitor => (w, InjectionUnknown)
    case Open => OpenSession(w, q, env)
  }

  function DoBeginSession(w: World, q: Request, env: Env): (r: (World, Reply))
    requires TipsValid(w) && q.BeginSession?
    ensures TipsValid(r.0) && SameServices(w, r.0)
  {
    if w.session.Some? && w.session.value.id == q.id then (w, SessionBegun)
    else if w.completed.Some? && w.completed.value.id == q.id then
      (w, SessionFinished(q.id, w.completed.value.sequence, w.completed.value.text))
    else
      var how := ClassifyReplacement(if w.session.Some? then Some(w.session.value.id) else None, q.replacing);
      if how.Reject? then (w, InvalidRequest)
      else
        OpenOnTarget(if how.Replace? then EndFailedSession(w, env.cleanup) else w, q, env)
  }

  function CompletedReply(completed: Option<Completed>, id: string, sequence: int, text: Text): Option<Reply> {
    if completed.None? || completed.value.id != id then None
    else if completed.value.sequence == sequence && completed.value.text == text then Some(FinishedReply(sequence))
    else Some(InvalidRequest)
  }

  /** What the text service's answer to an update makes of the session. */
  function AnswerApply(w: World, active: Active, sequence: int, text: Text, response: Option<Response>, cleanup: Call): (r: (World, Reply))
    requires TipsValid(w)
    ensures TipsValid(r.0) && SameServices(w, r.0)
  {
    match response
    case Some(Applied(appliedId, applied)) =>
      if appliedId != active.id then (EndFailedSession(w, cleanup), InjectionUnknown)
      else (if applied == sequence then w.(session := Some(active.(sequence := sequence, text := text))) else w,
            AppliedReply(applied))
    case Some(NoFocus) => (w, TargetNotForeground)
    case Some(CompositionTerminated) => (EndFailedSession(w, cleanup), TargetModified)
    case Some(SessionMismatch) => (EndFailedSession(w, cleanup), InvalidRequest)
    case Some(SequenceConflict) => (EndFailedSession(w, cleanup), InvalidRequest)
    case _ => (EndFailedSession(w, cleanup), InjectionUnknown)
  }

  function DoApply(w: World, id: string, sequence: int, text: Text, env: Env): (r: (World, Reply))
    requires TipsValid(w)
    ensures TipsValid(r.0) && SameServices(w, r.0)
  {
    if w.session.None? || w.session.value.id != id then (w, InvalidRequest)
    else
      var active := w.session.value;
      if !env.targetValid then (w, TargetInvalid)
      else if active.inputEpoch != env.epoch then (EndFailedSession(w, env.cleanup), TargetModified)
      else if !env.foreground then (w, TargetNotForeground)
      else if sequence < active.sequence then (w, AppliedReply(active.sequence))
      else if sequence == active.sequence then
        if text == active.text then (w, AppliedReply(sequence))
        else (EndFailedSession(w, env.cleanup), InvalidRequest)
      else
        var (w1, response) := Send(w, active.tip, Command.Update(id, sequence, text), env.call);
        AnswerApply(w1, active, sequence, text, response, env.cleanup)
  }

  function DoFinishSession(w: World, id: string, sequence: int, env: Env): (r: (World, Reply))
    requires TipsValid(w)
    ensures TipsValid(r.0) && SameServices(w, r.0)
  {
    if w.session.None? || w.session.value.id != id || w.session.value.sequence != sequence then (w, InvalidRequest)
    else
      var active := w.session.value;
      var (w1, response) := Send(w, active.tip, Command.Finish(id, sequence), env.call);
      if response == Some(Response.Finished(id, sequence)) then
        (w1.(session := None, completed := Some(Completed(id, sequence, active.text))), FinishedReply(sequence))
      else if response == Some(SessionMismatch) || response == Some(SequenceConflict) then
        (EndFailedSession(w1, env.cleanup), InvalidRequest)
      else (EndFailedSession(w1, env.cleanup), InjectionUnknown)
  }

  predicate SubmittedCandidate(text: Text, sessionEpoch: nat, epoch: nat, lastWasReturn: bool) {
    text != [] && text[|text| - 1] == '\n' && epoch != sessionEpoch && lastWasReturn
  }

  /** What the text service's answer to a query makes of the session. */
  function AnswerQuery(w: World, active: Active, response: Option<Response>, env: Env): (r: (World, Reply))
    requires TipsValid(w)
    ensures TipsValid(r.0) && SameServices(w, r.0)
  {
    match response
    case Some(SessionActive(_, _)) => (w, ActiveReply(active.id, active.sequence, active.text))
    case Some(CompositionTerminated) =>
      (EndFailedSession(w, env.cleanup),
       if SubmittedCandidate(active.text, active.inputEpoch, env.epochAfter, env.lastWasReturn)
       then TargetSubmitted else TargetModified)
    case _ => (EndFailedSession(w, env.cleanup), TargetModified)
  }

  /** The query of the open session. */
  function AskActive(w: World, active: Active, env: Env): (r: (World, Reply))
    requires TipsValid(w)
    ensures TipsValid(r.0) && SameServices(w, r.0)
  {
    if active.inputEpoch != env.epoch then
      (EndFailedSession(w, env.cleanup),
       if SubmittedCandidate(active.text, active.inputEpoch, env.epoch, env.lastWasReturn)
       then TargetSubmitted else TargetModified)
    else if !env.queryDue then (w, ActiveReply(active.id, active.sequence, active.text))
    else
      var (w1, response) := Send(w, active.tip, Command.Query(active.id), env.call);
      AnswerQuery(w1, active, response, env)
  }

  function DoQuerySession(w: World, id: string, env: Env): (r: (World, Reply))
    requires TipsValid(w)
    ensures TipsValid(r.0) && SameServices(w, r.0)
  {
    if w.session.Some? && w.session.value.id == id then AskActive(w, w.session.value, env)
    else if w.completed.Some? && w.completed.value.id == id then
      (w, SessionFinished(id, w.completed.value.sequence, w.completed.value.text))
    else (w, SessionMissing)
  }

  function Handle(w: World, q: Request, env: Env): (r: (World, Reply))
    requires TipsValid(w)
    ensures TipsValid(r.0) && SameServices(w, r.0)
  {
    match q
    case Hello => (w, HelloReply)
    case BeginSession(_, _, _, _, _) => DoBeginSession(w, q, env)
    case ApplyState(id, sequence, text) =>
      var early := CompletedReply(w.completed, id, sequence, text);
      if early.Some? then (w, early.value) else DoApply(w, id, sequence, text, env)
    case FinishSession(id, sequence) => DoFinishSession(w, id, sequence, env)
    case QuerySession(id) => DoQuerySession(w, id, env)
    case ProbeTarget =>
      (w, if env.gate.NoTarget? || !env.targetValid then TargetInvalid
          else if env.gate.Unsupported? then TargetUnsupported
          else TargetReady)
    case CancelInvalidSession(id) =>
      (if w.session.Some? && w.session.value.id == id then EndFailedSession(w, env.cleanup) else w, CancelledReply)
  }

  /** The app's pipe closed: the session is cancelled and the completed one forgotten. */
  function Disconnect(w: World, cleanup: Call): (r: World)
    requires TipsValid(w)
    ensures TipsValid(r) && SameServices(w, r)
  {
    EndFailedSession(w, cleanup).(completed := None)
  }

  /** The requests of one connection, answered one after the other. */
  function Served(w: World, requests: seq<(Request, Env)>): (r: (World, seq<Reply>))
    requires TipsValid(w)
    ensures TipsValid(r.0)
  {
    if requests == [] then (w, [])
    else
      var (w1, replies) := Served(w, requests[..|requests| - 1]);
      var (q, env) := requests[|requests| - 1];
      var (w2, reply) := Handle(w1, q, env);
      (w2, replies + [reply])
  }

  // ---------------------------------------------------------------------------
  // Agreement between the injector and the text services
  // ---------------------------------------------------------------------------

  /** Once its line is executed this service is idle, whatever the host does meanwhile. */
  ghost predicate Settles(l: Line) {
    && (forall c <- l.queue :: !c.Begin?)
    && (l.tip.session.Some? ==> Command.Cancel(l.tip.session.value) in l.queue)
  }

  /** The service holds exactly the session the injector believes it holds. */
  ghost predicate Holds(l: Line, a: Active) {
    l.queue == [] && l.tip.session == Some(a.id) && l.tip.sequence == a.sequence && l.tip.text == a.text
  }

  /** Every generation in use was handed out before. */
  ghost predicate Issued(w: World) {
    && (forall k <- w.tips :: k.generation < w.nextGeneration)
    && (w.session.Some? ==> w.session.value.tip.generation < w.nextGeneration)
  }

  ghost predicate Agree(w: World) {
    && TipsValid(w) && Issued(w)
    && (forall k <- w.tips :: if w.session.Some? && w.session.value.tip == k
                              then Holds(w.tips[k], w.session.value)
                              else Settles(w.tips[k]))
  }

  /** Cancelling `id` settles this service: nothing in line begins, and it holds `id` or nothing. */
  ghost predicate Owned(l: Line, id: string) {
    && (forall c <- l.queue :: !c.Begin?)
    && (l.tip.session.Some? ==> l.tip.session == Some(id))
  }

  /** As `Agree`, but the session's own service may have run ahead or be behind. */
  ghost predicate Recoverable(w: World) {
    && TipsValid(w) && Issued(w)
    && (forall k <- w.tips :: if w.session.Some? && w.session.value.tip == k
                              then Owned(w.tips[k], w.session.value.id)
                              else Settles(w.tips[k]))
  }

  lemma SettledStep(l: Line, e: TipEvent)
    requires l.tip.Valid() && Settles(l)
    ensures Settles(LineStep(l, e))
  {
    assert l.queue != [] ==> l.queue == [l.queue[0]] + l.queue[1..];
  }

  lemma {:induction false} SettledRun(l: Line, script: seq<TipEvent>)
    requires l.tip.Valid() && Settles(l)
    ensures Settles(LineRun(l, script))
    decreases |script|
  {
    if script != [] {
      SettledStep(l, script[0]);
      SettledRun(LineStep(l, script[0]), script[1..]);
    }
  }

  lemma {:induction false} SettledFlush(l: Line, h: Host)
    requires l.tip.Valid() && Settles(l)
    ensures Flush(l, h).tip.session.None?
    decreases |l.queue|
  {
    if l.queue != [] {
      SettledStep(l, Delivers(h));
      SettledFlush(LineStep(l, Delivers(h)), h);
    }
  }

  lemma {:induction false} OwnedRun(l: Line, id: string, script: seq<TipEvent>)
    requires l.tip.Valid() && Owned(l, id)
    ensures Owned(LineRun(l, script), id)
    decreases |script|
  {
    if script != [] {
      assert l.queue != [] ==> l.queue == [l.queue[0]] + l.queue[1..];
      OwnedRun(LineStep(l, script[0]), id, script[1..]);
    }
  }

  lemma {:induction false} OwnedFlush(l: Line, id: string, h: Host)
    requires l.tip.Valid() && Owned(l, id)
    ensures Owned(Flush(l, h), id)
    decreases |l.queue|
  {
    if l.queue != [] {
      assert l.queue == [l.queue[0]] + l.queue[1..];
      OwnedFlush(LineStep(l, Delivers(h)), id, h);
    }
  }

  lemma {:induction false} HeldRun(l: Line, a: Active, script: seq<TipEvent>)
    requires l.tip.Valid() && Holds(l, a)
    ensures Holds(LineRun(l, script), a)
    decreases |script|
  {
    if script != [] {
      HeldRun(LineStep(l, script[0]), a, script[1..]);
    }
  }

  /** What one call to a service that holds the session can come back with. */
  lemma HeldCall(l: Line, a: Active, c: Command, call: Call)
    requires l.tip.Valid() && Holds(l, a) && !c.Begin?
    ensures Owned(TimedOut(l, c, call), a.id)
    ensures var (l1, response) := Answered(l, c, call);
            && Owned(l1, a.id)
            && (c.Query? || response.NoFocus? ==> Holds(l1, a))
            && (response.Finished? ==> Settles(l1))
            && (response.Applied? && c.id == a.id && a.sequence < c.sequence ==>
                  response == Applied(c.id, c.sequence) && Holds(l1, a.(sequence := c.sequence, text := c.text)))
  {
    HeldRun(l, a, call.script);
  }

  /** A Begin sent to a settled service either opens exactly that session or leaves it idle. */
  lemma SettledBegin(l: Line, c: Command, call: Call)
    requires l.tip.Valid() && Settles(l) && c.Begin?
    ensures var (l1, response) := Answered(l, c, call);
            if response == Begun(c.id) then l1.tip.session == Some(c.id) && l1.tip.sequence == c.sequence && l1.tip.text == c.text
            else (response.NoFocus? || response.EditRejected?) && Settles(l1)
  {
    SettledRun(l, call.script);
    SettledFlush(LineRun(l, call.script), call.host);
  }

  lemma OwnedCancel(l: Line, id: string, call: Call)
    requires l.tip.Valid() && Owned(l, id)
    ensures Settles(Answered(l, Command.Cancel(id), call).0)
    ensures Settles(TimedOut(l, Command.Cancel(id), call))
  {
    var l1 := LineRun(l, call.script);
    OwnedRun(l, id, call.script);
    OwnedFlush(l1, id, call.host);
    var room := WaitingForRoomIsAScript(l1, call.host);
    OwnedRun(l1, id, room);
  }

  /** Ending a session always brings the two sides back to idle, even behind timed-out calls. */
  lemma EndFailedSessionAgrees(w: World, cleanup: Call)
    requires Recoverable(w)
    ensures Agree(EndFailedSession(w, cleanup))
  {
    if w.session.Some? && w.session.value.tip in w.tips {
      OwnedCancel(w.tips[w.session.value.tip], w.session.value.id, cleanup);
    }
  }

  lemma AgreeIsRecoverable(w: World)
    requires Agree(w)
    ensures Recoverable(w)
  {
  }

  lemma PutSettled(w: World, key: TipKey, l: Line)
    requires Agree(w) && w.session.None? && key in w.tips && l.tip.Valid() && Settles(l)
    ensures Agree(w.(tips := w.tips[key := l]))
  {
  }

  lemma PutHeld(w: World, l: Line, a: Active)
    requires Agree(w) && w.session.None? && a.tip in w.tips && l.tip.Valid() && Holds(l, a)
    ensures Agree(w.(tips := w.tips[a.tip := l], session := Some(a)))
  {
  }

  /** The session a Begin opens at a service. */
  function Opened(c: Command, key: TipKey, epoch: nat): Active
    requires c.Begin?
  {
    Active(c.id, c.sequence, c.text, key, epoch)
  }

  /** What the injector makes of one answered or unanswered Begin. */
  function Tried(w: World, c: Command, a: Attempt, epoch: nat): (r: World)
    requires TipsValid(w) && c.Begin?
    ensures TipsValid(r)
  {
    var (w1, response) := Send(w, a.key, c, a.AsCall());
    if response == Some(Begun(c.id)) then w1.(session := Some(Opened(c, a.key, epoch))) else w1
  }

  /** An answered Begin keeps agreement, and is never answered that the service is bound. */
  lemma AnsweredAttemptAgrees(w: World, c: Command, a: Attempt, epoch: nat)
    requires Agree(w) && w.session.None? && c.Begin? && (a.key in w.tips ==> !a.timedOut)
    ensures Agree(Tried(w, c, a, epoch)) && Send(w, a.key, c, a.AsCall()).1 != Some(RebindRejected)
  {
    if a.key in w.tips {
      SettledBegin(w.tips[a.key], c, a.AsCall());
      var (l, response) := Answered(w.tips[a.key], c, a.AsCall());
      if response == Begun(c.id) {
        PutHeld(w, l, Opened(c, a.key, epoch));
      } else {
        PutSettled(w, a.key, l);
      }
    }
  }

  /**
   One Begin keeps agreement exactly when it was answered: the source sends no Cancel after
   a Begin that timed out, so a connected service will still execute it.
   */
  lemma AttemptAgreesIff(w: World, c: Command, a: Attempt, epoch: nat)
    requires Agree(w) && w.session.None? && c.Begin?
    ensures Agree(Tried(w, c, a, epoch)) <==> !(a.key in w.tips && a.timedOut)
  {
    if a.key in w.tips && a.timedOut {
      var l := TimedOut(w.tips[a.key], c, a.AsCall());
      assert l.queue[|l.queue| - 1] == c && !Settles(l);
      assert Tried(w, c, a, epoch).tips[a.key] == l;
    } else {
      AnsweredAttemptAgrees(w, c, a, epoch);
    }
  }

  /** A Begin that was actually sent to a connected client timed out. */
  predicate LeftWaiting(w: World, c: Command, attempts: seq<Attempt>)
    requires TipsValid(w) && c.Begin?
    decreases |attempts|
  {
    attempts != [] &&
    var a := attempts[0];
    var (w1, response) := Send(w, a.key, c, a.AsCall());
    || (a.key in w.tips && a.timedOut)
    || (response != Some(Begun(c.id)) && response != Some(RebindRejected) && LeftWaiting(w1, c, attempts[1..]))
  }

  /** The world after the candidates were tried, with the session if one of them began it. */
  function Adopted(w: World, begun: Registered, c: Command, epoch: nat): World
    requires c.Begin?
  {
    if begun.Registered? then w.(session := Some(Opened(c, begun.key, epoch))) else w
  }

  /**
   Beginning on agreed ground: either one candidate holds exactly the new session and all
   others are settled, or all of them are; no candidate ever answers that it is bound.
   */
  lemma {:induction false} BeginForTargetAgrees(w: World, c: Command, attempts: seq<Attempt>, rejected: bool, epoch: nat)
    requires Agree(w) && w.session.None? && c.Begin? && !LeftWaiting(w, c, attempts)
    ensures var (w1, begun) := BeginForTarget(w, c, attempts, rejected);
            && Agree(Adopted(w1, begun, c, epoch))
            && (begun.Failed? ==> begun.reply == TargetUnsupported || begun.reply == TsfUnavailable)
    decreases |attempts|
  {
    if attempts != [] {
      var a := attempts[0];
      AnsweredAttemptAgrees(w, c, a, epoch);
      var (w1, response) := Send(w, a.key, c, a.AsCall());
      if response != Some(Begun(c.id)) {
        BeginForTargetAgrees(w1, c, attempts[1..],
                             rejected || response == Some(NoFocus) || response == Some(EditRejected), epoch);
      }
    }
  }

  /** A client that let a Begin time out is not asked again: the time for the whole request is over by then. */
  predicate NoRetry(attempts: seq<Attempt>) {
    forall i, j :: 0 <= i < j < |attempts| && attempts[i].timedOut ==> attempts[j].key != attempts[i].key
  }

  predicate SameLine(w: World, w1: World, key: TipKey) {
    key in w.tips && key in w1.tips && w1.tips[key] == w.tips[key]
  }

  lemma SentElsewhere(w: World, c: Command, a: Attempt, key: TipKey)
    requires TipsValid(w) && key in w.tips && a.key != key
    ensures SameLine(w, Send(w, a.key, c, a.AsCall()).0, key)
  {
  }

  /** Trying the candidates is over with the first answer that decides, or goes on with the rest. */
  lemma BeginUnrolled(w: World, c: Command, attempts: seq<Attempt>, rejected: bool)
    requires TipsValid(w) && c.Begin? && attempts != []
    ensures var (w1, response) := Send(w, attempts[0].key, c, attempts[0].AsCall());
            var more := rejected || response == Some(NoFocus) || response == Some(EditRejected);
            var w2 := BeginForTarget(w, c, attempts, rejected).0;
            w2 == w1 || w2 == BeginForTarget(w1, c, attempts[1..], more).0
  {
  }

  lemma {:induction false} OthersAreLeftAlone(w: World, c: Command, attempts: seq<Attempt>, rejected: bool, key: TipKey)
    requires TipsValid(w) && c.Begin? && key in w.tips && forall i :: 0 <= i < |attempts| ==> attempts[i].key != key
    ensures SameLine(w, BeginForTarget(w, c, attempts, rejected).0, key)
    decreases |attempts|
  {
    if attempts != [] {
      var (w1, response) := Send(w, attempts[0].key, c, attempts[0].AsCall());
      var more := rejected || response == Some(NoFocus) || response == Some(EditRejected);
      SentElsewhere(w, c, attempts[0], key);
      OthersAreLeftAlone(w1, c, attempts[1..], more, key);
      BeginUnrolled(w, c, attempts, rejected);
    }
  }

  lemma SendTimedOut(w: World, key: TipKey, c: Command, call: Call)
    requires TipsValid(w) && key in w.tips && call.timedOut
    ensures Send(w, key, c, call).1.None? && Send(w, key, c, call).0.tips[key] == TimedOut(w.tips[key], c, call)
  {
  }

  /** An unanswered Begin is followed by the next candidate. */
  lemma UnansweredGoesOn(w: World, c: Command, attempts: seq<Attempt>, rejected: bool)
    requires TipsValid(w) && c.Begin? && attempts != []
    requires Send(w, attempts[0].key, c, attempts[0].AsCall()).1.None?
    ensures BeginForTarget(w, c, attempts, rejected)
            == BeginForTarget(Send(w, attempts[0].key, c, attempts[0].AsCall()).0, c, attempts[1..], rejected)
  {
  }

  /** A service with a Begin in its line neither settles nor holds a session as agreed. */
  lemma WaitingBeginDisagrees(w: World, key: TipKey)
    requires TipsValid(w) && key in w.tips && w.tips[key].queue != [] && w.tips[key].queue[|w.tips[key].queue| - 1].Begin?
    ensures !Agree(w)
  {
    var l := w.tips[key];
    assert l.queue[|l.queue| - 1] in l.queue && !Settles(l);
  }

  /** After a Begin that timed out, whatever the other candidates answer. */
  lemma TimedOutAttemptDisagrees(w: World, c: Command, attempts: seq<Attempt>, rejected: bool, epoch: nat)
    requires TipsValid(w) && c.Begin? && attempts != [] && NoRetry(attempts) && attempts[0].key in w.tips && attempts[0].timedOut
    ensures var (w1, begun) := BeginForTarget(w, c, attempts, rejected);
            !Agree(Adopted(w1, begun, c, epoch))
  {
    var a, rest := attempts[0], attempts[1..];
    var w1 := Send(w, a.key, c, a.AsCall()).0;
    SendTimedOut(w, a.key, c, a.AsCall());
    UnansweredGoesOn(w, c, attempts, rejected);
    assert forall i :: 0 <= i < |rest| ==> rest[i] == attempts[i + 1];
    OthersAreLeftAlone(w1, c, rest, rejected, a.key);
    var (w2, begun) := BeginForTarget(w1, c, rest, rejected);
    WaitingBeginDisagrees(Adopted(w2, begun, c, epoch), a.key);
  }

  /** Beginning keeps agreement exactly when no Begin that was sent timed out. */
  lemma {:induction false} BeginForTargetAgreesIff(w: World, c: Command, attempts: seq<Attempt>, rejected: bool, epoch: nat)
    requires Agree(w) && w.session.None? && c.Begin? && NoRetry(attempts)
    ensures var (w1, begun) := BeginForTarget(w, c, attempts, rejected);
            Agree(Adopted(w1, begun, c, epoch)) <==> !LeftWaiting(w, c, attempts)
    decreases |attempts|
  {
    if !LeftWaiting(w, c, attempts) {
      BeginForTargetAgrees(w, c, attempts, rejected, epoch);
    } else if attempts[0].key in w.tips && attempts[0].timedOut {
      TimedOutAttemptDisagrees(w, c, attempts, rejected, epoch);
    } else {
      var (w1, response) := Send(w, attempts[0].key, c, attempts[0].AsCall());
      AnsweredAttemptAgrees(w, c, attempts[0], epoch);
      BeginForTargetAgreesIff(w1, c, attempts[1..],
                              rejected || response == Some(NoFocus) || response == Some(EditRejected), epoch);
    }
  }

  /** `reply` acknowledges a snapshot, and the active session is exactly what it names. */
  ghost predicate NamesActive(w: World, reply: Reply, id: string, sequence: int, text: Text) {
    reply.AppliedReply? ==>
      && w.session.Some? && w.session.value.id == id
      && w.session.value.sequence == reply.sequence >= sequence
      && (reply.sequence == sequence ==> w.session.value.text == text)
  }

  /** The session's service takes another state: the world agrees with the matching session. */
  lemma PutLine(w: World, l: Line)
    requires Agree(w) && w.session.Some? && w.session.value.tip in w.tips && l.tip.Valid()
    ensures var w1 := w.(tips := w.tips[w.session.value.tip := l]);
            && (Owned(l, w.session.value.id) ==> Recoverable(w1))
            && (Settles(l) ==> Agree(w1.(session := None)))
            && (forall a: Active {:trigger Holds(l, a)} ::
                  Holds(l, a) && a.tip == w.session.value.tip ==> Agree(w1.(session := Some(a))))
  {
  }

  lemma HeldSend(w: World, c: Command, call: Call)
    requires Agree(w) && w.session.Some? && !c.Begin?
    ensures var active := w.session.value;
            var (w1, response) := Send(w, active.tip, c, call);
            && Recoverable(w1)
            && (response.Some? && c.Query? ==> Agree(w1))
            && (response == Some(NoFocus) ==> Agree(w1))
            && (response.Some? && response.value.Applied? && c.Update? && c.id == active.id && active.sequence < c.sequence ==>
                  && response.value == Applied(c.id, c.sequence)
                  && Agree(w1.(session := Some(active.(sequence := c.sequence, text := c.text)))))
            && (response.Some? && response.value.Finished? ==> Agree(w1.(session := None)))
  {
    var active := w.session.value;
    if active.tip in w.tips {
      var l := w.tips[active.tip];
      HeldCall(l, active, c, call);
      PutLine(w, if call.timedOut then TimedOut(l, c, call) else Answered(l, c, call).0);
      assert w.(session := Some(active)) == w;
    }
  }

  /** The apply is sent on to the text service. */
  predicate Sends(w: World, id: string, sequence: int, env: Env) {
    && w.session.Some? && w.session.value.id == id && env.targetValid && w.session.value.inputEpoch == env.epoch
    && env.foreground && w.session.value.sequence < sequence
  }

  lemma SentApply(w: World, id: string, sequence: int, text: Text, env: Env)
    requires TipsValid(w) && Sends(w, id, sequence, env)
    ensures var (w1, response) := Send(w, w.session.value.tip, Command.Update(id, sequence, text), env.call);
            DoApply(w, id, sequence, text, env) == AnswerApply(w1, w.session.value, sequence, text, response, env.cleanup)
  {
  }

  /** An apply that is not sent on changes nothing or ends the session. */
  lemma UnsentApply(w: World, id: string, sequence: int, text: Text, env: Env)
    requires TipsValid(w) && !Sends(w, id, sequence, env)
    ensures var (w1, reply) := DoApply(w, id, sequence, text, env);
            && (w1 == w || w1 == EndFailedSession(w, env.cleanup))
            && NamesActive(w1, reply, id, sequence, text) && !reply.FinishedReply?
  {
  }

  /** Every answer to an update ends the session or leaves it with its service. */
  lemma AnswerShape(w: World, active: Active, sequence: int, text: Text, response: Option<Response>, cleanup: Call)
    requires TipsValid(w)
    ensures var (w1, reply) := AnswerApply(w, active, sequence, text, response, cleanup);
            || (w1 == EndFailedSession(w, cleanup) && !reply.AppliedReply? && !reply.FinishedReply?)
            || (response == Some(NoFocus) && w1 == w && reply == TargetNotForeground)
            || (&& response.Some? && response.value.Applied? && response.value.id == active.id
                && reply == AppliedReply(response.value.sequence)
                && w1 == if response.value.sequence == sequence
                         then w.(session := Some(active.(sequence := sequence, text := text))) else w)
  {
  }

  lemma ApplyAgrees(w: World, id: string, sequence: int, text: Text, env: Env)
    requires Agree(w)
    ensures var (w1, reply) := DoApply(w, id, sequence, text, env);
            Agree(w1) && NamesActive(w1, reply, id, sequence, text) && !reply.FinishedReply?
  {
    if Sends(w, id, sequence, env) {
      var c, active := Command.Update(id, sequence, text), w.session.value;
      var (w1, response) := Send(w, active.tip, c, env.call);
      SentApply(w, id, sequence, text, env);
      HeldSend(w, c, env.call);
      AnswerShape(w1, active, sequence, text, response, env.cleanup);
      EndFailedSessionAgrees(w1, env.cleanup);
    } else {
      UnsentApply(w, id, sequence, text, env);
      AgreeIsRecoverable(w);
      EndFailedSessionAgrees(w, env.cleanup);
    }
  }

  lemma FinishAgrees(w: World, id: string, sequence: int, env: Env)
    requires Agree(w)
    ensures var (w1, reply) := DoFinishSession(w, id, sequence, env);
            && Agree(w1) && !reply.AppliedReply?
            && (reply.FinishedReply? ==>
                  && w.session.Some? && w.session.value.id == id && reply.sequence == sequence
                  && w1.session.None? && w1.completed == Some(Completed(id, sequence, w.session.value.text)))
  {
    if w.session.None? || w.session.value.id != id || w.session.value.sequence != sequence { return; }
    var c := Command.Finish(id, sequence);
    HeldSend(w, c, env.call);
    EndFailedSessionAgrees(Send(w, w.session.value.tip, c, env.call).0, env.cleanup);
  }

  /** The query is sent on to the text service. */
  predicate SendsQuery(w: World, id: string, env: Env) {
    w.session.Some? && w.session.value.id == id && w.session.value.inputEpoch == env.epoch && env.queryDue
  }

  lemma SentQuery(w: World, id: string, env: Env)
    requires TipsValid(w) && SendsQuery(w, id, env)
    ensures var (w1, response) := Send(w, w.session.value.tip, Command.Query(id), env.call);
            DoQuerySession(w, id, env) == AnswerQuery(w1, w.session.value, response, env)
  {
  }

  lemma UnsentQuery(w: World, id: string, env: Env)
    requires TipsValid(w) && !SendsQuery(w, id, env)
    ensures var (w1, reply) := DoQuerySession(w, id, env);
            && (w1 == w || w1 == EndFailedSession(w, env.cleanup)) && !reply.AppliedReply? && !reply.FinishedReply?
            && (reply.ActiveReply? ==> w1 == w && w.session.Some? && w.session.value.id == id
                                       && reply == ActiveReply(id, w.session.value.sequence, w.session.value.text))
  {
  }

  lemma QueryAnswerShape(w: World, active: Active, response: Option<Response>, env: Env)
    requires TipsValid(w)
    ensures var (w1, reply) := AnswerQuery(w, active, response, env);
            || (response.Some? && w1 == w && reply == ActiveReply(active.id, active.sequence, active.text))
            || (w1 == EndFailedSession(w, env.cleanup) && (reply == TargetSubmitted || reply == TargetModified))
  {
  }

  lemma QueryAgrees(w: World, id: string, env: Env)
    requires Agree(w)
    ensures var (w1, reply) := DoQuerySession(w, id, env);
            && Agree(w1) && !reply.AppliedReply? && !reply.FinishedReply?
            && (reply.ActiveReply? ==> w1.session == w.session && w1.session.Some? && w1.session.value.id == reply.id == id
                                       && w1.session.value.sequence == reply.sequence && w1.session.value.text == reply.text)
  {
    if SendsQuery(w, id, env) {
      var (w1, response) := Send(w, w.session.value.tip, Command.Query(id), env.call);
      SentQuery(w, id, env);
      QueryAnswerShape(w1, w.session.value, response, env);
      HeldSend(w, Command.Query(id), env.call);
      EndFailedSessionAgrees(w1, env.cleanup);
    } else {
      UnsentQuery(w, id, env);
      AgreeIsRecoverable(w);
      EndFailedSessionAgrees(w, env.cleanup);
    }
  }

  /** A Begin that is repeated, replayed after the finish, or rejected. */
  predicate BeginChangesNothing(w: World, q: Request)
    requires q.BeginSession?
  {
    || (w.session.Some? && (w.session.value.id == q.id || q.replacing != Some(w.session.value.id)))
    || (w.completed.Some? && w.completed.value.id == q.id)
  }

  lemma HarmlessBegin(w: World, q: Request, env: Env)
    requires TipsValid(w) && q.BeginSession? && BeginChangesNothing(w, q)
    ensures var (w1, reply) := Handle(w, q, env);
            && w1 == w && (reply.SessionFinished? || reply.InvalidRequest? || reply.SessionBegun?)
            && (reply.SessionBegun? ==> w.session.Some? && w.session.value.id == q.id)
  {
  }

  /** A Begin that changes something ends the open session first. */
  lemma BeginShape(w: World, q: Request, env: Env)
    requires TipsValid(w) && q.BeginSession? && !BeginChangesNothing(w, q)
    ensures Handle(w, q, env) == OpenOnTarget(EndFailedSession(w, env.cleanup), q, env)
  {
  }

  /** No Begin that this request sent to a connected client timed out. */
  predicate InTime(w: World, q: Request, env: Env)
    requires TipsValid(w)
  {
    q.BeginSession? && !BeginChangesNothing(w, q) && env.gate.Open? ==>
      !LeftWaiting(EndFailedSession(w, env.cleanup), BeginOf(q), env.attempts)
  }

  /** Unless the target's checks pass nothing is begun. */
  lemma NotOpened(w: World, q: Request, env: Env)
    requires TipsValid(w) && q.BeginSession? && !env.gate.Open?
    ensures var (w1, reply) := OpenOnTarget(w, q, env);
            w1 == w && (reply == TargetInvalid || reply == TargetUnsupported || reply == TargetNotForeground || reply == InjectionUnknown)
  {
  }

  lemma OpenOnTargetAgrees(w: World, q: Request, env: Env)
    requires Agree(w) && w.session.None? && q.BeginSession? && (env.gate.Open? ==> !LeftWaiting(w, BeginOf(q), env.attempts))
    ensures var (w1, reply) := OpenOnTarget(w, q, env);
            && Agree(w1) && reply != TargetModified && !reply.AppliedReply? && !reply.FinishedReply?
            && (reply.SessionBegun? ==> w1.session.Some? && w1.session.value.id == q.id)
  {
    if env.gate.Open? {
      OpenAgrees(w, q, env);
      assert OpenOnTarget(w, q, env) == OpenSession(w, q, env);
    } else {
      NotOpened(w, q, env);
    }
  }

  lemma BeginAgrees(w: World, q: Request, env: Env)
    requires Agree(w) && q.BeginSession? && InTime(w, q, env)
    ensures var (w1, reply) := DoBeginSession(w, q, env);
            && Agree(w1) && reply != TargetModified
            && !reply.AppliedReply? && !reply.FinishedReply?
            && (reply.SessionBegun? ==> w1.session.Some? && w1.session.value.id == q.id)
  {
    if BeginChangesNothing(w, q) {
      HarmlessBegin(w, q, env);
    } else {
      AgreeIsRecoverable(w);
      EndFailedSessionAgrees(w, env.cleanup);
      BeginShape(w, q, env);
      OpenOnTargetAgrees(EndFailedSession(w, env.cleanup), q, env);
    }
  }

  lemma OpenAgrees(w: World, q: Request, env: Env)
    requires Agree(w) && w.session.None? && q.BeginSession? && !LeftWaiting(w, BeginOf(q), env.attempts)
    ensures var (w1, reply) := OpenSession(w, q, env);
            && Agree(w1)
            && (if reply.SessionBegun? then w1.session.Some? && w1.session.value.id == q.id
                else reply == TargetUnsupported || reply == TsfUnavailable)
  {
    BeginForTargetAgrees(w, BeginOf(q), env.attempts, false, env.epoch);
  }

  /**
   Every request keeps the two sides in agreement; an acknowledgement names exactly the
   snapshot both sides then hold; and a Begin is never refused as an unsafe rebind.
   */
  lemma HandleAgrees(w: World, q: Request, env: Env)
    requires Agree(w) && InTime(w, q, env)
    ensures var (w1, reply) := Handle(w, q, env);
            && Agree(w1)
            && (q.BeginSession? ==> reply != TargetModified)
            && (reply.AppliedReply? ==> q.ApplyState? && NamesActive(w1, reply, q.id, q.sequence, q.text))
            && (reply.FinishedReply? ==> w1.completed.Some? && w1.completed.value.sequence == reply.sequence
                                         && (q.ApplyState? ==> w1.completed.value == Completed(q.id, q.sequence, q.text))
                                         && (q.FinishSession? ==> w1.completed.value.id == q.id))
  {
    match q {
      case BeginSession(_, _, _, _, _) => BeginAgrees(w, q, env);
      case ApplyState(id, sequence, text) => ApplyAgrees(w, id, sequence, text, env);
      case FinishSession(id, sequence) => FinishAgrees(w, id, sequence, env);
      case QuerySession(id) => QueryAgrees(w, id, env);
      case CancelInvalidSession(_) =>
        AgreeIsRecoverable(w);
        EndFailedSessionAgrees(w, env.cleanup);
      case _ =>
    }
  }

  /** None of the requests of one connection left a Begin waiting. */
  predicate ServedInTime(w: World, requests: seq<(Request, Env)>)
    requires TipsValid(w)
  {
    requests == [] ||
    var most, last := requests[..|requests| - 1], requests[|requests| - 1];
    ServedInTime(w, most) && InTime(Served(w, most).0, last.0, last.1)
  }

  predicate Prompt(attempts: seq<Attempt>) {
    forall i :: 0 <= i < |attempts| ==> !attempts[i].timedOut
  }

  lemma {:induction false} PromptLeavesNothing(w: World, c: Command, attempts: seq<Attempt>)
    requires TipsValid(w) && c.Begin? && Prompt(attempts)
    ensures !LeftWaiting(w, c, attempts)
    decreases |attempts|
  {
    if attempts != [] {
      PromptLeavesNothing(Send(w, attempts[0].key, c, attempts[0].AsCall()).0, c, attempts[1..]);
    }
  }

  /** In whatever state it comes, a request whose clients all answer is in time. */
  lemma PromptIsInTime(w: World, q: Request, env: Env)
    requires TipsValid(w) && (q.BeginSession? ==> Prompt(env.attempts))
    ensures InTime(w, q, env)
  {
    if q.BeginSession? {
      PromptLeavesNothing(EndFailedSession(w, env.cleanup), BeginOf(q), env.attempts);
    }
  }

  lemma OpenDisagrees(w: World, q: Request, env: Env)
    requires Agree(w) && w.session.None? && q.BeginSession? && NoRetry(env.attempts) && LeftWaiting(w, BeginOf(q), env.attempts)
    ensures !Agree(OpenSession(w, q, env).0)
  {
    BeginForTargetAgreesIff(w, BeginOf(q), env.attempts, false, env.epoch);
    var (w1, begun) := BeginForTarget(w, BeginOf(q), env.attempts, false);
    ForgettingKeepsAgreement(Adopted(w1, begun, BeginOf(q), env.epoch), OpenSession(w, q, env).0);
  }

  /** Agreement is not about the completed session. */
  lemma ForgettingKeepsAgreement(w: World, w1: World)
    requires w1 == w.(completed := w1.completed)
    ensures Agree(w1) <==> Agree(w)
  {
  }

  /** A request keeps agreement exactly when no Begin it sent to a connected client timed out. */
  lemma HandleAgreesIff(w: World, q: Request, env: Env)
    requires Agree(w) && NoRetry(env.attempts)
    ensures Agree(Handle(w, q, env).0) <==> InTime(w, q, env)
  {
    if InTime(w, q, env) {
      HandleAgrees(w, q, env);
    } else {
      AgreeIsRecoverable(w);
      EndFailedSessionAgrees(w, env.cleanup);
      BeginShape(w, q, env);
      var w0 := EndFailedSession(w, env.cleanup);
      assert OpenOnTarget(w0, q, env) == OpenSession(w0, q, env);
      OpenDisagrees(w0, q, env);
    }
  }

  // ---------------------------------------------------------------------------
  // Runs
  // ---------------------------------------------------------------------------

  datatype Event =
    | Serves(request: Request, env: Env)
    | AppDisconnects(cleanup: Call)
    | TipActs(key: TipKey, event: TipEvent)
    | TipJoins(process: nat, thread: nat, tip: State)
    | TipLeaves(key: TipKey)

  /**
   A joining service replaces an earlier client of the same thread.  It comes as it is: one
   that lost its pipe and connects again still has its session.
   */
  function Step(w: World, e: Event): (r: World)
    requires TipsValid(w)
    ensures TipsValid(r)
  {
    match e
    case Serves(q, env) => Handle(w, q, env).0
    case AppDisconnects(cleanup) => Disconnect(w, cleanup)
    case TipActs(key, event) =>
      if key in w.tips then w.(tips := w.tips[key := LineStep(w.tips[key], event)]) else w
    case TipJoins(process, thread, tip) =>
      if tip.Valid() then
        var others := map k | k in w.tips && !(k.process == process && k.thread == thread) :: w.tips[k];
        w.(tips := others[TipKey(process, thread, w.nextGeneration) := Line(tip, [])],
           nextGeneration := w.nextGeneration + 1)
      else w
    case TipLeaves(key) => w.(tips := w.tips - {key})
  }

  function RunWorld(w: World, events: seq<Event>): (r: World)
    requires TipsValid(w)
    ensures TipsValid(r)
    decreases |events|
  {
    if events == [] then w else RunWorld(Step(w, events[0]), events[1..])
  }

  const START := World(None, None, map[], 1)

  /** No Begin that was sent times out, and a service that joins is idle. */
  predicate Timely(w: World, e: Event)
    requires TipsValid(w)
  {
    match e
    case Serves(q, env) => InTime(w, q, env)
    case TipJoins(_, _, tip) => tip.Valid() ==> tip.session.None?
    case _ => true
  }

  predicate TimelyRun(w: World, events: seq<Event>)
    requires TipsValid(w)
    decreases |events|
  {
    events == [] || (Timely(w, events[0]) && TimelyRun(Step(w, events[0]), events[1..]))
  }

  /** A join keeps agreement exactly when the service that joins is idle. */
  lemma JoinAgreesIff(w: World, process: nat, thread: nat, tip: State)
    requires Agree(w) && tip.Valid()
    ensures Agree(Step(w, TipJoins(process, thread, tip))) <==> tip.session.None?
  {
    var w1, key := Step(w, TipJoins(process, thread, tip)), TipKey(process, thread, w.nextGeneration);
    assert w1.tips[key] == Line(tip, []);
    assert w.session.Some? ==> w.session.value.tip != key;
    if tip.session.None? {
      forall k | k in w1.tips
        ensures if w1.session.Some? && w1.session.value.tip == k then Holds(w1.tips[k], w1.session.value) else Settles(w1.tips[k])
      {
        if k != key {
          assert w1.tips[k] == w.tips[k];
        }
      }
    } else {
      assert !Settles(w1.tips[key]);
    }
  }

  lemma ActionAgrees(w: World, key: TipKey, event: TipEvent)
    requires Agree(w) && key in w.tips
    ensures Agree(w.(tips := w.tips[key := LineStep(w.tips[key], event)]))
  {
    assert LineRun(w.tips[key], [event]) == LineStep(w.tips[key], event);
    if w.session.Some? && w.session.value.tip == key {
      HeldRun(w.tips[key], w.session.value, [event]);
    } else {
      SettledStep(w.tips[key], event);
    }
  }

  lemma StepAgrees(w: World, e: Event)
    requires Agree(w) && Timely(w, e)
    ensures Agree(Step(w, e))
  {
    match e {
      case Serves(q, env) => HandleAgrees(w, q, env);
      case AppDisconnects(cleanup) =>
        AgreeIsRecoverable(w);
        EndFailedSessionAgrees(w, cleanup);
      case TipActs(key, event) =>
        if key in w.tips {
          ActionAgrees(w, key, event);
        }
      case TipJoins(process, thread, tip) =>
        if tip.Valid() {
          JoinAgreesIff(w, process, thread, tip);
        }
      case TipLeaves(_) =>
    }
  }

  /**
   In every reachable state an active session is held by its service with the same id,
   sequence and text, and every other service is idle as soon as its line is executed.
   */
  lemma {:induction false} EveryRunAgrees(w: World, events: seq<Event>)
    requires Agree(w) && TimelyRun(w, events)
    ensures Agree(RunWorld(w, events))
    decreases |events|
  {
    if events != [] {
      StepAgrees(w, events[0]);
      EveryRunAgrees(Step(w, events[0]), events[1..]);
    }
  }

  /**
   From the start, after any timely events: an active session's service, while it is
   connected, has the same id, sequence and text and nothing in line; and when no session
   is active, a service with nothing in line is idle.
   */
  lemma EveryReachableStateAgrees(events: seq<Event>)
    requires TimelyRun(START, events)
    ensures var w := RunWorld(START, events);
            && (w.session.Some? && w.session.value.tip in w.tips ==>
                  var l := w.tips[w.session.value.tip];
                  && l.queue == [] && l.tip.session == Some(w.session.value.id)
                  && l.tip.sequence == w.session.value.sequence && l.tip.text == w.session.value.text)
            && (w.session.None? ==> forall k <- w.tips :: w.tips[k].queue == [] ==> w.tips[k].tip.session.None?)
  {
    EveryRunAgrees(START, events);
  }

  ghost predicate AgreesThroughout(w: World, events: seq<Event>)
    requires TipsValid(w)
    decreases |events|
  {
    Agree(w) && (events == [] || AgreesThroughout(Step(w, events[0]), events[1..]))
  }

  lemma StepAgreesIff(w: World, e: Event)
    requires Agree(w) && (e.Serves? ==> NoRetry(e.env.attempts))
    ensures Agree(Step(w, e)) <==> Timely(w, e)
  {
    if Timely(w, e) {
      StepAgrees(w, e);
    } else if e.Serves? {
      HandleAgreesIff(w, e.request, e.env);
    } else {
      JoinAgreesIff(w, e.process, e.thread, e.tip);
    }
  }

  /**
   Over any run at all the two sides agree throughout exactly when every service that joins
   is idle and no Begin that was sent to a connected client timed out.
   */
  lemma {:induction false} AgreesThroughoutIff(w: World, events: seq<Event>)
    requires Agree(w) && forall e <- events :: e.Serves? ==> NoRetry(e.env.attempts)
    ensures AgreesThroughout(w, events) <==> TimelyRun(w, events)
    decreases |events|
  {
    if events != [] {
      StepAgreesIff(w, events[0]);
      if Timely(w, events[0]) {
        AgreesThroughoutIff(Step(w, events[0]), events[1..]);
      }
    }
  }

  // ---------------------------------------------------------------------------
  // What goes wrong otherwise
  // ---------------------------------------------------------------------------

  /** The request reaches this one service, in time. */
  predicate AsksOnly(env: Env, key: TipKey, host: Host) {
    env.gate.Open? && env.attempts == [Attempt(key, [], host, false)]
  }

  lemma Opens(w: World, q: Request, env: Env)
    requires TipsValid(w) && q.BeginSession? && env.gate.Open?
    requires w.session.None? && (w.completed.Some? ==> w.completed.value.id != q.id)
    ensures Handle(w, q, env) == OpenSession(w, q, env)
  {
  }

  lemma SingleAttempt(w: World, c: Command, a: Attempt)
    requires TipsValid(w) && c.Begin?
    ensures var (w1, response) := Send(w, a.key, c, a.AsCall());
            BeginForTarget(w, c, [a], false)
            == (w1, if response == Some(Begun(c.id)) then Registered(a.key)
                    else if response == Some(RebindRejected) then Failed(TargetModified)
                    else if response == Some(NoFocus) || response == Some(EditRejected) then Failed(TargetUnsupported)
                    else Failed(TsfUnavailable))
  {
    assert [a][1..] == [];
  }

  lemma AskedOnly(w: World, q: Request, env: Env, key: TipKey, host: Host)
    requires TipsValid(w) && q.BeginSession? && AsksOnly(env, key, host)
    requires w.session.None? && (w.completed.Some? ==> w.completed.value.id != q.id)
    requires key in w.tips && w.tips[key].queue == []
    ensures var (t, response) := Execute(w.tips[key].tip, BeginOf(q), host);
            var w1 := w.(tips := w.tips[key := Line(t, [])]);
            && (response == Begun(q.id) ==>
                  Handle(w, q, env) == (w1.(session := Some(Active(q.id, q.sequence, q.text, key, env.epoch)), completed := None), SessionBegun))
            && (response == RebindRejected ==> Handle(w, q, env) == (w1, TargetModified))
            && (response == CompositionTerminated ==> Handle(w, q, env) == (w1, TsfUnavailable))
  {
    var a := Attempt(key, [], host, false);
    assert Answered(w.tips[key], BeginOf(q), a.AsCall())
           == (Line(Execute(w.tips[key].tip, BeginOf(q), host).0, []), Execute(w.tips[key].tip, BeginOf(q), host).1);
    Opens(w, q, env);
    SingleAttempt(w, BeginOf(q), a);
  }

  /** A service that joins with a session refuses the next Begin of any other session. */
  lemma RejoinedSessionRefuses(w: World, process: nat, thread: nat, tip: State, q: Request, env: Env, host: Host)
    requires Agree(w) && w.session.None? && tip.Valid() && tip.session.Some?
    requires q.BeginSession? && tip.session != Some(q.id) && (w.completed.Some? ==> w.completed.value.id != q.id)
    requires AsksOnly(env, TipKey(process, thread, w.nextGeneration), host)
    ensures Handle(Step(w, TipJoins(process, thread, tip)), q, env).1 == TargetModified
  {
    var w1 := Step(w, TipJoins(process, thread, tip));
    AskedOnly(w1, q, env, TipKey(process, thread, w.nextGeneration), host);
  }

  lemma JoinedBeside(w: World, process: nat, thread: nat, tip: State)
    requires Agree(w) && w.session.None? && tip.Valid()
    ensures var w1, key := Step(w, TipJoins(process, thread, tip)), TipKey(process, thread, w.nextGeneration);
            && TipsValid(w1) && Issued(w1) && w1.session.None? && key in w1.tips && w1.tips[key] == Line(tip, [])
            && forall k <- w1.tips :: k != key ==> Settles(w1.tips[k])
  {
  }

  /** A session opened at one service, all others settled, agrees exactly if the service holds it. */
  lemma OthersSettled(w: World, w1: World, key: TipKey)
    requires TipsValid(w) && Issued(w) && key in w.tips && forall k <- w.tips :: k != key ==> Settles(w.tips[k])
    requires w1.tips == w.tips && w1.nextGeneration == w.nextGeneration && w1.session.Some? && w1.session.value.tip == key
    ensures Agree(w1) <==> Holds(w.tips[key], w1.session.value)
  {
  }

  /**
   If it joins with the very session that is begun, the injector takes it over as it says
   the new request is: the two agree exactly if the service already had that snapshot.
   */
  lemma RejoinedSessionIsTakenOver(w: World, process: nat, thread: nat, tip: State, q: Request, env: Env, host: Host)
    requires Agree(w) && w.session.None? && tip.Valid() && !tip.modified
    requires q.BeginSession? && tip.session == Some(q.id) && (w.completed.Some? ==> w.completed.value.id != q.id)
    requires AsksOnly(env, TipKey(process, thread, w.nextGeneration), host)
    ensures var (w1, reply) := Handle(Step(w, TipJoins(process, thread, tip)), q, env);
            reply == SessionBegun && (Agree(w1) <==> tip.sequence == q.sequence && tip.text == q.text)
  {
    var w1, key := Step(w, TipJoins(process, thread, tip)), TipKey(process, thread, w.nextGeneration);
    AskedOnly(w1, q, env, key, host);
    JoinedBeside(w, process, thread, tip);
    assert Handle(w1, q, env).0.tips == w1.tips;
    OthersSettled(w1, Handle(w1, q, env).0, key);
  }

  /** If its target was modified meanwhile, the same Begin fails, and the service keeps its session. */
  lemma RejoinedModifiedSessionFails(w: World, process: nat, thread: nat, tip: State, q: Request, env: Env, host: Host)
    requires Agree(w) && w.session.None? && tip.Valid() && tip.modified
    requires q.BeginSession? && tip.session == Some(q.id) && (w.completed.Some? ==> w.completed.value.id != q.id)
    requires AsksOnly(env, TipKey(process, thread, w.nextGeneration), host)
    ensures var (w1, reply) := Handle(Step(w, TipJoins(process, thread, tip)), q, env);
            var key := TipKey(process, thread, w.nextGeneration);
            && reply == TsfUnavailable && w1.session.None? && key in w1.tips && w1.tips[key] == Line(tip, []) && !Agree(w1)
  {
    var w1, key := Step(w, TipJoins(process, thread, tip)), TipKey(process, thread, w.nextGeneration);
    AskedOnly(w1, q, env, key, host);
    assert !Settles(Line(tip, []));
  }

  lemma TimedOutBegin(w: World, q: Request, env: Env, key: TipKey, host: Host)
    requires TipsValid(w) && w.session.None? && w.completed.None? && key in w.tips && w.tips[key].queue == []
    requires q.BeginSession? && env.gate.Open? && env.attempts == [Attempt(key, [], host, true)]
    ensures Handle(w, q, env) == (w.(tips := w.tips[key := Line(w.tips[key].tip, [BeginOf(q)])]), TsfUnavailable)
  {
    var a := Attempt(key, [], host, true);
    assert TimedOut(w.tips[key], BeginOf(q), a.AsCall()) == Line(w.tips[key].tip, [BeginOf(q)]);
    Opens(w, q, env);
    SingleAttempt(w, BeginOf(q), a);
  }

  /**
   A Begin that timed out and is executed late leaves a session nobody owns: the injector
   reported failure and is idle, and the next Begin is refused.
   */
  lemma LateBeginRefuses(w: World, q: Request, env: Env, key: TipKey, host: Host, next: Request, env1: Env, host1: Host)
    requires Agree(w) && w.session.None? && w.completed.None? && key in w.tips && w.tips[key].queue == []
    requires q.BeginSession? && env.gate.Open? && env.attempts == [Attempt(key, [], host, true)]
    requires Execute(w.tips[key].tip, BeginOf(q), host).1 == Begun(q.id)
    requires next.BeginSession? && next.id != q.id && AsksOnly(env1, key, host1)
    ensures var (w1, reply) := Handle(w, q, env);
            var w2 := Step(w1, TipActs(key, Delivers(host)));
            && reply == TsfUnavailable && w2.session.None? && key in w2.tips
            && w2.tips[key].tip.session == Some(q.id) && w2.tips[key].queue == []
            && Handle(w2, next, env1).1 == TargetModified
  {
    TimedOutBegin(w, q, env, key, host);
    var c, tip := BeginOf(q), w.tips[key].tip;
    var w1 := Handle(w, q, env).0;
    var w2 := Step(w1, TipActs(key, Delivers(host)));
    assert w2.tips[key] == Line(Execute(tip, c, host).0, []);
    assert Settles(w.tips[key]) && tip.session.None?;
    BegunSession(tip, c, host);
    AskedOnly(w2, next, env1, key, host1);
  }

  // ---------------------------------------------------------------------------
  // The document over a whole session
  // ---------------------------------------------------------------------------

  predicate QuietScript(script: seq<TipEvent>) {
    forall e <- script :: e.HostActs? ==> !e.event.Edit?
  }

  /** No edit is made in an application, and no other session is begun. */
  predicate Quiet(w: World, e: Event) {
    match e
    case Serves(q, env) =>
      (q.BeginSession? ==> BeginChangesNothing(w, q)) && QuietScript(env.call.script) && QuietScript(env.cleanup.script)
    case AppDisconnects(cleanup) => QuietScript(cleanup.script)
    case TipActs(_, event) => QuietScript([event])
    case TipJoins(_, _, _) => true
    case TipLeaves(_) => true
  }

  ghost predicate QuietEvents(w: World, events: seq<Event>)
    requires TipsValid(w)
    decreases |events|
  {
    events == [] || (Quiet(w, events[0]) && QuietEvents(Step(w, events[0]), events[1..]))
  }

  /** The session's own service, while it is connected, holds the session; the others may be doing anything. */
  ghost predicate OwnHeld(w: World) {
    && TipsValid(w) && Issued(w)
    && (w.session.Some? && w.session.value.tip in w.tips ==> Holds(w.tips[w.session.value.tip], w.session.value))
  }

  lemma OwnSend(w: World, c: Command, call: Call)
    requires OwnHeld(w) && w.session.Some? && !c.Begin?
    ensures var active := w.session.value;
            var (w1, response) := Send(w, active.tip, c, call);
            && TipsValid(w1) && Issued(w1)
            && (response.Some? && (c.Query? || response.value.NoFocus?) ==> OwnHeld(w1))
            && (response.Some? && response.value.Applied? && c.Update? && c.id == active.id && active.sequence < c.sequence ==>
                  && response.value == Applied(c.id, c.sequence)
                  && OwnHeld(w1.(session := Some(active.(sequence := c.sequence, text := c.text)))))
  {
    if w.session.value.tip in w.tips {
      HeldCall(w.tips[w.session.value.tip], w.session.value, c, call);
    }
  }

  lemma EndedIsHeld(w: World, cleanup: Call)
    requires TipsValid(w) && Issued(w)
    ensures OwnHeld(EndFailedSession(w, cleanup))
  {
  }

  lemma OwnApply(w: World, id: string, sequence: int, text: Text, env: Env)
    requires OwnHeld(w)
    ensures OwnHeld(DoApply(w, id, sequence, text, env).0)
  {
    EndedIsHeld(w, env.cleanup);
    if Sends(w, id, sequence, env) {
      var c, active := Command.Update(id, sequence, text), w.session.value;
      var (w1, response) := Send(w, active.tip, c, env.call);
      SentApply(w, id, sequence, text, env);
      OwnSend(w, c, env.call);
      AnswerShape(w1, active, sequence, text, response, env.cleanup);
      EndedIsHeld(w1, env.cleanup);
    } else {
      UnsentApply(w, id, sequence, text, env);
    }
  }

  lemma OwnQuery(w: World, id: string, env: Env)
    requires OwnHeld(w)
    ensures OwnHeld(DoQuerySession(w, id, env).0)
  {
    EndedIsHeld(w, env.cleanup);
    if SendsQuery(w, id, env) {
      var (w1, response) := Send(w, w.session.value.tip, Command.Query(id), env.call);
      SentQuery(w, id, env);
      OwnSend(w, Command.Query(id), env.call);
      QueryAnswerShape(w1, w.session.value, response, env);
      EndedIsHeld(w1, env.cleanup);
    } else {
      UnsentQuery(w, id, env);
    }
  }

  lemma OwnFinish(w: World, id: string, sequence: int, env: Env)
    requires OwnHeld(w)
    ensures OwnHeld(DoFinishSession(w, id, sequence, env).0)
  {
    if w.session.Some? && w.session.value.id == id && w.session.value.sequence == sequence {
      OwnSend(w, Command.Finish(id, sequence), env.call);
    }
  }

  lemma OwnAction(w: World, key: TipKey, event: TipEvent)
    requires OwnHeld(w) && key in w.tips
    ensures OwnHeld(w.(tips := w.tips[key := LineStep(w.tips[key], event)]))
  {
    if w.session.Some? && w.session.value.tip == key {
      assert LineRun(w.tips[key], [event]) == LineStep(w.tips[key], event);
      HeldRun(w.tips[key], w.session.value, [event]);
    }
  }

  lemma OwnJoin(w: World, e: Event)
    requires OwnHeld(w) && (e.TipJoins? || e.TipLeaves?)
    ensures OwnHeld(Step(w, e))
  {
  }

  /** Whatever joins, times out or is left waiting elsewhere, a quiet step keeps the session with its own service. */
  lemma QuietStepHeld(w: World, e: Event)
    requires OwnHeld(w) && Quiet(w, e)
    ensures OwnHeld(Step(w, e))
  {
    match e {
      case Serves(BeginSession(_, _, _, _, _), env) => HarmlessBegin(w, e.request, env);
      case Serves(ApplyState(id, sequence, text), env) => OwnApply(w, id, sequence, text, env);
      case Serves(FinishSession(id, sequence), env) => OwnFinish(w, id, sequence, env);
      case Serves(QuerySession(id), env) => OwnQuery(w, id, env);
      case Serves(_, env) => EndedIsHeld(w, env.cleanup);
      case AppDisconnects(cleanup) => EndedIsHeld(w, cleanup);
      case TipActs(key, event) =>
        if key in w.tips {
          OwnAction(w, key, event);
        }
      case _ => OwnJoin(w, e);
    }
  }

  /** The service still holds a session whose range has this text before and after it. */
  ghost predicate Surrounded(t: State, before: Text, after: Text) {
    t.Valid() && t.session.Some? && Before(t) == before && After(t) == after
  }

  lemma {:induction false} QuietRunKeepsSurroundings(l: Line, script: seq<TipEvent>, before: Text, after: Text)
    requires l.queue == [] && Surrounded(l.tip, before, after) && QuietScript(script)
    ensures LineRun(l, script).queue == [] && Surrounded(LineRun(l, script).tip, before, after)
    decreases |script|
  {
    if script != [] {
      QuietRunKeepsSurroundings(LineStep(l, script[0]), script[1..], before, after);
    }
  }

  /** One quiet event either ends the session or keeps it on its service with the same surroundings. */
  ghost predicate SessionSurrounded(w: World, id: string, key: TipKey, before: Text, after: Text) {
    w.session.Some? ==>
      && w.session.value.id == id && w.session.value.tip == key
      && (key in w.tips ==> Surrounded(w.tips[key].tip, before, after))
  }

  lemma QuietSendKeepsSurroundings(w: World, c: Command, call: Call, before: Text, after: Text)
    requires OwnHeld(w) && w.session.Some? && QuietScript(call.script) && !c.Begin?
    requires SessionSurrounded(w, w.session.value.id, w.session.value.tip, before, after)
    ensures var key := w.session.value.tip;
            var (w1, response) := Send(w, key, c, call);
            && (response.Some? ==>
                  && key in w1.tips
                  && (w1.tips[key].tip.session.Some? ==> Surrounded(w1.tips[key].tip, before, after))
                  && (response.value.Finished? ==> w1.tips[key].tip.doc.text == before + w.session.value.text + after))
  {
    var key := w.session.value.tip;
    if key in w.tips && !call.timedOut {
      var l := w.tips[key];
      HeldRun(l, w.session.value, call.script);
      QuietRunKeepsSurroundings(l, call.script, before, after);
      var t := LineRun(l, call.script).tip;
      CommandsWriteOnlyTheOwnedRange(t, c, call.host);
      if Execute(t, c, call.host).1.Finished? {
        FinishedDocument(t, [], c, call.host);
      }
    }
  }

  /** An Apply that keeps the session open left the services alone or got an answer from its own. */
  lemma ApplyShape(w: World, id: string, sequence: int, text: Text, env: Env)
    requires TipsValid(w) && w.session.Some?
    ensures var w1 := DoApply(w, id, sequence, text, env).0;
            var (w2, response) := Send(w, w.session.value.tip, Command.Update(id, sequence, text), env.call);
            w1.session.Some? ==>
              && w1.session.value.id == w.session.value.id && w1.session.value.tip == w.session.value.tip
              && (w1.tips == w.tips || (response.Some? && w1.tips == w2.tips))
  {
    if Sends(w, id, sequence, env) {
      var (w2, response) := Send(w, w.session.value.tip, Command.Update(id, sequence, text), env.call);
      SentApply(w, id, sequence, text, env);
      AnswerShape(w2, w.session.value, sequence, text, response, env.cleanup);
    } else {
      UnsentApply(w, id, sequence, text, env);
    }
  }

  lemma QuietApply(w: World, id: string, sequence: int, text: Text, env: Env, before: Text, after: Text)
    requires OwnHeld(w) && QuietScript(env.call.script) && w.session.Some?
    requires SessionSurrounded(w, w.session.value.id, w.session.value.tip, before, after)
    ensures SessionSurrounded(DoApply(w, id, sequence, text, env).0, w.session.value.id, w.session.value.tip, before, after)
  {
    var key := w.session.value.tip;
    var w1 := DoApply(w, id, sequence, text, env).0;
    ApplyShape(w, id, sequence, text, env);
    if w1.session.Some? && key in w1.tips && w1.tips != w.tips {
      OwnApply(w, id, sequence, text, env);
      assert Holds(w1.tips[key], w1.session.value);
      QuietSendKeepsSurroundings(w, Command.Update(id, sequence, text), env.call, before, after);
    }
  }

  /** A query leaves everything alone, gets an answer from the session's service, or ends the session. */
  lemma QueryShape(w: World, id: string, env: Env)
    requires TipsValid(w) && w.session.Some?
    ensures var (w1, response) := Send(w, w.session.value.tip, Command.Query(id), env.call);
            var w2 := DoQuerySession(w, id, env).0;
            || w2 == w || w2 == EndFailedSession(w, env.cleanup)
            || (w2 == w1 && response.Some?)
            || w2 == EndFailedSession(w1, env.cleanup)
  {
    if SendsQuery(w, id, env) {
      var (w1, response) := Send(w, w.session.value.tip, Command.Query(id), env.call);
      SentQuery(w, id, env);
      QueryAnswerShape(w1, w.session.value, response, env);
    } else {
      UnsentQuery(w, id, env);
    }
  }

  lemma QuietQuery(w: World, id: string, env: Env, before: Text, after: Text)
    requires OwnHeld(w) && QuietScript(env.call.script) && w.session.Some?
    requires SessionSurrounded(w, w.session.value.id, w.session.value.tip, before, after)
    ensures SessionSurrounded(DoQuerySession(w, id, env).0, w.session.value.id, w.session.value.tip, before, after)
  {
    var key := w.session.value.tip;
    var w1 := DoQuerySession(w, id, env).0;
    QueryShape(w, id, env);
    if w1.session.Some? && key in w1.tips && w1.tips != w.tips {
      OwnQuery(w, id, env);
      assert Holds(w1.tips[key], w1.session.value);
      QuietSendKeepsSurroundings(w, Command.Query(id), env.call, before, after);
    }
  }

  lemma QuietFinish(w: World, id: string, sequence: int, env: Env, before: Text, after: Text)
    requires OwnHeld(w) && QuietScript(env.call.script) && w.session.Some?
    requires SessionSurrounded(w, w.session.value.id, w.session.value.tip, before, after)
    ensures var (w1, reply) := DoFinishSession(w, id, sequence, env);
            var key := w.session.value.tip;
            && SessionSurrounded(w1, w.session.value.id, key, before, after)
            && (reply.FinishedReply? ==>
                  && w1.completed == Some(Completed(id, sequence, w.session.value.text)) && key in w1.tips
                  && w1.tips[key].tip.doc.text == before + w.session.value.text + after)
  {
    QuietSendKeepsSurroundings(w, Command.Finish(id, sequence), env.call, before, after);
  }

  lemma QuietStep(w: World, e: Event, before: Text, after: Text)
    requires OwnHeld(w) && Quiet(w, e) && w.session.Some?
    requires SessionSurrounded(w, w.session.value.id, w.session.value.tip, before, after)
    ensures SessionSurrounded(Step(w, e), w.session.value.id, w.session.value.tip, before, after)
  {
    match e {
      case Serves(BeginSession(_, _, _, _, _), env) => HarmlessBegin(w, e.request, env);
      case Serves(ApplyState(id, sequence, text), env) => QuietApply(w, id, sequence, text, env, before, after);
      case Serves(FinishSession(id, sequence), env) => QuietFinish(w, id, sequence, env, before, after);
      case Serves(QuerySession(id), env) => QuietQuery(w, id, env, before, after);
      case TipActs(key, event) =>
        if key in w.tips && key == w.session.value.tip {
          assert LineRun(w.tips[key], [event]) == LineStep(w.tips[key], event);
          QuietRunKeepsSurroundings(w.tips[key], [event], before, after);
        }
      case TipJoins(_, _, _) =>
      case _ =>
    }
  }

  lemma QuietStepStaysIdle(w: World, e: Event)
    requires TipsValid(w) && Quiet(w, e) && w.session.None?
    ensures Step(w, e).session.None?
  {
    if e.Serves? && e.request.BeginSession? {
      HarmlessBegin(w, e.request, e.env);
    }
  }

  lemma {:induction false} QuietRun(w: World, events: seq<Event>, id: string, key: TipKey, before: Text, after: Text)
    requires OwnHeld(w) && QuietEvents(w, events)
    requires SessionSurrounded(w, id, key, before, after)
    ensures OwnHeld(RunWorld(w, events)) && SessionSurrounded(RunWorld(w, events), id, key, before, after)
    decreases |events|
  {
    if events != [] {
      QuietStepHeld(w, events[0]);
      if w.session.Some? {
        QuietStep(w, events[0], before, after);
      } else {
        QuietStepStaysIdle(w, events[0]);
      }
      QuietRun(Step(w, events[0]), events[1..], id, key, before, after);
    }
  }

  /** The session's finish is answered Finished after these events. */
  ghost predicate Finishes(w: World, events: seq<Event>, id: string, sequence: int, env: Env)
    requires TipsValid(w)
  {
    && QuietEvents(w, events) && QuietScript(env.call.script)
    && Handle(RunWorld(w, events), FinishSession(id, sequence), env).1.FinishedReply?
  }

  /**
   A session that was active in `w` and is later answered Finished, with no edit in the
   application in between, leaves the text that was before its range, the completed
   snapshot, and the text that was after it: whatever updates, refusals, timeouts, queries,
   repeated begins and other clients came between.
   */
  lemma FinishedSessionDocument(w: World, events: seq<Event>, sequence: int, env: Env)
    requires OwnHeld(w) && w.session.Some? && w.session.value.tip in w.tips
    requires Finishes(w, events, w.session.value.id, sequence, env)
    ensures var key := w.session.value.tip;
            var last := RunWorld(w, events);
            var w1 := Handle(last, FinishSession(w.session.value.id, sequence), env).0;
            && Holds(w.tips[key], w.session.value)
            && last.session.Some? && last.session.value.sequence == sequence
            && w1.completed == Some(Completed(w.session.value.id, sequence, last.session.value.text)) && key in w1.tips
            && w1.tips[key].tip.doc.text == Before(w.tips[key].tip) + last.session.value.text + After(w.tips[key].tip)
  {
    var key := w.session.value.tip;
    var before, after := Before(w.tips[key].tip), After(w.tips[key].tip);
    QuietRun(w, events, w.session.value.id, key, before, after);
    QuietFinish(RunWorld(w, events), w.session.value.id, sequence, env, before, after);
  }

  /** The state in which a service was when it executed the Begin that succeeded, and what the host answered. */
  function WhenBegun(w: World, c: Command, attempts: seq<Attempt>): Option<(State, Host)>
    requires TipsValid(w) && c.Begin?
    decreases |attempts|
  {
    if attempts == [] then None
    else
      var a := attempts[0];
      var (w1, response) := Send(w, a.key, c, a.AsCall());
      if response == Some(Begun(c.id)) && a.key in w.tips
      then Some((Flush(LineRun(w.tips[a.key], a.script), a.host).tip, a.host))
      else WhenBegun(w1, c, attempts[1..])
  }

  lemma AnsweredWhenBegun(l: Line, c: Command, a: Attempt)
    requires l.tip.Valid() && !a.timedOut
    ensures var t := Flush(LineRun(l, a.script), a.host).tip;
            t.Valid() && Answered(l, c, a.AsCall()) == (Line(Execute(t, c, a.host).0, []), Execute(t, c, a.host).1)
  {
  }

  /** The client that began is left in the state its Begin made of the state it was in. */
  lemma {:induction false} BegunState(w: World, c: Command, attempts: seq<Attempt>, rejected: bool)
    requires TipsValid(w) && c.Begin? && BeginForTarget(w, c, attempts, rejected).1.Registered?
    ensures var (w1, begun) := BeginForTarget(w, c, attempts, rejected);
            && WhenBegun(w, c, attempts).Some? && begun.key in w1.tips
            && var (t, h) := WhenBegun(w, c, attempts).value;
            t.Valid() && Execute(t, c, h).1 == Begun(c.id) && w1.tips[begun.key] == Line(Execute(t, c, h).0, [])
    decreases |attempts|
  {
    var a := attempts[0];
    var (w1, response) := Send(w, a.key, c, a.AsCall());
    if response == Some(Begun(c.id)) {
      AnsweredWhenBegun(w.tips[a.key], c, a);
    } else {
      BegunState(w1, c, attempts[1..], rejected || response == Some(NoFocus) || response == Some(EditRejected));
    }
  }

  /** The client that began had no session of its own: the Begin did not merely find it open. */
  ghost predicate BeganFresh(w: World, c: Command, attempts: seq<Attempt>)
    requires TipsValid(w) && c.Begin?
  {
    WhenBegun(w, c, attempts).Some? ==> WhenBegun(w, c, attempts).value.0.session.None?
  }

  lemma SettledBeginsIdle(l: Line, a: Attempt)
    requires l.tip.Valid() && Settles(l)
    ensures Flush(LineRun(l, a.script), a.host).tip.session.None?
  {
    SettledRun(l, a.script);
    SettledFlush(LineRun(l, a.script), a.host);
  }

  lemma WhenBegunUnrolled(w: World, c: Command, attempts: seq<Attempt>)
    requires TipsValid(w) && c.Begin? && attempts != []
    ensures var a := attempts[0];
            var (w1, response) := Send(w, a.key, c, a.AsCall());
            WhenBegun(w, c, attempts) == if response == Some(Begun(c.id)) && a.key in w.tips
                                         then Some((Flush(LineRun(w.tips[a.key], a.script), a.host).tip, a.host))
                                         else WhenBegun(w1, c, attempts[1..])
  {
  }

  /** On agreed ground every Begin is fresh. */
  lemma {:induction false} AgreedBeginIsFresh(w: World, c: Command, attempts: seq<Attempt>)
    requires Agree(w) && w.session.None? && c.Begin? && !LeftWaiting(w, c, attempts)
    ensures BeganFresh(w, c, attempts)
    decreases |attempts|
  {
    if attempts != [] {
      var a := attempts[0];
      WhenBegunUnrolled(w, c, attempts);
      AnsweredAttemptAgrees(w, c, a, 0);
      var (w1, response) := Send(w, a.key, c, a.AsCall());
      if response == Some(Begun(c.id)) {
        SettledBeginsIdle(w.tips[a.key], a);
      } else {
        AgreedBeginIsFresh(w1, c, attempts[1..]);
      }
    }
  }

  /** The client a fresh Begin opened, and what the Begin made of its document. */
  lemma FreshlyBegun(w: World, c: Command, attempts: seq<Attempt>, rejected: bool)
    requires TipsValid(w) && c.Begin? && BeganFresh(w, c, attempts) && BeginForTarget(w, c, attempts, rejected).1.Registered?
    ensures var (w1, begun) := BeginForTarget(w, c, attempts, rejected);
            && WhenBegun(w, c, attempts).Some? && begun.key in w1.tips && w1.tips[begun.key].queue == []
            && var t, t1 := WhenBegun(w, c, attempts).value.0, w1.tips[begun.key].tip;
            && t.Valid() && t1.session == Some(c.id) && t1.sequence == c.sequence && t1.text == c.text && Matches(t1)
            && t1.doc.text == Before(t1) + c.text + After(t1)
            && (if t1.log == t.log then c.attachExisting && AttachedAt(t, t1, c.text)
                else Before(t1) == t.doc.text[..t.doc.selStart] && After(t1) == t.doc.text[t.doc.selEnd..])
  {
    BegunState(w, c, attempts, rejected);
    var (t, h) := WhenBegun(w, c, attempts).value;
    BegunSession(t, c, h);
    BegunSurroundings(t, c, h);
  }

  /**
   A newly begun session owns exactly its snapshot in the document of its service; it
   attached to that text before the caret, or replaced the selection.
   */
  lemma BegunSessionDocument(w: World, q: Request, env: Env)
    requires TipsValid(w) && Issued(w) && q.BeginSession? && BeganFresh(w, BeginOf(q), env.attempts) && OpenSession(w, q, env).1.SessionBegun?
    ensures var w1 := OpenSession(w, q, env).0;
            && WhenBegun(w, BeginOf(q), env.attempts).Some?
            && OwnHeld(w1) && w1.session.Some? && w1.session.value.id == q.id && w1.session.value.tip in w1.tips
            && var t, t1 := WhenBegun(w, BeginOf(q), env.attempts).value.0, w1.tips[w1.session.value.tip].tip;
            && t.Valid() && t1.session.Some? && Matches(t1)
            && t1.doc.text == Before(t1) + q.text + After(t1)
            && (if t1.log == t.log then q.attachExisting && AttachedAt(t, t1, q.text)
                else Before(t1) == t.doc.text[..t.doc.selStart] && After(t1) == t.doc.text[t.doc.selEnd..])
  {
    var (w1, begun) := BeginForTarget(w, BeginOf(q), env.attempts, false);
    assert OpenSession(w, q, env) == Register(w1, begun, q, env.epoch);
    FreshlyBegun(w, BeginOf(q), env.attempts, false);
    RegisteredIsHeld(w1, begun, q, env.epoch);
  }

  lemma RegisteredIsHeld(w: World, begun: Registered, q: Request, epoch: nat)
    requires TipsValid(w) && q.BeginSession? && begun.Registered? && begun.key in w.tips
    requires forall k <- w.tips :: k.generation < w.nextGeneration
    requires Holds(w.tips[begun.key], Active(q.id, q.sequence, q.text, begun.key, epoch))
    ensures OwnHeld(Register(w, begun, q, epoch).0)
  {
  }

  /** What a whole session with these first and last snapshots may make of a document. */
  predicate SessionResult(d: Document, attach: bool, first: Text, last: Text, result: Text)
    requires d.Valid()
  {
    || result == d.text[..d.selStart] + last + d.text[d.selEnd..]
    || (&& attach && d.selStart == d.selEnd && |first| <= d.selStart && d.text[d.selStart - |first|..d.selStart] == first
        && result == d.text[..d.selStart - |first|] + last + d.text[d.selStart..])
  }

  /**
   A whole session, from the Begin to the Finish, with no edit in the application: the
   document is the text before the selection, the final snapshot, and the text after the
   selection; or, if the session attached to its first snapshot just before the caret, that
   text is replaced by the last.
   */
  lemma WholeSessionDocument(w: World, q: Request, begin: Env, events: seq<Event>, sequence: int, env: Env)
    requires TipsValid(w) && Issued(w) && q.BeginSession? && BeganFresh(w, BeginOf(q), begin.attempts) && OpenSession(w, q, begin).1.SessionBegun?
    requires Finishes(OpenSession(w, q, begin).0, events, q.id, sequence, env)
    ensures var w1 := OpenSession(w, q, begin).0;
            var w2 := Handle(RunWorld(w1, events), FinishSession(q.id, sequence), env).0;
            && WhenBegun(w, BeginOf(q), begin.attempts).Some? && w1.session.Some? && w1.session.value.tip in w2.tips
            && w2.completed.Some? && w2.completed.value.id == q.id && w2.completed.value.sequence == sequence
            && var d := WhenBegun(w, BeginOf(q), begin.attempts).value.0.doc;
            d.Valid()
            && SessionResult(d, q.attachExisting, q.text, w2.completed.value.text, w2.tips[w1.session.value.tip].tip.doc.text)
  {
    var w1 := OpenSession(w, q, begin).0;
    BegunSessionDocument(w, q, begin);
    FinishedSessionDocument(w1, events, sequence, env);
    var t, t1 := WhenBegun(w, BeginOf(q), begin.attempts).value.0, w1.tips[w1.session.value.tip].tip;
    var w2 := Handle(RunWorld(w1, events), FinishSession(q.id, sequence), env).0;
    ResultOf(t, t1, q.attachExisting, q.text, w2.completed.value.text, w2.tips[w1.session.value.tip].tip.doc.text);
  }

  lemma ResultOf(t: State, t1: State, attach: bool, first: Text, last: Text, result: Text)
    requires t.Valid() && t1.Valid() && t1.session.Some? && t1.doc.text == Before(t1) + first + After(t1)
    requires if t1.log == t.log then attach && AttachedAt(t, t1, first)
             else Before(t1) == t.doc.text[..t.doc.selStart] && After(t1) == t.doc.text[t.doc.selEnd..]
    requires result == Before(t1) + last + After(t1)
    ensures SessionResult(t.doc, attach, first, last, result)
  {
    if t1.log == t.log {
      assert t.doc.text[t.doc.selStart - |first|..t.doc.selStart] == first;
    }
  }

  /** Asked first, while nothing waits in its line, a service begins in the very state it is in. */
  lemma WhenAskedFirst(w: World, c: Command, attempts: seq<Attempt>)
    requires TipsValid(w) && c.Begin? && attempts != [] && attempts[0].script == []
    requires attempts[0].key in w.tips && w.tips[attempts[0].key].queue == []
    requires Send(w, attempts[0].key, c, attempts[0].AsCall()).1 == Some(Begun(c.id))
    ensures WhenBegun(w, c, attempts) == Some((w.tips[attempts[0].key].tip, attempts[0].host))
  {
    var a := attempts[0];
    NothingInLine(w.tips[a.key], a);
  }

  lemma NothingInLine(l: Line, a: Attempt)
    requires l.tip.Valid() && l.queue == [] && a.script == []
    ensures Flush(LineRun(l, a.script), a.host) == l
  {
  }

  /** Its whole session is then about the document as it was at the request. */
  lemma AskedFirstDocument(w: World, q: Request, begin: Env, events: seq<Event>, sequence: int, env: Env)
    requires TipsValid(w) && Issued(w) && q.BeginSession? && begin.attempts != [] && begin.attempts[0].script == []
    requires begin.attempts[0].key in w.tips && w.tips[begin.attempts[0].key].queue == [] && w.tips[begin.attempts[0].key].tip.session.None?
    requires Send(w, begin.attempts[0].key, BeginOf(q), begin.attempts[0].AsCall()).1 == Some(Begun(q.id))
    requires Finishes(OpenSession(w, q, begin).0, events, q.id, sequence, env)
    ensures var key := begin.attempts[0].key;
            var w2 := Handle(RunWorld(OpenSession(w, q, begin).0, events), FinishSession(q.id, sequence), env).0;
            && key in w2.tips && w2.completed.Some? && w.tips[key].tip.doc.Valid()
            && SessionResult(w.tips[key].tip.doc, q.attachExisting, q.text, w2.completed.value.text, w2.tips[key].tip.doc.text)
  {
    WhenAskedFirst(w, BeginOf(q), begin.attempts);
    WholeSessionDocument(w, q, begin, events, sequence, env);
  }
}
