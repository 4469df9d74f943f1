/**
 A snapshot over a whole run of the injector: however often it is applied, whatever times
 out and is executed late, and whichever services come and go, leave and come back, it is
 written at most once over all of them, until its session is begun again.
 */
module Once {
  import opened Optional
  import opened Tip
  import opened Injector
  import opened Dispatcher

  /**
   The world, the lines of the services that left, as they were then, and the log each
   service had when it joined.  A service that comes back gets a new key.
   */
  datatype History = History(world: World, gone: map<TipKey, Line>, joined: map<TipKey, seq<Write>>)

  function Lost(w: World, w1: World): map<TipKey, Line> {
    map k | k in w.tips && k !in w1.tips :: w.tips[k]
  }

  function Come(w: World, w1: World): map<TipKey, seq<Write>> {
    map k | k in w1.tips && k !in w.tips :: w1.tips[k].tip.log
  }

  function Record(h: History, e: Event): (r: History)
    requires TipsValid(h.world)
    ensures TipsValid(r.world) && r.world == Step(h.world, e)
  {
    var w1 := Step(h.world, e);
    History(w1, h.gone + Lost(h.world, w1), h.joined + Come(h.world, w1))
  }

  function RunHistory(h: History, events: seq<Event>): (r: History)
    requires TipsValid(h.world)
    ensures TipsValid(r.world) && r.world == RunWorld(h.world, events)
    decreases |events|
  {
    if events == [] then h else RunHistory(Record(h, events[0]), events[1..])
  }

  const BEGINNING := History(START, map[], map[])

  /** Every service that ever joined is connected or gone, never both, under a key handed out before. */
  ghost predicate HistoryOk(h: History) {
    && TipsValid(h.world) && h.world.tips.Keys !! h.gone.Keys
    && h.joined.Keys == h.world.tips.Keys + h.gone.Keys
    && forall k <- h.joined :: k.generation < h.world.nextGeneration
  }

  /** How often the snapshot was in the log a service joined with. */
  function Earlier(h: History, k: TipKey, id: string, sequence: int): nat {
    if k in h.joined then Writes(h.joined[k], id, sequence) else 0
  }

  /** Since they joined no service wrote the snapshot or has it in line, but for one use at `key`. */
  ghost predicate OnlyAt(h: History, key: Option<TipKey>, id: string, sequence: int) {
    && (forall k <- h.world.tips ::
          Uses(h.world.tips[k], id, sequence) <= Earlier(h, k, id, sequence) + if key == Some(k) then 1 else 0)
    && (forall k <- h.gone :: Uses(h.gone[k], id, sequence) <= Earlier(h, k, id, sequence) + if key == Some(k) then 1 else 0)
  }

  ghost predicate Untouched(h: History, id: string, sequence: int) {
    OnlyAt(h, None, id, sequence)
  }

  ghost predicate UsedOnce(h: History, id: string, sequence: int) {
    exists key: TipKey :: OnlyAt(h, Some(key), id, sequence)
  }

  /** Not used yet in this run, or used once and never to be used again. */
  ghost predicate Quota(h: History, id: string, sequence: int) {
    Untouched(h, id, sequence) || (Spent(h.world, id, sequence) && UsedOnce(h, id, sequence))
  }

  /** The history after a step that neither brings nor takes a service. */
  function Moved(h: History, w1: World): History { h.(world := w1) }

  lemma NobodyComesOrGoes(h: History, e: Event)
    requires HistoryOk(h) && SameServices(h.world, Step(h.world, e))
    ensures Record(h, e) == Moved(h, Step(h.world, e)) && HistoryOk(Record(h, e))
  {
    var w1 := Step(h.world, e);
    assert Lost(h.world, w1) == map[] && Come(h.world, w1) == map[];
    NothingAdded(h.gone, h.joined);
  }

  lemma NothingAdded(gone: map<TipKey, Line>, joined: map<TipKey, seq<Write>>)
    ensures gone + map[] == gone && joined + map[] == joined
  {
  }

  lemma MovedOnlyAt(h: History, w1: World, key: Option<TipKey>, id: string, sequence: int)
    requires OnlyAt(h, key, id, sequence) && UsesBounded(h.world, w1, id, sequence, None)
    ensures OnlyAt(Moved(h, w1), key, id, sequence)
  {
  }

  lemma MovedFirstUse(h: History, w1: World, key: TipKey, id: string, sequence: int)
    requires OnlyAt(h, None, id, sequence) && UsesBounded(h.world, w1, id, sequence, Some(key))
    ensures OnlyAt(Moved(h, w1), Some(key), id, sequence)
  {
  }

  lemma MovedKeeps(h: History, w1: World, id: string, sequence: int)
    requires Quota(h, id, sequence) && UsesBounded(h.world, w1, id, sequence, None)
    requires Spent(h.world, id, sequence) ==> Spent(w1, id, sequence)
    ensures Quota(Moved(h, w1), id, sequence)
  {
    if Untouched(h, id, sequence) {
      MovedOnlyAt(h, w1, None, id, sequence);
    } else {
      var key: TipKey :| OnlyAt(h, Some(key), id, sequence);
      MovedOnlyAt(h, w1, Some(key), id, sequence);
    }
  }

  lemma ContinuingKeeps(h: History, w1: World, id: string, sequence: int)
    requires Quota(h, id, sequence) && UsesBounded(h.world, w1, id, sequence, None) && Continues(h.world, w1)
    ensures Quota(Moved(h, w1), id, sequence)
  {
    MovedKeeps(h, w1, id, sequence);
  }

  // ---------------------------------------------------------------------------
  // Requests
  // ---------------------------------------------------------------------------

  /** Applying the snapshot itself. */
  lemma ApplyKeeps(h: History, q: Request, env: Env)
    requires TipsValid(h.world) && q.ApplyState? && Quota(h, q.id, q.sequence)
    ensures Quota(Moved(h, Handle(h.world, q, env).0), q.id, q.sequence)
  {
    var w, w1 := h.world, Handle(h.world, q, env).0;
    HandleApplyUses(w, q, env);
    if UsesBounded(w, w1, q.id, q.sequence, None) {
      MovedKeeps(h, w1, q.id, q.sequence);
    } else {
      MovedFirstUse(h, w1, w.session.value.tip, q.id, q.sequence);
    }
  }

  /** Sending a command that does not carry the snapshot, and ending the session after it. */
  lemma OtherSend(w: World, c: Command, env: Env, id: string, sequence: int)
    requires TipsValid(w) && w.session.Some? && !Carries(c, id, sequence)
    ensures var w1 := Send(w, w.session.value.tip, c, env.call).0;
            UsesBounded(w, w1, id, sequence, None) && UsesBounded(w, EndFailedSession(w1, env.cleanup), id, sequence, None)
  {
    var w1 := Send(w, w.session.value.tip, c, env.call).0;
    SendUses(w, w.session.value.tip, c, env.call, id, sequence);
    EndFailedUses(w1, env.cleanup, id, sequence);
    UsesThen(w, w1, EndFailedSession(w1, env.cleanup), id, sequence, None);
  }

  /** Applying another snapshot. */
  lemma OtherApplyUses(w: World, q: Request, env: Env, id: string, sequence: int)
    requires TipsValid(w) && q.ApplyState? && (q.id != id || q.sequence != sequence)
    ensures var w1 := DoApply(w, q.id, q.sequence, q.text, env).0;
            UsesBounded(w, w1, id, sequence, None) && Continues(w, w1)
  {
    ApplyContinues(w, q.id, q.sequence, q.text, env);
    if Sends(w, q.id, q.sequence, env) {
      AnswerSpends(w, q.id, q.sequence, q.text, env);
      OtherSend(w, Command.Update(q.id, q.sequence, q.text), env, id, sequence);
    } else {
      UnsentApply(w, q.id, q.sequence, q.text, env);
      EndFailedUses(w, env.cleanup, id, sequence);
    }
  }

  lemma FinishShape(w: World, q: Request, env: Env)
    requires TipsValid(w) && q.FinishSession? && w.session.Some? && w.session.value.id == q.id && w.session.value.sequence == q.sequence
    ensures var w1 := Send(w, w.session.value.tip, Command.Finish(q.id, q.sequence), env.call).0;
            var w2 := DoFinishSession(w, q.id, q.sequence, env).0;
            w2.session.None? && (w2.tips == w1.tips || w2 == EndFailedSession(w1, env.cleanup))
  {
  }

  lemma FinishUses(w: World, q: Request, env: Env, id: string, sequence: int)
    requires TipsValid(w) && q.FinishSession?
    ensures var w1 := DoFinishSession(w, q.id, q.sequence, env).0;
            UsesBounded(w, w1, id, sequence, None) && Continues(w, w1)
  {
    if w.session.Some? && w.session.value.id == q.id && w.session.value.sequence == q.sequence {
      OtherSend(w, Command.Finish(q.id, q.sequence), env, id, sequence);
      FinishShape(w, q, env);
    }
  }

  // ---------------------------------------------------------------------------
  // Beginning a session
  // ---------------------------------------------------------------------------

  lemma {:induction false} BeginForTargetUses(w: World, c: Command, attempts: seq<Attempt>, rejected: bool, id: string, sequence: int)
    requires TipsValid(w) && c.Begin? && !Carries(c, id, sequence)
    ensures UsesBounded(w, BeginForTarget(w, c, attempts, rejected).0, id, sequence, None)
    decreases |attempts|
  {
    if attempts != [] {
      var (w1, response) := Send(w, attempts[0].key, c, attempts[0].AsCall());
      var more := rejected || response == Some(NoFocus) || response == Some(EditRejected);
      SendUses(w, attempts[0].key, c, attempts[0].AsCall(), id, sequence);
      BeginForTargetUses(w1, c, attempts[1..], more, id, sequence);
      UsesThen(w, w1, BeginForTarget(w1, c, attempts[1..], more).0, id, sequence, None);
      BeginUnrolled(w, c, attempts, rejected);
    }
  }

  lemma OpenSessionUses(w: World, q: Request, env: Env, id: string, sequence: int)
    requires TipsValid(w) && w.session.None? && q.BeginSession? && !Carries(BeginOf(q), id, sequence)
    ensures var w1 := OpenSession(w, q, env).0;
            UsesBounded(w, w1, id, sequence, None) && (w1.session.None? || w1.session.value.id == q.id)
  {
    BeginForTargetUses(w, BeginOf(q), env.attempts, false, id, sequence);
  }

  lemma OpenUses(w: World, q: Request, env: Env, id: string, sequence: int)
    requires TipsValid(w) && w.session.None? && q.BeginSession? && !Carries(BeginOf(q), id, sequence)
    ensures var w1 := OpenOnTarget(w, q, env).0;
            UsesBounded(w, w1, id, sequence, None) && (w1.session.None? || w1.session.value.id == q.id)
  {
    if env.gate.Open? {
      OpenSessionUses(w, q, env, id, sequence);
      assert OpenOnTarget(w, q, env) == OpenSession(w, q, env);
    } else {
      NotOpened(w, q, env);
    }
  }

  /** After it the session is the one begun, the one before, or none. */
  lemma BeginUses(w: World, q: Request, env: Env, id: string, sequence: int)
    requires TipsValid(w) && q.BeginSession? && !Carries(BeginOf(q), id, sequence)
    ensures var w1 := Handle(w, q, env).0;
            && UsesBounded(w, w1, id, sequence, None)
            && (BeginChangesNothing(w, q) ==> w1 == w)
            && (w1 == w || w1.session.None? || w1.session.value.id == q.id)
  {
    if BeginChangesNothing(w, q) {
      HarmlessBegin(w, q, env);
    } else {
      EndFailedUses(w, env.cleanup, id, sequence);
      var w0 := EndFailedSession(w, env.cleanup);
      OpenUses(w0, q, env, id, sequence);
      UsesThen(w, w0, OpenOnTarget(w0, q, env).0, id, sequence, None);
      BeginShape(w, q, env);
    }
  }

  // ---------------------------------------------------------------------------
  // Runs
  // ---------------------------------------------------------------------------

  /**
   A session with the snapshot's id is not begun again after the first use in this run, and
   begins with another snapshot; a repeated or refused Begin may come at any time.
   */
  ghost predicate Fair(h: History, e: Event, id: string, sequence: int) {
    e.Serves? && e.request.BeginSession? && e.request.id == id ==>
      BeginChangesNothing(h.world, e.request) || (e.request.sequence != sequence && Untouched(h, id, sequence))
  }

  lemma BeginKeeps(h: History, q: Request, env: Env, id: string, sequence: int)
    requires TipsValid(h.world) && q.BeginSession? && Quota(h, id, sequence)
    requires Fair(h, Serves(q, env), id, sequence)
    ensures Quota(Moved(h, Handle(h.world, q, env).0), id, sequence)
  {
    var w1 := Handle(h.world, q, env).0;
    if BeginChangesNothing(h.world, q) {
      HarmlessBegin(h.world, q, env);
      assert Moved(h, h.world) == h;
      return;
    }
    BeginUses(h.world, q, env, id, sequence);
    if q.id == id && Untouched(h, id, sequence) {
      MovedOnlyAt(h, w1, None, id, sequence);
    } else {
      MovedKeeps(h, w1, id, sequence);
    }
  }

  lemma RequestKeeps(h: History, q: Request, env: Env, id: string, sequence: int)
    requires TipsValid(h.world) && Quota(h, id, sequence) && Fair(h, Serves(q, env), id, sequence)
    ensures Quota(Moved(h, Handle(h.world, q, env).0), id, sequence)
  {
    var w, w1 := h.world, Handle(h.world, q, env).0;
    match q {
      case BeginSession(_, _, _, _, _) => BeginKeeps(h, q, env, id, sequence);
      case ApplyState(_, _, _) =>
        if q.id == id && q.sequence == sequence {
          ApplyKeeps(h, q, env);
        } else {
          OtherApplyUses(w, q, env, id, sequence);
          ContinuingKeeps(h, w1, id, sequence);
        }
      case FinishSession(_, _) =>
        FinishUses(w, q, env, id, sequence);
        ContinuingKeeps(h, w1, id, sequence);
      case QuerySession(_) =>
        QueryUses(w, q.id, env, id, sequence);
        ContinuingKeeps(h, w1, id, sequence);
      case CancelInvalidSession(_) =>
        EndFailedUses(w, env.cleanup, id, sequence);
        ContinuingKeeps(h, w1, id, sequence);
      case _ =>
        ContinuingKeeps(h, w1, id, sequence);
    }
  }

  lemma ActionKeeps(h: History, key: TipKey, event: TipEvent, id: string, sequence: int)
    requires TipsValid(h.world) && key in h.world.tips && Quota(h, id, sequence)
    ensures Quota(Moved(h, Step(h.world, TipActs(key, event))), id, sequence)
  {
    LineStepUses(h.world.tips[key], event, id, sequence);
    MovedKeeps(h, Step(h.world, TipActs(key, event)), id, sequence);
  }

  /** A connected service was there before, as it is, or has just joined with an empty line. */
  lemma RecordedTip(h: History, e: Event, k: TipKey)
    requires HistoryOk(h) && (e.TipJoins? || e.TipLeaves?) && k in Step(h.world, e).tips
    ensures var h1 := Record(h, e);
            && k in h1.joined
            && (if k in h.world.tips then h1.world.tips[k] == h.world.tips[k] && h1.joined[k] == h.joined[k]
                else k !in h.joined && h1.world.tips[k].queue == [] && h1.joined[k] == h1.world.tips[k].tip.log)
  {
  }

  /** A service that is gone was gone before, or was connected as it is remembered. */
  lemma RecordedGone(h: History, e: Event, k: TipKey)
    requires HistoryOk(h) && (e.TipJoins? || e.TipLeaves?) && k in Record(h, e).gone
    ensures var h1 := Record(h, e);
            && k in h.joined && k in h1.joined && h1.joined[k] == h.joined[k] && k !in h1.world.tips
            && ((k in h.gone && h1.gone[k] == h.gone[k]) || (k in h.world.tips && h1.gone[k] == h.world.tips[k]))
  {
  }

  /** Only keys handed out by this very step are new. */
  lemma NewKeys(w: World, e: Event)
    requires TipsValid(w) && (e.TipJoins? || e.TipLeaves?)
    ensures var w1 := Step(w, e);
            && w.nextGeneration <= w1.nextGeneration
            && forall k <- w1.tips :: k !in w.tips ==> w.nextGeneration <= k.generation < w1.nextGeneration
  {
  }

  lemma RecordedKeys(h: History, w1: World)
    ensures (h.gone + Lost(h.world, w1)).Keys == h.gone.Keys + (h.world.tips.Keys - w1.tips.Keys)
    ensures (h.joined + Come(h.world, w1)).Keys == h.joined.Keys + (w1.tips.Keys - h.world.tips.Keys)
  {
  }

  lemma RecordOk(h: History, e: Event)
    requires HistoryOk(h) && (e.TipJoins? || e.TipLeaves?)
    ensures HistoryOk(Record(h, e))
  {
    var w1 := Step(h.world, e);
    NewKeys(h.world, e);
    RecordedKeys(h, w1);
    KeysOk(h.world.tips.Keys, w1.tips.Keys, h.gone.Keys, h.joined.Keys, h.world.nextGeneration, w1.nextGeneration);
  }

  lemma KeysOk(tips: set<TipKey>, tips1: set<TipKey>, gone: set<TipKey>, joined: set<TipKey>, next: nat, next1: nat)
    requires tips !! gone && joined == tips + gone && next <= next1 && forall k <- joined :: k.generation < next
    requires forall k <- tips1 :: k !in tips ==> next <= k.generation < next1
    ensures var gone1, joined1 := gone + (tips - tips1), joined + (tips1 - tips);
            tips1 !! gone1 && joined1 == tips1 + gone1 && forall k <- joined1 :: k.generation < next1
  {
  }

  lemma JoinKeeps(h: History, e: Event, key: Option<TipKey>, id: string, sequence: int)
    requires HistoryOk(h) && (e.TipJoins? || e.TipLeaves?) && OnlyAt(h, key, id, sequence)
    ensures OnlyAt(Record(h, e), key, id, sequence)
  {
    var h1 := Record(h, e);
    forall k | k in h1.world.tips
      ensures Uses(h1.world.tips[k], id, sequence) <= Earlier(h1, k, id, sequence) + if key == Some(k) then 1 else 0
    {
      RecordedTip(h, e, k);
    }
    forall k | k in h1.gone
      ensures Uses(h1.gone[k], id, sequence) <= Earlier(h1, k, id, sequence) + if key == Some(k) then 1 else 0
    {
      RecordedGone(h, e, k);
    }
  }

  lemma ComingAndGoingKeeps(h: History, e: Event, id: string, sequence: int)
    requires HistoryOk(h) && (e.TipJoins? || e.TipLeaves?) && Quota(h, id, sequence)
    ensures Quota(Record(h, e), id, sequence)
  {
    assert Record(h, e).world.session == h.world.session;
    if Untouched(h, id, sequence) {
      JoinKeeps(h, e, None, id, sequence);
    } else {
      var key: TipKey :| OnlyAt(h, Some(key), id, sequence);
      JoinKeeps(h, e, Some(key), id, sequence);
    }
  }

  lemma StepKeepsQuota(h: History, e: Event, id: string, sequence: int)
    requires HistoryOk(h) && Quota(h, id, sequence) && Fair(h, e, id, sequence)
    ensures HistoryOk(Record(h, e)) && Quota(Record(h, e), id, sequence)
  {
    var w, w1 := h.world, Step(h.world, e);
    match e {
      case Serves(q, env) =>
        NobodyComesOrGoes(h, e);
        RequestKeeps(h, q, env, id, sequence);
      case AppDisconnects(cleanup) =>
            EndFailedUses(w, cleanup, id, sequence);
        NobodyComesOrGoes(h, e);
        ContinuingKeeps(h, w1, id, sequence);
      case TipActs(key, event) =>
        NobodyComesOrGoes(h, e);
        if key in w.tips {
          ActionKeeps(h, key, event, id, sequence);
        }
      case _ =>
        RecordOk(h, e);
        ComingAndGoingKeeps(h, e, id, sequence);
    }
  }

  ghost predicate FairRun(h: History, events: seq<Event>, id: string, sequence: int)
    requires TipsValid(h.world)
    decreases |events|
  {
    events == [] || (Fair(h, events[0], id, sequence) && FairRun(Record(h, events[0]), events[1..], id, sequence))
  }

  lemma {:induction false} EveryRunKeepsQuota(h: History, events: seq<Event>, id: string, sequence: int)
    requires HistoryOk(h) && Quota(h, id, sequence) && FairRun(h, events, id, sequence)
    ensures HistoryOk(RunHistory(h, events)) && Quota(RunHistory(h, events), id, sequence)
    decreases |events|
  {
    if events != [] {
      StepKeepsQuota(h, events[0], id, sequence);
      EveryRunKeepsQuota(Record(h, events[0]), events[1..], id, sequence);
    }
  }

  /** The line of a service that joined at some time, as it is or as it was when it left. */
  function LineOf(h: History, k: TipKey): Line
    requires k in h.world.tips || k in h.gone
  {
    if k in h.world.tips then h.world.tips[k] else h.gone[k]
  }

  lemma QuotaMeansOnce(h: History, id: string, sequence: int, k: TipKey, j: TipKey)
    requires HistoryOk(h) && Quota(h, id, sequence) && k in h.joined && j in h.joined
    ensures Uses(LineOf(h, k), id, sequence) <= Writes(h.joined[k], id, sequence) + 1
    ensures k != j ==> Uses(LineOf(h, k), id, sequence) + Uses(LineOf(h, j), id, sequence)
                       <= Writes(h.joined[k], id, sequence) + Writes(h.joined[j], id, sequence) + 1
  {
    if !Untouched(h, id, sequence) {
      var key: TipKey :| OnlyAt(h, Some(key), id, sequence);
    }
  }

  /**
   Over every run from the start, counting every service that ever joined and what it wrote
   since: a snapshot was, or still may be, written at most once over all of them.
   */
  lemma EverySnapshotIsUsedOnce(events: seq<Event>, id: string, sequence: int, k: TipKey, j: TipKey)
    requires FairRun(BEGINNING, events, id, sequence)
    ensures var h := RunHistory(BEGINNING, events);
            && h.world == RunWorld(START, events)
            && h.joined.Keys == h.world.tips.Keys + h.gone.Keys
            && (k in h.joined && j in h.joined && k != j ==>
                  Uses(LineOf(h, k), id, sequence) + Uses(LineOf(h, j), id, sequence)
                  <= Writes(h.joined[k], id, sequence) + Writes(h.joined[j], id, sequence) + 1)
            && (k in h.joined ==> Uses(LineOf(h, k), id, sequence) <= Writes(h.joined[k], id, sequence) + 1)
  {
    EveryRunKeepsQuota(BEGINNING, events, id, sequence);
    var h := RunHistory(BEGINNING, events);
    if k in h.joined && j in h.joined {
      QuotaMeansOnce(h, id, sequence, k, j);
    } else if k in h.joined {
      QuotaMeansOnce(h, id, sequence, k, k);
    }
  }
}
