/**
 Batch records: the state machine every update goes through, and the rule that a phone
 has at most one unfinished batch, in either direction.  Starting a batch holds the start
 lock over several file operations; updates of other batches, and restarts, may come
 between any two of them.
 */
module Batches {
  import opened Optional

  datatype BatchState =
    | WaitingConfirmation | Queued | Preparing | Transferring | WaitingNetwork | NeedsReselection
    | Completed | PartialFailure | Canceled

  predicate IsTerminal(s: BatchState) {
    s.Completed? || s.PartialFailure? || s.Canceled?
  }

  predicate CanTransition(from: BatchState, next: BatchState) {
    from == next ||
    match from
    case WaitingConfirmation => next.Queued? || next.Canceled?
    case Queued => next.Preparing? || next.WaitingNetwork? || next.Canceled?
    case Preparing => next.Transferring? || next.WaitingNetwork? || next.NeedsReselection? || next.PartialFailure? || next.Canceled?
    case Transferring => next.WaitingNetwork? || next.NeedsReselection? || next.Completed? || next.PartialFailure? || next.Canceled?
    case WaitingNetwork => next.Preparing? || next.Transferring? || next.NeedsReselection? || next.Canceled?
    case NeedsReselection => next.Preparing? || next.Canceled?
    case Completed | PartialFailure | Canceled => false
  }

  datatype Direction = PhoneToComputer | ComputerToPhone

  datatype Record = Record(phone: string, direction: Direction, state: BatchState, root: Option<string>)

  /** The request that holds the start lock, at the file operation it does next. */
  datatype Start =
    | NoStart
    | Checked(id: string, record: Record)     // the phone was found free, or the batch exists
    | Made(id: string, record: Record)        // the batch directory was created
    | Written(id: string)                     // the record is there, the manifest is being written

  /** `directories` are the batch directories, with or without a record in them. */
  datatype Store = Store(
    batches: map<string, Record>, directories: set<string>, start: Start, preparing: set<string>)

  datatype Step =
    | OfferStarts(id: string, phone: string)
    | OutboundStarts(id: string, phone: string)
    | MakesDirectory
    | WritesRecord
    | StartEnds(succeeds: bool)
    | UpdatesState(id: string, next: BatchState)
    | PrepareStarts(id: string)
    | PrepareCommits(id: string, root: string)
    | PrepareFails(id: string)
    | Restarts(expired: set<string>)

  predicate Busy(s: Store, phone: string) {
    exists id :: id in s.batches && s.batches[id].phone == phone && !IsTerminal(s.batches[id].state)
  }

  function NewRecord(phone: string, direction: Direction): Record {
    Record(phone, direction, if direction.PhoneToComputer? then Queued else WaitingConfirmation, None)
  }

  /** A step that is not possible, or is refused, changes nothing. */
  function Next(s: Store, step: Step): Store {
    match step
    case OfferStarts(id, phone) =>
      if !s.start.NoStart? || (id !in s.batches && Busy(s, phone)) then s
      else s.(start := Checked(id, NewRecord(phone, PhoneToComputer)))
    case OutboundStarts(id, phone) =>
      if !s.start.NoStart? || Busy(s, phone) || id in s.directories then s
      else s.(start := Checked(id, NewRecord(phone, ComputerToPhone)))
    case MakesDirectory =>
      if !s.start.Checked? then s
      else if s.start.id in s.directories then s.(start := NoStart)   // resumed, or in conflict
      else s.(directories := s.directories + {s.start.id}, start := Made(s.start.id, s.start.record))
    case WritesRecord =>
      if !s.start.Made? then s
      else s.(batches := s.batches[s.start.id := s.start.record], start := Written(s.start.id))
    case StartEnds(succeeds) =>
      if s.start.Written? && !succeeds then
        s.(batches := s.batches - {s.start.id}, directories := s.directories - {s.start.id}, start := NoStart)
      else s.(start := NoStart)
    case UpdatesState(id, next) =>
      if id in s.batches && CanTransition(s.batches[id].state, next)
      then s.(batches := s.batches[id := s.batches[id].(state := next)]) else s
    case PrepareStarts(id) =>
      if id in s.batches && s.batches[id].root.None? then s.(preparing := s.preparing + {id}) else s
    case PrepareCommits(id, root) =>
      if id in s.preparing && id in s.batches && !IsTerminal(s.batches[id].state)
      then s.(batches := s.batches[id := s.batches[id].(root := Some(root))], preparing := s.preparing - {id})
      else s.(preparing := s.preparing - {id})
    case PrepareFails(id) => s.(preparing := s.preparing - {id})
    case Restarts(expired) =>
      Store(s.batches - expired, s.directories - expired, NoStart, {})
  }

  /** The phone has no unfinished batch. */
  predicate Unoccupied(s: Store, phone: string) {
    forall id :: id in s.batches && s.batches[id].phone == phone ==> IsTerminal(s.batches[id].state)
  }

  predicate Inv(s: Store) {
    && s.batches.Keys <= s.directories
    && (forall a, b :: a in s.batches && b in s.batches && a != b && s.batches[a].phone == s.batches[b].phone ==>
          IsTerminal(s.batches[a].state) || IsTerminal(s.batches[b].state))
    && (s.start.Checked? || s.start.Made? ==> s.start.record.root.None?)
    && (s.start.Checked? && s.start.id !in s.directories ==> Unoccupied(s, s.start.record.phone))
    && (s.start.Made? ==> s.start.id !in s.batches && s.start.id in s.directories && Unoccupied(s, s.start.record.phone))
    && (forall id :: id in s.preparing && id in s.batches ==> s.batches[id].root.None?)
  }

  /** Nobody but a lost directory ever takes a finished batch, or a chosen root, back. */
  predicate Kept(before: Store, after: Store, id: string) {
    id in before.batches && id in after.batches ==>
      && after.batches[id].phone == before.batches[id].phone && after.batches[id].direction == before.batches[id].direction
      && (IsTerminal(before.batches[id].state) ==> after.batches[id].state == before.batches[id].state)
      && (before.batches[id].root.Some? ==> after.batches[id].root == before.batches[id].root)
  }

  lemma StartStepKeeps(s: Store, step: Step)
    requires Inv(s)
    requires step.OfferStarts? || step.OutboundStarts? || step.MakesDirectory? || step.WritesRecord? || step.StartEnds?
    ensures Inv(Next(s, step))
  {
  }

  lemma UpdateStepKeeps(s: Store, step: Step)
    requires Inv(s)
    requires step.UpdatesState? || step.PrepareStarts?
    ensures Inv(Next(s, step))
  {
  }

  lemma PrepareStepKeeps(s: Store, step: Step)
    requires Inv(s)
    requires step.PrepareCommits? || step.PrepareFails?
    ensures Inv(Next(s, step))
  {
  }

  lemma RestartKeeps(s: Store, step: Step)
    requires Inv(s) && step.Restarts?
    ensures Inv(Next(s, step))
  {
  }

  lemma StepKeepsRecords(s: Store, step: Step, id: string)
    requires Inv(s)
    ensures Kept(s, Next(s, step), id)
  {
  }

  lemma StepKeeps(s: Store, step: Step)
    requires Inv(s)
    ensures Inv(Next(s, step))
  {
    match step {
      case OfferStarts(_, _) | OutboundStarts(_, _) | MakesDirectory | WritesRecord | StartEnds(_) => StartStepKeeps(s, step);
      case UpdatesState(_, _) | PrepareStarts(_) => UpdateStepKeeps(s, step);
      case PrepareCommits(_, _) | PrepareFails(_) => PrepareStepKeeps(s, step);
      case Restarts(_) => RestartKeeps(s, step);
    }
  }

  function Run(s: Store, steps: seq<Step>): Store
    decreases |steps|
  {
    if steps == [] then s else Run(Next(s, steps[0]), steps[1..])
  }

  const EMPTY := Store(map[], {}, NoStart, {})

  lemma EmptyIsOk()
    ensures Inv(EMPTY)
  {
  }

  /** In every reachable state, restarts included, a phone has at most one unfinished batch. */
  lemma {:induction false} OneUnfinishedBatchPerPhone(s: Store, steps: seq<Step>, a: string, b: string)
    requires Inv(s)
    ensures var last := Run(s, steps);
            && Inv(last)
            && ((&& a in last.batches && b in last.batches && last.batches[a].phone == last.batches[b].phone
                 && !IsTerminal(last.batches[a].state) && !IsTerminal(last.batches[b].state)) ==> a == b)
    decreases |steps|
  {
    if steps != [] {
      StepKeeps(s, steps[0]);
      OneUnfinishedBatchPerPhone(Next(s, steps[0]), steps[1..], a, b);
    }
  }

  /** The record of this batch was never deleted on the way. */
  predicate Survives(s: Store, steps: seq<Step>, id: string)
    decreases |steps|
  {
    id in s.batches && (steps == [] || Survives(Next(s, steps[0]), steps[1..], id))
  }

  /** A finished batch never leaves its state, and a target root once set survives every interleaving. */
  lemma {:induction false} FinishedAndRootedForGood(s: Store, steps: seq<Step>, id: string)
    requires Inv(s) && Survives(s, steps, id)
    ensures id in Run(s, steps).batches && Kept(s, Run(s, steps), id)
    decreases |steps|
  {
    if steps != [] {
      StepKeeps(s, steps[0]);
      StepKeepsRecords(s, steps[0], id);
      FinishedAndRootedForGood(Next(s, steps[0]), steps[1..], id);
    }
  }

  /** From the empty store on. */
  lemma EveryPhoneHasOneBatch(steps: seq<Step>, a: string, b: string)
    ensures var last := Run(EMPTY, steps);
            (&& a in last.batches && b in last.batches && last.batches[a].phone == last.batches[b].phone
             && !IsTerminal(last.batches[a].state) && !IsTerminal(last.batches[b].state)) ==> a == b
  {
    EmptyIsOk();
    OneUnfinishedBatchPerPhone(EMPTY, steps, a, b);
  }

  /** Cut a run from the empty store anywhere: what was terminal or rooted there still is at its end. */
  lemma EveryBatchKeepsItsEnd(before: seq<Step>, after: seq<Step>, id: string)
    requires Survives(Run(EMPTY, before), after, id)
    ensures Kept(Run(EMPTY, before), Run(Run(EMPTY, before), after), id)
  {
    EmptyIsOk();
    OneUnfinishedBatchPerPhone(EMPTY, before, id, id);
    FinishedAndRootedForGood(Run(EMPTY, before), after, id);
  }

  // ---------------------------------------------------------------------------
  // What an undisturbed request achieves
  // ---------------------------------------------------------------------------

  /** Which states a state may be entered from. */
  function Origins(next: BatchState): set<BatchState> {
    match next
    case WaitingConfirmation => {}
    case Queued => {WaitingConfirmation}
    case Preparing => {Queued, WaitingNetwork, NeedsReselection}
    case Transferring => {Preparing, WaitingNetwork}
    case WaitingNetwork => {Queued, Preparing, Transferring}
    case NeedsReselection => {Preparing, Transferring, WaitingNetwork}
    case Completed => {Transferring}
    case PartialFailure => {Preparing, Transferring}
    case Canceled => {WaitingConfirmation, Queued, Preparing, Transferring, WaitingNetwork, NeedsReselection}
  }

  /** An update moves its batch exactly along these arrows, and nothing else. */
  lemma UpdateMovesIff(s: Store, id: string, next: BatchState)
    requires id in s.batches
    ensures var before, after := s.batches[id], Next(s, UpdatesState(id, next));
            && (after.batches == s.batches[id := before.(state := next)] <==>
                  before.state == next || before.state in Origins(next))
            && (after == s || after.batches[id].state == next)
  {
    assert s.batches[id := s.batches[id]] == s.batches;
  }

  /** A record changes only through a step about its own batch. */
  predicate Concerns(s: Store, step: Step, id: string) {
    match step
    case UpdatesState(other, _) => other == id
    case PrepareCommits(other, _) => other == id
    case WritesRecord => s.start.Made? && s.start.id == id
    case StartEnds(succeeds) => !succeeds && s.start.Written? && s.start.id == id
    case Restarts(expired) => id in expired
    case _ => false
  }

  lemma OthersKeepTheirRecord(s: Store, step: Step, id: string)
    requires !Concerns(s, step, id)
    ensures (id in Next(s, step).batches <==> id in s.batches)
    ensures id in s.batches ==> Next(s, step).batches[id] == s.batches[id]
  {
  }

  function StartSteps(id: string, phone: string, direction: Direction, succeeds: bool): seq<Step> {
    [if direction.PhoneToComputer? then OfferStarts(id, phone) else OutboundStarts(id, phone),
     MakesDirectory, WritesRecord, StartEnds(succeeds)]
  }

  lemma StartUnrolled(s: Store, steps: seq<Step>)
    requires |steps| == 4
    ensures Run(s, steps) == Next(Next(Next(Next(s, steps[0]), steps[1]), steps[2]), steps[3])
  {
    var s2 := Next(Next(s, steps[0]), steps[1]);
    var rest := steps[1..][1..];
    assert Run(s, steps) == Run(s2, rest) == Run(Next(s2, rest[0]), rest[1..]);
    assert Run(Next(s2, rest[0]), rest[1..]) == Next(Next(s2, rest[0]), rest[1..][0]);
  }

  /**
   Started to its end, a batch is recorded exactly when its phone has no unfinished batch,
   its directory is new and its manifest was written; otherwise the store is as before.
   */
  lemma StartRecordsIff(s: Store, id: string, phone: string, direction: Direction, succeeds: bool)
    requires Inv(s) && s.start.NoStart?
    ensures var last := Run(s, StartSteps(id, phone, direction, succeeds));
            var state := if direction.PhoneToComputer? then Queued else WaitingConfirmation;
            if succeeds && id !in s.directories && Unoccupied(s, phone)
            then last == s.(batches := s.batches[id := Record(phone, direction, state, None)],
                            directories := s.directories + {id})
            else last == s
  {
    StartUnrolled(s, StartSteps(id, phone, direction, succeeds));
    assert Busy(s, phone) <==> !Unoccupied(s, phone);
    var record := NewRecord(phone, direction);
    if id !in s.directories && !Busy(s, phone) && !succeeds {
      assert s.batches[id := record] - {id} == s.batches;
      assert s.directories + {id} - {id} == s.directories;
    }
  }

  /** A request that leaves the preparation of this batch, and its record, alone. */
  predicate LeavesPreparing(step: Step, id: string) {
    match step
    case PrepareCommits(other, _) => other != id
    case PrepareFails(other) => other != id
    case Restarts(_) => false
    case _ => true
  }

  lemma {:induction false} StaysPreparing(s: Store, steps: seq<Step>, id: string)
    requires Inv(s) && id in s.preparing && Survives(s, steps, id)
    requires forall step <- steps :: LeavesPreparing(step, id)
    ensures Inv(Run(s, steps)) && id in Run(s, steps).preparing && id in Run(s, steps).batches
    decreases |steps|
  {
    if steps != [] {
      StepKeeps(s, steps[0]);
      assert LeavesPreparing(steps[0], id) && forall step <- steps[1..] :: step in steps;
      StaysPreparing(Next(s, steps[0]), steps[1..], id);
    }
  }

  /**
   Whatever other requests do meanwhile, a preparation that commits gives its batch the root
   it chose, exactly when the batch is still unfinished, and changes nothing else of it.
   */
  lemma PreparationSetsRoot(s: Store, steps: seq<Step>, id: string, root: string)
    requires Inv(s) && id in s.batches && s.batches[id].root.None?
    requires var started := Next(s, PrepareStarts(id));
             Survives(started, steps, id) && forall step <- steps :: LeavesPreparing(step, id)
    ensures var last := Run(Next(s, PrepareStarts(id)), steps);
            id in last.batches && last.batches[id].root.None?
            && Next(last, PrepareCommits(id, root)).batches
               == if IsTerminal(last.batches[id].state) then last.batches
                  else last.batches[id := last.batches[id].(root := Some(root))]
  {
    StepKeeps(s, PrepareStarts(id));
    StaysPreparing(Next(s, PrepareStarts(id)), steps, id);
  }
}
