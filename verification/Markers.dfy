/**
 Data files that count only once a marker was written: the manifest and its index under
 the manifest-complete record, the target map and its index under the target root in the
 batch record.  Every file operation is one step and a crash may follow any of them: it
 keeps synced files and may leave anything, or nothing, of the others.
 */
module Markers {
  import opened Optional
  import opened Bytes

  datatype File = File(bytes: seq<byte>, synced: bool)

  /** What the request that owns the preparation does next. */
  datatype Stage =
    | Idle
    | Clearing(next: nat)    // leftovers of an interrupted attempt
    | Creating(next: nat)
    | Filling
    | Syncing(next: nat)
    | Dropping(next: nat)    // an attempt that failed takes its files away

  /**
   `written` is what the current attempt appended to each file, `sealed` what the files
   held when the marker was written.
   */
  datatype Dir = Dir(files: seq<Option<File>>, marked: bool, stage: Stage, written: seq<seq<byte>>, sealed: seq<seq<byte>>)

  /** The first `early` files are created before they are filled; the rest is created empty when synced. */
  datatype Layout = Layout(count: nat, early: nat, mutable: set<nat>)

  const MANIFEST := Layout(3, 2, {2})   // manifest, index, progress
  const TARGETS := Layout(2, 2, {})     // targets, index

  datatype Step =
    | Begins
    | Clears
    | Creates
    | Appends(i: nat, bytes: seq<byte>)
    | Closes
    | Syncs
    | Marks
    | Fails
    | Drops
    | Overwrites(i: nat, bytes: seq<byte>)
    | Crashes(left: seq<Option<File>>)

  function Empty(k: nat): seq<seq<byte>> { seq(k, _ => []) }

  predicate CrashOf(before: Option<File>, after: Option<File>) {
    if before.Some? && before.value.synced then after == before
    else after.Some? ==> after.value.synced
  }

  /** A step that is not possible changes nothing. */
  function Next(l: Layout, d: Dir, s: Step): Dir
    requires |d.files| == |d.written| == l.count
  {
    match s
    case Begins =>
      if d.stage.Idle? && !d.marked then d.(stage := Clearing(0)) else d
    case Clears =>
      if !d.stage.Clearing? then d
      else if d.stage.next < l.count then d.(files := d.files[d.stage.next := None], stage := Clearing(d.stage.next + 1))
      else d.(stage := Creating(0), written := Empty(l.count))
    case Creates =>
      if !d.stage.Creating? then d
      else if d.stage.next < l.early && d.stage.next < l.count then
        d.(files := d.files[d.stage.next := Some(File([], false))], stage := Creating(d.stage.next + 1))
      else d.(stage := Filling)
    case Appends(i, bytes) =>
      if d.stage.Filling? && i < l.count && d.files[i].Some? then
        d.(files := d.files[i := Some(File(d.files[i].value.bytes + bytes, false))],
           written := d.written[i := d.written[i] + bytes])
      else d
    case Closes => if d.stage.Filling? then d.(stage := Syncing(0)) else d
    case Syncs =>
      if d.stage.Syncing? && d.stage.next < l.count then
        var f := if d.files[d.stage.next].Some? then d.files[d.stage.next].value.bytes else [];
        d.(files := d.files[d.stage.next := Some(File(f, true))], stage := Syncing(d.stage.next + 1))
      else d
    case Marks =>
      if d.stage == Syncing(l.count) then d.(marked := true, stage := Idle, sealed := d.written) else d
    case Fails => if d.stage.Idle? || d.stage.Dropping? then d else d.(stage := Dropping(0))
    case Drops =>
      if !d.stage.Dropping? then d
      else if d.stage.next < l.count then d.(files := d.files[d.stage.next := None], stage := Dropping(d.stage.next + 1))
      else d.(stage := Idle)
    case Overwrites(i, bytes) =>
      if d.marked && d.stage.Idle? && i < l.count && i in l.mutable then d.(files := d.files[i := Some(File(bytes, true))]) else d
    case Crashes(left) =>
      if |left| == l.count && (forall i :: 0 <= i < l.count ==> CrashOf(d.files[i], left[i]))
      then d.(files := left, stage := Idle) else d
  }

  /** What attempt and files agree on, stage by stage. */
  predicate StageOk(l: Layout, d: Dir)
    requires |d.files| == |d.written| == l.count
  {
    match d.stage
    case Idle => true
    case Clearing(n) => n <= l.count && forall i :: 0 <= i < n ==> d.files[i].None?
    case Creating(n) =>
      && n <= l.count && (forall i :: 0 <= i < l.count ==> d.written[i] == [])
      && (forall i :: 0 <= i < n ==> d.files[i].Some? && d.files[i].value.bytes == [])
      && (forall i :: n <= i < l.count ==> d.files[i].None?)
    case Filling => forall i :: 0 <= i < l.count ==> Contents(d.files[i]) == d.written[i]
    case Syncing(n) =>
      && n <= l.count && (forall i :: 0 <= i < l.count ==> Contents(d.files[i]) == d.written[i])
      && (forall i :: 0 <= i < n ==> d.files[i].Some? && d.files[i].value.synced)
    case Dropping(n) => true
  }

  function Contents(f: Option<File>): seq<byte> { if f.Some? then f.value.bytes else [] }

  /** A marked directory is complete: every file is there, synced, and as it was when it was marked. */
  predicate MarkOk(l: Layout, d: Dir)
    requires |d.files| == l.count
  {
    d.marked ==>
      && d.stage.Idle? && |d.sealed| == l.count
      && forall i :: 0 <= i < l.count ==>
           d.files[i].Some? && d.files[i].value.synced && (i !in l.mutable ==> d.files[i].value.bytes == d.sealed[i])
  }

  predicate Inv(l: Layout, d: Dir) {
    |d.files| == |d.written| == l.count && StageOk(l, d) && MarkOk(l, d)
  }

  /** Every file operation and every crash keeps it, and a mark once written stays with what it sealed. */
  lemma StepKeeps(l: Layout, d: Dir, s: Step)
    requires Inv(l, d)
    ensures Inv(l, Next(l, d, s))
    ensures d.marked ==> Next(l, d, s).marked && Next(l, d, s).sealed == d.sealed
  {
  }

  function Run(l: Layout, d: Dir, steps: seq<Step>): Dir
    requires Inv(l, d)
    decreases |steps|
  {
    if steps == [] then d
    else
      StepKeeps(l, d, steps[0]);
      Run(l, Next(l, d, steps[0]), steps[1..])
  }

  /** The batch directory before the first attempt. */
  function NewDir(l: Layout): Dir { Dir(seq(l.count, _ => None), false, Idle, Empty(l.count), []) }

  lemma NewDirIsOk(l: Layout)
    ensures Inv(l, NewDir(l))
  {
  }

  /**
   After a crash at any file operation of any run, a present marker stands for complete,
   synced files that never changed since; without it the next attempt may begin.
   */
  lemma {:induction false} MarkerMeansComplete(l: Layout, d: Dir, steps: seq<Step>)
    requires Inv(l, d)
    ensures var last := Run(l, d, steps);
            && Inv(l, last)
            && (d.marked ==> last.marked && last.sealed == d.sealed)
            && (last.marked ==> |last.sealed| == l.count && forall i :: 0 <= i < l.count ==>
                  last.files[i].Some? && last.files[i].value.synced
                  && (i !in l.mutable ==> last.files[i].value.bytes == last.sealed[i]))
            && (!last.marked && last.stage.Idle? ==> Next(l, last, Begins).stage == Clearing(0))
    decreases |steps|
  {
    if steps != [] {
      StepKeeps(l, d, steps[0]);
      MarkerMeansComplete(l, Next(l, d, steps[0]), steps[1..]);
    }
  }

  /** An attempt starts from scratch: once the leftovers are cleared no file is there. */
  lemma AttemptStartsFromScratch(l: Layout, d: Dir)
    requires Inv(l, d) && d.stage == Clearing(l.count)
    ensures var d1 := Next(l, d, Clears);
            d1.stage == Creating(0) && forall i :: 0 <= i < l.count ==> d1.files[i].None? && d1.written[i] == []
  {
  }

  /** These appends go to files that are there. */
  predicate CanAppend(l: Layout, d: Dir, steps: seq<Step>)
    requires |d.files| == l.count
  {
    forall s <- steps :: s.Appends? && s.i < l.count && d.files[s.i].Some?
  }

  lemma AppendOn(l: Layout, d: Dir, steps: seq<Step>)
    requires Inv(l, d) && d.stage.Filling? && steps != [] && CanAppend(l, d, steps)
    ensures var d1 := Next(l, d, steps[0]);
            && Inv(l, d1) && d1.stage.Filling? && d1.marked == d.marked && CanAppend(l, d1, steps[1..])
            && forall i :: 0 <= i < l.count ==>
                 d1.written[i] == d.written[i] + if i == steps[0].i then steps[0].bytes else []
  {
    StepKeeps(l, d, steps[0]);
    AppendAppends(l, d, steps[0]);
    forall s | s in steps[1..]
      ensures s.Appends? && s.i < l.count && Next(l, d, steps[0]).files[s.i].Some?
    {
      assert s in steps;
    }
  }

  /** While an attempt lasts its files hold exactly what it appended, and that is what the mark seals. */
  lemma {:induction false} AttemptHoldsWhatItAppended(l: Layout, d: Dir, steps: seq<Step>)
    requires Inv(l, d) && d.stage.Filling? && !d.marked && CanAppend(l, d, steps)
    ensures var last := Run(l, d, steps);
            && Inv(l, last) && last.stage.Filling?
            && forall i :: 0 <= i < l.count ==> last.written[i] == d.written[i] + Appended(steps, i)
    decreases |steps|
  {
    if steps != [] {
      AppendOn(l, d, steps);
      AttemptHoldsWhatItAppended(l, Next(l, d, steps[0]), steps[1..]);
    }
  }

  lemma AppendAppends(l: Layout, d: Dir, s: Step)
    requires Inv(l, d) && d.stage.Filling? && s.Appends? && s.i < l.count && d.files[s.i].Some?
    ensures var d1 := Next(l, d, s);
            && d1.stage.Filling? && d1.marked == d.marked && |d1.files| == |d1.written| == l.count
            && (forall i :: 0 <= i < l.count ==> d1.written[i] == d.written[i] + if i == s.i then s.bytes else [])
            && (forall i :: 0 <= i < l.count && d.files[i].Some? ==> d1.files[i].Some?)
  {
  }

  function Appended(steps: seq<Step>, i: nat): seq<byte> {
    if steps == [] then []
    else (if steps[0].Appends? && steps[0].i == i then steps[0].bytes else []) + Appended(steps[1..], i)
  }

  lemma MarkSealsTheAttempt(l: Layout, d: Dir)
    requires Inv(l, d) && d.stage == Syncing(l.count)
    ensures var d1 := Next(l, d, Marks);
            && d1.marked && d1.sealed == d.written
            && forall i :: 0 <= i < l.count ==> d1.files[i] == Some(File(d.written[i], true))
  {
  }

  /** Once marked, exactly the mutable files can be overwritten. */
  lemma OverwritesIff(l: Layout, d: Dir, i: nat, bytes: seq<byte>)
    requires Inv(l, d) && d.marked && i < l.count && d.files[i] != Some(File(bytes, true))
    ensures Next(l, d, Overwrites(i, bytes)) == (if i in l.mutable then d.(files := d.files[i := Some(File(bytes, true))]) else d)
    ensures Next(l, d, Overwrites(i, bytes)).files[i] == Some(File(bytes, true)) <==> i in l.mutable
  {
  }

  /** Everything the marker stands for is there, synced, and as it was sealed. */
  predicate Whole(l: Layout, d: Dir) {
    && |d.files| == |d.sealed| == l.count
    && forall i :: 0 <= i < l.count ==>
         d.files[i].Some? && d.files[i].value.synced && (i !in l.mutable ==> d.files[i].value.bytes == d.sealed[i])
  }

  /** A marked directory stays marked with what it sealed. */
  lemma {:induction false} SealedForGood(l: Layout, d: Dir, steps: seq<Step>)
    requires Inv(l, d) && d.marked
    ensures Run(l, d, steps).marked && Run(l, d, steps).sealed == d.sealed && Whole(l, Run(l, d, steps))
  {
    MarkerMeansComplete(l, d, steps);
  }

  /** From an empty directory, after any file operations and crashes: a marked manifest, and a marked target map, is whole. */
  lemma EveryMarkedDirectoryIsWhole(manifest: seq<Step>, targets: seq<Step>)
    ensures Inv(MANIFEST, NewDir(MANIFEST)) && Inv(TARGETS, NewDir(TARGETS))
    ensures Run(MANIFEST, NewDir(MANIFEST), manifest).marked ==> Whole(MANIFEST, Run(MANIFEST, NewDir(MANIFEST), manifest))
    ensures Run(TARGETS, NewDir(TARGETS), targets).marked ==> Whole(TARGETS, Run(TARGETS, NewDir(TARGETS), targets))
  {
    NewDirIsOk(MANIFEST);
    NewDirIsOk(TARGETS);
    MarkerMeansComplete(MANIFEST, NewDir(MANIFEST), manifest);
    MarkerMeansComplete(TARGETS, NewDir(TARGETS), targets);
  }

  // ---------------------------------------------------------------------------
  // A whole attempt
  // ---------------------------------------------------------------------------

  function Times(s: Step, n: nat): seq<Step> { seq(n, _ => s) }

  lemma TimesUnrolled(l: Layout, d: Dir, s: Step, n: nat)
    requires Inv(l, d) && n > 0
    ensures Inv(l, Next(l, d, s)) && Run(l, d, Times(s, n)) == Run(l, Next(l, d, s), Times(s, n - 1))
  {
    StepKeeps(l, d, s);
    assert Times(s, n)[0] == s && Times(s, n)[1..] == Times(s, n - 1);
  }

  /** Clearing takes every leftover away. */
  lemma {:induction false} ClearsAll(l: Layout, d: Dir)
    requires Inv(l, d) && d.stage.Clearing?
    ensures var last := Run(l, d, Times(Clears, l.count - d.stage.next + 1));
            Inv(l, last) && last.stage == Creating(0) && last.marked == d.marked && forall i :: 0 <= i < l.count ==> last.files[i].None?
    decreases l.count - d.stage.next
  {
    TimesUnrolled(l, d, Clears, l.count - d.stage.next + 1);
    if d.stage.next < l.count {
      ClearsAll(l, Next(l, d, Clears));
    }
  }

  lemma {:induction false} CreatesAll(l: Layout, d: Dir)
    requires Inv(l, d) && l.early <= l.count && d.stage.Creating? && d.stage.next <= l.early
    ensures var last := Run(l, d, Times(Creates, l.early - d.stage.next + 1));
            && Inv(l, last) && last.stage.Filling? && last.marked == d.marked
            && (forall i :: 0 <= i < l.early ==> last.files[i].Some?) && (forall i :: 0 <= i < l.count ==> last.written[i] == [])
    decreases l.early - d.stage.next
  {
    TimesUnrolled(l, d, Creates, l.early - d.stage.next + 1);
    if d.stage.next < l.early {
      CreatesAll(l, Next(l, d, Creates));
    }
  }

  lemma {:induction false} SyncsAll(l: Layout, d: Dir)
    requires Inv(l, d) && d.stage.Syncing?
    ensures var last := Run(l, d, Times(Syncs, l.count - d.stage.next));
            Inv(l, last) && last.stage == Syncing(l.count) && last.written == d.written
    decreases l.count - d.stage.next
  {
    if d.stage.next < l.count {
      TimesUnrolled(l, d, Syncs, l.count - d.stage.next);
      SyncsAll(l, Next(l, d, Syncs));
    }
  }

  lemma {:induction false} Concat(l: Layout, d: Dir, a: seq<Step>, b: seq<Step>)
    requires Inv(l, d)
    ensures Inv(l, Run(l, d, a)) && Run(l, d, a + b) == Run(l, Run(l, d, a), b)
    decreases |a|
  {
    if a == [] {
      assert a + b == b;
    } else {
      StepKeeps(l, d, a[0]);
      assert (a + b)[0] == a[0] && (a + b)[1..] == a[1..] + b;
      Concat(l, Next(l, d, a[0]), a[1..], b);
    }
  }

  lemma One(l: Layout, d: Dir, s: Step)
    requires Inv(l, d)
    ensures Run(l, d, [s]) == Next(l, d, s)
  {
    StepKeeps(l, d, s);
    assert [s][1..] == [];
  }

  function Opening(l: Layout): seq<Step> { [Begins] + Times(Clears, l.count + 1) + Times(Creates, l.early + 1) }

  function Closing(l: Layout): seq<Step> { [Closes] + Times(Syncs, l.count) + [Marks] }

  /** An attempt up to where it is filled: whatever was left behind, its first files are there and empty. */
  lemma AttemptOpens(l: Layout, d: Dir)
    requires Inv(l, d) && l.early <= l.count && d.stage.Idle? && !d.marked
    ensures var filling := Run(l, d, Opening(l));
            && Inv(l, filling) && filling.stage.Filling? && !filling.marked
            && (forall i :: 0 <= i < l.early ==> filling.files[i].Some?) && (forall i :: 0 <= i < l.count ==> filling.written[i] == [])
  {
    StepKeeps(l, d, Begins);
    One(l, d, Begins);
    Concat(l, d, [Begins], Times(Clears, l.count + 1));
    Concat(l, d, [Begins] + Times(Clears, l.count + 1), Times(Creates, l.early + 1));
    var clearing := Next(l, d, Begins);
    ClearsAll(l, clearing);
    CreatesAll(l, Run(l, clearing, Times(Clears, l.count + 1)));
  }

  lemma AttemptCloses(l: Layout, d: Dir)
    requires Inv(l, d) && d.stage.Filling?
    ensures var last := Run(l, d, Closing(l));
            last.marked && |last.files| == l.count && forall i :: 0 <= i < l.count ==> last.files[i] == Some(File(d.written[i], true))
  {
    var closing := Next(l, d, Closes);
    StepKeeps(l, d, Closes);
    One(l, d, Closes);
    Concat(l, d, [Closes], Times(Syncs, l.count));
    Concat(l, d, [Closes] + Times(Syncs, l.count), [Marks]);
    SyncsAll(l, closing);
    var synced := Run(l, closing, Times(Syncs, l.count));
    One(l, synced, Marks);
    MarkSealsTheAttempt(l, synced);
  }

  /**
   An undisturbed attempt, after any crashes and leftovers, ends with the marker, and each
   file is exactly what the attempt appended to it, synced.
   */
  lemma AttemptMarks(l: Layout, d: Dir, appends: seq<Step>)
    requires Inv(l, d) && l.early <= l.count && d.stage.Idle? && !d.marked
    requires forall s <- appends :: s.Appends? && s.i < l.early
    ensures var last := Run(l, d, Opening(l) + appends + Closing(l));
            && last.marked && |last.files| == l.count
            && forall i :: 0 <= i < l.count ==> last.files[i] == Some(File(Appended(appends, i), true))
  {
    AttemptOpens(l, d);
    var filling := Run(l, d, Opening(l));
    AttemptHoldsWhatItAppended(l, filling, appends);
    var full := Run(l, filling, appends);
    Concat(l, d, Opening(l), appends);
    Concat(l, d, Opening(l) + appends, Closing(l));
    AttemptCloses(l, full);
    assert forall i :: 0 <= i < l.count ==> full.written[i] == [] + Appended(appends, i) == Appended(appends, i);
  }
}
