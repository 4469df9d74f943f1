/**
 Where the entries of an accepted manifest go on the computer: each entry gets a name that
 is free in its parent's target directory, so the map never merges two entries, never
 touches a file that was there, and follows the source's tree.
 */
module Targets {
  import opened Optional
  import opened Names

  type Path = seq<string>   // segments below the receive folder

  datatype Source = Source(path: string, directory: bool)

  // ---------------------------------------------------------------------------
  // Source paths
  // ---------------------------------------------------------------------------

  /** The position of the last slash plus one, or zero. */
  function NameStart(path: string, i: nat): (r: nat)
    requires i <= |path|
    ensures r <= i && (r > 0 ==> path[r - 1] == '/')
    decreases i
  {
    if i == 0 then 0 else if path[i - 1] == '/' then i else NameStart(path, i - 1)
  }

  function ParentPath(path: string): string {
    var k := NameStart(path, |path|);
    if k == 0 then [] else path[..k - 1]
  }

  function NameIn(path: string): string { path[NameStart(path, |path|)..] }

  lemma {:induction false} NameStartsAt(path: string, i: nat, k: nat)
    requires k <= i <= |path| && (k > 0 ==> path[k - 1] == '/') && forall j :: k <= j < i ==> path[j] != '/'
    ensures NameStart(path, i) == k
    decreases i
  {
    if k < i {
      NameStartsAt(path, i - 1, k);
    }
  }

  /** A path is split at its last slash. */
  lemma PathParts(parent: string, name: string)
    requires '/' !in name
    ensures ParentPath(name) == [] && NameIn(name) == name
    ensures ParentPath(parent + "/" + name) == parent && NameIn(parent + "/" + name) == name
  {
    NameStartsAt(name, |name|, 0);
    var path := parent + "/" + name;
    assert forall j :: |parent| + 1 <= j < |path| ==> path[j] == name[j - |parent| - 1];
    NameStartsAt(path, |path|, |parent| + 1);
  }

  // ---------------------------------------------------------------------------
  // Target paths
  // ---------------------------------------------------------------------------

  function LowerPath(lower: Casing, p: Path): seq<string> {
    if p == [] then [] else LowerPath(lower, p[..|p| - 1]) + [Lower(lower, p[|p| - 1])]
  }

  lemma {:induction false} LowerPathLength(lower: Casing, p: Path)
    ensures |LowerPath(lower, p)| == |p|
  {
    if p != [] {
      LowerPathLength(lower, p[..|p| - 1]);
    }
  }

  function Parent(p: Path): Path
    requires p != []
  {
    p[..|p| - 1]
  }

  function Name(p: Path): string
    requires p != []
  {
    p[|p| - 1]
  }

  lemma SameCaseParts(lower: Casing, p: Path, q: Path)
    requires p != [] && q != [] && LowerPath(lower, p) == LowerPath(lower, q)
    ensures LowerPath(lower, Parent(p)) == LowerPath(lower, Parent(q)) && Lower(lower, Name(p)) == Lower(lower, Name(q))
  {
    LowerPathLength(lower, p);
    LowerPathLength(lower, q);
    var l := LowerPath(lower, p);
    assert l[..|l| - 1] == LowerPath(lower, Parent(p));
    assert l[..|l| - 1] == LowerPath(lower, Parent(q));
  }

  function Existing(lower: Casing, existing: Path -> set<string>, dir: Path): set<string> {
    Lowered(lower, existing(dir))
  }

  function Lowered(lower: Casing, names: set<string>): set<string> {
    set e | e in names :: Lower(lower, e)
  }

  /** The entry's own name, made acceptable. */
  function BaseName(e: Source): string { Sanitize(Sanitize(NameIn(e.path))) }

  /** That name, or the name with a number. */
  ghost predicate NamedAfter(e: Source, name: string) {
    var base := BaseName(e);
    name == base || exists n: nat :: n >= 1 && name == WithSuffix(base, n, e.directory)
  }

  /** The root and every target so far. */
  ghost predicate Known(targets: seq<Path>, p: Path) {
    p == [] || p in targets
  }

  /** The name is in use in the directory: it was there, or one of the first `n` targets has it. */
  ghost predicate InUse(targets: seq<Path>, n: nat, lower: Casing, existing: Path -> set<string>, dir: Path, x: string)
    requires n <= |targets|
  {
    || x in Existing(lower, existing, dir)
    || exists j :: 0 <= j < n && targets[j] != [] && Parent(targets[j]) == dir && Lower(lower, Name(targets[j])) == x
  }

  /** What is promised of the targets of the first entries. */
  ghost predicate TargetsOk(sources: seq<Source>, targets: seq<Path>, lower: Casing, existing: Path -> set<string>) {
    && |targets| <= |sources|
    && FirstTargetsOk(sources, targets, lower, existing, |targets|)
    && DifferUpToCase(targets, lower)
  }

  ghost predicate FirstTargetsOk(sources: seq<Source>, targets: seq<Path>, lower: Casing, existing: Path -> set<string>, n: nat)
    requires n <= |targets| <= |sources|
  {
    forall i :: 0 <= i < n ==> TargetOk(sources, targets, lower, existing, i)
  }

  ghost predicate DifferUpToCase(targets: seq<Path>, lower: Casing) {
    forall i, j :: 0 <= i < j < |targets| ==> LowerPath(lower, targets[i]) != LowerPath(lower, targets[j])
  }

  ghost predicate TargetOk(sources: seq<Source>, targets: seq<Path>, lower: Casing, existing: Path -> set<string>, i: nat)
    requires i < |targets| <= |sources|
  {
    var t := targets[i];
    && t != [] && (forall s <- t :: SegmentOk(s))
    && NamedAfter(sources[i], Name(t))
    && (Name(t) == BaseName(sources[i]) || InUse(targets, i, lower, existing, Parent(t), Lower(lower, BaseName(sources[i]))))
    && Lower(lower, Name(t)) !in Existing(lower, existing, Parent(t))
    && (if ParentPath(sources[i].path) == [] then Parent(t) == []
        else exists j :: 0 <= j < i && sources[j] == Source(ParentPath(sources[i].path), true) && Parent(t) == targets[j])
  }

  /** The maps the loop carries. */
  datatype Carried = Carried(
    mapped: map<string, Path>, reserved: map<Path, set<string>>, seen: set<string>)

  ghost predicate CarriedOk(sources: seq<Source>, targets: seq<Path>, lower: Casing, existing: Path -> set<string>, c: Carried) {
    && |targets| <= |sources|
    && MappedOk(sources, targets, c.mapped)
    && ReservedOk(targets, lower, existing, c.reserved)
  }

  /** The root and every directory so far are mapped to their targets, and nothing else is. */
  ghost predicate MappedOk(sources: seq<Source>, targets: seq<Path>, mapped: map<string, Path>)
    requires |targets| <= |sources|
  {
    && "" in mapped && mapped[""] == []
    && (forall d <- mapped :: d != "" ==> MapsTo(sources, targets, d, mapped[d]))
    && (forall j :: 0 <= j < |targets| && sources[j].directory ==> sources[j].path in mapped)
  }

  ghost predicate MapsTo(sources: seq<Source>, targets: seq<Path>, d: string, t: Path)
    requires |targets| <= |sources|
  {
    exists j :: 0 <= j < |targets| && sources[j] == Source(d, true) && t == targets[j]
  }

  /** Every directory in use has its old names and its targets' names taken. */
  ghost predicate ReservedOk(targets: seq<Path>, lower: Casing, existing: Path -> set<string>, reserved: map<Path, set<string>>) {
    && (forall p <- reserved :: Existing(lower, existing, p) <= reserved[p] && |reserved[p]| <= |existing(p)| + |targets|)
    && (forall p <- reserved, x <- reserved[p] :: InUse(targets, |targets|, lower, existing, p, x))
    && (forall j :: 0 <= j < |targets| ==> Taken(reserved, lower, targets[j]))
  }

  predicate Taken(reserved: map<Path, set<string>>, lower: Casing, t: Path) {
    t != [] && Parent(t) in reserved && Lower(lower, Name(t)) in reserved[Parent(t)]
  }

  function UsedIn(lower: Casing, existing: Path -> set<string>, c: Carried, dir: Path): set<string> {
    if dir in c.reserved then c.reserved[dir] else Existing(lower, existing, dir)
  }

  lemma ParentIsKnown(sources: seq<Source>, targets: seq<Path>, lower: Casing, existing: Path -> set<string>, j: nat)
    requires TargetsOk(sources, targets, lower, existing) && j < |targets|
    ensures targets[j] != [] && Known(targets, Parent(targets[j]))
  {
    assert TargetOk(sources, targets, lower, existing, j);
  }

  /** Among the root and the targets, equal up to case is equal. */
  lemma KnownAreDistinct(sources: seq<Source>, targets: seq<Path>, lower: Casing, existing: Path -> set<string>, p: Path, q: Path)
    requires TargetsOk(sources, targets, lower, existing) && Known(targets, p) && Known(targets, q)
    requires LowerPath(lower, p) == LowerPath(lower, q)
    ensures p == q
  {
    LowerPathLength(lower, p);
    LowerPathLength(lower, q);
    if p != [] && q != [] {
      var i :| 0 <= i < |targets| && targets[i] == p;
      var j :| 0 <= j < |targets| && targets[j] == q;
      assert i == j;
    }
  }

  /** A name that is free in its directory makes a target unlike every other. */
  lemma NewTargetIsNew(sources: seq<Source>, targets: seq<Path>, lower: Casing, existing: Path -> set<string>, c: Carried,
                       dir: Path, name: string, j: nat)
    requires TargetsOk(sources, targets, lower, existing) && CarriedOk(sources, targets, lower, existing, c)
    requires Known(targets, dir) && Lower(lower, name) !in UsedIn(lower, existing, c, dir) && j < |targets|
    ensures LowerPath(lower, dir + [name]) != LowerPath(lower, targets[j])
  {
    var t := dir + [name];
    if LowerPath(lower, t) == LowerPath(lower, targets[j]) {
      SameCaseParts(lower, t, targets[j]);
      assert Parent(t) == dir && Name(t) == name;
      ParentIsKnown(sources, targets, lower, existing, j);
      KnownAreDistinct(sources, targets, lower, existing, dir, Parent(targets[j]));
    }
  }

  function Carry(lower: Casing, existing: Path -> set<string>, c: Carried, e: Source, dir: Path, name: string): Carried {
    Carried(if e.directory then c.mapped[e.path := dir + [name]] else c.mapped,
            c.reserved[dir := UsedIn(lower, existing, c, dir) + {Lower(lower, name)}],
            c.seen + {Lower(lower, e.path)})
  }

  /** The step the loop takes: an entry whose parent is mapped and a name free there. */
  ghost predicate StepFits(sources: seq<Source>, targets: seq<Path>, lower: Casing, existing: Path -> set<string>, c: Carried, name: string) {
    && TargetsOk(sources, targets, lower, existing) && CarriedOk(sources, targets, lower, existing, c)
    && |targets| < |sources| && sources[|targets|].path != ""
    && ParentPath(sources[|targets|].path) in c.mapped
    && Lower(lower, name) !in UsedIn(lower, existing, c, c.mapped[ParentPath(sources[|targets|].path)])
    && SegmentOk(name) && NamedAfter(sources[|targets|], name)
    && (name == BaseName(sources[|targets|])
        || Lower(lower, BaseName(sources[|targets|])) in UsedIn(lower, existing, c, c.mapped[ParentPath(sources[|targets|].path)]))
  }

  lemma StillInUse(targets: seq<Path>, t: Path, n: nat, lower: Casing, existing: Path -> set<string>, dir: Path, x: string)
    requires n <= |targets| && InUse(targets, n, lower, existing, dir, x)
    ensures InUse(targets + [t], n, lower, existing, dir, x)
  {
    if x !in Existing(lower, existing, dir) {
      var j :| 0 <= j < n && targets[j] != [] && Parent(targets[j]) == dir && Lower(lower, Name(targets[j])) == x;
      assert (targets + [t])[j] == targets[j];
    }
  }

  /** A name the loop counts as used in a directory is in use there. */
  lemma UsedIsInUse(sources: seq<Source>, targets: seq<Path>, lower: Casing, existing: Path -> set<string>, c: Carried, dir: Path, x: string)
    requires CarriedOk(sources, targets, lower, existing, c) && x in UsedIn(lower, existing, c, dir)
    ensures InUse(targets, |targets|, lower, existing, dir, x)
  {
  }

  lemma {:induction false} LoweredSize(lower: Casing, names: set<string>)
    ensures |Lowered(lower, names)| <= |names|
  {
    if names == {} {
      assert Lowered(lower, names) == {};
    } else {
      var x :| x in names;
      var rest := names - {x};
      LoweredSize(lower, rest);
      assert Lowered(lower, names) == Lowered(lower, rest) + {Lower(lower, x)};
    }
  }

  lemma UsedSize(sources: seq<Source>, targets: seq<Path>, lower: Casing, existing: Path -> set<string>, c: Carried, dir: Path)
    requires CarriedOk(sources, targets, lower, existing, c)
    ensures |UsedIn(lower, existing, c, dir)| <= |existing(dir)| + |targets|
  {
    LoweredSize(lower, existing(dir));
  }

  lemma MappedIsKnown(sources: seq<Source>, targets: seq<Path>, lower: Casing, existing: Path -> set<string>, c: Carried, d: string)
    requires CarriedOk(sources, targets, lower, existing, c) && d in c.mapped
    ensures Known(targets, c.mapped[d])
  {
    assert d != "" ==> MapsTo(sources, targets, d, c.mapped[d]);
  }

  lemma NewTargetOk(sources: seq<Source>, targets: seq<Path>, lower: Casing, existing: Path -> set<string>, c: Carried, name: string)
    requires StepFits(sources, targets, lower, existing, c, name)
    ensures var dir := c.mapped[ParentPath(sources[|targets|].path)];
            TargetOk(sources, targets + [dir + [name]], lower, existing, |targets|)
  {
    var source := ParentPath(sources[|targets|].path);
    var dir := c.mapped[source];
    var t, all := dir + [name], targets + [dir + [name]];
    assert Parent(t) == dir && Name(t) == name;
    assert Existing(lower, existing, dir) <= UsedIn(lower, existing, c, dir);
    if name != BaseName(sources[|targets|]) {
      UsedIsInUse(sources, targets, lower, existing, c, dir, Lower(lower, BaseName(sources[|targets|])));
      StillInUse(targets, t, |targets|, lower, existing, dir, Lower(lower, BaseName(sources[|targets|])));
    }
    if dir != [] {
      MappedIsKnown(sources, targets, lower, existing, c, source);
      var j :| 0 <= j < |targets| && targets[j] == dir;
      assert TargetOk(sources, targets, lower, existing, j);
    }
    if source != "" {
      assert MapsTo(sources, targets, source, c.mapped[source]);
      var j :| 0 <= j < |targets| && sources[j] == Source(source, true) && c.mapped[source] == targets[j];
      assert all[j] == dir;
    }
  }

  lemma OldTargetOk(sources: seq<Source>, targets: seq<Path>, lower: Casing, existing: Path -> set<string>, t: Path, i: nat)
    requires i < |targets| < |sources| && TargetOk(sources, targets, lower, existing, i)
    ensures TargetOk(sources, targets + [t], lower, existing, i)
  {
    var all := targets + [t];
    var base := BaseName(sources[i]);
    if Name(targets[i]) != base {
      StillInUse(targets, t, i, lower, existing, Parent(targets[i]), Lower(lower, base));
    }
    if ParentPath(sources[i].path) != [] {
      var j :| 0 <= j < i && sources[j] == Source(ParentPath(sources[i].path), true) && Parent(targets[i]) == targets[j];
      assert all[j] == targets[j];
    }
  }

  lemma DifferAppend(targets: seq<Path>, lower: Casing, t: Path)
    requires DifferUpToCase(targets, lower)
    requires forall i :: 0 <= i < |targets| ==> LowerPath(lower, targets[i]) != LowerPath(lower, t)
    ensures DifferUpToCase(targets + [t], lower)
  {
    var all := targets + [t];
    forall i, j | 0 <= i < j < |all|
      ensures LowerPath(lower, all[i]) != LowerPath(lower, all[j])
    {
      assert all[i] == targets[i];
      assert all[j] == if j < |targets| then targets[j] else t;
    }
  }

  lemma OldTargetsOk(sources: seq<Source>, targets: seq<Path>, lower: Casing, existing: Path -> set<string>, t: Path)
    requires |targets| < |sources| && FirstTargetsOk(sources, targets, lower, existing, |targets|)
    ensures FirstTargetsOk(sources, targets + [t], lower, existing, |targets|)
  {
    forall i | 0 <= i < |targets|
      ensures TargetOk(sources, targets + [t], lower, existing, i)
    {
      OldTargetOk(sources, targets, lower, existing, t, i);
    }
  }

  lemma OneMoreOk(sources: seq<Source>, targets: seq<Path>, lower: Casing, existing: Path -> set<string>, n: nat)
    requires n < |targets| <= |sources|
    requires FirstTargetsOk(sources, targets, lower, existing, n) && TargetOk(sources, targets, lower, existing, n)
    ensures FirstTargetsOk(sources, targets, lower, existing, n + 1)
  {
  }

  lemma TargetsAppend(sources: seq<Source>, targets: seq<Path>, lower: Casing, existing: Path -> set<string>, t: Path)
    requires TargetsOk(sources, targets, lower, existing) && |targets| < |sources|
    requires TargetOk(sources, targets + [t], lower, existing, |targets|)
    requires forall i :: 0 <= i < |targets| ==> LowerPath(lower, targets[i]) != LowerPath(lower, t)
    ensures TargetsOk(sources, targets + [t], lower, existing)
  {
    DifferAppend(targets, lower, t);
    OldTargetsOk(sources, targets, lower, existing, t);
    OneMoreOk(sources, targets + [t], lower, existing, |targets|);
  }

  lemma StepKeepsTargets(sources: seq<Source>, targets: seq<Path>, lower: Casing, existing: Path -> set<string>, c: Carried, name: string)
    requires StepFits(sources, targets, lower, existing, c, name)
    ensures var dir := c.mapped[ParentPath(sources[|targets|].path)];
            TargetsOk(sources, targets + [dir + [name]], lower, existing)
  {
    var dir := c.mapped[ParentPath(sources[|targets|].path)];
    NewTargetOk(sources, targets, lower, existing, c, name);
    MappedIsKnown(sources, targets, lower, existing, c, ParentPath(sources[|targets|].path));
    forall i | 0 <= i < |targets|
      ensures LowerPath(lower, targets[i]) != LowerPath(lower, dir + [name])
    {
      NewTargetIsNew(sources, targets, lower, existing, c, dir, name, i);
    }
    TargetsAppend(sources, targets, lower, existing, dir + [name]);
  }

  lemma MappedAppend(sources: seq<Source>, targets: seq<Path>, mapped: map<string, Path>, t: Path)
    requires |targets| < |sources| && MappedOk(sources, targets, mapped) && sources[|targets|].path != ""
    ensures var e := sources[|targets|];
            MappedOk(sources, targets + [t], if e.directory then mapped[e.path := t] else mapped)
  {
    var e, all := sources[|targets|], targets + [t];
    var mapped1 := if e.directory then mapped[e.path := t] else mapped;
    forall d | d in mapped1 && d != ""
      ensures MapsTo(sources, all, d, mapped1[d])
    {
      if e.directory && d == e.path {
        assert all[|targets|] == t && sources[|targets|] == Source(d, true);
      } else {
        assert MapsTo(sources, targets, d, mapped[d]);
        var j :| 0 <= j < |targets| && sources[j] == Source(d, true) && mapped[d] == targets[j];
        assert all[j] == targets[j];
      }
    }
  }

  lemma ReservedInUse(targets: seq<Path>, lower: Casing, existing: Path -> set<string>, reserved: map<Path, set<string>>,
                      dir: Path, used: set<string>, name: string, p: Path, x: string)
    requires forall q <- reserved, y <- reserved[q] :: InUse(targets, |targets|, lower, existing, q, y)
    requires forall y <- used :: InUse(targets, |targets|, lower, existing, dir, y)
    requires if p == dir then x in used + {Lower(lower, name)} else p in reserved && x in reserved[p]
    ensures InUse(targets + [dir + [name]], |targets| + 1, lower, existing, p, x)
  {
    var t, all := dir + [name], targets + [dir + [name]];
    if InUse(targets, |targets|, lower, existing, p, x) {
      StillInUse(targets, t, |targets|, lower, existing, p, x);
    } else {
      assert all[|targets|] == t && Parent(t) == dir && Name(t) == name;
    }
  }

  lemma ReservedAppend(targets: seq<Path>, lower: Casing, existing: Path -> set<string>, reserved: map<Path, set<string>>,
                       dir: Path, used: set<string>, name: string)
    requires ReservedOk(targets, lower, existing, reserved)
    requires dir in reserved ==> used == reserved[dir]
    requires Existing(lower, existing, dir) <= used && |used| <= |existing(dir)| + |targets|
    requires forall x <- used :: InUse(targets, |targets|, lower, existing, dir, x)
    ensures ReservedOk(targets + [dir + [name]], lower, existing, reserved[dir := used + {Lower(lower, name)}])
  {
    var all, reserved1 := targets + [dir + [name]], reserved[dir := used + {Lower(lower, name)}];
    forall p, x | p in reserved1 && x in reserved1[p]
      ensures InUse(all, |all|, lower, existing, p, x)
    {
      ReservedInUse(targets, lower, existing, reserved, dir, used, name, p, x);
    }
    forall j | 0 <= j < |all|
      ensures Taken(reserved1, lower, all[j])
    {
      if j < |targets| {
        assert Taken(reserved, lower, targets[j]);
      } else {
        assert Parent(dir + [name]) == dir;
      }
    }
  }

  lemma StepKeepsCarried(sources: seq<Source>, targets: seq<Path>, lower: Casing, existing: Path -> set<string>, c: Carried, name: string)
    requires StepFits(sources, targets, lower, existing, c, name)
    ensures var e := sources[|targets|];
            var dir := c.mapped[ParentPath(e.path)];
            CarriedOk(sources, targets + [dir + [name]], lower, existing, Carry(lower, existing, c, e, dir, name))
  {
    var e := sources[|targets|];
    var dir := c.mapped[ParentPath(e.path)];
    UsedSize(sources, targets, lower, existing, c, dir);
    forall x | x in UsedIn(lower, existing, c, dir)
      ensures InUse(targets, |targets|, lower, existing, dir, x)
    {
      UsedIsInUse(sources, targets, lower, existing, c, dir, x);
    }
    ReservedAppend(targets, lower, existing, c.reserved, dir, UsedIn(lower, existing, c, dir), name);
    MappedAppend(sources, targets, c.mapped, dir + [name]);
  }

  ghost predicate DistinctSources(sources: seq<Source>, n: nat, lower: Casing)
    requires n <= |sources|
  {
    forall i, j :: 0 <= i < j < n ==> Lower(lower, sources[i].path) != Lower(lower, sources[j].path)
  }

  /** `seen` holds the lower-cased paths of the first entries and nothing else. */
  ghost predicate SeenOk(sources: seq<Source>, n: nat, lower: Casing, seen: set<string>)
    requires n <= |sources|
  {
    && (forall i :: 0 <= i < n ==> Lower(lower, sources[i].path) in seen)
    && (forall x <- seen :: exists i :: 0 <= i < n && x == Lower(lower, sources[i].path))
  }

  lemma NextSourceDiffers(sources: seq<Source>, n: nat, lower: Casing, seen: set<string>)
    requires n < |sources| && DistinctSources(sources, n, lower) && SeenOk(sources, n, lower, seen)
    requires Lower(lower, sources[n].path) !in seen
    ensures DistinctSources(sources, n + 1, lower) && SeenOk(sources, n + 1, lower, seen + {Lower(lower, sources[n].path)})
  {
  }

  /** What holds after the first entries. */
  ghost predicate Prepared(sources: seq<Source>, targets: seq<Path>, lower: Casing, existing: Path -> set<string>, c: Carried) {
    && |targets| <= |sources|
    && TargetsOk(sources, targets, lower, existing) && CarriedOk(sources, targets, lower, existing, c)
    && DistinctSources(sources, |targets|, lower) && SeenOk(sources, |targets|, lower, c.seen)
  }

  lemma StepKeepsPrepared(sources: seq<Source>, targets: seq<Path>, lower: Casing, existing: Path -> set<string>, c: Carried, name: string)
    requires Prepared(sources, targets, lower, existing, c) && StepFits(sources, targets, lower, existing, c, name)
    requires Lower(lower, sources[|targets|].path) !in c.seen
    ensures var e := sources[|targets|];
            var dir := c.mapped[ParentPath(e.path)];
            Prepared(sources, targets + [dir + [name]], lower, existing, Carry(lower, existing, c, e, dir, name))
  {
    StepKeepsTargets(sources, targets, lower, existing, c, name);
    StepKeepsCarried(sources, targets, lower, existing, c, name);
    NextSourceDiffers(sources, |targets|, lower, c.seen);
  }

  /** Every directory comes before what lies in it. */
  ghost predicate ParentsFirst(sources: seq<Source>) {
    forall i :: 0 <= i < |sources| && ParentPath(sources[i].path) != [] ==>
      exists j :: 0 <= j < i && sources[j] == Source(ParentPath(sources[i].path), true)
  }

  /** No directory holds so many names that the numbers could run out. */
  ghost predicate RoomForNames(sources: seq<Source>, existing: Path -> set<string>) {
    forall dir: Path :: |existing(dir)| + |sources| < MAX_SUFFIX
  }

  /** What makes the preparation refuse the next entry. */
  lemma RepeatedPath(sources: seq<Source>, n: nat, lower: Casing, seen: set<string>)
    requires n < |sources| && SeenOk(sources, n, lower, seen) && Lower(lower, sources[n].path) in seen
    ensures !DistinctSources(sources, |sources|, lower)
  {
  }

  lemma MissingParent(sources: seq<Source>, targets: seq<Path>, mapped: map<string, Path>)
    requires |targets| < |sources| && MappedOk(sources, targets, mapped) && ParentPath(sources[|targets|].path) !in mapped
    ensures !ParentsFirst(sources)
  {
  }

  /** The name of the next entry: free in its directory, valid, and named after the entry. */
  method NextName(sources: seq<Source>, targets: seq<Path>, lower: Casing, existing: Path -> set<string>, c: Carried)
    returns (name: Option<string>)
    requires LowerCases(lower) && Prepared(sources, targets, lower, existing, c) && |targets| < |sources|
    requires sources[|targets|].path != "" && ParentPath(sources[|targets|].path) in c.mapped
    ensures name.Some? ==> StepFits(sources, targets, lower, existing, c, name.value)
    ensures name.None? ==> !RoomForNames(sources, existing)
  {
    var e := sources[|targets|];
    var dir := c.mapped[ParentPath(e.path)];
    UsedSize(sources, targets, lower, existing, c, dir);
    ghost var n;
    name, n := PickName(lower, UsedIn(lower, existing, c, dir), Sanitize(NameIn(e.path)), e.directory);
  }

  /**
   For every manifest it accepts: the targets are distinct up to letter case, avoid the
   names that were in their directories, lie in the target of their entry's parent, have
   their entry's name unless that was in use, and consist of segments a relative path accepts.  It accepts every manifest whose paths are
   distinct up to letter case and whose directories come first.
   */
  method PrepareTargets(sources: seq<Source>, lower: Casing, existing: Path -> set<string>) returns (r: Option<seq<Path>>)
    requires LowerCases(lower) && forall i :: 0 <= i < |sources| ==> sources[i].path != ""
    ensures r.Some? ==>
              |r.value| == |sources| && TargetsOk(sources, r.value, lower, existing) && DistinctSources(sources, |sources|, lower)
    ensures DistinctSources(sources, |sources|, lower) && ParentsFirst(sources) && RoomForNames(sources, existing) ==> r.Some?
  {
    var targets: seq<Path>, c := [], Carried(map["" := []], map[], {});
    while |targets| < |sources|
      invariant Prepared(sources, targets, lower, existing, c)
      decreases |sources| - |targets|
    {
      var e := sources[|targets|];
      if Lower(lower, e.path) in c.seen {
        RepeatedPath(sources, |targets|, lower, c.seen);
        return None;
      }
      if ParentPath(e.path) !in c.mapped {
        MissingParent(sources, targets, c.mapped);
        return None;
      }
      var dir := c.mapped[ParentPath(e.path)];
      var name := NextName(sources, targets, lower, existing, c);
      if name.None? { return None; }
      StepKeepsPrepared(sources, targets, lower, existing, c, name.value);
      c := Carry(lower, existing, c, e, dir, name.value);
      targets := targets + [dir + [name.value]];
    }
    return Some(targets);
  }
}
