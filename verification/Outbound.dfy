/**
 Offering files from the computer: one traversal counts the selected trees, a second one
 writes the manifest and the source list.  The tree's children are in the order both
 traversals sort them.
 */
module Outbound {
  import opened Optional
  import opened Bytes
  import opened Names

  datatype Node =
    | FileNode(name: string, size: nat)
    | DirNode(name: string, children: seq<Node>)
    | LinkNode(name: string)
    | OtherNode(name: string)

  type Path = seq<string>

  /** One visit of the traversal: the wire path, the path on disk, and what is there. */
  datatype Visit = Visit(relative: Path, source: Path, directory: bool, size: nat)

  function VisitOf(n: Node, relative: Path, source: Path): Visit {
    Visit(relative, source, n.DirNode?, if n.FileNode? then n.size else 0)
  }

  function Preorder(n: Node, relative: Path, source: Path): (r: seq<Visit>)
    ensures |r| > 0 && r[0] == VisitOf(n, relative, source)
    decreases n, 1
  {
    [VisitOf(n, relative, source)] + if n.DirNode? then PreorderAll(n.children, relative, source) else []
  }

  function PreorderAll(children: seq<Node>, relative: Path, source: Path): seq<Visit>
    decreases children, 0
  {
    if children == [] then []
    else Preorder(children[0], relative + [children[0].name], source + [children[0].name])
         + PreorderAll(children[1..], relative, source)
  }

  // ---------------------------------------------------------------------------
  // Totals
  // ---------------------------------------------------------------------------

  datatype Stats = Stats(files: nat, directories: nat, bytes: nat)

  function FilesIn(visits: seq<Visit>): nat {
    if visits == [] then 0 else (if visits[0].directory then 0 else 1) + FilesIn(visits[1..])
  }

  function DirectoriesIn(visits: seq<Visit>): nat {
    if visits == [] then 0 else (if visits[0].directory then 1 else 0) + DirectoriesIn(visits[1..])
  }

  function BytesIn(visits: seq<Visit>): nat {
    if visits == [] then 0 else (if visits[0].directory then 0 else visits[0].size) + BytesIn(visits[1..])
  }

  lemma {:induction false} TotalsConcat(a: seq<Visit>, b: seq<Visit>)
    ensures FilesIn(a + b) == FilesIn(a) + FilesIn(b)
    ensures DirectoriesIn(a + b) == DirectoriesIn(a) + DirectoriesIn(b)
    ensures BytesIn(a + b) == BytesIn(a) + BytesIn(b)
    decreases |a|
  {
    if a == [] {
      assert a + b == b;
    } else {
      assert (a + b)[1..] == a[1..] + b;
      TotalsConcat(a[1..], b);
    }
  }

  /** The counters after these visits. */
  function After(s: Stats, visits: seq<Visit>): Stats {
    Stats(s.files + FilesIn(visits), s.directories + DirectoriesIn(visits), s.bytes + BytesIn(visits))
  }

  lemma AfterConcat(s: Stats, a: seq<Visit>, b: seq<Visit>)
    ensures After(s, a + b) == After(After(s, a), b)
  {
    TotalsConcat(a, b);
  }

  function Totals(visits: seq<Visit>): Stats {
    Stats(FilesIn(visits), DirectoriesIn(visits), BytesIn(visits))
  }

  lemma TotalsOn(a: seq<Visit>, b: seq<Visit>)
    ensures Totals(a + b) == After(Totals(a), b)
  {
    TotalsConcat(a, b);
  }

  lemma AfterOne(s: Stats, v: Visit)
    ensures After(s, [v]) == if v.directory then s.(directories := s.directories + 1)
                             else s.(files := s.files + 1, bytes := s.bytes + v.size)
  {
    assert [v][1..] == [];
    assert FilesIn([v][1..]) == DirectoriesIn([v][1..]) == BytesIn([v][1..]) == 0;
  }

  predicate Fits(s: Stats) { s.files < U64 && s.directories < U64 && s.bytes < U64 }

  /** The tree holds only files and directories. */
  predicate Plain(n: Node)
    decreases n
  {
    n.FileNode? || (n.DirNode? && forall c <- n.children :: Plain(c))
  }

  /** Adds a tree to the counters; `None` is a link, another kind of node, or an overflow. */
  method CountOutbound(n: Node, start: Stats, ghost relative: Path, ghost source: Path) returns (r: Option<Stats>)
    requires Fits(start)
    ensures r.Some? ==> Plain(n) && Fits(r.value) && r.value == After(start, Preorder(n, relative, source))
    ensures r.None? ==> !Plain(n) || !Fits(After(start, Preorder(n, relative, source)))
    decreases n, 1
  {
    if n.LinkNode? || n.OtherNode? { return None; }
    ghost var visit := VisitOf(n, relative, source);
    AfterOne(start, visit);
    assert n.FileNode? ==> Preorder(n, relative, source) == [visit];
    if n.FileNode? {
      if start.files + 1 >= U64 || start.bytes + n.size >= U64 { return None; }
      return Some(Stats(start.files + 1, start.directories, start.bytes + n.size));
    }
    AfterConcat(start, [visit], PreorderAll(n.children, relative, source));
    if start.directories + 1 >= U64 { return None; }
    r := CountChildren(n.children, start.(directories := start.directories + 1), relative, source);
  }

  method CountChildren(children: seq<Node>, start: Stats, ghost relative: Path, ghost source: Path) returns (r: Option<Stats>)
    requires Fits(start)
    ensures r.Some? ==> (forall c <- children :: Plain(c)) && Fits(r.value) && r.value == After(start, PreorderAll(children, relative, source))
    ensures r.None? ==> !(forall c <- children :: Plain(c)) || !Fits(After(start, PreorderAll(children, relative, source)))
    decreases children, 0
  {
    var now := start;
    assert children[0..] == children;
    for i := 0 to |children|
      invariant Fits(now) && forall j :: 0 <= j < i ==> Plain(children[j])
      invariant After(now, PreorderAll(children[i..], relative, source)) == After(start, PreorderAll(children, relative, source))
    {
      var c := children[i];
      assert children[i..][0] == c && children[i..][1..] == children[i + 1..];
      AfterConcat(now, Preorder(c, relative + [c.name], source + [c.name]), PreorderAll(children[i + 1..], relative, source));
      var counted := CountOutbound(c, now, relative + [c.name], source + [c.name]);
      if counted.None? { return None; }
      now := counted.value;
    }
    assert children[|children|..] == [];
    return Some(now);
  }

  // ---------------------------------------------------------------------------
  // Writing
  // ---------------------------------------------------------------------------

  datatype Entry = Entry(ordinal: nat, relative: Path, directory: bool, size: nat)

  /** The manifest and the source list as they are written, with the running counters. */
  datatype Output = Output(entries: seq<Entry>, sources: seq<Path>, stats: Stats)

  function EntryOf(v: Visit, ordinal: nat): Entry { Entry(ordinal, v.relative, v.directory, v.size) }

  const MAX_WIRE_INTEGER: nat := 0x7FFF_FFFF_FFFF_FFFF
  const MAX_PATH_BYTES: nat := 4096
  const MAX_SEGMENTS: nat := 128

  function Utf8Of(c: char): nat {
    var n := c as int;
    if n < 0x80 then 1 else if n < 0x800 then 2 else if n < 0x1_0000 then 3 else 4
  }

  function Utf8(s: string): nat { if s == [] then 0 else Utf8Of(s[0]) + Utf8(s[1..]) }

  /** The length of the path in bytes, its segments joined by slashes. */
  function PathBytes(p: Path): nat {
    if p == [] then 0 else Utf8(p[0]) + (if |p| > 1 then 1 else 0) + PathBytes(p[1..])
  }

  /** The path passes the checks on relative paths. */
  predicate Transferable(p: Path) {
    0 < |p| <= MAX_SEGMENTS && PathBytes(p) <= MAX_PATH_BYTES && forall s <- p :: SegmentOk(s)
  }

  /** The entry is valid, and `writes` says that its line was short enough and written by both writers. */
  predicate Takes(writes: nat -> bool, e: Entry) {
    Transferable(e.relative) && e.ordinal <= MAX_WIRE_INTEGER && e.size <= MAX_WIRE_INTEGER && writes(e.ordinal)
  }

  /** Entry and source `i` come from visit `i`. */
  ghost predicate Records(o: Output, visits: seq<Visit>) {
    && |o.entries| == |o.sources| == |visits|
    && (forall i :: 0 <= i < |visits| ==> o.entries[i] == EntryOf(visits[i], i) && o.sources[i] == visits[i].source)
    && o.stats == Totals(visits)
  }

  /**
   Nothing stops the writing of these visits: the counters fit, every entry is valid, and
   both writers take it.
   */
  ghost predicate Goes(visits: seq<Visit>, writes: nat -> bool) {
    && Fits(Totals(visits)) && |visits| < U64
    && forall i :: 0 <= i < |visits| ==> Takes(writes, EntryOf(visits[i], i))
  }

  lemma GoesPrefix(a: seq<Visit>, b: seq<Visit>, writes: nat -> bool)
    requires Goes(a + b, writes)
    ensures Goes(a, writes)
  {
    TotalsOn(a, b);
    forall i | 0 <= i < |a|
      ensures Takes(writes, EntryOf(a[i], i))
    {
      assert (a + b)[i] == a[i];
    }
  }

  lemma GoesOn(visits: seq<Visit>, v: Visit, writes: nat -> bool)
    requires Goes(visits, writes)
    ensures Goes(visits + [v], writes) <==>
            Fits(Totals(visits + [v])) && |visits| + 1 < U64 && Takes(writes, EntryOf(v, |visits|))
  {
    var all := visits + [v];
    assert all[|visits|] == v;
    assert forall i :: 0 <= i < |visits| ==> all[i] == visits[i];
  }

  lemma RecordsOn(o: Output, visits: seq<Visit>, v: Visit)
    requires Records(o, visits)
    ensures Records(Output(o.entries + [EntryOf(v, |visits|)], o.sources + [v.source], After(o.stats, [v])), visits + [v])
  {
    TotalsOn(visits, [v]);
  }

  /** Writes a tree in preorder after what is already written; it fails only if something stops it. */
  method WriteOutbound(n: Node, relative: Path, source: Path, o: Output, writes: nat -> bool, ghost visits: seq<Visit>)
    returns (r: Option<Output>)
    requires Records(o, visits) && Goes(visits, writes)
    ensures r.Some? ==> Records(r.value, visits + Preorder(n, relative, source)) && Goes(visits + Preorder(n, relative, source), writes)
    ensures r.None? ==> !Plain(n) || !Goes(visits + Preorder(n, relative, source), writes)
    decreases n, 1
  {
    if n.LinkNode? { return None; }
    var visit := VisitOf(n, relative, source);
    ghost var inner := if n.DirNode? then PreorderAll(n.children, relative, source) else [];
    assert visits + Preorder(n, relative, source) == visits + [visit] + inner;
    var stats := if n.DirNode? then o.stats.(directories := o.stats.directories + 1)
                 else o.stats.(files := o.stats.files + 1, bytes := o.stats.bytes + visit.size);
    AfterOne(o.stats, visit);
    TotalsOn(visits, [visit]);
    GoesOn(visits, visit, writes);
    if !Fits(stats) || !Takes(writes, EntryOf(visit, |o.entries|)) || |o.entries| + 1 >= U64 {
      if Goes(visits + [visit] + inner, writes) {
        GoesPrefix(visits + [visit], inner, writes);
      }
      return None;
    }
    var o1 := Output(o.entries + [EntryOf(visit, |o.entries|)], o.sources + [source], stats);
    RecordsOn(o, visits, visit);
    if n.DirNode? {
      r := WriteChildren(n.children, relative, source, o1, writes, visits + [visit]);
    } else {
      assert visits + [visit] + inner == visits + [visit];
      r := Some(o1);
    }
  }

  method WriteChildren(children: seq<Node>, relative: Path, source: Path, o: Output, writes: nat -> bool, ghost visits: seq<Visit>)
    returns (r: Option<Output>)
    requires Records(o, visits) && Goes(visits, writes)
    ensures r.Some? ==>
              && Records(r.value, visits + PreorderAll(children, relative, source))
              && Goes(visits + PreorderAll(children, relative, source), writes)
    ensures r.None? ==> !(forall c <- children :: Plain(c)) || !Goes(visits + PreorderAll(children, relative, source), writes)
    decreases children, 0
  {
    var now := o;
    ghost var done := visits;
    assert children[0..] == children;
    for i := 0 to |children|
      invariant Records(now, done) && Goes(done, writes)
      invariant done + PreorderAll(children[i..], relative, source) == visits + PreorderAll(children, relative, source)
    {
      var c := children[i];
      ghost var next := Preorder(c, relative + [c.name], source + [c.name]);
      ghost var later := PreorderAll(children[i + 1..], relative, source);
      assert children[i..][0] == c && children[i..][1..] == children[i + 1..];
      assert done + (next + later) == done + next + later;
      var written := WriteOutbound(c, relative + [c.name], source + [c.name], now, writes, done);
      if written.None? {
        if Goes(done + next + later, writes) {
          GoesPrefix(done + next, later, writes);
        }
        return None;
      }
      now := written.value;
      done := done + next;
    }
    assert children[|children|..] == [] && done + [] == done;
    return Some(now);
  }

  // ---------------------------------------------------------------------------
  // What the order of the visits guarantees
  // ---------------------------------------------------------------------------

  /** No directory lists the same name twice. */
  predicate WellNamed(n: Node)
    decreases n, 1
  {
    n.DirNode? ==> AllWellNamed(n.children)
  }

  predicate AllWellNamed(children: seq<Node>)
    decreases children, 0
  {
    children != [] ==>
      && WellNamed(children[0]) && AllWellNamed(children[1..])
      && (forall c <- children[1..] :: c.name != children[0].name)
  }

  /** Strictly below `relative`, under one of these names, and found in the same place on disk. */
  predicate Below(v: Visit, relative: Path, source: Path, names: set<string>) {
    && |relative| < |v.relative| && v.relative[..|relative|] == relative && v.relative[|relative|] in names
    && v.source == source + v.relative[|relative|..]
  }

  function NamesOf(children: seq<Node>): set<string> { set c | c in children :: c.name }

  predicate Distinct(visits: seq<Visit>) {
    forall i, j :: 0 <= i < j < |visits| ==> visits[i].relative != visits[j].relative
  }

  lemma BelowDeeper(v: Visit, relative: Path, source: Path, name: string, names: set<string>, more: set<string>)
    requires Below(v, relative + [name], source + [name], names) && name in more
    ensures Below(v, relative, source, more)
  {
    assert v.relative[..|relative|] == v.relative[..|relative| + 1][..|relative|];
    assert v.relative[|relative|] == v.relative[..|relative| + 1][|relative|];
    assert source + [name] + v.relative[|relative| + 1..] == source + v.relative[|relative|..];
  }

  lemma HereIsBelow(n: Node, relative: Path, source: Path, more: set<string>)
    requires n.name in more
    ensures Below(VisitOf(n, relative + [n.name], source + [n.name]), relative, source, more)
  {
    var v := VisitOf(n, relative + [n.name], source + [n.name]);
    assert v.relative[..|relative|] == relative && v.relative[|relative|..] == [n.name];
  }

  /** Everything visited in a directory is below it, and on disk where its path says. */
  lemma {:induction false} VisitsAreBelow(children: seq<Node>, relative: Path, source: Path)
    ensures forall v <- PreorderAll(children, relative, source) :: Below(v, relative, source, NamesOf(children))
    decreases children, 0
  {
    if children != [] {
      var c, rest, names := children[0], children[1..], NamesOf(children);
      VisitsAreBelow(rest, relative, source);
      NodeIsBelow(c, relative, source, names);
      var first, later := Preorder(c, relative + [c.name], source + [c.name]), PreorderAll(rest, relative, source);
      forall v | v in first + later
        ensures Below(v, relative, source, names)
      {
        if v in later {
          assert NamesOf(rest) <= names;
        }
      }
    }
  }

  lemma {:induction false} NodeIsBelow(n: Node, relative: Path, source: Path, names: set<string>)
    requires n.name in names
    ensures forall v <- Preorder(n, relative + [n.name], source + [n.name]) :: Below(v, relative, source, names)
    decreases n, 1
  {
    var here, there := relative + [n.name], source + [n.name];
    HereIsBelow(n, relative, source, names);
    if n.DirNode? {
      VisitsAreBelow(n.children, here, there);
      forall v | v in PreorderAll(n.children, here, there)
        ensures Below(v, relative, source, names)
      {
        BelowDeeper(v, relative, source, n.name, NamesOf(n.children), names);
      }
    }
  }

  /** Following the names of `p` down from `n` leads to `m`. */
  ghost predicate Reached(n: Node, p: Path, m: Node)
    decreases |p|
  {
    if p == [] then m == n else n.DirNode? && exists c <- n.children :: c.name == p[0] && Reached(c, p[1..], m)
  }

  /** The child's visits are among its directory's. */
  lemma {:induction false} ChildIsVisited(children: seq<Node>, c: Node, relative: Path, source: Path, v: Visit)
    requires c in children && v in Preorder(c, relative + [c.name], source + [c.name])
    ensures v in PreorderAll(children, relative, source)
    decreases |children|
  {
    if c != children[0] {
      ChildIsVisited(children[1..], c, relative, source, v);
    }
  }

  lemma {:induction false} VisitIsOfChild(children: seq<Node>, relative: Path, source: Path, v: Visit) returns (c: Node)
    requires v in PreorderAll(children, relative, source)
    ensures c in children && v in Preorder(c, relative + [c.name], source + [c.name])
    decreases |children|
  {
    c := children[0];
    if v !in Preorder(c, relative + [c.name], source + [c.name]) {
      c := VisitIsOfChild(children[1..], relative, source, v);
    }
  }

  /** The visit of the node at `p` below `relative`. */
  function VisitAt(relative: Path, source: Path, p: Path, m: Node): Visit {
    Visit(relative + p, source + p, m.DirNode?, if m.FileNode? then m.size else 0)
  }

  lemma VisitDeeper(relative: Path, source: Path, name: string, q: Path, m: Node)
    ensures VisitAt(relative + [name], source + [name], q, m) == VisitAt(relative, source, [name] + q, m)
  {
    assert relative + [name] + q == relative + ([name] + q);
    assert source + [name] + q == source + ([name] + q);
  }

  lemma VisitHere(n: Node, relative: Path, source: Path)
    ensures VisitAt(relative, source, [], n) == VisitOf(n, relative, source)
  {
    assert relative + [] == relative && source + [] == source;
  }

  /** Every node of the tree is visited, under its path, as what it is. */
  lemma {:induction false} EveryNodeIsVisited(n: Node, relative: Path, source: Path, p: Path, m: Node)
    requires Reached(n, p, m)
    ensures VisitAt(relative, source, p, m) in Preorder(n, relative, source)
    decreases |p|
  {
    if p == [] {
      VisitHere(n, relative, source);
      assert VisitAt(relative, source, p, m) == Preorder(n, relative, source)[0];
    } else {
      var c :| c in n.children && c.name == p[0] && Reached(c, p[1..], m);
      EveryNodeIsVisited(c, relative + [c.name], source + [c.name], p[1..], m);
      VisitDeeper(relative, source, c.name, p[1..], m);
      assert [c.name] + p[1..] == p;
      ChildIsVisited(n.children, c, relative, source, VisitAt(relative, source, p, m));
    }
  }

  lemma ReachedDeeper(n: Node, c: Node, q: Path, m: Node)
    requires n.DirNode? && c in n.children && Reached(c, q, m)
    ensures Reached(n, [c.name] + q, m)
  {
    assert ([c.name] + q)[1..] == q;
  }

  lemma VisitInside(n: Node, relative: Path, source: Path, v: Visit)
    requires v in Preorder(n, relative, source) && v != VisitOf(n, relative, source)
    ensures n.DirNode? && v in PreorderAll(n.children, relative, source)
  {
  }

  /** Nothing else is: every visit is of a node of the tree. */
  lemma {:induction false} EveryVisitIsOfANode(n: Node, relative: Path, source: Path, v: Visit) returns (p: Path, m: Node)
    requires v in Preorder(n, relative, source)
    ensures Reached(n, p, m) && v == VisitAt(relative, source, p, m)
    decreases n
  {
    if v == VisitOf(n, relative, source) {
      p, m := [], n;
      VisitHere(n, relative, source);
    } else {
      VisitInside(n, relative, source, v);
      var c := VisitIsOfChild(n.children, relative, source, v);
      var q;
      q, m := EveryVisitIsOfANode(c, relative + [c.name], source + [c.name], v);
      p := [c.name] + q;
      ReachedDeeper(n, c, q, m);
      VisitDeeper(relative, source, c.name, q, m);
    }
  }

  lemma DistinctConcat(a: seq<Visit>, b: seq<Visit>)
    requires Distinct(a) && Distinct(b) && forall v <- a, w <- b :: v.relative != w.relative
    ensures Distinct(a + b)
  {
  }

  /** In a tree without repeated names no two visits have the same path. */
  lemma {:induction false} VisitsAreDistinct(children: seq<Node>, relative: Path, source: Path)
    requires AllWellNamed(children)
    ensures Distinct(PreorderAll(children, relative, source))
    decreases children
  {
    if children != [] {
      var c, rest := children[0], children[1..];
      var here, there := relative + [c.name], source + [c.name];
      var first, later := Preorder(c, here, there), PreorderAll(rest, relative, source);
      VisitsAreDistinct(rest, relative, source);
      if c.DirNode? {
        VisitsAreDistinct(c.children, here, there);
        VisitsAreBelow(c.children, here, there);
        DistinctConcat([VisitOf(c, here, there)], PreorderAll(c.children, here, there));
      }
      VisitsAreBelow([c], relative, source);
      VisitsAreBelow(rest, relative, source);
      assert PreorderAll([c], relative, source) == first + PreorderAll([], relative, source) == first;
      forall v, w | v in first && w in later
        ensures v.relative != w.relative
      {
        assert Below(v, relative, source, NamesOf([c])) && Below(w, relative, source, NamesOf(rest));
      }
      DistinctConcat(first, later);
    }
  }

  /** The visit's parent is the directory itself or was visited before it, as a directory. */
  ghost predicate ParentSeen(visits: seq<Visit>, i: nat, relative: Path)
    requires i < |visits|
  {
    var p := visits[i].relative;
    && p != []
    && (p[..|p| - 1] == relative || exists j :: 0 <= j < i && visits[j].directory && visits[j].relative == p[..|p| - 1])
  }

  ghost predicate ParentsFirst(visits: seq<Visit>, relative: Path) {
    forall i :: 0 <= i < |visits| ==> ParentSeen(visits, i, relative)
  }

  lemma ParentsConcat(a: seq<Visit>, b: seq<Visit>, relative: Path)
    requires ParentsFirst(a, relative) && ParentsFirst(b, relative)
    ensures ParentsFirst(a + b, relative)
  {
    var all := a + b;
    forall i | 0 <= i < |all|
      ensures ParentSeen(all, i, relative)
    {
      if i < |a| {
        assert ParentSeen(a, i, relative);
        var p := a[i].relative;
        if p[..|p| - 1] != relative {
          var j :| 0 <= j < i && a[j].directory && a[j].relative == p[..|p| - 1];
          assert all[j] == a[j];
        }
      } else {
        assert ParentSeen(b, i - |a|, relative);
        var p := b[i - |a|].relative;
        if p[..|p| - 1] != relative {
          var j :| 0 <= j < i - |a| && b[j].directory && b[j].relative == p[..|p| - 1];
          assert all[|a| + j] == b[j];
        }
      }
    }
  }

  lemma DirectoryThenContents(v: Visit, inner: seq<Visit>, relative: Path)
    requires v.directory && v.relative != [] && v.relative[..|v.relative| - 1] == relative && ParentsFirst(inner, v.relative)
    ensures ParentsFirst([v] + inner, relative)
  {
    var all := [v] + inner;
    forall i | 0 <= i < |all|
      ensures ParentSeen(all, i, relative)
    {
      if i > 0 {
        assert ParentSeen(inner, i - 1, v.relative);
        var p := inner[i - 1].relative;
        if p[..|p| - 1] == v.relative {
          assert all[0] == v;
        } else {
          var j :| 0 <= j < i - 1 && inner[j].directory && inner[j].relative == p[..|p| - 1];
          assert all[j + 1] == inner[j];
        }
      }
    }
  }

  /** Every directory is visited before what lies in it. */
  lemma {:induction false} ParentsComeFirst(children: seq<Node>, relative: Path, source: Path)
    ensures ParentsFirst(PreorderAll(children, relative, source), relative)
    decreases children
  {
    if children != [] {
      var c, rest := children[0], children[1..];
      var here, there := relative + [c.name], source + [c.name];
      assert here[..|here| - 1] == relative;
      ParentsComeFirst(rest, relative, source);
      if c.DirNode? {
        ParentsComeFirst(c.children, here, there);
        DirectoryThenContents(VisitOf(c, here, there), PreorderAll(c.children, here, there), relative);
      }
      ParentsConcat(Preorder(c, here, there), PreorderAll(rest, relative, source), relative);
    }
  }

  // ---------------------------------------------------------------------------
  // The offer: several selected trees, each with a wire name of its own
  // ---------------------------------------------------------------------------

  /** A selected file or directory and where it lies. */
  datatype Selected = Selected(node: Node, path: Path)

  datatype Root = Root(node: Node, path: Path, wire: string)

  function RootVisits(roots: seq<Root>): seq<Visit> {
    if roots == [] then []
    else Preorder(roots[0].node, [roots[0].wire], roots[0].path) + RootVisits(roots[1..])
  }

  /** The wire path starts at a root's wire name and the rest of it leads to the source from that root's path. */
  predicate Under(v: Visit, root: Root) {
    |v.relative| > 0 && v.relative[0] == root.wire && v.source == root.path + v.relative[1..]
  }

  lemma RootIsAbove(root: Root)
    ensures forall v <- Preorder(root.node, [root.wire], root.path) :: Under(v, root)
  {
    if root.node.DirNode? {
      VisitsAreBelow(root.node.children, [root.wire], root.path);
    }
  }

  lemma RootVisitsDiffer(root: Root)
    requires WellNamed(root.node)
    ensures Distinct(Preorder(root.node, [root.wire], root.path))
  {
    if root.node.DirNode? {
      var inner := PreorderAll(root.node.children, [root.wire], root.path);
      VisitsAreBelow(root.node.children, [root.wire], root.path);
      VisitsAreDistinct(root.node.children, [root.wire], root.path);
      DistinctConcat([VisitOf(root.node, [root.wire], root.path)], inner);
    }
  }

  lemma RootComesFirst(root: Root)
    ensures ParentsFirst(Preorder(root.node, [root.wire], root.path), [])
  {
    var visit := VisitOf(root.node, [root.wire], root.path);
    if root.node.DirNode? {
      ParentsComeFirst(root.node.children, [root.wire], root.path);
      DirectoryThenContents(visit, PreorderAll(root.node.children, [root.wire], root.path), []);
    } else {
      assert ParentSeen([visit], 0, []);
    }
  }

  predicate OneNameEach(roots: seq<Root>) {
    forall i, j :: 0 <= i < j < |roots| ==> roots[i].wire != roots[j].wire
  }

  lemma {:induction false} EveryVisitHasItsRoot(roots: seq<Root>)
    ensures forall v <- RootVisits(roots) :: exists i :: 0 <= i < |roots| && Under(v, roots[i])
  {
    if roots != [] {
      RootIsAbove(roots[0]);
      EveryVisitHasItsRoot(roots[1..]);
      forall v | v in RootVisits(roots)
        ensures exists i :: 0 <= i < |roots| && Under(v, roots[i])
      {
        if v in RootVisits(roots[1..]) {
          var i :| 0 <= i < |roots[1..]| && Under(v, roots[1..][i]);
          assert roots[i + 1] == roots[1..][i];
        } else {
          assert Under(v, roots[0]);
        }
      }
    }
  }

  /** Over all the selected trees no two wire paths are the same. */
  lemma {:induction false} OfferedPathsDiffer(roots: seq<Root>)
    requires OneNameEach(roots) && forall r <- roots :: WellNamed(r.node)
    ensures Distinct(RootVisits(roots))
  {
    if roots != [] {
      var root, rest := roots[0], roots[1..];
      var first, later := Preorder(root.node, [root.wire], root.path), RootVisits(rest);
      OfferedPathsDiffer(rest);
      RootVisitsDiffer(root);
      RootIsAbove(root);
      EveryVisitHasItsRoot(rest);
      forall v, w | v in first && w in later
        ensures v.relative != w.relative
      {
        var i :| 0 <= i < |rest| && Under(w, rest[i]);
        assert Under(v, root) && rest[i] == roots[i + 1];
      }
      DistinctConcat(first, later);
    }
  }

  /** Over all the selected trees a directory comes before what lies in it. */
  lemma {:induction false} OfferedParentsComeFirst(roots: seq<Root>)
    ensures ParentsFirst(RootVisits(roots), [])
  {
    if roots != [] {
      OfferedParentsComeFirst(roots[1..]);
      RootComesFirst(roots[0]);
      ParentsConcat(Preorder(roots[0].node, [roots[0].wire], roots[0].path), RootVisits(roots[1..]), []);
    }
  }

  /** The root keeps its own name, made acceptable, unless an earlier root has it; then it gets a number. */
  ghost predicate WireNamed(roots: seq<Root>, i: nat, lower: Casing)
    requires i < |roots|
  {
    var base := Sanitize(roots[i].node.name);
    || roots[i].wire == base
    || (&& (exists j :: 0 <= j < i && Lower(lower, roots[j].wire) == Lower(lower, base))
        && (exists n: nat :: n >= 1 && roots[i].wire == WithSuffix(base, n, roots[i].node.DirNode?)))
  }

  lemma WireStaysNamed(roots: seq<Root>, root: Root, i: nat, lower: Casing)
    requires i < |roots| && WireNamed(roots, i, lower)
    ensures WireNamed(roots + [root], i, lower)
  {
    var all, base := roots + [root], Sanitize(roots[i].node.name);
    assert all[i] == roots[i];
    if roots[i].wire != base {
      var j :| 0 <= j < i && Lower(lower, roots[j].wire) == Lower(lower, base);
      assert all[j] == roots[j];
    }
  }

  /** The roots are the selection, in its order, under wire names that differ even up to letter case. */
  ghost predicate Plans(roots: seq<Root>, selection: seq<Selected>, lower: Casing) {
    && |roots| == |selection|
    && (forall i :: 0 <= i < |roots| ==> roots[i].node == selection[i].node && roots[i].path == selection[i].path)
    && (forall i :: 0 <= i < |roots| ==> SegmentOk(roots[i].wire) && WireNamed(roots, i, lower))
    && (forall i, j :: 0 <= i < j < |roots| ==> Lower(lower, roots[i].wire) != Lower(lower, roots[j].wire))
  }

  /** The totals of a tree do not depend on what its paths are called. */
  lemma {:induction false} TotalsIgnorePaths(s: Stats, n: Node, relative: Path, source: Path, relative': Path, source': Path)
    ensures After(s, Preorder(n, relative, source)) == After(s, Preorder(n, relative', source'))
    decreases n, 1
  {
    var visit, visit' := VisitOf(n, relative, source), VisitOf(n, relative', source');
    AfterOne(s, visit);
    AfterOne(s, visit');
    if n.DirNode? {
      AfterConcat(s, [visit], PreorderAll(n.children, relative, source));
      AfterConcat(s, [visit'], PreorderAll(n.children, relative', source'));
      TotalsIgnorePathsBelow(After(s, [visit]), n.children, relative, source, relative', source');
    } else {
      assert Preorder(n, relative, source) == [visit] && Preorder(n, relative', source') == [visit'];
    }
  }

  lemma {:induction false} TotalsIgnorePathsBelow(s: Stats, children: seq<Node>, relative: Path, source: Path, relative': Path, source': Path)
    ensures After(s, PreorderAll(children, relative, source)) == After(s, PreorderAll(children, relative', source'))
    decreases children, 0
  {
    if children != [] {
      var c, rest := children[0], children[1..];
      var first, first' := Preorder(c, relative + [c.name], source + [c.name]), Preorder(c, relative' + [c.name], source' + [c.name]);
      TotalsIgnorePaths(s, c, relative + [c.name], source + [c.name], relative' + [c.name], source' + [c.name]);
      TotalsIgnorePathsBelow(After(s, first), rest, relative, source, relative', source');
      AfterConcat(s, first, PreorderAll(rest, relative, source));
      AfterConcat(s, first', PreorderAll(rest, relative', source'));
    }
  }

  /** The visits of the selection under the names its roots have on disk. */
  function SelectedVisits(selection: seq<Selected>): seq<Visit> {
    if selection == [] then []
    else Preorder(selection[0].node, [selection[0].node.name], selection[0].path) + SelectedVisits(selection[1..])
  }

  lemma {:induction false} PlanKeepsTotals(s: Stats, roots: seq<Root>, selection: seq<Selected>)
    requires |roots| == |selection| && forall i :: 0 <= i < |roots| ==> roots[i].node == selection[i].node
    ensures After(s, RootVisits(roots)) == After(s, SelectedVisits(selection))
    decreases |roots|
  {
    if roots != [] {
      var r, q := roots[0], selection[0];
      var first, first' := Preorder(r.node, [r.wire], r.path), Preorder(q.node, [q.node.name], q.path);
      TotalsIgnorePaths(s, r.node, [r.wire], r.path, [q.node.name], q.path);
      PlanKeepsTotals(After(s, first), roots[1..], selection[1..]);
      AfterConcat(s, first, RootVisits(roots[1..]));
      AfterConcat(s, first', SelectedVisits(selection[1..]));
    }
  }

  /** The reserved names are those of the roots so far. */
  ghost predicate Reserved(roots: seq<Root>, lower: Casing, used: set<string>) {
    && (forall r <- roots :: Lower(lower, r.wire) in used)
    && (forall x <- used :: exists i :: 0 <= i < |roots| && Lower(lower, roots[i].wire) == x)
  }

  lemma PlansOn(roots: seq<Root>, selection: seq<Selected>, lower: Casing, used: set<string>, root: Root, s: Selected)
    requires Plans(roots, selection, lower) && Reserved(roots, lower, used)
    requires root.node == s.node && root.path == s.path && SegmentOk(root.wire) && Lower(lower, root.wire) !in used
    requires WireNamed(roots + [root], |roots|, lower)
    ensures Plans(roots + [root], selection + [s], lower)
  {
    var all := roots + [root];
    forall i, j | 0 <= i < j < |all|
      ensures Lower(lower, all[i].wire) != Lower(lower, all[j].wire)
    {
      assert all[i] in roots;
    }
    forall i | 0 <= i < |all|
      ensures SegmentOk(all[i].wire) && WireNamed(all, i, lower)
    {
      if i < |roots| {
        WireStaysNamed(roots, root, i, lower);
      }
    }
  }

  lemma NewWireNamed(roots: seq<Root>, lower: Casing, used: set<string>, root: Root, n: nat)
    requires Reserved(roots, lower, used)
    requires var base := Sanitize(root.node.name);
             if Lower(lower, base) !in used then root.wire == base
             else FirstFree(lower, base, root.node.DirNode?, used, root.wire, n)
    ensures WireNamed(roots + [root], |roots|, lower)
    ensures Reserved(roots + [root], lower, used + {Lower(lower, root.wire)})
  {
    var all, base := roots + [root], Sanitize(root.node.name);
    forall x | x in used
      ensures exists i :: 0 <= i < |roots| && Lower(lower, all[i].wire) == x
    {
      var i :| 0 <= i < |roots| && Lower(lower, roots[i].wire) == x;
      assert all[i] == roots[i];
    }
    assert all[|roots|] == root;
  }

  lemma OneMore(selection: seq<Selected>, i: nat)
    requires i < |selection|
    ensures selection[..i + 1] == selection[..i] + [selection[i]]
  {
  }

  lemma NothingPlanned(lower: Casing)
    ensures Plans([], [], lower) && Reserved([], lower, {})
  {
  }

  /** One root more. */
  method NameRoot(names: NameReservation, s: Selected, ghost roots: seq<Root>, ghost before: seq<Selected>) returns (root: Root)
    requires LowerCases(names.lower) && |names.used| < MAX_SUFFIX
    requires Plans(roots, before, names.lower) && Reserved(roots, names.lower, names.used)
    modifies names
    ensures |names.used| <= |old(names.used)| + 1
    ensures Plans(roots + [root], before + [s], names.lower) && Reserved(roots + [root], names.lower, names.used)
  {
    ghost var used := names.used;
    var wire, n := names.Reserve(s.node.name, s.node.DirNode?);
    root := Root(s.node, s.path, wire.value);
    NewWireNamed(roots, names.lower, used, root, n);
    PlansOn(roots, before, names.lower, used, root, s);
  }

  /** Gives the roots, in the order of the selection, wire names that differ even up to letter case. */
  method NameRoots(selection: seq<Selected>, lower: Casing) returns (roots: seq<Root>)
    requires LowerCases(lower) && |selection| < MAX_SUFFIX
    ensures Plans(roots, selection, lower)
  {
    roots := [];
    var names := new NameReservation(lower, {});
    assert names.used == {} && selection[..0] == [];
    NothingPlanned(lower);
    for i := 0 to |selection|
      invariant names.lower == lower && fresh(names) && |names.used| <= i
      invariant Plans(roots, selection[..i], lower)
      invariant Reserved(roots, lower, names.used)
    {
      var root := NameRoot(names, selection[i], roots, selection[..i]);
      OneMore(selection, i);
      roots := roots + [root];
    }
    assert selection[..|selection|] == selection;
  }

  /** Counts the selection; it is refused when empty, not of plain files and directories, or too large. */
  method CountSelection(selection: seq<Selected>) returns (r: Option<Stats>)
    ensures var total := Totals(SelectedVisits(selection));
            if selection != [] && (forall s <- selection :: Plain(s.node)) && Fits(total) && total.bytes <= MAX_WIRE_INTEGER
            then r == Some(total) else r == None
  {
    if selection == [] { return None; }
    var now := Stats(0, 0, 0);
    assert selection[0..] == selection;
    for i := 0 to |selection|
      invariant Fits(now) && forall j :: 0 <= j < i ==> Plain(selection[j].node)
      invariant After(now, SelectedVisits(selection[i..])) == Totals(SelectedVisits(selection))
    {
      var s := selection[i];
      assert selection[i..][0] == s && selection[i..][1..] == selection[i + 1..];
      AfterConcat(now, Preorder(s.node, [s.node.name], s.path), SelectedVisits(selection[i + 1..]));
      var counted := CountOutbound(s.node, now, [s.node.name], s.path);
      if counted.None? { return None; }
      now := counted.value;
    }
    assert selection[|selection|..] == [];
    if now.bytes > MAX_WIRE_INTEGER { return None; }
    return Some(now);
  }

  lemma NothingYet(writes: nat -> bool)
    ensures Records(Output([], [], Stats(0, 0, 0)), []) && Goes([], writes)
  {
  }

  method WriteRoots(roots: seq<Root>, writes: nat -> bool) returns (r: Option<Output>)
    ensures r.Some? ==> Records(r.value, RootVisits(roots)) && Goes(RootVisits(roots), writes)
    ensures r.None? ==> !(forall root <- roots :: Plain(root.node)) || !Goes(RootVisits(roots), writes)
  {
    var now := Output([], [], Stats(0, 0, 0));
    ghost var done := [];
    NothingYet(writes);
    assert roots[0..] == roots && [] + RootVisits(roots) == RootVisits(roots);
    for i := 0 to |roots|
      invariant Records(now, done) && Goes(done, writes)
      invariant done + RootVisits(roots[i..]) == RootVisits(roots)
    {
      var root := roots[i];
      ghost var next, later := Preorder(root.node, [root.wire], root.path), RootVisits(roots[i + 1..]);
      assert roots[i..][0] == root && roots[i..][1..] == roots[i + 1..];
      assert done + (next + later) == done + next + later;
      var written := WriteOutbound(root.node, [root.wire], root.path, now, writes, done);
      if written.None? {
        if Goes(done + next + later, writes) {
          GoesPrefix(done + next, later, writes);
        }
        return None;
      }
      now := written.value;
      done := done + next;
    }
    assert roots[|roots|..] == [] && done + [] == done;
    return Some(now);
  }

  /** What was written, and everything an offer promises about it. */
  ghost predicate Offered(o: Output, visits: seq<Visit>, roots: seq<Root>) {
    && Records(o, visits) && Distinct(visits) && ParentsFirst(visits, [])
    && forall v <- visits :: exists i :: 0 <= i < |roots| && Under(v, roots[i])
  }

  /**
   The whole offer, over trees that do not change meanwhile: the two traversals agree, so
   the writing one is never reported as a changed source, and what is written is in
   preorder with distinct paths, directories before their contents, and source `i` where
   entry `i` lies.
   */
  method PrepareOffer(selection: seq<Selected>, lower: Casing, writes: nat -> bool)
    returns (r: Option<Output>, changed: bool, roots: seq<Root>)
    requires LowerCases(lower) && |selection| < MAX_SUFFIX
    requires forall s <- selection :: WellNamed(s.node)
    ensures !changed && Plans(roots, selection, lower)
    ensures r.Some? ==> Offered(r.value, RootVisits(roots), roots)
    ensures r.Some? <==>
            && selection != [] && (forall s <- selection :: Plain(s.node)) && Goes(RootVisits(roots), writes)
            && Totals(RootVisits(roots)).bytes <= MAX_WIRE_INTEGER
  {
    r, changed := None, false;
    roots := NameRoots(selection, lower);
    PlanKeepsTotals(Stats(0, 0, 0), roots, selection);
    var counted := CountSelection(selection);
    if counted.None? { return; }
    r := WriteRoots(roots, writes);
    if r.None? { return; }
    changed := r.value.stats != counted.value;
    OfferedPathsDiffer(roots);
    OfferedParentsComeFirst(roots);
    EveryVisitHasItsRoot(roots);
  }
}
