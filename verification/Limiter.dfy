/**
 The per-peer connection limiter: a sliding window of grants, a count of live leases, and
 a bounded table that forgets idle peers.  It is compared with the limiter that never
 forgets anybody.
 */
module Limiter {
  import opened Optional

  type Peer = nat   // an IP address

  const MAX_PER_PEER: nat := 8
  const MAX_PER_WINDOW: nat := 30
  const MAX_ENTRIES: nat := 1024
  const WINDOW: nat := 60_000_000_000   // sixty seconds in nanoseconds

  datatype PeerState = PeerState(active: nat, attempts: seq<nat>, lastSeen: nat)

  type Table = map<Peer, PeerState>

  function Elapsed(now: nat, since: nat): nat {
    if now >= since then now - since else 0
  }

  /** Attempts that left the window are dropped from the front. */
  function Prune(attempts: seq<nat>, now: nat): seq<nat> {
    if attempts != [] && Elapsed(now, attempts[0]) >= WINDOW then Prune(attempts[1..], now) else attempts
  }

  /** What is pruned is a prefix, and all of it has left the window. */
  lemma {:induction false} PruneDropsExpired(attempts: seq<nat>, now: nat)
    ensures var r := Prune(attempts, now);
            && |r| <= |attempts| && r == attempts[|attempts| - |r|..]
            && (forall i :: 0 <= i < |attempts| - |r| ==> attempts[i] + WINDOW <= now)
  {
    if attempts != [] && Elapsed(now, attempts[0]) >= WINDOW {
      PruneDropsExpired(attempts[1..], now);
      var r := Prune(attempts, now);
      forall i | 0 <= i < |attempts| - |r|
        ensures attempts[i] + WINDOW <= now
      {
        if i > 0 { assert attempts[1..][i - 1] == attempts[i]; }
      }
    }
  }

  predicate Keeps(s: PeerState, now: nat) {
    s.active > 0 || Elapsed(now, s.lastSeen) < WINDOW
  }

  function Evict(t: Table, now: nat): Table {
    map p | p in t && Keeps(t[p], now) :: t[p]
  }

  predicate Grants(s: PeerState) {
    s.active < MAX_PER_PEER && |s.attempts| < MAX_PER_WINDOW
  }

  function Find(t: Table, peer: Peer): Option<PeerState> {
    if peer in t then Some(t[peer]) else None
  }

  /** A peer's state as an attempt finds it. */
  function Arrive(found: Option<PeerState>, now: nat): PeerState {
    var s := if found.Some? then found.value else PeerState(0, [], now);
    PeerState(s.active, Prune(s.attempts, now), now)
  }

  function Decide(s: PeerState, now: nat): PeerState {
    if Grants(s) then PeerState(s.active + 1, s.attempts + [now], now) else s
  }

  datatype Verdict = Granted | Limited | TableFull

  /** The limiter that never evicts and has room for everybody. */
  function TryForever(t: Table, peer: Peer, now: nat): (Table, Verdict) {
    var s := Arrive(Find(t, peer), now);
    (t[peer := Decide(s, now)], if Grants(s) then Granted else Limited)
  }

  function Room(t: Table, now: nat): Table {
    if |t| >= MAX_ENTRIES then Evict(t, now) else t
  }

  function TryAcquire(t: Table, peer: Peer, now: nat): (Table, Verdict) {
    var t1 := Room(t, now);
    if |t1| >= MAX_ENTRIES && peer !in t1 then (t1, TableFull) else TryForever(t1, peer, now)
  }

  function Release(t: Table, peer: Peer): Table {
    if peer in t then t[peer := t[peer].(active := if t[peer].active > 0 then t[peer].active - 1 else 0)] else t
  }

  // ---------------------------------------------------------------------------
  // Runs
  // ---------------------------------------------------------------------------

  datatype Event = Attempt(peer: Peer, now: nat) | LeaseDropped(peer: Peer)

  /**
   The limiter, the limiter that never forgets, and what an observer of both saw: the live
   leases, the times of all grants, the time of each peer's last attempt that was decided,
   and the clock.  The reference is not asked about attempts that found the table full.
   */
  datatype Run = Run(table: Table, forever: Table,
                     live: map<Peer, nat>, grants: map<Peer, seq<nat>>, asked: map<Peer, nat>, clock: nat)

  function Leases(r: Run, p: Peer): nat { if p in r.live then r.live[p] else 0 }

  function Times(r: Run, p: Peer): seq<nat> { if p in r.grants then r.grants[p] else [] }

  function LastAsked(r: Run, p: Peer): Option<nat> { if p in r.asked then Some(r.asked[p]) else None }

  const START := Run(map[], map[], map[], map[], map[], 0)

  /** The clock does not go back, and only a lease that exists is dropped. */
  predicate Possible(r: Run, e: Event) {
    match e
    case Attempt(_, now) => r.clock <= now
    case LeaseDropped(p) => Leases(r, p) > 0
  }

  function Step(r: Run, e: Event): Run {
    match e
    case Attempt(p, now) =>
      var (table, verdict) := TryAcquire(r.table, p, now);
      if verdict.TableFull? then r.(table := table, clock := now)
      else
        r.(table := table, forever := TryForever(r.forever, p, now).0, asked := r.asked[p := now], clock := now,
           live := if verdict.Granted? then r.live[p := Leases(r, p) + 1] else r.live,
           grants := if verdict.Granted? then r.grants[p := Times(r, p) + [now]] else r.grants)
    case LeaseDropped(p) =>
      r.(table := Release(r.table, p), forever := Release(r.forever, p),
         live := r.live[p := if Leases(r, p) > 0 then Leases(r, p) - 1 else 0])
  }

  predicate PossibleRun(r: Run, events: seq<Event>)
    decreases |events|
  {
    events == [] || (Possible(r, events[0]) && PossibleRun(Step(r, events[0]), events[1..]))
  }

  function RunAll(r: Run, events: seq<Event>): Run
    decreases |events|
  {
    if events == [] then r else RunAll(Step(r, events[0]), events[1..])
  }

  // ---------------------------------------------------------------------------
  // What every step keeps
  // ---------------------------------------------------------------------------

  predicate UpTo(g: seq<nat>, now: nat) {
    forall i :: 0 <= i < |g| ==> g[i] <= now
  }

  /** Of any thirty-one of these times two are sixty seconds apart: no window holds more than thirty. */
  predicate Spaced(g: seq<nat>) {
    forall i, j :: 0 <= i && i + MAX_PER_WINDOW <= j < |g| ==> g[i] + WINDOW <= g[j]
  }

  predicate Ordered(g: seq<nat>) {
    forall i, j :: 0 <= i <= j < |g| ==> g[i] <= g[j]
  }

  predicate Expired(g: seq<nat>, now: nat) {
    forall i :: 0 <= i < |g| ==> g[i] + WINDOW <= now
  }

  /** A known peer: its count is its live leases and its attempts are the grants still in the window. */
  predicate Known(s: PeerState, leases: nat, g: seq<nat>, clock: nat) {
    && s.active == leases <= MAX_PER_PEER
    && s.lastSeen <= clock && UpTo(g, s.lastSeen)
    && |s.attempts| <= |g| && s.attempts == g[|g| - |s.attempts|..] && |s.attempts| <= MAX_PER_WINDOW
    && Expired(g[..|g| - |s.attempts|], s.lastSeen)
  }

  /** Everything the run knows about one peer. */
  datatype View = View(table: Option<PeerState>, forever: Option<PeerState>, leases: nat, times: seq<nat>, asked: Option<nat>)

  function ViewOf(r: Run, p: Peer): View {
    View(Find(r.table, p), Find(r.forever, p), Leases(r, p), Times(r, p), LastAsked(r, p))
  }

  predicate ViewOk(v: View, clock: nat) {
    && Spaced(v.times) && Ordered(v.times)
    && match v.table
       case Some(s) => Known(s, v.leases, v.times, clock) && v.forever == v.table && v.asked == Some(s.lastSeen)
       case None =>
         && v.leases == 0 && Expired(v.times, clock) && (v.asked.Some? ==> v.asked.value + WINDOW <= clock)
         && (v.forever.Some? ==> v.forever.value.active == 0 && Expired(v.forever.value.attempts, clock))
  }

  ghost predicate Inv(r: Run) {
    |r.table| <= MAX_ENTRIES && forall p: Peer :: ViewOk(ViewOf(r, p), r.clock)
  }

  lemma {:induction false} ExpiredPrunesToNothing(attempts: seq<nat>, now: nat)
    requires Expired(attempts, now)
    ensures Prune(attempts, now) == []
  {
    if attempts != [] {
      ExpiredPrunesToNothing(attempts[1..], now);
    }
  }

  /** What is left of a peer's view when the table makes room. */
  function Forget(v: View, full: bool, now: nat): View {
    if full && v.table.Some? && !Keeps(v.table.value, now) then v.(table := None) else v
  }

  /** Forgetting idle peers does not lose anything a later attempt could depend on. */
  lemma ForgetKeeps(v: View, full: bool, clock: nat, now: nat)
    requires ViewOk(v, clock) && clock <= now
    ensures ViewOk(Forget(v, full, now), now)
  {
    if v.table.Some? && !Keeps(v.table.value, now) {
      var g, s := v.times, v.table.value;
      assert forall i :: 0 <= i < |s.attempts| ==> s.attempts[i] == g[|g| - |s.attempts| + i];
    }
  }

  lemma PruneKnown(s: PeerState, leases: nat, g: seq<nat>, now: nat)
    requires Known(s, leases, g, now)
    ensures Known(PeerState(s.active, Prune(s.attempts, now), now), leases, g, now)
  {
    var n, kept := |g| - |s.attempts|, Prune(s.attempts, now);
    PruneDropsExpired(s.attempts, now);
    forall i | 0 <= i < |g| - |kept|
      ensures g[i] + WINDOW <= now
    {
      if i < n {
        assert g[..n][i] == g[i];
      } else {
        assert s.attempts[i - n] == g[i];
      }
    }
  }

  /** An attempt finds a forgotten peer in the state the never-forgetting limiter has it in. */
  lemma ArriveKnown(v: View, now: nat)
    requires ViewOk(v, now)
    ensures Known(Arrive(v.table, now), v.leases, v.times, now)
    ensures Arrive(v.forever, now) == Arrive(v.table, now)
  {
    if v.table.Some? {
      PruneKnown(v.table.value, v.leases, v.times, now);
    } else if v.forever.Some? {
      ExpiredPrunesToNothing(v.forever.value.attempts, now);
    }
  }

  lemma GrantKnown(s: PeerState, leases: nat, g: seq<nat>, now: nat)
    requires Known(s, leases, g, now) && s.lastSeen == now && Grants(s) && Spaced(g) && Ordered(g)
    ensures Known(Decide(s, now), leases + 1, g + [now], now) && Spaced(g + [now]) && Ordered(g + [now])
  {
    var g1, n := g + [now], |g| - |s.attempts|;
    assert g1[..n] == g[..n] && g1[n..] == g[n..] + [now];
    forall i, j | 0 <= i && i + MAX_PER_WINDOW <= j < |g1|
      ensures g1[i] + WINDOW <= g1[j]
    {
      if j == |g| {
        assert g[..n][i] == g[i];
      }
    }
  }

  /** A peer's view after a decision about it. */
  function Asked(v: View, now: nat): View {
    var s := Arrive(v.table, now);
    View(Some(Decide(s, now)), Some(Decide(Arrive(v.forever, now), now)),
         v.leases + (if Grants(s) then 1 else 0), if Grants(s) then v.times + [now] else v.times, Some(now))
  }

  /** The decision keeps the peer's count, its window, and the agreement of the two limiters. */
  lemma AskedKeeps(v: View, now: nat)
    requires ViewOk(v, now)
    ensures ViewOk(Asked(v, now), now)
  {
    ArriveKnown(v, now);
    var s := Arrive(v.table, now);
    if Grants(s) {
      GrantKnown(s, v.leases, v.times, now);
    }
  }

  lemma RoomView(r: Run, q: Peer, now: nat)
    ensures Find(Room(r.table, now), q) == Forget(ViewOf(r, q), |r.table| >= MAX_ENTRIES, now).table
  {
  }

  /** How an attempt of `p` changes what is known about any peer `q`. */
  lemma AttemptView(r: Run, p: Peer, now: nat, q: Peer)
    ensures var v := Forget(ViewOf(r, q), |r.table| >= MAX_ENTRIES, now);
            ViewOf(Step(r, Attempt(p, now)), q)
            == if q == p && !TryAcquire(r.table, p, now).1.TableFull? then Asked(v, now) else v
  {
    RoomView(r, q, now);
    var t1 := Room(r.table, now);
    if q == p {
      assert Find(TryForever(t1, p, now).0, p) == Some(Decide(Arrive(Find(t1, p), now), now));
    } else {
      assert Find(TryForever(t1, p, now).0, q) == Find(t1, q);
    }
  }

  lemma AttemptKeeps(r: Run, p: Peer, now: nat, q: Peer)
    requires ViewOk(ViewOf(r, q), r.clock) && r.clock <= now
    ensures ViewOk(ViewOf(Step(r, Attempt(p, now)), q), now)
  {
    var v := Forget(ViewOf(r, q), |r.table| >= MAX_ENTRIES, now);
    ForgetKeeps(ViewOf(r, q), |r.table| >= MAX_ENTRIES, r.clock, now);
    AskedKeeps(v, now);
    AttemptView(r, p, now, q);
  }

  function Lowered(found: Option<PeerState>): Option<PeerState> {
    if found.None? then None
    else Some(found.value.(active := if found.value.active > 0 then found.value.active - 1 else 0))
  }

  /** A peer's view after one of its leases was dropped. */
  function Dropped(v: View): View
    requires v.leases > 0
  {
    View(Lowered(v.table), Lowered(v.forever), v.leases - 1, v.times, v.asked)
  }

  lemma DroppedKeeps(v: View, clock: nat)
    requires ViewOk(v, clock) && v.leases > 0
    ensures ViewOk(Dropped(v), clock)
  {
  }

  lemma DropView(r: Run, p: Peer, q: Peer)
    requires Leases(r, p) > 0
    ensures ViewOf(Step(r, LeaseDropped(p)), q) == if q == p then Dropped(ViewOf(r, p)) else ViewOf(r, q)
  {
    assert Find(Release(r.table, p), q) == if q == p then Lowered(Find(r.table, p)) else Find(r.table, q);
    assert Find(Release(r.forever, p), q) == if q == p then Lowered(Find(r.forever, p)) else Find(r.forever, q);
  }

  lemma DropKeeps(r: Run, p: Peer, q: Peer)
    requires ViewOk(ViewOf(r, q), r.clock) && Leases(r, p) > 0
    ensures ViewOk(ViewOf(Step(r, LeaseDropped(p)), q), r.clock)
  {
    DropView(r, p, q);
    if q == p {
      DroppedKeeps(ViewOf(r, p), r.clock);
    }
  }

  lemma RoomBound(t: Table, now: nat)
    ensures |Room(t, now)| <= |t|
  {
    assert Evict(t, now).Keys <= t.Keys;
    Smaller(Evict(t, now).Keys, t.Keys);
  }

  lemma {:induction false} Smaller(a: set<Peer>, b: set<Peer>)
    requires a <= b
    ensures |a| <= |b|
  {
    assert b == a + (b - a);
  }

  lemma StepKeeps(r: Run, e: Event)
    requires Inv(r) && Possible(r, e)
    ensures Inv(Step(r, e))
  {
    var r1 := Step(r, e);
    forall q: Peer
      ensures ViewOk(ViewOf(r1, q), r1.clock)
    {
      assert ViewOk(ViewOf(r, q), r.clock);
      match e {
        case Attempt(p, now) => AttemptKeeps(r, p, now, q);
        case LeaseDropped(p) => DropKeeps(r, p, q);
      }
    }
    if e.Attempt? {
      RoomBound(r.table, e.now);
    }
  }

  lemma StartIsOk()
    ensures Inv(START)
  {
  }

  lemma ForgottenArrives(v: View, full: bool, clock: nat, now: nat)
    requires ViewOk(v, clock) && clock <= now
    ensures Arrive(v.forever, now) == Arrive(Forget(v, full, now).table, now)
  {
    ForgetKeeps(v, full, clock, now);
    ArriveKnown(Forget(v, full, now), now);
  }

  /** The table's verdict is the never-forgetting limiter's, unless it found no room. */
  lemma VerdictsAgree(r: Run, p: Peer, now: nat)
    requires Inv(r) && r.clock <= now
    ensures var verdict := TryAcquire(r.table, p, now).1;
            verdict.TableFull? || verdict == TryForever(r.forever, p, now).1
  {
    assert ViewOk(ViewOf(r, p), r.clock);
    ForgottenArrives(ViewOf(r, p), |r.table| >= MAX_ENTRIES, r.clock, now);
    RoomView(r, p, now);
  }

  /**
   On every run with a clock that does not go back: the table stays within its bound; a
   peer has at most eight live leases and the stored count is their number; no sixty
   seconds contain more than thirty of its grants; and forgetting peers never changed a
   decision except for want of room.
   */
  lemma {:induction false} EveryRunIsLimited(r: Run, events: seq<Event>, p: Peer, now: nat)
    requires Inv(r) && PossibleRun(r, events) && RunAll(r, events).clock <= now
    ensures var last := RunAll(r, events);
            && Inv(last) && |last.table| <= MAX_ENTRIES
            && Leases(last, p) <= MAX_PER_PEER
            && Leases(last, p) == (if p in last.table then last.table[p].active else 0)
            && Spaced(Times(last, p))
            && var verdict := TryAcquire(last.table, p, now).1;
               verdict.TableFull? || verdict == TryForever(last.forever, p, now).1
    decreases |events|
  {
    if events == [] {
      assert ViewOk(ViewOf(r, p), r.clock);
      VerdictsAgree(r, p, now);
    } else {
      StepKeeps(r, events[0]);
      EveryRunIsLimited(Step(r, events[0]), events[1..], p, now);
    }
  }

  /** From the empty table on. */
  lemma EveryPeerIsLimited(events: seq<Event>, p: Peer, now: nat)
    requires PossibleRun(START, events) && RunAll(START, events).clock <= now
    ensures var last := RunAll(START, events);
            && |last.table| <= MAX_ENTRIES && Leases(last, p) <= MAX_PER_PEER
            && Leases(last, p) == (if p in last.table then last.table[p].active else 0)
            && (forall i :: 0 <= i && i + MAX_PER_WINDOW < |Times(last, p)| ==>
                  Times(last, p)[i] + WINDOW <= Times(last, p)[i + MAX_PER_WINDOW])
            && var verdict := TryAcquire(last.table, p, now).1;
               verdict.TableFull? || verdict == TryForever(last.forever, p, now).1
  {
    StartIsOk();
    EveryRunIsLimited(START, events, p, now);
  }

  // ---------------------------------------------------------------------------
  // The verdict from the history alone
  // ---------------------------------------------------------------------------

  /** The indices of the grants of the last sixty seconds. */
  function Recent(g: seq<nat>, now: nat): set<nat> {
    set i | 0 <= i < |g| && g[i] + 60_000_000_000 > now
  }

  /** The peers that hold a lease or asked within the last sixty seconds. */
  function Occupants(r: Run, now: nat): set<Peer> {
    set p | p in r.asked && (Leases(r, p) > 0 || r.asked[p] + 60_000_000_000 > now)
  }

  lemma {:induction false} RangeSize(a: set<nat>, lo: nat, hi: nat)
    requires lo <= hi && forall i :: i in a <==> lo <= i < hi
    ensures |a| == hi - lo
    decreases hi - lo
  {
    if lo < hi {
      RangeSize(a - {hi - 1}, lo, hi - 1);
    }
  }

  lemma {:induction false} PruneLeavesRecentFirst(attempts: seq<nat>, now: nat)
    ensures var r := Prune(attempts, now); r != [] ==> Elapsed(now, r[0]) < WINDOW
  {
    if attempts != [] && Elapsed(now, attempts[0]) >= WINDOW {
      PruneLeavesRecentFirst(attempts[1..], now);
    }
  }

  /** An attempt finds as many attempts stored as there were grants within the window. */
  lemma ArriveCounts(v: View, now: nat)
    requires ViewOk(v, now)
    ensures |Arrive(v.table, now).attempts| == |Recent(v.times, now)|
    ensures Arrive(v.table, now).active == v.leases
  {
    ArriveKnown(v, now);
    var g, s := v.times, Arrive(v.table, now);
    var n := |g| - |s.attempts|;
    if v.table.Some? {
      PruneLeavesRecentFirst(v.table.value.attempts, now);
    }
    forall i | 0 <= i < |g|
      ensures (g[i] + 60_000_000_000 > now) == (n <= i)
    {
      if i < n {
        assert g[..n][i] == g[i];
      } else {
        assert s.attempts[0] == g[n];
      }
    }
    RangeSize(Recent(g, now), n, |g|);
  }

  /** Making room in a full table leaves exactly the occupants. */
  lemma RoomLeavesOccupants(r: Run, now: nat)
    requires Inv(r) && r.clock <= now
    ensures Occupants(r, now) <= r.table.Keys
    ensures |r.table| >= MAX_ENTRIES ==> Room(r.table, now).Keys == Occupants(r, now)
  {
    forall q: Peer
      ensures q in Occupants(r, now) <==> q in r.table && Keeps(r.table[q], now)
    {
      assert ViewOk(ViewOf(r, q), r.clock);
    }
  }

  /**
   The verdict follows from what an observer saw.  A stranger to a server with 1024
   occupants finds the table full; anybody else is let in exactly with fewer than eight
   live leases and fewer than thirty grants in the last sixty seconds.
   */
  lemma VerdictIff(r: Run, p: Peer, now: nat)
    requires Inv(r) && r.clock <= now
    ensures var verdict := TryAcquire(r.table, p, now).1;
            && (verdict.TableFull? <==> |Occupants(r, now)| >= 1024 && p !in Occupants(r, now))
            && (!verdict.TableFull? ==>
                  (verdict.Granted? <==> Leases(r, p) < 8 && |Recent(Times(r, p), now)| < 30))
  {
    assert ViewOk(ViewOf(r, p), r.clock);
    var full := |r.table| >= MAX_ENTRIES;
    RoomLeavesOccupants(r, now);
    Smaller(Occupants(r, now), r.table.Keys);
    assert |Room(r.table, now)| == |Room(r.table, now).Keys|;
    ForgetKeeps(ViewOf(r, p), full, r.clock, now);
    RoomView(r, p, now);
    ArriveCounts(Forget(ViewOf(r, p), full, now), now);
  }

  /** The same of every attempt of every run from the empty table. */
  lemma EveryVerdictIff(events: seq<Event>, p: Peer, now: nat)
    requires PossibleRun(START, events) && RunAll(START, events).clock <= now
    ensures var last := RunAll(START, events);
            var verdict := TryAcquire(last.table, p, now).1;
            && (verdict.TableFull? <==> |Occupants(last, now)| >= 1024 && p !in Occupants(last, now))
            && (!verdict.TableFull? ==>
                  (verdict.Granted? <==> Leases(last, p) < 8 && |Recent(Times(last, p), now)| < 30))
  {
    StartIsOk();
    EveryRunIsLimited(START, events, p, now);
    VerdictIff(RunAll(START, events), p, now);
  }

  // ---------------------------------------------------------------------------
  // The limiter as the shared object it is
  // ---------------------------------------------------------------------------

  class ConnectionLimiter {
    var peers: map<Peer, PeerState>

    constructor ()
      ensures peers == map[]
    {
      peers := map[];
    }

    /** Pops the attempts that left the window. */
    method PopExpired(attempts: seq<nat>, now: nat) returns (r: seq<nat>)
      ensures r == Prune(attempts, now)
    {
      r := attempts;
      while r != [] && Elapsed(now, r[0]) >= WINDOW
        invariant Prune(r, now) == Prune(attempts, now)
        decreases |r|
      {
        r := r[1..];
      }
    }

    method TryAcquirePeer(peer: Peer, now: nat) returns (verdict: Verdict)
      modifies this
      ensures (peers, verdict) == TryAcquire(old(peers), peer, now)
    {
      if |peers| >= MAX_ENTRIES {
        peers := map p | p in peers && (peers[p].active > 0 || Elapsed(now, peers[p].lastSeen) < WINDOW) :: peers[p];
        assert peers == Evict(old(peers), now);
        if |peers| >= MAX_ENTRIES && peer !in peers { return TableFull; }
      }
      verdict := AcquireIn(peer, now);
    }

    method AcquireIn(peer: Peer, now: nat) returns (verdict: Verdict)
      modifies this
      ensures (peers, verdict) == TryForever(old(peers), peer, now)
    {
      var state := if peer in peers then peers[peer] else PeerState(0, [], now);
      var attempts := PopExpired(state.attempts, now);
      state := PeerState(state.active, attempts, now);
      if state.active >= MAX_PER_PEER || |state.attempts| >= MAX_PER_WINDOW {
        peers := peers[peer := state];
        return Limited;
      }
      state := state.(active := state.active + 1);
      state := state.(attempts := state.attempts + [now]);
      peers := peers[peer := state];
      return Granted;
    }

    /** A lease goes out of scope. */
    method DropLease(peer: Peer)
      modifies this
      ensures peers == Release(old(peers), peer)
    {
      if peer in peers {
        var state := peers[peer];
        if state.active > 0 {
          peers := peers[peer := state.(active := state.active - 1)];
        }
      }
    }
  }
}
