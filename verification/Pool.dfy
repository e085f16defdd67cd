/** The shared-memory connection pool seen by one worker (src/db.c, lines 98-327 and 655-662). */
module Pools {
  import opened CStrings

  const MAX_CONN := 1000
  const HARD_TIMEOUT := 28800
  const DEFAULT_TIMEOUT := 60
  /** `in_use` is an unsigned 32-bit counter. */
  const WRAP := 0x1_0000_0000

  type Counter = n: nat | n < WRAP

  type Handle = nat

  /** The six fields a pooled connection is matched by. */
  datatype Key = Key(server: string, port: string, database: string, user: string, password: string, name: string)

  const NO_KEY := Key("", "", "", "", "", "")

  /** dbrelay_connection_t; a slot is free when its pid is 0. */
  datatype Slot = Slot(
    key: Key, timeout: int, accessed: int, inUse: Counter, pid: int, helper: int, sockPath: string, db: Option<Handle>)

  datatype Request = Request(key: Key, timeout: int, sockPath: string)

  predicate Live(c: Slot) { c.pid != 0 }

  predicate Unnamed(k: Key) { k.name == "" }

  function Increment(n: Counter): Counter { (n + 1) % WRAP }

  function Decrement(n: Counter): Counter { (n + WRAP - 1) % WRAP }

  /** The shared table and the handles passed to api->close so far. */
  datatype Store = Store(slots: seq<Slot>, closed: seq<Handle>)

  /** What the outside world answers to one allocation: getpid, time, tmpnam and api->connect. */
  datatype World = World(pid: int, now: int, path: Option<string>, db: Option<Handle>)

  // ---- the operations on the table -------------------------------------------------

  /** dbrelay_db_zero_connection; the database handle and the times are left as they are. */
  function Zeroed(c: Slot): Slot {
    c.(pid := 0, key := NO_KEY, inUse := 0)
  }

  /** dbrelay_db_populate_connection; without a socket name the slot stays free. */
  function Populated(r: Request, w: World): Slot {
    var blank := Slot(r.key, if r.timeout == 0 then DEFAULT_TIMEOUT else r.timeout, 0, 0, 0, 0, "", None);
    if Unnamed(r.key) then blank.(accessed := w.now, inUse := 1, pid := w.pid, db := w.db)
    else if r.sockPath == "" && w.path.None? then blank
    else blank.(accessed := w.now, inUse := 1, pid := w.pid,
                sockPath := if r.sockPath != "" then r.sockPath else w.path.value)
  }

  predicate Matches(c: Slot, r: Request) {
    && c.key.server == r.key.server && c.key.port == r.key.port && c.key.database == r.key.database
    && c.key.user == r.key.user && c.key.password == r.key.password && c.key.name == r.key.name
  }

  function FirstFree(slots: seq<Slot>, i: nat): (k: int)
    requires i <= |slots|
    ensures k == -1 <==> forall j :: i <= j < |slots| ==> Live(slots[j])
    ensures k != -1 ==> i <= k < |slots| && !Live(slots[k]) && forall j :: i <= j < k ==> Live(slots[j])
    decreases |slots| - i
  {
    if i == |slots| then -1 else if !Live(slots[i]) then i else FirstFree(slots, i + 1)
  }

  function FirstMatch(slots: seq<Slot>, r: Request, i: nat): (k: int)
    requires i <= |slots|
    ensures k == -1 <==> forall j :: i <= j < |slots| ==> !(Live(slots[j]) && Matches(slots[j], r))
    ensures k != -1 ==> i <= k < |slots| && Live(slots[k]) && Matches(slots[k], r) &&
                        forall j :: i <= j < k ==> !(Live(slots[j]) && Matches(slots[j], r))
    decreases |slots| - i
  {
    if i == |slots| then -1 else if Live(slots[i]) && Matches(slots[i], r) then i else FirstMatch(slots, r, i + 1)
  }

  function HandleSeq(h: Option<Handle>): seq<Handle> {
    if h.Some? then [h.value] else []
  }

  function Alloc(s: Store, r: Request, w: World): (Store, int) {
    var k := FirstFree(s.slots, 0);
    if k == -1 then (s.(closed := s.closed + (if Unnamed(r.key) then HandleSeq(w.db) else [])), -1)
    else (s.(slots := s.slots[k := Populated(r, w)]), k)
  }

  function Taken(c: Slot, now: int): Slot {
    c.(inUse := Increment(c.inUse), accessed := now)
  }

  function Find(s: Store, r: Request, now: int): (Store, int) {
    var k := FirstMatch(s.slots, r, 0);
    if k == -1 then (s, -1) else (s.(slots := s.slots[k := Taken(s.slots[k], now)]), k)
  }

  // ---- the sweep ----------------------------------------------------------------------

  /** The worker of an unnamed slot is dead; `gone` is the failure of kill(pid, 0). */
  predicate Dead(c: Slot, gone: bool) {
    Live(c) && Unnamed(c.key) && gone
  }

  predicate HardExpired(c: Slot, now: int) {
    Live(c) && c.accessed + HARD_TIMEOUT < now
  }

  predicate IdleExpired(c: Slot, now: int) {
    Live(c) && c.inUse == 0 && c.accessed + c.timeout < now
  }

  predicate Expires(c: Slot, now: int, gone: bool) {
    Dead(c, gone) || HardExpired(c, now) || IdleExpired(c, now)
  }

  function SweptSlot(c: Slot, now: int, gone: bool): Slot {
    if Expires(c, now, gone) then Zeroed(c) else c
  }

  /** The table after the first n slots have been visited. */
  function Swept(slots: seq<Slot>, now: int, gone: set<nat>, n: nat): (t: seq<Slot>)
    ensures |t| == |slots|
  {
    seq(|slots|, i requires 0 <= i < |slots| => if i < n then SweptSlot(slots[i], now, i in gone) else slots[i])
  }

  /** The handles closed on the way: those of expired slots whose worker is not dead. */
  function SweepCloses(slots: seq<Slot>, now: int, gone: set<nat>, n: nat): seq<Handle>
    requires n <= |slots|
  {
    if n == 0 then [] else
    var c := slots[n - 1];
    SweepCloses(slots, now, gone, n - 1) +
    (if Expires(c, now, n - 1 in gone) && !Dead(c, n - 1 in gone) then HandleSeq(c.db) else [])
  }

  function Sweep(s: Store, now: int, gone: set<nat>, n: nat): Store
    requires n <= |s.slots|
  {
    Store(Swept(s.slots, now, gone, n), s.closed + SweepCloses(s.slots, now, gone, n))
  }

  /** The end of a query: stamp the slot, drop one use, and close it when it has no name. */
  function Finished(s: Store, k: nat, now: int): Store
    requires k < |s.slots|
  {
    var c := s.slots[k].(accessed := now, inUse := Decrement(s.slots[k].inUse));
    if Unnamed(c.key) then Store(s.slots[k := Zeroed(c)], s.closed + HandleSeq(c.db))
    else s.(slots := s.slots[k := c])
  }

  datatype Visit = Visit(world: World, findNow: int, sweepNow: int, gone: set<nat>)

  /** Find or allocate, before the sweep. */
  function Acquire(s: Store, r: Request, v: Visit): (Store, int) {
    if Unnamed(r.key) then Alloc(s, r, v.world)
    else if Find(s, r, v.findNow).1 == -1 then Alloc(s, r, v.world)
    else Find(s, r, v.findNow)
  }

  function Get(s: Store, r: Request, v: Visit): (Store, int) {
    var a := Acquire(s, r, v);
    (Sweep(a.0, v.sweepNow, v.gone, |a.0.slots|), a.1)
  }

  // ---- the code -------------------------------------------------------------------------

  class Pool {
    /** The shared segment. */
    const connections: array<Slot>
    /** The handles passed to api->close, in order. */
    var closed: seq<Handle>

    constructor ()
      ensures connections.Length == 1000 && fresh(connections) && closed == []
      ensures forall i :: 0 <= i < 1000 ==> !Live(connections[i])
    {
      connections := new Slot[MAX_CONN](_ => Slot(NO_KEY, 0, 0, 0, 0, 0, "", None));
      closed := [];
    }

    ghost function State(): Store
      reads this, connections
    {
      Store(connections[..], closed)
    }

    method AllocConnection(r: Request, w: World) returns (slot: int)
      modifies this, connections
      ensures (State(), slot) == Alloc(old(State()), r, w)
    {
      slot := -1;
      var i := 0;
      while i < connections.Length
        invariant 0 <= i <= connections.Length && slot == -1
        invariant connections[..] == old(connections[..]) && closed == old(closed)
        invariant FirstFree(connections[..], 0) == FirstFree(connections[..], i)
      {
        if connections[i].pid == 0 {
          slot := i;
          break;
        }
        i := i + 1;
      }
      if slot == -1 {
        assert closed + [] == closed;
        if Unnamed(r.key) && w.db.Some? { closed := closed + [w.db.value]; }
        return;
      }
      connections[slot] := Populated(r, w);
    }

    method FindConnection(r: Request, now: int) returns (slot: int)
      modifies connections
      ensures (State(), slot) == Find(old(State()), r, now)
    {
      var i := 0;
      while i < connections.Length
        invariant 0 <= i <= connections.Length && connections[..] == old(connections[..])
        invariant FirstMatch(connections[..], r, 0) == FirstMatch(connections[..], r, i)
      {
        if connections[i].pid != 0 && Matches(connections[i], r) {
          connections[i] := connections[i].(inUse := Increment(connections[i].inUse));
          connections[i] := connections[i].(accessed := now);
          assert connections[..] == old(connections[..])[i := Taken(old(connections[..])[i], now)];
          return i;
        }
        i := i + 1;
      }
      return -1;
    }

    /** dbrelay_db_close_connection. */
    method CloseConnection(k: nat)
      requires k < connections.Length
      modifies this, connections
      ensures State() == Store(old(connections[..])[k := Zeroed(old(connections[k]))], old(closed) + HandleSeq(old(connections[k].db)))
    {
      if connections[k].db.Some? { closed := closed + [connections[k].db.value]; }
      connections[k] := Zeroed(connections[k]);
    }

    method CloseConnections(now: int, gone: set<nat>)
      modifies this, connections
      ensures State() == Sweep(old(State()), now, gone, connections.Length)
    {
      ghost var s := State();
      assert Sweep(s, now, gone, 0) == s;
      var i := 0;
      while i < connections.Length
        invariant 0 <= i <= connections.Length
        invariant State() == Sweep(s, now, gone, i)
      {
        SweepOne(i, now, i in gone, s, gone);
        i := i + 1;
      }
    }

    /** The body of the sweep loop. */
    method SweepOne(i: nat, now: int, dead: bool, ghost s: Store, ghost gone: set<nat>)
      requires i < connections.Length == |s.slots| && dead == (i in gone)
      requires State() == Sweep(s, now, gone, i)
      modifies this, connections
      ensures State() == Sweep(s, now, gone, i + 1)
    {
      ghost var c := s.slots[i];
      assert connections[i] == connections[..][i] == c;
      SweepStep(s, now, gone, i);
      if connections[i].pid != 0 && connections[i].key.name == "" && dead {
        connections[i] := Zeroed(connections[i]);
      }
      if connections[i].pid == 0 { return; }
      if connections[i].accessed + HARD_TIMEOUT < now {
        CloseConnection(i);
        return;
      }
      if connections[i].inUse != 0 { return; }
      if connections[i].accessed + connections[i].timeout < now { CloseConnection(i); }
    }

    /** dbrelay_db_free_connection behind the time stamp. */
    method FreeConnection(k: nat, now: int)
      requires k < connections.Length
      modifies this, connections
      ensures State() == Finished(old(State()), k, now)
    {
      connections[k] := connections[k].(accessed := now);
      connections[k] := connections[k].(inUse := Decrement(connections[k].inUse));
      if connections[k].key.name == "" { CloseConnection(k); }
    }

    method GetConnection(r: Request, v: Visit) returns (slot: int)
      modifies this, connections
      ensures (State(), slot) == Get(old(State()), r, v)
    {
      if r.key.name == "" {
        slot := AllocConnection(r, v.world);
      } else {
        slot := FindConnection(r, v.findNow);
        if slot == -1 { slot := AllocConnection(r, v.world); }
      }
      CloseConnections(v.sweepNow, v.gone);
    }

    /**
     * dbrelay_wait_for_connection: while the helper behind the slot does not answer, give the slot
     * back and try again.  `tries` holds what the world answers to the rounds; when it runs out the
     * caller is still waiting, and `done` is false.
     */
    method WaitForConnection(r: Request, tries: seq<(Visit, bool)>) returns (slot: int, done: bool)
      modifies this, connections
      ensures (State(), slot, done) == Wait(old(State()), r, tries)
    {
      slot := -1;
      var rounds := 0;
      assert tries[0..] == tries;
      while rounds < |tries|
        invariant 0 <= rounds <= |tries|
        invariant Wait(State(), r, tries[rounds..]) == Wait(old(State()), r, tries)
      {
        ghost var before := State();
        ghost var left := tries[rounds..];
        assert left[1..] == tries[rounds + 1..];
        slot := GetConnection(r, tries[rounds].0);
        if slot == -1 { return -1, true; }
        GetInRange(before, r, tries[rounds].0);
        if Unnamed(r.key) || tries[rounds].1 { return slot, true; }
        connections[slot] := connections[slot].(pid := 0);
        rounds := rounds + 1;
      }
      return -1, false;
    }
  }

  lemma GetInRange(s: Store, r: Request, v: Visit)
    ensures var g := Get(s, r, v); |g.0.slots| == |s.slots| && -1 <= g.1 < |s.slots|
  {
  }

  function Wait(s: Store, r: Request, tries: seq<(Visit, bool)>): (Store, int, bool)
    decreases |tries|
  {
    if tries == [] then (s, -1, false) else
    var g := Get(s, r, tries[0].0);
    GetInRange(s, r, tries[0].0);
    if g.1 == -1 || Unnamed(r.key) || tries[0].1 then (g.0, g.1, true)
    else Wait(g.0.(slots := g.0.slots[g.1 := g.0.slots[g.1].(pid := 0)]), r, tries[1..])
  }

  lemma SweepStep(s: Store, now: int, gone: set<nat>, i: nat)
    requires i < |s.slots|
    ensures var c, t := s.slots[i], Sweep(s, now, gone, i);
            && t.slots[i] == c
            && Sweep(s, now, gone, i + 1) ==
               Store(t.slots[i := SweptSlot(c, now, i in gone)],
                     t.closed + (if Expires(c, now, i in gone) && !Dead(c, i in gone) then HandleSeq(c.db) else []))
  {
    var t := Swept(s.slots, now, gone, i);
    assert Swept(s.slots, now, gone, i + 1) == t[i := SweptSlot(s.slots[i], now, i in gone)];
  }

  // ---- slot acquisition --------------------------------------------------------------------

  /** A socket name is at hand for a helper that has to be started. */
  predicate Nameable(r: Request, w: World) {
    w.pid != 0 && (Unnamed(r.key) || r.sockPath != "" || w.path.Some?)
  }

  /** The request gets no slot exactly when nothing matches and every slot was live before the sweep. */
  lemma RefusedIff(s: Store, r: Request, v: Visit)
    ensures Get(s, r, v).1 == -1 <==>
            && (forall i :: 0 <= i < |s.slots| ==> Live(s.slots[i]))
            && (forall i :: 0 <= i < |s.slots| && !Unnamed(r.key) ==> !Matches(s.slots[i], r))
  {
  }

  /** The slot a request gets is live, matches it and counts one more use; no other slot changes. */
  lemma AcquiredSlot(s: Store, r: Request, v: Visit)
    requires Nameable(r, v.world) && Acquire(s, r, v).1 != -1
    ensures var (s1, k) := Acquire(s, r, v);
            && 0 <= k < |s1.slots| && Live(s1.slots[k]) && s1.slots[k].key == r.key
            && (Unnamed(r.key) || !Live(s.slots[k]) ==> s1.slots[k].inUse == 1 && !Live(s.slots[k]))
            && (Live(s.slots[k]) ==>
                  s1.slots[k] == s.slots[k].(inUse := Increment(s.slots[k].inUse), accessed := v.findNow) && s.slots[k].key == r.key)
            && (!Live(s.slots[k]) ==>
                  && s1.slots[k].pid == v.world.pid && s1.slots[k].accessed == v.world.now
                  && s1.slots[k].timeout == (if r.timeout == 0 then 60 else r.timeout)
                  && s1.slots[k].db == (if Unnamed(r.key) then v.world.db else None)
                  && (!Unnamed(r.key) ==> s1.slots[k].sockPath == if r.sockPath != "" then r.sockPath else v.world.path.value))
            && (forall i :: 0 <= i < |s.slots| && i != k ==> s1.slots[i] == s.slots[i])
  {
  }

  /**
   * Its counter is at least 1 unless it wrapped, and then it survives the sweep that follows exactly
   * when it is neither hard-expired nor of a dead worker.
   */
  lemma AcquiredSurvivesIff(s: Store, r: Request, v: Visit)
    requires Nameable(r, v.world) && Acquire(s, r, v).1 != -1
    ensures var (s1, k) := Acquire(s, r, v);
            var now := if Unnamed(r.key) || Find(s, r, v.findNow).1 == -1 then v.world.now else v.findNow;
            && (s1.slots[k].inUse == 0 <==> Live(s.slots[k]) && s.slots[k].inUse == WRAP - 1)
            && (s1.slots[k].inUse >= 1 ==>
                  (Get(s, r, v).0.slots[k] == s1.slots[k] <==>
                   v.sweepNow <= now + HARD_TIMEOUT && !(Unnamed(r.key) && k in v.gone)))
  {
    AcquiredSlot(s, r, v);
  }

  /** The sweep frees exactly the dead, hard-expired and idle slots, keeps the others, and closes each handle it should. */
  lemma SweepExact(s: Store, now: int, gone: set<nat>, i: nat)
    requires i < |s.slots|
    ensures var c, d := s.slots[i], Sweep(s, now, gone, |s.slots|).slots[i];
            && (Live(c) && !Live(d) <==> Dead(c, i in gone) || HardExpired(c, now) || IdleExpired(c, now))
            && (Live(d) || !Live(c) ==> d == c)
            && (Live(c) && !Live(d) && !Dead(c, i in gone) && c.db.Some? ==>
                  c.db.value in Sweep(s, now, gone, |s.slots|).closed)
  {
    var c := s.slots[i];
    if Expires(c, now, i in gone) && !Dead(c, i in gone) && c.db.Some? { ClosesAll(s.slots, now, gone, i, |s.slots|); }
  }

  lemma {:induction false} ClosesAll(slots: seq<Slot>, now: int, gone: set<nat>, i: nat, n: nat)
    requires i < n <= |slots|
    requires var c := slots[i]; Expires(c, now, i in gone) && !Dead(c, i in gone) && c.db.Some?
    ensures slots[i].db.value in SweepCloses(slots, now, gone, n)
  {
    if i < n - 1 { ClosesAll(slots, now, gone, i, n - 1); }
  }

  /** Every handle the sweep closes belongs to a slot it frees. */
  lemma {:induction false} ClosesOnly(slots: seq<Slot>, now: int, gone: set<nat>, n: nat, h: Handle) returns (i: nat)
    requires n <= |slots| && h in SweepCloses(slots, now, gone, n)
    ensures i < n && slots[i].db == Some(h) && Expires(slots[i], now, i in gone) && !Dead(slots[i], i in gone)
  {
    if h in SweepCloses(slots, now, gone, n - 1) {
      i := ClosesOnly(slots, now, gone, n - 1, h);
    } else {
      i := n - 1;
    }
  }

  /** No two live named slots share a key. */
  predicate UniqueNames(slots: seq<Slot>) {
    forall i, j :: 0 <= i < j < |slots| && Live(slots[i]) && Live(slots[j]) && !Unnamed(slots[i].key) ==>
      slots[i].key != slots[j].key
  }

  /** One worker running uninterleaved never gives two live named slots the same key. */
  lemma GetKeepsNamesUnique(s: Store, r: Request, v: Visit)
    requires UniqueNames(s.slots)
    ensures UniqueNames(Get(s, r, v).0.slots)
  {
    AcquireKeepsNamesUnique(s, r, v);
    var a := Acquire(s, r, v).0;
    var t := Swept(a.slots, v.sweepNow, v.gone, |a.slots|);
    assert forall i :: 0 <= i < |t| && Live(t[i]) ==> t[i] == a.slots[i];
  }

  lemma AcquireKeepsNamesUnique(s: Store, r: Request, v: Visit)
    requires UniqueNames(s.slots)
    ensures UniqueNames(Acquire(s, r, v).0.slots)
  {
    var (s1, k) := Acquire(s, r, v);
    if k != -1 {
      assert forall i :: 0 <= i < |s.slots| && i != k ==> s1.slots[i] == s.slots[i];
      assert s1.slots[k].key == r.key;
    }
  }
}
