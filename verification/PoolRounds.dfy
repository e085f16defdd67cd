/** The retry loop of dbrelay_wait_for_connection round by round, and what the other operations leave in a slot (src/db.c). */
module PoolRounds {
  import opened CStrings
  import opened Pools
  import PS = PoolSystem

  // ---- the rounds of the retry loop -----------------------------------------------------

  /** The request got a slot with a helper, and the helper did not answer. */
  predicate Failed(s: Store, r: Request, try: (Visit, bool)) {
    Get(s, r, try.0).1 != -1 && r.key.name != "" && !try.1
  }

  /** A table as it was, but with slot k free. */
  predicate Freed(s: Store, k: int, t: Store) {
    && |t.slots| == |s.slots| && t.closed == s.closed && 0 <= k < |s.slots|
    && t.slots[k].pid == 0 && t.slots[k] == s.slots[k].(pid := t.slots[k].pid)
    && forall i :: 0 <= i < |s.slots| && i != k ==> t.slots[i] == s.slots[i]
  }

  /** `tables` are the tables in front of the first rounds: behind each of them the slot just used is free. */
  predicate Tables(tables: seq<Store>, r: Request, tries: seq<(Visit, bool)>) {
    && 0 < |tables| <= |tries| + 1
    && forall i :: 0 <= i < |tables| - 1 ==>
         Failed(tables[i], r, tries[i]) && Freed(Get(tables[i], r, tries[i].0).0, Get(tables[i], r, tries[i].0).1, tables[i + 1])
  }

  /** The rounds are over: one did not fail, or the answers are used up. */
  predicate Complete(tables: seq<Store>, r: Request, tries: seq<(Visit, bool)>)
    requires 0 < |tables| <= |tries| + 1
  {
    |tables| <= |tries| ==> !Failed(tables[|tables| - 1], r, tries[|tables| - 1])
  }

  /** Such tables exist for every sequence of answers. */
  lemma {:induction false} WaitRounds(s: Store, r: Request, tries: seq<(Visit, bool)>) returns (tables: seq<Store>)
    ensures Tables(tables, r, tries) && tables[0] == s && Complete(tables, r, tries)
    decreases |tries|
  {
    tables := [s];
    if tries != [] && Failed(s, r, tries[0]) {
      var g := Get(s, r, tries[0].0);
      GetInRange(s, r, tries[0].0);
      var s1 := g.0.(slots := g.0.slots[g.1 := g.0.slots[g.1].(pid := 0)]);
      var more := WaitRounds(s1, r, tries[1..]);
      tables := [s] + more;
      TablesCons(s, more, r, tries);
    }
  }

  lemma TablesCons(s: Store, more: seq<Store>, r: Request, tries: seq<(Visit, bool)>)
    requires tries != [] && Tables(more, r, tries[1..]) && Failed(s, r, tries[0])
    requires Freed(Get(s, r, tries[0].0).0, Get(s, r, tries[0].0).1, more[0])
    ensures Tables([s] + more, r, tries)
  {
    var ts := [s] + more;
    forall i | 0 <= i < |ts| - 1
      ensures Failed(ts[i], r, tries[i]) && Freed(Get(ts[i], r, tries[i].0).0, Get(ts[i], r, tries[i].0).1, ts[i + 1])
    {
      if i > 0 { assert ts[i] == more[i - 1] && tries[i] == tries[1..][i - 1] && ts[i + 1] == more[i]; }
    }
  }

  /**
   * The loop goes through failed rounds only, each with its slot marked free behind it, and it is done in
   * the first round that does not fail: with the slot of that round, which is -1 if the pool was full.
   */
  lemma {:induction false} WaitIs(s: Store, r: Request, tries: seq<(Visit, bool)>, tables: seq<Store>)
    requires Tables(tables, r, tries) && tables[0] == s && Complete(tables, r, tries)
    ensures var n := |tables| - 1;
            Wait(s, r, tries) ==
            if n < |tries| then (Get(tables[n], r, tries[n].0).0, Get(tables[n], r, tries[n].0).1, true) else (tables[n], -1, false)
    decreases |tries|
  {
    if |tables| > 1 {
      var g := Get(s, r, tries[0].0);
      GetInRange(s, r, tries[0].0);
      SameFreed(g.0, g.1, tables[1], g.0.(slots := g.0.slots[g.1 := g.0.slots[g.1].(pid := 0)]));
      TablesRest(tables, r, tries);
      WaitIs(tables[1], r, tries[1..], tables[1..]);
    }
  }

  lemma TablesRest(tables: seq<Store>, r: Request, tries: seq<(Visit, bool)>)
    requires Tables(tables, r, tries) && Complete(tables, r, tries) && |tables| > 1
    ensures Tables(tables[1..], r, tries[1..]) && Complete(tables[1..], r, tries[1..])
  {
    forall i | 0 <= i < |tables| - 2
      ensures Failed(tables[1..][i], r, tries[1..][i])
      ensures var g := Get(tables[1..][i], r, tries[1..][i].0); Freed(g.0, g.1, tables[1..][i + 1])
    {
      assert tables[1..][i] == tables[i + 1] && tries[1..][i] == tries[i + 1] && tables[1..][i + 1] == tables[i + 2];
    }
  }

  /** It ends with a slot, with -1, or not yet: exactly as some round is the first to be answered or to find the pool full. */
  lemma WaitEndsIff(s: Store, r: Request, tries: seq<(Visit, bool)>, tables: seq<Store>)
    requires Tables(tables, r, tries) && tables[0] == s && Complete(tables, r, tries)
    ensures var n, w := |tables| - 1, Wait(s, r, tries);
            && (w.2 <==> n < |tries|)
            && (w.2 && w.1 == -1 <==> n < |tries| && Get(tables[n], r, tries[n].0).1 == -1)
            && (w.2 && w.1 != -1 <==> n < |tries| && Get(tables[n], r, tries[n].0).1 != -1 && (r.key.name == "" || tries[n].1))
  {
    WaitIs(s, r, tries, tables);
  }

  lemma SameFreed(s: Store, k: int, t: Store, u: Store)
    requires Freed(s, k, t) && Freed(s, k, u)
    ensures t == u
  {
    assert t.slots == u.slots;
  }

  /** If the slot of a failed round was the only match, the next round does not use an old slot, but a free one for a new helper. */
  lemma NextRoundAllocates(s: Store, r: Request, try: (Visit, bool), t: Store, v: Visit)
    requires Failed(s, r, try) && Freed(Get(s, r, try.0).0, Get(s, r, try.0).1, t)
    requires forall i :: 0 <= i < |s.slots| && i != Get(s, r, try.0).1 && Live(s.slots[i]) ==> s.slots[i].key != r.key
    ensures var k := Get(t, r, v).1; 0 <= k < |t.slots| && !Live(t.slots[k])
    ensures FirstMatch(t.slots, r, 0) == -1
  {
    var g := Get(s, r, try.0);
    forall i | 0 <= i < |t.slots| ensures !(Live(t.slots[i]) && Matches(t.slots[i], r)) {
      if i != g.1 && Live(t.slots[i]) { KeptFrom(s, r, try.0, i); }
    }
  }

  lemma KeptFrom(s: Store, r: Request, v: Visit, i: nat)
    requires i < |s.slots| && i != Get(s, r, v).1 && Live(Get(s, r, v).0.slots[i])
    ensures Live(s.slots[i]) && Get(s, r, v).0.slots[i] == s.slots[i]
  {
    var a := Acquire(s, r, v);
    assert a.0.slots[i] == s.slots[i];
  }

  /** Between two rounds the table is the one PoolSystem has after a failed connect. */
  lemma FailedRoundIsStep(y: PS.Sys, id: nat, t: Store)
    requires id in y.reqs && y.reqs[id].phase.Holding? && Freed(y.store, y.reqs[id].phase.slot, t)
    ensures PS.AfterConnectFailure(y, id).store == t && PS.AfterConnectFailure(y, id).reqs[id].phase == PS.Start
  {
    assert PS.AfterConnectFailure(y, id).store.slots == t.slots;
  }

  // ---- what an operation leaves in a slot ---------------------------------------------------

  /** At the end of a query the slot is stamped and counts one use less; without a name it is closed and wiped. */
  lemma FinishedSlot(s: Store, k: nat, now: int)
    requires k < |s.slots|
    ensures var c, t := s.slots[k], Finished(s, k, now);
            && (forall i :: 0 <= i < |s.slots| && i != k ==> t.slots[i] == s.slots[i]) && |t.slots| == |s.slots|
            && (c.key.name != "" ==>
                  && t.slots[k] == c.(accessed := now, inUse := t.slots[k].inUse) && t.closed == s.closed
                  && t.slots[k].inUse == if c.inUse == 0 then 0xFFFF_FFFF else c.inUse - 1)
            && (c.key.name == "" ==>
                  && t.slots[k].pid == 0 && t.slots[k].inUse == 0 && t.slots[k].key == Key("", "", "", "", "", "")
                  && t.closed == s.closed + if c.db.Some? then [c.db.value] else [])
  {
  }

  /**
   * Whether a request gets a slot or is refused, the sweep that follows frees exactly the other slots that
   * are dead, past eight hours, or idle past their timeout, wipes them, and leaves the rest alone.
   */
  lemma GetSweeps(s: Store, r: Request, v: Visit, i: nat)
    requires i < |s.slots| && i != Get(s, r, v).1
    ensures var c, d := s.slots[i], Get(s, r, v).0.slots[i];
            var expired := c.pid != 0 && (
              (c.key.name == "" && i in v.gone) || c.accessed + 28800 < v.sweepNow || (c.inUse == 0 && c.accessed + c.timeout < v.sweepNow));
            d == if expired then c.(pid := 0, inUse := 0, key := Key("", "", "", "", "", "")) else c
  {
    assert Acquire(s, r, v).0.slots[i] == s.slots[i];
  }

  /** An expired slot with this handle, whose worker is not known to be dead. */
  predicate Closes(c: Slot, now: int, gone: bool, h: Handle) {
    && c.pid != 0 && c.db == Some(h) && !(c.key.name == "" && gone)
    && (c.accessed + 28800 < now || (c.inUse == 0 && c.accessed + c.timeout < now))
  }

  function Closers(slots: seq<Slot>, now: int, gone: set<nat>, n: nat, h: Handle): set<nat>
    requires n <= |slots|
  {
    set i: nat | i < n && Closes(slots[i], now, i in gone, h)
  }

  lemma NoClosers(slots: seq<Slot>, now: int, gone: set<nat>, h: Handle)
    ensures |Closers(slots, now, gone, 0, h)| == 0
  {
    assert Closers(slots, now, gone, 0, h) == {};
  }

  lemma ClosersMore(slots: seq<Slot>, now: int, gone: set<nat>, n: nat, h: Handle)
    requires 0 < n <= |slots|
    ensures |Closers(slots, now, gone, n, h)| ==
            |Closers(slots, now, gone, n - 1, h)| + if Closes(slots[n - 1], now, n - 1 in gone, h) then 1 else 0
  {
    var a, b := Closers(slots, now, gone, n - 1, h), Closers(slots, now, gone, n, h);
    if Closes(slots[n - 1], now, n - 1 in gone, h) { assert b == a + {n - 1}; } else { assert b == a; }
  }

  lemma SweepMore(slots: seq<Slot>, now: int, gone: set<nat>, n: nat, h: Handle)
    requires 0 < n <= |slots|
    ensures multiset(SweepCloses(slots, now, gone, n))[h] ==
            multiset(SweepCloses(slots, now, gone, n - 1))[h] + if Closes(slots[n - 1], now, n - 1 in gone, h) then 1 else 0
  {
    var c, more := slots[n - 1], SweepCloses(slots, now, gone, n - 1);
    OneMore(more, c.db, h);
    assert more + [] == more;
  }

  lemma OneMore(more: seq<Handle>, x: Option<Handle>, h: Handle)
    ensures multiset(more + HandleSeq(x))[h] == multiset(more)[h] + if x == Some(h) then 1 else 0
  {
    assert multiset(more + HandleSeq(x)) == multiset(more) + multiset(HandleSeq(x));
  }

  predicate ClosesRight(slots: seq<Slot>, now: int, gone: set<nat>, n: nat, h: Handle)
    requires n <= |slots|
  {
    multiset(SweepCloses(slots, now, gone, n))[h] == |Closers(slots, now, gone, n, h)|
  }

  lemma OneSlotMore(slots: seq<Slot>, now: int, gone: set<nat>, n: nat, h: Handle)
    requires 0 < n <= |slots| && ClosesRight(slots, now, gone, n - 1, h)
    ensures ClosesRight(slots, now, gone, n, h)
  {
    ClosersMore(slots, now, gone, n, h);
    SweepMore(slots, now, gone, n, h);
  }

  /** A sweep closes a handle once for each such slot. */
  lemma {:induction false} SweepClosesOnce(slots: seq<Slot>, now: int, gone: set<nat>, n: nat, h: Handle)
    requires n <= |slots|
    ensures multiset(SweepCloses(slots, now, gone, n))[h] == |Closers(slots, now, gone, n, h)|
  {
    if n == 0 {
      NoClosers(slots, now, gone, h);
    } else {
      SweepClosesOnce(slots, now, gone, n - 1, h);
      OneSlotMore(slots, now, gone, n, h);
    }
  }

  /** Without a name for a new helper's socket a request is told a slot that stays free. */
  lemma NoSocketName(s: Store, r: Request, w: World)
    requires r.key.name != "" && r.sockPath == "" && w.path.None? && Alloc(s, r, w).1 != -1
    ensures var (t, k) := Alloc(s, r, w); 0 <= k < |t.slots| && t.slots[k].pid == 0 && s.slots[k].pid == 0 && t.closed == s.closed
  {
  }

  /** An administrator's kill wipes one slot and closes its handle. */
  lemma KilledSlot(y: PS.Sys, k: nat)
    requires k < |y.store.slots|
    ensures var c, t := y.store.slots[k], PS.AfterKill(y, k);
            && t.reqs == y.reqs && t.store.closed == y.store.closed + (if c.db.Some? then [c.db.value] else [])
            && t.store.slots == y.store.slots[k := c.(pid := 0, inUse := 0, key := Key("", "", "", "", "", ""))]
  {
  }

  // ---- one worker's acquisition as steps of the pool --------------------------------------------

  /** The critical sections of one acquisition, if nobody comes in between. */
  function Sections(y: PS.Sys, id: nat, v: Visit): seq<PS.Action>
    requires id in y.reqs
  {
    var r, alloc, sweep := y.reqs[id].r, PS.AllocSlot(id, v.world.now, v.world.path), PS.SweepTable(v.sweepNow, v.gone, |y.store.slots|);
    if Unnamed(r.key) then [PS.Open(id, v.world.db), alloc, sweep]
    else if FirstMatch(y.store.slots, r, 0) == -1 then [PS.FindSlot(id, v.findNow), alloc, sweep]
    else [PS.FindSlot(id, v.findNow), sweep]
  }

  /** In the world of request id: its pid, and for a request without a name the handle it opens. */
  predicate OwnWorld(q: PS.Req, w: World) {
    w.pid == q.pid && (Unnamed(q.r.key) || w.db == q.db)
  }

  lemma TwoSteps(y: PS.Sys, a: PS.Action, b: PS.Action)
    requires PS.Legal(y, [a, b])
    ensures PS.Enabled(y, a) && PS.Enabled(PS.Next(y, a), b)
    ensures PS.Last(y, [a, b]) == PS.Next(PS.Next(y, a), b)
  {
    var y1 := PS.Next(y, a);
    assert [a, b][1..] == [b] && [b][1..] == [] && PS.Legal(y1, [b]);
    assert PS.Last(y1, [b]) == PS.Last(PS.Next(y1, b), []);
  }

  lemma ThreeSteps(y: PS.Sys, a: PS.Action, b: PS.Action, c: PS.Action)
    requires PS.Legal(y, [a, b, c])
    ensures PS.Enabled(y, a) && PS.Legal(PS.Next(y, a), [b, c])
    ensures PS.Last(y, [a, b, c]) == PS.Last(PS.Next(y, a), [b, c])
  {
    assert [a, b, c][1..] == [b, c];
  }

  /** Allocation and sweep of a request whose search found nothing, or whose handle is open. */
  lemma AllocSections(y: PS.Sys, id: nat, v: Visit)
    requires PS.Acts(y, id) && v.world == PS.WorldOf(y.reqs[id], v.world.now, v.world.path)
    requires PS.Legal(y, [PS.AllocSlot(id, v.world.now, v.world.path), PS.SweepTable(v.sweepNow, v.gone, |y.store.slots|)])
    ensures var (t, k) := Alloc(y.store, y.reqs[id].r, v.world);
            PS.Last(y, [PS.AllocSlot(id, v.world.now, v.world.path), PS.SweepTable(v.sweepNow, v.gone, |y.store.slots|)]).store ==
            Sweep(t, v.sweepNow, v.gone, |t.slots|)
  {
    TwoSteps(y, PS.AllocSlot(id, v.world.now, v.world.path), PS.SweepTable(v.sweepNow, v.gone, |y.store.slots|));
  }

  /** Undisturbed, the steps of the pool leave the table that dbrelay_db_get_connection leaves. */
  lemma GetIsRun(y: PS.Sys, id: nat, v: Visit)
    requires PS.Acts(y, id) && y.reqs[id].phase == PS.Start && OwnWorld(y.reqs[id], v.world)
    requires PS.Legal(y, Sections(y, id, v))
    ensures PS.Last(y, Sections(y, id, v)).store == Get(y.store, y.reqs[id].r, v).0
  {
    var r, alloc, sweep := y.reqs[id].r, PS.AllocSlot(id, v.world.now, v.world.path), PS.SweepTable(v.sweepNow, v.gone, |y.store.slots|);
    if Unnamed(r.key) {
      ThreeSteps(y, PS.Open(id, v.world.db), alloc, sweep);
      AllocSections(PS.Next(y, PS.Open(id, v.world.db)), id, v);
    } else if FirstMatch(y.store.slots, r, 0) == -1 {
      ThreeSteps(y, PS.FindSlot(id, v.findNow), alloc, sweep);
      AllocSections(PS.Next(y, PS.FindSlot(id, v.findNow)), id, v);
    } else {
      TwoSteps(y, PS.FindSlot(id, v.findNow), sweep);
    }
  }

  // ---- nobody is stuck, and the dead do nothing ---------------------------------------------------

  /** Whatever the state of the pool, a living request can make its next step, short of a full counter. */
  lemma RequestProceeds(y: PS.Sys, id: nat, now: int, path: string)
    requires PS.Inv(y) && PS.Acts(y, id)
    ensures var q := y.reqs[id]; var k := FirstMatch(y.store.slots, q.r, 0);
            && (q.phase == PS.Start && q.r.key.name == "" ==> PS.Enabled(y, PS.Open(id, None)))
            && (q.phase == PS.Start && q.r.key.name != "" ==>
                  (PS.Enabled(y, PS.FindSlot(id, now)) <==> k == -1 || y.store.slots[k].inUse != 0xFFFF_FFFF))
            && (q.phase == PS.Opened || q.phase == PS.Missed ==> PS.Enabled(y, PS.AllocSlot(id, now, Some(path))))
            && (q.phase.Holding? ==> PS.Enabled(y, PS.Finish(id, now)) && PS.Enabled(y, PS.SetHelper(id, now)))
            && (q.phase.Holding? && q.r.key.name != "" ==> PS.Enabled(y, PS.GiveUp(id)))
  {
  }

  /** A sweep at a time when nothing has been used for a while yet is possible as well. */
  lemma SweepProceeds(y: PS.Sys, now: int)
    requires forall i :: 0 <= i < |y.store.slots| ==> now <= y.store.slots[i].accessed + 28800
    ensures PS.Enabled(y, PS.SweepTable(now, {}, |y.store.slots|))
  {
  }

  /** After a death no request of that process acts again, and the others are as they were. */
  lemma DeadRest(y: PS.Sys, pid: int, id: nat)
    requires id in y.reqs
    ensures var z := PS.Next(y, PS.Die(pid));
            z.store == y.store && id in z.reqs &&
            if y.reqs[id].pid == pid then !PS.Acts(z, id) else z.reqs[id] == y.reqs[id]
  {
  }
}
