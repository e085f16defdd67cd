/** The connection pool under every interleaving of any number of worker processes. */
module PoolSystem {
  import opened CStrings
  import opened Pools

  /**
   * How far a request has come: its handle is opened (requests without a connection name), its search
   * found nothing (requests with one), it holds a slot, it returned early and never gives the slot
   * back, it is over, or its dead worker was noticed.
   */
  datatype Phase = Start | Opened | Missed | Holding(slot: nat) | Kept(slot: nat) | Over | Reaped

  datatype Req = Req(r: Request, pid: int, db: Option<Handle>, live: bool, phase: Phase)

  datatype Sys = Sys(store: Store, reqs: map<nat, Req>)

  /** One critical section of one worker, or something that happens outside of them. */
  datatype Action =
    | Arrive(id: nat, r: Request, pid: int)
    | Open(id: nat, db: Option<Handle>)
    | FindSlot(id: nat, now: int)
    | AllocSlot(id: nat, now: int, path: Option<string>)
    | SweepTable(now: int, gone: set<nat>, upto: nat)
    | SetHelper(id: nat, helper: int)
    | Finish(id: nat, now: int)
    | GiveUp(id: nat)
    | Die(pid: int)

  predicate Token(q: Req, i: nat) {
    q.phase == Holding(i) || q.phase == Kept(i)
  }

  /** The requests that count as users of slot i. */
  function Holders(s: Sys, i: nat): set<nat> {
    set id | id in s.reqs && Token(s.reqs[id], i)
  }

  // ---- the steps -------------------------------------------------------------------

  predicate Acts(s: Sys, id: nat) {
    id in s.reqs && s.reqs[id].live
  }

  /** kill(pid, 0) fails only for a pid no live process has. */
  predicate SoundGone(s: Sys, gone: set<nat>) {
    forall i, id :: 0 <= i < |s.store.slots| && i in gone && id in s.reqs && s.reqs[id].pid == s.store.slots[i].pid ==>
      !s.reqs[id].live
  }

  /** No slot in use is past the hard timeout, unless its worker is dead. */
  predicate NoHardTimeout(s: Sys, now: int, gone: set<nat>, upto: nat) {
    forall i :: 0 <= i < |s.store.slots| && i < upto ==>
      HardExpired(s.store.slots[i], now) && !Dead(s.store.slots[i], i in gone) ==> Holders(s, i) == {}
  }

  predicate FreshHandle(s: Sys, db: Option<Handle>) {
    db.Some? ==> db.value !in s.store.closed && forall id :: id in s.reqs ==> s.reqs[id].db != db
  }

  predicate CanFind(s: Sys, id: nat) {
    Acts(s, id) && s.reqs[id].phase == Start && !Unnamed(s.reqs[id].r.key)
  }

  predicate Enabled(s: Sys, a: Action) {
    match a
    case Arrive(id, r, pid) => id !in s.reqs && pid != 0
    case Open(id, db) => Acts(s, id) && s.reqs[id].phase == Start && Unnamed(s.reqs[id].r.key) && FreshHandle(s, db)
    case FindSlot(id, now) =>
      CanFind(s, id) &&
      var k := FirstMatch(s.store.slots, s.reqs[id].r, 0);
      k != -1 ==> s.store.slots[k].inUse < WRAP - 1
    case AllocSlot(id, now, path) =>
      && Acts(s, id) && (s.reqs[id].phase == Opened || s.reqs[id].phase == Missed)
      && Nameable(s.reqs[id].r, WorldOf(s.reqs[id], now, path))
    case SweepTable(now, gone, upto) =>
      upto <= |s.store.slots| && SoundGone(s, gone) && NoHardTimeout(s, now, gone, upto)
    case SetHelper(id, helper) => Acts(s, id) && s.reqs[id].phase.Holding? && s.reqs[id].phase.slot < |s.store.slots|
    case Finish(id, now) => Acts(s, id) && s.reqs[id].phase.Holding? && s.reqs[id].phase.slot < |s.store.slots|
    case GiveUp(id) => Acts(s, id) && s.reqs[id].phase.Holding? && !Unnamed(s.reqs[id].r.key)
    case Die(pid) => true
  }

  function WorldOf(q: Req, now: int, path: Option<string>): World {
    World(q.pid, now, path, q.db)
  }

  function Moved(s: Sys, store: Store, id: nat, phase: Phase): Sys
    requires id in s.reqs
  {
    Sys(store, s.reqs[id := s.reqs[id].(phase := phase)])
  }

  function AfterFind(s: Sys, id: nat, now: int): Sys
    requires id in s.reqs
  {
    var (st, k) := Find(s.store, s.reqs[id].r, now);
    Moved(s, st, id, if k == -1 then Missed else Holding(k))
  }

  function AfterAlloc(s: Sys, id: nat, now: int, path: Option<string>): Sys
    requires id in s.reqs
  {
    var (st, k) := Alloc(s.store, s.reqs[id].r, WorldOf(s.reqs[id], now, path));
    Moved(s, st, id, if k == -1 then Over else Holding(k))
  }

  /** Reclaiming the slot of a dead worker ends the claim of its request. */
  predicate IsReaped(s: Sys, q: Req, gone: set<nat>, upto: nat) {
    (q.phase.Holding? || q.phase.Kept?) && q.phase.slot < |s.store.slots| && q.phase.slot < upto &&
    Dead(s.store.slots[q.phase.slot], q.phase.slot in gone)
  }

  function AfterSweep(s: Sys, now: int, gone: set<nat>, upto: nat): Sys
    requires upto <= |s.store.slots|
  {
    Sys(Sweep(s.store, now, gone, upto),
        map id | id in s.reqs :: if IsReaped(s, s.reqs[id], gone, upto) then s.reqs[id].(phase := Reaped) else s.reqs[id])
  }

  function AfterDeath(s: Sys, pid: int): Sys {
    s.(reqs := map id | id in s.reqs :: if s.reqs[id].pid == pid then s.reqs[id].(live := false) else s.reqs[id])
  }

  function Next(s: Sys, a: Action): Sys
    requires Enabled(s, a)
  {
    match a
    case Arrive(id, r, pid) => s.(reqs := s.reqs[id := Req(r, pid, None, true, Start)])
    case Open(id, db) => s.(reqs := s.reqs[id := s.reqs[id].(db := db, phase := Opened)])
    case FindSlot(id, now) => AfterFind(s, id, now)
    case AllocSlot(id, now, path) => AfterAlloc(s, id, now, path)
    case SweepTable(now, gone, upto) => AfterSweep(s, now, gone, upto)
    case SetHelper(id, helper) =>
      var k := s.reqs[id].phase.slot;
      s.(store := s.store.(slots := s.store.slots[k := s.store.slots[k].(helper := helper)]))
    case Finish(id, now) => Moved(s, Finished(s.store, s.reqs[id].phase.slot, now), id, Over)
    case GiveUp(id) => Moved(s, s.store, id, Kept(s.reqs[id].phase.slot))
    case Die(pid) => AfterDeath(s, pid)
  }

  // ---- the invariant ------------------------------------------------------------------

  /** Each live slot's counter is the number of requests holding it. */
  predicate Counted(s: Sys) {
    forall i :: 0 <= i < |s.store.slots| && Live(s.store.slots[i]) ==> s.store.slots[i].inUse == |Holders(s, i)|
  }

  /** Whoever holds a slot holds a live one with its own key. */
  predicate Anchored(s: Sys) {
    forall id :: id in s.reqs && (s.reqs[id].phase.Holding? || s.reqs[id].phase.Kept?) ==>
      var q := s.reqs[id];
      && q.phase.slot < |s.store.slots|
      && Live(s.store.slots[q.phase.slot]) && s.store.slots[q.phase.slot].key == q.r.key
      && (Unnamed(q.r.key) ==> s.store.slots[q.phase.slot].pid == q.pid && s.store.slots[q.phase.slot].db == q.db)
  }

  /** A live slot without a connection name has one user; one with a name carries no handle. */
  predicate Exclusive(s: Sys) {
    forall i :: 0 <= i < |s.store.slots| && Live(s.store.slots[i]) ==>
      if Unnamed(s.store.slots[i].key) then s.store.slots[i].inUse == 1 else s.store.slots[i].db == None
  }

  predicate PhaseOk(q: Req) {
    && q.pid != 0
    && (Unnamed(q.r.key) ==> !q.phase.Missed? && !q.phase.Kept?)
    && (!Unnamed(q.r.key) ==> !q.phase.Opened?)
    && (q.db.Some? ==> Unnamed(q.r.key) && !q.phase.Start?)
  }

  predicate Phases(s: Sys) {
    forall id :: id in s.reqs ==> PhaseOk(s.reqs[id])
  }

  /** A handle belongs to one request and is closed once when that request is over, and not before. */
  predicate Handles(s: Sys) {
    && (forall id, id2 :: id in s.reqs && id2 in s.reqs && id != id2 && s.reqs[id].db.Some? ==> s.reqs[id].db != s.reqs[id2].db)
    && (forall id :: id in s.reqs && s.reqs[id].db.Some? ==>
          multiset(s.store.closed)[s.reqs[id].db.value] == if s.reqs[id].phase.Over? then 1 else 0)
  }

  predicate Inv(s: Sys) {
    Counted(s) && Anchored(s) && Exclusive(s) && Phases(s) && Handles(s)
  }

  function Initial(n: nat): Sys {
    Sys(Store(seq(n, _ => Slot(NO_KEY, 0, 0, 0, 0, 0, "", None)), []), map[])
  }

  // ---- what one changed request does to the holders ----------------------------------------

  lemma HoldersMoved(s: Sys, id: nat, t: Sys, i: nat)
    requires id in t.reqs && t.reqs == s.reqs[id := t.reqs[id]]
    ensures Holders(t, i) == if Token(t.reqs[id], i) then Holders(s, i) + {id} else Holders(s, i) - {id}
  {
  }

  lemma ArriveKeeps(s: Sys, id: nat, r: Request, pid: int)
    requires Inv(s) && id !in s.reqs && pid != 0
    ensures Inv(Next(s, Arrive(id, r, pid)))
  {
    var t := Next(s, Arrive(id, r, pid));
    forall i ensures Holders(t, i) == Holders(s, i) { HoldersMoved(s, id, t, i); }
  }

  lemma OpenKeeps(s: Sys, id: nat, db: Option<Handle>)
    requires Inv(s) && Enabled(s, Open(id, db))
    ensures Inv(Next(s, Open(id, db)))
  {
    var t := Next(s, Open(id, db));
    forall i ensures Holders(t, i) == Holders(s, i) { HoldersMoved(s, id, t, i); }
  }

  /** The table after slot k was taken over by request id, which had none. */
  lemma TakeKeeps(s: Sys, id: nat, t: Sys, k: nat)
    requires Inv(s) && id in s.reqs && !s.reqs[id].phase.Holding? && !s.reqs[id].phase.Kept?
    requires k < |s.store.slots| == |t.store.slots| && t.store.closed == s.store.closed && t.store.slots == s.store.slots[k := t.store.slots[k]]
    requires t.reqs == s.reqs[id := s.reqs[id].(phase := Holding(k))] && !s.reqs[id].phase.Over?
    requires var c, d, q := s.store.slots[k], t.store.slots[k], s.reqs[id];
             && Live(d) && d.key == q.r.key
             && (Live(c) ==> !Unnamed(q.r.key) && c.key == q.r.key && d.db == c.db && d.inUse == c.inUse + 1)
             && (!Live(c) ==> d.inUse == 1 && d.pid == q.pid && d.db == if Unnamed(q.r.key) then q.db else None)
    ensures Inv(t)
  {
    TakeCounts(s, id, t, k);
  }

  lemma TakeCounts(s: Sys, id: nat, t: Sys, k: nat)
    requires Counted(s) && Anchored(s) && id in s.reqs && !s.reqs[id].phase.Holding? && !s.reqs[id].phase.Kept?
    requires k < |s.store.slots| == |t.store.slots| && t.store.slots == s.store.slots[k := t.store.slots[k]]
    requires t.reqs == s.reqs[id := s.reqs[id].(phase := Holding(k))]
    requires t.store.slots[k].inUse == if Live(s.store.slots[k]) then s.store.slots[k].inUse + 1 else 1
    ensures Counted(t)
  {
    forall i ensures Holders(t, i) == if i == k then Holders(s, i) + {id} else Holders(s, i) { HoldersMoved(s, id, t, i); }
    if !Live(s.store.slots[k]) { assert Holders(s, k) == {}; }
    assert id !in Holders(s, k);
  }

  lemma FindKeeps(s: Sys, id: nat, now: int)
    requires Inv(s) && Enabled(s, FindSlot(id, now))
    ensures Inv(AfterFind(s, id, now))
  {
    var t := AfterFind(s, id, now);
    var k := FirstMatch(s.store.slots, s.reqs[id].r, 0);
    if k == -1 {
      forall i ensures Holders(t, i) == Holders(s, i) { HoldersMoved(s, id, t, i); }
    } else {
      TakeKeeps(s, id, t, k);
    }
  }

  lemma AllocKeeps(s: Sys, id: nat, now: int, path: Option<string>)
    requires Inv(s) && Enabled(s, AllocSlot(id, now, path))
    ensures Inv(AfterAlloc(s, id, now, path))
  {
    var t := AfterAlloc(s, id, now, path);
    var k := FirstFree(s.store.slots, 0);
    if k == -1 {
      forall i ensures Holders(t, i) == Holders(s, i) { HoldersMoved(s, id, t, i); }
      ClosesOwn(s, id, t);
    } else {
      TakeKeeps(s, id, t, k);
    }
  }

  /** A request that ends by closing its own handle, if it has one, keeps the books on handles. */
  lemma ClosesOwn(s: Sys, id: nat, t: Sys)
    requires Handles(s) && Phases(s) && id in s.reqs && !s.reqs[id].phase.Over?
    requires t.reqs == s.reqs[id := s.reqs[id].(phase := Over)]
    requires t.store.closed == s.store.closed + HandleSeq(s.reqs[id].db)
    ensures Handles(t) && Phases(t)
  {
  }

  lemma FinishKeeps(s: Sys, id: nat, now: int)
    requires Inv(s) && Enabled(s, Finish(id, now))
    ensures Inv(Next(s, Finish(id, now)))
  {
    var t := Next(s, Finish(id, now));
    assert t.store.closed == s.store.closed + HandleSeq(s.reqs[id].db) by { assert s.store.closed + [] == s.store.closed; }
    ClosesOwn(s, id, t);
    FinishCounts(s, id, now, t);
    FinishAnchors(s, id, now, t);
  }

  lemma FinishCounts(s: Sys, id: nat, now: int, t: Sys)
    requires Inv(s) && Enabled(s, Finish(id, now)) && t == Next(s, Finish(id, now))
    ensures Counted(t) && Exclusive(t)
  {
    var k := s.reqs[id].phase.slot;
    FinishHolders(s, id, t);
    assert Decrement(s.store.slots[k].inUse) == s.store.slots[k].inUse - 1;
  }

  lemma FinishAnchors(s: Sys, id: nat, now: int, t: Sys)
    requires Inv(s) && Enabled(s, Finish(id, now)) && t == Next(s, Finish(id, now))
    ensures Anchored(t)
  {
    var k := s.reqs[id].phase.slot;
    if Unnamed(s.store.slots[k].key) { OnlyHolder(s, id, k); }
  }

  lemma FinishHolders(s: Sys, id: nat, t: Sys)
    requires Inv(s) && id in s.reqs && s.reqs[id].phase.Holding? && t.reqs == s.reqs[id := s.reqs[id].(phase := Over)]
    ensures var k := s.reqs[id].phase.slot;
            && (forall i :: i != k ==> Holders(t, i) == Holders(s, i))
            && |Holders(t, k)| == |Holders(s, k)| - 1 && s.store.slots[k].inUse >= 1
  {
    var k := s.reqs[id].phase.slot;
    assert id in Holders(s, k);
    forall i ensures Holders(t, i) == if i == k then Holders(s, i) - {id} else Holders(s, i) { HoldersMoved(s, id, t, i); }
  }

  /** A live slot without a connection name has no other user. */
  lemma OnlyHolder(s: Sys, id: nat, k: nat)
    requires Inv(s) && k < |s.store.slots| && Unnamed(s.store.slots[k].key) && id in s.reqs && Token(s.reqs[id], k)
    ensures forall id2 :: id2 in s.reqs && id2 != id ==> !Token(s.reqs[id2], k)
  {
    var hs := Holders(s, k);
    assert id in hs && |hs| == 1;
    assert |hs - {id}| == 0;
    assert forall id2 :: id2 in s.reqs && id2 != id && Token(s.reqs[id2], k) ==> id2 in hs - {id};
  }

  lemma GiveUpKeeps(s: Sys, id: nat)
    requires Inv(s) && Enabled(s, GiveUp(id))
    ensures Inv(Next(s, GiveUp(id)))
  {
    var t := Next(s, GiveUp(id));
    forall i ensures Holders(t, i) == Holders(s, i) { HoldersMoved(s, id, t, i); }
  }

  lemma SetHelperKeeps(s: Sys, id: nat, helper: int)
    requires Inv(s) && Enabled(s, SetHelper(id, helper))
    ensures Inv(Next(s, SetHelper(id, helper)))
  {
    var t := Next(s, SetHelper(id, helper));
    forall i ensures Holders(t, i) == Holders(s, i) {}
  }

  lemma DieKeeps(s: Sys, pid: int)
    requires Inv(s)
    ensures Inv(AfterDeath(s, pid))
  {
    var t := AfterDeath(s, pid);
    forall i ensures Holders(t, i) == Holders(s, i) {}
  }

  // ---- the sweep -----------------------------------------------------------------------------

  /** The sweep closes nothing: the handles of slots that expire belong to dead workers. */
  lemma {:induction false} NothingClosed(s: Sys, now: int, gone: set<nat>, upto: nat, n: nat)
    requires Inv(s) && n <= upto <= |s.store.slots| && NoHardTimeout(s, now, gone, upto)
    ensures SweepCloses(s.store.slots, now, gone, n) == []
  {
    if n > 0 {
      NothingClosed(s, now, gone, upto, n - 1);
      var c := s.store.slots[n - 1];
      if HardExpired(c, now) && !Dead(c, n - 1 in gone) { assert c.inUse == |Holders(s, n - 1)| == 0; }
    }
  }

  lemma SweepKeeps(s: Sys, now: int, gone: set<nat>, upto: nat)
    requires Inv(s) && Enabled(s, SweepTable(now, gone, upto))
    ensures Inv(AfterSweep(s, now, gone, upto))
  {
    NothingClosed(s, now, gone, upto, upto);
    SweepCounts(s, now, gone, upto);
    SweepAnchors(s, now, gone, upto);
  }

  lemma SweepCounts(s: Sys, now: int, gone: set<nat>, upto: nat)
    requires Counted(s) && Exclusive(s) && upto <= |s.store.slots|
    ensures Counted(AfterSweep(s, now, gone, upto)) && Exclusive(AfterSweep(s, now, gone, upto))
  {
    var t := AfterSweep(s, now, gone, upto);
    forall i | 0 <= i < |t.store.slots| && Live(t.store.slots[i])
      ensures t.store.slots[i] == s.store.slots[i] && Holders(t, i) == Holders(s, i)
    {
    }
  }

  /** A slot in use is freed by the sweep only for a dead worker, which ends the claim. */
  lemma SweepAnchors(s: Sys, now: int, gone: set<nat>, upto: nat)
    requires Inv(s) && Enabled(s, SweepTable(now, gone, upto))
    ensures Anchored(AfterSweep(s, now, gone, upto))
  {
    var t := AfterSweep(s, now, gone, upto);
    forall id | id in t.reqs && (t.reqs[id].phase.Holding? || t.reqs[id].phase.Kept?)
      ensures t.reqs[id] == s.reqs[id] && t.store.slots[t.reqs[id].phase.slot] == s.store.slots[s.reqs[id].phase.slot]
    {
      InUse(s, id);
    }
  }

  /** Whoever holds a slot is counted in it. */
  lemma InUse(s: Sys, id: nat)
    requires Inv(s) && id in s.reqs && (s.reqs[id].phase.Holding? || s.reqs[id].phase.Kept?)
    ensures var k := s.reqs[id].phase.slot;
            id in Holders(s, k) && s.store.slots[k].inUse == |Holders(s, k)| >= 1
  {
    var k := s.reqs[id].phase.slot;
    assert id in Holders(s, k);
  }

  /** Every step of every worker keeps the invariant. */
  lemma StepKeeps(s: Sys, a: Action)
    requires Inv(s) && Enabled(s, a)
    ensures Inv(Next(s, a))
  {
    match a
    case Arrive(id, r, pid) => ArriveKeeps(s, id, r, pid);
    case Open(id, db) => OpenKeeps(s, id, db);
    case FindSlot(id, now) => FindKeeps(s, id, now);
    case AllocSlot(id, now, path) => AllocKeeps(s, id, now, path);
    case SweepTable(now, gone, upto) => SweepKeeps(s, now, gone, upto);
    case SetHelper(id, helper) => SetHelperKeeps(s, id, helper);
    case Finish(id, now) => FinishKeeps(s, id, now);
    case GiveUp(id) => GiveUpKeeps(s, id);
    case Die(pid) => DieKeeps(s, pid);
  }

  // ---- whole runs --------------------------------------------------------------------------

  predicate Legal(s: Sys, run: seq<Action>)
    decreases |run|
  {
    run == [] || (Enabled(s, run[0]) && Legal(Next(s, run[0]), run[1..]))
  }

  function Last(s: Sys, run: seq<Action>): Sys
    requires Legal(s, run)
    decreases |run|
  {
    if run == [] then s else Last(Next(s, run[0]), run[1..])
  }

  lemma {:induction false} RunKeeps(s: Sys, run: seq<Action>)
    requires Inv(s) && Legal(s, run)
    ensures Inv(Last(s, run))
    decreases |run|
  {
    if run != [] {
      StepKeeps(s, run[0]);
      RunKeeps(Next(s, run[0]), run[1..]);
    }
  }

  /**
   * In every run from an empty table of n slots: each live slot's counter is the number of requests
   * holding it, so finishing never takes it below zero and no slot in use counts as idle; a slot
   * without a connection name has one user and counter 1; and the handle of a request without a name
   * is closed once when the request is over, by a full pool as well, and not before.
   */
  lemma EveryRunKeepsCount(n: nat, run: seq<Action>)
    requires Legal(Initial(n), run)
    ensures var s := Last(Initial(n), run); var slots := s.store.slots;
            && (forall i :: 0 <= i < |slots| && Live(slots[i]) ==> slots[i].inUse == |Holders(s, i)|)
            && (forall id, i: nat, now :: id in s.reqs && Token(s.reqs[id], i) ==>
                  i < |slots| && Live(slots[i]) && slots[i].inUse >= 1 && !IdleExpired(slots[i], now) && slots[i].key == s.reqs[id].r.key)
            && (forall i :: 0 <= i < |slots| && Live(slots[i]) && Unnamed(slots[i].key) ==> slots[i].inUse == 1)
            && (forall id, id2, i: nat :: id in s.reqs && id2 in s.reqs && Token(s.reqs[id], i) && Token(s.reqs[id2], i) ==>
                  Unnamed(s.reqs[id].r.key) ==> id == id2)
            && (forall id :: id in s.reqs && s.reqs[id].db.Some? ==>
                  multiset(s.store.closed)[s.reqs[id].db.value] == if s.reqs[id].phase.Over? then 1 else 0)
  {
    assert Inv(Initial(n));
    RunKeeps(Initial(n), run);
    var s := Last(Initial(n), run);
    forall id, i: nat | id in s.reqs && Token(s.reqs[id], i) ensures s.store.slots[i].inUse >= 1 { InUse(s, id); }
    forall id, id2, i: nat | id in s.reqs && id2 in s.reqs && Token(s.reqs[id], i) && Token(s.reqs[id2], i) && Unnamed(s.reqs[id].r.key)
      ensures id == id2
    {
      OnlyHolder(s, id, i);
    }
  }

  // ---- the steps outside of those runs, each with the exact condition --------------------------

  /** Without the hard-timeout condition a sweep keeps the invariant exactly when no used slot is past it. */
  lemma SweepKeepsIff(s: Sys, now: int, gone: set<nat>, upto: nat)
    requires Inv(s) && upto <= |s.store.slots| && SoundGone(s, gone)
    ensures Inv(AfterSweep(s, now, gone, upto)) <==> NoHardTimeout(s, now, gone, upto)
  {
    if NoHardTimeout(s, now, gone, upto) {
      SweepKeeps(s, now, gone, upto);
    } else {
      var i :| 0 <= i < |s.store.slots| && i < upto && HardExpired(s.store.slots[i], now) &&
               !Dead(s.store.slots[i], i in gone) && Holders(s, i) != {};
      var id :| id in Holders(s, i);
      HardTimeoutBreaks(s, now, gone, upto, i, id);
    }
  }

  lemma HardTimeoutBreaks(s: Sys, now: int, gone: set<nat>, upto: nat, i: nat, id: nat)
    requires upto <= |s.store.slots| && i < upto && id in s.reqs && Token(s.reqs[id], i)
    requires HardExpired(s.store.slots[i], now) && !Dead(s.store.slots[i], i in gone)
    ensures !Anchored(AfterSweep(s, now, gone, upto))
  {
    var t := AfterSweep(s, now, gone, upto);
    assert t.reqs[id] == s.reqs[id] && !Live(t.store.slots[i]);
  }

  /** Taking one more use keeps the invariant exactly when the 32-bit counter does not wrap. */
  lemma FindKeepsIff(s: Sys, id: nat, now: int)
    requires Inv(s) && CanFind(s, id)
    ensures var k := FirstMatch(s.store.slots, s.reqs[id].r, 0);
            Inv(AfterFind(s, id, now)) <==> k == -1 || s.store.slots[k].inUse < WRAP - 1
  {
    var k := FirstMatch(s.store.slots, s.reqs[id].r, 0);
    if k == -1 || s.store.slots[k].inUse < WRAP - 1 {
      FindKeeps(s, id, now);
    } else {
      var t := AfterFind(s, id, now);
      assert id in Holders(t, k);
      assert t.store.slots[k].inUse == 0;
    }
  }

  /** The helper of a named slot does not answer: the slot is marked free and the request starts over. */
  function AfterConnectFailure(s: Sys, id: nat): Sys
    requires id in s.reqs && s.reqs[id].phase.Holding? && s.reqs[id].phase.slot < |s.store.slots|
  {
    var k := s.reqs[id].phase.slot;
    Moved(s, s.store.(slots := s.store.slots[k := s.store.slots[k].(pid := 0)]), id, Start)
  }

  lemma ConnectFailureKeepsIff(s: Sys, id: nat)
    requires Inv(s) && Acts(s, id) && s.reqs[id].phase.Holding? && !Unnamed(s.reqs[id].r.key)
    ensures Inv(AfterConnectFailure(s, id)) <==> Holders(s, s.reqs[id].phase.slot) == {id}
  {
    var t, k := AfterConnectFailure(s, id), s.reqs[id].phase.slot;
    assert id in Holders(s, k);
    if Holders(s, k) == {id} {
      ConnectFailureKeeps(s, id, t);
    } else {
      var id2 :| id2 in Holders(s, k) && id2 != id;
      assert t.reqs[id2] == s.reqs[id2] && !Live(t.store.slots[k]);
    }
  }

  lemma ConnectFailureKeeps(s: Sys, id: nat, t: Sys)
    requires Inv(s) && Acts(s, id) && s.reqs[id].phase.Holding? && !Unnamed(s.reqs[id].r.key)
    requires Holders(s, s.reqs[id].phase.slot) == {id} && t == AfterConnectFailure(s, id)
    ensures Inv(t)
  {
    var k := s.reqs[id].phase.slot;
    forall i | i != k ensures Holders(t, i) == Holders(s, i) { HoldersMoved(s, id, t, i); }
    forall id2 | id2 in s.reqs && Token(s.reqs[id2], k) ensures id2 == id { assert id2 in Holders(s, k); }
  }

  /** dbrelay_admin_kill closes the slot whoever uses it. */
  function AfterKill(s: Sys, k: nat): Sys
    requires k < |s.store.slots|
  {
    s.(store := Store(s.store.slots[k := Zeroed(s.store.slots[k])], s.store.closed + HandleSeq(s.store.slots[k].db)))
  }

  lemma KillKeepsIff(s: Sys, k: nat)
    requires Inv(s) && k < |s.store.slots| && Live(s.store.slots[k])
    ensures Inv(AfterKill(s, k)) <==> Holders(s, k) == {}
  {
    var t := AfterKill(s, k);
    forall i ensures Holders(t, i) == Holders(s, i) {}
    if Holders(s, k) == {} {
      assert s.store.slots[k].inUse == |Holders(s, k)|;
      assert s.store.closed + [] == s.store.closed;
      forall id | id in s.reqs ensures !Token(s.reqs[id], k) { assert id !in Holders(s, k); }
    } else {
      var id :| id in Holders(s, k);
      assert t.reqs[id] == s.reqs[id] && !Live(t.store.slots[k]);
    }
  }
}
