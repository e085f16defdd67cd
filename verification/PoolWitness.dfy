/** What happens to the count when a request outlives its slot (src/db.c, src/admin.c). */
module PoolWitness {
  import opened CStrings
  import opened Pools
  import opened PoolSystem

  // ---- in general ---------------------------------------------------------------

  /** A freed slot that a request still holds has the wrong count as soon as it is given out again. */
  lemma ReuseBreaksCount(s: Sys, stale: nat, id: nat, now: int, path: Option<string>)
    requires Enabled(s, AllocSlot(id, now, path)) && stale in s.reqs && stale != id
    requires FirstFree(s.store.slots, 0) != -1 && Token(s.reqs[stale], FirstFree(s.store.slots, 0))
    ensures var k, t := FirstFree(s.store.slots, 0), AfterAlloc(s, id, now, path);
            && Live(t.store.slots[k]) && t.store.slots[k].inUse == 1
            && {stale, id} <= Holders(t, k) && |Holders(t, k)| >= 2 && !Counted(t)
  {
    var k, t := FirstFree(s.store.slots, 0), AfterAlloc(s, id, now, path);
    assert stale in Holders(t, k) && id in Holders(t, k);
    var rest := Holders(t, k) - {stale};
    assert id in rest;
    assert |Holders(t, k)| == |rest| + 1;
  }

  /** Two holders of a named slot that counts one: the second to finish takes the counter below zero. */
  lemma SecondFinishWraps(s: Sys, a: nat, b: nat, k: nat, now: int)
    requires k < |s.store.slots| && s.store.slots[k].inUse == 1 && !Unnamed(s.store.slots[k].key) && a != b
    requires Acts(s, a) && s.reqs[a].phase == Holding(k) && Acts(s, b) && s.reqs[b].phase == Holding(k)
    ensures var t := Next(s, Finish(a, now));
            && b in Holders(t, k) && t.store.slots[k].inUse == 0
            && Enabled(t, Finish(b, now)) && Next(t, Finish(b, now)).store.slots[k].inUse == WRAP - 1
  {
  }

  lemma LegalCons(s: Sys, a: Action, run: seq<Action>)
    requires Enabled(s, a) && Legal(Next(s, a), run)
    ensures Legal(s, [a] + run) && Last(s, [a] + run) == Last(Next(s, a), run)
  {
    assert ([a] + run)[1..] == run;
  }

  lemma {:induction false} FreshId(m: map<nat, Req>) returns (id: nat)
    ensures forall k :: k in m ==> k < id
    decreases |m|
  {
    id := 0;
    if m != map[] {
      var k :| k in m;
      var rest := m - {k};
      assert m.Keys == rest.Keys + {k};
      assert |m| == |m.Keys| && |rest| == |rest.Keys|;
      var top := FreshId(rest);
      id := if k < top then top else k + 1;
      assert forall j :: j in m ==> j == k || j in rest;
    }
  }

  /** A request without a connection name and without a database handle. */
  const PLAIN := Request(NO_KEY, 0, "")

  function Served(id: nat): seq<Action> {
    [Arrive(id, PLAIN, 1)] + ([Open(id, None)] + ([AllocSlot(id, 0, None)] + []))
  }

  function Waiting(s: Sys, id: nat): Sys {
    s.(reqs := s.reqs[id := Req(PLAIN, 1, None, true, Opened)])
  }

  /** A new request gets the first free slot. */
  lemma ServeOne(s: Sys, id: nat, more: seq<Action>)
    requires id !in s.reqs && Legal(AfterAlloc(Waiting(s, id), id, 0, None), more)
    ensures Enabled(Waiting(s, id), AllocSlot(id, 0, None))
    ensures Legal(s, Served(id) + more) && Last(s, Served(id) + more) == Last(AfterAlloc(Waiting(s, id), id, 0, None), more)
  {
    var s1 := Next(s, Arrive(id, PLAIN, 1));
    var s2 := Waiting(s, id);
    assert Next(s1, Open(id, None)) == s2;
    LegalCons(s2, AllocSlot(id, 0, None), more);
    LegalCons(s1, Open(id, None), [AllocSlot(id, 0, None)] + more);
    LegalCons(s, Arrive(id, PLAIN, 1), [Open(id, None)] + ([AllocSlot(id, 0, None)] + more));
    assert Served(id) + more == [Arrive(id, PLAIN, 1)] + ([Open(id, None)] + ([AllocSlot(id, 0, None)] + more));
  }

  /** From every state in which a request holds a freed slot, the count goes wrong in some run: others need only come. */
  lemma {:induction false} StaleHolderBreaks(s: Sys, stale: nat, i: nat) returns (run: seq<Action>)
    requires stale in s.reqs && Token(s.reqs[stale], i) && i < |s.store.slots| && !Live(s.store.slots[i])
    ensures Legal(s, run) && !Counted(Last(s, run))
    decreases i - FirstFree(s.store.slots, 0)
  {
    var id := FreshId(s.reqs);
    var t := AfterAlloc(Waiting(s, id), id, 0, None);
    var k := FirstFree(s.store.slots, 0);
    if k == i {
      ServeOne(s, id, []);
      ReuseBreaksCount(Waiting(s, id), stale, id, 0, None);
      run := Served(id) + [];
    } else {
      assert t.store.slots == s.store.slots[k := t.store.slots[k]] && Live(t.store.slots[k]);
      assert t.reqs[stale] == s.reqs[stale] && !Live(t.store.slots[i]);
      assert forall j :: 0 <= j <= k ==> Live(t.store.slots[j]);
      assert k < FirstFree(t.store.slots, 0) <= i;
      var more := StaleHolderBreaks(t, stale, i);
      ServeOne(s, id, more);
      run := Served(id) + more;
    }
  }

  /** The reference-count law, now and in every run from here. */
  ghost predicate CountedForGood(s: Sys) {
    forall run :: Legal(s, run) ==> Counted(Last(s, run))
  }

  lemma InvCountsForGood(s: Sys)
    requires Inv(s)
    ensures CountedForGood(s)
  {
    forall run | Legal(s, run) ensures Counted(Last(s, run)) { RunKeeps(s, run); }
  }

  /** After a sweep the counts stay right for good if and only if no slot in use was past the hard timeout. */
  lemma SweepLawIff(s: Sys, now: int, gone: set<nat>, upto: nat)
    requires Inv(s) && upto <= |s.store.slots| && SoundGone(s, gone)
    ensures CountedForGood(AfterSweep(s, now, gone, upto)) <==> NoHardTimeout(s, now, gone, upto)
  {
    var t := AfterSweep(s, now, gone, upto);
    if NoHardTimeout(s, now, gone, upto) {
      SweepKeeps(s, now, gone, upto);
      InvCountsForGood(t);
    } else {
      var i :| 0 <= i < |s.store.slots| && i < upto && HardExpired(s.store.slots[i], now) &&
               !Dead(s.store.slots[i], i in gone) && Holders(s, i) != {};
      var id :| id in Holders(s, i);
      SweptUnderneath(s, now, gone, upto, i, id);
      var run := StaleHolderBreaks(t, id, i);
    }
  }

  lemma SweptUnderneath(s: Sys, now: int, gone: set<nat>, upto: nat, i: nat, id: nat)
    requires upto <= |s.store.slots| && i < upto && id in Holders(s, i)
    requires HardExpired(s.store.slots[i], now) && !Dead(s.store.slots[i], i in gone)
    ensures var t := AfterSweep(s, now, gone, upto);
            id in t.reqs && Token(t.reqs[id], i) && !Live(t.store.slots[i])
  {
  }

  /** After a failed connect they do if and only if nobody else held the slot. */
  lemma ConnectFailureLawIff(s: Sys, id: nat)
    requires Inv(s) && Acts(s, id) && s.reqs[id].phase.Holding? && !Unnamed(s.reqs[id].r.key)
    ensures CountedForGood(AfterConnectFailure(s, id)) <==> Holders(s, s.reqs[id].phase.slot) == {id}
  {
    var t, k := AfterConnectFailure(s, id), s.reqs[id].phase.slot;
    assert id in Holders(s, k);
    if Holders(s, k) == {id} {
      ConnectFailureKeeps(s, id, t);
      InvCountsForGood(t);
    } else {
      var id2 :| id2 in Holders(s, k) && id2 != id;
      assert t.reqs[id2] == s.reqs[id2] && !Live(t.store.slots[k]);
      var run := StaleHolderBreaks(t, id2, k);
    }
  }

  /** After an administrator's kill they do if and only if nobody held the slot. */
  lemma KillLawIff(s: Sys, k: nat)
    requires Inv(s) && k < |s.store.slots| && Live(s.store.slots[k])
    ensures CountedForGood(AfterKill(s, k)) <==> Holders(s, k) == {}
  {
    var t := AfterKill(s, k);
    if Holders(s, k) == {} {
      KillKeepsIff(s, k);
      InvCountsForGood(t);
    } else {
      var id :| id in Holders(s, k);
      assert t.reqs[id] == s.reqs[id] && !Live(t.store.slots[k]);
      var run := StaleHolderBreaks(t, id, k);
    }
  }

  // ---- runs that get there ----------------------------------------------------------

  const KEY := Key("", "", "", "", "", "n")
  const REQUEST := Request(KEY, 0, "p")
  const SLOT := Slot(KEY, DEFAULT_TIMEOUT, 0, 1, 1, 0, "p", None)

  function Holder(pid: int): Req {
    Req(REQUEST, pid, None, true, Holding(0))
  }

  /** One slot, held by request 0. */
  const HELD := Sys(Store([SLOT], []), map[0 := Holder(1)])
  /** The same slot freed under it. */
  const FREED := Sys(Store([Zeroed(SLOT)], []), map[0 := Holder(1)])
  /** The slot held by two requests. */
  const SHARED := Sys(Store([SLOT.(inUse := 2)], []), map[0 := Holder(1), 1 := Holder(2)])

  const FIRST := [Arrive(0, REQUEST, 1)] + ([FindSlot(0, 0)] + ([AllocSlot(0, 0, None)] + []))
  const SECOND := [Arrive(1, REQUEST, 2)] + ([FindSlot(1, 0)] + [])
  const AGAIN := [FindSlot(1, 0)] + ([AllocSlot(1, 0, None)] + [])

  lemma ReachHeld()
    ensures Legal(Initial(1), FIRST) && Last(Initial(1), FIRST) == HELD
  {
    var s0 := Initial(1);
    var s1 := Next(s0, Arrive(0, REQUEST, 1));
    var s2 := Next(s1, FindSlot(0, 0));
    var s3 := Next(s2, AllocSlot(0, 0, None));
    assert s3.store.slots == [SLOT];
    LegalCons(s2, AllocSlot(0, 0, None), []);
    LegalCons(s1, FindSlot(0, 0), [AllocSlot(0, 0, None)] + []);
    LegalCons(s0, Arrive(0, REQUEST, 1), [FindSlot(0, 0)] + ([AllocSlot(0, 0, None)] + []));
  }

  lemma ReachShared()
    ensures Legal(HELD, SECOND) && Last(HELD, SECOND) == SHARED
  {
    var s1 := Next(HELD, Arrive(1, REQUEST, 2));
    var s2 := Next(s1, FindSlot(1, 0));
    assert s2.store.slots == [SLOT.(inUse := 2)];
    LegalCons(s1, FindSlot(1, 0), []);
    LegalCons(HELD, Arrive(1, REQUEST, 2), [FindSlot(1, 0)] + []);
  }

  /** From a free slot that request 0 still holds, request 1 gets it and the count is wrong. */
  lemma UseAgain(s: Sys)
    requires |s.store.slots| == 1 && !Live(s.store.slots[0]) && s.reqs.Keys == {0, 1}
    requires s.reqs[0] == Holder(1) && s.reqs[1] == Holder(2).(phase := Start)
    ensures Legal(s, AGAIN)
    ensures var t := Last(s, AGAIN);
            && t.store.slots == [SLOT.(pid := 2)] && t.reqs.Keys == {0, 1} && t.reqs[0] == Holder(1) && t.reqs[1] == Holder(2)
            && Holders(t, 0) == {0, 1} && !Counted(t)
  {
    var s1 := Next(s, FindSlot(1, 0));
    var s2 := Next(s1, AllocSlot(1, 0, None));
    ReuseBreaksCount(s1, 0, 1, 0, None);
    LegalCons(s1, AllocSlot(1, 0, None), []);
    LegalCons(s, FindSlot(1, 0), [AllocSlot(1, 0, None)] + []);
    assert s2.store.slots == [SLOT.(pid := 2)];
  }

  /** Hard timeout of a slot in use, then re-use: the slot counts one and two requests hold it. */
  lemma HardTimeoutRun()
    ensures Legal(Initial(1), FIRST) && Last(Initial(1), FIRST) == HELD && AfterSweep(HELD, HARD_TIMEOUT + 1, {}, 1) == FREED
    ensures Legal(FREED, [Arrive(1, REQUEST, 2)] + AGAIN)
    ensures var t := Last(FREED, [Arrive(1, REQUEST, 2)] + AGAIN);
            |t.store.slots| == 1 && Live(t.store.slots[0]) && t.store.slots[0].inUse == 1 && Holders(t, 0) == {0, 1} && !Counted(t)
  {
    ReachHeld();
    var f := AfterSweep(HELD, HARD_TIMEOUT + 1, {}, 1);
    assert f.store.slots == [Zeroed(SLOT)];
    assert SweepCloses(HELD.store.slots, HARD_TIMEOUT + 1, {}, 1) == SweepCloses(HELD.store.slots, HARD_TIMEOUT + 1, {}, 0) + [];
    assert f.reqs == FREED.reqs;
    UseAgain(Next(FREED, Arrive(1, REQUEST, 2)));
    LegalCons(FREED, Arrive(1, REQUEST, 2), AGAIN);
  }

  /** An administrator's kill of a slot in use does the same. */
  lemma KillRun()
    ensures Legal(Initial(1), FIRST) && Last(Initial(1), FIRST) == HELD && AfterKill(HELD, 0) == FREED
    ensures Legal(FREED, [Arrive(1, REQUEST, 2)] + AGAIN) && !Counted(Last(FREED, [Arrive(1, REQUEST, 2)] + AGAIN))
  {
    HardTimeoutRun();
    assert AfterKill(HELD, 0).store.slots == [Zeroed(SLOT)];
  }

  /** So does a failed connect to the helper of a slot that somebody else holds as well. */
  lemma ConnectFailureRun()
    ensures Legal(Initial(1), FIRST) && Last(Initial(1), FIRST) == HELD
    ensures Legal(HELD, SECOND) && Last(HELD, SECOND) == SHARED
    ensures Legal(AfterConnectFailure(SHARED, 1), AGAIN) && !Counted(Last(AfterConnectFailure(SHARED, 1), AGAIN))
  {
    ReachHeld();
    ReachShared();
    var f := AfterConnectFailure(SHARED, 1);
    assert f.reqs.Keys == {0, 1};
    UseAgain(f);
  }

  /** And then the counter of a slot in use drops to zero, and below. */
  lemma CounterWraps()
    ensures Legal(FREED, [Arrive(1, REQUEST, 2)] + AGAIN)
    ensures var t := Last(FREED, [Arrive(1, REQUEST, 2)] + AGAIN);
            && Enabled(t, Finish(1, 0)) && 0 in Holders(Next(t, Finish(1, 0)), 0) && |t.store.slots| == 1
            && Next(t, Finish(1, 0)).store.slots[0].inUse == 0
            && Enabled(Next(t, Finish(1, 0)), Finish(0, 0))
            && Next(Next(t, Finish(1, 0)), Finish(0, 0)).store.slots[0].inUse == 0xFFFF_FFFF
  {
    UseAgain(Next(FREED, Arrive(1, REQUEST, 2)));
    LegalCons(FREED, Arrive(1, REQUEST, 2), AGAIN);
    SecondFinishWraps(Last(FREED, [Arrive(1, REQUEST, 2)] + AGAIN), 1, 0, 0, 0);
  }
}
