/** Workers that scan the shared table slot by slot under the semaphore: the reference counts hold for them too. */
module PoolScans {
  import opened CStrings
  import opened Pools
  import opened PoolSystem
  import opened Locks

  /** The lock, the requests, and for each process the request it works for. */
  datatype Conc = Conc(lock: Lock, reqs: map<nat, Req>, owner: map<int, nat>)

  /** A step outside of the table, or one of a process on its way through the lock. */
  datatype Move =
    | Local(act: Action)
    | Birth(p: int)
    | Enter(p: int, id: nat, job: Job)
    | Visit(p: int)
    | Leave(p: int)
    | Death(p: int)

  predicate Busy(c: Conc, p: int) {
    p in c.lock.procs && c.lock.procs[p].Inside?
  }

  /** A critical section its request may run in its phase. */
  predicate JobFits(q: Req, job: Job) {
    match job
    case FindJob(r, now) => r == q.r && q.phase == Start && !Unnamed(r.key)
    case AllocJob(r, w) =>
      r == q.r && (q.phase == Opened || q.phase == Missed) && w == WorldOf(q, w.now, w.path) && Nameable(r, w)
    case SweepJob(now, gone) => true
    case FinishJob(k, now) => q.phase == Holding(k)
    case HelperJob(k, helper) => q.phase == Holding(k)
  }

  /** The same critical section as a step of the pool, after n slots in the case of a sweep. */
  function ActionOf(id: nat, job: Job, n: nat): Action {
    match job
    case FindJob(r, now) => FindSlot(id, now)
    case AllocJob(r, w) => AllocSlot(id, w.now, w.path)
    case SweepJob(now, gone) => SweepTable(now, gone, n)
    case FinishJob(k, now) => Finish(id, now)
    case HelperJob(k, helper) => SetHelper(id, helper)
  }

  /** What is left out of the runs: a wrapping counter, kill(2) failing on a live process, a hard timeout of a used slot. */
  predicate WorldOk(s: Sys, job: Job, n: nat) {
    match job
    case FindJob(r, now) =>
      var k := FirstMatch(s.store.slots, r, 0); k != -1 ==> s.store.slots[k].inUse < WRAP - 1
    case SweepJob(now, gone) => SoundGone(s, gone) && NoHardTimeout(s, now, gone, n)
    case _ => true
  }

  /** The process inside has changed the table. */
  predicate TookEffect(q: Proc)
    requires q.Inside?
  {
    q.chosen != -1 || q.job.SweepJob?
  }

  predicate IsLocal(act: Action) {
    act.Arrive? || act.Open? || act.GiveUp?
  }

  /** `a` is the table as it shows to everybody outside. */
  predicate Can(c: Conc, a: Store, mv: Move) {
    match mv
    case Local(act) =>
      && IsLocal(act) && Enabled(Sys(a, c.reqs), act)
      && (act.Open? || act.GiveUp? ==> !Busy(c, c.reqs[act.id].pid))
    case Birth(p) => CanStep(c.lock, Spawn(p))
    case Enter(p, id, job) =>
      CanStep(c.lock, Acquire(p, job)) && id in c.reqs && c.reqs[id].live && c.reqs[id].pid == p && JobFits(c.reqs[id], job)
    case Visit(p) => CanStep(c.lock, VisitNext(p))
    case Leave(p) =>
      CanStep(c.lock, Release(p)) && p in c.owner && c.owner[p] in c.reqs &&
      c.lock.procs[p].at <= |a.slots| && WorldOk(Sys(a, c.reqs), c.lock.procs[p].job, c.lock.procs[p].at)
    case Death(p) =>
      CanStep(c.lock, Exits(p)) &&
      (Busy(c, p) && TookEffect(c.lock.procs[p]) ==>
         p in c.owner && c.owner[p] in c.reqs &&
         c.lock.procs[p].at <= |a.slots| && WorldOk(Sys(a, c.reqs), c.lock.procs[p].job, c.lock.procs[p].at))
  }

  /** The request after its critical section, by what the scan has chosen. */
  function ReqsAfter(a: Store, reqs: map<nat, Req>, id: nat, q: Proc): map<nat, Req>
    requires q.Inside? && id in reqs && q.at <= |a.slots| && -1 <= q.chosen
  {
    match q.job
    case FindJob(r, now) => reqs[id := reqs[id].(phase := if q.chosen == -1 then Missed else Holding(q.chosen))]
    case AllocJob(r, w) => reqs[id := reqs[id].(phase := if q.chosen == -1 then Over else Holding(q.chosen))]
    case SweepJob(now, gone) => AfterSweep(Sys(a, reqs), now, gone, q.at).reqs
    case FinishJob(k, now) => reqs[id := reqs[id].(phase := Over)]
    case HelperJob(k, helper) => reqs
  }

  function After(c: Conc, a: Store, mv: Move): Conc
    requires Can(c, a, mv)
  {
    match mv
    case Local(act) => c.(reqs := Next(Sys(a, c.reqs), act).reqs)
    case Birth(p) => c.(lock := AfterStep(c.lock, Spawn(p)))
    case Enter(p, id, job) => c.(lock := AfterStep(c.lock, Acquire(p, job)), owner := c.owner[p := id])
    case Visit(p) => c.(lock := AfterStep(c.lock, VisitNext(p)))
    case Leave(p) =>
      var q := c.lock.procs[p];
      c.(lock := AfterStep(c.lock, Release(p)), reqs := if q.chosen < -1 then c.reqs else ReqsAfter(a, c.reqs, c.owner[p], q))
    case Death(p) =>
      var q := c.lock.procs[p];
      var reqs := if Busy(c, p) && TookEffect(q) && -1 <= q.chosen then ReqsAfter(a, c.reqs, c.owner[p], q) else c.reqs;
      c.(lock := AfterStep(c.lock, Exits(p)), reqs := AfterDeath(Sys(a, reqs), p).reqs)
  }

  /** What everybody outside sees of the table after a move. */
  function TableAfter(c: Conc, a: Store, mv: Move): Store
    requires Can(c, a, mv)
  {
    match mv
    case Leave(p) => ShownNext(c.lock, Release(p), a)
    case Death(p) => ShownNext(c.lock, Exits(p), a)
    case _ => a
  }

  /** The steps of the pool a move stands for. */
  function ActsOf(c: Conc, mv: Move): seq<Action> {
    match mv
    case Local(act) => [act]
    case Leave(p) =>
      if Busy(c, p) && p in c.owner then [ActionOf(c.owner[p], c.lock.procs[p].job, c.lock.procs[p].at)] else []
    case Death(p) =>
      (if Busy(c, p) && p in c.owner && TookEffect(c.lock.procs[p])
       then [ActionOf(c.owner[p], c.lock.procs[p].job, c.lock.procs[p].at)] else []) + [Die(p)]
    case _ => []
  }

  /** Whoever is inside works for a live request of its own, in a phase that fits. */
  ghost predicate Owned(c: Conc) {
    forall p :: Busy(c, p) ==>
      && p in c.owner && c.owner[p] in c.reqs
      && c.reqs[c.owner[p]].live && c.reqs[c.owner[p]].pid == p && JobFits(c.reqs[c.owner[p]], c.lock.procs[p].job)
  }

  ghost predicate ConcInv(c: Conc, a: Store) {
    LockInv(c.lock) && Shows(c.lock, a) && Inv(Sys(a, c.reqs)) && Owned(c)
  }

  // ---- one critical section is one step of the pool -----------------------------------------

  /** A scan that is over, or has changed the table, did to table and request what the step of the pool does. */
  lemma ScanIsAction(a: Store, reqs: map<nat, Req>, id: nat, q: Proc, t: Store)
    requires Inv(Sys(a, reqs)) && id in reqs && reqs[id].live && q.Inside? && JobFits(reqs[id], q.job)
    requires q.at <= |a.slots| && (t, q.chosen) == Scan(q.job, a, q.at) && WorldOk(Sys(a, reqs), q.job, q.at)
    requires q.at == |a.slots| || TookEffect(q)
    ensures -1 <= q.chosen
    ensures var s, act := Sys(a, reqs), ActionOf(id, q.job, q.at);
            && Enabled(s, act)
            && Next(s, act).reqs == ReqsAfter(a, reqs, id, q)
            && Next(s, act).store == Tail(q.job, t, q.chosen)
  {
    HeldInRange(Sys(a, reqs), id);
    JobIsAction(a, reqs, id, q, t);
  }

  lemma HeldInRange(s: Sys, id: nat)
    requires Inv(s) && id in s.reqs && s.reqs[id].live
    ensures s.reqs[id].phase.Holding? ==> s.reqs[id].phase.slot < |s.store.slots|
  {
  }

  lemma {:induction false} JobIsAction(a: Store, reqs: map<nat, Req>, id: nat, q: Proc, t: Store)
    requires id in reqs && reqs[id].live && q.Inside? && JobFits(reqs[id], q.job)
    requires reqs[id].phase.Holding? ==> reqs[id].phase.slot < |a.slots|
    requires q.at <= |a.slots| && (t, q.chosen) == Scan(q.job, a, q.at) && WorldOk(Sys(a, reqs), q.job, q.at)
    requires q.at == |a.slots| || TookEffect(q)
    ensures -1 <= q.chosen
    ensures var s, act := Sys(a, reqs), ActionOf(id, q.job, q.at);
            && Enabled(s, act)
            && Next(s, act).reqs == ReqsAfter(a, reqs, id, q)
            && Next(s, act).store == Tail(q.job, t, q.chosen)
  {
    match q.job
    case FindJob(r, now) => FindScan(a, r, now, q.at);
    case AllocJob(r, w) => AllocScan(a, r, w, q.at);
    case SweepJob(now, gone) => SweepScan(a, now, gone, q.at);
    case FinishJob(k, now) => FinishScan(a, k, now, q.at);
    case HelperJob(k, helper) => HelperScan(a, k, helper, q.at);
  }

  lemma LocalKeeps(c: Conc, a: Store, act: Action)
    requires ConcInv(c, a) && Can(c, a, Local(act))
    ensures ConcInv(After(c, a, Local(act)), a) && Next(Sys(a, c.reqs), act) == Sys(a, After(c, a, Local(act)).reqs)
  {
    StepKeeps(Sys(a, c.reqs), act);
  }

  lemma LeaveKeeps(c: Conc, a: Store, p: int)
    requires ConcInv(c, a) && Can(c, a, Leave(p))
    ensures var c', a' := After(c, a, Leave(p)), TableAfter(c, a, Leave(p));
            var s, act := Sys(a, c.reqs), ActionOf(c.owner[p], c.lock.procs[p].job, c.lock.procs[p].at);
            ConcInv(c', a') && Enabled(s, act) && Next(s, act) == Sys(a', c'.reqs)
  {
    var q, l := c.lock.procs[p], c.lock;
    assert Busy(c, p) && q.base == a && |l.store.slots| == |a.slots|;
    ScanIsAction(a, c.reqs, c.owner[p], q, l.store);
    ScanIsAtomic(q.job, a, q.at);
    StepRefines(l, Release(p), a);
    StepKeeps(Sys(a, c.reqs), ActionOf(c.owner[p], q.job, q.at));
    NobodyBusy(c, a, p, After(c, a, Leave(p)));
  }

  /** When the process inside has left or died, nobody is inside. */
  lemma NobodyBusy(c: Conc, a: Store, p: int, d: Conc)
    requires LockInv(c.lock) && Busy(c, p)
    requires forall r :: r in d.lock.procs && r != p ==> r in c.lock.procs && d.lock.procs[r] == c.lock.procs[r]
    requires p in d.lock.procs ==> d.lock.procs[p].Outside?
    ensures forall r :: !Busy(d, r)
  {
    forall r ensures !Busy(d, r) {
      if Busy(d, r) {
        assert p in Insiders(c.lock) && r in Insiders(c.lock);
        OneInside(c.lock, p, r);
      }
    }
  }

  lemma DeathKeeps(c: Conc, a: Store, p: int)
    requires ConcInv(c, a) && Can(c, a, Death(p))
    ensures var c', a' := After(c, a, Death(p)), TableAfter(c, a, Death(p));
            var s := Sys(a, c.reqs);
            ConcInv(c', a') && Legal(s, ActsOf(c, Death(p))) && Last(s, ActsOf(c, Death(p))) == Sys(a', c'.reqs)
  {
    var s, c' := Sys(a, c.reqs), After(c, a, Death(p));
    StepRefines(c.lock, Exits(p), a);
    if Busy(c, p) && TookEffect(c.lock.procs[p]) {
      DeathInside(c, a, p);
    } else {
      DieKeeps(s, p);
      QuietDeath(c, a, p);
      assert [Action.Die(p)][1..] == [] && [] + [Action.Die(p)] == [Action.Die(p)];
      if Busy(c, p) { NobodyBusy(c, a, p, c'); }
    }
  }

  /** A process that dies before it has changed anything leaves the table as it was. */
  lemma QuietDeath(c: Conc, a: Store, p: int)
    requires ConcInv(c, a) && Can(c, a, Death(p)) && !(Busy(c, p) && TookEffect(c.lock.procs[p]))
    ensures TableAfter(c, a, Death(p)) == a
  {
    if Busy(c, p) {
      var q := c.lock.procs[p];
      match q.job
      case FindJob(r, now) => FindScan(a, r, now, q.at);
      case AllocJob(r, w) => AllocScan(a, r, w, q.at);
      case SweepJob(now, gone) =>
      case FinishJob(k, now) => FinishScan(a, k, now, q.at);
      case HelperJob(k, helper) => HelperScan(a, k, helper, q.at);
    }
  }

  lemma DeathInside(c: Conc, a: Store, p: int)
    requires ConcInv(c, a) && Can(c, a, Death(p)) && Busy(c, p) && TookEffect(c.lock.procs[p])
    requires LockInv(After(c, a, Death(p)).lock) && Shows(After(c, a, Death(p)).lock, TableAfter(c, a, Death(p)))
    ensures var c', a' := After(c, a, Death(p)), TableAfter(c, a, Death(p));
            var s := Sys(a, c.reqs);
            ConcInv(c', a') && Legal(s, ActsOf(c, Death(p))) && Last(s, ActsOf(c, Death(p))) == Sys(a', c'.reqs)
  {
    var q, s, c' := c.lock.procs[p], Sys(a, c.reqs), After(c, a, Death(p));
    var act := ActionOf(c.owner[p], q.job, q.at);
    assert q.base == a;
    ScanIsAction(a, c.reqs, c.owner[p], q, c.lock.store);
    assert Tail(q.job, c.lock.store, q.chosen) == c.lock.store == TableAfter(c, a, Death(p));
    StepKeeps(s, act);
    DieKeeps(Next(s, act), p);
    TwoSteps(s, act, Action.Die(p));
    NobodyBusy(c, a, p, c');
  }

  lemma TwoSteps(s: Sys, x: Action, y: Action)
    requires Enabled(s, x) && Enabled(Next(s, x), y)
    ensures Legal(s, [x] + [y]) && Last(s, [x] + [y]) == Next(Next(s, x), y)
  {
    OneStep(Next(s, x), y);
    assert ([x] + [y])[1..] == [y];
  }

  lemma OneStep(s: Sys, x: Action)
    requires Enabled(s, x)
    ensures Legal(s, [x]) && Last(s, [x]) == Next(s, x)
  {
    assert [x][1..] == [];
  }

  lemma InnerKeeps(c: Conc, a: Store, mv: Move)
    requires ConcInv(c, a) && Can(c, a, mv) && (mv.Birth? || mv.Enter? || mv.Visit?)
    ensures ConcInv(After(c, a, mv), a) && After(c, a, mv).reqs == c.reqs
  {
    match mv
    case Birth(p) => StepRefines(c.lock, Spawn(p), a);
    case Enter(p, id, job) =>
      StepRefines(c.lock, Acquire(p, job), a);
      assert Insiders(c.lock) == {};
      assert forall r :: Busy(c, r) ==> r in Insiders(c.lock);
    case Visit(p) => StepRefines(c.lock, VisitNext(p), a);
  }

  /** Every move keeps the invariant, and stands for the steps of a legal run of the pool. */
  lemma MoveSimulates(c: Conc, a: Store, mv: Move)
    requires ConcInv(c, a) && Can(c, a, mv)
    ensures var c', a', s := After(c, a, mv), TableAfter(c, a, mv), Sys(a, c.reqs);
            ConcInv(c', a') && Legal(s, ActsOf(c, mv)) && Last(s, ActsOf(c, mv)) == Sys(a', c'.reqs)
  {
    match mv
    case Local(act) => LocalKeeps(c, a, act); OneStep(Sys(a, c.reqs), act);
    case Leave(p) =>
      LeaveKeeps(c, a, p);
      assert Busy(c, p);
      OneStep(Sys(a, c.reqs), ActionOf(c.owner[p], c.lock.procs[p].job, c.lock.procs[p].at));
    case Death(p) => DeathKeeps(c, a, p);
    case _ => InnerKeeps(c, a, mv);
  }

  // ---- whole runs -----------------------------------------------------------------------------

  predicate LegalMoves(c: Conc, a: Store, run: seq<Move>)
    decreases |run|
  {
    run == [] || (Can(c, a, run[0]) && LegalMoves(After(c, a, run[0]), TableAfter(c, a, run[0]), run[1..]))
  }

  function LastConc(c: Conc, a: Store, run: seq<Move>): (Conc, Store)
    requires LegalMoves(c, a, run)
    decreases |run|
  {
    if run == [] then (c, a) else LastConc(After(c, a, run[0]), TableAfter(c, a, run[0]), run[1..])
  }

  lemma {:induction false} LegalThen(s: Sys, x: seq<Action>, y: seq<Action>)
    requires Legal(s, x) && Legal(Last(s, x), y)
    ensures Legal(s, x + y) && Last(s, x + y) == Last(Last(s, x), y)
    decreases |x|
  {
    if x == [] {
      assert x + y == y;
    } else {
      assert (x + y)[1..] == x[1..] + y;
      LegalThen(Next(s, x[0]), x[1..], y);
    }
  }

  lemma {:induction false} RunSimulates(c: Conc, a: Store, run: seq<Move>) returns (acts: seq<Action>)
    requires ConcInv(c, a) && LegalMoves(c, a, run)
    ensures var (d, b) := LastConc(c, a, run);
            ConcInv(d, b) && Legal(Sys(a, c.reqs), acts) && Last(Sys(a, c.reqs), acts) == Sys(b, d.reqs)
    decreases |run|
  {
    if run == [] {
      acts := [];
    } else {
      MoveSimulates(c, a, run[0]);
      var more := RunSimulates(After(c, a, run[0]), TableAfter(c, a, run[0]), run[1..]);
      acts := ActsOf(c, run[0]) + more;
      LegalThen(Sys(a, c.reqs), ActsOf(c, run[0]), more);
    }
  }

  /** No process and no request, n free slots, and the semaphore at 1. */
  function Fresh(n: nat): Conc {
    Conc(Lock(Sem(1, map[]), map[], Initial(n).store), map[], map[])
  }

  /**
   * For every interleaving of slot-by-slot scans under the semaphore, deaths in the middle of a scan
   * included, the table and the requests are those of a legal run of the pool; so each live slot counts
   * the requests that hold it.  While nobody is inside, this is the table itself.
   */
  lemma ScansKeepCount(n: nat, run: seq<Move>) returns (acts: seq<Action>)
    requires LegalMoves(Fresh(n), Initial(n).store, run)
    ensures var (c, a) := LastConc(Fresh(n), Initial(n).store, run);
            && Legal(Initial(n), acts) && Last(Initial(n), acts) == Sys(a, c.reqs)
            && Shows(c.lock, a) && (Insiders(c.lock) == {} ==> c.lock.store == a)
            && (forall i :: 0 <= i < |a.slots| && Live(a.slots[i]) ==> a.slots[i].inUse == |Holders(Sys(a, c.reqs), i)|)
  {
    var c0, a0 := Fresh(n), Initial(n).store;
    assert Insiders(c0.lock) == {};
    assert Inv(Initial(n)) && Sys(a0, c0.reqs) == Initial(n);
    acts := RunSimulates(c0, a0, run);
    EveryRunKeepsCount(n, acts);
  }

  // ---- every part of a request is possible -------------------------------------------------

  /** When nobody is inside, a process can start the scan its request is up to, and a sweep at any time. */
  lemma ScansOpen(c: Conc, a: Store, p: int, id: nat, now: int, path: string, helper: int, gone: set<nat>)
    requires ConcInv(c, a) && p in c.lock.procs && id in c.reqs && c.reqs[id].live && c.reqs[id].pid == p
    requires forall o :: o in c.lock.procs ==> !Busy(c, o)
    ensures var q := c.reqs[id];
            && (q.phase == Start && q.r.key.name != "" ==> Can(c, a, Enter(p, id, FindJob(q.r, now))))
            && (q.phase == Opened || q.phase == Missed ==> Can(c, a, Enter(p, id, AllocJob(q.r, WorldOf(q, now, Some(path))))))
            && (q.phase.Holding? ==>
                  && Can(c, a, Enter(p, id, FinishJob(q.phase.slot, now)))
                  && Can(c, a, Enter(p, id, HelperJob(q.phase.slot, helper))))
            && Can(c, a, Enter(p, id, SweepJob(now, gone)))
  {
    EnterIff(c.lock, p, SweepJob(now, gone));
  }

  /** Inside, the scan goes on slot by slot to its end. */
  lemma ScanGoesOn(c: Conc, a: Store, p: int)
    requires ConcInv(c, a) && Busy(c, p)
    ensures var q := c.lock.procs[p];
            if q.at == |c.lock.store.slots| || q.chosen != -1 then
              q.at <= |a.slots| && (WorldOk(Sys(a, c.reqs), q.job, q.at) ==> Can(c, a, Leave(p)))
            else Can(c, a, Move.Visit(p))
  {
    InsideMoves(c.lock, p);
  }

  /** Outside of the table requests arrive, open their handle and give up; processes come, and die wherever they have changed nothing yet. */
  lemma OthersOpen(c: Conc, a: Store, p: int, id: nat, r: Request)
    requires ConcInv(c, a)
    ensures id !in c.reqs && p != 0 ==> Can(c, a, Local(Arrive(id, r, p)))
    ensures id in c.reqs && c.reqs[id].live && !Busy(c, c.reqs[id].pid) ==>
              && (c.reqs[id].phase == Start && c.reqs[id].r.key.name == "" ==> Can(c, a, Local(Open(id, None))))
              && (c.reqs[id].phase.Holding? && c.reqs[id].r.key.name != "" ==> Can(c, a, Local(GiveUp(id))))
    ensures p !in c.lock.procs ==> Can(c, a, Birth(p))
    ensures p in c.lock.procs && !(Busy(c, p) && TookEffect(c.lock.procs[p])) ==> Can(c, a, Death(p))
  {
    ComeAndGo(c.lock, p);
  }
}
