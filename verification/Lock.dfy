/** The semaphore around the shared table, with undo on death (src/shmem.c). */
module Locks {
  import opened Pools

  // ---- critical sections, slot by slot ------------------------------------------------

  /** The scans of src/db.c that run under the semaphore. */
  datatype Job =
    | FindJob(r: Request, now: int)
    | AllocJob(r: Request, w: World)
    | SweepJob(now: int, gone: set<nat>)
    | FinishJob(k: nat, now: int)
    | HelperJob(k: nat, helper: int)

  /** One slot of a scan; `chosen` is -1 until the scan has found its slot. */
  function VisitSlot(job: Job, s: Store, i: nat, chosen: int): (Store, int)
    requires i < |s.slots|
  {
    var c := s.slots[i];
    match job
    case FindJob(r, now) =>
      if chosen == -1 && Live(c) && Matches(c, r) then (s.(slots := s.slots[i := Taken(c, now)]), i) else (s, chosen)
    case AllocJob(r, w) =>
      if chosen == -1 && !Live(c) then (s.(slots := s.slots[i := Populated(r, w)]), i) else (s, chosen)
    case SweepJob(now, gone) =>
      (Store(s.slots[i := SweptSlot(c, now, i in gone)],
             s.closed + (if Expires(c, now, i in gone) && !Dead(c, i in gone) then HandleSeq(c.db) else [])), -1)
    case FinishJob(k, now) => if i == k then (Finished(s, k, now), k) else (s, chosen)
    case HelperJob(k, helper) => if i == k then (WithHelper(s, k, helper), k) else (s, chosen)
  }

  /** The pid of the connector is written into the slot. */
  function WithHelper(s: Store, k: nat, helper: int): Store
    requires k < |s.slots|
  {
    s.(slots := s.slots[k := s.slots[k].(helper := helper)])
  }

  /** The table and the choice after the first n slots. */
  function Scan(job: Job, s: Store, n: nat): (r: (Store, int))
    requires n <= |s.slots|
    ensures |r.0.slots| == |s.slots|
  {
    if n == 0 then (s, -1) else
    var (t, chosen) := Scan(job, s, n - 1);
    VisitSlot(job, t, n - 1, chosen)
  }

  /** What is left to do behind the scan: a handle without a slot is closed. */
  function Tail(job: Job, s: Store, chosen: int): Store {
    if job.AllocJob? && chosen == -1 && Unnamed(job.r.key) then s.(closed := s.closed + HandleSeq(job.w.db)) else s
  }

  /** The same critical section as one step on the table. */
  function Atomic(job: Job, s: Store): Store {
    match job
    case FindJob(r, now) => Find(s, r, now).0
    case AllocJob(r, w) => Alloc(s, r, w).0
    case SweepJob(now, gone) => Sweep(s, now, gone, |s.slots|)
    case FinishJob(k, now) => if k < |s.slots| then Finished(s, k, now) else s
    case HelperJob(k, helper) => if k < |s.slots| then WithHelper(s, k, helper) else s
  }

  lemma {:induction false} FindScan(s: Store, r: Request, now: int, n: nat)
    requires n <= |s.slots|
    ensures var k := FirstMatch(s.slots, r, 0);
            Scan(FindJob(r, now), s, n) == if k != -1 && k < n then Find(s, r, now) else (s, -1)
  {
    if n > 0 { FindScan(s, r, now, n - 1); }
  }

  lemma {:induction false} AllocScan(s: Store, r: Request, w: World, n: nat)
    requires n <= |s.slots|
    ensures var k := FirstFree(s.slots, 0);
            Scan(AllocJob(r, w), s, n) == if k != -1 && k < n then Alloc(s, r, w) else (s, -1)
  {
    if n > 0 { AllocScan(s, r, w, n - 1); }
  }

  lemma {:induction false} SweepScan(s: Store, now: int, gone: set<nat>, n: nat)
    requires n <= |s.slots|
    ensures Scan(SweepJob(now, gone), s, n) == (Sweep(s, now, gone, n), -1)
  {
    if n > 0 {
      SweepScan(s, now, gone, n - 1);
      SweepStep(s, now, gone, n - 1);
    } else {
      assert Sweep(s, now, gone, 0) == s;
    }
  }

  lemma {:induction false} FinishScan(s: Store, k: nat, now: int, n: nat)
    requires n <= |s.slots|
    ensures Scan(FinishJob(k, now), s, n) == if k < n then (Finished(s, k, now), k as int) else (s, -1)
  {
    if n > 0 { FinishScan(s, k, now, n - 1); }
  }

  lemma {:induction false} HelperScan(s: Store, k: nat, helper: int, n: nat)
    requires n <= |s.slots|
    ensures Scan(HelperJob(k, helper), s, n) == if k < n then (WithHelper(s, k, helper), k as int) else (s, -1)
  {
    if n > 0 { HelperScan(s, k, helper, n - 1); }
  }

  /** A scan that has found its slot, or has seen them all, has done the whole atomic step. */
  lemma ScanIsAtomic(job: Job, s: Store, n: nat)
    requires n <= |s.slots| && (n == |s.slots| || Scan(job, s, n).1 != -1)
    ensures Tail(job, Scan(job, s, n).0, Scan(job, s, n).1) == Atomic(job, s)
  {
    match job
    case FindJob(r, now) => FindScan(s, r, now, n);
    case AllocJob(r, w) => AllocScan(s, r, w, n);
    case SweepJob(now, gone) => SweepScan(s, now, gone, n);
    case FinishJob(k, now) => FinishScan(s, k, now, n);
    case HelperJob(k, helper) => HelperScan(s, k, helper, n);
  }

  /** A scan cut short by the death of its process is a shorter sweep, or happened wholly or not at all. */
  lemma CutScan(job: Job, s: Store, n: nat)
    requires n <= |s.slots|
    ensures var t := Scan(job, s, n).0;
            if job.SweepJob? then t == Sweep(s, job.now, job.gone, n) else t == s || t == Atomic(job, s)
  {
    match job
    case FindJob(r, now) => FindScan(s, r, now, n);
    case AllocJob(r, w) => AllocScan(s, r, w, n);
    case SweepJob(now, gone) => SweepScan(s, now, gone, n);
    case FinishJob(k, now) => FinishScan(s, k, now, n);
    case HelperJob(k, helper) => HelperScan(s, k, helper, n);
  }

  // ---- the semaphore ---------------------------------------------------------------------

  /** A System V semaphore; `undo` is the adjustment the kernel applies when a process exits. */
  datatype Sem = Sem(value: int, undo: map<int, int>)

  /** `semop` with SEM_UNDO; it waits while the value would go below zero. */
  predicate CanSemOp(s: Sem, p: int, op: int) {
    p in s.undo && s.value + op >= 0
  }

  function SemOp(s: Sem, p: int, op: int): Sem
    requires p in s.undo
  {
    Sem(s.value + op, s.undo[p := s.undo[p] - op])
  }

  function SemExit(s: Sem, p: int): Sem
    requires p in s.undo
  {
    Sem(s.value + s.undo[p], s.undo - {p})
  }

  /** The value and the processes inside add up to one, and what a death gives back is what was taken. */
  predicate SemOk(s: Sem, inside: set<int>) {
    && s.value >= 0 && s.value + |inside| == 1 && inside <= s.undo.Keys
    && forall p :: p in s.undo ==> s.undo[p] == if p in inside then 1 else 0
  }

  class Semaphore {
    var value: int
    var undo: map<int, int>
    /** Who has come in and neither gone out nor died. */
    ghost var inside: set<int>

    ghost function State(): Sem
      reads this
    {
      Sem(value, undo)
    }

    ghost predicate Valid()
      reads this
    {
      SemOk(State(), inside)
    }

    /** dbrelay_create_shmem: SETVAL 1. */
    constructor ()
      ensures Valid() && inside == {} && State() == Sem(1, map[])
    {
      value, undo, inside := 1, map[], {};
    }

    method Attach(p: int)
      requires Valid() && p !in undo
      modifies this
      ensures Valid() && inside == old(inside) && State() == Sem(old(value), old(undo)[p := 0])
    {
      undo := undo[p := 0];
    }

    /** dbrelay_lock_shmem: once `semop` returns, the caller is alone inside. */
    method LockShmem(p: int)
      requires Valid() && p !in inside && CanSemOp(State(), p, -1)
      modifies this
      ensures Valid() && old(inside) == {} && inside == {p} && State() == SemOp(old(State()), p, -1)
    {
      value := value - 1;
      undo := undo[p := undo[p] + 1];
      inside := inside + {p};
    }

    /** dbrelay_unlock_shmem: nobody is inside, and the next process can come in. */
    method UnlockShmem(p: int)
      requires Valid() && p in inside
      modifies this
      ensures Valid() && inside == {} && value == 1 && State() == SemOp(old(State()), p, 1)
    {
      assert |inside - {p}| == |inside| - 1 == 0;
      value := value + 1;
      undo := undo[p := undo[p] - 1];
      inside := inside - {p};
    }

    /** The kernel's part when a process ends, inside or not. */
    method Exit(p: int)
      requires Valid() && p in undo
      modifies this
      ensures Valid() && inside == old(inside) - {p} && State() == SemExit(old(State()), p)
    {
      value := value + undo[p];
      undo := undo - {p};
      inside := inside - {p};
    }
  }

  // ---- processes around one semaphore ----------------------------------------------------

  /** `base` is the table a process found when it came in; it is kept for the statement only. */
  datatype Proc = Outside | Inside(job: Job, at: nat, chosen: int, base: Store)

  datatype Lock = Lock(sem: Sem, procs: map<int, Proc>, store: Store)

  datatype Step = Spawn(p: int) | Acquire(p: int, job: Job) | VisitNext(p: int) | Release(p: int) | Exits(p: int)

  predicate ScanDone(l: Lock, p: int)
    requires p in l.procs && l.procs[p].Inside?
  {
    l.procs[p].at == |l.store.slots| || l.procs[p].chosen != -1
  }

  predicate CanStep(l: Lock, st: Step) {
    match st
    case Spawn(p) => p !in l.procs && p !in l.sem.undo
    case Acquire(p, job) => p in l.procs && l.procs[p].Outside? && CanSemOp(l.sem, p, -1)
    case VisitNext(p) => p in l.procs && l.procs[p].Inside? && !ScanDone(l, p) && l.procs[p].at < |l.store.slots|
    case Release(p) => p in l.procs && l.procs[p].Inside? && ScanDone(l, p) && CanSemOp(l.sem, p, 1)
    case Exits(p) => p in l.procs && p in l.sem.undo
  }

  function AfterStep(l: Lock, st: Step): Lock
    requires CanStep(l, st)
  {
    match st
    case Spawn(p) => l.(sem := l.sem.(undo := l.sem.undo[p := 0]), procs := l.procs[p := Outside])
    case Acquire(p, job) => l.(sem := SemOp(l.sem, p, -1), procs := l.procs[p := Inside(job, 0, -1, l.store)])
    case VisitNext(p) =>
      var q := l.procs[p];
      var (t, chosen) := VisitSlot(q.job, l.store, q.at, q.chosen);
      l.(procs := l.procs[p := Inside(q.job, q.at + 1, chosen, q.base)], store := t)
    case Release(p) =>
      var q := l.procs[p];
      Lock(SemOp(l.sem, p, 1), l.procs[p := Outside], Tail(q.job, l.store, q.chosen))
    case Exits(p) => l.(sem := SemExit(l.sem, p), procs := l.procs - {p})
  }

  function Insiders(l: Lock): set<int> {
    set p | p in l.procs && l.procs[p].Inside?
  }

  predicate Balanced(l: Lock) {
    SemOk(l.sem, Insiders(l)) && l.sem.undo.Keys == l.procs.Keys
  }

  /** The process inside has done a prefix of its scan, and nobody else has touched the table. */
  predicate Scanning(l: Lock) {
    forall p :: p in l.procs && l.procs[p].Inside? ==>
      var q := l.procs[p];
      q.at <= |q.base.slots| && (l.store, q.chosen) == Scan(q.job, q.base, q.at)
  }

  predicate LockInv(l: Lock) {
    Balanced(l) && Scanning(l)
  }

  /** The table as it is for everybody outside: untouched until the scan is over. */
  predicate Shows(l: Lock, a: Store) {
    && (forall p :: p in l.procs && l.procs[p].Inside? ==> l.procs[p].base == a)
    && (Insiders(l) == {} ==> l.store == a)
  }

  /** What a step means for the table as one atomic step. */
  function ShownNext(l: Lock, st: Step, a: Store): Store
    requires CanStep(l, st)
  {
    match st
    case Release(p) => Atomic(l.procs[p].job, a)
    case Exits(p) =>
      if l.procs[p].Inside? && l.procs[p].at <= |a.slots| then Scan(l.procs[p].job, a, l.procs[p].at).0 else a
    case _ => a
  }

  lemma InsidersMoved(l: Lock, m: Lock, p: int)
    requires p in m.procs && m.procs == l.procs[p := m.procs[p]]
    ensures Insiders(m) == if m.procs[p].Inside? then Insiders(l) + {p} else Insiders(l) - {p}
  {
  }

  /** Mutual exclusion. */
  lemma OneInside(l: Lock, p: int, q: int)
    requires Balanced(l) && p in Insiders(l) && q in Insiders(l)
    ensures p == q && Insiders(l) == {p} && l.sem.value == 0
  {
    var rest := Insiders(l) - {p};
    assert |rest| == |Insiders(l)| - 1;
    assert rest == {};
    assert q in rest || q == p;
    assert Insiders(l) == rest + {p};
  }

  lemma StepBalances(l: Lock, st: Step)
    requires Balanced(l) && CanStep(l, st)
    ensures Balanced(AfterStep(l, st))
  {
    var m := AfterStep(l, st);
    match st
    case Spawn(p) => MoveBalances(l, m, p);
    case Acquire(p, job) => MoveBalances(l, m, p);
    case VisitNext(p) => MoveBalances(l, m, p);
    case Release(p) => MoveBalances(l, m, p);
    case Exits(p) =>
      assert Insiders(m) == Insiders(l) - {p};
      assert p in Insiders(l) <==> l.procs[p].Inside?;
  }

  function Share(l: Lock, p: int): int {
    if p in l.procs && l.procs[p].Inside? then 1 else 0
  }

  lemma MoveBalances(l: Lock, m: Lock, p: int)
    requires Balanced(l) && p in m.procs && m.procs == l.procs[p := m.procs[p]]
    requires m.sem.undo == l.sem.undo[p := Share(m, p)] && m.sem.value == l.sem.value + Share(l, p) - Share(m, p) >= 0
    ensures Balanced(m)
  {
    InsidersMoved(l, m, p);
    MembersMoved(Insiders(l), p, Share(m, p));
    assert p in Insiders(l) <==> Share(l, p) == 1;
  }

  lemma MembersMoved(s: set<int>, p: int, share: int)
    requires share == 0 || share == 1
    ensures |if share == 1 then s + {p} else s - {p}| == |s| - (if p in s then 1 else 0) + share
  {
    if p in s { assert s + {p} == s; } else { assert s - {p} == s; }
  }

  lemma StepScans(l: Lock, st: Step)
    requires LockInv(l) && CanStep(l, st)
    ensures Scanning(AfterStep(l, st))
  {
    var m := AfterStep(l, st);
    match st
    case Spawn(p) =>
    case Acquire(p, job) => assert forall q :: q in l.procs && l.procs[q].Inside? ==> q in Insiders(l);
    case VisitNext(p) =>
      forall q | q in l.procs && l.procs[q].Inside? ensures q == p { OneInside(l, p, q); }
    case Release(p) =>
      forall q | q in l.procs && l.procs[q].Inside? ensures q == p { OneInside(l, p, q); }
    case Exits(p) =>
  }

  /**
   * Every step of every process keeps the lock, and is seen from outside as nothing at all or as one
   * atomic step of the pool: the whole critical section when it is left, a prefix when its process dies.
   */
  lemma StepRefines(l: Lock, st: Step, a: Store)
    requires LockInv(l) && CanStep(l, st) && Shows(l, a)
    ensures LockInv(AfterStep(l, st)) && Shows(AfterStep(l, st), ShownNext(l, st, a))
  {
    StepBalances(l, st);
    StepScans(l, st);
    StepShows(l, st, a);
  }

  lemma StepShows(l: Lock, st: Step, a: Store)
    requires LockInv(l) && CanStep(l, st) && Shows(l, a)
    ensures Shows(AfterStep(l, st), ShownNext(l, st, a))
  {
    var m := AfterStep(l, st);
    match st
    case Spawn(p) => InsidersMoved(l, m, p);
    case Acquire(p, job) => assert Insiders(l) == {}; InsidersMoved(l, m, p);
    case VisitNext(p) => assert p in Insiders(l); InsidersMoved(l, m, p);
    case Release(p) => LeaveShows(l, m, p, a); ScanIsAtomic(l.procs[p].job, a, l.procs[p].at);
    case Exits(p) =>
      if l.procs[p].Inside? { LeaveShows(l, m, p, a); }
      assert Insiders(m) == Insiders(l) - {p};
  }

  /** With its last process gone out, everybody sees the table as it is. */
  lemma LeaveShows(l: Lock, m: Lock, p: int, a: Store)
    requires LockInv(l) && Shows(l, a) && p in l.procs && l.procs[p].Inside?
    requires forall q :: q in m.procs && q != p ==> q in l.procs && m.procs[q] == l.procs[q]
    requires p in m.procs ==> m.procs[p].Outside?
    ensures Insiders(m) == {} && Shows(m, m.store) && l.procs[p].base == a
  {
    assert p in Insiders(l);
    forall q | q in m.procs && m.procs[q].Inside? ensures false {
      assert q in Insiders(l);
      OneInside(l, p, q);
    }
  }

  // ---- whole runs ------------------------------------------------------------------------------

  predicate LegalRun(l: Lock, run: seq<Step>)
    decreases |run|
  {
    run == [] || (CanStep(l, run[0]) && LegalRun(AfterStep(l, run[0]), run[1..]))
  }

  function LastLock(l: Lock, run: seq<Step>): Lock
    requires LegalRun(l, run)
    decreases |run|
  {
    if run == [] then l else LastLock(AfterStep(l, run[0]), run[1..])
  }

  /** A critical section, whole or cut short after some slots. */
  datatype Effect = Whole(job: Job) | Cut(job: Job, n: nat)

  function EffectOf(l: Lock, st: Step): seq<Effect>
    requires CanStep(l, st)
  {
    match st
    case Release(p) => [Whole(l.procs[p].job)]
    case Exits(p) => if l.procs[p].Inside? then [Cut(l.procs[p].job, l.procs[p].at)] else []
    case _ => []
  }

  function Effects(l: Lock, run: seq<Step>): seq<Effect>
    requires LegalRun(l, run)
    decreases |run|
  {
    if run == [] then [] else EffectOf(l, run[0]) + Effects(AfterStep(l, run[0]), run[1..])
  }

  function Apply(a: Store, e: Effect): Store {
    match e
    case Whole(job) => Atomic(job, a)
    case Cut(job, n) => if n <= |a.slots| then Scan(job, a, n).0 else a
  }

  function Replay(a: Store, es: seq<Effect>): Store
    decreases |es|
  {
    if es == [] then a else Replay(Apply(a, es[0]), es[1..])
  }

  lemma ReplayStep(l: Lock, st: Step, a: Store, more: seq<Effect>)
    requires LockInv(l) && CanStep(l, st) && Shows(l, a)
    ensures Replay(a, EffectOf(l, st) + more) == Replay(ShownNext(l, st, a), more)
  {
    var es := EffectOf(l, st);
    if es == [] { assert es + more == more; } else { assert (es + more)[1..] == more; }
  }

  /**
   * Any interleaving of slot-by-slot scans, deaths included, leaves the table as if the critical
   * sections had happened one after the other, each in one step.
   */
  lemma {:induction false} RunRefines(l: Lock, run: seq<Step>, a: Store)
    requires LockInv(l) && Shows(l, a) && LegalRun(l, run)
    ensures LockInv(LastLock(l, run)) && Shows(LastLock(l, run), Replay(a, Effects(l, run)))
    decreases |run|
  {
    if run != [] {
      StepRefines(l, run[0], a);
      RunRefines(AfterStep(l, run[0]), run[1..], ShownNext(l, run[0], a));
      ReplayStep(l, run[0], a, Effects(AfterStep(l, run[0]), run[1..]));
    }
  }

  // ---- nobody waits for nobody ------------------------------------------------------------

  /** A process can go in if and only if nobody is inside. */
  lemma EnterIff(l: Lock, p: int, job: Job)
    requires Balanced(l) && p in l.procs && l.procs[p].Outside?
    ensures CanStep(l, Acquire(p, job)) <==> forall q :: q in l.procs ==> l.procs[q].Outside?
  {
    if forall q :: q in l.procs ==> l.procs[q].Outside? {
      assert Insiders(l) == {};
    } else {
      var q :| q in l.procs && l.procs[q].Inside?;
      assert q in Insiders(l);
    }
  }

  /** Whoever is inside can go on with its scan, or leave when the scan is over. */
  lemma InsideMoves(l: Lock, p: int)
    requires LockInv(l) && p in l.procs && l.procs[p].Inside?
    ensures if l.procs[p].at == |l.store.slots| || l.procs[p].chosen != -1 then CanStep(l, Release(p)) else CanStep(l, VisitNext(p))
  {
  }

  /** The connector's pid is stored in one slot, and nothing else changes. */
  lemma HelperStored(s: Store, k: nat, helper: int)
    requires k < |s.slots|
    ensures var t := Atomic(HelperJob(k, helper), s);
            t.slots[k].helper == helper && t == s.(slots := s.slots[k := s.slots[k].(helper := helper)])
  {
  }

  /** Processes come and die at any time, also inside. */
  lemma ComeAndGo(l: Lock, p: int)
    requires Balanced(l)
    ensures CanStep(l, Spawn(p)) <==> p !in l.procs
    ensures CanStep(l, Exits(p)) <==> p in l.procs
  {
  }
}
