/** Finite runs of a worker and a connector, as sequences of actions. */
module SessionRuns {
  import opened Transducers
  import opened Sessions

  predicate LegalRun<C>(m: Machine<C>, cap: nat, s: Sys<C>, run: seq<Action>)
    decreases |run|
  {
    run == [] || (Enabled(m, cap, s, run[0]) && LegalRun(m, cap, Next(m, cap, s, run[0]), run[1..]))
  }

  function LastState<C>(m: Machine<C>, cap: nat, s: Sys<C>, run: seq<Action>): Sys<C>
    requires LegalRun(m, cap, s, run)
    decreases |run|
  {
    if run == [] then s else LastState(m, cap, Next(m, cap, s, run[0]), run[1..])
  }

  lemma {:induction false} RunOnCourse<C>(m: Machine<C>, cap: nat, s: Sys<C>, o: Outcome<C>, run: seq<Action>)
    requires OnCourse(m, s, o) && LegalRun(m, cap, s, run)
    ensures OnCourse(m, LastState(m, cap, s, run), o)
    decreases |run|
  {
    if run != [] {
      StepOnCourse(m, cap, s, run[0], o);
      RunOnCourse(m, cap, Next(m, cap, s, run[0]), o, run[1..]);
    }
  }

  /** Where a scheduler leads is the end of a run. */
  lemma {:induction false} ScheduleIsRun<C(!new)>(
    m: Machine<C>, cap: nat, sched: (nat, Sys<C>) -> Action, t: nat, s: Sys<C>) returns (run: seq<Action>)
    requires Scheduler(m, cap, sched)
    ensures LegalRun(m, cap, s, run) && LastState(m, cap, s, run) == RunUnder(m, cap, sched, t, s)
    decreases |s.client.prog|, |s.sending|, |s.up|, |s.inbox|, |s.outbox|, |s.down|, |s.unread|
  {
    if Stuck(m, cap, s) {
      run := [];
    } else {
      var a := sched(t, s);
      StepShrinks(m, cap, s, a);
      var more := ScheduleIsRun(m, cap, sched, t + 1, Next(m, cap, s, a));
      run := [a] + more;
      assert run[1..] == more;
    }
  }
}
