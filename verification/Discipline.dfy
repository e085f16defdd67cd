/** Exactly which sessions stay disciplined: no lost reply, no deadlock, one direction at a time. */
module Discipline {
  import opened CStrings
  import opened Framing
  import opened Transducers
  import opened Clients
  import opened Connectors
  import opened Sessions
  import opened SessionRuns
  import opened Scripts
  import opened Transparency
  import opened Exactness

  // ---- runs, one behind the other ------------------------------------------------

  lemma {:induction false} RunThen<C>(m: Machine<C>, cap: nat, s: Sys<C>, x: seq<Action>, y: seq<Action>)
    requires LegalRun(m, cap, s, x) && LegalRun(m, cap, LastState(m, cap, s, x), y)
    ensures LegalRun(m, cap, s, x + y) && LastState(m, cap, s, x + y) == LastState(m, cap, LastState(m, cap, s, x), y)
    decreases |x|
  {
    if x == [] {
      assert x + y == y;
    } else {
      assert (x + y)[1..] == x[1..] + y;
      RunThen(m, cap, Next(m, cap, s, x[0]), x[1..], y);
    }
  }

  lemma {:induction false} RunFirst<C>(m: Machine<C>, cap: nat, s: Sys<C>, a: Action, y: seq<Action>)
    requires Enabled(m, cap, s, a) && LegalRun(m, cap, Next(m, cap, s, a), y)
    ensures LegalRun(m, cap, s, [a] + y) && LastState(m, cap, s, [a] + y) == LastState(m, cap, Next(m, cap, s, a), y)
  {
    assert ([a] + y)[1..] == y;
  }

  // ---- a first part of the script can always be brought to its end ---------------------

  lemma {:induction false} Drive<C>(m: Machine<C>, cap: nat, s: Sys<C>, p: seq<Instr>, q: seq<Instr>, o: Outcome<C>) returns (run: seq<Action>)
    requires p != [] && s.client.prog == p + q && OnCourse(m, Upto(s, p), o) && o.pid != -1 && 1 <= cap
    ensures LegalRun(m, cap, s, run)
    ensures var e := LastState(m, cap, s, run);
            e.client.prog == q && OnCourse(m, Upto(e, []), o) && (EndsCollect(p) ==> e.sending == "")
    decreases |p|, |s.sending|, |s.up|, |s.inbox|, |s.outbox|, |s.down|, |s.unread|
  {
    var t := Upto(s, p);
    NoDeadlock(m, cap, t, o);
    var a := SomeAction(m, t);
    assert Enabled(m, cap, s, a);
    CutGoes(m, cap, s, a, p, q, o);
    StepOnCourse(m, cap, t, a, o);
    StepShrinks(m, cap, t, a);
    var p' := Next(m, cap, t, a).client.prog;
    var s' := Next(m, cap, s, a);
    if p' == [] {
      assert [] + q == q;
      run := [a] + [];
      RunFirst(m, cap, s, a, []);
    } else {
      var more := Drive(m, cap, s', p', q, o);
      run := [a] + more;
      RunFirst(m, cap, s, a, more);
    }
  }

  // ---- bytes can always be brought to the connector --------------------------------------

  /** What a run that only carries and handles the bytes on their way to the connector ends in. */
  ghost predicate Pumped<C>(m: Machine<C>, s: Sys<C>, e: Sys<C>) {
    var f := Feed(m, s.conn, Upward(s));
    && e.client == s.client && e.must == s.must && e.unread == s.unread && e.down == s.down
    && (f.replies != "" ==> e.outbox != "")
    && (f.replies == "" ==>
          && e.outbox == "" && e.conn == f.state
          && (m.open(f.state) ==> e.sending == "" && e.up == "" && e.inbox == f.left))
  }

  lemma {:induction false} Pump<C>(m: Machine<C>, cap: nat, s: Sys<C>) returns (run: seq<Action>)
    requires 1 <= cap && s.outbox == ""
    ensures LegalRun(m, cap, s, run) && Pumped(m, s, LastState(m, cap, s, run))
    decreases |s.sending|, |s.up|, |s.inbox|
  {
    if m.open(s.conn) && (CutOne(s.inbox).Piece? || s.up != "" || s.sending != "") {
      var a := if CutOne(s.inbox).Piece? then ConnHandle else if s.up != "" then ConnTake(1) else Push(1);
      var s' := Next(m, cap, s, a);
      PumpStep(m, cap, s, a);
      if s'.outbox == "" {
        var more := Pump(m, cap, s');
        run := [a] + more;
        RunFirst(m, cap, s, a, more);
      } else {
        run := [a] + [];
        RunFirst(m, cap, s, a, []);
      }
    } else {
      run := [];
      PumpEnds(m, s);
    }
  }

  lemma {:induction false} PumpStep<C>(m: Machine<C>, cap: nat, s: Sys<C>, a: Action)
    requires Enabled(m, cap, s, a) && s.outbox == "" && (a.ConnHandle? || a.ConnTake? || a.Push?)
    ensures var s', f := Next(m, cap, s, a), Feed(m, s.conn, Upward(s));
            var f' := Feed(m, s'.conn, Upward(s'));
            f.replies == s'.outbox + f'.replies && f.state == f'.state && f.left == f'.left
  {
    if a.ConnHandle? {
      var p, r, later := CutOne(s.inbox).piece, CutOne(s.inbox).rest, s.up + s.sending;
      Assoc(s.inbox, s.up, s.sending);
      Assoc(r, s.up, s.sending);
      CutStable(s.inbox, later);
    } else {
      MoveKeepsBytes(m, cap, s, a);
      assert "" + Feed(m, s.conn, Upward(s)).replies == Feed(m, s.conn, Upward(s)).replies;
    }
  }

  lemma {:induction false} PumpEnds<C>(m: Machine<C>, s: Sys<C>)
    requires s.outbox == "" && (!m.open(s.conn) || (CutOne(s.inbox).Partial? && s.up == "" && s.sending == ""))
    ensures Pumped(m, s, s)
  {
    if m.open(s.conn) { assert Upward(s) == s.inbox; }
  }

  // ---- a lost reply, or bytes both ways -----------------------------------------------------

  lemma NotDisciplined(env: Env, cap: nat, e: Sys<State>, o: Outcome<State>)
    requires OnCourse(ConnMachine(env), Upto(e, []), o) && o.unread != ""
    requires e.client.prog == CLOSING && e.sending == ""
    ensures !Disciplined(env, cap, e)
  {
    var f := Feed(ConnMachine(env), e.conn, Upward(e));
    assert Downward(e) + f.replies == o.unread;
  }

  /** If the result loop stops too early, a run gets to the closing call with a reply unread. */
  lemma LostReplyRun(env: Env, cap: nat, c: State, r: Request, sql: string) returns (run: seq<Action>)
    requires 1 <= cap && Idle(c) && ValidPid(env) && FitsFields(r)
    requires SqlSafe(sql) && !AllRead(AnswerOf(env, Loaded(c, r, sql)))
    ensures LegalRun(ConnMachine(env), cap, Start(c, r, sql), run)
    ensures !Disciplined(env, cap, LastState(ConnMachine(env), cap, Start(c, r, sql), run))
  {
    var m, s, o := ConnMachine(env), Start(c, r, sql), Arrived(env, Loaded(c, r, sql));
    StartHeads(env, c, r, sql);
    run := Drive(m, cap, s, UpToResults(r, sql), CLOSING, o);
    NotDisciplined(env, cap, LastState(m, cap, s, run), o);
  }

  /** A reply on its way while the worker has still to send. */
  lemma BothWays(env: Env, cap: nat, s: Sys<State>) returns (run: seq<Action>)
    requires s.outbox != "" && s.client.prog != [] && s.client.prog[0].Send? && s.client.prog[0].text != ""
    ensures LegalRun(ConnMachine(env), cap, s, run) && !Disciplined(env, cap, LastState(ConnMachine(env), cap, s, run))
  {
    if Upward(s) != "" {
      run := [];
    } else {
      run := [Begin] + [];
      RunFirst(ConnMachine(env), cap, s, Begin, []);
    }
  }

  /** The connector is storing text, nothing is on its way, and the worker is about to send the text. */
  predicate AboutToSend(s: Sys<State>, c: State, sql: string, more: seq<Instr>) {
    && s.sending == "" && s.up == "" && s.inbox == "" && s.outbox == "" && s.conn == Storing(c, "")
    && s.client.prog == [Send(sql, true)] + ([Send("\n", true)] + more)
  }

  lemma {:induction false} UnsafeTextRun(env: Env, cap: nat, s: Sys<State>, c: State, sql: string, more: seq<Instr>) returns (run: seq<Action>)
    requires 1 <= cap && Idle(c) && !SqlSafe(sql) && AboutToSend(s, c, sql, more)
    requires more != [] && more[0].Send? && more[0].text != ""
    ensures LegalRun(ConnMachine(env), cap, s, run) && !Disciplined(env, cap, LastState(ConnMachine(env), cap, s, run))
  {
    var m, f := ConnMachine(env), Feed(ConnMachine(env), Storing(c, ""), sql);
    FeedUnsafeSql(env, Storing(c, ""), sql + "\n");
    FeedAppend(m, Storing(c, ""), sql, "\n");
    var s1 := Next(m, cap, s, Begin);
    assert s1.client.prog == [Send("\n", true)] + more;
    assert Upward(s1) == sql;
    var run1 := Pump(m, cap, s1);
    var e1 := LastState(m, cap, s1, run1);
    var run2: seq<Action>;
    if f.replies != "" {
      run2 := BothWays(env, cap, e1);
    } else {
      SilentStays(env, c, sql);
      run2 := UnsafeNewlineRun(env, cap, e1, more);
    }
    RunThen(m, cap, s1, run1, run2);
    RunFirst(m, cap, s, Begin, run1 + run2);
    run := [Begin] + (run1 + run2);
  }

  lemma {:induction false} SilentStays(env: Env, c: State, sql: string)
    requires Idle(c) && Feed(ConnMachine(env), Storing(c, ""), sql).replies == ""
    ensures Feed(ConnMachine(env), Storing(c, ""), sql).state.open
  {
    if !AllPieces(SqlPiece, sql) { FeedUnsafeSql(env, Storing(c, ""), sql); } else { FeedSql(env, Storing(c, ""), "", sql); }
  }

  lemma {:induction false} UnsafeNewlineRun(env: Env, cap: nat, e: Sys<State>, more: seq<Instr>) returns (run: seq<Action>)
    requires 1 <= cap && e.sending == "" && e.up == "" && e.outbox == "" && e.client.prog == [Send("\n", true)] + more
    requires more != [] && more[0].Send? && more[0].text != "" && Feed(ConnMachine(env), e.conn, e.inbox + "\n").replies != ""
    ensures LegalRun(ConnMachine(env), cap, e, run) && !Disciplined(env, cap, LastState(ConnMachine(env), cap, e, run))
  {
    var m := ConnMachine(env);
    var s := Next(m, cap, e, Begin);
    assert s.client.prog == more;
    assert Upward(s) == e.inbox + "\n";
    var run1 := Pump(m, cap, s);
    var run2 := BothWays(env, cap, LastState(m, cap, s, run1));
    RunThen(m, cap, s, run1, run2);
    RunFirst(m, cap, e, Begin, run1 + run2);
    run := [Begin] + (run1 + run2);
  }

  /** The script up to the begin line, and what comes behind the text. */
  function UpToBegin(r: Request): seq<Instr> {
    Exchange(":HELO", RecvPid) + (Options(Settings(r)) + [Fresh, Send(":SQL BEGIN\n", true)])
  }

  const BEHIND_TEXT := [Send(":SQL END\n", true), Recv] + ([Send(":RUN\n", true)] + ([Collect] + CLOSING))

  lemma ScriptBegins(r: Request, sql: string)
    ensures Script(r, sql) == UpToBegin(r) + ([Send(sql, true)] + ([Send("\n", true)] + BEHIND_TEXT))
  {
    assert [Send(sql, true), Send("\n", true)] + BEHIND_TEXT == [Send(sql, true)] + ([Send("\n", true)] + BEHIND_TEXT);
  }

  lemma BeginPredicted(env: Env, c: State, r: Request)
    requires Idle(c) && ValidPid(env) && FitsFields(r)
    ensures Predict(ConnMachine(env), Client(UpToBegin(r), 0, FRESH), c, "", "") ==
            Some(Outcome(env.pid, FRESH, Storing(Configured(c, r), ""), "", ""))
  {
    var begin, cl := [Fresh, Send(":SQL BEGIN\n", true)], Client([], env.pid, FRESH);
    PredictHelo(env, c, Options(Settings(r)) + begin);
    SettingsSendable(r);
    SettingsConfigure(c, r);
    PredictOptions(env, cl, c, Settings(r), begin);
    PredictBegin(env, cl, Configured(c, r), []);
    assert begin + [] == begin;
  }

  /** With an unsafe text, a run gets to where a reply meets bytes that are still going up. */
  lemma {:induction false} UnsafeRun(env: Env, cap: nat, c: State, r: Request, sql: string) returns (run: seq<Action>)
    requires 1 <= cap && Idle(c) && ValidPid(env) && FitsFields(r) && !SqlSafe(sql)
    ensures LegalRun(ConnMachine(env), cap, Start(c, r, sql), run)
    ensures !Disciplined(env, cap, LastState(ConnMachine(env), cap, Start(c, r, sql), run))
  {
    var m, s, c1 := ConnMachine(env), Start(c, r, sql), Configured(c, r);
    var text := [Send(sql, true)] + ([Send("\n", true)] + BEHIND_TEXT);
    var o := Outcome(env.pid, FRESH, Storing(c1, ""), "", "");
    ScriptBegins(r, sql);
    HeadOnCourse(env, c, r, sql);
    var run1 := Drive(m, cap, s, UpToBegin(r), text, o);
    var e1 := LastState(m, cap, s, run1);
    OverIsOutcome(m, e1, o);
    var run2 := Pump(m, cap, e1);
    var e2 := LastState(m, cap, e1, run2);
    var run3 := UnsafeTextRun(env, cap, e2, c1, sql, BEHIND_TEXT);
    RunThen(m, cap, e1, run2, run3);
    RunThen(m, cap, s, run1, run2 + run3);
    run := run1 + (run2 + run3);
  }

  lemma HeadOnCourse(env: Env, c: State, r: Request, sql: string)
    requires Idle(c) && ValidPid(env) && FitsFields(r)
    ensures OnCourse(ConnMachine(env), Upto(Start(c, r, sql), UpToBegin(r)), Outcome(env.pid, FRESH, Storing(Configured(c, r), ""), "", ""))
    ensures Idle(Configured(c, r))
  {
    var t := Upto(Start(c, r, sql), UpToBegin(r));
    BeginPredicted(env, c, r);
    FeedHead(env, c, r);
    assert Feed(ConnMachine(env), c, "") == Fed(c, "", "");
    assert Upward(t) == "" && Downward(t) + "" == "";
  }

  lemma OverIsOutcome<C>(m: Machine<C>, s: Sys<C>, o: Outcome<C>)
    requires OnCourse(m, Upto(s, []), o)
    ensures var f := Feed(m, s.conn, Upward(s)); o.conn == f.state && o.left == f.left && o.unread == Downward(s) + f.replies
  {
  }

  // ---- both ways --------------------------------------------------------------------------

  /**
   * Every reachable state of a session is disciplined if and only if no framed piece of the text starts
   * with the end marker and the result loop reads the answer to its end.
   */
  lemma DisciplinedIff(env: Env, cap: nat, c: State, r: Request, sql: string)
    requires 1 <= cap && Idle(c) && ValidPid(env) && FitsFields(r)
    ensures (forall run :: LegalRun(ConnMachine(env), cap, Start(c, r, sql), run) ==>
               Disciplined(env, cap, LastState(ConnMachine(env), cap, Start(c, r, sql), run))) <==>
            SqlSafe(sql) && AllRead(AnswerOf(env, Loaded(c, r, sql)))
  {
    var m, s := ConnMachine(env), Start(c, r, sql);
    if SqlSafe(sql) && AllRead(AnswerOf(env, Loaded(c, r, sql))) {
      forall run | LegalRun(m, cap, s, run) ensures Disciplined(env, cap, LastState(m, cap, s, run)) {
        EveryReachableState(env, cap, c, r, sql, run);
      }
    } else {
      var run := BadRun(env, cap, c, r, sql);
    }
  }

  lemma BadRun(env: Env, cap: nat, c: State, r: Request, sql: string) returns (run: seq<Action>)
    requires 1 <= cap && Idle(c) && ValidPid(env) && FitsFields(r)
    requires !(SqlSafe(sql) && AllRead(AnswerOf(env, Loaded(c, r, sql))))
    ensures LegalRun(ConnMachine(env), cap, Start(c, r, sql), run)
    ensures !Disciplined(env, cap, LastState(ConnMachine(env), cap, Start(c, r, sql), run))
  {
    if SqlSafe(sql) { run := LostReplyRun(env, cap, c, r, sql); } else { run := UnsafeRun(env, cap, c, r, sql); }
  }
}
