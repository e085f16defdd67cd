/** No run of an unsafe session is transparent: what the two processes really do, under every schedule. */
module Exactness {
  import opened CStrings
  import opened Framing
  import opened Transducers
  import opened Clients
  import opened Connectors
  import opened Sessions
  import opened SessionRuns
  import opened Scripts
  import opened Transparency

  // ---- the connector consumes a prefix of the script's text --------------------------

  lemma PrefixDrop(t: string, a: string, b: string)
    requires HasPrefix(t, a + b)
    ensures HasPrefix(t, a)
  {
    assert (a + b)[..|a|] == a;
    assert t[..|a|] == t[..|a + b|][..|a|];
  }

  /**
   * The connector has handled the text h, whole pieces from the start of t; while it is open, what is on
   * its way and what the script has still to send continue it inside t.
   */
  ghost predicate Consumes<C>(m: Machine<C>, c0: C, t: string, s: Sys<C>, h: string) {
    && Feed(m, c0, h).state == s.conn && Feed(m, c0, h).left == ""
    && HasPrefix(t, h)
    && (m.open(s.conn) ==> HasPrefix(t, h + (s.inbox + s.up + s.sending + SentText(s.client.prog))))
  }

  lemma FeedPiece<C>(m: Machine<C>, c0: C, h: string, p: string)
    requires Feed(m, c0, h).left == "" && IsPiece(p) && m.open(Feed(m, c0, h).state)
    ensures Feed(m, c0, h + p).state == m.handle(Feed(m, c0, h).state, p).0 && Feed(m, c0, h + p).left == ""
  {
    var f := Feed(m, c0, h);
    FeedAppend(m, c0, h, p);
    assert "" + p == p && p + "" == p;
    CutPiece(p, "");
    var c' := m.handle(f.state, p).0;
    assert Feed(m, c', "") == Fed(c', "", "");
  }

  /** What a step does to the script is to drop instructions from its front, at most one `Send` at a time. */
  lemma ProgSent(s: Client, p: seq<Instr>)
    requires p == [] || (s.prog != [] && !s.prog[0].Send? && (p == s.prog[1..] || p == s.prog))
    ensures exists x :: SentText(s.prog) == SentText(p) + x
  {
    if p == [] {
      assert SentText(s.prog) == SentText(p) + SentText(s.prog);
    } else {
      assert "" + SentText(s.prog[1..]) == SentText(s.prog[1..]);
      assert SentText(s.prog) == SentText(p) + "";
    }
  }

  lemma ClientStep<C>(m: Machine<C>, cap: nat, s: Sys<C>, a: Action)
    requires Enabled(m, cap, s, a) && (a.Deliver? || a.SeeEnd?)
    ensures var p := Next(m, cap, s, a).client.prog;
            p == [] || (!s.client.prog[0].Send? && (p == s.client.prog[1..] || p == s.client.prog))
  {
  }

  lemma {:induction false} StepConsumes<C>(m: Machine<C>, cap: nat, c0: C, t: string, s: Sys<C>, a: Action, h: string) returns (h': string)
    requires Consumes(m, c0, t, s, h) && Enabled(m, cap, s, a)
    ensures Consumes(m, c0, t, Next(m, cap, s, a), h')
  {
    var s' := Next(m, cap, s, a);
    h' := h;
    if a.ConnHandle? {
      h' := HandleConsumes(m, cap, c0, t, s, h);
    } else if m.open(s.conn) {
      match a
      case Begin => BeginText(s.inbox, s.up, s.client.prog);
      case Deliver => DeliverConsumes(m, cap, t, s, a, h);
      case SeeEnd =>
      case LoseSend =>
      case _ => MoveKeepsBytes(m, cap, s, a);
    }
  }

  lemma BeginText(inbox: string, up: string, prog: seq<Instr>)
    requires prog != []
    ensures inbox + up + "" + SentText(prog) ==
            inbox + up + (if prog[0].Send? then prog[0].text else "") + SentText(prog[1..])
  {
    assert inbox + up + "" == inbox + up;
    Assoc(inbox + up, if prog[0].Send? then prog[0].text else "", SentText(prog[1..]));
  }

  lemma DeliverConsumes<C>(m: Machine<C>, cap: nat, t: string, s: Sys<C>, a: Action, h: string)
    requires Enabled(m, cap, s, a) && a.Deliver?
    requires HasPrefix(t, h + (s.inbox + s.up + s.sending + SentText(s.client.prog)))
    ensures var s' := Next(m, cap, s, a); HasPrefix(t, h + (s'.inbox + s'.up + s'.sending + SentText(s'.client.prog)))
  {
    var p := Next(m, cap, s, a).client.prog;
    ClientStep(m, cap, s, a);
    ProgSent(s.client, p);
    var x :| SentText(s.client.prog) == SentText(p) + x;
    var b := s.inbox + s.up + s.sending;
    Assoc(b, SentText(p), x);
    Assoc(h, b + SentText(p), x);
    PrefixDrop(t, h + (b + SentText(p)), x);
  }

  lemma HandleConsumes<C>(m: Machine<C>, cap: nat, c0: C, t: string, s: Sys<C>, h: string) returns (h': string)
    requires Consumes(m, c0, t, s, h) && Enabled(m, cap, s, ConnHandle)
    ensures Consumes(m, c0, t, Next(m, cap, s, ConnHandle), h')
  {
    var p, r := CutOne(s.inbox).piece, CutOne(s.inbox).rest;
    h' := h + p;
    CutIsPiece(s.inbox);
    FeedPiece(m, c0, h, p);
    var x, y := s.up, SentText(s.client.prog);
    HandledText(h, p, r, x, s.sending, y);
    PrefixDrop(t, h', r + x + s.sending + y);
  }

  lemma HandledText(h: string, p: string, r: string, x: string, sending: string, y: string)
    ensures h + ((p + r) + x + sending + y) == (h + p) + (r + x + sending + y)
  {
    assert (p + r) + x + sending + y == p + (r + x + sending + y);
    Assoc(h, p, r + x + sending + y);
  }

  lemma {:induction false} RunConsumes<C>(m: Machine<C>, cap: nat, c0: C, t: string, s: Sys<C>, run: seq<Action>, h: string) returns (h': string)
    requires Consumes(m, c0, t, s, h) && LegalRun(m, cap, s, run)
    ensures Consumes(m, c0, t, LastState(m, cap, s, run), h')
    decreases |run|
  {
    if run == [] {
      h' := h;
    } else {
      var h1 := StepConsumes(m, cap, c0, t, s, run[0], h);
      h' := RunConsumes(m, cap, c0, t, Next(m, cap, s, run[0]), run[1..], h1);
    }
  }

  // ---- what the connector can store and run ---------------------------------------------

  /** Since c0 nothing was executed, and nothing is stored, whose text is as long as n. */
  predicate Short(c0: State, c: State, n: int) {
    && (c.sb.Some? ==> |c.sb.value| < n)
    && (c.req.sql.Some? ==> |c.req.sql.value| < n)
    && c0.executed <= c.executed
    && forall i :: |c0.executed| <= i < |c.executed| && c.executed[i].sql.Some? ==> |c.executed[i].sql.value| < n
  }

  lemma ShortMore(c0: State, c: State, n: int, k: int)
    requires Short(c0, c, n) && n <= k
    ensures Short(c0, c, k)
  {
  }

  /** A handled piece makes what is stored longer by at most its own length, and not at all outside of SQL mode. */
  lemma HandleShort(env: Env, c0: State, c: State, p: string, n: int)
    requires Short(c0, c, n) && 0 < n
    ensures Short(c0, HandleLine(env, c, p).0, if c.receiveSql && SqlPiece(p) then n + |p| else n)
  {
    if c.receiveSql && SqlPiece(p) {
      assert Process(env, c, p) == if c.sb.None? then Undefined(c) else (c.(sb := Some(c.sb.value + p)), CONT);
    } else {
      CommandShort(env, c0, c, p, n);
    }
  }

  lemma CommandShort(env: Env, c0: State, c: State, p: string, n: int)
    requires Short(c0, c, n) && 0 < n && !(c.receiveSql && SqlPiece(p))
    ensures Short(c0, HandleLine(env, c, p).0, n)
  {
    var l := Trim(p);
    if l != "" && l[0] == ':' && Lookup(l).Some? {
      ObeyShort(env, c0, c, l, Lookup(l).value, n);
      RunShort(env, c0, Process(env, c, p).0, n);
    }
  }

  lemma ObeyShort(env: Env, c0: State, c: State, l: string, cmd: Command, n: int)
    requires Short(c0, c, n) && 0 < n && Matches(l, Word(cmd))
    ensures Short(c0, Obey(env, c, l, cmd).0, n)
  {
  }

  lemma RunShort(env: Env, c0: State, c: State, n: int)
    requires Short(c0, c, n)
    ensures Short(c0, RunQuery(env, c).0, n)
  {
  }

  lemma {:induction false} FeedShort(env: Env, c0: State, c: State, s: string, n: int)
    requires Short(c0, c, n) && 0 < n
    ensures Short(c0, Feed(ConnMachine(env), c, s).state, n + |s|)
    decreases |s|
  {
    if c.open && CutOne(s).Piece? {
      var p, r := CutOne(s).piece, CutOne(s).rest;
      var c1 := HandleLine(env, c, p).0;
      HandleShort(env, c0, c, p, n);
      ShortMore(c0, c1, if c.receiveSql && SqlPiece(p) then n + |p| else n, n + |p|);
      FeedShort(env, c0, c1, r, n + |p|);
    } else {
      ShortMore(c0, c, n, n + |s|);
    }
  }

  /** A text with a piece that looks like the end marker loses that piece. */
  lemma {:induction false} FeedUnsafeShort(env: Env, c0: State, c: State, s: string, n: int)
    requires Short(c0, c, n) && 0 < n && c.open && c.receiveSql && c.sb.Some? && !AllPieces(SqlPiece, s)
    ensures Short(c0, Feed(ConnMachine(env), c, s).state, n + |s| - |SQL_END|)
    decreases |s|
  {
    var p, r := CutOne(s).piece, CutOne(s).rest;
    var c1 := HandleLine(env, c, p).0;
    HandleShort(env, c0, c, p, n);
    if SqlPiece(p) {
      HandleSqlText(env, c, p);
      FeedUnsafeShort(env, c0, c1, r, n + |p|);
    } else {
      FeedShort(env, c0, c1, r, n);
      ShortMore(c0, Feed(ConnMachine(env), c1, r).state, n + |r|, n + |s| - |SQL_END|);
    }
  }

  // ---- the end of the script -----------------------------------------------------------

  /** A prefix of a line and what follows ends inside the line or behind it. */
  lemma FeedLinePrefix(env: Env, c: State, line: string, rest: string, t: string)
    requires NoNewline(line) && |line| < MAXPIECE && HasPrefix(line + "\n" + rest, t)
    ensures |t| <= |line| ==> Feed(ConnMachine(env), c, t).state == c
    ensures |t| > |line| ==>
              var t2 := t[|line| + 1..];
              HasPrefix(rest, t2) &&
              Feed(ConnMachine(env), c, t).state == if c.open then Feed(ConnMachine(env), HandleLine(env, c, line + "\n").0, t2).state else c
  {
    var all := line + "\n" + rest;
    if |t| <= |line| {
      assert forall i :: 0 <= i < |t| ==> t[i] == all[i] == line[i];
    } else {
      var t2 := t[|line| + 1..];
      assert t[..|line| + 1] == all[..|line| + 1] == line + "\n";
      assert t == (line + "\n") + t2;
      assert forall i :: 0 <= i < |t2| ==> t2[i] == t[|line| + 1 + i] == all[|line| + 1 + i] == rest[i];
      assert (line + "\n")[..|line|] == line;
      CutPiece(line + "\n", t2);
    }
  }

  /** Behind the end marker the connector is out of SQL mode or gone. */
  lemma EndLeavesSql(env: Env, c: State)
    ensures var c1 := HandleLine(env, c, ":SQL END\n").0; !c1.receiveSql || !c1.open
  {
    var l := ":SQL END\n";
    assert HasPrefix(l, SQL_END) && Trim(l) == SQL_END;
    assert SQL_END[1..4] == Word(CSql) && SQL_END[5..] == "END";
    CommandsPrefixFree(SQL_END, CSql);
    assert Process(env, c, l) == Sql(c, "END");
  }

  /** The lines behind the text store nothing, however far they get. */
  lemma TailShort(env: Env, c0: State, c: State, t: string, n: int)
    requires Short(c0, c, n) && 0 < n && HasPrefix(":SQL END" + "\n" + (":RUN" + "\n" + (":QUIT" + "\n" + "")), t)
    ensures Short(c0, Feed(ConnMachine(env), c, t).state, n)
  {
    FeedLinePrefix(env, c, ":SQL END", ":RUN" + "\n" + (":QUIT" + "\n" + ""), t);
    if |t| > |":SQL END"| && c.open {
      var c1, t1 := HandleLine(env, c, ":SQL END" + "\n").0, t[|":SQL END"| + 1..];
      assert ":SQL END" + "\n" == ":SQL END\n";
      assert HasPrefix(":SQL END\n", SQL_END);
      HandleShort(env, c0, c, ":SQL END\n", n);
      EndLeavesSql(env, c);
      FeedLinePrefix(env, c1, ":RUN", ":QUIT" + "\n" + "", t1);
      if |t1| > |":RUN"| && c1.open {
        var c2, t2 := HandleLine(env, c1, ":RUN" + "\n").0, t1[|":RUN"| + 1..];
        HandleShort(env, c0, c1, ":RUN" + "\n", n);
        QuitShort(env, c0, c1, c2, t2, n);
      }
    }
  }

  lemma QuitShort(env: Env, c0: State, c1: State, c2: State, t2: string, n: int)
    requires Short(c0, c2, n) && 0 < n && !c1.receiveSql && c2 == HandleLine(env, c1, ":RUN" + "\n").0
    requires HasPrefix(":QUIT" + "\n" + "", t2)
    ensures Short(c0, Feed(ConnMachine(env), c2, t2).state, n)
  {
    assert !c2.receiveSql by { BareCommand(env, c1, CRun); }
    FeedLinePrefix(env, c2, ":QUIT", "", t2);
    if |t2| > |":QUIT"| && c2.open {
      HandleShort(env, c0, c2, ":QUIT" + "\n", n);
      assert t2[|":QUIT"| + 1..] == "";
    }
  }

  // ---- the beginning of the script --------------------------------------------------------

  /** Behind a text that is handled to its end, the next text is handled on its own. */
  lemma {:induction false} FeedThen<C>(m: Machine<C>, c: C, s: string, t: string)
    requires Feed(m, c, s).left == ""
    ensures var f := Feed(m, Feed(m, c, s).state, t); Feed(m, c, s + t).state == f.state && Feed(m, c, s + t).left == f.left
  {
    var f := Feed(m, c, s);
    assert f.left + t == t;
    assert Feed(m, f.state, f.left + t) == Feed(m, f.state, t);
    FeedAppend(m, c, s, t);
  }

  lemma FeedOption(env: Env, c: State, a: Setting)
    requires Idle(c) && Sendable(a)
    ensures var f := Feed(ConnMachine(env), c, ":SET " + OptionName(a.cmd) + " " + a.value + "\n");
            f.state == Stored(c, a.cmd, a.value) && f.left == ""
    ensures var c1 := Stored(c, a.cmd, a.value); Idle(c1) && c1.executed == c.executed && c1.connected == c.connected
  {
    var line := ":SET " + OptionName(a.cmd) + " " + a.value;
    assert NoNewline(line) && |line| < MAXPIECE && line == CommandText(a.cmd, a.value) by {
      OptionWord(a.cmd);
      OptionLine(OptionName(a.cmd), Word(a.cmd), a.value);
    }
    FeedOneLine(env, c, line, Stored(c, a.cmd, a.value)) by { HandleOption(env, c, a.cmd, a.value); }
    StoredIdle(c, a.cmd, a.value);
  }

  lemma StoredIdle(c: State, cmd: Command, value: string)
    requires Idle(c)
    ensures var c1 := Stored(c, cmd, value); Idle(c1) && c1.executed == c.executed && c1.connected == c.connected
  {
  }

  lemma FeedOneLine(env: Env, c: State, line: string, c1: State)
    requires c.open && NoNewline(line) && |line| < MAXPIECE && HandleLine(env, c, line + "\n").0 == c1
    ensures Feed(ConnMachine(env), c, line + "\n").state == c1 && Feed(ConnMachine(env), c, line + "\n").left == ""
  {
    FeedLine(ConnMachine(env), c, line);
  }

  lemma {:induction false} FeedOptions(env: Env, c: State, s: seq<Setting>)
    requires Idle(c) && AllSendable(s)
    ensures var f := Feed(ConnMachine(env), c, OptionsText(s)); f.state == StoredAll(c, s) && f.left == ""
    ensures var c1 := StoredAll(c, s); Idle(c1) && c1.executed == c.executed && c1.connected == c.connected
    decreases |s|
  {
    if s != [] {
      FeedOption(env, c, s[0]);
      FeedThen(ConnMachine(env), c, ":SET " + OptionName(s[0].cmd) + " " + s[0].value + "\n", OptionsText(s[1..]));
      FeedOptions(env, Stored(c, s[0].cmd, s[0].value), s[1..]);
    }
  }

  function HeadText(r: Request): string {
    (":HELO" + "\n") + (OptionsText(Settings(r)) + (":SQL BEGIN" + "\n"))
  }

  lemma FeedHead(env: Env, c: State, r: Request)
    requires Idle(c) && FitsFields(r)
    ensures var f := Feed(ConnMachine(env), c, HeadText(r)); f.state == Storing(Configured(c, r), "") && f.left == ""
    ensures Configured(c, r).executed == c.executed && Configured(c, r).connected == c.connected && Idle(Configured(c, r))
  {
    var m, opts, begin := ConnMachine(env), OptionsText(Settings(r)), ":SQL BEGIN" + "\n";
    FeedHelo(env, c);
    FeedThen(m, c, ":HELO" + "\n", opts + begin);
    SettingsSendable(r);
    FeedOptions(env, c, Settings(r));
    SettingsConfigure(c, r);
    FeedThen(m, c, opts, begin);
    FeedBegin(env, Configured(c, r));
  }

  lemma FeedHelo(env: Env, c: State)
    requires Idle(c)
    ensures var f := Feed(ConnMachine(env), c, ":HELO" + "\n"); f.state == c && f.left == ""
  {
    HandleHelo(env, c);
    FeedOneLine(env, c, ":HELO", c);
  }

  lemma FeedBegin(env: Env, c: State)
    requires Idle(c)
    ensures var f := Feed(ConnMachine(env), c, ":SQL BEGIN" + "\n"); f.state == Storing(c, "") && f.left == ""
  {
    assert ":SQL BEGIN" + "\n" == ":SQL BEGIN\n";
    HandleBegin(env, c);
    FeedOneLine(env, c, ":SQL BEGIN", Storing(c, ""));
  }

  lemma ObeyRunsNothing(env: Env, c: State, l: string, cmd: Command)
    requires Matches(l, Word(cmd))
    ensures var c1 := Obey(env, c, l, cmd).0; c1.executed == c.executed && c1.connected == c.connected
  {
    if cmd == CSql { SqlRunsNothing(c, Argument(l, Word(cmd), env.junk, ARG_SZ)); }
  }

  lemma SqlRunsNothing(c: State, arg: string)
    ensures var c1 := Sql(c, arg).0; c1.executed == c.executed && c1.connected == c.connected
  {
  }

  lemma ProcessRunsNothing(env: Env, c: State, p: string)
    ensures var c1 := Process(env, c, p).0; c1.executed == c.executed && c1.connected == c.connected
  {
    var l := Trim(p);
    if Lookup(l).Some? && Matches(l, Word(Lookup(l).value)) { ObeyRunsNothing(env, c, l, Lookup(l).value); }
  }

  lemma HandleGrows(env: Env, c: State, p: string)
    ensures var c1 := HandleLine(env, c, p).0; c.executed <= c1.executed && (c.connected ==> c1.connected)
  {
    ProcessRunsNothing(env, c, p);
  }

  lemma {:induction false} FeedGrows(env: Env, c: State, s: string)
    ensures var c1 := Feed(ConnMachine(env), c, s).state; c.executed <= c1.executed && (c.connected ==> c1.connected)
    decreases |s|
  {
    if c.open && CutOne(s).Piece? {
      HandleGrows(env, c, CutOne(s).piece);
      FeedGrows(env, HandleLine(env, c, CutOne(s).piece).0, CutOne(s).rest);
    }
  }

  const TAIL_TEXT := ":SQL END" + "\n" + (":RUN" + "\n" + (":QUIT" + "\n" + ""))

  /** The text of the whole script: its head, the query text with its newline, and the rest. */
  lemma ScriptText(r: Request, sql: string)
    ensures SentText(Script(r, sql)) == HeadText(r) + ((sql + "\n") + TAIL_TEXT)
  {
    ScriptSent(r, sql);
    var o := OptionsText(Settings(r));
    assert TAIL_TEXT == END_LINE + (":RUN\n" + ":QUIT\n");
    Spliced(":HELO\n", o, ":SQL BEGIN\n", sql, END_LINE, ":RUN\n", ":QUIT\n");
  }

  lemma Spliced(a: string, o: string, b: string, s: string, e: string, u: string, q: string)
    ensures a + ((o + (b + s + "\n" + e) + u) + q) == (a + (o + b)) + ((s + "\n") + (e + (u + q)))
  {
    assert (o + (b + s + "\n" + e) + u) + q == o + ((b + s + "\n" + e) + (u + q));
    assert (b + s + "\n" + e) + (u + q) == b + ((s + "\n") + (e + (u + q)));
    var rest := (s + "\n") + (e + (u + q));
    Assoc(o, b, rest);
    Assoc(a, o + b, rest);
  }

  lemma SplitPrefix(a: string, b: string, h: string)
    requires HasPrefix(a + b, h)
    ensures if |h| < |a| then HasPrefix(a, h) && a == h + a[|h|..] else h == a + h[|a|..] && HasPrefix(b, h[|a|..])
  {
    var t := a + b;
    if |h| < |a| {
      assert h == t[..|h|] == a[..|h|];
    } else {
      var g := h[|a|..];
      assert h[..|a|] == t[..|h|][..|a|] == a;
      assert forall i :: 0 <= i < |g| ==> g[i] == h[|a| + i] == t[|a| + i] == b[i];
      assert g == b[..|g|];
    }
  }

  /** A prefix of an unsafe text loses a piece, or is shorter than the text. */
  lemma TextShort(env: Env, c0: State, c: State, text: string, h: string)
    requires Short(c0, c, 1) && c.open && c.receiveSql && c.sb.Some? && !AllPieces(SqlPiece, text) && HasPrefix(text, h)
    ensures Short(c0, Feed(ConnMachine(env), c, h).state, |text|)
  {
    if AllPieces(SqlPiece, h) {
      assert h != text;
      FeedShort(env, c0, c, h, 1);
      ShortMore(c0, Feed(ConnMachine(env), c, h).state, 1 + |h|, |text|);
    } else {
      FeedUnsafeShort(env, c0, c, h, 1);
      ShortMore(c0, Feed(ConnMachine(env), c, h).state, 1 + |h| - |SQL_END|, |text|);
    }
  }

  /** However much of the script of an unsafe query it has handled, the connector has run nothing, or nothing as long as the query. */
  lemma UnsafeConn(env: Env, c: State, r: Request, sql: string, h: string)
    requires Idle(c) && FitsFields(r) && !SqlSafe(sql) && HasPrefix(SentText(Script(r, sql)), h)
    ensures var c1 := Feed(ConnMachine(env), c, h).state;
            (c1.executed == c.executed && c1.connected == c.connected) || Short(c, c1, |sql| + 1)
  {
    var m, a, text := ConnMachine(env), HeadText(r), sql + "\n";
    ScriptText(r, sql);
    FeedHead(env, c, r);
    SplitPrefix(a, text + TAIL_TEXT, h);
    if |h| < |a| {
      FeedAppend(m, c, h, a[|h|..]);
      FeedGrows(env, c, h);
      FeedGrows(env, Feed(m, c, h).state, Feed(m, c, h).left + a[|h|..]);
    } else {
      var g, c1 := h[|a|..], Storing(Configured(c, r), "");
      FeedThen(m, c, a, g);
      BodyShort(env, c, c1, text, g);
    }
  }

  lemma BodyShort(env: Env, c0: State, c: State, text: string, g: string)
    requires Short(c0, c, 1) && c.open && c.receiveSql && c.sb.Some? && !AllPieces(SqlPiece, text)
    requires EndsLine(text) && HasPrefix(text + TAIL_TEXT, g)
    ensures Short(c0, Feed(ConnMachine(env), c, g).state, |text|)
  {
    var m := ConnMachine(env);
    SplitPrefix(text, TAIL_TEXT, g);
    if |g| < |text| {
      TextShort(env, c0, c, text, g);
    } else {
      var t := g[|text|..];
      TextShort(env, c0, c, text, text);
      FeedNothingLeft(m, c, text);
      FeedThen(m, c, text, t);
      TailShort(env, c0, Feed(m, c, text).state, t, |text|);
    }
  }

  lemma {:induction false} FeedNothingLeft<C>(m: Machine<C>, c: C, s: string)
    requires s == "" || EndsLine(s)
    ensures Feed(m, c, s).left == ""
    decreases |s|
  {
    if m.open(c) && s != "" {
      LinesBehind(s);
      FeedNothingLeft(m, m.handle(c, CutOne(s).piece).0, CutOne(s).rest);
    }
  }

  lemma {:induction false} LinesBehind(s: string)
    requires EndsLine(s)
    ensures CutOne(s).Piece? && (CutOne(s).rest == "" || EndsLine(CutOne(s).rest))
  {
    WholeLines(s);
    var r := CutOne(s).rest;
    assert r != "" ==> r[|r| - 1] == s[|s| - 1];
  }

  lemma StartConsumes(env: Env, c: State, r: Request, sql: string)
    ensures Consumes(ConnMachine(env), c, SentText(Script(r, sql)), Start(c, r, sql), "")
  {
    var s, t := Start(c, r, sql), SentText(Script(r, sql));
    assert Feed(ConnMachine(env), c, "") == Fed(c, "", "");
    assert "" + (s.inbox + s.up + s.sending + SentText(s.client.prog)) == t;
  }

  /** In every run with an unsafe query text, nothing that is ever executed is that text. */
  lemma {:induction false} UnsafeNeverRuns(env: Env, cap: nat, c: State, r: Request, sql: string, run: seq<Action>)
    requires Idle(c) && FitsFields(r) && !SqlSafe(sql)
    requires LegalRun(ConnMachine(env), cap, Start(c, r, sql), run)
    ensures var c1 := LastState(ConnMachine(env), cap, Start(c, r, sql), run).conn;
            && c.executed <= c1.executed
            && forall i :: |c.executed| <= i < |c1.executed| ==> c1.executed[i].sql != Some(sql + "\n")
  {
    UnsafeLast(env, cap, c, r, sql, run);
  }

  lemma {:induction false} UnsafeLast(env: Env, cap: nat, c: State, r: Request, sql: string, run: seq<Action>)
    requires Idle(c) && FitsFields(r) && !SqlSafe(sql)
    requires LegalRun(ConnMachine(env), cap, Start(c, r, sql), run)
    ensures var c1 := LastState(ConnMachine(env), cap, Start(c, r, sql), run).conn;
            c.executed <= c1.executed &&
            ((c1.executed == c.executed && c1.connected == c.connected) || Short(c, c1, |sql| + 1))
  {
    var m, s, t := ConnMachine(env), Start(c, r, sql), SentText(Script(r, sql));
    StartConsumes(env, c, r, sql);
    var h := RunConsumes(m, cap, c, t, s, run, "");
    UnsafeConn(env, c, r, sql, h);
    FeedGrows(env, c, h);
  }

  lemma {:induction false} UnsafeNotQuery(env: Env, cap: nat, c: State, r: Request, sql: string, run: seq<Action>)
    requires Idle(c) && FitsFields(r) && !SqlSafe(sql)
    requires LegalRun(ConnMachine(env), cap, Start(c, r, sql), run)
    ensures LastState(ConnMachine(env), cap, Start(c, r, sql), run).conn != RunQuery(env, Loaded(c, r, sql)).0.(open := false)
  {
    UnsafeLast(env, cap, c, r, sql, run);
  }

  // ---- what the worker ends up with ------------------------------------------------------

  /** The script up to and including the result loop. */
  function UpToResults(r: Request, sql: string): seq<Instr> {
    Exchange(":HELO", RecvPid) + (Options(Settings(r)) + QueryThen(sql, [Collect]))
  }

  lemma ScriptEnds(r: Request, sql: string)
    ensures Script(r, sql) == UpToResults(r, sql) + CLOSING
  {
    assert QueryThen(sql, [Collect] + CLOSING) == QueryThen(sql, [Collect]) + CLOSING;
  }

  predicate EndsCollect(p: seq<Instr>) {
    p != [] && p[|p| - 1].Collect?
  }

  /** What is left of dbrelay_conn_close. */
  predicate Closing(p: seq<Instr>) {
    p == CLOSING || p == CLOSING[1..] || p == [Recv] || p == []
  }

  function Upto<C>(s: Sys<C>, p: seq<Instr>): Sys<C> {
    s.(client := s.client.(prog := p))
  }

  /** While the result loop is not over, the session up to it is on course; from then on the worker holds what it collected. */
  ghost predicate Heading<C>(m: Machine<C>, s: Sys<C>, p: seq<Instr>, o: Outcome<C>) {
    if p != [] then EndsCollect(p) && s.client.prog == p + CLOSING && OnCourse(m, Upto(s, p), o)
    else s.client.got == o.got && Closing(s.client.prog) && (s.sending != "" ==> !s.must)
  }

  lemma ClosingStep<C>(m: Machine<C>, cap: nat, s: Sys<C>, a: Action)
    requires Enabled(m, cap, s, a) && Closing(s.client.prog) && (s.sending != "" ==> !s.must)
    ensures var s' := Next(m, cap, s, a);
            s'.client.got == s.client.got && Closing(s'.client.prog) && (s'.sending != "" ==> !s'.must)
  {
    assert CLOSING[1..][1..] == [Recv] && [Recv][1..] == [];
  }

  /** Nothing is given up while the session is on course. */
  lemma {:induction false} GoesOn<C>(m: Machine<C>, cap: nat, s: Sys<C>, a: Action, o: Outcome<C>)
    requires OnCourse(m, s, o) && Enabled(m, cap, s, a) && o.pid != -1
    ensures a.LoseSend? ==> !s.must
    ensures var t := Next(m, cap, s, a); t.client.prog == [] ==> t.client.pid == o.pid
  {
    StepOnCourse(m, cap, s, a, o);
  }

  /** On course, a step of the first part of a script does the same in front of any other part. */
  lemma {:induction false} CutGoes<C>(m: Machine<C>, cap: nat, s: Sys<C>, a: Action, p: seq<Instr>, q: seq<Instr>, o: Outcome<C>)
    requires p != [] && s.client.prog == p + q && Enabled(m, cap, Upto(s, p), a) && Enabled(m, cap, s, a)
    requires OnCourse(m, Upto(s, p), o) && o.pid != -1
    ensures var t, s' := Next(m, cap, Upto(s, p), a), Next(m, cap, s, a);
            s'.client.prog == t.client.prog + q && Upto(s', t.client.prog) == t
    ensures EndsCollect(p) ==>
              var t := Next(m, cap, Upto(s, p), a); if t.client.prog == [] then t.sending == "" else EndsCollect(t.client.prog)
  {
    GoesOn(m, cap, Upto(s, p), a, o);
    CutStep(m, cap, s, a, p, q, o.pid);
  }

  lemma {:induction false} CutStep<C>(m: Machine<C>, cap: nat, s: Sys<C>, a: Action, p: seq<Instr>, q: seq<Instr>, pid: int)
    requires p != [] && s.client.prog == p + q && Enabled(m, cap, Upto(s, p), a) && Enabled(m, cap, s, a)
    requires (a.LoseSend? ==> !s.must) && pid != -1
    requires var t := Next(m, cap, Upto(s, p), a); t.client.prog == [] ==> t.client.pid == pid
    ensures var t, s' := Next(m, cap, Upto(s, p), a), Next(m, cap, s, a);
            s'.client.prog == t.client.prog + q && Upto(s', t.client.prog) == t
    ensures EndsCollect(p) ==>
              var t := Next(m, cap, Upto(s, p), a); if t.client.prog == [] then t.sending == "" else EndsCollect(t.client.prog)
  {
    if a.Begin? || a.Deliver? || a.SeeEnd? { CutClient(m, cap, s, a, p, q, pid); }
  }

  lemma {:induction false} CutClient<C>(m: Machine<C>, cap: nat, s: Sys<C>, a: Action, p: seq<Instr>, q: seq<Instr>, pid: int)
    requires p != [] && s.client.prog == p + q && Enabled(m, cap, Upto(s, p), a) && Enabled(m, cap, s, a)
    requires (a.LoseSend? ==> !s.must) && pid != -1 && (a.Begin? || a.Deliver? || a.SeeEnd?)
    requires var t := Next(m, cap, Upto(s, p), a); t.client.prog == [] ==> t.client.pid == pid
    ensures var t, s' := Next(m, cap, Upto(s, p), a), Next(m, cap, s, a);
            s'.client.prog == t.client.prog + q && Upto(s', t.client.prog) == t
    ensures EndsCollect(p) ==>
              var t := Next(m, cap, Upto(s, p), a); if t.client.prog == [] then t.sending == "" else EndsCollect(t.client.prog)
  {
    assert (p + q)[1..] == p[1..] + q;
    if a.Deliver? { PieceGoes(s.client, p, q, CutOne(s.unread).piece); }
    if a.SeeEnd? { EndGoes(s.client, p, q); }
  }

  /** Reading a piece drops the same instruction, unless it ends the script. */
  lemma PieceGoes(cl: Client, p: seq<Instr>, q: seq<Instr>, piece: string)
    requires p != [] && Clients.Receiving(cl.(prog := p))
    ensures var x, y := AfterPiece(cl.(prog := p), piece), AfterPiece(cl.(prog := p + q), piece);
            (x.prog == [] && x.pid == -1) || (y == x.(prog := x.prog + q) && (x.prog == p || x.prog == p[1..]))
  {
    assert (p + q)[1..] == p[1..] + q;
  }

  lemma EndGoes(cl: Client, p: seq<Instr>, q: seq<Instr>)
    requires p != [] && Clients.Receiving(cl.(prog := p))
    ensures var x, y := AfterEnd(cl.(prog := p)), AfterEnd(cl.(prog := p + q));
            (x.prog == [] && x.pid == -1) || (y == x.(prog := x.prog + q) && x.prog == p[1..])
  {
    assert (p + q)[1..] == p[1..] + q;
  }

  lemma OverIsGot<C>(m: Machine<C>, s: Sys<C>, o: Outcome<C>)
    requires OnCourse(m, s, o) && s.client.prog == []
    ensures s.client.got == o.got
  {
  }

  lemma StepHeads<C>(m: Machine<C>, cap: nat, s: Sys<C>, a: Action, p: seq<Instr>, o: Outcome<C>) returns (p': seq<Instr>)
    requires Heading(m, s, p, o) && Enabled(m, cap, s, a) && o.pid != -1
    ensures Heading(m, Next(m, cap, s, a), p', o)
  {
    if p == [] {
      ClosingStep(m, cap, s, a);
      p' := [];
    } else {
      StepOnCourse(m, cap, Upto(s, p), a, o);
      CutGoes(m, cap, s, a, p, CLOSING, o);
      var t := Next(m, cap, Upto(s, p), a);
      p' := t.client.prog;
      assert [] + CLOSING == CLOSING;
      if p' == [] { OverIsGot(m, t, o); }
    }
  }

  lemma {:induction false} RunHeads<C>(m: Machine<C>, cap: nat, s: Sys<C>, run: seq<Action>, p: seq<Instr>, o: Outcome<C>) returns (p': seq<Instr>)
    requires Heading(m, s, p, o) && LegalRun(m, cap, s, run) && o.pid != -1
    ensures Heading(m, LastState(m, cap, s, run), p', o)
    decreases |run|
  {
    if run == [] {
      p' := p;
    } else {
      var p1 := StepHeads(m, cap, s, run[0], p, o);
      p' := RunHeads(m, cap, Next(m, cap, s, run[0]), run[1..], p1, o);
    }
  }

  /** What the result loop makes of the answer, and what it leaves unread. */
  function Arrived(env: Env, c2: State): Outcome<State> {
    var f := CollectAll(FRESH, AnswerText(AnswerOf(env, c2)));
    Outcome(env.pid, f.got, RunQuery(env, c2).0, "", f.rest)
  }

  /** The session up to the result loop, whatever the answer looks like. */
  lemma RequestPredicted(env: Env, c: State, r: Request, sql: string)
    requires Idle(c) && ValidPid(env) && FitsFields(r) && SqlSafe(sql)
    ensures var c2 := Loaded(c, r, sql);
            Predict(ConnMachine(env), Client(UpToResults(r, sql), 0, FRESH), c, "", "") ==
            Some(Arrived(env, c2))
  {
    var m, cl, c1, c2 := ConnMachine(env), Client([], env.pid, FRESH), Configured(c, r), Loaded(c, r, sql);
    PredictHelo(env, c, Options(Settings(r)) + QueryThen(sql, [Collect]));
    SettingsSendable(r);
    SettingsConfigure(c, r);
    PredictOptions(env, cl, c, Settings(r), QueryThen(sql, [Collect]));
    PredictSafeQuery(env, cl, c1, sql, [Collect]);
    AnswerCollectedIff(AnswerOf(env, c2));
    assert [Collect] + [] == [Collect];
    PredictCollect(m, cl, RunQuery(env, c2).0, "", AnswerText(AnswerOf(env, c2)), []);
  }

  lemma StartHeads(env: Env, c: State, r: Request, sql: string)
    requires Idle(c) && ValidPid(env) && FitsFields(r) && SqlSafe(sql)
    ensures var c2 := Loaded(c, r, sql);
            Heading(ConnMachine(env), Start(c, r, sql), UpToResults(r, sql),
                    Arrived(env, c2))
  {
    var m, s := ConnMachine(env), Start(c, r, sql);
    RequestPredicted(env, c, r, sql);
    ScriptEnds(r, sql);
    assert Feed(m, c, "") == Fed(c, "", "");
    var t := Upto(s, UpToResults(r, sql));
    assert Upward(t) == "" && Downward(t) + "" == "";
  }

  /** In every run with a safe query text, a finished worker holds what the result loop makes of the answer. */
  lemma WorkerHolds(env: Env, cap: nat, c: State, r: Request, sql: string, run: seq<Action>)
    requires Idle(c) && ValidPid(env) && FitsFields(r) && SqlSafe(sql)
    requires LegalRun(ConnMachine(env), cap, Start(c, r, sql), run)
    ensures var s := LastState(ConnMachine(env), cap, Start(c, r, sql), run);
            s.client.prog == [] ==> s.client.got == CollectAll(FRESH, AnswerText(AnswerOf(env, Loaded(c, r, sql)))).got
  {
    var c2 := Loaded(c, r, sql);
    var o := Arrived(env, c2);
    StartHeads(env, c, r, sql);
    var p := RunHeads(ConnMachine(env), cap, Start(c, r, sql), run, UpToResults(r, sql), o);
  }

  // ---- both ways, on runs ------------------------------------------------------------------

  /** The worker holds exactly the answer, and the connector did exactly what one query with this text does. */
  ghost predicate TransparentEnd(env: Env, c: State, r: Request, sql: string, s: Sys<State>) {
    var c2 := Loaded(c, r, sql);
    s.client == Client([], env.pid, Expected(AnswerOf(env, c2))) && s.conn == RunQuery(env, c2).0.(open := false)
  }

  /** No run of an unsafe session ever gets to a transparent end. */
  lemma UnsafeRunNeverTransparent(env: Env, cap: nat, c: State, r: Request, sql: string, run: seq<Action>)
    requires Idle(c) && ValidPid(env) && FitsFields(r)
    requires LegalRun(ConnMachine(env), cap, Start(c, r, sql), run)
    requires !(SqlSafe(sql) && AnswerSafe(AnswerOf(env, Loaded(c, r, sql))))
    ensures !TransparentEnd(env, c, r, sql, LastState(ConnMachine(env), cap, Start(c, r, sql), run))
  {
    if SqlSafe(sql) {
      WorkerHolds(env, cap, c, r, sql, run);
      AnswerCollectedIff(AnswerOf(env, Loaded(c, r, sql)));
    } else {
      UnsafeNotQuery(env, cap, c, r, sql, run);
    }
  }

  /**
   * Transparency of the real two-process session, both ways: under every scheduler it ends with the
   * worker holding exactly the answer and the connector having run exactly the text plus one newline,
   * if and only if no framed piece of the text starts with the end marker and no framed piece of the
   * answer is a control line that matters at its place.
   */
  lemma SessionRunsIff(env: Env, cap: nat, sched: (nat, Sys<State>) -> Action, c: State, r: Request, sql: string)
    requires Scheduler(ConnMachine(env), cap, sched)
    requires 1 <= cap && Idle(c) && ValidPid(env) && FitsFields(r)
    ensures TransparentEnd(env, c, r, sql, RunUnder(ConnMachine(env), cap, sched, 0, Start(c, r, sql))) <==>
            SqlSafe(sql) && AnswerSafe(AnswerOf(env, Loaded(c, r, sql)))
  {
    if SqlSafe(sql) && AnswerSafe(AnswerOf(env, Loaded(c, r, sql))) {
      SessionTransparent(env, cap, sched, c, r, sql);
    } else {
      var run := ScheduleIsRun(ConnMachine(env), cap, sched, 0, Start(c, r, sql));
      UnsafeRunNeverTransparent(env, cap, c, r, sql, run);
    }
  }

  // ---- one text and one answer that are not delivered ----------------------------------------

  lemma EndMarkerUnsafe()
    ensures !SqlSafe(SQL_END)
  {
    var s := SQL_END + "\n";
    assert s[..|SQL_END|] == SQL_END;
    assert s + "" == s;
    CutPiece(s, "");
  }

  /** A statement that is just the end marker is never run, whatever the schedule. */
  lemma EndMarkerNeverRuns(env: Env, cap: nat, c: State, r: Request, run: seq<Action>)
    requires Idle(c) && FitsFields(r) && LegalRun(ConnMachine(env), cap, Start(c, r, SQL_END), run)
    ensures var c1 := LastState(ConnMachine(env), cap, Start(c, r, SQL_END), run).conn;
            && c.executed <= c1.executed
            && forall i :: |c.executed| <= i < |c1.executed| ==> c1.executed[i].sql != Some(SQL_END + "\n")
  {
    EndMarkerUnsafe();
    UnsafeNeverRuns(env, cap, c, r, SQL_END, run);
  }

  /** Rows that are just `:OK` look like the end of the results: the loop stops with nothing collected and much unread. */
  lemma OkRowsUnsafe()
    ensures !AnswerSafe(Rows(":OK"))
    ensures CollectAll(FRESH, AnswerText(Rows(":OK"))) == Collected(Collector(true, false, 0, ""), ROWS_TAIL, true)
  {
    var s, k := ":OK" + "\n", Collector(true, false, 0, "");
    assert s[..3] == ":OK";
    assert s + "" == s;
    CutPiece(s, "");
    CollectBegin(Rows(":OK"));
    CollectOne(k, ":OK", ROWS_TAIL);
  }

  /** When the database answers `:OK`, a worker that finishes holds the empty text and no error. */
  lemma OkRowsGetLost(env: Env, cap: nat, c: State, r: Request, sql: string, run: seq<Action>)
    requires Idle(c) && ValidPid(env) && FitsFields(r) && SqlSafe(sql)
    requires LegalRun(ConnMachine(env), cap, Start(c, r, sql), run)
    requires AnswerOf(env, Loaded(c, r, sql)) == Rows(":OK")
    ensures var s := LastState(ConnMachine(env), cap, Start(c, r, sql), run);
            s.client.prog == [] ==> s.client.got.text == "" && s.client.got.error == 0
  {
    OkRowsUnsafe();
    WorkerHolds(env, cap, c, r, sql, run);
  }
}
