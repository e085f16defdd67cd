/** What a whole session amounts to, and when it is transparent. */
module Transparency {
  import opened CStrings
  import opened Framing
  import opened Transducers
  import opened Clients
  import opened Connectors
  import opened Sessions
  import opened SessionRuns
  import opened Scripts

  // ---- the SQL text ------------------------------------------------------

  predicate SqlPiece(p: string) {
    !HasPrefix(p, SQL_END)
  }

  /** No framed piece of the query text looks like the end marker. */
  predicate SqlSafe(sql: string) {
    AllPieces(SqlPiece, sql + "\n")
  }

  function Consumed(s: string): string
    decreases |s|
  {
    match CutOne(s)
    case Partial => ""
    case Piece(p, r) => p + Consumed(r)
  }

  lemma {:induction false} ConsumedLeftover(s: string)
    ensures Consumed(s) + Leftover(s) == s
    decreases |s|
  {
    match CutOne(s)
    case Partial =>
    case Piece(p, r) =>
      ConsumedLeftover(r);
      Assoc(p, Consumed(r), Leftover(r));
  }

  lemma HandleSqlText(env: Env, c: State, p: string)
    requires c.receiveSql && c.sb.Some? && SqlPiece(p)
    ensures ConnMachine(env).handle(c, p) == (c.(sb := Some(c.sb.value + p)), "")
  {
    assert HandleLine(env, c, p) == (c.(sb := Some(c.sb.value + p)), "");
  }

  /** In SQL mode the connector stores its input silently. */
  lemma {:induction false} FeedSql(env: Env, c: State, t: string, s: string)
    requires c.open && c.receiveSql && c.sb == Some(t) && AllPieces(SqlPiece, s)
    ensures Feed(ConnMachine(env), c, s) == Fed(c.(sb := Some(t + Consumed(s))), Leftover(s), "")
    ensures Stays(ConnMachine(env), c, s)
    decreases |s|
  {
    match CutOne(s)
    case Partial =>
      assert t + "" == t;
    case Piece(p, r) =>
      var c' := c.(sb := Some(t + p));
      HandleSqlText(env, c, p);
      FeedSql(env, c', t + p, r);
      Assoc(t, p, Consumed(r));
  }

  /** A piece that looks like the end marker draws a reply in the middle of the text. */
  lemma {:induction false} FeedUnsafeSql(env: Env, c: State, s: string)
    requires c.open && c.receiveSql && c.sb.Some? && !AllPieces(SqlPiece, s)
    ensures Feed(ConnMachine(env), c, s).replies != ""
    decreases |s|
  {
    var p, r := CutOne(s).piece, CutOne(s).rest;
    var (c', reply) := HandleLine(env, c, p);
    if SqlPiece(p) {
      FeedUnsafeSql(env, c', r);
    } else {
      EndMarkerReplies(env, c, p);
    }
  }

  lemma EndMarkerReplies(env: Env, c: State, p: string)
    requires c.open && c.receiveSql && c.sb.Some? && HasPrefix(p, SQL_END)
    ensures HandleLine(env, c, p).1 != ""
  {
    var l := Trim(p);
    var e := SQL_END;
    assert p[..8] == e && p[7] == e[7];
    assert l[..8] == e;
    assert l[0] == e[0] && l[1] == e[1] && l[2] == e[2] && l[3] == e[3];
    assert l[1..4] == [e[1], e[2], e[3]];
    CommandsPrefixFree(l, CSql);
    assert l[5] == e[5];
    assert Argument(l, Word(CSql), env.junk, ARG_SZ)[0] == l[5..][0];
  }

  lemma {:induction false} SilentIsQuiet<C>(m: Machine<C>, c: C, s: string)
    requires Feed(m, c, s).replies == ""
    ensures Quiet(m, c, s)
    decreases |s|
  {
    if m.open(c) && CutOne(s).Piece? {
      SilentIsQuiet(m, m.handle(c, CutOne(s).piece).0, CutOne(s).rest);
    }
  }

  // ---- the result text -----------------------------------------------------

  predicate RowPiece(p: string) {
    var line := Trim(p);
    !Stops(line) && line != ":RESULTS END" && line != ":ERROR BEGIN"
  }

  /**
   * With the loop's two flags as given: no framed piece of an error text stops the loop or is dropped
   * with both flags off, and the results flag is off again at the end, so that the end line is dropped.
   */
  predicate ErrorShown(results: bool, errors: bool, s: string)
    decreases |s|
  {
    match CutOne(s)
    case Partial => !results
    case Piece(p, rest) =>
      var line := Trim(p);
      var r, e := results && line != ":RESULTS END", errors && line != ":ERROR END";
      !Stops(line) && (r || e) && ErrorShown(r || line == ":RESULTS BEGIN", e || line == ":ERROR BEGIN", rest)
  }

  /** No framed piece of an answer is a control line that matters at its place. */
  predicate AnswerSafe(a: Answer) {
    match a
    case Rows(t) => AllPieces(RowPiece, t + "\n")
    case SqlError(e) => ErrorShown(false, true, e + "\n")
  }

  /** The loop is between the begin and end lines of a result. */
  predicate Inside(k: Collector) {
    k.results && !k.errors && k.error == 0
  }

  lemma KeepLine(k: Collector, p: string)
    requires Inside(k) && RowPiece(p)
    ensures !Stops(Trim(p)) && CollectLine(k, Trim(p)) == k.(text := k.text + Trim(p))
  {
  }

  lemma CollectPiece(k: Collector, s: string, more: string)
    requires EndsLine(s) && Inside(k) && AllPieces(RowPiece, s)
    ensures CutOne(s).Piece?
    ensures CollectAll(k, s + more) == CollectAll(k.(text := k.text + Trim(CutOne(s).piece)), CutOne(s).rest + more)
  {
    WholeLines(s);
    CutStable(s, more);
    KeepLine(k, CutOne(s).piece);
  }

  lemma {:induction false} CollectBody(k: Collector, s: string, more: string)
    requires s == "" || EndsLine(s)
    requires Inside(k) && AllPieces(RowPiece, s)
    ensures CollectAll(k, s + more) == CollectAll(k.(text := k.text + DeleteNewlines(s)), more)
    decreases |s|
  {
    if s == "" {
      assert s + more == more;
      assert k.text + DeleteNewlines(s) == k.text;
    } else {
      CollectPiece(k, s, more);
      var p, r := CutOne(s).piece, CutOne(s).rest;
      assert r != "" ==> r[|r| - 1] == s[|s| - 1];
      CollectBody(k.(text := k.text + Trim(p)), r, more);
      TrimPiece(s);
      DeleteNewlinesAppend(p, r);
      Assoc(k.text, Trim(p), DeleteNewlines(r));
      assert p + r == s;
    }
  }

  lemma CollectOne(k: Collector, line: string, more: string)
    requires NoNewline(line) && |line| < MAXPIECE
    ensures CollectAll(k, line + "\n" + more) ==
            if Stops(line) then Collected(k, more, true) else CollectAll(CollectLine(k, line), more)
  {
    assert (line + "\n")[..|line|] == line;
    CutPiece(line + "\n", more);
    assert Trim(line + "\n") == line;
  }

  function Expected(a: Answer): Collector {
    match a
    case Rows(t) => Collector(false, false, 0, DeleteNewlines(t))
    case SqlError(e) => Collector(false, false, 1, DeleteNewlines(e))
  }

  function BeginLine(a: Answer): string {
    if a.Rows? then ":RESULTS BEGIN" else ":ERROR BEGIN"
  }

  function EndLine(a: Answer): string {
    if a.Rows? then ":RESULTS END" else ":ERROR END"
  }

  function Body(a: Answer): string {
    if a.Rows? then a.text else a.message
  }

  function Tail(a: Answer): string {
    EndLine(a) + "\n" + (":OK" + "\n" + "")
  }

  lemma AnswerShape(a: Answer)
    ensures AnswerText(a) == BeginLine(a) + "\n" + ((Body(a) + "\n") + Tail(a))
  {
    var b, e, o := BeginLine(a) + "\n", EndLine(a) + "\n", ":OK" + "\n";
    AnswerParts(a);
    assert o + "" == o;
    Regroup(b, Body(a), "\n", e, o);
  }

  lemma AnswerParts(a: Answer)
    ensures AnswerText(a) == (BeginLine(a) + "\n") + Body(a) + "\n" + (EndLine(a) + "\n") + (":OK" + "\n")
  {
    if a.Rows? {
      assert ":RESULTS BEGIN\n" == ":RESULTS BEGIN" + "\n";
      assert ":RESULTS END\n" == ":RESULTS END" + "\n";
    } else {
      assert ":ERROR BEGIN\n" == ":ERROR BEGIN" + "\n";
      assert ":ERROR END\n" == ":ERROR END" + "\n";
    }
    assert ":OK\n" == ":OK" + "\n";
  }

  lemma Regroup(a: string, b: string, c: string, d: string, e: string)
    ensures a + b + c + d + e == a + ((b + c) + (d + e))
  {
    assert a + b + c == a + (b + c);
    assert a + (b + c) + d == a + ((b + c) + d);
  }

  lemma CollectBegin(a: Answer)
    ensures var k := CollectLine(FRESH, BeginLine(a));
            && k == (if a.Rows? then Collector(true, false, 0, "") else Collector(false, true, 1, ""))
            && CollectAll(FRESH, AnswerText(a)) == CollectAll(k, (Body(a) + "\n") + Tail(a))
  {
    AnswerShape(a);
    CollectOne(FRESH, BeginLine(a), (Body(a) + "\n") + Tail(a));
  }

  /** The end line, kept if the other kind of text is still open, and the `:OK` behind it. */
  lemma CollectTail(a: Answer, k: Collector)
    ensures CollectAll(k, Tail(a)) == Collected(CollectLine(k, EndLine(a)), "", true)
  {
    CollectOne(k, EndLine(a), ":OK" + "\n" + "");
    CollectOne(CollectLine(k, EndLine(a)), ":OK", "");
  }

  lemma DeleteFinalNewline(s: string)
    ensures DeleteNewlines(s + "\n") == DeleteNewlines(s)
  {
    DeleteNewlinesAppend(s, "\n");
    assert DeleteNewlines("\n") == "";
  }

  lemma CollectRows(t: string)
    requires AnswerSafe(Rows(t))
    ensures CollectAll(FRESH, AnswerText(Rows(t))) == Collected(Expected(Rows(t)), "", true)
  {
    CollectBegin(Rows(t));
    CollectRowsFrom(t, Tail(Rows(t)));
    CollectTail(Rows(t), Collector(true, false, 0, DeleteNewlines(t)));
  }

  lemma CollectRowsFrom(t: string, more: string)
    requires AllPieces(RowPiece, t + "\n")
    ensures CollectAll(Collector(true, false, 0, ""), (t + "\n") + more) ==
            CollectAll(Collector(true, false, 0, DeleteNewlines(t)), more)
  {
    CollectBody(Collector(true, false, 0, ""), t + "\n", more);
    DeleteFinalNewline(t);
    assert "" + DeleteNewlines(t) == DeleteNewlines(t);
  }

  // ---- the whole session -----------------------------------------------------

  lemma {:induction false} PredictCollect<C>(m: Machine<C>, cl: Client, c: C, left: string, replies: string, rest: seq<Instr>)
    requires CollectAll(cl.got, replies).stopped
    ensures var f := CollectAll(cl.got, replies);
            Predict(m, cl.(prog := [Collect] + rest), c, left, replies) ==
            Predict(m, Client(rest, cl.pid, f.got), c, left, f.rest)
    decreases |replies|
  {
    var line := Trim(CutOne(replies).piece);
    PredictOneLine(m, cl, c, left, replies, rest);
    if !Stops(line) { PredictCollect(m, cl.(got := CollectLine(cl.got, line)), c, left, CutOne(replies).rest, rest); }
  }

  lemma {:induction false} PredictOneLine<C>(m: Machine<C>, cl: Client, c: C, left: string, replies: string, rest: seq<Instr>)
    requires CutOne(replies).Piece?
    ensures var line, r := Trim(CutOne(replies).piece), CutOne(replies).rest;
            Predict(m, cl.(prog := [Collect] + rest), c, left, replies) ==
            if Stops(line) then Predict(m, Client(rest, cl.pid, cl.got), c, left, r)
            else Predict(m, cl.(prog := [Collect] + rest, got := CollectLine(cl.got, line)), c, left, r)
  {
    assert ([Collect] + rest)[1..] == rest;
  }

  lemma BareCommand(env: Env, c: State, cmd: Command)
    requires !c.receiveSql
    ensures var l := ":" + Word(cmd);
            Matches(l, Word(cmd)) && Process(env, c, l + "\n") == Obey(env, c, l, cmd)
  {
    var l := ":" + Word(cmd);
    assert l[1..|Word(cmd)| + 1] == Word(cmd);
    assert Trim(l + "\n") == l;
    CommandsPrefixFree(l, cmd);
  }

  /** The connector with the query text stored, ready to run it. */
  function Loaded(c: State, r: Request, sql: string): State {
    WithSql(Configured(c, r), sql + "\n")
  }

  function AnswerOf(env: Env, c: State): Answer {
    if !c.connected && env.connect(c.req).Some? then SqlError(env.connect(c.req).value)
    else env.exec(Execution(c.req.database, c.req.sql, c.req.flags))
  }

  /** The transparent outcome: the worker has the pid and the answer, the connector ran the query once. */
  function Transparent(env: Env, c: State, r: Request, sql: string): Outcome<State> {
    var c2 := Loaded(c, r, sql);
    Outcome(env.pid, Expected(AnswerOf(env, c2)), RunQuery(env, c2).0.(open := false), "", "")
  }

  /** A connector between two sessions. */
  predicate Idle(c: State) {
    c.open && !c.receiveSql
  }

  predicate ValidPid(env: Env) {
    env.pid < 0x8000_0000
  }

  lemma HandleHelo(env: Env, c: State)
    requires Idle(c)
    ensures ConnMachine(env).handle(c, ":HELO" + "\n") == (c, ":PID " + Decimal(env.pid) + "\n")
  {
    BareCommand(env, c, CHelo);
    assert ":" + Word(CHelo) + "\n" == ":HELO" + "\n";
  }

  lemma ReadOwnPid(cl: Client, pid: nat)
    requires cl.prog != []
    ensures ReadPid(cl, ":PID " + Decimal(pid) + "\n") == Client(cl.prog[1..], pid, cl.got)
  {
    var reply := ":PID " + Decimal(pid);
    assert Trim(reply + "\n") == reply && (reply + "\n")[..5] == ":PID ";
    assert reply[5..] == SignedDecimal(pid);
    AtolSignedDecimal(pid);
  }

  lemma PredictHelo(env: Env, c: State, rest: seq<Instr>)
    requires Idle(c) && ValidPid(env)
    ensures Predict(ConnMachine(env), Client(Exchange(":HELO", RecvPid) + rest, 0, FRESH), c, "", "") ==
            Predict(ConnMachine(env), Client(rest, env.pid, FRESH), c, "", "")
  {
    var reply := ":PID " + Decimal(env.pid);
    assert Pow10(10) == 10000000000;
    DecimalFits(env.pid, 10);
    assert NoNewline(reply);
    HandleHelo(env, c);
    PredictExchange(ConnMachine(env), Client([], 0, FRESH), c, ":HELO", reply, RecvPid, rest);
    assert ([RecvPid] + rest)[1..] == rest;
    ReadOwnPid(Client([RecvPid] + rest, 0, FRESH), env.pid);
  }

  lemma HandleQuit(env: Env, c: State)
    requires Idle(c)
    ensures Feed(ConnMachine(env), c, ":QUIT\n") == Fed(c.(open := false), "", ":BYE\n")
    ensures Quiet(ConnMachine(env), c, ":QUIT\n")
  {
    assert ":" + Word(CQuit) + "\n" == ":QUIT" + "\n" == ":QUIT\n";
    BareCommand(env, c, CQuit);
    FeedLine(ConnMachine(env), c, ":QUIT");
  }

  lemma ReadBye<C>(m: Machine<C>, cl: Client, c: C, replies: string)
    requires replies == ":BYE\n" || (replies == "" && !m.open(c))
    ensures Predict(m, cl.(prog := [Recv]), c, "", replies) == Some(Outcome(cl.pid, cl.got, c, "", ""))
  {
    assert [Recv][1..] == [];
    CutOwnLine(":BYE");
    assert ":BYE" + "\n" == ":BYE\n";
  }

  /** Closing: a live connector says goodbye, an ended one is noticed; an unread reply is a fault. */
  lemma PredictClosing(env: Env, cl: Client, c: State, replies: string)
    requires !c.receiveSql
    ensures var o := Predict(ConnMachine(env), cl.(prog := CLOSING), c, "", replies);
            if replies == "" then o == Some(Outcome(cl.pid, cl.got, c.(open := false), "", "")) else o == None
  {
    if replies == "" {
      var m := ConnMachine(env);
      assert CLOSING[1..] == [Send(":QUIT\n", false)] + [Recv];
      assert "" + ":QUIT\n" == ":QUIT\n";
      if c.open { HandleQuit(env, c); }
      PredictSend(m, cl, c, "", ":QUIT\n", false, [Recv]);
      ReadBye(m, cl, c.(open := false), if c.open then ":BYE\n" else "");
    }
  }

  lemma HandleBegin(env: Env, c: State)
    requires Idle(c)
    ensures ConnMachine(env).handle(c, ":SQL BEGIN\n") ==
            (c.(receiveSql := true, sb := Some(""), req := c.req.(sql := None)), "")
  {
    assert CommandText(CSql, "BEGIN") + "\n" == ":SQL BEGIN\n";
    CommandLine(env, c, CSql, "BEGIN", env.junk, ARG_SZ);
    assert Process(env, c, ":SQL BEGIN\n") == Sql(c, "BEGIN");
  }

  lemma HandleEnd(env: Env, c: State)
    requires c.open && c.receiveSql && c.sb.Some?
    ensures ConnMachine(env).handle(c, ":SQL END\n") ==
            (c.(receiveSql := false, sb := None, req := c.req.(sql := c.sb)), ":OK\n")
  {
    var l := ":SQL END\n";
    assert l[..8] == SQL_END;
    assert Trim(l) == SQL_END;
    assert SQL_END[1..4] == Word(CSql);
    assert SQL_END[5..] == "END";
    CommandsPrefixFree(SQL_END, CSql);
  }

  lemma HandleRun(env: Env, c: State)
    requires Idle(c)
    ensures ConnMachine(env).handle(c, ":RUN\n") == RunQuery(env, c)
    ensures RunQuery(env, c).1 == AnswerText(AnswerOf(env, c))
  {
    BareCommand(env, c, CRun);
    assert ":" + Word(CRun) + "\n" == ":RUN\n";
  }

  /** The state while the query text is being received. */
  function Storing(c: State, text: string): State {
    c.(receiveSql := true, sb := Some(text), req := c.req.(sql := None))
  }

  lemma PredictBegin(env: Env, cl: Client, c: State, rest: seq<Instr>)
    requires Idle(c)
    ensures Predict(ConnMachine(env), cl.(prog := [Fresh, Send(":SQL BEGIN\n", true)] + rest), c, "", "") ==
            Predict(ConnMachine(env), cl.(prog := rest), Storing(c, ""), "", "")
  {
    var m := ConnMachine(env);
    assert ([Fresh, Send(":SQL BEGIN\n", true)] + rest)[1..] == [Send(":SQL BEGIN\n", true)] + rest;
    assert ":SQL BEGIN" + "\n" == "" + ":SQL BEGIN\n" == ":SQL BEGIN\n";
    HandleBegin(env, c);
    FeedLine(m, c, ":SQL BEGIN");
    PredictSend(m, cl, c, "", ":SQL BEGIN\n", true, rest);
  }

  lemma SqlArrives(env: Env, c: State, sql: string)
    requires Idle(c) && SqlSafe(sql)
    ensures var m, c0, c1 := ConnMachine(env), Storing(c, ""), Storing(c, Consumed(sql));
            && Feed(m, c0, sql) == Fed(c1, Leftover(sql), "") && Stays(m, c0, sql)
            && Feed(m, c1, Leftover(sql) + "\n") == Fed(Storing(c, sql + "\n"), "", "")
            && Stays(m, c1, Leftover(sql) + "\n")
  {
    var left := Leftover(sql);
    PiecesSplit(SqlPiece, sql, "\n");
    FeedSql(env, Storing(c, ""), "", sql);
    assert "" + Consumed(sql) == Consumed(sql);
    FeedSql(env, Storing(c, Consumed(sql)), Consumed(sql), left + "\n");
    WholeLines(left + "\n");
    ConsumedLeftover(left + "\n");
    assert Consumed(left + "\n") + "" == Consumed(left + "\n");
    ConsumedLeftover(sql);
    Assoc(Consumed(sql), left, "\n");
  }

  lemma PredictTwoSends<C>(m: Machine<C>, cl: Client, c: C, a: string, b: string, rest: seq<Instr>, c1: C, left: string, c2: C)
    requires Feed(m, c, a) == Fed(c1, left, "") && Stays(m, c, a)
    requires Feed(m, c1, left + b) == Fed(c2, "", "") && Stays(m, c1, left + b)
    ensures Predict(m, cl.(prog := [Send(a, true), Send(b, true)] + rest), c, "", "") ==
            Predict(m, cl.(prog := rest), c2, "", "")
  {
    SilentIsQuiet(m, c, a);
    SilentIsQuiet(m, c1, left + b);
    assert "" + a == a;
    assert [Send(a, true), Send(b, true)] + rest == [Send(a, true)] + ([Send(b, true)] + rest);
    PredictSend(m, cl, c, "", a, true, [Send(b, true)] + rest);
    PredictSend(m, cl, c1, left, b, true, rest);
  }

  /** The query text goes out as one string and a newline; a safe text arrives whole. */
  lemma PredictText(env: Env, cl: Client, c: State, sql: string, rest: seq<Instr>)
    requires Idle(c) && SqlSafe(sql)
    ensures Predict(ConnMachine(env), cl.(prog := [Send(sql, true), Send("\n", true)] + rest), Storing(c, ""), "", "") ==
            Predict(ConnMachine(env), cl.(prog := rest), Storing(c, sql + "\n"), "", "")
  {
    SqlArrives(env, c, sql);
    PredictTwoSends(ConnMachine(env), cl, Storing(c, ""), sql, "\n", rest,
      Storing(c, Consumed(sql)), Leftover(sql), Storing(c, sql + "\n"));
  }

  /** The rest of the query phase: end marker, run, result loop. */
  lemma PredictEnd(env: Env, cl: Client, c: State, text: string, rest: seq<Instr>)
    requires Idle(c)
    ensures Predict(ConnMachine(env), cl.(prog := [Send(":SQL END\n", true), Recv] + rest), Storing(c, text), "", "") ==
            Predict(ConnMachine(env), cl.(prog := rest), WithSql(c, text), "", "")
  {
    HandleEnd(env, Storing(c, text));
    assert ":SQL END" + "\n" == ":SQL END\n" && ":OK" + "\n" == ":OK\n";
    PredictExchange2(ConnMachine(env), cl, Storing(c, text), ":SQL END", ":OK", rest);
  }

  /** The state with the query text stored. */
  function WithSql(c: State, text: string): State {
    c.(receiveSql := false, sb := None, req := c.req.(sql := Some(text)))
  }

  lemma PredictRun(env: Env, cl: Client, c: State, rest: seq<Instr>)
    requires Idle(c)
    ensures Predict(ConnMachine(env), cl.(prog := [Send(":RUN\n", true)] + rest), c, "", "") ==
            Predict(ConnMachine(env), cl.(prog := rest), RunQuery(env, c).0, "", AnswerText(AnswerOf(env, c)))
  {
    HandleRun(env, c);
    assert ":RUN" + "\n" == ":RUN\n" == "" + ":RUN\n";
    FeedLine(ConnMachine(env), c, ":RUN");
    PredictSend(ConnMachine(env), cl, c, "", ":RUN\n", true, rest);
  }

  lemma PredictExchange2<C>(m: Machine<C>, cl: Client, c: C, body: string, reply: string, rest: seq<Instr>)
    requires NoNewline(body) && |body| < MAXPIECE && NoNewline(reply) && |reply| < MAXPIECE
    requires m.open(c) && m.handle(c, body + "\n").1 == reply + "\n"
    ensures Predict(m, cl.(prog := [Send(body + "\n", true), Recv] + rest), c, "", "") ==
            Predict(m, cl.(prog := rest), m.handle(c, body + "\n").0, "", "")
  {
    assert [Fresh] + ([Send(body + "\n", true), Recv] + rest) == Exchange(body, Recv) + rest;
    assert ([Fresh] + ([Send(body + "\n", true), Recv] + rest))[1..] == [Send(body + "\n", true), Recv] + rest;
    PredictExchange(m, cl, c, body, reply, Recv, rest);
    assert ([Recv] + rest)[1..] == rest;
  }

  /** A safe query reaches the result loop with exactly the connector's answer to read. */
  lemma PredictSafeQuery(env: Env, cl: Client, c: State, sql: string, p4: seq<Instr>)
    requires Idle(c) && SqlSafe(sql)
    ensures var c2 := WithSql(c, sql + "\n");
            Predict(ConnMachine(env), cl.(prog := QueryThen(sql, p4)), c, "", "") ==
            Predict(ConnMachine(env), cl.(prog := p4), RunQuery(env, c2).0, "", AnswerText(AnswerOf(env, c2)))
  {
    var p3 := [Send(":RUN\n", true)] + p4;
    var p2 := [Send(":SQL END\n", true), Recv] + p3;
    PredictBegin(env, cl, c, [Send(sql, true), Send("\n", true)] + p2);
    PredictText(env, cl, c, sql, p2);
    PredictEnd(env, cl, c, sql + "\n", p3);
    PredictRun(env, cl, WithSql(c, sql + "\n"), p4);
  }

  lemma PredictResults(env: Env, cl: Client, c: State, replies: string)
    requires !c.receiveSql && CollectAll(cl.got, replies).stopped
    ensures var f := CollectAll(cl.got, replies);
            Predict(ConnMachine(env), cl.(prog := [Collect] + CLOSING), c, "", replies) ==
            if f.rest == "" then Some(Outcome(cl.pid, f.got, c.(open := false), "", "")) else None
  {
    var f := CollectAll(cl.got, replies);
    PredictCollect(ConnMachine(env), cl, c, "", replies, CLOSING);
    PredictClosing(env, Client([], cl.pid, f.got), c, f.rest);
  }

  /** The prediction for the whole script, with all its preliminaries resolved. */
  lemma PredictScript(env: Env, c: State, r: Request, sql: string)
    requires Idle(c) && ValidPid(env) && FitsFields(r)
    ensures Predict(ConnMachine(env), Client(Script(r, sql), 0, FRESH), c, "", "") ==
            Predict(ConnMachine(env), Client(Query(sql), env.pid, FRESH), Configured(c, r), "", "")
  {
    PredictHelo(env, c, Options(Settings(r)) + Query(sql));
    SettingsSendable(r);
    SettingsConfigure(c, r);
    PredictOptions(env, Client([], env.pid, FRESH), c, Settings(r), Query(sql));
  }

  // ---- when the result loop is exact -----------------------------------------

  lemma LineEffect(k: Collector, line: string)
    requires !k.errors && k.error == 0 && !Stops(line)
    ensures var k' := CollectLine(k, line);
            if line == ":ERROR BEGIN" then k'.error != 0 else
              && !k'.errors && k'.error == 0 && |k'.text| <= |k.text| + |line|
              && (k.results && |k'.text| == |k.text| + |line| ==> k'.results && line != ":RESULTS END")
  {
  }

  lemma CollectCut(k: Collector, s: string, more: string)
    requires EndsLine(s)
    ensures CutOne(s).Piece?
    ensures var p, r := CutOne(s).piece, CutOne(s).rest;
            && (r == "" || EndsLine(r))
            && CollectAll(k, s + more) ==
                 (if Stops(Trim(p)) then Collected(k, r + more, true) else CollectAll(CollectLine(k, Trim(p)), r + more))
            && |DeleteNewlines(s)| == |Trim(p)| + |DeleteNewlines(r)|
  {
    CutLength(s);
    CutStable(s, more);
  }

  lemma {:induction false} CutLength(s: string)
    requires EndsLine(s)
    ensures CutOne(s).Piece?
    ensures var p, r := CutOne(s).piece, CutOne(s).rest;
            (r == "" || EndsLine(r)) && |DeleteNewlines(s)| == |Trim(p)| + |DeleteNewlines(r)|
  {
    WholeLines(s);
    var p, r := CutOne(s).piece, CutOne(s).rest;
    assert r != "" ==> r[|r| - 1] == s[|s| - 1];
    TrimPiece(s);
    DeleteNewlinesAppend(p, r);
  }

  const ROWS_TAIL := Tail(Rows(""))
  const ERROR_TAIL := Tail(SqlError(""))

  lemma {:induction false} CollectStops(k: Collector, s: string, a: Answer)
    requires s == "" || EndsLine(s)
    ensures CollectAll(k, s + Tail(a)).stopped
    ensures k.error != 0 ==> CollectAll(k, s + Tail(a)).got.error != 0
    decreases |s|
  {
    if s == "" {
      assert s + Tail(a) == Tail(a);
      CollectTail(a, k);
    } else {
      CollectCut(k, s, Tail(a));
      CollectStops(CollectLine(k, Trim(CutOne(s).piece)), CutOne(s).rest, a);
    }
  }

  /** An error-free loop never collects more than the text, and collects all of it only if no line was eaten. */
  lemma {:induction false} CollectBound(k: Collector, s: string)
    requires s == "" || EndsLine(s)
    requires !k.errors && k.error == 0
    ensures var f := CollectAll(k, s + ROWS_TAIL);
            f.got.error == 0 ==>
              && |f.got.text| <= |k.text| + |DeleteNewlines(s)|
              && (k.results && |f.got.text| == |k.text| + |DeleteNewlines(s)| ==> AllPieces(RowPiece, s))
    decreases |s|
  {
    if s == "" {
      assert s + ROWS_TAIL == ROWS_TAIL;
      CollectTail(Rows(""), k);
    } else {
      CollectCut(k, s, ROWS_TAIL);
      var line, r := Trim(CutOne(s).piece), CutOne(s).rest;
      if !Stops(line) {
        LineEffect(k, line);
        if line == ":ERROR BEGIN" {
          CollectStops(CollectLine(k, line), r, Rows(""));
        } else {
          CollectBound(CollectLine(k, line), r);
        }
      }
    }
  }

  /** The worker ends up with exactly the connector's rows if and only if no framed piece of them is a control line. */
  lemma RowsCollectedIff(t: string)
    ensures var f := CollectAll(FRESH, AnswerText(Rows(t)));
            f.stopped && (f.got == Expected(Rows(t)) <==> AnswerSafe(Rows(t)))
    ensures AnswerSafe(Rows(t)) ==> CollectAll(FRESH, AnswerText(Rows(t))).rest == ""
  {
    var a := Rows(t);
    CollectBegin(a);
    var k := CollectLine(FRESH, BeginLine(a));
    CollectStops(k, t + "\n", Rows(""));
    if AnswerSafe(a) {
      CollectRows(t);
    } else {
      CollectBound(k, t + "\n");
      DeleteFinalNewline(t);
    }
  }

  predicate ErrorPiece(p: string) {
    var line := Trim(p);
    !Stops(line) && line != ":ERROR END" && line != ":RESULTS BEGIN"
  }

  /** An error text none of whose pieces is one of five control lines is shown. */
  lemma {:induction false} PlainErrorShown(s: string)
    requires AllPieces(ErrorPiece, s)
    ensures ErrorShown(false, true, s)
    decreases |s|
  {
    if CutOne(s).Piece? { PlainErrorShown(CutOne(s).rest); }
  }

  /** A shown error text is collected whole, and the end line behind it is dropped. */
  lemma {:induction false} CollectError(k: Collector, s: string)
    requires s == "" || EndsLine(s)
    requires k.error == 1 && ErrorShown(k.results, k.errors, s)
    ensures CollectAll(k, s + ERROR_TAIL) == Collected(Collector(false, false, 1, k.text + DeleteNewlines(s)), "", true)
    decreases |s|
  {
    if s == "" {
      assert s + ERROR_TAIL == ERROR_TAIL && k.text + "" == k.text;
      CollectTail(SqlError(""), k);
    } else {
      CollectCut(k, s, ERROR_TAIL);
      var p, r := CutOne(s).piece, CutOne(s).rest;
      CollectError(CollectLine(k, Trim(p)), r);
      TrimPiece(s);
      DeleteNewlinesAppend(p, r);
      Assoc(k.text, Trim(p), DeleteNewlines(r));
    }
  }

  /**
   * What the loop can make of an error text: at most the text and the end line; not even the end line
   * when it starts with both flags off; and never the length of the text when the text is not shown.
   */
  lemma {:induction false} ErrorBound(k: Collector, s: string)
    requires s == "" || EndsLine(s)
    ensures var n, f := |k.text| + |DeleteNewlines(s)|, |CollectAll(k, s + ERROR_TAIL).got.text|;
            && f <= n + |":ERROR END"|
            && (!k.results && !k.errors ==> f <= n)
            && ((k.results || k.errors) && !ErrorShown(k.results, k.errors, s) ==> f != n)
    decreases |s|
  {
    if s == "" {
      assert s + ERROR_TAIL == ERROR_TAIL;
      CollectTail(SqlError(""), k);
    } else {
      CollectCut(k, s, ERROR_TAIL);
      var line := Trim(CutOne(s).piece);
      if !Stops(line) { ErrorBound(CollectLine(k, line), CutOne(s).rest); }
    }
  }

  /** The same for an error text: what counts is what the two flags of the loop do with its lines. */
  lemma ErrorCollectedIff(e: string)
    ensures var f := CollectAll(FRESH, AnswerText(SqlError(e)));
            f.stopped && (f.got == Expected(SqlError(e)) <==> AnswerSafe(SqlError(e)))
    ensures AnswerSafe(SqlError(e)) ==> CollectAll(FRESH, AnswerText(SqlError(e))).rest == ""
  {
    var a := SqlError(e);
    CollectBegin(a);
    var k := CollectLine(FRESH, BeginLine(a));
    assert Tail(a) == ERROR_TAIL;
    CollectStops(k, e + "\n", a);
    DeleteFinalNewline(e);
    if AnswerSafe(a) {
      CollectError(k, e + "\n");
      assert "" + DeleteNewlines(e) == DeleteNewlines(e);
    } else {
      ErrorBound(k, e + "\n");
    }
  }

  /** The worker ends up with exactly the connector's answer if and only if the answer is safe. */
  lemma AnswerCollectedIff(a: Answer)
    ensures var f := CollectAll(FRESH, AnswerText(a));
            && f.stopped && (f.got == Expected(a) <==> AnswerSafe(a))
            && (AnswerSafe(a) ==> f == Collected(Expected(a), "", true))
  {
    match a
    case Rows(t) => RowsCollectedIff(t);
    case SqlError(e) => ErrorCollectedIff(e);
  }

  // ---- main results ------------------------------------------------------------

  lemma SessionPredicted(env: Env, c: State, r: Request, sql: string)
    requires Idle(c) && ValidPid(env) && FitsFields(r)
    requires SqlSafe(sql) && AnswerSafe(AnswerOf(env, Loaded(c, r, sql)))
    ensures Predict(ConnMachine(env), Client(Script(r, sql), 0, FRESH), c, "", "") == Some(Transparent(env, c, r, sql))
  {
    PredictScript(env, c, r, sql);
    var cl, c1, c2 := Client([], env.pid, FRESH), Configured(c, r), Loaded(c, r, sql);
    PredictSafeQuery(env, cl, c1, sql, [Collect] + CLOSING);
    AnswerCollectedIff(AnswerOf(env, c2));
    PredictResults(env, cl, RunQuery(env, c2).0, AnswerText(AnswerOf(env, c2)));
  }

  /** Both processes at the start of a session, all channels empty. */
  function Start(c: State, r: Request, sql: string): Sys<State> {
    Sys(Client(Script(r, sql), 0, FRESH), "", false, "", "", "", c, "", "")
  }

  /**
   * Session transparency under every schedule, every chunking and every channel capacity: the session
   * ends, the worker knows the pid and holds exactly the answer with its newlines deleted, and the
   * connector, configured with the worker's options, ran exactly one query, the text plus one newline.
   */
  lemma SessionTransparent(env: Env, cap: nat, sched: (nat, Sys<State>) -> Action, c: State, r: Request, sql: string)
    requires Scheduler(ConnMachine(env), cap, sched)
    requires 1 <= cap && Idle(c) && ValidPid(env) && FitsFields(r)
    requires SqlSafe(sql) && AnswerSafe(AnswerOf(env, Loaded(c, r, sql)))
    ensures var end := RunUnder(ConnMachine(env), cap, sched, 0, Start(c, r, sql));
            var c2 := Loaded(c, r, sql);
            && end.client == Client([], env.pid, Expected(AnswerOf(env, c2)))
            && end.conn == RunQuery(env, c2).0.(open := false)
            && end.conn.req.server == r.server && end.conn.req.user == r.user && end.conn.req.name == r.name
            && (r.password != "" ==> end.conn.req.password == r.password)
            && (c.connected || env.connect(c2.req).None? ==>
                  end.conn.executed == c.executed + [Execution(r.database, Some(sql + "\n"), c2.req.flags)])
  {
    var s, o := Start(c, r, sql), Transparent(env, c, r, sql);
    StartOnCourse(env, c, r, sql);
    EveryScheduleEnds(ConnMachine(env), cap, sched, 0, s, o);
  }

  /**
   * What the worker relies on: one direction is always empty; when it declares a fresh buffer, no reply
   * is unread, on its way or about to be sent; and unless it is finished, some step is enabled.
   */
  predicate Disciplined(env: Env, cap: nat, s: Sys<State>) {
    && (Upward(s) == "" || Downward(s) == "")
    && (s.sending == "" && s.client.prog != [] && s.client.prog[0].Fresh? ==>
          s.unread == "" && s.down == "" && s.outbox == "" && Feed(ConnMachine(env), s.conn, Upward(s)).replies == "")
    && (s.client.prog != [] || s.sending != "" ==> Enabled(ConnMachine(env), cap, s, SomeAction(ConnMachine(env), s)))
  }

  lemma OnCourseIsDisciplined(env: Env, cap: nat, s: Sys<State>, o: Outcome<State>)
    requires 1 <= cap && OnCourse(ConnMachine(env), s, o)
    ensures Disciplined(env, cap, s)
  {
    if s.sending == "" && s.client.prog != [] && s.client.prog[0].Fresh? { NoLostReply(ConnMachine(env), s, o); }
    if s.client.prog != [] || s.sending != "" { NoDeadlock(ConnMachine(env), cap, s, o); }
  }

  /** The result loop reads everything the connector sends for the query. */
  predicate AllRead(a: Answer) {
    CollectAll(FRESH, AnswerText(a)).rest == ""
  }

  /** Every reachable state of a session with a safe text and an answer that is read to its end is disciplined. */
  lemma EveryReachableState(env: Env, cap: nat, c: State, r: Request, sql: string, run: seq<Action>)
    requires 1 <= cap && Idle(c) && ValidPid(env) && FitsFields(r)
    requires SqlSafe(sql) && AllRead(AnswerOf(env, Loaded(c, r, sql)))
    requires LegalRun(ConnMachine(env), cap, Start(c, r, sql), run)
    ensures Disciplined(env, cap, LastState(ConnMachine(env), cap, Start(c, r, sql), run))
  {
    var m, s, c1, c2 := ConnMachine(env), Start(c, r, sql), Configured(c, r), Loaded(c, r, sql);
    PredictScript(env, c, r, sql);
    PredictSafeQuery(env, Client([], env.pid, FRESH), c1, sql, [Collect] + CLOSING);
    AnswerCollectedIff(AnswerOf(env, c2));
    PredictResults(env, Client([], env.pid, FRESH), RunQuery(env, c2).0, AnswerText(AnswerOf(env, c2)));
    var o := Predict(m, s.client, c, "", "").value;
    FreshStart(env, c, r, sql, o);
    RunOnCourse(m, cap, s, o, run);
    OnCourseIsDisciplined(env, cap, LastState(m, cap, s, run), o);
  }

  lemma FreshStart(env: Env, c: State, r: Request, sql: string, o: Outcome<State>)
    requires Predict(ConnMachine(env), Client(Script(r, sql), 0, FRESH), c, "", "") == Some(o)
    ensures OnCourse(ConnMachine(env), Start(c, r, sql), o)
  {
    var s := Start(c, r, sql);
    assert Feed(ConnMachine(env), c, "") == Fed(c, "", "");
    assert Upward(s) == "" && Downward(s) + "" == "";
  }

  lemma StartOnCourse(env: Env, c: State, r: Request, sql: string)
    requires Idle(c) && ValidPid(env) && FitsFields(r)
    requires SqlSafe(sql) && AnswerSafe(AnswerOf(env, Loaded(c, r, sql)))
    ensures OnCourse(ConnMachine(env), Start(c, r, sql), Transparent(env, c, r, sql))
  {
    SessionPredicted(env, c, r, sql);
    FreshStart(env, c, r, sql, Transparent(env, c, r, sql));
  }
}
