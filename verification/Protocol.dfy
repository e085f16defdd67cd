/** What the connector answers to each line, word by word as it stands on the wire (src/connector.c). */
module Protocol {
  import opened CStrings
  import opened Framing
  import opened Clients
  import opened Connectors
  import opened Scripts
  import opened Transparency

  /** The first n characters. */
  function Cut(s: string, n: nat): string {
    if |s| <= n then s else s[..n]
  }

  // ---- framing ------------------------------------------------------------------------

  /** A piece is a line of at most 4095 bytes with its newline, or 4095 bytes without one; less than that is no piece. */
  lemma PieceIff(s: string, p: string, r: string)
    ensures CutOne(s) == Piece(p, r) <==>
            s == p + r && 1 <= |p| <= 4095 && '\n' !in p[..|p| - 1] && (p[|p| - 1] == '\n' || |p| == 4095)
    ensures CutOne(s).Partial? <==> '\n' !in s && |s| < 4095
  {
    if CutOne(s).Piece? { CutIsPiece(s); }
    if s == p + r && IsPiece(p) { CutPiece(p, r); }
    if s == p + r && 1 <= |p| <= 4095 && '\n' !in p[..|p| - 1] && p[|p| - 1] != '\n' { assert p == p[..|p| - 1] + [p[|p| - 1]]; }
  }

  /** What arrives before the stream ends, in order; an interrupted call brings nothing. */
  lemma {:induction false} IncomingIs(a: seq<Arrival>, b: seq<Arrival>)
    requires forall i :: 0 <= i < |a| ==> a[i].Data? || a[i].Interrupted?
    ensures Incoming(a + b) == Incoming(a) + Incoming(b) && Ending(a + b) == Ending(b)
    ensures forall s :: Incoming([Data(s)]) == s
    ensures Incoming([Interrupted]) == ""
    ensures b != [] && b[0].Closed? ==> Incoming(b) == "" && Ending(b) == 0
    ensures b != [] && b[0].Failed? ==> Incoming(b) == "" && Ending(b) == -1
  {
    forall s ensures Incoming([Data(s)]) == s { assert [Data(s)][1..] == [] && s + "" == s; }
    if a == [] {
      assert a + b == b;
    } else {
      assert (a + b)[1..] == a[1..] + b;
      IncomingIs(a[1..], b);
      if a[0].Data? { Assoc(a[0].bytes, Incoming(a[1..]), Incoming(b)); }
    }
  }

  // ---- the session --------------------------------------------------------------------

  lemma Greeting(env: Env, c: State)
    requires Idle(c)
    ensures HandleLine(env, c, ":HELO\n") == (c, ":PID " + Decimal(env.pid) + "\n")
  {
    HandleHelo(env, c);
    assert ":HELO" + "\n" == ":HELO\n";
  }

  /** Both words end the session; one of them ends the process. */
  lemma Farewells(env: Env, c: State)
    requires Idle(c)
    ensures HandleLine(env, c, ":QUIT\n") == (c.(open := false), ":BYE\n")
    ensures HandleLine(env, c, ":DIE\n") == (c.(open := false, alive := false), ":BYE\n")
  {
    BareCommand(env, c, CQuit);
    BareCommand(env, c, CDie);
    assert ":" + Word(CQuit) + "\n" == ":QUIT\n" && ":" + Word(CDie) + "\n" == ":DIE\n";
  }

  // ---- storing a value --------------------------------------------------------------

  /** The commands with a value, up to the value. */
  function Wire(cmd: Command): string {
    match cmd
    case CServer => ":SET SERVER "
    case CPort => ":SET PORT "
    case CDatabase => ":SET DATABASE "
    case CUser => ":SET USER "
    case CPassword => ":SET PASSWORD "
    case CName => ":SET NAME "
    case CAppname => ":SET APPNAME "
    case CTimeout => ":SET TIMEOUT "
    case CFlags => ":SET FLAGS "
    case _ => ""
  }

  /** Each stores it in a field of its own, cut to what the field holds; numbers pass through nine characters. */
  function StoredBy(c: State, cmd: Command, v: string): State {
    var q := c.req;
    match cmd
    case CServer => c.(req := q.(server := Cut(v, 100)))
    case CPort => c.(req := q.(port := Cut(v, 5)))
    case CDatabase => c.(req := q.(database := Cut(v, 30)))
    case CUser => c.(req := q.(user := Cut(v, 30)))
    case CPassword => c.(req := q.(password := Cut(v, 30)))
    case CName => c.(req := q.(name := Cut(v, 100)))
    case CAppname => c.(req := q.(name := Cut(v, 100)))
    case CTimeout => c.(timeoutStr := Cut(v, 9), req := q.(timeout := Atol(Cut(v, 9))))
    case CFlags => c.(req := q.(flags := Atol(Cut(v, 9))))
    case _ => c
  }

  lemma WireIs(cmd: Command)
    requires Wire(cmd) != ""
    ensures Wire(cmd) == ":" + Word(cmd) + " "
  {
    if |Wire(cmd)| <= 12 { ShortWire(cmd); } else { LongWire(cmd); }
  }

  lemma ShortWire(cmd: Command)
    requires 0 < |Wire(cmd)| <= 12
    ensures Wire(cmd) == ":" + Word(cmd) + " "
  {
  }

  lemma LongWire(cmd: Command)
    requires 12 < |Wire(cmd)|
    ensures Wire(cmd) == ":" + Word(cmd) + " "
  {
  }

  lemma ObeyStores(env: Env, c: State, cmd: Command, v: string)
    requires Wire(cmd) != "" && !c.receiveSql && NoNewline(v)
    ensures HandleLine(env, c, CommandText(cmd, v) + "\n") == (StoredBy(c, cmd, v), ":OK\n")
  {
    match cmd
    case CServer => CommandLine(env, c, cmd, v, c.req.server, NAME_SZ);
    case CPort => CommandLine(env, c, cmd, v, c.req.port, PORT_SZ);
    case CDatabase => CommandLine(env, c, cmd, v, c.req.database, OBJ_SZ);
    case CUser => CommandLine(env, c, cmd, v, c.req.user, OBJ_SZ);
    case CPassword => CommandLine(env, c, cmd, v, c.req.password, OBJ_SZ);
    case CName => CommandLine(env, c, cmd, v, c.req.name, NAME_SZ);
    case CAppname => CommandLine(env, c, cmd, v, c.req.name, NAME_SZ);
    case CTimeout => CommandLine(env, c, cmd, v, c.timeoutStr, DIGITS_SZ);
    case CFlags => CommandLine(env, c, cmd, v, env.junk, DIGITS_SZ);
  }

  lemma ValueStored(env: Env, c: State, cmd: Command, v: string)
    requires Wire(cmd) != "" && !c.receiveSql && NoNewline(v)
    ensures HandleLine(env, c, Wire(cmd) + v + "\n") == (StoredBy(c, cmd, v), ":OK\n")
  {
    WireIs(cmd);
    ObeyStores(env, c, cmd, v);
  }

  /** Without a value the fields stay as they are. */
  lemma NoValueKeeps(env: Env, c: State, cmd: Command)
    requires Wire(cmd) != "" && !cmd.CTimeout? && !cmd.CFlags? && !c.receiveSql
    ensures var w := Wire(cmd); HandleLine(env, c, w[..|w| - 1] + "\n") == (c, ":OK\n")
  {
    BareCommand(env, c, cmd);
    WireIs(cmd);
    assert Wire(cmd)[..|Wire(cmd)| - 1] == ":" + Word(cmd);
  }

  // ---- the query text -----------------------------------------------------------------

  /** From `:SQL BEGIN` on lines are stored silently and as they are, up to one that starts with `:SQL END`. */
  lemma TextStored(env: Env, c: State, line: string)
    requires c.receiveSql && c.sb.Some? && !HasPrefix(line, ":SQL END")
    ensures HandleLine(env, c, line) == (c.(sb := Some(c.sb.value + line)), "")
  {
    HandleSqlText(env, c, line);
  }

  lemma TextBegins(env: Env, c: State)
    requires Idle(c)
    ensures HandleLine(env, c, ":SQL BEGIN\n") == (c.(receiveSql := true, sb := Some(""), req := c.req.(sql := None)), "")
  {
    HandleBegin(env, c);
  }

  lemma TextEnds(env: Env, c: State)
    requires c.open && c.receiveSql && c.sb.Some?
    ensures HandleLine(env, c, ":SQL END\n") == (c.(receiveSql := false, sb := None, req := c.req.(sql := c.sb)), ":OK\n")
  {
    HandleEnd(env, c);
  }

  /** A line that goes on behind the end marker does not end the text, and is no part of it. */
  lemma EndMarkerAndMore(env: Env, c: State, more: string)
    requires c.receiveSql && c.open && more != "" && NoNewline(more)
    ensures HandleLine(env, c, ":SQL END" + more + "\n") == (c, ":ERR\n")
  {
    var l := ":SQL END" + more;
    assert (l + "\n")[..8] == ":SQL END" && Trim(l + "\n") == l;
    assert l[1..4] == Word(CSql) && l[5..] == "END" + more;
    CommandsPrefixFree(l, CSql);
    NoSqlArgument("END" + more);
  }

  lemma NoSqlArgument(a: string)
    requires |a| > 3 && a[0] == 'E'
    ensures CopyString(a, ARG_SZ) != "BEGIN" && CopyString(a, ARG_SZ) != "END"
  {
    assert CopyString(a, ARG_SZ)[0] == 'E';
  }

  // ---- the query ------------------------------------------------------------------------

  /** The reply to a `:RUN` on an open connection. */
  lemma RunAnswers(env: Env, c: State)
    requires Idle(c) && (c.connected || env.connect(c.req).None?)
    ensures var e := Execution(c.req.database, c.req.sql, c.req.flags);
            var a := env.exec(e);
            HandleLine(env, c, ":RUN\n") ==
            (c.(connected := true, executed := c.executed + [e]),
             (if a.Rows? then ":RESULTS BEGIN\n" + a.text + "\n" + ":RESULTS END\n" else ":ERROR BEGIN\n" + a.message + "\n" + ":ERROR END\n") + ":OK\n")
  {
    HandleRun(env, c);
  }

  /** And on a connect that fails: the process ends, and has executed nothing. */
  lemma RunFails(env: Env, c: State)
    requires Idle(c) && !c.connected && env.connect(c.req).Some?
    ensures var (c1, reply) := HandleLine(env, c, ":RUN\n");
            && !c1.open && !c1.alive && c1.executed == c.executed
            && reply == ":ERROR BEGIN\n" + env.connect(c.req).value + "\n" + ":ERROR END\n" + ":OK\n"
  {
    HandleRun(env, c);
  }

  // ---- everything else --------------------------------------------------------------------

  const WORDS: seq<string> := [
    "HELO", "QUIT", "RUN", "DIE", "SET NAME", "SET PORT", "SET SERVER", "SET DATABASE", "SET USER",
    "SET PASSWORD", "SET APPNAME", "SET TIMEOUT", "SET FLAGS", "SQL"]

  predicate Known(l: string) {
    exists i :: 0 <= i < |WORDS| && HasPrefix(l, ":" + WORDS[i])
  }

  /** What stands behind the word `SQL`; nothing there leaves an uninitialised buffer. */
  function SqlArgument(env: Env, l: string): string {
    if |l| > 4 then Cut(l[5..], 99) else env.junk
  }

  lemma Listed(cmd: Command) returns (i: nat)
    ensures i < |WORDS| && WORDS[i] == Word(cmd)
  {
    match cmd {
      case CHelo => i := 0;
      case CQuit => i := 1;
      case CRun => i := 2;
      case CDie => i := 3;
      case CName => i := 4;
      case CPort => i := 5;
      case CServer => i := 6;
      case CDatabase => i := 7;
      case CUser => i := 8;
      case CPassword => i := 9;
      case CAppname => i := 10;
      case CTimeout => i := 11;
      case CFlags => i := 12;
      case CSql => i := 13;
    }
  }

  lemma KnownIff(l: string)
    requires l != "" && l[0] == ':'
    ensures Known(l) <==> Lookup(l).Some?
  {
    if Lookup(l).Some? {
      var i := Listed(Lookup(l).value);
      MatchesStarts(l, WORDS[i]);
    }
    if Known(l) {
      var i :| 0 <= i < |WORDS| && HasPrefix(l, ":" + WORDS[i]);
      WordMatches(l, i);
    }
  }

  lemma MatchesStarts(l: string, w: string)
    requires l != "" && l[0] == ':' && Matches(l, w)
    ensures HasPrefix(l, ":" + w)
  {
    assert l[..|w| + 1] == [l[0]] + l[1..|w| + 1];
  }

  lemma WordMatches(l: string, i: nat)
    requires i < |WORDS| && HasPrefix(l, ":" + WORDS[i])
    ensures Lookup(l).Some?
  {
    assert l[..|WORDS[i]| + 1][1..] == WORDS[i] == l[1..|WORDS[i]| + 1];
    assert Matches(l, WORDS[i]);
  }

  /**
   * Outside of a text a line is refused, and nothing changes, if and only if it starts with none of the
   * fourteen words behind a colon, or with `:SQL` and something else than `BEGIN` or `END` behind it.
   */
  lemma RefusedIff(env: Env, c: State, line: string)
    requires Idle(c)
    ensures var l := Trim(line);
            HandleLine(env, c, line) == (c, ":ERR\n") <==>
            !Known(l) || (HasPrefix(l, ":SQL") && SqlArgument(env, l) != "BEGIN" && SqlArgument(env, l) != "END")
  {
    var l := Trim(line);
    if l != "" && l[0] == ':' {
      KnownIff(l);
      SqlWord(l);
      if HasPrefix(l, ":SQL") {
        SqlRefused(env, c, line);
      } else if Lookup(l).Some? {
        ReplyOf(env, c, l, Lookup(l).value);
      }
    }
  }

  lemma SqlWord(l: string)
    requires l != "" && l[0] == ':'
    ensures HasPrefix(l, ":SQL") <==> Lookup(l) == Some(CSql)
  {
    if HasPrefix(l, ":SQL") {
      assert l[..4][1..] == Word(CSql) == l[1..4];
      CommandsPrefixFree(l, CSql);
    }
    if Lookup(l) == Some(CSql) {
      assert l[..4] == ":" + l[1..4];
    }
  }

  lemma SqlRefused(env: Env, c: State, line: string)
    requires Idle(c) && Lookup(Trim(line)) == Some(CSql) && Trim(line)[0] == ':'
    ensures var a := SqlArgument(env, Trim(line));
            HandleLine(env, c, line) == (c, ":ERR\n") <==> a != "BEGIN" && a != "END"
  {
    SqlReturns(c, SqlArgument(env, Trim(line)));
  }

  lemma SqlReturns(c: State, arg: string)
    requires c.open
    ensures arg != "BEGIN" && arg != "END" <==> Sql(c, arg) == (c, ERR)
  {
  }

  lemma ReplyOf(env: Env, c: State, l: string, cmd: Command)
    requires Matches(l, Word(cmd)) && cmd != CSql
    ensures Obey(env, c, l, cmd).1 != ERR && Obey(env, c, l, cmd).1 != CONT
  {
  }

  // ---- what the worker sends -----------------------------------------------------------------

  /** A line that stores a value. */
  function SetLine(cmd: Command, v: string): string {
    Wire(cmd) + v + "\n"
  }

  lemma SettingLine(cmd: Command, v: string, s: seq<Setting>)
    requires Wire(cmd) != "" && !cmd.CPort? && !cmd.CName?
    ensures OptionsText([Setting(cmd, v)] + s) == SetLine(cmd, v) + OptionsText(s)
  {
    OptionsCons(Setting(cmd, v), s);
    WireIs(cmd);
    OptionWord(cmd);
    OptionLine(OptionName(cmd), Word(cmd), v);
  }

  /** The bytes of one request. */
  lemma RequestWire(r: Request, sql: string)
    ensures RequestText(r, sql) ==
            (SetLine(CServer, r.server) + (SetLine(CDatabase, r.database) + (SetLine(CUser, r.user) + OptionsText(Settings2(r))))) +
            (":SQL BEGIN\n" + sql + "\n" + ":SQL END\n") + ":RUN\n"
    ensures OptionsText(Settings2(r)) == (if r.password != "" then SetLine(CPassword, r.password) else "") +
            (SetLine(CTimeout, SignedDecimal(r.timeout)) + (SetLine(CFlags, SignedDecimal(r.flags)) + SetLine(CAppname, r.name)))
  {
    FirstOptions(r);
    LastOptions(r);
    if r.password != "" {
      SettingLine(CPassword, r.password, Settings3(r));
    } else {
      assert "" + OptionsText(Settings3(r)) == OptionsText(Settings3(r));
    }
  }

  lemma FirstOptions(r: Request)
    ensures OptionsText(Settings(r)) ==
            SetLine(CServer, r.server) + (SetLine(CDatabase, r.database) + (SetLine(CUser, r.user) + OptionsText(Settings2(r))))
  {
    var db, us := Setting(CDatabase, r.database), Setting(CUser, r.user);
    SettingLine(CServer, r.server, [db] + ([us] + Settings2(r)));
    SettingLine(CDatabase, r.database, [us] + Settings2(r));
    SettingLine(CUser, r.user, Settings2(r));
  }

  lemma LastOptions(r: Request)
    ensures OptionsText(Settings3(r)) ==
            SetLine(CTimeout, SignedDecimal(r.timeout)) + (SetLine(CFlags, SignedDecimal(r.flags)) + SetLine(CAppname, r.name))
  {
    var fl, ap := Setting(CFlags, SignedDecimal(r.flags)), Setting(CAppname, r.name);
    SettingLine(CTimeout, SignedDecimal(r.timeout), [fl] + [ap]);
    SettingLine(CFlags, SignedDecimal(r.flags), [ap]);
    SettingLine(CAppname, r.name, []);
    assert [ap] + [] == [ap] && SetLine(CAppname, r.name) + "" == SetLine(CAppname, r.name);
  }

  /** A whole session is the greeting, the request and the goodbye. */
  lemma SessionWire(r: Request, sql: string)
    ensures SentText(Script(r, sql)) == ":HELO\n" + (RequestText(r, sql) + ":QUIT\n")
  {
    ScriptSent(r, sql);
  }

  // ---- what the worker makes of a line ------------------------------------------------------------

  /** A result of one line arrives as that line, unless it is one of five control lines. */
  lemma OneRowIff(line: string)
    requires NoNewline(line) && |line| < 4095
    ensures CollectAll(FRESH, ":RESULTS BEGIN\n" + line + "\n" + ":RESULTS END\n" + ":OK\n").got == Collector(false, false, 0, line) <==>
            line != ":BYE" && line != ":OK" && line != ":ERR" && line != ":RESULTS END" && line != ":ERROR BEGIN"
  {
    RowsCollectedIff(line);
    OneRowSafe(line);
    PlainLine(line);
    AnswerOfRows(line);
  }

  lemma AnswerOfRows(t: string)
    ensures AnswerText(Rows(t)) == ":RESULTS BEGIN\n" + t + "\n" + ":RESULTS END\n" + ":OK\n"
    ensures AnswerText(SqlError(t)) == ":ERROR BEGIN\n" + t + "\n" + ":ERROR END\n" + ":OK\n"
  {
  }

  lemma OneRowSafe(line: string)
    requires NoNewline(line) && |line| < 4095
    ensures AnswerSafe(Rows(line)) <==> line != ":BYE" && line != ":OK" && line != ":ERR" && line != ":RESULTS END" && line != ":ERROR BEGIN"
  {
    CutOwnLine(line);
    assert Trim(line + "\n") == line;
    assert AllPieces(RowPiece, line + "\n") <==> RowPiece(line + "\n") && AllPieces(RowPiece, "");
  }

  /** So does an error of one line, unless it is one of five others. */
  lemma OneErrorIff(line: string)
    requires NoNewline(line) && |line| < 4095
    ensures CollectAll(FRESH, ":ERROR BEGIN\n" + line + "\n" + ":ERROR END\n" + ":OK\n").got == Collector(false, false, 1, line) <==>
            line != ":BYE" && line != ":OK" && line != ":ERR" && line != ":ERROR END" && line != ":RESULTS BEGIN"
  {
    ErrorCollectedIff(line);
    OneErrorSafe(line);
    PlainLine(line);
    AnswerOfRows(line);
  }

  lemma OneErrorSafe(line: string)
    requires NoNewline(line) && |line| < 4095
    ensures AnswerSafe(SqlError(line)) <==> line != ":BYE" && line != ":OK" && line != ":ERR" && line != ":ERROR END" && line != ":RESULTS BEGIN"
  {
    CutOwnLine(line);
    assert Trim(line + "\n") == line;
    var r, e := line == ":RESULTS BEGIN", line != ":ERROR END" || line == ":ERROR BEGIN";
    assert ErrorShown(r, e, "") <==> !r;
    assert ErrorShown(false, true, line + "\n") <==> !Stops(line) && line != ":ERROR END" && ErrorShown(r, e, "");
  }

  /** A loop that never comes to a stop line has read every complete line. */
  lemma {:induction false} UnfinishedRest(k: Collector, s: string)
    requires !CollectAll(k, s).stopped
    ensures CollectAll(k, s).rest == Leftover(s)
    decreases |s|
  {
    if CutOne(s).Piece? { UnfinishedRest(CollectLine(k, Trim(CutOne(s).piece)), CutOne(s).rest); }
  }

  lemma {:induction false} PlainLine(line: string)
    requires NoNewline(line)
    ensures DeleteNewlines(line) == line
  {
    if line != "" {
      PlainLine(line[1..]);
      assert line == [line[0]] + line[1..];
    }
  }
}
