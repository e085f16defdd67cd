/**
 * The worker's side of a session as it runs (src/client.c).
 *
 * Each call has a reader of its own, except that the reply to the end of the text and the result
 * share one; what a call returns is decided by what arrives.
 */
module Workers {
  import opened CStrings
  import opened Framing
  import opened Clients
  import opened Connectors
  import opened Scripts
  import opened Processes
  import opened Transparency

  /** The pid in the first piece that arrives. */
  function PidOf(a: seq<Arrival>): int {
    match CutOne(Incoming(a))
    case Partial => -1
    case Piece(p, _) => ReadPid(Client([RecvPid], 0, FRESH), p).pid
  }

  /** The greeting went out, and its reply was read. */
  predicate Greeted(sent: string, a: seq<Arrival>, sent': string, a': seq<Arrival>, pid: int) {
    sent' == sent + ":HELO\n" && a' == LeftArrivals(a, "") && pid == PidOf(a)
  }

  /** A send failed after a proper prefix of the text. */
  predicate Broke(sent: string, text: string, sent': string) {
    exists n :: 0 <= n < |text| && sent' == sent + text[..n]
  }

  /** dbrelay_conn_initialize: the pid the connector reports, or -1. */
  method Initialize(sock: Socket) returns (pid: int)
    requires ValidArrivals(sock.arrivals)
    modifies sock
    ensures ValidArrivals(sock.arrivals)
    ensures Greeted(old(sock.sent), old(sock.arrivals), sock.sent, sock.arrivals, pid) ||
            (Broke(old(sock.sent), ":HELO\n", sock.sent) && sock.arrivals == old(sock.arrivals) && pid == -1)
    ensures SendsSucceed(old(sock.accepts)) ==>
              SendsSucceed(sock.accepts) && Greeted(old(sock.sent), old(sock.arrivals), sock.sent, sock.arrivals, pid)
  {
    var inBuf := new char[BUFSIZE];
    var sent := SendString(sock, ":HELO\n");
    if sent == -1 { return -1; }
    assert Unread(inBuf[..], -1) + Incoming(sock.arrivals) == Incoming(sock.arrivals);
    var t, inPtr, reply := RecvPiece(sock, inBuf, -1);
    assert PidOf(old(sock.arrivals)) == if t <= 0 then -1 else ReadPid(Client([RecvPid], 0, FRESH), reply).pid;
    if t <= 0 || !HasPrefix(reply, ":PID ") { return -1; }
    PidText(reply);
    pid := Atol(Trim(reply)[5..]);
  }

  lemma PidText(p: string)
    requires HasPrefix(p, ":PID ")
    ensures |Trim(p)| >= 5 && ReadPid(Client([RecvPid], 0, FRESH), p).pid == Atol(Trim(p)[5..])
  {
    assert p[4] == p[..5][4] == ' ';
  }

  /** What is still to arrive after n replies that were each read with a buffer of its own. */
  function AfterReplies(a: seq<Arrival>, n: nat): seq<Arrival>
    decreases n
  {
    if n == 0 then a else AfterReplies(LeftArrivals(a, ""), n - 1)
  }

  lemma {:induction false} MoreReplies(a: seq<Arrival>, n: nat, k: nat)
    ensures AfterReplies(AfterReplies(a, n), k) == AfterReplies(a, n + k)
    decreases n
  {
    if n > 0 {
      var b := LeftArrivals(a, "");
      MoreReplies(b, n - 1, k);
      assert AfterReplies(a, n) == AfterReplies(b, n - 1) && AfterReplies(a, n + k) == AfterReplies(b, n - 1 + k);
    }
  }

  lemma ThreeReplies(a: seq<Arrival>)
    ensures LeftArrivals(LeftArrivals(LeftArrivals(a, ""), ""), "") == AfterReplies(a, 3)
  {
    var b := LeftArrivals(LeftArrivals(a, ""), "");
    assert AfterReplies(b, 1) == LeftArrivals(b, "");
  }

  /** The option calls of dbrelay_conn_send_request; a failed one ends them. */
  method SetOptions(sock: Socket, r: Request) returns (ok: bool)
    requires ValidArrivals(sock.arrivals)
    modifies sock
    ensures ValidArrivals(sock.arrivals)
    ensures ok ==> sock.sent == old(sock.sent) + OptionsText(Settings(r)) &&
                   sock.arrivals == AfterReplies(old(sock.arrivals), |Settings(r)|)
    ensures SendsSucceed(old(sock.accepts)) ==> ok && SendsSucceed(sock.accepts)
  {
    ok := SetFirstOptions(sock, r);
    if !ok { return; }
    ok := SetMoreOptions(sock, r);
    Assoc(old(sock.sent), FirstText(r), OptionsText(Settings2(r)));
    FirstThenMore(r);
    MoreReplies(old(sock.arrivals), 3, |Settings2(r)|);
  }

  function FirstText(r: Request): string {
    (":SET " + "SERVER" + " " + r.server + "\n") + ((":SET " + "DATABASE" + " " + r.database + "\n") +
    (":SET " + "USER" + " " + r.user + "\n"))
  }

  method SetFirstOptions(sock: Socket, r: Request) returns (ok: bool)
    requires ValidArrivals(sock.arrivals)
    modifies sock
    ensures ValidArrivals(sock.arrivals)
    ensures ok ==> sock.sent == old(sock.sent) + FirstText(r) && sock.arrivals == AfterReplies(old(sock.arrivals), 3)
    ensures SendsSucceed(old(sock.accepts)) ==> ok && SendsSucceed(sock.accepts)
  {
    var ret := SetOptionCall(sock, "SERVER", r.server);
    if ret < 0 { return false; }
    ret := SetOptionCall(sock, "DATABASE", r.database);
    if ret < 0 { return false; }
    ret := SetOptionCall(sock, "USER", r.user);
    if ret < 0 { return false; }
    ok := true;
    ThreeReplies(old(sock.arrivals));
    ThreeSends(old(sock.sent), ":SET " + "SERVER" + " " + r.server + "\n", ":SET " + "DATABASE" + " " + r.database + "\n",
      ":SET " + "USER" + " " + r.user + "\n");
  }

  lemma FirstThenMore(r: Request)
    ensures FirstText(r) + OptionsText(Settings2(r)) == OptionsText(Settings(r)) && |Settings(r)| == 3 + |Settings2(r)|
  {
    var sv, db, us := Setting(CServer, r.server), Setting(CDatabase, r.database), Setting(CUser, r.user);
    OptionsCons(us, Settings2(r));
    OptionsCons(db, [us] + Settings2(r));
    OptionsCons(sv, [db] + ([us] + Settings2(r)));
    Right(":SET " + "SERVER" + " " + r.server + "\n", ":SET " + "DATABASE" + " " + r.database + "\n",
      ":SET " + "USER" + " " + r.user + "\n", OptionsText(Settings2(r)));
  }

  lemma Right(b: string, c: string, d: string, e: string)
    ensures (b + (c + d)) + e == b + (c + (d + e))
  {
    Assoc(b, c + d, e);
    Assoc(c, d, e);
  }

  lemma ThreeThen(a: string, b: string, c: string, d: string, e: string)
    ensures a + b + c + d + e == a + (b + (c + (d + e)))
  {
    Assoc(a + b + c, d, e);
    Assoc(a + b, c, d + e);
    Assoc(a, b, c + (d + e));
  }

  method SetMoreOptions(sock: Socket, r: Request) returns (ok: bool)
    requires ValidArrivals(sock.arrivals)
    modifies sock
    ensures ValidArrivals(sock.arrivals)
    ensures ok ==> sock.sent == old(sock.sent) + OptionsText(Settings2(r)) &&
                   sock.arrivals == AfterReplies(old(sock.arrivals), |Settings2(r)|)
    ensures SendsSucceed(old(sock.accepts)) ==> ok && SendsSucceed(sock.accepts)
  {
    if r.password != "" {
      var ret := SetOptionCall(sock, "PASSWORD", r.password);
      if ret < 0 { return false; }
      OptionsCons(Setting(CPassword, r.password), Settings3(r));
      Assoc(old(sock.sent), ":SET " + "PASSWORD" + " " + r.password + "\n", OptionsText(Settings3(r)));
    }
    ok := SetLastOptions(sock, r);
  }

  method SetLastOptions(sock: Socket, r: Request) returns (ok: bool)
    requires ValidArrivals(sock.arrivals)
    modifies sock
    ensures ValidArrivals(sock.arrivals)
    ensures ok ==> sock.sent == old(sock.sent) + OptionsText(Settings3(r)) && sock.arrivals == AfterReplies(old(sock.arrivals), 3)
    ensures SendsSucceed(old(sock.accepts)) ==> ok && SendsSucceed(sock.accepts)
  {
    var ret := SetOptionCall(sock, "TIMEOUT", SignedDecimal(r.timeout));
    if ret < 0 { return false; }
    ret := SetOptionCall(sock, "FLAGS", SignedDecimal(r.flags));
    if ret < 0 { return false; }
    ret := SetOptionCall(sock, "APPNAME", r.name);
    if ret < 0 { return false; }
    ok := true;
    LastOptions(old(sock.sent), r);
    ThreeReplies(old(sock.arrivals));
  }

  lemma LastOptions(sent: string, r: Request)
    ensures sent + (":SET " + "TIMEOUT" + " " + SignedDecimal(r.timeout) + "\n") +
            (":SET " + "FLAGS" + " " + SignedDecimal(r.flags) + "\n") + (":SET " + "APPNAME" + " " + r.name + "\n") ==
            sent + OptionsText(Settings3(r))
  {
    var ti, fl := Setting(CTimeout, SignedDecimal(r.timeout)), Setting(CFlags, SignedDecimal(r.flags));
    var ap := Setting(CAppname, r.name);
    OptionsCons(ap, []);
    assert [ap] + [] == [ap];
    OptionsCons(fl, [ap]);
    OptionsCons(ti, [fl] + [ap]);
    ThreeThen(sent, ":SET " + "TIMEOUT" + " " + SignedDecimal(r.timeout) + "\n",
      ":SET " + "FLAGS" + " " + SignedDecimal(r.flags) + "\n", ":SET " + "APPNAME" + " " + r.name + "\n", "");
  }

  /** The four sends that carry the query text. */
  method SendSql(sock: Socket, sql: string) returns (ok: bool)
    modifies sock`sent, sock`accepts
    ensures ok ==> sock.sent == old(sock.sent) + (":SQL BEGIN\n" + sql + "\n" + END_LINE)
    ensures SendsSucceed(old(sock.accepts)) ==> ok && SendsSucceed(sock.accepts)
  {
    var ret := SendString(sock, ":SQL BEGIN\n");
    if ret < 0 { return false; }
    ret := SendString(sock, sql);
    if ret < 0 { return false; }
    ret := SendString(sock, "\n");
    if ret < 0 { return false; }
    ret := SendString(sock, END_LINE);
    if ret < 0 { return false; }
    ok := true;
    FourSends(old(sock.sent), ":SQL BEGIN\n", sql, "\n", END_LINE);
  }

  lemma FourSends(a: string, b: string, c: string, d: string, e: string)
    ensures a + b + c + d + e == a + (b + c + d + e)
  {
    Assoc(a, b, c);
    Assoc(a, b + c, d);
    Assoc(a, b + c + d, e);
  }

  /**
   * What dbrelay_conn_send_request returns when these are the arrivals from the end of the text on: the
   * first piece answers it, the result loop runs on the rest; a stream that ends there in mid-result is
   * taken as it is, and one that breaks gives an internal error.
   */
  function ResultOf(a: seq<Arrival>): (string, int) {
    var c, left := CutOne(Incoming(a)), LeftArrivals(a, "");
    var f := CollectAll(FRESH, if c.Piece? then c.rest else Incoming(left));
    if !f.stopped && Ending(left) == -1 then (BROKEN, 2) else (f.got.text, f.got.error)
  }

  /** dbrelay_conn_send_request: a send fails, or everything is sent and the replies give the result. */
  method SendRequest(sock: Socket, r: Request, sql: string) returns (text: string, error: int)
    requires ValidArrivals(sock.arrivals)
    modifies sock
    ensures ValidArrivals(sock.arrivals)
    ensures (text, error) == (BROKEN, 2) || (text, error) == (BROKEN, 0) ||
            (text, error) == ResultOf(AfterReplies(old(sock.arrivals), |Settings(r)|))
    ensures SendsSucceed(old(sock.accepts)) ==>
              && SendsSucceed(sock.accepts) && sock.sent == old(sock.sent) + RequestText(r, sql)
              && (text, error) == ResultOf(AfterReplies(old(sock.arrivals), |Settings(r)|))
  {
    text, error := BROKEN, 2;
    var ok := SetOptions(sock, r);
    if !ok { return; }
    ok := SendSql(sock, sql);
    if !ok { return; }
    RequestSent(old(sock.sent), OptionsText(Settings(r)), ":SQL BEGIN\n" + sql + "\n" + END_LINE);
    text, error := RunAndCollect(sock);
  }

  lemma RequestSent(sent: string, options: string, query: string)
    ensures sent + options + query + ":RUN\n" == sent + (options + query + ":RUN\n")
  {
    Assoc(sent, options, query);
    Assoc(sent, options + query, ":RUN\n");
  }

  /** The rest of dbrelay_conn_send_request, with the buffer it keeps from the first reply on. */
  method RunAndCollect(sock: Socket) returns (text: string, error: int)
    requires ValidArrivals(sock.arrivals)
    modifies sock
    ensures ValidArrivals(sock.arrivals)
    ensures (text, error) == (BROKEN, 0) || (text, error) == ResultOf(old(sock.arrivals))
    ensures SendsSucceed(old(sock.accepts)) ==>
              && SendsSucceed(sock.accepts) && sock.sent == old(sock.sent) + ":RUN\n"
              && (text, error) == ResultOf(old(sock.arrivals))
  {
    var inBuf := new char[BUFSIZE];
    assert Unread(inBuf[..], -1) + Incoming(sock.arrivals) == Incoming(sock.arrivals);
    var t, inPtr, reply := RecvPiece(sock, inBuf, -1);
    assert Unread(inBuf[..], inPtr) + Incoming(sock.arrivals) ==
           var c := CutOne(old(Incoming(sock.arrivals))); if c.Piece? then c.rest else Incoming(sock.arrivals);
    var sent := SendString(sock, ":RUN\n");
    if sent == -1 { return BROKEN, 0; }
    text, error, t, inPtr := ReceiveResults(sock, inBuf, inPtr);
  }

  /** dbrelay_conn_close: the reply is read and ignored. */
  method Close(sock: Socket)
    requires ValidArrivals(sock.arrivals)
    modifies sock
    ensures SendsSucceed(old(sock.accepts)) ==> sock.sent == old(sock.sent) + ":QUIT\n"
  {
    var inBuf := new char[BUFSIZE];
    var sent := SendString(sock, ":QUIT\n");
    var t, inPtr, reply := RecvPiece(sock, inBuf, -1);
  }

  /**
   * The three calls of a session send exactly what the script of the session says, and what they return
   * is decided by what arrives; or a send fails, with pid -1 for the greeting and else the error text.
   */
  method Session(sock: Socket, r: Request, sql: string) returns (pid: int, text: string, error: int)
    requires ValidArrivals(sock.arrivals)
    modifies sock
    ensures pid == -1 ==>
              (text, error) == ("", 0) && (PidOf(old(sock.arrivals)) == -1 || Broke(old(sock.sent), ":HELO\n", sock.sent))
    ensures pid != -1 ==>
              && pid == PidOf(old(sock.arrivals))
              && ((text, error) == (BROKEN, 2) || (text, error) == (BROKEN, 0) ||
                  (text, error) == ResultOf(AfterReplies(old(sock.arrivals), 1 + |Settings(r)|)))
    ensures SendsSucceed(old(sock.accepts)) ==>
              && pid == PidOf(old(sock.arrivals))
              && (pid != -1 ==>
                    && sock.sent == old(sock.sent) + SentText(Script(r, sql))
                    && (text, error) == ResultOf(AfterReplies(old(sock.arrivals), 1 + |Settings(r)|)))
  {
    text, error := "", 0;
    pid := Initialize(sock);
    if pid == -1 { return; }
    MoreReplies(old(sock.arrivals), 1, |Settings(r)|);
    assert AfterReplies(old(sock.arrivals), 1) == LeftArrivals(old(sock.arrivals), "");
    text, error := SendRequest(sock, r, sql);
    Close(sock);
    ScriptSent(r, sql);
    ThreeSends(old(sock.sent), ":HELO\n", RequestText(r, sql), ":QUIT\n");
  }

  lemma ThreeSends(a: string, b: string, c: string, d: string)
    ensures a + b + c + d == a + (b + (c + d))
  {
    Assoc(a + b, c, d);
    Assoc(a, b, c + d);
  }

  // ---- what it reads ------------------------------------------------------------------------

  /** The pid is the number a first line `:PID n` holds; any other first line gives -1. */
  lemma PidIs(a: seq<Arrival>, line: string, more: string)
    requires NoNewline(line) && |line| < 4095 && Incoming(a) == line + "\n" + more
    ensures !HasPrefix(line, ":PID ") ==> PidOf(a) == -1
    ensures forall n: nat :: line == ":PID " + Decimal(n) ==> PidOf(a) == n
  {
    assert (line + "\n")[..|line|] == line;
    CutPiece(line + "\n", more);
    if HasPrefix(line + "\n", ":PID ") { assert (line + "\n")[..5][4] == ' '; }
    forall n: nat | line == ":PID " + Decimal(n) ensures PidOf(a) == n {
      ReadOwnPid(Client([RecvPid], 0, FRESH), n);
    }
  }

  lemma {:induction false} CollectAllStable(k: Collector, s: string, more: string)
    requires CollectAll(k, s).stopped
    ensures CollectAll(k, s + more) == CollectAll(k, s).(rest := CollectAll(k, s).rest + more)
    decreases |s|
  {
    CutStable(s, more);
    var p, r := CutOne(s).piece, CutOne(s).rest;
    if !Stops(Trim(p)) { CollectAllStable(CollectLine(k, Trim(p)), r, more); }
  }

  /** Behind the reply to the text, a safe answer is returned as it is, newlines deleted, whatever follows it. */
  lemma ResultIs(a: seq<Arrival>, answer: Answer, more: string)
    requires AnswerSafe(answer) && Incoming(a) == ":OK\n" + (AnswerText(answer) + more)
    ensures answer.Rows? ==> ResultOf(a) == (DeleteNewlines(answer.text), 0)
    ensures answer.SqlError? ==> ResultOf(a) == (DeleteNewlines(answer.message), 1)
  {
    assert ":OK\n"[..3] == ":OK";
    CutPiece(":OK\n", AnswerText(answer) + more);
    AnswerCollectedIff(answer);
    CollectAllStable(FRESH, AnswerText(answer), more);
  }

  /** Without a complete first line there is no pid. */
  lemma NoPid(a: seq<Arrival>)
    requires '\n' !in Incoming(a) && |Incoming(a)| < 4095
    ensures PidOf(a) == -1
  {
  }

  lemma {:induction false} LeftEnds(a: seq<Arrival>, have: string)
    requires CutOne(have + Incoming(a)).Piece?
    ensures Ending(LeftArrivals(a, have)) == Ending(a)
    decreases |a|
  {
    assert have + "" == have;
    if CutOne(have).Partial? && a != [] {
      if a[0].Data? {
        Assoc(have, a[0].bytes, Incoming(a[1..]));
        LeftEnds(a[1..], have + a[0].bytes);
      } else if a[0].Interrupted? {
        LeftEnds(a[1..], have);
      }
    }
  }

  /** A result that never comes to a stop line: what was collected so far when the stream ends, an internal error when it breaks. */
  lemma ResultUnfinished(a: seq<Arrival>, s: string)
    requires Incoming(a) == ":OK\n" + s && !CollectAll(FRESH, s).stopped
    ensures Ending(a) == 0 ==> ResultOf(a) == (CollectAll(FRESH, s).got.text, CollectAll(FRESH, s).got.error)
    ensures Ending(a) == -1 ==> ResultOf(a) == ("Internal Error: " + "connector terminated connection unexpectedly.", 2)
  {
    assert ":OK\n"[..3] == ":OK";
    CutPiece(":OK\n", s);
    assert "" + Incoming(a) == Incoming(a);
    LeftEnds(a, "");
  }
}
