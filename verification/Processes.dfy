/**
 * The two processes as they run: loops over buffers, sockets and string ropes.
 *
 * The session loop and its automaton are those of src/connector.c, the option calls and the result
 * loop those of src/client.c.  Both read their socket through the one reader of src/socket.c.
 */
module Processes {
  import opened CStrings
  import opened Framing
  import opened StringBufs
  import opened Transducers
  import opened Clients
  import opened Connectors
  import opened Scripts

  /** recv_string into a buffer of the caller's, read as the C string it holds. */
  method RecvPiece(sock: Socket, inBuf: array<char>, inPtr: int) returns (t: int, inPtr': int, line: string)
    requires ValidReader(inBuf[..], inPtr) && ValidArrivals(sock.arrivals)
    modifies sock`arrivals, inBuf
    ensures ValidReader(inBuf[..], inPtr') && ValidArrivals(sock.arrivals)
    ensures var c := CutOne(old(Unread(inBuf[..], inPtr) + Incoming(sock.arrivals)));
            if c.Partial? then t == Ending(old(sock.arrivals)) && inPtr' == -1 else
              && t == 1 && line == c.piece
              && Unread(inBuf[..], inPtr') + Incoming(sock.arrivals) == c.rest
              && Ending(sock.arrivals) == Ending(old(sock.arrivals))
    ensures sock.arrivals == LeftArrivals(old(sock.arrivals), old(Unread(inBuf[..], inPtr)))
  {
    var outBuf := new char[BUFSIZE];
    t, inPtr' := RecvString(sock, inBuf, inPtr, outBuf);
    line := outBuf[..StrLen(outBuf[..])];
  }

  /** What a caller gets that keeps calling: every piece of the stream, in order, and nothing of the leftover. */
  method RecvAll(sock: Socket) returns (pieces: seq<string>, t: int)
    requires ValidArrivals(sock.arrivals)
    modifies sock`arrivals
    ensures pieces == Pieces(old(Incoming(sock.arrivals))) && t == old(Ending(sock.arrivals))
    ensures Concat(pieces) + Leftover(old(Incoming(sock.arrivals))) == old(Incoming(sock.arrivals))
  {
    var inBuf := new char[BUFSIZE];
    var inPtr, line := -1, "";
    pieces, t := [], 1;
    ghost var all, left := Incoming(sock.arrivals), Incoming(sock.arrivals);
    assert left == Unread(inBuf[..], inPtr) + Incoming(sock.arrivals);
    while t > 0
      invariant ValidReader(inBuf[..], inPtr) && ValidArrivals(sock.arrivals) && fresh(inBuf)
      invariant pieces + Pieces(left) == Pieces(all)
      invariant if t > 0 then left == Unread(inBuf[..], inPtr) + Incoming(sock.arrivals) && Ending(sock.arrivals) == old(Ending(sock.arrivals))
                else CutOne(left).Partial? && t == old(Ending(sock.arrivals))
      decreases |left|, t
    {
      t, inPtr, line := RecvPiece(sock, inBuf, inPtr);
      if t > 0 {
        PiecesStep(pieces, left);
        pieces := pieces + [line];
        left := CutOne(left).rest;
      }
    }
    assert pieces + [] == pieces;
    PiecesConcat(all);
  }

  lemma PiecesStep(done: seq<string>, s: string)
    requires CutOne(s).Piece?
    ensures done + Pieces(s) == done + [CutOne(s).piece] + Pieces(CutOne(s).rest)
  {
  }

  lemma {:induction false} PiecesConcat(s: string)
    ensures Concat(Pieces(s)) + Leftover(s) == s
    decreases |s|
  {
    match CutOne(s)
    case Partial =>
    case Piece(p, r) =>
      PiecesConcat(r);
      Assoc(p, Concat(Pieces(r)), Leftover(r));
  }

  /** Same final state and, if every send succeeds, the same bytes sent in the end. */
  ghost predicate Progress(env: Env, c: State, sent: string, s: string, c': State, sent': string, s': string, sends: bool) {
    var f, f' := Feed(ConnMachine(env), c, s), Feed(ConnMachine(env), c', s');
    f.state == f'.state && (sends ==> sent + f.replies == sent' + f'.replies)
  }

  lemma SessionOver(env: Env, c0: State, sent0: string, s0: string, c: State, sent: string, s: string, sends: bool)
    requires Progress(env, c0, sent0, s0, c, sent, s, sends) && (!c.open || CutOne(s).Partial?)
    ensures var f := Feed(ConnMachine(env), c0, s0); c == f.state && (sends ==> sent == sent0 + f.replies)
  {
    assert sent + "" == sent;
  }

  /** The globals of src/connector.c. */
  class ConnectorProcess {
    var request: Request
    var timeoutStr: string
    var receiveSql: bool
    var sbSql: StringBuf?
    var connected: bool
    var executed: seq<Execution>
    var open: bool
    var alive: bool
    var fault: bool
    ghost var Repr: set<object>

    ghost predicate Valid()
      reads this, Repr
      ensures Valid() ==> this in Repr
    {
      && this in Repr
      && (sbSql != null ==> sbSql in Repr && sbSql.Repr <= Repr && this !in sbSql.Repr && sbSql.Valid())
      && (receiveSql ==> sbSql != null)
    }

    ghost function Globals(): State
      requires Valid()
      reads this, Repr
    {
      State(request, timeoutStr, receiveSql, if sbSql == null then None else Some(sbSql.Text()),
            connected, executed, open, alive, fault)
    }

    constructor (request: Request)
      ensures Valid() && fresh(Repr)
      ensures Globals() == State(request, "", false, None, false, [], true, true, false)
    {
      this.request, timeoutStr, receiveSql, sbSql := request, "", false, null;
      connected, executed, open, alive, fault := false, [], true, true, false;
      Repr := {this};
    }

    /** The `SQL` branch of process_line. */
    method SqlCommand(arg: string) returns (ret: Ret)
      requires Valid()
      modifies Repr
      ensures Valid() && fresh(Repr - old(Repr))
      ensures (Globals(), ret) == Sql(old(Globals()), arg)
    {
      if arg == "BEGIN" {
        receiveSql := true;
        request := request.(sql := None);
        sbSql := new StringBuf();
        Repr := Repr + sbSql.Repr;
        return CONT;
      } else if arg == "END" {
        if sbSql == null {
          fault, open, alive := true, false, false;
          return ERR;
        }
        var text := sbSql.ToChars();
        receiveSql := false;
        request := request.(sql := Some(text[..text.Length - 1]));
        sbSql := null;
        return OK;
      }
      return ERR;
    }

    /** process_line. */
    method ProcessLine(env: Env, line: string) returns (ret: Ret)
      requires Valid()
      modifies Repr
      ensures Valid() && fresh(Repr - old(Repr))
      ensures (Globals(), ret) == Process(env, old(Globals()), line)
    {
      if receiveSql {
        if |line| < 8 || line[..8] != SQL_END {
          sbSql.Append(line);
          Repr := Repr + sbSql.Repr;
          return CONT;
        }
      }
      var l := if line != "" && line[|line| - 1] == '\n' then line[..|line| - 1] else line;
      if l == "" || l[0] != ':' { return ERR; }
      var cmd := Lookup(l);
      if cmd == None { return ERR; }
      ret := Dispatch(env, l, cmd.value);
    }

    /** The command branches of process_line. */
    method Dispatch(env: Env, l: string, cmd: Command) returns (ret: Ret)
      requires Valid() && Matches(l, Word(cmd))
      modifies Repr
      ensures Valid() && fresh(Repr - old(Repr))
      ensures (Globals(), ret) == Obey(env, old(Globals()), l, cmd)
    {
      match cmd {
        case CHelo => return HELO;
        case CQuit => return QUIT;
        case CRun => return RUN;
        case CDie => return DIE;
        case CSql =>
          ret := SqlCommand(Argument(l, Word(CSql), env.junk, ARG_SZ));
        case CTimeout =>
          SetTimeout(env, l);
          return OK;
        case _ =>
          SetField(env, l, cmd);
          return OK;
      }
    }

    method SetTimeout(env: Env, l: string)
      requires Valid() && Matches(l, Word(CTimeout))
      modifies this`request, this`timeoutStr
      ensures Valid() && (Globals(), OK) == Obey(env, old(Globals()), l, CTimeout)
    {
      timeoutStr := Argument(l, Word(CTimeout), timeoutStr, DIGITS_SZ);
      request := request.(timeout := Atol(timeoutStr));
    }

    /** The branches that store their argument in a field of the request. */
    method SetField(env: Env, l: string, cmd: Command)
      requires cmd.CName? || cmd.CPort? || cmd.CServer? || cmd.CDatabase? || cmd.CUser? || cmd.CPassword? || cmd.CAppname? || cmd.CFlags?
      requires Matches(l, Word(cmd))
      modifies this`request
      ensures forall c: State :: c.req == old(request) ==> Obey(env, c, l, cmd) == (c.(req := request), OK)
    {
      match cmd {
        case CName => request := request.(name := Argument(l, Word(cmd), request.name, NAME_SZ));
        case CPort => request := request.(port := Argument(l, Word(cmd), request.port, PORT_SZ));
        case CServer => request := request.(server := Argument(l, Word(cmd), request.server, NAME_SZ));
        case CDatabase => request := request.(database := Argument(l, Word(cmd), request.database, OBJ_SZ));
        case CUser => request := request.(user := Argument(l, Word(cmd), request.user, OBJ_SZ));
        case CPassword => request := request.(password := Argument(l, Word(cmd), request.password, OBJ_SZ));
        case CAppname => request := request.(name := Argument(l, Word(cmd), request.name, NAME_SZ));
        case CFlags => request := request.(flags := Atol(Argument(l, Word(cmd), env.junk, DIGITS_SZ)));
      }
    }

    /** The `:RUN` branch of the session loop. */
    method RunCommand(env: Env) returns (reply: string)
      requires Valid()
      modifies this`connected, this`open, this`alive, this`executed
      ensures Valid() && (Globals(), reply) == RunQuery(env, old(Globals()))
    {
      var failed := if connected then None else env.connect(request);
      connected := true;
      if failed.Some? {
        reply := ":ERROR BEGIN\n" + failed.value + "\n" + ":ERROR END\n" + ":OK\n";
        open, alive := false, false;
      } else {
        var e := Execution(request.database, request.sql, request.flags);
        executed := executed + [e];
        match env.exec(e) {
          case Rows(t) => reply := ":RESULTS BEGIN\n" + t + "\n" + ":RESULTS END\n" + ":OK\n";
          case SqlError(m) => reply := ":ERROR BEGIN\n" + m + "\n" + ":ERROR END\n" + ":OK\n";
        }
      }
    }

    /** The reaction to one received line in the session loop of `main`. */
    method React(env: Env, line: string) returns (reply: string)
      requires Valid()
      modifies Repr
      ensures Valid() && fresh(Repr - old(Repr))
      ensures (Globals(), reply) == HandleLine(env, old(Globals()), line)
    {
      var ret := ProcessLine(env, line);
      match ret {
        case HELO => reply := ":PID " + Decimal(env.pid) + "\n";
        case QUIT => reply := ":BYE\n"; open := false;
        case DIE => reply := ":BYE\n"; open, alive := false, false;
        case OK => reply := ":OK\n";
        case CONT => reply := "";
        case ERR => reply := if open then ":ERR\n" else "";
        case RUN => reply := RunCommand(env);
      }
    }

    /** Receive one piece and answer it, or learn that the stream has ended. */
    method ServeOne(env: Env, sock: Socket, inBuf: array<char>, inPtr: int)
      returns (t: int, inPtr': int)
      requires Valid() && sock !in Repr && inBuf !in Repr && ValidReader(inBuf[..], inPtr)
      requires ValidArrivals(sock.arrivals)
      modifies Repr, sock, inBuf
      ensures Valid() && fresh(Repr - old(Repr))
      ensures ValidReader(inBuf[..], inPtr') && ValidArrivals(sock.arrivals)
      ensures SendsSucceed(old(sock.accepts)) ==> SendsSucceed(sock.accepts)
      ensures var c := CutOne(old(Unread(inBuf[..], inPtr) + Incoming(sock.arrivals)));
              if c.Partial? then t <= 0 && Globals() == old(Globals()) && sock.sent == old(sock.sent) else
                && t > 0 && Unread(inBuf[..], inPtr') + Incoming(sock.arrivals) == c.rest
                && (old(open) ==> Progress(env, old(Globals()), old(sock.sent), c.piece + c.rest, Globals(), sock.sent, c.rest,
                                           SendsSucceed(old(sock.accepts))))
    {
      ghost var S := Unread(inBuf[..], inPtr) + Incoming(sock.arrivals);
      var line;
      t, inPtr', line := RecvPiece(sock, inBuf, inPtr);
      if t <= 0 { return; }
      ghost var c, sent := Globals(), sock.sent;
      var reply := React(env, line);
      var ret := SendString(sock, reply);
      if c.open {
        FeedStep(ConnMachine(env), c, S, Globals(), reply, sent);
      }
    }

    /**
     * One session, the body of the endless loop: receive pieces and answer them until the peer quits or the
     * stream ends, then see whether the database connection is still alive.  Whatever way the bytes arrive,
     * the final globals are those of the transducer on the received stream, also when sends fail, which is
     * ignored; the replies are too when all sends succeed.
     */
    method Serve(env: Env, sock: Socket, inBuf: array<char>, isAlive: bool)
      requires Valid() && sock !in Repr && inBuf !in Repr && alive && inBuf.Length == BUFSIZE
      requires ValidArrivals(sock.arrivals)
      modifies Repr, sock, inBuf
      ensures Valid() && fresh(Repr - old(Repr))
      ensures var f := Feed(ConnMachine(env), Accepted(old(Globals())), Incoming(old(sock.arrivals)));
              && Globals() == Left(f.state, isAlive)
              && (SendsSucceed(old(sock.accepts)) ==> sock.sent == old(sock.sent) + f.replies)
    {
      open := true;
      ServeLoop(env, sock, inBuf);
      LeaveSession(isAlive);
    }

    /** What a process that is still there does before it waits for the next connection. */
    method LeaveSession(isAlive: bool)
      requires Valid()
      modifies this`receiveSql, this`connected
      ensures Valid() && Globals() == Left(old(Globals()), isAlive)
    {
      if alive {
        receiveSql := false;
        if !isAlive { connected := false; }
      }
    }

    /** The receive loop of a session. */
    method ServeLoop(env: Env, sock: Socket, inBuf: array<char>)
      requires Valid() && sock !in Repr && inBuf !in Repr && open && inBuf.Length == BUFSIZE
      requires ValidArrivals(sock.arrivals)
      modifies Repr, sock, inBuf
      ensures Valid() && fresh(Repr - old(Repr))
      ensures var f := Feed(ConnMachine(env), old(Globals()), Incoming(old(sock.arrivals)));
              && Globals() == f.state
              && (SendsSucceed(old(sock.accepts)) ==> sock.sent == old(sock.sent) + f.replies)
    {
      var inPtr, t := -1, 1;
      ghost var left := Incoming(sock.arrivals);
      ghost var c0, sent0, all, sends := Globals(), sock.sent, left, SendsSucceed(sock.accepts);
      assert left == Unread(inBuf[..], inPtr) + Incoming(sock.arrivals);
      while open && t > 0
        invariant Valid() && fresh(Repr - old(Repr))
        invariant ValidReader(inBuf[..], inPtr) && ValidArrivals(sock.arrivals) && (sends ==> SendsSucceed(sock.accepts))
        invariant if t > 0 then left == Unread(inBuf[..], inPtr) + Incoming(sock.arrivals) else CutOne(left).Partial?
        invariant Progress(env, c0, sent0, all, Globals(), sock.sent, left, sends)
        decreases |left|, t
      {
        t, inPtr := ServeOne(env, sock, inBuf, inPtr);
        if t > 0 { left := CutOne(left).rest; }
      }
      SessionOver(env, c0, sent0, all, Globals(), sock.sent, left, sends);
    }
  }

  // ---- the worker ------------------------------------------------------------

  /** dbrelay_conn_set_option: send the line; on success read one piece with a buffer of its own. */
  method SetOptionCall(sock: Socket, option: string, value: string) returns (ret: int)
    requires ValidArrivals(sock.arrivals)
    modifies sock
    ensures ValidArrivals(sock.arrivals)
    ensures ret == 0 || (ret == -1 && sock.arrivals == old(sock.arrivals))
    ensures ret == 0 ==> sock.sent == old(sock.sent) + (":SET " + option + " " + value + "\n") &&
                         sock.arrivals == LeftArrivals(old(sock.arrivals), "")
    ensures SendsSucceed(old(sock.accepts)) ==> ret == 0 && SendsSucceed(sock.accepts)
  {
    var inBuf := new char[BUFSIZE];
    var sent := SendString(sock, ":SET " + option + " " + value + "\n");
    if sent == -1 { return -1; }
    var t, inPtr, reply := RecvPiece(sock, inBuf, -1);
    return 0;
  }

  /** The body of the result loop on one line that does not stop it. */
  method CollectInto(sb: StringBuf, line: string, ghost k: Collector, r0: bool, e0: bool, err0: int) returns (results: bool, errors: bool, error: int)
    requires sb.Valid() && k == Collector(r0, e0, err0, sb.Text())
    modifies sb.Repr
    ensures sb.Valid() && fresh(sb.Repr - old(sb.Repr))
    ensures Collector(results, errors, error, sb.Text()) == CollectLine(k, line)
  {
    results, errors, error := r0, e0, err0;
    if line == ":RESULTS END" { results := false; }
    if line == ":ERROR END" { errors := false; }
    if results || errors { sb.Append(line); } else { assert k.text + "" == k.text; }
    if line == ":RESULTS BEGIN" { results := true; }
    if line == ":ERROR BEGIN" { error, errors := 1, true; }
  }

  /**
   * The result loop of dbrelay_conn_send_request with its buffer.  On a stream that ends before
   * a stop line the text collected so far is returned, unless the socket broke.
   */
  method ReceiveResults(sock: Socket, inBuf: array<char>, inPtr: int)
    returns (text: string, error: int, t: int, inPtr': int)
    requires inBuf.Length == BUFSIZE && ValidReader(inBuf[..], inPtr) && ValidArrivals(sock.arrivals)
    modifies sock`arrivals, inBuf
    ensures ValidReader(inBuf[..], inPtr') && ValidArrivals(sock.arrivals)
    ensures var f := CollectAll(FRESH, old(Unread(inBuf[..], inPtr) + Incoming(sock.arrivals)));
            if f.stopped then
              t == 1 && text == f.got.text && error == f.got.error &&
              Unread(inBuf[..], inPtr') + Incoming(sock.arrivals) == f.rest
            else
              t == Ending(old(sock.arrivals)) &&
              if t == -1 then text == BROKEN && error == 2 else text == f.got.text && error == f.got.error
  {
    var sb := new StringBuf();
    var results, errors, stopped := false, false, false;
    error, inPtr', t := 0, inPtr, 1;
    ghost var left := Unread(inBuf[..], inPtr) + Incoming(sock.arrivals);
    ghost var all := CollectAll(FRESH, left);
    while t > 0 && !stopped
      invariant fresh(sb.Repr) && sb.Valid()
      invariant ValidReader(inBuf[..], inPtr') && ValidArrivals(sock.arrivals)
      invariant if t == 1 then left == Unread(inBuf[..], inPtr') + Incoming(sock.arrivals) &&
                               Ending(sock.arrivals) == Ending(old(sock.arrivals))
                else t == Ending(old(sock.arrivals)) && !stopped && CutOne(left).Partial?
      invariant all == if stopped then Collected(Collector(results, errors, error, sb.Text()), left, true)
                       else CollectAll(Collector(results, errors, error, sb.Text()), left)
      decreases |left|, t > 0, !stopped
    {
      ghost var k := Collector(results, errors, error, sb.Text());
      var line;
      t, inPtr', line := RecvPiece(sock, inBuf, inPtr');
      if t > 0 {
        line := Trim(line);
        if line == ":BYE" || line == ":OK" || line == ":ERR" {
          stopped := true;
        } else {
          results, errors, error := CollectInto(sb, line, k, results, errors, error);
        }
        left := CutOne(left).rest;
      }
    }
    if t == -1 {
      text, error := BROKEN, 2;
    } else {
      var out := sb.ToChars();
      text := out[..out.Length - 1];
    }
  }
}
