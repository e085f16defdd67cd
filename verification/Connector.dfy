/** The connector: the long-lived helper that owns one database connection (src/connector.c). */
module Connectors {
  import opened CStrings

  const NAME_SZ := 101
  const OBJ_SZ := 31
  const PORT_SZ := 6
  const ARG_SZ := 100
  const DIGITS_SZ := 10

  datatype Request = Request(
    server: string, port: string, database: string, user: string, password: string,
    name: string, timeout: int, flags: int, sql: Option<string>)

  /** One query handed to the database. */
  datatype Execution = Execution(database: string, sql: Option<string>, flags: int)

  datatype Answer = Rows(text: string) | SqlError(message: string)

  /** The surroundings: the process id, the database, and the content of uninitialised locals. */
  datatype Env = Env(pid: nat, connect: Request -> Option<string>, exec: Execution -> Answer, junk: string)

  /** `open` ends with the session, `alive` with the process; `fault` marks C behaviour that is undefined. */
  datatype State = State(
    req: Request, timeoutStr: string, receiveSql: bool, sb: Option<string>,
    connected: bool, executed: seq<Execution>, open: bool, alive: bool, fault: bool)

  datatype Ret = OK | QUIT | ERR | DIE | RUN | CONT | HELO

  // ---- commands --------------------------------------------------------

  datatype Command =
    | CHelo | CQuit | CRun | CDie | CName | CPort | CServer | CDatabase | CUser
    | CPassword | CAppname | CTimeout | CFlags | CSql

  function Word(c: Command): string {
    match c
    case CHelo => "HELO"
    case CQuit => "QUIT"
    case CRun => "RUN"
    case CDie => "DIE"
    case CName => "SET NAME"
    case CPort => "SET PORT"
    case CServer => "SET SERVER"
    case CDatabase => "SET DATABASE"
    case CUser => "SET USER"
    case CPassword => "SET PASSWORD"
    case CAppname => "SET APPNAME"
    case CTimeout => "SET TIMEOUT"
    case CFlags => "SET FLAGS"
    case CSql => "SQL"
  }

  /** check_command's test: the word stands behind the first character of the line. */
  predicate Matches(line: string, word: string) {
    |word| + 1 <= |line| && line[1..|word| + 1] == word
  }

  /** dbrelay_copy_string into a field of `size` bytes. */
  function CopyString(src: string, size: nat): (dest: string)
    requires 0 < size
    ensures |dest| < size && dest <= src && (|src| < size ==> dest == src)
  {
    if |src| < size then src else src[..size - 1]
  }

  /** The same on the destination itself: `strcpy`, or `strncpy` and a NUL in the last place. */
  method CopyInto(dest: array<char>, src: string, size: nat)
    requires 0 < size <= dest.Length && NulFree(src)
    modifies dest
    ensures CString(dest[..]) == CopyString(src, size)
    ensures dest[size..] == old(dest[size..])
  {
    var n := if |src| < size then |src| else size - 1;
    var i := 0;
    while i < n
      invariant 0 <= i <= n && dest[..i] == src[..i] && dest[size..] == old(dest[size..])
    {
      dest[i] := src[i];
      i := i + 1;
    }
    dest[n] := NUL;
    assert forall k :: 0 <= k < n ==> dest[..][k] == dest[..n][k] == src[..n][k] == src[k];
    StrLenAt(dest[..], n);
    assert dest[..][..n] == src[..n];
  }

  /** check_command's effect on the destination: the text one character behind the word. */
  function Argument(line: string, word: string, before: string, size: nat): string
    requires 0 < size && Matches(line, word)
  {
    if |line| > |word| + 1 then CopyString(line[|word| + 2..], size) else before
  }

  /** The order in which process_line tries the commands. */
  function Lookup(line: string): Option<Command> {
    if Matches(line, Word(CHelo)) then Some(CHelo)
    else if Matches(line, Word(CQuit)) then Some(CQuit)
    else if Matches(line, Word(CRun)) then Some(CRun)
    else if Matches(line, Word(CDie)) then Some(CDie)
    else if Matches(line, Word(CName)) then Some(CName)
    else if Matches(line, Word(CPort)) then Some(CPort)
    else if Matches(line, Word(CServer)) then Some(CServer)
    else if Matches(line, Word(CDatabase)) then Some(CDatabase)
    else if Matches(line, Word(CUser)) then Some(CUser)
    else if Matches(line, Word(CPassword)) then Some(CPassword)
    else if Matches(line, Word(CAppname)) then Some(CAppname)
    else if Matches(line, Word(CTimeout)) then Some(CTimeout)
    else if Matches(line, Word(CFlags)) then Some(CFlags)
    else if Matches(line, Word(CSql)) then Some(CSql)
    else None
  }

  /** Letters that tell the commands apart: they sit at offsets 1, 2, 5 and 6 of a line. */
  predicate Letters(c: Command, line: string) {
    match c
    case CHelo => 5 <= |line| && line[1] == 'H'
    case CQuit => 5 <= |line| && line[1] == 'Q'
    case CRun => 4 <= |line| && line[1] == 'R'
    case CDie => 4 <= |line| && line[1] == 'D'
    case CSql => 4 <= |line| && line[1] == 'S' && line[2] == 'Q'
    case _ =>
      && 9 <= |line| && line[1] == 'S' && line[2] == 'E'
      && line[5] == Word(c)[4] && line[6] == Word(c)[5]
  }

  lemma MatchesLetters(line: string, c: Command)
    requires Matches(line, Word(c))
    ensures Letters(c, line)
  {
    var w := Word(c);
    var t := line[1..|w| + 1];
    assert line[1] == t[0] && line[2] == t[1];
    assert |w| >= 8 ==> line[5] == t[4] && line[6] == t[5];
  }

  lemma LettersDiffer(line: string, c: Command, d: Command)
    requires Letters(c, line) && Letters(d, line)
    ensures c == d
  {
  }

  /** No two commands match the same line, so the order of the tests is irrelevant. */
  lemma CommandsPrefixFree(line: string, c: Command)
    requires Matches(line, Word(c))
    ensures Lookup(line) == Some(c)
    ensures forall d :: Matches(line, Word(d)) ==> d == c
  {
    forall d | Matches(line, Word(d))
      ensures d == c
    {
      MatchesLetters(line, c);
      MatchesLetters(line, d);
      LettersDiffer(line, c, d);
    }
  }

  // ---- the automaton ---------------------------------------------------

  /** A NULL or freed accumulator is used: nothing can be said about the process from here on. */
  function Undefined(c: State): (State, Ret) {
    (c.(fault := true, open := false, alive := false), ERR)
  }

  /** The `SQL` command: a new accumulator, or the end of one. */
  function Sql(c: State, arg: string): (State, Ret) {
    if arg == "BEGIN" then (c.(receiveSql := true, sb := Some(""), req := c.req.(sql := None)), CONT)
    else if arg == "END" then
      if c.sb.None? then Undefined(c)
      else (c.(receiveSql := false, sb := None, req := c.req.(sql := c.sb)), OK)
    else (c, ERR)
  }

  /** A dispatched command. */
  function Obey(env: Env, c: State, line: string, cmd: Command): (State, Ret)
    requires Matches(line, Word(cmd))
  {
    var r := c.req;
    match cmd
    case CHelo => (c, HELO)
    case CQuit => (c, QUIT)
    case CRun => (c, RUN)
    case CDie => (c, DIE)
    case CName => (c.(req := r.(name := Argument(line, Word(cmd), r.name, NAME_SZ))), OK)
    case CPort => (c.(req := r.(port := Argument(line, Word(cmd), r.port, PORT_SZ))), OK)
    case CServer => (c.(req := r.(server := Argument(line, Word(cmd), r.server, NAME_SZ))), OK)
    case CDatabase => (c.(req := r.(database := Argument(line, Word(cmd), r.database, OBJ_SZ))), OK)
    case CUser => (c.(req := r.(user := Argument(line, Word(cmd), r.user, OBJ_SZ))), OK)
    case CPassword => (c.(req := r.(password := Argument(line, Word(cmd), r.password, OBJ_SZ))), OK)
    case CAppname => (c.(req := r.(name := Argument(line, Word(cmd), r.name, NAME_SZ))), OK)
    case CTimeout =>
      var t := Argument(line, Word(cmd), c.timeoutStr, DIGITS_SZ);
      (c.(timeoutStr := t, req := r.(timeout := Atol(t))), OK)
    case CFlags => (c.(req := r.(flags := Atol(Argument(line, Word(cmd), env.junk, DIGITS_SZ)))), OK)
    case CSql =>
      Sql(c, Argument(line, Word(cmd), env.junk, ARG_SZ))
  }

  const SQL_END := ":SQL END"

  /** process_line. */
  function Process(env: Env, c: State, line: string): (State, Ret)
  {
    if c.receiveSql && !HasPrefix(line, SQL_END) then
      if c.sb.None? then Undefined(c) else (c.(sb := Some(c.sb.value + line)), CONT)
    else
      var l := Trim(line);
      if l == "" || l[0] != ':' then (c, ERR)
      else match Lookup(l)
        case None => (c, ERR)
        case Some(cmd) =>
          assert Matches(l, Word(cmd));
          Obey(env, c, l, cmd)
  }

  /** The text sent for one query. */
  function AnswerText(a: Answer): string {
    match a
    case Rows(t) => ":RESULTS BEGIN\n" + t + "\n" + ":RESULTS END\n" + ":OK\n"
    case SqlError(m) => ":ERROR BEGIN\n" + m + "\n" + ":ERROR END\n" + ":OK\n"
  }

  /** What a `:RUN` does: connect if necessary, then execute.  A failed connect ends the process. */
  function RunQuery(env: Env, c: State): (State, string) {
    if !c.connected && env.connect(c.req).Some? then
      (c.(connected := true, open := false, alive := false), AnswerText(SqlError(env.connect(c.req).value)))
    else
      var e := Execution(c.req.database, c.req.sql, c.req.flags);
      (c.(connected := true, executed := c.executed + [e]), AnswerText(env.exec(e)))
  }

  /** The session loop's reaction to one received piece: the new state and the reply. */
  function HandleLine(env: Env, c: State, line: string): (State, string) {
    var (c', ret) := Process(env, c, line);
    match ret
    case HELO => (c', ":PID " + Decimal(env.pid) + "\n")
    case QUIT => (c'.(open := false), ":BYE\n")
    case DIE => (c'.(open := false, alive := false), ":BYE\n")
    case RUN => RunQuery(env, c')
    case OK => (c', ":OK\n")
    case CONT => (c', "")
    case ERR => (c', if c'.open then ":ERR\n" else "")
  }

  // ---- between two sessions ------------------------------------------------------

  /** The connector in front of the next session. */
  function Accepted(c: State): State {
    c.(open := true)
  }

  /** The end of the session loop's body; `isAlive` is what api->isalive says of the database connection. */
  function Left(c: State, isAlive: bool): State {
    if c.alive then c.(receiveSql := false, connected := c.connected && isAlive) else c
  }
}
