/** Many sessions, one after the other, on one connector process (src/connector.c). */
module Reuse {
  import opened CStrings
  import opened Clients
  import opened Connectors
  import opened Framing
  import opened Sessions
  import opened SessionRuns
  import opened Scripts
  import opened Transparency

  /**
   * One session: what the surroundings answer during it, what the worker wants, how it is scheduled, and
   * whether the database connection is found alive at its end.
   */
  datatype Visit = Visit(
    env: Env, r: Request, sql: string, cap: nat, sched: (nat, Sys<State>) -> Action, isAlive: bool)

  ghost predicate Proper(v: Visit) {
    Scheduler(ConnMachine(v.env), v.cap, v.sched) && 1 <= v.cap && ValidPid(v.env) && FitsFields(v.r) && SqlSafe(v.sql)
  }

  /** The end of a session with a connector that was left in state c. */
  ghost function Ended(v: Visit, c: State): Sys<State>
    requires Proper(v)
  {
    RunUnder(ConnMachine(v.env), v.cap, v.sched, 0, Start(Accepted(c), v.r, v.sql))
  }

  /** The connector after some sessions. */
  ghost function AfterAll(vs: seq<Visit>, c: State): State
    requires forall i :: 0 <= i < |vs| ==> Proper(vs[i])
  {
    if vs == [] then c else AfterAll(vs[1..], Left(Ended(vs[0], c).conn, vs[0].isAlive))
  }

  /** The one query a session is for. */
  function Wanted(v: Visit): Execution {
    Execution(v.r.database, Some(v.sql + "\n"), Atol(CopyString(SignedDecimal(v.r.flags), 10)))
  }

  /** The requests a connector is asked to connect with in a session: those of the worker, in its fields. */
  predicate WorkersRequest(v: Visit, q: Request) {
    && q.server == v.r.server && q.database == v.r.database && q.user == v.r.user && q.name == v.r.name
    && (v.r.password != "" ==> q.password == v.r.password)
    && q.sql == Some(v.sql + "\n")
  }

  /** A connector process that waits for a connection. */
  predicate Waiting(c: State) {
    c.alive && !c.receiveSql
  }

  lemma QueryEnds(v: Visit, c: State)
    requires Proper(v) && Waiting(c) && AnswerSafe(AnswerOf(v.env, Loaded(Accepted(c), v.r, v.sql)))
    ensures var c2, e := Loaded(Accepted(c), v.r, v.sql), Ended(v, c);
            && e.client == Client([], v.env.pid, Expected(AnswerOf(v.env, c2)))
            && e.conn == RunQuery(v.env, c2).0.(open := false)
  {
    SessionTransparent(v.env, v.cap, v.sched, Accepted(c), v.r, v.sql);
  }

  lemma LoadedIs(v: Visit, c: State)
    requires Waiting(c)
    ensures var c2 := Loaded(Accepted(c), v.r, v.sql);
            && c2.connected == c.connected && c2.executed == c.executed && Waiting(c2)
            && WorkersRequest(v, c2.req)
            && Execution(c2.req.database, c2.req.sql, c2.req.flags) == Wanted(v)
  {
  }

  /** The request a connect in this session is given. */
  function ConnectArg(v: Visit, c: State): Request {
    Loaded(Accepted(c), v.r, v.sql).req
  }

  /** The connector is connected, or its connect succeeds. */
  predicate Connects(v: Visit, c: State) {
    c.connected || v.env.connect(ConnectArg(v, c)).None?
  }

  /** The worker got the database's answer to exactly its query, and the connector executed exactly that. */
  ghost predicate Served(v: Visit, c: State, e: Sys<State>) {
    && e.client == Client([], v.env.pid, Expected(v.env.exec(Wanted(v))))
    && e.conn.executed == c.executed + [Wanted(v)]
  }

  /**
   * One session that finds the connector connected, or connects: whatever the schedule, it is served, and
   * the connector stays connected and waits for the next session as long as the database is alive.
   */
  lemma ConnectedSession(v: Visit, c: State)
    requires Proper(v) && Waiting(c) && Connects(v, c) && AnswerSafe(v.env.exec(Wanted(v)))
    ensures var e := Ended(v, c);
            && Served(v, c, e) && e.conn.connected && !e.conn.open && WorkersRequest(v, e.conn.req)
            && Waiting(Left(e.conn, v.isAlive)) && Left(e.conn, v.isAlive).connected == v.isAlive
            && Left(e.conn, v.isAlive).executed == e.conn.executed
  {
    LoadedIs(v, c);
    QueryEnds(v, c);
  }

  /**
   * One session that finds the connector not connected, and whose connect fails: the worker gets the message
   * as an error, nothing is executed, and the process has ended.
   */
  lemma FailedSession(v: Visit, c: State)
    requires Proper(v) && Waiting(c) && !Connects(v, c)
    requires AnswerSafe(SqlError(v.env.connect(ConnectArg(v, c)).value))
    ensures var e := Ended(v, c);
            && WorkersRequest(v, ConnectArg(v, c))
            && e.client == Client([], v.env.pid, Collector(false, false, 1, DeleteNewlines(v.env.connect(ConnectArg(v, c)).value)))
            && e.conn.executed == c.executed && !e.conn.alive && !e.conn.open
            && Left(e.conn, v.isAlive) == e.conn
  {
    LoadedIs(v, c);
    QueryEnds(v, c);
  }

  function Queries(vs: seq<Visit>): seq<Execution> {
    if vs == [] then [] else [Wanted(vs[0])] + Queries(vs[1..])
  }

  ghost predicate AllProper(vs: seq<Visit>) {
    forall i :: 0 <= i < |vs| ==> Proper(vs[i])
  }

  /** The database answers every query, is alive at the end of every session, and no answer holds a control line. */
  predicate Answering(vs: seq<Visit>) {
    forall i :: 0 <= i < |vs| ==> vs[i].isAlive && AnswerSafe(vs[i].env.exec(Wanted(vs[i])))
  }

  ghost function NextState(v: Visit, c: State): State
    requires Proper(v)
  {
    Left(Ended(v, c).conn, v.isAlive)
  }

  lemma {:induction false} AfterMore(vs: seq<Visit>, c: State, k: nat)
    requires AllProper(vs) && 0 < k <= |vs|
    ensures AfterAll(vs[..k], c) == AfterAll(vs[1..][..k - 1], NextState(vs[0], c))
  {
    assert vs[..k][1..] == vs[1..][..k - 1] && vs[..k][0] == vs[0];
  }

  lemma FirstConnected(vs: seq<Visit>, c: State) returns (c1: State)
    requires vs != [] && AllProper(vs) && Answering(vs) && Waiting(c) && Connects(vs[0], c)
    ensures c1 == NextState(vs[0], c) && Waiting(c1) && c1.connected && c1.executed == c.executed + [Wanted(vs[0])]
    ensures AllProper(vs[1..]) && Answering(vs[1..]) && (vs[1..] != [] ==> Connects(vs[1..][0], c1))
  {
    c1 := NextState(vs[0], c);
    ConnectedSession(vs[0], c);
  }

  /** After the first k sessions the connector waits, connected, and has executed their queries. */
  ghost predicate Steady(vs: seq<Visit>, c: State, k: nat)
    requires AllProper(vs) && k <= |vs|
  {
    var ck := AfterAll(vs[..k], c);
    Waiting(ck) && (k > 0 ==> ck.connected) && ck.executed == c.executed + Queries(vs[..k])
  }

  lemma SteadyMore(vs: seq<Visit>, c: State, c1: State, k: nat)
    requires AllProper(vs) && 0 < k <= |vs| && AllProper(vs[1..]) && Steady(vs[1..], c1, k - 1)
    requires c1 == NextState(vs[0], c) && c1.connected && c1.executed == c.executed + [Wanted(vs[0])]
    ensures Steady(vs, c, k)
  {
    AfterMore(vs, c, k);
    QueriesCons(vs, k);
    if k == 1 { assert vs[1..][..0] == []; }
    Joined(c.executed, Wanted(vs[0]), Queries(vs[1..][..k - 1]));
  }

  lemma Joined(a: seq<Execution>, x: Execution, b: seq<Execution>)
    ensures a + [x] + b == a + ([x] + b)
  {
  }

  lemma {:induction false} StaysConnected(vs: seq<Visit>, c: State, k: nat)
    requires AllProper(vs) && Answering(vs) && k <= |vs| && Waiting(c)
    requires vs != [] ==> Connects(vs[0], c)
    ensures Steady(vs, c, k)
    decreases k
  {
    if k == 0 {
      assert vs[..0] == [] && c.executed + [] == c.executed;
    } else {
      var c1 := FirstConnected(vs, c);
      StaysConnected(vs[1..], c1, k - 1);
      SteadyMore(vs, c, c1, k);
    }
  }

  lemma QueriesCons(vs: seq<Visit>, k: nat)
    requires 0 < k <= |vs|
    ensures Queries(vs[..k]) == [Wanted(vs[0])] + Queries(vs[1..][..k - 1])
  {
    assert vs[..k][1..] == vs[1..][..k - 1] && vs[..k][0] == vs[0];
  }

  /**
   * Once a connect has succeeded, every later session on the same process is served on the open connection:
   * whatever a connect would answer by then, each worker gets the database's answer to its own query, and
   * the queries before it have been executed one after the other and nothing else.
   */
  lemma LaterSessions(vs: seq<Visit>, c: State, k: nat)
    requires AllProper(vs) && Answering(vs) && k < |vs| && Waiting(c) && Connects(vs[0], c)
    ensures var ck := AfterAll(vs[..k], c);
            ck.executed == c.executed + Queries(vs[..k]) && Served(vs[k], ck, Ended(vs[k], ck))
  {
    StaysConnected(vs, c, k);
    if k == 0 { assert vs[..0] == []; }
    ConnectedSession(vs[k], AfterAll(vs[..k], c));
  }

  /** However a session broke off, also in the middle of a text, a process that is still there waits for the next. */
  lemma WaitsAgain(c: State, isAlive: bool)
    requires c.alive
    ensures Waiting(Left(c, isAlive)) && Idle(Accepted(Left(c, isAlive)))
    ensures var c1 := Left(c, isAlive); c1.connected == (c.connected && isAlive) && c1.executed == c.executed && c1.req == c.req
  {
  }

  // ---- a connector that is gone --------------------------------------------------------

  /** The worker is greeting a connector that does not answer, or has given up. */
  predicate Unheard(c: State, script: seq<Instr>, s: Sys<State>)
    requires |script| > 2
  {
    && s.conn == c && s.outbox == "" && s.down == "" && s.unread == "" && s.client.got == FRESH
    && (|| (s.sending == "" && (s.client.prog == script || s.client.prog == script[1..]))
        || s.client.prog == script[2..]
        || (s.sending == "" && s.client.prog == [] && s.client.pid == -1))
  }

  lemma UnheardStep(env: Env, cap: nat, c: State, r: Request, sql: string, s: Sys<State>, a: Action)
    requires !c.open && |Script(r, sql)| > 2 && Unheard(c, Script(r, sql), s) && Enabled(ConnMachine(env), cap, s, a)
    ensures Unheard(c, Script(r, sql), Next(ConnMachine(env), cap, s, a))
  {
    var p := Script(r, sql);
    assert p[0] == Fresh && p[1] == Send(":HELO" + "\n", true) && p[2] == RecvPid;
    assert p[1..][1..] == p[2..] && p[1..][0] == p[1] && p[2..][0] == p[2];
  }

  lemma {:induction false} UnheardRun(env: Env, cap: nat, c: State, r: Request, sql: string, s: Sys<State>, run: seq<Action>)
    requires !c.open && |Script(r, sql)| > 2 && Unheard(c, Script(r, sql), s) && LegalRun(ConnMachine(env), cap, s, run)
    ensures Unheard(c, Script(r, sql), LastState(ConnMachine(env), cap, s, run))
    decreases |run|
  {
    if run != [] {
      UnheardStep(env, cap, c, r, sql, s, run[0]);
      UnheardRun(env, cap, c, r, sql, Next(ConnMachine(env), cap, s, run[0]), run[1..]);
    }
  }

  /** Whatever the schedule, a worker that meets a connector which has ended comes away without a pid and without a text. */
  lemma GoneConnector(env: Env, cap: nat, c: State, r: Request, sql: string, run: seq<Action>)
    requires !c.open && LegalRun(ConnMachine(env), cap, Start(c, r, sql), run)
    ensures var e := LastState(ConnMachine(env), cap, Start(c, r, sql), run);
            e.conn == c && (e.client.prog == [] ==> e.client == Client([], -1, FRESH))
  {
    assert |Exchange(":HELO", RecvPid)| == 3;
    UnheardRun(env, cap, c, r, sql, Start(c, r, sql), run);
  }

  /**
   * A fatal send that is lost ends the worker's work: without a pid in the greeting; with the text of an
   * internal error otherwise, and with error 2 unless it was the `:RUN` in front of the result loop.
   */
  lemma LostSend(env: Env, cap: nat, s: Sys<State>)
    requires s.must && s.client.prog != [] && Enabled(ConnMachine(env), cap, s, LoseSend)
    ensures var cl := Next(ConnMachine(env), cap, s, LoseSend).client;
            && cl.prog == []
            && (s.client.prog[0] == RecvPid ==> cl.pid == -1 && cl.got == s.client.got)
            && (s.client.prog[0] != RecvPid ==>
                  && cl.pid == s.client.pid && cl.got.error == (if s.client.prog[0] == Collect then 0 else 2)
                  && cl.got.text == "Internal Error: " + "connector terminated connection unexpectedly.")
  {
  }

  /** The end of the stream drops what is left of a piece: no pid in the greeting, and elsewhere just the next call. */
  lemma EndSeen(env: Env, cap: nat, s: Sys<State>)
    requires Enabled(ConnMachine(env), cap, s, SeeEnd)
    ensures var t := Next(ConnMachine(env), cap, s, SeeEnd);
            && t.unread == "" && t.conn == s.conn && t.client.got == s.client.got
            && (s.client.prog[0] == RecvPid ==> t.client.prog == [] && t.client.pid == -1)
            && (s.client.prog[0] != RecvPid ==> t.client.prog == s.client.prog[1..] && t.client.pid == s.client.pid)
  {
  }

  /** Nothing is assumed of the chunks in which bytes travel: any number that fits is possible. */
  lemma AnyChunk(env: Env, cap: nat, s: Sys<State>, n: nat)
    requires 1 <= n
    ensures var m := ConnMachine(env);
            && (n <= |s.sending| && |s.up| + n <= cap ==> Enabled(m, cap, s, Push(n)))
            && (n <= |s.outbox| && |s.down| + n <= cap ==> Enabled(m, cap, s, ConnPush(n)))
            && (n <= |s.down| && n <= 4095 && Awaiting(s) ==> Enabled(m, cap, s, TakeReply(n)))
            && (n <= |s.up| && n <= 4095 && s.outbox == "" && s.conn.open && CutOne(s.inbox).Partial? ==> Enabled(m, cap, s, ConnTake(n)))
  {
  }
}
