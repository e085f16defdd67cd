/** What a client reads in the response, for everything that can become of a request (src/db.c). */
module Verdicts {
  import opened CStrings
  import opened Connectors
  import opened Clients
  import opened Sessions
  import opened Scripts
  import opened Transparency
  import opened JsonGrammar
  import opened JsonWriter
  import opened JsonRoundTrip
  import opened ResultSets
  import opened Emission
  import opened Responses
  import opened Queries
  import opened DataTree

  // ---- request and log, member by member ------------------------------------------------

  function IfSet(value: string): Option<Json> {
    if value == "" then None else Some(Str(value))
  }

  /** The echoed request: these members in this order, so no password. */
  predicate HoldsRequest(j: Json, e: Echo) {
    && j.Obj? && KeysAmong(j.members, ["query_tag", "sql_server", "sql_user", "sql_port", "sql_database"])
    && ValueOf(j.members, "query_tag") == IfSet(e.queryTag) && ValueOf(j.members, "sql_server") == Some(Str(e.server))
    && ValueOf(j.members, "sql_user") == Some(Str(e.user)) && ValueOf(j.members, "sql_port") == IfSet(e.port)
    && ValueOf(j.members, "sql_database") == Some(Str(e.database))
  }

  /** The log: the SQL, the error, and the parameters numbered from 0. */
  predicate HoldsLog(j: Json, sql: Option<string>, error: Option<string>, params: seq<string>) {
    var a := if sql.Some? then 1 else 0;
    var b := a + if error.Some? then 1 else 0;
    && j.Obj? && |j.members| == b + |params|
    && (sql.Some? ==> j.members[0] == Member("sql", Str(sql.value)))
    && (error.Some? ==> j.members[a] == Member("error", Str(error.value)))
    && forall i :: 0 <= i < |params| ==> j.members[b + i] == Member("param" + Decimal(i), Str(params[i]))
  }

  /** The whole response. */
  predicate HoldsResponse(o: Option<Json>, e: Echo, data: Option<Json>, sql: Option<string>, error: Option<string>, params: seq<string>) {
    && o.Some? && o.value.Obj?
    && var ms := o.value.members; var n := if data.Some? then 2 else 1;
       && |ms| == n + 1
       && ms[0].key == "request" && HoldsRequest(ms[0].value, e)
       && (data.Some? ==> ms[1] == Member("data", data.value))
       && ms[n].key == "log" && HoldsLog(ms[n].value, sql, error, params)
  }

  lemma OptionalValue(key: string, value: string, other: string)
    ensures ValueOf(Optional(key, value), other) == if key == other then IfSet(value) else None
  {
  }

  lemma OptionalFirst(key: string, value: string, ms: seq<Member>, keys: seq<string>)
    requires KeysAmong(ms, keys) && forall m :: m in ms ==> m.key != key
    ensures KeysAmong(Optional(key, value) + ms, [key] + keys)
  {
    if value != "" {
      KeyFirst(Member(key, Str(value)), ms, keys);
    } else {
      assert [] + ms == ms && ([key] + keys)[1..] == keys;
      assert ms != [] ==> ms[0] in ms;
    }
  }

  lemma RequestValue(e: Echo, key: string)
    ensures ValueOf(RequestMembers(e), key) ==
            if key == "query_tag" then IfSet(e.queryTag)
            else if key == "sql_server" then Some(Str(e.server))
            else if key == "sql_user" then Some(Str(e.user))
            else if key == "sql_port" then IfSet(e.port)
            else if key == "sql_database" then Some(Str(e.database))
            else None
  {
    var s, u, d := Member("sql_server", Str(e.server)), Member("sql_user", Str(e.user)), Member("sql_database", Str(e.database));
    ValueAppend(Optional("query_tag", e.queryTag), [s] + RequestMembers2(e), key);
    ValueAppend([s], RequestMembers2(e), key);
    ValueAppend([u], Optional("sql_port", e.port) + [d], key);
    ValueAppend(Optional("sql_port", e.port), [d], key);
    OptionalValue("query_tag", e.queryTag, key);
    OptionalValue("sql_port", e.port, key);
    ValueOne(s, key);
    ValueOne(u, key);
    ValueOne(d, key);
  }

  lemma RequestKeys(e: Echo)
    ensures KeysAmong(RequestMembers(e), ["query_tag"] + (["sql_server"] + (["sql_user"] + (["sql_port"] + ["sql_database"]))))
  {
    var s, u, d := Member("sql_server", Str(e.server)), Member("sql_user", Str(e.user)), Member("sql_database", Str(e.database));
    KeyFirst(d, [], []);
    assert [d] + [] == [d] && ["sql_database"] + [] == ["sql_database"];
    OptionalFirst("sql_port", e.port, [d], ["sql_database"]);
    KeyFirst(u, Optional("sql_port", e.port) + [d], ["sql_port"] + ["sql_database"]);
    KeyFirst(s, RequestMembers2(e), ["sql_user"] + (["sql_port"] + ["sql_database"]));
    OptionalFirst("query_tag", e.queryTag, [s] + RequestMembers2(e), ["sql_server"] + (["sql_user"] + (["sql_port"] + ["sql_database"])));
  }

  lemma RequestHolds(e: Echo)
    ensures HoldsRequest(Obj(RequestMembers(e)), e)
  {
    RequestKeys(e);
    assert ["query_tag"] + (["sql_server"] + (["sql_user"] + (["sql_port"] + ["sql_database"]))) ==
           ["query_tag", "sql_server", "sql_user", "sql_port", "sql_database"];
    RequestValue(e, "query_tag");
    RequestValue(e, "sql_server");
    RequestValue(e, "sql_user");
    RequestValue(e, "sql_port");
    RequestValue(e, "sql_database");
  }

  lemma {:induction false} ParamsAt(params: seq<string>, n: nat, i: nat)
    requires i < |params|
    ensures |ParamMembers(params, n)| == |params|
    ensures ParamMembers(params, n)[i] == Member("param" + Decimal(n + i), Str(params[i]))
    decreases |params|
  {
    if |params| > 1 { ParamsAt(params[1..], n + 1, if i > 0 then i - 1 else 0); }
  }

  function IfAny(error: string): Option<string> {
    if error == "" then None else Some(error)
  }

  lemma LogHolds(e: Echo, error: string)
    ensures HoldsLog(Obj(LogMembers(e, error)), if e.echoSql then Some(e.sql) else None, IfAny(error), e.params)
  {
    if e.params != [] { ParamsAt(e.params, 0, 0); }
    forall i | 0 <= i < |e.params| ensures ParamMembers(e.params, 0)[i] == Member("param" + Decimal(i), Str(e.params[i])) { ParamsAt(e.params, 0, i); }
  }

  lemma RefusalHolds(sql: Option<string>, error: string)
    ensures HoldsLog(Obj(RefusalMembers(sql, error)), sql, Some(error), [])
  {
  }

  // ---- failures ------------------------------------------------------------------------

  /** The function a client expects to be called with an error. */
  function ErrorName(a: Asked): string {
    if a.onError != "" then a.onError else a.onResult
  }

  /** What a client reads as the answer to a request that fails. */
  ghost predicate ReadsError(a: Asked, w: World, sql: Option<string>, error: Option<string>, params: seq<string>) {
    HoldsResponse(Unwrapped(ErrorName(a), Response(a, w)), a.e, None, sql, error, params)
  }

  lemma FailureReads(a: Asked, v: Verdict)
    requires GoodAsked(a) && !v.Done? && Bytes(v.error)
    ensures Unwrapped(ErrorName(a), ResponseOf(a, v)) == Some(ErrorJson(a.e, LogOf(a, v)))
    ensures HoldsRequest(Obj(RequestMembers(a.e)), a.e)
  {
    DataWritable([]);
    ResponseReadsIff(a, v, COMPACT, []);
    RequestHolds(a.e);
  }

  lemma RefusalReads(a: Asked, error: string)
    requires GoodAsked(a) && Bytes(error)
    ensures HoldsResponse(Unwrapped(ErrorName(a), ResponseOf(a, Refused(error))), a.e, None, if a.hasSql then Some(a.e.sql) else None, Some(error), [])
  {
    FailureReads(a, Refused(error));
    RefusalHolds(Queries.Sql(a), error);
  }

  lemma RefusedReads(a: Asked, w: World, error: string)
    requires GoodAsked(a) && Bytes(error) && Judge(a, w) == Refused(error)
    ensures ReadsError(a, w, if a.hasSql then Some(a.e.sql) else None, Some(error), [])
  {
    RefusalReads(a, error);
  }

  lemma ErrorReads(a: Asked, error: string)
    requires GoodAsked(a) && Bytes(error)
    ensures HoldsResponse(Unwrapped(ErrorName(a), ResponseOf(a, Queries.Failed(error))), a.e, None,
                          if a.e.echoSql then Some(a.e.sql) else None, IfAny(error), a.e.params)
  {
    FailureReads(a, Queries.Failed(error));
    LogHolds(a.e, error);
  }

  /** Whatever the world has to say, a request is refused for what it lacks, before anything is tried. */
  lemma IncompleteRefused(a: Asked, w: World)
    requires GoodAsked(a) && (!a.hasSql || a.e.server == "" || a.e.user == "")
    ensures ReadsError(a, w, if a.hasSql then Some(a.e.sql) else None, Some("Not all required parameters submitted."), [])
  {
    RefusedReads(a, w, "Not all required parameters submitted.");
  }

  predicate HasAll(a: Asked) {
    a.hasSql && a.e.server != "" && a.e.user != ""
  }

  lemma NoSlotRefused(a: Asked)
    requires GoodAsked(a) && HasAll(a)
    ensures ReadsError(a, NoConnection, Some(a.e.sql), Some("Couldn't allocate new connection"), [])
  {
    RefusedReads(a, NoConnection, "Couldn't allocate new connection");
  }

  lemma NoConnectorRefused(a: Asked)
    requires GoodAsked(a) && HasAll(a)
    ensures ReadsError(a, NoConnector, Some(a.e.sql), Some("Couldn't initialize connector"), [])
  {
    RefusedReads(a, NoConnector, "Couldn't initialize connector");
  }

  function Prefix(s: string, n: nat): string {
    if |s| <= n then s else s[..n]
  }

  lemma PrefixBytes(s: string, n: nat)
    requires Bytes(s) && 0 < n
    ensures CopyString(s, n) == Prefix(s, n - 1) && Bytes(CopyString(s, n))
  {
  }

  /** A failed login: a hint when no password was given, a stock text for an empty message, else the message; cut to 499 characters. */
  lemma LoginFails(a: Asked, m: string)
    requires GoodAsked(a) && HasAll(a) && Bytes(m)
    ensures ReadsError(a, NotConnected(m), if a.e.echoSql then Some(a.e.sql) else None,
                       Some(if a.password == "" then "Login failed and no password " + "was set, please check.\n" + Prefix(m, 447)
                            else if m == "" then "Connection failed.\n" else Prefix(m, 499)), a.e.params)
  {
    LoginText(a.password, m);
    ErrorReads(a, LoginError(a.password, m));
  }

  lemma LoginText(password: string, m: string)
    requires Bytes(m)
    ensures LoginError(password, m) ==
            if password == "" then "Login failed and no password " + "was set, please check.\n" + Prefix(m, 447)
            else if m == "" then "Connection failed.\n" else Prefix(m, 499)
    ensures Bytes(LoginError(password, m)) && LoginError(password, m) != ""
  {
    PrefixBytes(m, 448);
    PrefixBytes(m, 500);
    assert |NO_PASSWORD| == 52;
    BothBytes("Login failed and no password ", "was set, please check.\n");
    BothBytes(NO_PASSWORD, Prefix(m, 447));
  }

  lemma BothBytes(s: string, t: string)
    requires Bytes(s) && Bytes(t)
    ensures Bytes(s + t)
  {
  }

  /** A failed query: the database's message. */
  lemma QueryFails(a: Asked, m: string)
    requires GoodAsked(a) && HasAll(a) && Bytes(m)
    ensures ReadsError(a, QueryFailed(m), if a.e.echoSql then Some(a.e.sql) else None, if m == "" then None else Some(m), a.e.params)
  {
    ErrorReads(a, m);
  }

  /** A failure over a connector: its text, cut to 499 characters. */
  lemma ConnectorFails(a: Asked, m: string)
    requires GoodAsked(a) && HasAll(a) && Bytes(m)
    ensures ReadsError(a, Answered(m, true), if a.e.echoSql then Some(a.e.sql) else None,
                       if m == "" then None else Some(Prefix(m, 499)), a.e.params)
  {
    PrefixBytes(m, 500);
    ErrorReads(a, Prefix(m, 499));
  }

  // ---- successes -----------------------------------------------------------------------

  /** What a client reads as the answer to a request that succeeds. */
  ghost predicate ReadsResult(a: Asked, w: World, data: Option<Json>) {
    HoldsResponse(Unwrapped(a.onResult, Response(a, w)), a.e, data, if a.e.echoSql then Some(a.e.sql) else None, None, a.e.params)
  }

  lemma DoneReadsIff(a: Asked, w: World, st: Style, ts: seq<Table>)
    requires GoodAsked(a) && Judge(a, w).Done? && GoodVerdict(Judge(a, w), st, ts)
    ensures ReadsResult(a, w, if Fragment(Judge(a, w)).Some? then Some(DataJson(ts)) else None) <==> a.onResult != "" || a.onError == ""
  {
    ResponseReadsIff(a, Judge(a, w), st, ts);
    RequestHolds(a.e);
    LogHolds(a.e, "");
    if a.onResult == "" && a.onError != "" { StrayUnread(a, Judge(a, w), st, ts); }
  }

  /** The results of a direct query reach the client, unless there is a function for errors alone. */
  lemma DirectRowsIff(a: Asked, pretty: bool, ts: seq<Table>)
    requires GoodAsked(a) && HasAll(a) && GoodTables(ts)
    ensures ReadsResult(a, Queried(DataEffect(false, BLANK.(pretty := pretty), ts).text), Some(DataJson(ts))) <==> a.onResult != "" || a.onError == ""
  {
    DataWritable(ts);
    DataFragment(pretty, ts);
    DoneReadsIff(a, Queried(DataEffect(false, BLANK.(pretty := pretty), ts).text), if pretty then PRETTY else COMPACT, ts);
  }

  /** So do those that came over a connector, without their newlines. */
  lemma ConnectorRowsIff(a: Asked, pretty: bool, ts: seq<Table>)
    requires GoodAsked(a) && HasAll(a) && GoodTables(ts)
    ensures ReadsResult(a, Answered(DeleteNewlines(DataEffect(false, BLANK.(pretty := pretty), ts).text), false), Some(DataJson(ts))) <==>
            a.onResult != "" || a.onError == ""
  {
    var st := if pretty then STRIPPED else COMPACT;
    DataArrives(ts, pretty);
    DataWritable(ts);
    DoneReadsIff(a, Answered(FragmentText(st, DataJson(ts)), false), st, ts);
  }

  /** A connector that returns nothing leaves a response without data and without an error. */
  lemma NothingReturnedIff(a: Asked)
    requires GoodAsked(a) && HasAll(a)
    ensures ReadsResult(a, Answered("", false), None) <==> a.onResult != "" || a.onError == ""
  {
    DataWritable([]);
    DoneReadsIff(a, Answered("", false), COMPACT, []);
  }

  // ---- over whole sessions --------------------------------------------------------------

  /** What dbrelay_db_run_query is told of the worker's text and error flag. */
  function Told(got: Collector): World {
    Answered(got.text, got.error != 0)
  }

  /**
   * From the database to the client, for every schedule: if the connector's database answers with these
   * result sets, the client reads exactly them, unless there is a function for errors alone.
   */
  lemma RowsServedIff(
    env: Env, cap: nat, sched: (nat, Sys<State>) -> Action, c: State, r: Request, sql: string,
    ts: seq<Table>, pretty: bool, a: Asked)
    requires Scheduler(ConnMachine(env), cap, sched)
    requires 1 <= cap && Idle(c) && ValidPid(env) && FitsFields(r) && SqlSafe(sql)
    requires GoodTables(ts) && GoodAsked(a) && HasAll(a)
    requires AnswerOf(env, Loaded(c, r, sql)) == Rows(DataEffect(false, BLANK.(pretty := pretty), ts).text)
    ensures ReadsResult(a, Told(RunUnder(ConnMachine(env), cap, sched, 0, Start(c, r, sql)).client.got), Some(DataJson(ts))) <==>
            a.onResult != "" || a.onError == ""
  {
    PayloadSafe(ts, pretty);
    SessionTransparent(env, cap, sched, c, r, sql);
    ConnectorRowsIff(a, pretty, ts);
  }

  /** A safe error text reaches the client's log, without its newlines and cut to 499 characters. */
  lemma ErrorServed(
    env: Env, cap: nat, sched: (nat, Sys<State>) -> Action, c: State, r: Request, sql: string, m: string, a: Asked)
    requires Scheduler(ConnMachine(env), cap, sched)
    requires 1 <= cap && Idle(c) && ValidPid(env) && FitsFields(r) && SqlSafe(sql)
    requires GoodAsked(a) && HasAll(a) && Bytes(m)
    requires AnswerOf(env, Loaded(c, r, sql)) == SqlError(m) && AnswerSafe(SqlError(m))
    ensures var error := DeleteNewlines(m);
            ReadsError(a, Told(RunUnder(ConnMachine(env), cap, sched, 0, Start(c, r, sql)).client.got),
                       if a.e.echoSql then Some(a.e.sql) else None, if error == "" then None else Some(Prefix(error, 499)), a.e.params)
  {
    SessionTransparent(env, cap, sched, c, r, sql);
    DeletedBytes(m);
    ConnectorFails(a, DeleteNewlines(m));
  }

  lemma {:induction false} DeletedBytes(s: string)
    requires Bytes(s)
    ensures Bytes(DeleteNewlines(s))
  {
    if s != "" {
      DeletedBytes(s[1..]);
      assert s[0] < 256 as char;
    }
  }
}
