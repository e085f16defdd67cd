/** The whole HTTP response: result sets spliced between `request` and `log` (src/db.c). */
module Responses {
  import opened CStrings
  import opened Connectors
  import opened Sessions
  import opened Scripts
  import opened Transparency
  import opened JsonGrammar
  import opened JsonWriter
  import opened JsonRoundTrip
  import opened JsonDrive
  import opened JsonTransport
  import opened ResultSets
  import opened Emission

  // ---- the fragment a query leaves behind ------------------------------------

  /** A `data` member without its object. */
  function FragmentText(st: Style, v: Json): string {
    MemberText("", "data", st.sp, st.sp + Render(st, 0, v))
  }

  lemma DataFragment(pretty: bool, ts: seq<Table>)
    requires AllRectangular(ts) && Writable(DataJson(ts))
    ensures DataEffect(false, BLANK.(pretty := pretty), ts).text ==
            FragmentText(if pretty then PRETTY else COMPACT, DataJson(ts))
  {
    var w := BLANK.(pretty := pretty);
    var st, v := StyleOf(w), DataJson(ts);
    FillDataFollowsTree(w, ts);
    RunOne(w, AddKey("data"), Calls(v));
    KeyAtTop(w, "data");
    RunValue(Key(w, "data"), v);
    MemberTail("", "data", st.sp, st.sp, Render(st, 0, v));
  }

  /** The text of the result sets, in a writer of its own. */
  method DataText(ts: seq<Table>, pretty: bool, csv: bool) returns (text: string)
    requires AllRectangular(ts) && forall i :: 0 <= i < |ts| ==> CTable(ts[i])
    ensures text == DataEffect(csv, BLANK.(pretty := pretty, csv := csv), ts).text
  {
    var json := new Writer(pretty, csv);
    FillData(json, ts);
    text := json.ToText();
  }

  /** What the database is asked to do. */
  datatype DbCall = ChangeDb(name: string) | BeginXact | Exec(sql: string) | Commit | Rollback

  /**
   * dbrelay_exec_query, with what it asks of the database: `ok` is whether the query succeeds, and `ts` the
   * result sets it then has.
   */
  method ExecQuery(database: string, sql: string, ok: bool, ts: seq<Table>, pretty: bool, csv: bool, xact: bool)
    returns (text: Option<string>, calls: seq<DbCall>)
    requires AllRectangular(ts) && forall i :: 0 <= i < |ts| ==> CTable(ts[i])
    ensures text == if ok then Some(DataEffect(csv, BLANK.(pretty := pretty, csv := csv), ts).text) else None
    ensures calls == if xact then [ChangeDb(database), BeginXact, Exec(sql), if text.Some? then Commit else Rollback]
                     else [ChangeDb(database), Exec(sql)]
  {
    calls := [ChangeDb(database)];
    if xact { calls := calls + [BeginXact]; }
    calls := calls + [Exec(sql)];
    if ok {
      var data := DataText(ts, pretty, csv);
      text := Some(data);
      if xact { calls := calls + [Commit]; }
    } else {
      text := None;
      if xact { calls := calls + [Rollback]; }
    }
  }

  // ---- the response --------------------------------------------------------------

  /** The request as echoed in the response. */
  datatype Echo = Echo(
    queryTag: string, server: string, user: string, port: string, database: string,
    echoSql: bool, sql: string, params: seq<string>)

  function Optional(key: string, value: string): seq<Member> {
    if value == "" then [] else [Member(key, Str(value))]
  }

  function RequestMembers(e: Echo): seq<Member> {
    Optional("query_tag", e.queryTag) + ([Member("sql_server", Str(e.server))] + RequestMembers2(e))
  }

  function RequestMembers2(e: Echo): seq<Member> {
    [Member("sql_user", Str(e.user))] + (Optional("sql_port", e.port) + [Member("sql_database", Str(e.database))])
  }

  function ParamMembers(params: seq<string>, i: nat): seq<Member> {
    if params == [] then [] else [Member("param" + Decimal(i), Str(params[0]))] + ParamMembers(params[1..], i + 1)
  }

  function LogMembers(e: Echo, error: string): seq<Member> {
    (if e.echoSql then [Member("sql", Str(e.sql))] else []) + (Optional("error", error) + ParamMembers(e.params, 0))
  }

  predicate GoodEcho(e: Echo) {
    && Bytes(e.queryTag) && Bytes(e.server) && Bytes(e.user) && Bytes(e.port) && Bytes(e.database) && Bytes(e.sql)
    && forall i :: 0 <= i < |e.params| ==> Bytes(e.params[i])
  }

  /** The calls of dbrelay_db_run_query around the text of the result sets. */
  function ResponseCalls(e: Echo, fragment: Option<string>, error: string): seq<Call> {
    [NewObject] + ((FieldCalls("request", Obj(RequestMembers(e))) +
    (Splice(fragment) + FieldCalls("log", Obj(LogMembers(e, error))))) + [EndObject])
  }

  function Splice(fragment: Option<string>): seq<Call> {
    if fragment.Some? then [AddJson(", "), AddJson(fragment.value)] else []
  }

  function SpliceText(fragment: Option<string>): string {
    if fragment.Some? then ", " + fragment.value else ""
  }

  lemma StrWritable(key: string, value: string, ms: seq<Member>)
    requires PlainKey(key) && Bytes(value) && WritableMembers(ms)
    ensures WritableMembers([Member(key, Str(value))] + ms)
  {
    WritableCons(Member(key, Str(value)), ms);
  }

  lemma OptionalWritable(key: string, value: string, ms: seq<Member>)
    requires PlainKey(key) && Bytes(value) && WritableMembers(ms)
    ensures WritableMembers(Optional(key, value) + ms)
  {
    if value == "" {
      assert [] + ms == ms;
    } else {
      StrWritable(key, value, ms);
    }
  }

  lemma {:induction false} ParamsWritable(params: seq<string>, i: nat)
    requires forall k :: 0 <= k < |params| ==> Bytes(params[k])
    ensures WritableMembers(ParamMembers(params, i))
    decreases |params|
  {
    if params != [] {
      DecimalIsPlain(i);
      ParamsWritable(params[1..], i + 1);
      assert PlainKey("param" + Decimal(i));
      WritableCons(Member("param" + Decimal(i), Str(params[0])), ParamMembers(params[1..], i + 1));
    }
  }

  lemma RequestWritable2(e: Echo)
    requires GoodEcho(e)
    ensures WritableMembers(RequestMembers2(e))
  {
    var d := [Member("sql_database", Str(e.database))];
    assert d == d + [];
    StrWritable("sql_database", e.database, []);
    OptionalWritable("sql_port", e.port, d);
    StrWritable("sql_user", e.user, Optional("sql_port", e.port) + d);
  }

  lemma RequestWritable(e: Echo)
    requires GoodEcho(e)
    ensures WritableMembers(RequestMembers(e))
  {
    RequestWritable2(e);
    StrWritable("sql_server", e.server, RequestMembers2(e));
    OptionalWritable("query_tag", e.queryTag, [Member("sql_server", Str(e.server))] + RequestMembers2(e));
  }

  lemma LogWritable(e: Echo, error: string)
    requires GoodEcho(e) && Bytes(error)
    ensures WritableMembers(LogMembers(e, error))
  {
    ParamsWritable(e.params, 0);
    var p := Optional("error", error) + ParamMembers(e.params, 0);
    OptionalWritable("error", error, ParamMembers(e.params, 0));
    StrWritable("sql", e.sql, p);
    assert [] + p == p;
  }

  lemma EchoWritable(e: Echo, error: string)
    requires GoodEcho(e) && Bytes(error)
    ensures Writable(Obj(RequestMembers(e))) && Writable(Obj(LogMembers(e, error)))
  {
    RequestWritable(e);
    LogWritable(e, error);
  }

  // ---- the spliced object reads back -----------------------------------------------

  /** The inside of the response object. */
  function ResponseBody(st: Style, req: Json, fragment: Option<string>, log: Json): string {
    RenderMember(st, 1, Member("request", req), Indent(st, 1)) +
    (SpliceText(fragment) + RenderMember(st, 1, Member("log", log), ", "))
  }

  lemma RunSplice(w: W, fragment: Option<string>)
    ensures Run(w, Splice(fragment)) == Emit(w, SpliceText(fragment))
  {
    EmitNothing(w);
    if fragment.Some? {
      var a, b := AddJson(", "), AddJson(fragment.value);
      assert [a, b] == [a] + ([b] + []);
      RunOne(w, a, [b] + []);
      RunOne(Do(w, a), b, []);
      EmitTwice(w, ", ", fragment.value);
    }
  }

  lemma RunResponse(w: W, req: Json, fragment: Option<string>, log: Json)
    requires w.stack == [] && w.tab == 0 && !w.pending && Writable(req) && Writable(log)
    ensures var st := StyleOf(w);
            Run(w, [NewObject] + ((FieldCalls("request", req) + (Splice(fragment) + FieldCalls("log", log))) + [EndObject])).text ==
            w.text + ("{" + (st.nl + ResponseBody(st, req, fragment, log) + (st.nl + "")) + "}")
  {
    var w1 := Open(w, ObjectNode);
    var inside := FieldCalls("request", req) + (Splice(fragment) + FieldCalls("log", log));
    RunWrapped(w, NewObject, inside, EndObject);
    OpenState(w, ObjectNode);
    RunInside(w1, req, fragment, log);
    ContainerEmits(w, ObjectNode, ResponseBody(StyleOf(w), req, fragment, log), Run(w1, inside));
    Appends(w);
    EmitNothing(w);
  }

  lemma RunInside(w1: W, req: Json, fragment: Option<string>, log: Json)
    requires w1.stack != [] && w1.tab == 1 && !w1.pending && !HasItems(w1) && Writable(req) && Writable(log)
    ensures var w4 := Run(w1, FieldCalls("request", req) + (Splice(fragment) + FieldCalls("log", log)));
            w4 == Emit(w1, ResponseBody(StyleOf(w1), req, fragment, log)).(stack := w4.stack) &&
            w4.stack != [] && w4.stack[1..] == w1.stack[1..]
  {
    var st := StyleOf(w1);
    var A, B, C := FieldCalls("request", req), Splice(fragment), FieldCalls("log", log);
    RunAppend(w1, A, B + C);
    RunField(w1, "request", req);
    var w2 := Run(w1, A);
    RunAppend(w2, B, C);
    RunSplice(w2, fragment);
    RunField(Run(w2, B), "log", log);
    var x, y := RenderMember(st, 1, Member("request", req), Indent(st, 1)), RenderMember(st, 1, Member("log", log), ", ");
    EmitTwice(w2, SpliceText(fragment), y);
    EmitTwice(w1, x, SpliceText(fragment) + y);
  }

  lemma LogDenotes(st: Style, log: Json, tail: string)
    requires BlankStyle(st) && WritableField(log) && Blank(tail)
    ensures DenotesMembers(RenderMember(st, 1, Member("log", log), " ") + tail, [Member("log", log)])
  {
    var m := Member("log", log);
    assert PlainKey("log") && [m][1..] == [];
    WritableCons(m, []);
    assert [m] + [] == [m];
    MembersDenoteFrom(st, 1, [m], " ", tail);
    assert RenderMember(st, 1, m, " ") + "" == RenderMember(st, 1, m, " ");
  }

  lemma CommaMember(st: Style, n: nat, m: Member, tail: string)
    ensures RenderMember(st, n, m, ", ") + tail == "," + (RenderMember(st, n, m, " ") + tail)
  {
    LeadMember(st, n, m, ",", " ");
    assert "," + " " == ", ";
    Assoc(",", RenderMember(st, n, m, " "), tail);
  }

  /** The members of the response with the result sets spliced in, whatever style they were written in. */
  lemma SplicedDenotes(st: Style, st': Style, req: Json, data: Json, log: Json, w: string, tail: string)
    requires BlankStyle(st) && BlankStyle(st') && Blank(w) && Blank(tail)
    requires WritableField(req) && WritableField(data) && WritableField(log)
    ensures DenotesMembers(w + ResponseBody(st, req, Some(FragmentText(st', data)), log) + tail,
                           [Member("request", req), Member("data", data), Member("log", log)])
  {
    var mr, md, ml := Member("request", req), Member("data", data), Member("log", log);
    assert PlainKey("request") && PlainKey("data");
    IndentBlank(st, 1);
    LogDenotes(st, log, tail);
    var lt := RenderMember(st, 1, ml, " ") + tail;
    FieldCons(st', 0, md, " ", lt, [ml]);
    var dt := RenderMember(st', 0, md, " ") + ("," + lt);
    FieldCons(st, 1, mr, w + Indent(st, 1), dt, [md] + [ml]);
    assert [mr] + ([md] + [ml]) == [mr, md, ml];
    SplicedText(st, st', mr, md, ml, w, tail);
  }

  lemma SplicedText(st: Style, st': Style, mr: Member, md: Member, ml: Member, w: string, tail: string)
    requires mr.key == "request" && md.key == "data" && ml.key == "log"
    ensures w + ResponseBody(st, mr.value, Some(FragmentText(st', md.value)), ml.value) + tail ==
            RenderMember(st, 1, mr, w + Indent(st, 1)) + ("," + (RenderMember(st', 0, md, " ") + ("," + (RenderMember(st, 1, ml, " ") + tail))))
  {
    var x, d, l := RenderMember(st, 1, mr, Indent(st, 1)), FragmentText(st', md.value), RenderMember(st, 1, ml, ", ");
    LeadMember(st, 1, mr, w, Indent(st, 1));
    LeadMember(st', 0, md, " ", "");
    assert " " + "" == " ";
    CommaMember(st, 1, ml, tail);
    assert ", " == "," + " ";
    Assoc(",", " ", d);
    var D, L := RenderMember(st', 0, md, " "), RenderMember(st, 1, ml, " ") + tail;
    assert ", " + d == "," + D;
    Assoc(w, x, ", " + d + l);
    Assoc(w + x, ", " + d + l, tail);
    Assoc(", " + d, l, tail);
    Assoc(",", D, "," + L);
  }

  function ResponseJson(e: Echo, ts: seq<Table>, error: string): Json
    requires AllRectangular(ts)
  {
    Obj([Member("request", Obj(RequestMembers(e))), Member("data", DataJson(ts)), Member("log", Obj(LogMembers(e, error)))])
  }

  /**
   * The response of a successful query is one well-formed object holding the request, exactly the
   * result sets of the database, and the log, also when the fragment was written in another style.
   */
  lemma ResponseRoundTrip(e: Echo, pretty: bool, st': Style, ts: seq<Table>, error: string)
    requires GoodEcho(e) && Bytes(error) && BlankStyle(st') && AllRectangular(ts) && Writable(DataJson(ts))
    ensures var calls := ResponseCalls(e, Some(FragmentText(st', DataJson(ts))), error);
            ParseText(Run(BLANK.(pretty := pretty), calls).text) == Some(ResponseJson(e, ts, error))
  {
    EchoWritable(e, error);
    SpliceRoundTrip(pretty, st', Obj(RequestMembers(e)), DataJson(ts), Obj(LogMembers(e, error)));
  }

  lemma SpliceRoundTrip(pretty: bool, st': Style, req: Json, data: Json, log: Json)
    requires BlankStyle(st') && Writable(req) && Writable(data) && Writable(log)
    ensures var inside := FieldCalls("request", req) + (Splice(Some(FragmentText(st', data))) + FieldCalls("log", log));
            ParseText(Run(BLANK.(pretty := pretty), [NewObject] + (inside + [EndObject])).text) ==
            Some(Obj([Member("request", req), Member("data", data), Member("log", log)]))
  {
    RunResponse(BLANK.(pretty := pretty), req, Some(FragmentText(st', data)), log);
    SplicedReads(if pretty then PRETTY else COMPACT, st', req, data, log);
  }

  lemma SplicedReads(st: Style, st': Style, req: Json, data: Json, log: Json)
    requires BlankStyle(st) && BlankStyle(st') && Writable(req) && Writable(data) && Writable(log)
    ensures var body := st.nl + ResponseBody(st, req, Some(FragmentText(st', data)), log) + (st.nl + "");
            ParseText("" + ("{" + body + "}")) ==
            Some(Obj([Member("request", req), Member("data", data), Member("log", log)]))
  {
    var body := st.nl + ResponseBody(st, req, Some(FragmentText(st', data)), log) + (st.nl + "");
    var ms := [Member("request", req), Member("data", data), Member("log", log)];
    SplicedDenotes(st, st', req, data, log, st.nl, st.nl + "");
    DenotesObject(body, ms);
    assert "" + ("{" + body + "}") == "{" + body + "}";
    TextOf("{" + body + "}", Obj(ms));
  }

  // ---- writing the response ------------------------------------------------------------

  predicate CEcho(e: Echo) {
    && NulFree(e.queryTag) && NulFree(e.server) && NulFree(e.user) && NulFree(e.port) && NulFree(e.database) && NulFree(e.sql)
    && forall i :: 0 <= i < |e.params| ==> NulFree(e.params[i])
  }

  lemma RunMembersSplit(w: W, a: seq<Member>, b: seq<Member>)
    ensures Run(w, MemberCalls(a + b)) == Run(Run(w, MemberCalls(a)), MemberCalls(b))
  {
    MemberCallsAppend(a, b);
    RunAppend(w, MemberCalls(a), MemberCalls(b));
  }

  lemma RunString(w: W, key: string, value: string)
    ensures Run(w, MemberCalls([Member(key, Str(value))])) == Do(w, AddString(key, value))
  {
    var m := Member(key, Str(value));
    assert [m] == [m] + [] && MemberCalls([m] + []) == [AddString(key, value)] + [];
    RunOne(w, AddString(key, value), []);
  }

  /** `if (IS_SET(value)) json_add_string(...)`. */
  method WriteOptional(json: Writer, key: string, value: string)
    requires json.Valid() && NulFree(value)
    modifies json.Repr
    ensures json.Valid() && fresh(json.Repr - old(json.Repr))
    ensures json.State() == Run(old(json.State()), MemberCalls(Optional(key, value)))
  {
    RunString(json.State(), key, value);
    if value != "" { json.WriteString(key, value); }
  }

  method WriteOne(json: Writer, key: string, value: string)
    requires json.Valid() && NulFree(value)
    modifies json.Repr
    ensures json.Valid() && fresh(json.Repr - old(json.Repr))
    ensures json.State() == Run(old(json.State()), MemberCalls([Member(key, Str(value))]))
  {
    RunString(json.State(), key, value);
    json.WriteString(key, value);
  }

  lemma RunObjectField(w: W, k: string, ms: seq<Member>)
    ensures Run(w, FieldCalls(k, Obj(ms))) == Do(Run(Do(Do(w, AddKey(k)), NewObject), MemberCalls(ms)), EndObject)
  {
    RunOne(w, AddKey(k), Calls(Obj(ms)));
    RunObject(Do(w, AddKey(k)), ms);
  }

  method OpenObjectField(json: Writer, key: string)
    requires json.Valid()
    modifies json.Repr
    ensures json.Valid() && fresh(json.Repr - old(json.Repr))
    ensures json.State() == Do(Do(old(json.State()), AddKey(key)), NewObject)
  {
    json.WriteKey(key);
    json.OpenContainer(ObjectNode);
  }

  method WriteRequestMembers2(json: Writer, e: Echo)
    requires json.Valid() && CEcho(e)
    modifies json.Repr
    ensures json.Valid() && fresh(json.Repr - old(json.Repr))
    ensures json.State() == Run(old(json.State()), MemberCalls(RequestMembers2(e)))
  {
    ghost var d := [Member("sql_database", Str(e.database))];
    RunMembersSplit(json.State(), [Member("sql_user", Str(e.user))], Optional("sql_port", e.port) + d);
    WriteOne(json, "sql_user", e.user);
    RunMembersSplit(json.State(), Optional("sql_port", e.port), d);
    WriteOptional(json, "sql_port", e.port);
    WriteOne(json, "sql_database", e.database);
  }

  method WriteRequestMembers(json: Writer, e: Echo)
    requires json.Valid() && CEcho(e)
    modifies json.Repr
    ensures json.Valid() && fresh(json.Repr - old(json.Repr))
    ensures json.State() == Run(old(json.State()), MemberCalls(RequestMembers(e)))
  {
    RunMembersSplit(json.State(), Optional("query_tag", e.queryTag), [Member("sql_server", Str(e.server))] + RequestMembers2(e));
    WriteOptional(json, "query_tag", e.queryTag);
    RunMembersSplit(json.State(), [Member("sql_server", Str(e.server))], RequestMembers2(e));
    WriteOne(json, "sql_server", e.server);
    WriteRequestMembers2(json, e);
  }

  /** dbrelay_append_request_json. */
  method AppendRequestJson(json: Writer, e: Echo)
    requires json.Valid() && CEcho(e)
    modifies json.Repr
    ensures json.Valid() && fresh(json.Repr - old(json.Repr))
    ensures json.State() == Run(old(json.State()), FieldCalls("request", Obj(RequestMembers(e))))
  {
    RunObjectField(json.State(), "request", RequestMembers(e));
    OpenObjectField(json, "request");
    WriteRequestMembers(json, e);
    json.CloseContainer(ObjectNode);
  }

  /** The loop over the parameters in the log. */
  method WriteParams(json: Writer, params: seq<string>)
    requires json.Valid() && forall i :: 0 <= i < |params| ==> NulFree(params[i])
    modifies json.Repr
    ensures json.Valid() && fresh(json.Repr - old(json.Repr))
    ensures json.State() == Run(old(json.State()), MemberCalls(ParamMembers(params, 0)))
  {
    var i := 0;
    ghost var goal := Run(json.State(), MemberCalls(ParamMembers(params, 0)));
    assert params[0..] == params;
    while i < |params|
      invariant 0 <= i <= |params| && json.Valid() && fresh(json.Repr - old(json.Repr))
      invariant goal == Run(json.State(), MemberCalls(ParamMembers(params[i..], i)))
    {
      assert params[i..][0] == params[i] && params[i..][1..] == params[i + 1..];
      RunMembersSplit(json.State(), [Member("param" + Decimal(i), Str(params[i]))], ParamMembers(params[i + 1..], i + 1));
      WriteOne(json, "param" + Decimal(i), params[i]);
      i := i + 1;
    }
  }

  /** The error, if any, and the parameters. */
  method WriteErrorAndParams(json: Writer, e: Echo, error: string)
    requires json.Valid() && CEcho(e) && NulFree(error)
    modifies json.Repr
    ensures json.Valid() && fresh(json.Repr - old(json.Repr))
    ensures json.State() == Run(old(json.State()), MemberCalls(Optional("error", error) + ParamMembers(e.params, 0)))
  {
    RunMembersSplit(json.State(), Optional("error", error), ParamMembers(e.params, 0));
    WriteOptional(json, "error", error);
    WriteParams(json, e.params);
  }

  method WriteLogMembers(json: Writer, e: Echo, error: string)
    requires json.Valid() && CEcho(e) && NulFree(error)
    modifies json.Repr
    ensures json.Valid() && fresh(json.Repr - old(json.Repr))
    ensures json.State() == Run(old(json.State()), MemberCalls(LogMembers(e, error)))
  {
    ghost var p := Optional("error", error) + ParamMembers(e.params, 0);
    if e.echoSql {
      RunMembersSplit(json.State(), [Member("sql", Str(e.sql))], p);
      WriteOne(json, "sql", e.sql);
    } else {
      assert [] + p == p;
    }
    WriteErrorAndParams(json, e, error);
  }

  /** The `log` member of dbrelay_append_log_json. */
  method AppendLogJson(json: Writer, e: Echo, error: string)
    requires json.Valid() && CEcho(e) && NulFree(error)
    modifies json.Repr
    ensures json.Valid() && fresh(json.Repr - old(json.Repr))
    ensures json.State() == Run(old(json.State()), FieldCalls("log", Obj(LogMembers(e, error))))
  {
    RunObjectField(json.State(), "log", LogMembers(e, error));
    OpenObjectField(json, "log");
    WriteLogMembers(json, e, error);
    json.CloseContainer(ObjectNode);
  }

  method AppendFragment(json: Writer, fragment: Option<string>)
    requires json.Valid()
    modifies json.Repr
    ensures json.Valid() && fresh(json.Repr - old(json.Repr))
    ensures json.State() == Run(old(json.State()), Splice(fragment))
  {
    ghost var w := json.State();
    RunSplice(w, fragment);
    EmitNothing(w);
    if fragment.Some? {
      json.Append(", ");
      json.Append(fragment.value);
      EmitTwice(w, ", ", fragment.value);
    }
  }

  // ---- failed requests ---------------------------------------------------------------------

  /** A response that holds the request and this log. */
  function ErrorJson(e: Echo, log: seq<Member>): Json {
    Obj([Member("request", Obj(RequestMembers(e))), Member("log", Obj(log))])
  }

  /** The log of dbrelay_write_json_log. */
  function RefusalMembers(sql: Option<string>, error: string): seq<Member> {
    (if sql.Some? then [Member("sql", Str(sql.value))] else []) + [Member("error", Str(error))]
  }

  lemma RefusalWritable(sql: Option<string>, error: string)
    requires Bytes(error) && (sql.Some? ==> Bytes(sql.value))
    ensures Writable(Obj(RefusalMembers(sql, error)))
  {
    var last := [Member("error", Str(error))];
    StrWritable("error", error, []);
    assert last + [] == last && [] + last == last;
    if sql.Some? { StrWritable("sql", sql.value, last); }
  }

  /** The members of a response without result sets. */
  lemma PlainDenotes(st: Style, req: Json, log: Json, w: string, tail: string)
    requires BlankStyle(st) && Blank(w) && Blank(tail) && WritableField(req) && WritableField(log)
    ensures DenotesMembers(w + ResponseBody(st, req, None, log) + tail, [Member("request", req), Member("log", log)])
  {
    var mr, ml := Member("request", req), Member("log", log);
    assert PlainKey("request");
    IndentBlank(st, 1);
    LogDenotes(st, log, tail);
    FieldCons(st, 1, mr, w + Indent(st, 1), RenderMember(st, 1, ml, " ") + tail, [ml]);
    assert [mr] + [ml] == [mr, ml];
    PlainText(st, mr, ml, w, tail);
  }

  lemma PlainText(st: Style, mr: Member, ml: Member, w: string, tail: string)
    requires mr.key == "request" && ml.key == "log"
    ensures w + ResponseBody(st, mr.value, None, ml.value) + tail ==
            RenderMember(st, 1, mr, w + Indent(st, 1)) + ("," + (RenderMember(st, 1, ml, " ") + tail))
  {
    var x, l := RenderMember(st, 1, mr, Indent(st, 1)), RenderMember(st, 1, ml, ", ");
    LeadMember(st, 1, mr, w, Indent(st, 1));
    CommaMember(st, 1, ml, tail);
    assert "" + l == l;
    Assoc(w, x, l);
    Assoc(w + x, l, tail);
  }

  method WriteRefusalLog(json: Writer, sql: Option<string>, error: string)
    requires json.Valid() && NulFree(error) && (sql.Some? ==> NulFree(sql.value))
    modifies json.Repr
    ensures json.Valid() && fresh(json.Repr - old(json.Repr))
    ensures json.State() == Run(old(json.State()), FieldCalls("log", Obj(RefusalMembers(sql, error))))
  {
    RunObjectField(json.State(), "log", RefusalMembers(sql, error));
    OpenObjectField(json, "log");
    WriteRefusal(json, sql, error);
    json.CloseContainer(ObjectNode);
  }

  method WriteRefusal(json: Writer, sql: Option<string>, error: string)
    requires json.Valid() && NulFree(error) && (sql.Some? ==> NulFree(sql.value))
    modifies json.Repr
    ensures json.Valid() && fresh(json.Repr - old(json.Repr))
    ensures json.State() == Run(old(json.State()), MemberCalls(RefusalMembers(sql, error)))
  {
    ghost var last := [Member("error", Str(error))];
    if sql.Some? {
      RunMembersSplit(json.State(), [Member("sql", Str(sql.value))], last);
      WriteOne(json, "sql", sql.value);
    } else {
      assert [] + last == last;
    }
    WriteOne(json, "error", error);
  }

  // ---- end to end ------------------------------------------------------------------------

  lemma FragmentClean(st: Style, v: Json)
    requires WriterStyle(st) && Writable(v)
    ensures CleanEnds(FragmentText(st, v))
    ensures DeleteNewlines(FragmentText(st, v)) == FragmentText(Strip(st), v)
  {
    CleanRender(st, 0, v);
    CleanAppend(st.sp, Render(st, 0, v));
    assert PlainKey("data");
    PlainKeyLine("data");
    CleanMemberText("", "data", st.sp, st.sp + Render(st, 0, v));
    StripNl(st);
    StripRender(st, 0, v);
    DeleteNewlinesAppend(st.sp, Render(st, 0, v));
    StripMemberText("", "data", st.sp, st.sp + Render(st, 0, v));
  }

  /** No cut of a standard-mode result, compact or pretty, is a control line. */
  lemma PayloadSafe(ts: seq<Table>, pretty: bool)
    requires GoodTables(ts)
    ensures AnswerSafe(Rows(DataEffect(false, BLANK.(pretty := pretty), ts).text))
  {
    DataWritable(ts);
    DataFragment(pretty, ts);
    var t := FragmentText(if pretty then PRETTY else COMPACT, DataJson(ts));
    FragmentClean(if pretty then PRETTY else COMPACT, DataJson(ts));
    CleanFinalNewline(t);
    CleanEndsSafe(t + "\n");
  }

  /**
   * From the database to the HTTP response over a named connection: whatever the schedule, the chunking
   * and the channel capacity, if the connector's database answers with these result sets, the worker's
   * response is one well-formed object that reads back as exactly these result sets, and a compact
   * result arrives byte for byte.
   */
  lemma EndToEnd(
    env: Env, cap: nat, sched: (nat, Sys<State>) -> Action, c: State, r: Request, sql: string,
    ts: seq<Table>, pretty: bool, e: Echo, echoPretty: bool)
    requires Scheduler(ConnMachine(env), cap, sched)
    requires 1 <= cap && Idle(c) && ValidPid(env) && FitsFields(r) && SqlSafe(sql)
    requires GoodTables(ts)
    requires AnswerOf(env, Loaded(c, r, sql)) == Rows(DataEffect(false, BLANK.(pretty := pretty), ts).text)
    requires GoodEcho(e)
    ensures var got := RunUnder(ConnMachine(env), cap, sched, 0, Start(c, r, sql)).client.got;
            && got.error == 0
            && ParseText(Run(BLANK.(pretty := echoPretty), ResponseCalls(e, Some(got.text), "")).text) == Some(ResponseJson(e, ts, ""))
            && (!pretty ==> got.text == DataEffect(false, BLANK, ts).text)
  {
    var got := RunUnder(ConnMachine(env), cap, sched, 0, Start(c, r, sql)).client.got;
    assert got.error == 0 && got.text == DeleteNewlines(DataEffect(false, BLANK.(pretty := pretty), ts).text) by {
      PayloadSafe(ts, pretty);
      SessionTransparent(env, cap, sched, c, r, sql);
    }
    ArrivedReads(ts, pretty, e, echoPretty);
  }

  lemma ArrivedReads(ts: seq<Table>, pretty: bool, e: Echo, echoPretty: bool)
    requires GoodTables(ts) && GoodEcho(e)
    ensures var t := DeleteNewlines(DataEffect(false, BLANK.(pretty := pretty), ts).text);
            && ParseText(Run(BLANK.(pretty := echoPretty), ResponseCalls(e, Some(t), "")).text) == Some(ResponseJson(e, ts, ""))
            && (!pretty ==> t == DataEffect(false, BLANK, ts).text)
  {
    DataArrives(ts, pretty);
    DataWritable(ts);
    ResponseRoundTrip(e, echoPretty, if pretty then STRIPPED else COMPACT, ts, "");
  }

  /** What is left of the result sets after the connector's newlines are deleted. */
  lemma DataArrives(ts: seq<Table>, pretty: bool)
    requires GoodTables(ts)
    ensures var t := DataEffect(false, BLANK.(pretty := pretty), ts).text;
            && DeleteNewlines(t) == FragmentText(if pretty then STRIPPED else COMPACT, DataJson(ts))
            && (!pretty ==> DeleteNewlines(t) == t == DataEffect(false, BLANK, ts).text)
  {
    DataWritable(ts);
    DataFragment(pretty, ts);
    FragmentClean(if pretty then PRETTY else COMPACT, DataJson(ts));
    assert BLANK.(pretty := false) == BLANK;
  }
}
