/** The response of dbrelay_db_run_query on every path, with its callbacks (src/db.c). */
module Queries {
  import opened CStrings
  import opened Connectors
  import opened Clients
  import opened JsonGrammar
  import opened JsonWriter
  import opened JsonRoundTrip
  import opened ResultSets
  import opened Emission
  import opened Responses

  /** The request, with the names of the functions that are to be called with a result (`js_callback`) or an error (`js_error`). */
  datatype Asked = Asked(e: Echo, hasSql: bool, password: string, onResult: string, onError: string, pretty: bool)

  /** What pool, connector and database answer to it. */
  datatype World =
    | NoConnection
    | NoConnector
    | Answered(text: string, failed: bool)
    | NotConnected(message: string)
    | QueryFailed(message: string)
    | Queried(text: string)

  datatype Verdict = Refused(error: string) | Failed(error: string) | Done(fragment: Option<string>)

  const ERROR_SZ := 500
  const NO_PASSWORD := "Login failed and no password " + "was set, please check.\n"

  function LoginError(password: string, message: string): string {
    if password == "" then NO_PASSWORD + CopyString(message, ERROR_SZ - |NO_PASSWORD|)
    else if message == "" then "Connection failed.\n"
    else CopyString(message, ERROR_SZ)
  }

  /** dbrelay_check_request. */
  predicate Complete(a: Asked) {
    a.hasSql && a.e.server != "" && a.e.user != ""
  }

  function Judge(a: Asked, w: World): Verdict {
    if !Complete(a) then Refused("Not all required parameters submitted.")
    else match w
      case NoConnection => Refused("Couldn't allocate new connection")
      case NoConnector => Refused("Couldn't initialize connector")
      case Answered(text, failed) => if failed then Failed(CopyString(text, ERROR_SZ)) else Done(if text == "" then None else Some(text))
      case NotConnected(message) => Failed(LoginError(a.password, message))
      case QueryFailed(message) => Failed(message)
      case Queried(text) => Done(Some(text))
  }

  function Sql(a: Asked): Option<string> {
    if a.hasSql then Some(a.e.sql) else None
  }

  function LogOf(a: Asked, v: Verdict): seq<Member> {
    match v
    case Refused(error) => RefusalMembers(Sql(a), error)
    case Failed(error) => LogMembers(a.e, error)
    case Done(_) => LogMembers(a.e, "")
  }

  function Fragment(v: Verdict): Option<string> {
    if v.Done? then v.fragment else None
  }

  /** A failure starts the text over when there is a function for errors. */
  predicate Restarted(a: Asked, v: Verdict) {
    !v.Done? && a.onError != ""
  }

  /** The function the text calls. */
  function Callee(a: Asked, v: Verdict): string {
    if Restarted(a, v) then a.onError else a.onResult
  }

  function Opening(name: string): string {
    if name == "" then "" else name + "("
  }

  function Closing(a: Asked): string {
    if a.onResult != "" || a.onError != "" then ");" else ""
  }

  function Begun(name: string, pretty: bool): W {
    BLANK.(text := Opening(name), pretty := pretty)
  }

  /** The text of the response; a restarted one is never pretty. */
  function ResponseOf(a: Asked, v: Verdict): string {
    Run(Begun(Callee(a, v), a.pretty && !Restarted(a, v)),
        [NewObject] + ((FieldCalls("request", Obj(RequestMembers(a.e))) +
        (Splice(Fragment(v)) + FieldCalls("log", Obj(LogOf(a, v))))) + [EndObject])).text + Closing(a)
  }

  function Response(a: Asked, w: World): string {
    ResponseOf(a, Judge(a, w))
  }

  // ---- writing it ---------------------------------------------------------------------

  function RequestCalls(e: Echo): seq<Call> {
    [NewObject] + FieldCalls("request", Obj(RequestMembers(e)))
  }

  lemma RunRequest(w: W, e: Echo)
    ensures Run(w, RequestCalls(e)) == Run(Do(w, NewObject), FieldCalls("request", Obj(RequestMembers(e))))
  {
    RunOne(w, NewObject, FieldCalls("request", Obj(RequestMembers(e))));
  }

  /** json_new and, if there is a name, json_add_callback. */
  method NewCall(name: string, pretty: bool) returns (json: Writer)
    ensures json.Valid() && fresh(json.Repr)
    ensures json.State() == Begun(name, pretty)
  {
    json := new Writer(pretty, false);
    if name != "" {
      json.Append(name);
      json.Append("(");
      assert "" + name + "(" == name + "(";
    }
  }

  /** The start of a text, up to the end of the request. */
  method Begin(e: Echo, name: string, pretty: bool) returns (json: Writer)
    requires CEcho(e)
    ensures json.Valid() && fresh(json.Repr)
    ensures json.State() == Run(Begun(name, pretty), RequestCalls(e))
  {
    json := NewCall(name, pretty);
    RunRequest(json.State(), e);
    json.OpenContainer(ObjectNode);
    AppendRequestJson(json, e);
  }

  /** dbrelay_db_restart_json. */
  method Restart(a: Asked, json: Writer) returns (json': Writer)
    requires CEcho(a.e) && json.Valid()
    ensures json'.Valid() && (json' == json || fresh(json'.Repr))
    ensures if a.onError != "" then json'.State() == Run(Begun(a.onError, false), RequestCalls(a.e)) else json' == json
  {
    json' := json;
    if a.onError != "" { json' := Begin(a.e, a.onError, false); }
  }

  predicate CAsked(a: Asked) {
    CEcho(a.e)
  }

  predicate CVerdict(v: Verdict) {
    v.Done? || NulFree(v.error)
  }

  /** The log, the end of the object and the end of the call. */
  method Finish(a: Asked, json: Writer, v: Verdict) returns (text: string)
    requires json.Valid() && CAsked(a) && CVerdict(v)
    modifies json.Repr
    ensures text == Do(Run(Run(old(json.State()), Splice(Fragment(v))), FieldCalls("log", Obj(LogOf(a, v)))), EndObject).text + Closing(a)
  {
    AppendFragment(json, Fragment(v));
    if v.Refused? { WriteRefusalLog(json, Sql(a), v.error); } else { AppendLogJson(json, a.e, if v.Failed? then v.error else ""); }
    json.CloseContainer(ObjectNode);
    if a.onResult != "" || a.onError != "" { json.Append(");"); }
    text := json.ToText();
  }

  lemma RunParts(w: W, a: seq<Call>, b: seq<Call>, c: seq<Call>)
    ensures Run(w, [NewObject] + ((a + (b + c)) + [EndObject])) == Do(Run(Run(Run(w, [NewObject] + a), b), c), EndObject)
  {
    RunWrapped(w, NewObject, a + (b + c), EndObject);
    RunAppend(Do(w, NewObject), a, b + c);
    RunAppend(Run(Do(w, NewObject), a), b, c);
    RunOne(w, NewObject, a);
  }

  /** The text of dbrelay_db_run_query on every path; a connector that cannot be initialised restarts it twice. */
  method RunQuery(a: Asked, world: World) returns (text: string)
    requires CAsked(a) && CVerdict(Judge(a, world))
    ensures text == Response(a, world)
  {
    var v := Judge(a, world);
    RunParts(Begun(Callee(a, v), a.pretty && !Restarted(a, v)), FieldCalls("request", Obj(RequestMembers(a.e))),
             Splice(Fragment(v)), FieldCalls("log", Obj(LogOf(a, v))));
    var json := Begin(a.e, a.onResult, a.pretty);
    if !v.Done? { json := Restart(a, json); }
    if Complete(a) && world.NoConnector? { json := Restart(a, json); }
    text := Finish(a, json, v);
  }

  // ---- reading it ------------------------------------------------------------------------

  /** What a client finds in a text that calls `name` with one value, or is one value when there is no name. */
  function Unwrapped(name: string, text: string): Option<Json> {
    if name == "" then ParseText(text)
    else if |name| + 3 <= |text| && HasPrefix(text, name + "(") && text[|text| - 2..] == ");" then
      ParseText(text[|name| + 1..|text| - 2])
    else None
  }

  function VerdictJson(a: Asked, v: Verdict, ts: seq<Table>): Json
    requires AllRectangular(ts)
  {
    if Fragment(v).Some? then ResponseJson(a.e, ts, "") else ErrorJson(a.e, LogOf(a, v))
  }

  /** The object of a response, around whatever is spliced in. */
  function ObjectOf(st: Style, a: Asked, v: Verdict): string {
    "{" + (st.nl + ResponseBody(st, Obj(RequestMembers(a.e)), Fragment(v), Obj(LogOf(a, v))) + (st.nl + "")) + "}"
  }

  predicate GoodAsked(a: Asked) {
    GoodEcho(a.e)
  }

  /** The error is a byte string, and what is spliced in is the data of these result sets in some style. */
  predicate GoodVerdict(v: Verdict, st: Style, ts: seq<Table>) {
    && (!v.Done? ==> Bytes(v.error))
    && AllRectangular(ts) && Writable(DataJson(ts)) && BlankStyle(st)
    && (Fragment(v).Some? ==> Fragment(v).value == FragmentText(st, DataJson(ts)))
  }

  lemma LogOfWritable(a: Asked, v: Verdict)
    requires GoodAsked(a) && (!v.Done? ==> Bytes(v.error))
    ensures Writable(Obj(RequestMembers(a.e))) && Writable(Obj(LogOf(a, v)))
  {
    EchoWritable(a.e, if v.Failed? then v.error else "");
    if v.Refused? { RefusalWritable(Sql(a), v.error); }
  }

  lemma ResponseIs(a: Asked, v: Verdict)
    requires GoodAsked(a) && (!v.Done? ==> Bytes(v.error))
    ensures var st := if a.pretty && !Restarted(a, v) then PRETTY else COMPACT;
            ResponseOf(a, v) == Opening(Callee(a, v)) + ObjectOf(st, a, v) + Closing(a)
  {
    LogOfWritable(a, v);
    RunResponse(Begun(Callee(a, v), a.pretty && !Restarted(a, v)), Obj(RequestMembers(a.e)), Fragment(v), Obj(LogOf(a, v)));
  }

  lemma ObjectDenotes(st: Style, a: Asked, v: Verdict, st': Style, ts: seq<Table>)
    requires BlankStyle(st) && GoodAsked(a) && GoodVerdict(v, st', ts)
    ensures Denotes(ObjectOf(st, a, v), VerdictJson(a, v, ts))
  {
    var req, log := Obj(RequestMembers(a.e)), Obj(LogOf(a, v));
    LogOfWritable(a, v);
    if Fragment(v).Some? {
      SplicedDenotes(st, st', req, DataJson(ts), log, st.nl, st.nl + "");
      DenotesObject(st.nl + ResponseBody(st, req, Fragment(v), log) + (st.nl + ""),
                    [Member("request", req), Member("data", DataJson(ts)), Member("log", log)]);
    } else {
      PlainDenotes(st, req, log, st.nl, st.nl + "");
      DenotesObject(st.nl + ResponseBody(st, req, None, log) + (st.nl + ""), [Member("request", req), Member("log", log)]);
    }
  }

  lemma CallReads(name: string, inner: string, v: Json)
    requires Denotes(inner, v)
    ensures Unwrapped(name, Opening(name) + inner + if name == "" then "" else ");") == Some(v)
  {
    TextOf(inner, v);
    if name == "" {
      assert "" + inner + "" == inner;
    } else {
      Unwraps(name, inner);
    }
  }

  lemma StrayClosing(inner: string, v: Json)
    requires Denotes(inner, v)
    ensures ParseText("" + inner + ");") == None
  {
    assert "" + inner == inner && Boundary(");");
    assert SkipWs(");") == ");";
  }

  /** A success with a function for errors alone is nothing a client can read. */
  lemma StrayUnread(a: Asked, v: Verdict, st: Style, ts: seq<Table>)
    requires GoodAsked(a) && GoodVerdict(v, st, ts) && v.Done? && a.onResult == "" && a.onError != ""
    ensures Unwrapped("", ResponseOf(a, v)) == None
  {
    var style := if a.pretty then PRETTY else COMPACT;
    ResponseIs(a, v);
    ObjectDenotes(style, a, v, st, ts);
    StrayClosing(ObjectOf(style, a, v), VerdictJson(a, v, ts));
  }

  /**
   * On every path the response is a call of the function the client expects, or just its argument when
   * there is none, and the argument is one well-formed object that reads back as request, result sets and
   * log: if and only if it is not a success with a function for errors alone, whose text closes a call
   * that it never opened.
   */
  lemma ResponseReadsIff(a: Asked, v: Verdict, st: Style, ts: seq<Table>)
    requires GoodAsked(a) && GoodVerdict(v, st, ts)
    ensures Unwrapped(Callee(a, v), ResponseOf(a, v)) == Some(VerdictJson(a, v, ts)) <==>
            !(v.Done? && a.onResult == "" && a.onError != "")
  {
    var style := if a.pretty && !Restarted(a, v) then PRETTY else COMPACT;
    var inner := ObjectOf(style, a, v);
    ResponseIs(a, v);
    ObjectDenotes(style, a, v, st, ts);
    if v.Done? && a.onResult == "" && a.onError != "" {
      StrayClosing(inner, VerdictJson(a, v, ts));
    } else {
      CallReads(Callee(a, v), inner, VerdictJson(a, v, ts));
    }
  }

  // ---- a fragment that is no member --------------------------------------------------------------

  predicate NoMember(f: string) {
    f != "" && !IsWs(f[0]) && f[0] != '"'
  }

  lemma NoMembers(f: string, rest: string)
    requires NoMember(f)
    ensures ParseMembers(" " + f + rest).Fail?
  {
    Assoc(" ", f, rest);
    var t := f + rest;
    assert t[0] == f[0] && Blank(" ");
    SkipBlank(" ", t);
  }

  lemma BehindRequest(st: Style, req: Json, w: string, f: string, rest: string)
    requires BlankStyle(st) && Blank(w) && Writable(req) && NoMember(f)
    ensures ParseMembers(RenderMember(st, 1, Member("request", req), w) + ("," + (" " + f + rest))).Fail?
  {
    var vt := Render(st, 1, req);
    RenderDenotes(st, 1, req);
    RenderStart(st, 1, req);
    DenotesBlank(st.sp, vt, req);
    assert PlainKey("request");
    PlainKeyDenotes("request");
    MemberTail(w, "request", st.sp, st.sp + vt, "," + (" " + f + rest));
    NoMembers(f, rest);
    SecondMembers(w, "request", st.sp, st.sp + vt, req, " " + f + rest);
  }

  lemma NoObject(st: Style, m: Member, w: string, t: string)
    requires Blank(w) && ParseMembers(RenderMember(st, 1, m, w) + t).Fail?
    ensures ParseText("{" + (RenderMember(st, 1, m, w) + t)) == None
  {
    var inside := RenderMember(st, 1, m, w) + t;
    MemberTail(w, m.key, st.sp, st.sp + Render(st, 1, m.value), t);
    var k := m.key + ("\"" + (st.sp + (":" + (st.sp + Render(st, 1, m.value) + t))));
    assert inside == w + ("\"" + k);
    SkipBlank(w, "\"" + k);
    Front("{", inside);
    assert SkipWs("{" + inside) == "{" + inside;
  }

  /** The text of an object with this fragment, up to it. */
  lemma UpToFragment(st: Style, mr: Member, f: string, log: string, tail: string, rest: string)
    ensures "{" + (st.nl + (RenderMember(st, 1, mr, Indent(st, 1)) + ((", " + f) + log)) + tail) + "}" + rest ==
            "{" + (RenderMember(st, 1, mr, st.nl + Indent(st, 1)) + ("," + (" " + f + (log + (tail + ("}" + rest))))))
  {
    var x, y := RenderMember(st, 1, mr, Indent(st, 1)), tail + ("}" + rest);
    LeadMember(st, 1, mr, st.nl, Indent(st, 1));
    Wrap("{", st.nl + (x + ((", " + f) + log)) + tail, "}", rest);
    Assoc(st.nl + (x + ((", " + f) + log)), tail, "}" + rest);
    Assoc(st.nl, x, (", " + f) + log);
    Assoc(st.nl + x, (", " + f) + log, y);
    Assoc(", " + f, log, y);
    assert ", " == "," + " ";
    Assoc(",", " ", f);
    Assoc(",", " " + f, log + y);
  }

  lemma ObjectUnread(st: Style, a: Asked, v: Verdict, rest: string)
    requires BlankStyle(st) && GoodAsked(a) && v.Done? && v.fragment.Some? && NoMember(v.fragment.value)
    ensures ParseText(ObjectOf(st, a, v) + rest) == None
  {
    var req, f, tail := Obj(RequestMembers(a.e)), v.fragment.value, st.nl + "";
    var mr, log := Member("request", req), RenderMember(st, 1, Member("log", Obj(LogOf(a, v))), ", ");
    LogOfWritable(a, v);
    IndentBlank(st, 1);
    UpToFragment(st, mr, f, log, tail, rest);
    BehindRequest(st, req, st.nl + Indent(st, 1), f, log + (tail + ("}" + rest)));
    NoObject(st, mr, st.nl + Indent(st, 1), "," + (" " + f + (log + (tail + ("}" + rest)))));
  }

  /** A fragment that does not start like a member leaves nothing a client can read. */
  lemma NoMemberUnread(a: Asked, v: Verdict)
    requires GoodAsked(a) && v.Done? && v.fragment.Some? && NoMember(v.fragment.value)
    ensures Unwrapped(Callee(a, v), ResponseOf(a, v)) == None
  {
    var st := if a.pretty then PRETTY else COMPACT;
    ResponseIs(a, v);
    ObjectUnread(st, a, v, Closing(a));
    ObjectUnread(st, a, v, "");
    CallUnread(a.onResult, ObjectOf(st, a, v), Closing(a));
  }

  lemma CallUnread(name: string, inner: string, closing: string)
    requires ParseText(inner + closing) == None && ParseText(inner + "") == None && (name != "" ==> closing == ");")
    ensures Unwrapped(name, Opening(name) + inner + closing) == None
  {
    if name == "" {
      assert "" + inner == inner;
    } else {
      assert inner + "" == inner;
      Unwraps(name, inner);
    }
  }

  lemma Unwraps(name: string, inner: string)
    requires name != ""
    ensures Unwrapped(name, name + "(" + inner + ");") == ParseText(inner)
  {
    var text := name + "(" + inner + ");";
    assert text[..|name| + 1] == name + "(" && text[|text| - 2..] == ");" && text[|name| + 1..|text| - 2] == inner;
  }

  /**
   * A send that fails behind the options gives the worker its error text with error 0. It is spliced in
   * where the result sets belong, and the client gets nothing it can read.
   */
  lemma FailedSendResponse(a: Asked)
    requires GoodAsked(a) && Complete(a)
    ensures var v := Judge(a, Answered(BROKEN, false));
            v == Done(Some(BROKEN)) && Unwrapped(Callee(a, v), ResponseOf(a, v)) == None
  {
    assert BROKEN[0] == 'I';
    NoMemberUnread(a, Done(Some(BROKEN)));
  }
}
