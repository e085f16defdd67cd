/** The real session: the worker's script against the connector's automaton. */
module Scripts {
  import opened CStrings
  import opened Framing
  import opened Transducers
  import opened Clients
  import opened Connectors
  import opened Sessions

  function ConnMachine(env: Env): Machine<State> {
    Machine((c: State, line: string) => HandleLine(env, c, line), (c: State) => c.open)
  }

  // ---- the worker's script -----------------------------------------------

  /** dbrelay_conn_set_option. */
  function SetOption(option: string, value: string): seq<Instr> {
    Exchange(":SET " + option + " " + value, Recv)
  }

  /** A fresh buffer, one line out, one piece back. */
  function Exchange(body: string, recv: Instr): seq<Instr> {
    [Fresh, Send(body + "\n", true), recv]
  }

  datatype Setting = Setting(cmd: Command, value: string)

  /** The options dbrelay_conn_send_request sets, in its order. */
  function Settings(r: Request): seq<Setting> {
    [Setting(CServer, r.server)] + ([Setting(CDatabase, r.database)] + ([Setting(CUser, r.user)] + Settings2(r)))
  }

  function Settings2(r: Request): seq<Setting> {
    if r.password != "" then [Setting(CPassword, r.password)] + Settings3(r) else Settings3(r)
  }

  function Settings3(r: Request): seq<Setting> {
    [Setting(CTimeout, SignedDecimal(r.timeout))] + ([Setting(CFlags, SignedDecimal(r.flags))] + [Setting(CAppname, r.name)])
  }

  function OptionName(cmd: Command): string {
    match cmd
    case CServer => "SERVER"
    case CDatabase => "DATABASE"
    case CUser => "USER"
    case CPassword => "PASSWORD"
    case CAppname => "APPNAME"
    case CTimeout => "TIMEOUT"
    case CFlags => "FLAGS"
    case _ => ""
  }

  function Options(s: seq<Setting>): seq<Instr> {
    if s == [] then [] else SetOption(OptionName(s[0].cmd), s[0].value) + Options(s[1..])
  }

  /** dbrelay_conn_close. */
  const CLOSING: seq<Instr> := [Fresh, Send(":QUIT\n", false), Recv]

  /** The query part of dbrelay_conn_send_request, then dbrelay_conn_close. */
  function Query(sql: string): seq<Instr> {
    QueryThen(sql, [Collect] + CLOSING)
  }

  function QueryThen(sql: string, rest: seq<Instr>): seq<Instr> {
    [Fresh, Send(":SQL BEGIN\n", true)] +
    ([Send(sql, true), Send("\n", true)] +
    ([Send(":SQL END\n", true), Recv] +
    ([Send(":RUN\n", true)] + rest)))
  }

  /** A whole session: dbrelay_conn_initialize, then the request, then the close. */
  function Script(r: Request, sql: string): seq<Instr> {
    Exchange(":HELO", RecvPid) + (Options(Settings(r)) + Query(sql))
  }

  /** What the fixed-size fields of the C request structure can hold. */
  predicate FitsFields(r: Request) {
    && Text(r.server, NAME_SZ) && Text(r.database, OBJ_SZ) && Text(r.user, OBJ_SZ)
    && Text(r.password, OBJ_SZ) && Text(r.name, NAME_SZ)
    && -0x8000_0000_0000_0000 <= r.timeout < 0x8000_0000_0000_0000
    && 0 <= r.flags < 0x1_0000_0000_0000_0000
  }

  predicate Text(s: string, size: nat) {
    |s| < size && NoNewline(s) && NulFree(s)
  }

  // ---- single exchanges ----------------------------------------------------

  lemma CutOwnLine(body: string)
    requires NoNewline(body) && |body| < MAXPIECE
    ensures CutOne(body + "\n") == Piece(body + "\n", "")
  {
    assert (body + "\n")[..|body|] == body;
    CutPiece(body + "\n", "");
    assert body + "\n" + "" == body + "\n";
  }

  lemma FeedLine<C>(m: Machine<C>, c: C, body: string)
    requires NoNewline(body) && |body| < MAXPIECE && m.open(c)
    ensures var (c', reply) := m.handle(c, body + "\n");
            Feed(m, c, body + "\n") == Fed(c', "", reply) && Quiet(m, c, body + "\n") && Stays(m, c, body + "\n")
  {
    CutOwnLine(body);
    var (c', reply) := m.handle(c, body + "\n");
    assert Feed(m, c', "") == Fed(c', "", "");
    assert reply + "" == reply;
  }

  lemma PredictSend<C>(m: Machine<C>, cl: Client, c: C, left: string, text: string, must: bool, rest: seq<Instr>)
    requires Quiet(m, c, left + text) && (must ==> Stays(m, c, left + text))
    ensures var f := Feed(m, c, left + text);
            Predict(m, cl.(prog := [Send(text, must)] + rest), c, left, "") ==
            Predict(m, cl.(prog := rest), f.state, f.left, f.replies)
  {
    assert ([Send(text, must)] + rest)[1..] == rest;
  }

  /** Sending a whole line whose reply is one line, and reading that reply. */
  lemma PredictExchange<C>(m: Machine<C>, cl: Client, c: C, body: string, reply: string, recv: Instr, rest: seq<Instr>)
    requires NoNewline(body) && |body| < MAXPIECE && NoNewline(reply) && |reply| < MAXPIECE
    requires recv.Recv? || recv.RecvPid?
    requires m.open(c) && m.handle(c, body + "\n").1 == reply + "\n"
    ensures Predict(m, cl.(prog := Exchange(body, recv) + rest), c, "", "") ==
            Predict(m, AfterPiece(cl.(prog := [recv] + rest), reply + "\n"), m.handle(c, body + "\n").0, "", "")
  {
    assert (Exchange(body, recv) + rest)[1..] == [Send(body + "\n", true)] + ([recv] + rest);
    FeedLine(m, c, body);
    assert "" + (body + "\n") == body + "\n";
    PredictSend(m, cl, c, "", body + "\n", true, [recv] + rest);
    CutOwnLine(reply);
  }

  // ---- the option phase ----------------------------------------------------

  function CommandText(cmd: Command, value: string): string {
    ":" + Word(cmd) + " " + value
  }

  /** The connector's answer to one well-formed command line. */
  lemma CommandLine(env: Env, c: State, cmd: Command, value: string, before: string, size: nat)
    requires !c.receiveSql && NoNewline(value) && 0 < size
    ensures var l := CommandText(cmd, value);
            && Matches(l, Word(cmd))
            && Process(env, c, l + "\n") == Obey(env, c, l, cmd)
            && Argument(l, Word(cmd), before, size) == CopyString(value, size)
  {
    var l := CommandText(cmd, value);
    assert l[1..|Word(cmd)| + 1] == Word(cmd);
    assert l[|Word(cmd)| + 2..] == value;
    assert Trim(l + "\n") == l;
    CommandsPrefixFree(l, cmd);
  }

  /** The connector state after a `:SET` command has stored `value`. */
  function Stored(c: State, cmd: Command, value: string): State {
    match cmd
    case CServer => c.(req := c.req.(server := CopyString(value, NAME_SZ)))
    case CDatabase => c.(req := c.req.(database := CopyString(value, OBJ_SZ)))
    case CUser => c.(req := c.req.(user := CopyString(value, OBJ_SZ)))
    case CPassword => c.(req := c.req.(password := CopyString(value, OBJ_SZ)))
    case CAppname => c.(req := c.req.(name := CopyString(value, NAME_SZ)))
    case CTimeout =>
      c.(timeoutStr := CopyString(value, DIGITS_SZ), req := c.req.(timeout := Atol(CopyString(value, DIGITS_SZ))))
    case CFlags => c.(req := c.req.(flags := Atol(CopyString(value, DIGITS_SZ))))
    case _ => c
  }

  lemma OptionWord(cmd: Command)
    requires OptionName(cmd) != ""
    ensures Word(cmd) == "SET " + OptionName(cmd)
    ensures |Word(cmd)| <= 12 && NoNewline(Word(cmd))
  {
  }

  lemma OptionLine(option: string, word: string, value: string)
    requires word == "SET " + option
    ensures ":SET " + option + " " + value == ":" + word + " " + value
  {
    assert ":SET " == ":" + "SET ";
    assert ":" + "SET " + option == ":" + ("SET " + option);
  }

  lemma HandleOption(env: Env, c: State, cmd: Command, value: string)
    requires !c.receiveSql && NoNewline(value) && OptionName(cmd) != ""
    ensures HandleLine(env, c, CommandText(cmd, value) + "\n") == (Stored(c, cmd, value), ":OK\n")
  {
    match cmd
    case CServer => CommandLine(env, c, cmd, value, c.req.server, NAME_SZ);
    case CDatabase => CommandLine(env, c, cmd, value, c.req.database, OBJ_SZ);
    case CUser => CommandLine(env, c, cmd, value, c.req.user, OBJ_SZ);
    case CPassword => CommandLine(env, c, cmd, value, c.req.password, OBJ_SZ);
    case CAppname => CommandLine(env, c, cmd, value, c.req.name, NAME_SZ);
    case CTimeout => CommandLine(env, c, cmd, value, c.timeoutStr, DIGITS_SZ);
    case CFlags => CommandLine(env, c, cmd, value, env.junk, DIGITS_SZ);
  }

  lemma PredictOption(env: Env, cl: Client, c: State, cmd: Command, value: string, rest: seq<Instr>)
    requires !c.receiveSql && c.open && NoNewline(value) && |value| <= NAME_SZ && OptionName(cmd) != ""
    ensures Predict(ConnMachine(env), cl.(prog := SetOption(OptionName(cmd), value) + rest), c, "", "") ==
            Predict(ConnMachine(env), cl.(prog := rest), Stored(c, cmd, value), "", "")
  {
    OptionWord(cmd);
    OptionLine(OptionName(cmd), Word(cmd), value);
    HandleOption(env, c, cmd, value);
    var body := CommandText(cmd, value);
    assert NoNewline(body);
    PredictExchange(ConnMachine(env), cl, c, body, ":OK", Recv, rest);
    assert ([Recv] + rest)[1..] == rest;
    assert ":OK" + "\n" == ":OK\n";
  }

  /** The connector after a list of options. */
  function StoredAll(c: State, s: seq<Setting>): State
    decreases |s|
  {
    if s == [] then c else StoredAll(Stored(c, s[0].cmd, s[0].value), s[1..])
  }

  predicate Sendable(s: Setting) {
    OptionName(s.cmd) != "" && NoNewline(s.value) && |s.value| <= NAME_SZ
  }

  predicate AllSendable(s: seq<Setting>) {
    s == [] || (Sendable(s[0]) && AllSendable(s[1..]))
  }

  lemma PredictFirstOption(env: Env, cl: Client, c: State, s: seq<Setting>, rest: seq<Instr>)
    requires !c.receiveSql && c.open && s != [] && Sendable(s[0])
    ensures Predict(ConnMachine(env), cl.(prog := Options(s) + rest), c, "", "") ==
            Predict(ConnMachine(env), cl.(prog := Options(s[1..]) + rest), Stored(c, s[0].cmd, s[0].value), "", "")
  {
    assert Options(s) + rest == SetOption(OptionName(s[0].cmd), s[0].value) + (Options(s[1..]) + rest);
    PredictOption(env, cl, c, s[0].cmd, s[0].value, Options(s[1..]) + rest);
  }

  lemma {:induction false} PredictOptions(env: Env, cl: Client, c: State, s: seq<Setting>, rest: seq<Instr>)
    requires !c.receiveSql && c.open && AllSendable(s)
    ensures Predict(ConnMachine(env), cl.(prog := Options(s) + rest), c, "", "") ==
            Predict(ConnMachine(env), cl.(prog := rest), StoredAll(c, s), "", "")
    decreases |s|
  {
    if s == [] {
      assert [] + rest == rest;
    } else {
      var c' := Stored(c, s[0].cmd, s[0].value);
      assert !c'.receiveSql && c'.open;
      PredictFirstOption(env, cl, c, s, rest);
      PredictOptions(env, cl, c', s[1..], rest);
    }
  }

  /** The connector after the option phase: the worker's values, cut to the fields they are stored in. */
  function Configured(c: State, r: Request): State {
    ConfiguredRest(c.(req := c.req.(server := r.server, database := r.database, user := r.user)), r)
  }

  function ConfiguredRest(c: State, r: Request): State {
    var t := CopyString(SignedDecimal(r.timeout), DIGITS_SZ);
    c.(timeoutStr := t, req := c.req.(
      password := if r.password != "" then r.password else c.req.password,
      timeout := Atol(t),
      flags := Atol(CopyString(SignedDecimal(r.flags), DIGITS_SZ)),
      name := r.name))
  }

  lemma NumberLine(n: int)
    requires -0x1_0000_0000_0000_0000 < n < 0x1_0000_0000_0000_0000
    ensures NoNewline(SignedDecimal(n)) && |SignedDecimal(n)| <= 21
  {
    var a := if n < 0 then -n else n;
    assert forall c :: c in Decimal(a) ==> IsDigit(c);
    assert Pow10(10) == 10000000000;
    assert Pow10(15) == 1000000000000000;
    assert Pow10(20) == 100000000000000000000;
    DecimalFits(a, 20);
  }

  lemma StoredSplit(c: State, a: Setting, s: seq<Setting>)
    ensures StoredAll(c, [a] + s) == StoredAll(Stored(c, a.cmd, a.value), s)
  {
    assert ([a] + s)[1..] == s;
  }

  lemma SettingsConfigure(c: State, r: Request)
    requires FitsFields(r)
    ensures StoredAll(c, Settings(r)) == Configured(c, r)
  {
    FirstSettings(c, r);
    Settings2Configure(c.(req := c.req.(server := r.server, database := r.database, user := r.user)), r);
  }

  lemma FirstSettings(c: State, r: Request)
    requires FitsFields(r)
    ensures StoredAll(c, Settings(r)) ==
            StoredAll(c.(req := c.req.(server := r.server, database := r.database, user := r.user)), Settings2(r))
  {
    var sv, db, us := Setting(CServer, r.server), Setting(CDatabase, r.database), Setting(CUser, r.user);
    StoredSplit(c, sv, [db] + ([us] + Settings2(r)));
    var c1 := c.(req := c.req.(server := r.server));
    StoredSplit(c1, db, [us] + Settings2(r));
    StoredSplit(c1.(req := c1.req.(database := r.database)), us, Settings2(r));
  }

  lemma Settings2Configure(c3: State, r: Request)
    requires FitsFields(r)
    ensures StoredAll(c3, Settings2(r)) == ConfiguredRest(c3, r)
  {
    if r.password != "" {
      StoredSplit(c3, Setting(CPassword, r.password), Settings3(r));
      Settings3Configure(c3.(req := c3.req.(password := r.password)), r);
    } else {
      Settings3Configure(c3, r);
    }
    NameStored(r);
  }

  lemma NameStored(r: Request)
    requires FitsFields(r)
    ensures CopyString(r.name, NAME_SZ) == r.name
  {
  }

  lemma Settings3Configure(c4: State, r: Request)
    ensures StoredAll(c4, Settings3(r)) ==
            Stored(Stored(Stored(c4, CTimeout, SignedDecimal(r.timeout)), CFlags, SignedDecimal(r.flags)), CAppname, r.name)
  {
    var ti, fl := Setting(CTimeout, SignedDecimal(r.timeout)), Setting(CFlags, SignedDecimal(r.flags));
    var ap := Setting(CAppname, r.name);
    StoredSplit(c4, ti, [fl] + [ap]);
    var c5 := Stored(c4, CTimeout, SignedDecimal(r.timeout));
    StoredSplit(c5, fl, [ap]);
    var c6 := Stored(c5, CFlags, SignedDecimal(r.flags));
    StoredSplit(c6, ap, []);
    assert [ap] + [] == [ap];
  }

  lemma SendableSplit(a: Setting, s: seq<Setting>)
    requires Sendable(a) && AllSendable(s)
    ensures AllSendable([a] + s)
  {
    assert ([a] + s)[1..] == s;
  }

  lemma SettingsSendable(r: Request)
    requires FitsFields(r)
    ensures AllSendable(Settings(r))
  {
    NumberLine(r.timeout);
    NumberLine(r.flags);
    var sv, db, us := Setting(CServer, r.server), Setting(CDatabase, r.database), Setting(CUser, r.user);
    var ti, fl := Setting(CTimeout, SignedDecimal(r.timeout)), Setting(CFlags, SignedDecimal(r.flags));
    var ap := Setting(CAppname, r.name);
    assert [ap] == [ap] + [];
    SendableSplit(ap, []);
    SendableSplit(fl, [ap]);
    SendableSplit(ti, [fl] + [ap]);
    if r.password != "" { SendableSplit(Setting(CPassword, r.password), Settings3(r)); }
    SendableSplit(us, Settings2(r));
    SendableSplit(db, [us] + Settings2(r));
    SendableSplit(sv, [db] + ([us] + Settings2(r)));
  }

  // ---- when a number survives its nine-character field ---------------------

  lemma {:induction false} PrefixIsSmaller(n: nat, k: nat) returns (m: nat)
    requires 1 <= k < |Decimal(n)|
    ensures m < n && Decimal(n)[..k] == Decimal(m)
  {
    var d := Decimal(n / 10);
    assert Decimal(n) == d + [Digit(n % 10)];
    assert Decimal(n)[..k] == d[..k];
    if k == |d| {
      m := n / 10;
    } else {
      m := PrefixIsSmaller(n / 10, k);
    }
  }

  /** TIMEOUT and FLAGS reach the connector unchanged if and only if they print in at most nine characters. */
  lemma NumberTransfersIff(n: int)
    ensures Atol(CopyString(SignedDecimal(n), DIGITS_SZ)) == n <==> |SignedDecimal(n)| < DIGITS_SZ
  {
    var s := SignedDecimal(n);
    if |s| < DIGITS_SZ {
      AtolSignedDecimal(n);
    } else if n < 0 {
      var m := PrefixIsSmaller(-n, DIGITS_SZ - 2);
      assert s[..DIGITS_SZ - 1] == "-" + s[1..][..DIGITS_SZ - 2];
      assert s[1..] == Decimal(-n);
      assert ("-" + Decimal(m))[1..] == Decimal(m);
      ReadDecimal(m);
    } else {
      var m := PrefixIsSmaller(n, DIGITS_SZ - 1);
      AtolSignedDecimal(m);
    }
  }

  // ---- what a script sends ------------------------------------------------

  /** Everything a script sends, in order. */
  function SentText(prog: seq<Instr>): string {
    if prog == [] then ""
    else (if prog[0].Send? then prog[0].text else "") + SentText(prog[1..])
  }

  lemma {:induction false} SentAppend(a: seq<Instr>, b: seq<Instr>)
    ensures SentText(a + b) == SentText(a) + SentText(b)
  {
    if a == [] {
      assert a + b == b;
    } else {
      assert (a + b)[1..] == a[1..] + b;
      SentAppend(a[1..], b);
      Assoc(if a[0].Send? then a[0].text else "", SentText(a[1..]), SentText(b));
    }
  }

  /** What the option calls for some settings send. */
  function OptionsText(s: seq<Setting>): string {
    if s == [] then "" else (":SET " + OptionName(s[0].cmd) + " " + s[0].value + "\n") + OptionsText(s[1..])
  }

  lemma OptionsCons(a: Setting, s: seq<Setting>)
    ensures OptionsText([a] + s) == (":SET " + OptionName(a.cmd) + " " + a.value + "\n") + OptionsText(s)
  {
    assert ([a] + s)[1..] == s;
  }

  lemma {:induction false} OptionsSent(s: seq<Setting>)
    ensures SentText(Options(s)) == OptionsText(s)
  {
    if s != [] {
      var call := SetOption(OptionName(s[0].cmd), s[0].value);
      SentAppend(call, Options(s[1..]));
      OptionsSent(s[1..]);
      ExchangeSent(":SET " + OptionName(s[0].cmd) + " " + s[0].value, Recv);
    }
  }

  const END_LINE := ":SQL END\n"

  /** The bytes dbrelay_conn_send_request sends. */
  function RequestText(r: Request, sql: string): string {
    OptionsText(Settings(r)) + (":SQL BEGIN\n" + sql + "\n" + END_LINE) + ":RUN\n"
  }

  lemma ScriptSent(r: Request, sql: string)
    ensures SentText(Script(r, sql)) == ":HELO\n" + (RequestText(r, sql) + ":QUIT\n")
  {
    var opts := Options(Settings(r));
    SentAppend(Exchange(":HELO", RecvPid), opts + Query(sql));
    SentAppend(opts, Query(sql));
    OptionsSent(Settings(r));
    ExchangeSent(":HELO", RecvPid);
    assert ":HELO" + "\n" == ":HELO\n";
    QuerySent(sql);
    ScriptParts(OptionsText(Settings(r)), ":SQL BEGIN\n" + sql + "\n" + END_LINE, ":RUN\n", ":QUIT\n");
  }

  lemma ExchangeSent(body: string, recv: Instr)
    requires !recv.Send?
    ensures SentText(Exchange(body, recv)) == body + "\n"
  {
    SentAppend([Fresh], [Send(body + "\n", true), recv]);
    SentOne(Fresh);
    SentPair(Send(body + "\n", true), recv);
    assert Exchange(body, recv) == [Fresh] + [Send(body + "\n", true), recv];
  }

  lemma ScriptParts(a: string, b: string, c: string, d: string)
    ensures a + (b + (c + d)) == a + b + c + d
  {
  }

  lemma QuerySent(sql: string)
    ensures SentText(Query(sql)) == (":SQL BEGIN\n" + sql + "\n" + END_LINE) + (":RUN\n" + ":QUIT\n")
  {
    var a, b, c, d := [Fresh, Send(":SQL BEGIN\n", true)], [Send(sql, true), Send("\n", true)], [Send(END_LINE, true), Recv], [Send(":RUN\n", true)];
    SentParts(a, b, c, d, [Collect] + CLOSING);
    SentPair(Fresh, Send(":SQL BEGIN\n", true));
    SentPair(Send(sql, true), Send("\n", true));
    SentPair(Send(END_LINE, true), Recv);
    SentOne(d[0]);
    ClosingSent();
    ScriptJoin(":SQL BEGIN\n", sql, END_LINE, ":RUN\n", ":QUIT\n");
  }

  lemma SentParts(a: seq<Instr>, b: seq<Instr>, c: seq<Instr>, d: seq<Instr>, e: seq<Instr>)
    ensures SentText(a + (b + (c + (d + e)))) == SentText(a) + (SentText(b) + (SentText(c) + (SentText(d) + SentText(e))))
  {
    SentAppend(a, b + (c + (d + e)));
    SentAppend(b, c + (d + e));
    SentAppend(c, d + e);
    SentAppend(d, e);
  }

  lemma ClosingSent()
    ensures SentText([Collect] + CLOSING) == ":QUIT\n"
  {
    SentAppend([Collect], CLOSING);
    SentOne(Collect);
    assert CLOSING == [Fresh] + [Send(":QUIT\n", false), Recv];
    SentAppend([Fresh], [Send(":QUIT\n", false), Recv]);
    SentOne(Fresh);
    SentPair(Send(":QUIT\n", false), Recv);
  }

  lemma ScriptJoin(a: string, b: string, c: string, d: string, e: string)
    ensures a + ((b + "\n") + (c + (d + e))) == (a + b + "\n" + c) + (d + e)
  {
  }

  lemma SentOne(i: Instr)
    ensures SentText([i]) == if i.Send? then i.text else ""
  {
    assert [i][1..] == [];
  }

  lemma SentPair(i: Instr, j: Instr)
    ensures SentText([i, j]) == (if i.Send? then i.text else "") + (if j.Send? then j.text else "")
  {
    assert [i, j][1..] == [j];
    SentOne(j);
  }
}
