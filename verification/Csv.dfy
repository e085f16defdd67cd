/** CSV mode: the rows of a result set as one string inside the JSON text (src/db.c, RFC 4180). */
module Csv {
  import opened CStrings
  import opened JsonGrammar
  import opened JsonWriter
  import opened JsonRoundTrip
  import opened JsonDrive
  import opened CsvLiteral
  import opened ResultSets
  import opened Emission

  // ---- a CSV reader (RFC 4180 section 2, records end in a bare line feed) -----

  /** An unquoted field: everything up to a comma, a line feed or the end. */
  function BareField(s: string): (p: Parse<string>)
    ensures p.Ok? ==> |p.rest| <= |s|
  {
    if s == "" || s[0] == ',' || s[0] == '\n' then Ok("", s)
    else if s[0] == '"' then Fail
    else Cons(s[0], BareField(s[1..]))
  }

  /** The inside of a quoted field; two quotes stand for one. */
  function QuotedField(s: string): (p: Parse<string>)
    ensures p.Ok? ==> |p.rest| < |s|
  {
    if s == "" then Fail
    else if s[0] == '"' then
      if |s| > 1 && s[1] == '"' then Cons('"', QuotedField(s[2..])) else Ok("", s[1..])
    else Cons(s[0], QuotedField(s[1..]))
  }

  function Field(s: string): (p: Parse<string>)
    ensures p.Ok? ==> |p.rest| <= |s|
  {
    if s != "" && s[0] == '"' then QuotedField(s[1..]) else BareField(s)
  }

  /** A record with its line feed. */
  function Record(s: string): (p: Parse<seq<string>>)
    ensures p.Ok? ==> |p.rest| < |s|
    decreases |s|
  {
    var f := Field(s);
    if f.Fail? || f.rest == "" then Fail
    else if f.rest[0] == '\n' then Ok([f.value], f.rest[1..])
    else if f.rest[0] != ',' then Fail
    else
      var r := Record(f.rest[1..]);
      if r.Fail? then Fail else Ok([f.value] + r.value, r.rest)
  }

  function ReadCsv(s: string): Option<seq<seq<string>>>
    decreases |s|
  {
    if s == "" then Some([]) else
    var r := Record(s);
    if r.Fail? then None else
    var more := ReadCsv(r.rest);
    if more.None? then None else Some([r.value] + more.value)
  }

  // ---- the text the rows stand for ---------------------------------------------

  function PlainCell(cell: Option<string>): string {
    if cell.None? then "" else if ',' in cell.value then "\"" + cell.value + "\"" else cell.value
  }

  function PlainCells(row: seq<Option<string>>): string {
    if row == [] then "" else if |row| == 1 then PlainCell(row[0]) else PlainCell(row[0]) + "," + PlainCells(row[1..])
  }

  function PlainRows(rows: seq<seq<Option<string>>>): string {
    if rows == [] then "" else PlainCells(rows[0]) + "\n" + PlainRows(rows[1..])
  }

  function Value(cell: Option<string>): string {
    if cell.None? then "" else cell.value
  }

  function Values(row: seq<Option<string>>): seq<string> {
    if row == [] then [] else [Value(row[0])] + Values(row[1..])
  }

  function Decoded(rows: seq<seq<Option<string>>>): seq<seq<string>> {
    if rows == [] then [] else [Values(rows[0])] + Decoded(rows[1..])
  }

  /** A value without quotes that is quoted, for its commas, when it has line feeds. */
  predicate Readable(v: string) {
    '"' !in v && ('\n' in v ==> ',' in v)
  }

  predicate ReadableRow(row: seq<Option<string>>) {
    row != [] && forall k :: 0 <= k < |row| ==> Readable(Value(row[k]))
  }

  predicate ReadableRows(rows: seq<seq<Option<string>>>) {
    forall i :: 0 <= i < |rows| ==> ReadableRow(rows[i])
  }

  // ---- the CSV text decodes to the table -------------------------------------------

  predicate FieldEnd(t: string) {
    t != "" && (t[0] == ',' || t[0] == '\n')
  }

  lemma {:induction false} BareReads(v: string, t: string)
    requires '"' !in v && ',' !in v && '\n' !in v && FieldEnd(t)
    ensures BareField(v + t) == Ok(v, t)
  {
    if v == "" {
      assert v + t == t;
    } else {
      assert (v + t)[1..] == v[1..] + t;
      assert v[0] in v;
      BareReads(v[1..], t);
      assert [v[0]] + v[1..] == v;
    }
  }

  lemma {:induction false} QuotedReads(v: string, t: string)
    requires '"' !in v && FieldEnd(t)
    ensures QuotedField(v + ("\"" + t)) == Ok(v, t)
  {
    var s := v + ("\"" + t);
    if v == "" {
      assert s == "\"" + t;
      Front("\"", t);
      assert s[1] == t[0];
    } else {
      assert s[1..] == v[1..] + ("\"" + t);
      QuotedReads(v[1..], t);
      assert [v[0]] + v[1..] == v;
    }
  }

  lemma FieldReads(cell: Option<string>, t: string)
    requires Readable(Value(cell)) && FieldEnd(t)
    ensures Field(PlainCell(cell) + t) == Ok(Value(cell), t)
  {
    if cell.Some? && ',' in cell.value {
      QuotedReads(cell.value, t);
      Wrap("\"", cell.value, "\"", t);
      Front("\"", cell.value + ("\"" + t));
    } else {
      var v := Value(cell);
      BareReads(v, t);
      assert v != "" ==> (v + t)[0] == v[0];
      assert v == "" ==> v + t == t;
    }
  }

  lemma {:induction false} RecordReads(row: seq<Option<string>>, t: string)
    requires ReadableRow(row)
    ensures Record(PlainCells(row) + ("\n" + t)) == Ok(Values(row), t)
    decreases |row|
  {
    if |row| == 1 {
      FieldReads(row[0], "\n" + t);
      Front("\n", t);
      assert row[1..] == [] && Values(row) == [Value(row[0])];
    } else {
      var more := PlainCells(row[1..]) + ("\n" + t);
      RecordReads(row[1..], t);
      FieldReads(row[0], "," + more);
      Front(",", more);
      Wrap(PlainCell(row[0]), ",", PlainCells(row[1..]), "\n" + t);
    }
  }

  /** The CSV text of a table reads back as its rows, with nulls as empty fields. */
  lemma {:induction false} CsvRoundTrip(rows: seq<seq<Option<string>>>)
    requires ReadableRows(rows)
    ensures ReadCsv(PlainRows(rows)) == Some(Decoded(rows))
    decreases |rows|
  {
    if rows != [] {
      CsvRoundTrip(rows[1..]);
      RecordReads(rows[0], PlainRows(rows[1..]));
      Assoc(PlainCells(rows[0]), "\n", PlainRows(rows[1..]));
      assert PlainRows(rows) != "";
    }
  }

  // ---- the raw string literal denotes the CSV text -----------------------------------

  function Lits(v: string): seq<Tok> {
    if v == "" then [] else [Lit(v[0])] + Lits(v[1..])
  }

  function CellToks(cell: Option<string>): seq<Tok> {
    if cell.None? then [] else if ',' in cell.value then [EscQuote] + (Lits(cell.value) + [EscQuote]) else Lits(cell.value)
  }

  function CellsToks(row: seq<Option<string>>): seq<Tok> {
    if row == [] then [] else if |row| == 1 then CellToks(row[0]) else CellToks(row[0]) + ([Lit(',')] + CellsToks(row[1..]))
  }

  function RowsToks(rows: seq<seq<Option<string>>>): seq<Tok> {
    if rows == [] then [] else CellsToks(rows[0]) + ([EscNewline] + RowsToks(rows[1..]))
  }

  /** The literal with these tokens has this raw text and shows this one, and is clean exactly if `clean` holds. */
  predicate Writes(ts: seq<Tok>, raw: string, shown: string, clean: bool) {
    Raw(ts) == raw && Meaning(ts) == shown && (Clean(ts) <==> clean)
  }

  lemma WritesBoth(a: seq<Tok>, b: seq<Tok>, raw: string, shown: string, clean: bool, raw2: string, shown2: string, clean2: bool)
    requires Writes(a, raw, shown, clean) && Writes(b, raw2, shown2, clean2)
    ensures Writes(a + b, raw + raw2, shown + shown2, clean && clean2)
  {
    RawAppend(a, b);
    CleanAppend(a, b);
  }

  lemma CleanAppend(a: seq<Tok>, b: seq<Tok>)
    ensures Clean(a + b) <==> Clean(a) && Clean(b)
  {
    var c := a + b;
    assert forall i :: 0 <= i < |a| ==> c[i] == a[i];
    assert forall i :: 0 <= i < |b| ==> c[|a| + i] == b[i];
    assert forall i :: |a| <= i < |c| ==> c[i] == b[i - |a|];
  }

  lemma WritesOne(t: Tok)
    ensures Writes([t], RawOf(t), [ShownOf(t)], t.Lit? ==> PlainChar(t.c))
  {
    assert [t][1..] == [] && RawOf(t) + "" == RawOf(t) && [ShownOf(t)] + "" == [ShownOf(t)];
  }

  lemma {:induction false} LitsWrite(v: string)
    ensures Writes(Lits(v), v, v, PlainKey(v))
  {
    if v != "" {
      LitsWrite(v[1..]);
      WritesOne(Lit(v[0]));
      WritesBoth([Lit(v[0])], Lits(v[1..]), [v[0]], [v[0]], PlainChar(v[0]), v[1..], v[1..], PlainKey(v[1..]));
      assert [v[0]] + v[1..] == v;
      assert PlainKey(v) <==> PlainChar(v[0]) && PlainKey(v[1..]) by { assert v == [v[0]] + v[1..]; }
    }
  }

  predicate CleanCell(cell: Option<string>) {
    cell.Some? ==> PlainKey(cell.value)
  }

  /** Values free of quotes, backslashes and control bytes. */
  predicate CleanRow(row: seq<Option<string>>) {
    forall k :: 0 <= k < |row| ==> CleanCell(row[k])
  }

  lemma CellWrites(cell: Option<string>)
    ensures Writes(CellToks(cell), CsvCell(cell), PlainCell(cell), CleanCell(cell))
  {
    if cell.Some? {
      LitsWrite(cell.value);
      if ',' in cell.value {
        var v := cell.value;
        WritesOne(EscQuote);
        WritesBoth(Lits(v), [EscQuote], v, v, PlainKey(v), "\\\"", "\"", true);
        WritesBoth([EscQuote], Lits(v) + [EscQuote], "\\\"", "\"", true, v + "\\\"", v + "\"", PlainKey(v));
        Assoc("\\\"", v, "\\\"");
        Assoc("\"", v, "\"");
      }
    }
  }

  lemma {:induction false} CellsWrite(row: seq<Option<string>>)
    ensures Writes(CellsToks(row), CsvCells(row), PlainCells(row), CleanRow(row))
  {
    if row != [] {
      var more := row[1..];
      CellWrites(row[0]);
      assert CleanRow(row) <==> CleanCell(row[0]) && CleanRow(more) by { assert row == [row[0]] + more; }
      if |row| > 1 {
        CellsWrite(more);
        WritesOne(Lit(','));
        WritesBoth([Lit(',')], CellsToks(more), ",", ",", true, CsvCells(more), PlainCells(more), CleanRow(more));
        WritesBoth(CellToks(row[0]), [Lit(',')] + CellsToks(more), CsvCell(row[0]), PlainCell(row[0]), CleanCell(row[0]),
          "," + CsvCells(more), "," + PlainCells(more), CleanRow(more));
        Assoc(CsvCell(row[0]), ",", CsvCells(more));
        Assoc(PlainCell(row[0]), ",", PlainCells(more));
      }
    }
  }

  predicate CleanValues(rows: seq<seq<Option<string>>>) {
    forall i :: 0 <= i < |rows| ==> CleanRow(rows[i])
  }

  lemma {:induction false} RowsWrite(rows: seq<seq<Option<string>>>)
    ensures Writes(RowsToks(rows), CsvRows(rows), PlainRows(rows), CleanValues(rows))
  {
    if rows != [] {
      var row, more := rows[0], rows[1..];
      CellsWrite(row);
      RowsWrite(more);
      WritesOne(EscNewline);
      WritesBoth([EscNewline], RowsToks(more), "\\n", "\n", true, CsvRows(more), PlainRows(more), CleanValues(more));
      WritesBoth(CellsToks(row), [EscNewline] + RowsToks(more), CsvCells(row), PlainCells(row), CleanRow(row),
        "\\n" + CsvRows(more), "\n" + PlainRows(more), CleanValues(more));
      Assoc(CsvCells(row), "\\n", CsvRows(more));
      Assoc(PlainCells(row), "\n", PlainRows(more));
      assert CleanValues(rows) <==> CleanRow(row) && CleanValues(more) by { assert rows == [row] + more; }
    }
  }

  /**
   * The raw `rows` literal denotes the CSV text of the table if and only if no value holds a quote, a
   * backslash or a control byte.
   */
  lemma RowsLiteralIff(rows: seq<seq<Option<string>>>)
    ensures Denotes("\"" + CsvRows(rows) + "\"", Str(PlainRows(rows))) <==> CleanValues(rows)
  {
    var raw, text := CsvRows(rows), PlainRows(rows);
    RowsWrite(rows);
    forall rest ensures ParseString(raw + ("\"" + rest)) == Ok(text, rest) <==> CleanValues(rows) { LiteralIff(RowsToks(rows), rest); }
    if CleanValues(rows) {
      DenotesStr(raw, text);
    } else {
      LiteralOnly(raw, text);
    }
  }

  /** A single quote in a single value is enough. */
  lemma QuoteBreaksLiteral()
    ensures var rows := [[Some("\"")]];
            CsvRows(rows) == "\"\\n" && PlainRows(rows) == "\"\n" &&
            !Denotes("\"" + CsvRows(rows) + "\"", Str(PlainRows(rows)))
  {
    var rows := [[Some("\"")]];
    assert rows[1..] == [] && rows[0] == [Some("\"")];
    assert CsvRows(rows) == "\"" + "\\n" + "" && PlainRows(rows) == "\"" + "\n" + "";
    var v := "\"";
    assert v[0] == '"' && !PlainKey(v);
    assert rows[0][0] == Some(v);
    assert !CleanRow(rows[0]);
    RowsLiteralIff(rows);
  }

  /** A literal denotes only what its inside is read as. */
  lemma LiteralOnly(raw: string, text: string)
    requires ParseString(raw + ("\"" + "")) != Ok(text, "")
    ensures !Denotes("\"" + raw + "\"", Str(text))
  {
    Wrap("\"", raw, "\"", "");
    QuotedValue(raw + ("\"" + ""));
    assert Boundary("");
    assert ParseValue("\"" + raw + "\"" + "") != Ok(Str(text), "");
  }

  // ---- the writer in CSV mode leaves a well-formed text behind -------------------------

  /** The tree a result set stands for in CSV mode. */
  function CsvTableJson(t: Table): Json {
    Obj([Member("fields", Arr(ColumnsJson(t.cols, Names(t.cols, 0)))),
         Member("rows", Str(PlainRows(t.rows))),
         Member("count", CountJson(t.count))])
  }

  function CsvTablesJson(ts: seq<Table>): seq<Json> {
    if ts == [] then [] else [CsvTableJson(ts[0])] + CsvTablesJson(ts[1..])
  }

  /** The `rows` member with the comma behind it, then `count` without a separator of its own. */
  function CsvBody(st: Style, n: nat, t: Table): string {
    RenderMember(st, n, Member("fields", Arr(ColumnsJson(t.cols, Names(t.cols, 0)))), Indent(st, n)) +
    (MemberText(", ", "rows", st.sp, st.sp + ("\"" + CsvRows(t.rows) + "\"")) +
    ("," + RenderMember(st, n, Member("count", CountJson(t.count)), "")))
  }

  function CsvTableText(st: Style, n: nat, t: Table): string {
    ObjectText(st, n, CsvBody(st, n + 1, t))
  }

  function ObjectText(st: Style, n: nat, body: string): string {
    "{" + (st.nl + body + (st.nl + Indent(st, n))) + "}"
  }

  lemma KeyWhilePending(w: W, k: string)
    requires w.stack != [] && w.pending && HasItems(w) && 0 <= w.tab
    ensures var st := StyleOf(w);
            Key(w, k) == Emit(w, MemberText("", k, st.sp, st.sp)).(stack := Bump(w.stack), pending := true)
  {
    var st := StyleOf(w);
    EmitNothing(w);
    var w2 := Quote(w, k);
    Appends(w2);
    Appends(Emit(Emit(w2, st.sp), ":"));
    EmitFive(w, "", k, st.sp);
  }

  lemma RowsEmit(w: W, rows: seq<seq<Option<string>>>)
    requires w.stack != [] && !w.pending && HasItems(w) && 0 <= w.tab
    ensures var st := StyleOf(w);
            CsvRowsField(w, rows) ==
            Emit(w, MemberText(", ", "rows", st.sp, st.sp + ("\"" + CsvRows(rows) + "\"")) + ",").(stack := Bump(w.stack), pending := true)
  {
    var st := StyleOf(w);
    var b := CsvRows(rows);
    KeyEmits(w, "rows");
    var k := MemberText(", ", "rows", st.sp, st.sp);
    var w1 := Emit(w, k);
    EmitTwice(Emit(w1, "\""), b, "\",");
    EmitTwice(w1, "\"", b + "\",");
    assert "\"," == "\"" + ",";
    assert "\"" + (b + ("\"" + ",")) == ("\"" + b + "\"") + ",";
    EmitTwice(w, k, ("\"" + b + "\"") + ",");
    MemberTail(", ", "rows", st.sp, st.sp, "\"" + b + "\"");
    Assoc(k, "\"" + b + "\"", ",");
  }

  lemma CountEmits(w: W, count: int)
    requires w.stack != [] && w.pending && HasItems(w) && 0 <= w.tab
    ensures Run(w, FieldCalls("count", CountJson(count))) ==
            Emit(w, RenderMember(StyleOf(w), w.tab, Member("count", CountJson(count)), "")).(stack := Bump(w.stack), pending := false)
  {
    var st := StyleOf(w);
    var f := FieldCalls("count", CountJson(count));
    assert f == [f[0]] + [];
    RunOne(w, f[0], []);
    KeyWhilePending(w, "count");
    var val := Render(st, w.tab, CountJson(count));
    EmitTwice(w, MemberText("", "count", st.sp, st.sp), val);
    MemberTail("", "count", st.sp, st.sp, val);
  }

  /** The writer after the members of a result set. */
  function CsvInside(w1: W, t: Table): W {
    Run(CsvRowsField(Run(w1, FieldCalls("fields", Arr(ColumnsJson(t.cols, Names(t.cols, 0))))), t.rows),
        FieldCalls("count", CountJson(t.count)))
  }

  lemma CsvBodyRuns(w1: W, t: Table)
    requires w1.stack != [] && !w1.pending && !HasItems(w1) && 0 <= w1.tab && GoodTable(t)
    ensures var w4 := CsvInside(w1, t);
            w4 == Emit(w1, CsvBody(StyleOf(w1), w1.tab, t)).(stack := w4.stack) && w4.stack != [] && w4.stack[1..] == w1.stack[1..]
  {
    var st, n := StyleOf(w1), w1.tab;
    var fields := Arr(ColumnsJson(t.cols, Names(t.cols, 0)));
    NamesPlain(t.cols, 0);
    ColumnsWritable(t.cols, Names(t.cols, 0));
    RunField(w1, "fields", fields);
    var w2 := Run(w1, FieldCalls("fields", fields));
    RowsEmit(w2, t.rows);
    var w3 := CsvRowsField(w2, t.rows);
    CountEmits(w3, t.count);
    var a := RenderMember(st, n, Member("fields", fields), Indent(st, n));
    var b := MemberText(", ", "rows", st.sp, st.sp + ("\"" + CsvRows(t.rows) + "\""));
    var c := RenderMember(st, n, Member("count", CountJson(t.count)), "");
    EmitTwice(w2, b + ",", c);
    Assoc(b, ",", c);
    EmitTwice(w1, a, b + ("," + c));
  }

  lemma CsvTableEmits(w: W, t: Table)
    requires 0 <= w.tab && GoodTable(t)
    ensures TableEffect(true, w, t) ==
            Emit(Lead(w), CsvTableText(StyleOf(w), w.tab, t)).(stack := Bump(w.stack), pending := false)
  {
    var w4 := TableCloses(w, t);
    CsvClosed(w, w4, t);
  }

  /** The state in front of the closing brace. */
  lemma TableCloses(w: W, t: Table) returns (w4: W)
    requires 0 <= w.tab && GoodTable(t)
    ensures TableEffect(true, w, t) == Close(w4, ObjectNode) && IsBody(w, w4, CsvBody(StyleOf(w), w.tab + 1, t))
  {
    w4 := CsvInside(Open(w, ObjectNode), t);
    TableIsClosed(w, t);
    CsvInsideIs(w, t);
  }

  lemma CsvClosed(w: W, w4: W, t: Table)
    requires 0 <= w.tab
    ensures var st := StyleOf(w);
            IsBody(w, w4, CsvBody(st, w.tab + 1, t)) ==>
              Close(w4, ObjectNode) == Emit(Lead(w), CsvTableText(st, w.tab, t)).(stack := Bump(w.stack), pending := false)
  {
    var st, n := StyleOf(w), w.tab;
    if IsBody(w, w4, CsvBody(st, n + 1, t)) { ObjectEmits(w, CsvBody(st, n + 1, t), w4, CsvTableText(st, n, t)); }
  }

  predicate IsBody(w: W, w4: W, body: string) {
    w4 == Emit(Open(w, ObjectNode), body).(stack := w4.stack) && w4.stack != [] && w4.stack[1..] == Bump(w.stack)
  }

  lemma CsvInsideIs(w: W, t: Table)
    requires 0 <= w.tab && GoodTable(t)
    ensures IsBody(w, CsvInside(Open(w, ObjectNode), t), CsvBody(StyleOf(w), w.tab + 1, t))
  {
    OpenState(w, ObjectNode);
    CsvBodyRuns(Open(w, ObjectNode), t);
  }

  lemma ObjectEmits(w: W, body: string, w4: W, text: string)
    requires 0 <= w.tab && IsBody(w, w4, body) && text == ObjectText(StyleOf(w), w.tab, body)
    ensures Close(w4, ObjectNode) == Emit(Lead(w), text).(stack := Bump(w.stack), pending := false)
  {
    ContainerEmits(w, ObjectNode, body, w4);
  }

  lemma TableIsClosed(w: W, t: Table)
    requires Rectangular(t)
    ensures TableEffect(true, w, t) == Close(CsvInside(Open(w, ObjectNode), t), ObjectNode)
  {
  }

  lemma CsvBodyDenotes(st: Style, n: nat, t: Table, w: string, tail: string)
    requires BlankStyle(st) && GoodTable(t) && CleanValues(t.rows) && Blank(w) && Blank(tail)
    ensures DenotesMembers(w + CsvBody(st, n, t) + tail, CsvTableJson(t).members)
  {
    var fields := Arr(ColumnsJson(t.cols, Names(t.cols, 0)));
    var mf, mr, mc := Member("fields", fields), Member("rows", Str(PlainRows(t.rows))), Member("count", CountJson(t.count));
    var lit := "\"" + CsvRows(t.rows) + "\"";
    IndentBlank(st, n);
    NamesPlain(t.cols, 0);
    ColumnsWritable(t.cols, Names(t.cols, 0));
    CountLast(st, n, t.count, tail);
    var ct := RenderMember(st, n, mc, "") + tail;
    RowsLiteralIff(t.rows);
    DenotesBlank(st.sp, lit, mr.value);
    assert PlainKey("rows") && PlainKey("fields");
    PlainKeyDenotes("rows");
    MembersCons(" ", "rows", st.sp, st.sp + lit, mr.value, ct, [mc]);
    var rt := MemberText(" ", "rows", st.sp, st.sp + lit + ("," + ct));
    FieldCons(st, n, mf, w + Indent(st, n), rt, [mr] + [mc]);
    assert [mf] + ([mr] + [mc]) == [mf, mr, mc];
    CsvBodyText(st, n, t, w, tail);
  }

  lemma CountLast(st: Style, n: nat, count: int, tail: string)
    requires BlankStyle(st) && Blank(tail)
    ensures DenotesMembers(RenderMember(st, n, Member("count", CountJson(count)), "") + tail, [Member("count", CountJson(count))])
  {
    var v := CountJson(count);
    SignedDecimalNumeral(count);
    RenderDenotes(st, n, v);
    RenderStart(st, n, v);
    DenotesBlank(st.sp, Render(st, n, v), v);
    assert PlainKey("count");
    PlainKeyDenotes("count");
    MembersOne("", "count", st.sp, st.sp + Render(st, n, v), v, tail);
    MemberTail("", "count", st.sp, st.sp + Render(st, n, v), tail);
  }

  lemma CsvBodyText(st: Style, n: nat, t: Table, w: string, tail: string)
    ensures var lit := "\"" + CsvRows(t.rows) + "\"";
            w + CsvBody(st, n, t) + tail ==
            RenderMember(st, n, Member("fields", Arr(ColumnsJson(t.cols, Names(t.cols, 0)))), w + Indent(st, n)) +
            ("," + MemberText(" ", "rows", st.sp, st.sp + lit + ("," + (RenderMember(st, n, Member("count", CountJson(t.count)), "") + tail))))
  {
    var mf, mc := Member("fields", Arr(ColumnsJson(t.cols, Names(t.cols, 0)))), Member("count", CountJson(t.count));
    BodyText(st, n, mf, "\"" + CsvRows(t.rows) + "\"", mc, w, tail);
  }

  lemma BodyText(st: Style, n: nat, mf: Member, lit: string, mc: Member, w: string, tail: string)
    ensures w + (RenderMember(st, n, mf, Indent(st, n)) +
                 (MemberText(", ", "rows", st.sp, st.sp + lit) + ("," + RenderMember(st, n, mc, "")))) + tail ==
            RenderMember(st, n, mf, w + Indent(st, n)) +
            ("," + MemberText(" ", "rows", st.sp, st.sp + lit + ("," + (RenderMember(st, n, mc, "") + tail))))
  {
    var a, r, c := RenderMember(st, n, mf, Indent(st, n)), MemberText(" ", "rows", st.sp, st.sp + lit), RenderMember(st, n, mc, "");
    LeadMember(st, n, mf, w, Indent(st, n));
    assert MemberText(", ", "rows", st.sp, st.sp + lit) == "," + r;
    Spread(w, a, r, c, tail);
    MemberTail(" ", "rows", st.sp, st.sp + lit, "," + (c + tail));
  }

  lemma Spread(w: string, a: string, r: string, c: string, tail: string)
    ensures w + (a + (("," + r) + ("," + c))) + tail == (w + a) + ("," + (r + ("," + (c + tail))))
  {
    Assoc(w, a, "," + r + ("," + c));
    Assoc(w + a, "," + r + ("," + c), tail);
    Assoc("," + r, "," + c, tail);
    Assoc(",", c, tail);
    Assoc(",", r, "," + (c + tail));
  }

  lemma CsvTableDenotes(st: Style, n: nat, t: Table)
    requires BlankStyle(st) && GoodTable(t) && CleanValues(t.rows)
    ensures Denotes(CsvTableText(st, n, t), CsvTableJson(t))
  {
    IndentBlank(st, n);
    CsvBodyDenotes(st, n + 1, t, st.nl, st.nl + Indent(st, n));
    DenotesObject(st.nl + CsvBody(st, n + 1, t) + (st.nl + Indent(st, n)), CsvTableJson(t).members);
  }

  lemma CsvTableAlone(t: Table, w: W)
    requires GoodTable(t) && w == BLANK.(pretty := w.pretty, csv := true)
    ensures TableEffect(true, w, t).text == CsvTableText(StyleOf(w), 0, t)
  {
    var text := CsvTableText(StyleOf(w), 0, t);
    CsvTableEmits(w, t);
    EmitNothing(w);
    assert Lead(w) == w && "" + text == text;
  }

  predicate CleanTables(ts: seq<Table>) {
    forall i :: 0 <= i < |ts| ==> CleanValues(ts[i].rows)
  }

  lemma RestTables(ts: seq<Table>)
    requires ts != [] && GoodTables(ts)
    ensures GoodTables(ts[1..]) && (CleanTables(ts) <==> CleanValues(ts[0].rows) && CleanTables(ts[1..]))
  {
    assert ts == [ts[0]] + ts[1..];
  }

  // ---- all result sets --------------------------------------------------------------------

  function CsvItems(st: Style, n: nat, ts: seq<Table>, first: bool): string
    decreases |ts|
  {
    if ts == [] then "" else CsvItem(st, n, ts[0], first) + CsvItems(st, n, ts[1..], false)
  }

  function CsvItem(st: Style, n: nat, t: Table, first: bool): string {
    (if first then "" else "," + st.nl) + (Indent(st, n) + CsvTableText(st, n, t))
  }

  /** What the result sets append, one after the other. */
  function CsvOne(w: W, t: Table): W
    requires 0 <= w.tab
  {
    Emit(Lead(w), CsvTableText(StyleOf(w), w.tab, t)).(stack := Bump(w.stack), pending := false)
  }

  function CsvFold(w: W, ts: seq<Table>): W
    requires 0 <= w.tab
    decreases |ts|
  {
    if ts == [] then w else CsvFold(CsvOne(w, ts[0]), ts[1..])
  }

  lemma {:induction false} CsvTablesFold(w: W, ts: seq<Table>)
    requires 0 <= w.tab && GoodTables(ts)
    ensures TablesEffect(true, w, ts) == CsvFold(w, ts)
    decreases |ts|
  {
    if ts != [] {
      RestTables(ts);
      CsvTableEmits(w, ts[0]);
      CsvTablesFold(CsvOne(w, ts[0]), ts[1..]);
    }
  }

  /** w1 is w with a text and n more items. */
  predicate Emitted(w: W, w1: W, text: string, n: nat) {
    w1 == Emit(w, text).(stack := Grown(w.stack, n))
  }

  lemma {:induction false} CsvItemsEmit(w: W, ts: seq<Table>, st: Style, first: bool)
    requires w.stack != [] && !w.pending && 0 <= w.tab
    requires st == StyleOf(w) && first == !HasItems(w)
    ensures Emitted(w, CsvFold(w, ts), CsvItems(st, w.tab, ts, first), |ts|)
    decreases |ts|
  {
    if ts == [] {
      EmitNothing(w);
      GrownTwice(w.stack, 0, 0);
    } else {
      var w1 := CsvOne(w, ts[0]);
      CsvItemEmits(w, ts[0]);
      CsvOneState(w, ts[0]);
      CsvItemsEmit(w1, ts[1..], st, false);
      CsvItemsCons(w, w1, ts, CsvFold(w1, ts[1..]), st, first);
    }
  }

  lemma CsvOneState(w: W, t: Table)
    requires w.stack != [] && 0 <= w.tab
    ensures var w1 := CsvOne(w, t);
            w1.stack != [] && !w1.pending && w1.tab == w.tab && StyleOf(w1) == StyleOf(w) && HasItems(w1)
  {
  }

  lemma CsvItemsCons(w: W, w1: W, ts: seq<Table>, w2: W, st: Style, first: bool)
    requires 0 <= w.tab && ts != []
    requires Emitted(w, w1, CsvItem(st, w.tab, ts[0], first), 1)
    requires Emitted(w1, w2, CsvItems(st, w.tab, ts[1..], false), |ts| - 1)
    ensures Emitted(w, w2, CsvItems(st, w.tab, ts, first), |ts|)
  {
    EmitGrown(w, w1, w2, CsvItem(st, w.tab, ts[0], first), CsvItems(st, w.tab, ts[1..], false), |ts| - 1);
  }

  lemma EmitGrown(w: W, w1: W, w2: W, a: string, b: string, n: nat)
    requires Emitted(w, w1, a, 1) && Emitted(w1, w2, b, n)
    ensures Emitted(w, w2, a + b, n + 1)
  {
    GrownTwice(w.stack, 1, n);
    EmitTwice(w, a, b);
  }

  lemma CsvItemEmits(w: W, t: Table)
    requires w.stack != [] && !w.pending && 0 <= w.tab
    ensures var w1 := CsvOne(w, t);
            Emitted(w, w1, CsvItem(StyleOf(w), w.tab, t, !HasItems(w)), 1) && HasItems(w1)
  {
    ItemLead(w, CsvTableText(StyleOf(w), w.tab, t));
    GrownTwice(w.stack, 1, 0);
  }

  lemma {:induction false} CsvItemsDenote(st: Style, n: nat, ts: seq<Table>, w: string, tail: string)
    requires BlankStyle(st) && ts != [] && GoodTables(ts) && CleanTables(ts) && Blank(w) && Blank(tail)
    ensures DenotesItems(w + CsvItems(st, n, ts, true) + tail, CsvTablesJson(ts))
    decreases |ts|
  {
    RestTables(ts);
    IndentBlank(st, n);
    var i, v, j := Indent(st, n), CsvTableText(st, n, ts[0]), CsvTableJson(ts[0]);
    CsvTableDenotes(st, n, ts[0]);
    DenotesBlank(w + i, v, j);
    var t := w + i + v;
    if |ts| == 1 {
      ItemsOne(t, j, tail);
      FirstItem(w, i, v, "", tail);
      assert ts[1..] == [] && CsvTablesJson(ts) == [j] && "" + tail == tail;
    } else {
      CsvItemsDenote(st, n, ts[1..], st.nl, tail);
      var et := st.nl + CsvItems(st, n, ts[1..], true) + tail;
      ItemsCons(t, j, et, CsvTablesJson(ts[1..]));
      FirstItem(w, i, v, CsvItems(st, n, ts[1..], false), tail);
      NextCsvItems(st, n, ts[1..], tail);
    }
  }

  lemma NextCsvItems(st: Style, n: nat, ts: seq<Table>, tail: string)
    requires ts != []
    ensures CsvItems(st, n, ts, false) + tail == "," + (st.nl + CsvItems(st, n, ts, true) + tail)
  {
    var x, more := Indent(st, n) + CsvTableText(st, n, ts[0]), CsvItems(st, n, ts[1..], false);
    assert "" + x == x;
    Assoc(",", st.nl, x);
    Assoc("," + st.nl, x, more);
    Assoc(",", st.nl, x + more);
    Assoc(",", st.nl + (x + more), tail);
  }

  function CsvArray(st: Style, ts: seq<Table>): string {
    "[" + (st.nl + CsvItems(st, 1, ts, true) + (st.nl + "")) + "]"
  }

  lemma CsvArrayDenotes(st: Style, ts: seq<Table>)
    requires BlankStyle(st) && GoodTables(ts) && CleanTables(ts)
    ensures var text := CsvArray(st, ts);
            Denotes(text, Arr(CsvTablesJson(ts))) && text != "" && !IsWs(text[0])
  {
    if ts == [] {
      DenotesEmptyArray(st.nl + "" + (st.nl + ""));
    } else {
      CsvItemsDenote(st, 1, ts, st.nl, st.nl + "");
      DenotesArray(st.nl + CsvItems(st, 1, ts, true) + (st.nl + ""), CsvTablesJson(ts));
    }
  }

  lemma CsvDataText(ts: seq<Table>, w: W)
    requires GoodTables(ts) && w == BLANK.(pretty := w.pretty, csv := true)
    ensures var st := StyleOf(w);
            DataEffect(true, w, ts).text == MemberText("", "data", st.sp, st.sp + CsvArray(st, ts))
  {
    var st := StyleOf(w);
    KeyAtTop(w, "data");
    var w1 := Key(w, "data");
    var w2 := Open(w1, ArrayNode);
    OpenState(w1, ArrayNode);
    CsvTablesFold(w2, ts);
    CsvItemsEmit(w2, ts, st, true);
    ContainerEmits(w1, ArrayNode, CsvItems(st, 1, ts, true), CsvFold(w2, ts));
    MemberTail("", "data", st.sp, st.sp, CsvArray(st, ts));
  }

  lemma OneMemberReads(key: string, sp: string, vt: string, v: Json)
    requires PlainKey(key) && Blank(sp) && Denotes(vt, v) && vt != "" && !IsWs(vt[0])
    ensures ParseText("{" + MemberText("", key, sp, sp + vt) + "}") == Some(Obj([Member(key, v)]))
  {
    DenotesBlank(sp, vt, v);
    PlainKeyDenotes(key);
    MembersOne("", key, sp, sp + vt, v, "");
    assert sp + vt + "" == sp + vt;
    DenotesObject(MemberText("", key, sp, sp + vt), [Member(key, v)]);
    TextOf("{" + MemberText("", key, sp, sp + vt) + "}", Obj([Member(key, v)]));
  }

  lemma CsvObjectReads(st: Style, ts: seq<Table>)
    requires BlankStyle(st) && GoodTables(ts) && CleanTables(ts)
    ensures ParseText("{" + MemberText("", "data", st.sp, st.sp + CsvArray(st, ts)) + "}") ==
            Some(Obj([Member("data", Arr(CsvTablesJson(ts)))]))
  {
    CsvArrayDenotes(st, ts);
    assert PlainKey("data");
    OneMemberReads("data", st.sp, CsvArray(st, ts), Arr(CsvTablesJson(ts)));
  }
}
