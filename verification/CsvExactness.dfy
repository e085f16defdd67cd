/** When CSV mode, written raw into the JSON text, is read back as the table: both ways (src/db.c). */
module CsvExactness {
  import opened CStrings
  import opened JsonGrammar
  import opened JsonWriter
  import opened JsonRoundTrip
  import opened CsvLiteral
  import opened ResultSets
  import opened Emission
  import opened DataTree
  import opened Csv

  // ---- what a reader makes of the raw literal ------------------------------------

  /** A reader that stops at a quote inside a literal does not get its text either: only a clean literal gives it. */
  lemma {:induction false} ShownIsClean(ts: seq<Tok>, rest: string)
    requires var p := ParseString(Raw(ts) + ("\"" + rest)); Ends(p, rest) && p.value == Meaning(ts)
    ensures Clean(ts)
    decreases |ts|
  {
    var s := Raw(ts) + ("\"" + rest);
    if ts != [] {
      var more := Raw(ts[1..]) + ("\"" + rest);
      Assoc(RawOf(ts[0]), Raw(ts[1..]), "\"" + rest);
      CleanSplit(ts);
      if ts[0] == Lit('\\') {
        AfterBackslash(ts, rest);
      } else {
        FirstShown(ts, s, more);
        ReadsCons(ShownOf(ts[0]), ParseString(more), rest);
        SameTail(ShownOf(ts[0]), ParseString(more).value, Meaning(ts[1..]));
        ShownIsClean(ts[1..], rest);
      }
    }
  }

  lemma SameTail(c: char, a: string, b: string)
    requires [c] + a == [c] + b
    ensures a == b
  {
    assert ([c] + a)[1..] == a && ([c] + b)[1..] == b;
  }

  /** The first token, when it is neither a raw backslash nor one the reader stops at. */
  lemma FirstShown(ts: seq<Tok>, s: string, more: string)
    requires ts != [] && ts[0] != Lit('\\') && s == RawOf(ts[0]) + more
    requires ParseString(s).Ok? && ParseString(s).value != ""
    ensures ts[0].Lit? ==> PlainChar(ts[0].c)
    ensures ParseString(s) == Cons(ShownOf(ts[0]), ParseString(more))
  {
    if ts[0].Lit? {
      assert s[0] == ts[0].c && s[1..] == more;
    } else {
      assert s[0] == '\\' && s[1] == RawOf(ts[0])[1] && s[2..] == more;
    }
  }

  /** Behind characters that do not end in a backslash a reader cannot run past the closing quote. */
  lemma {:induction false} NeverPast(a: string, rest: string)
    requires a != "" ==> a[|a| - 1] != '\\'
    ensures var p := ParseString(a + ("\"" + rest)); p.Ok? ==> Ends(p, rest)
    decreases |a|
  {
    var s := a + ("\"" + rest);
    if ParseString(s).Ok? && a != "" && s[0] != '"' {
      var n := Step(s);
      StepInside(a, rest, s);
      NeverPast(a[n..], rest);
      OneStep(s);
    } else if a == "" {
      assert s[1..] == rest;
    }
  }

  /** How many characters the reader takes for its next one. */
  function Step(s: string): nat {
    if s == "" || s[0] != '\\' then 1
    else if |s| >= 2 && SimpleEscape(s[1]).Some? then 2
    else 6
  }

  lemma OneStep(s: string)
    requires ParseString(s).Ok? && s[0] != '"'
    ensures Step(s) <= |s|
    ensures ParseString(s[Step(s)..]).Ok? && ParseString(s).rest == ParseString(s[Step(s)..]).rest
  {
  }

  lemma StepInside(a: string, rest: string, s: string)
    requires a != "" && a[|a| - 1] != '\\' && s == a + ("\"" + rest) && ParseString(s).Ok? && s[0] != '"'
    ensures Step(s) <= |a| && s[Step(s)..] == a[Step(s)..] + ("\"" + rest)
  {
    if Step(s) == 6 { CodeInside(a, s); }
  }

  lemma CodeInside(a: string, s: string)
    requires 2 <= |a| < |s| && s[|a|] == '"' && 6 <= |s| && HexCode(s[2..6]).Some?
    ensures 6 <= |a|
  {
    assert forall i :: 2 <= i < 6 ==> s[i] == s[2..6][i - 2];
  }

  // ---- the CSV text: counting quotes ------------------------------------------------

  function Quotes(s: string): nat {
    if s == "" then 0 else (if s[0] == '"' then 1 else 0) + Quotes(s[1..])
  }

  /** The quotes a CSV text needs at least for a value: two for each quote, and two around special characters. */
  function Needed(v: string): nat {
    2 * Quotes(v) + if ',' in v || '\n' in v then 2 else 0
  }

  /** The quotes the code writes for it. */
  function Written(v: string): nat {
    Quotes(v) + if ',' in v then 2 else 0
  }

  function NeededRow(vs: seq<string>): nat {
    if vs == [] then 0 else Needed(vs[0]) + NeededRow(vs[1..])
  }

  function NeededRows(rows: seq<seq<string>>): nat {
    if rows == [] then 0 else NeededRow(rows[0]) + NeededRows(rows[1..])
  }

  lemma {:induction false} QuotesAppend(a: string, b: string)
    ensures Quotes(a + b) == Quotes(a) + Quotes(b)
  {
    if a == "" {
      assert a + b == b;
    } else {
      assert (a + b)[1..] == a[1..] + b;
      QuotesAppend(a[1..], b);
    }
  }

  lemma {:induction false} QuotesIn(v: string)
    ensures Quotes(v) == 0 <==> '"' !in v
  {
    if v != "" {
      QuotesIn(v[1..]);
      assert v == [v[0]] + v[1..];
    }
  }

  // What the reader needs.

  lemma {:induction false} BareNeeds(s: string)
    ensures var p := BareField(s); p.Ok? ==> Needed(p.value) + Quotes(p.rest) == Quotes(s) && '"' !in p.value && ',' !in p.value && '\n' !in p.value
  {
    if BareField(s).Ok? && s != "" && s[0] != ',' && s[0] != '\n' {
      BareNeeds(s[1..]);
      QuotesIn(BareField(s).value);
      QuotesIn(BareField(s[1..]).value);
    }
  }

  lemma {:induction false} QuotedNeeds(s: string)
    ensures var p := QuotedField(s); p.Ok? ==> 2 * Quotes(p.value) + 1 + Quotes(p.rest) == Quotes(s)
    decreases |s|
  {
    var p := QuotedField(s);
    if p.Ok? {
      if s[0] == '"' && |s| > 1 && s[1] == '"' {
        QuotedNeeds(s[2..]);
        assert s[1..][1..] == s[2..];
        assert p.value[1..] == QuotedField(s[2..]).value;
      } else if s[0] != '"' {
        QuotedNeeds(s[1..]);
        assert p.value[1..] == QuotedField(s[1..]).value;
      }
    }
  }

  lemma FieldNeeds(s: string)
    ensures var p := Field(s); p.Ok? ==> Needed(p.value) + Quotes(p.rest) <= Quotes(s)
  {
    if s != "" && s[0] == '"' { QuotedNeeds(s[1..]); } else { BareNeeds(s); }
  }

  lemma {:induction false} RecordNeeds(s: string)
    ensures var p := Record(s); p.Ok? ==> p.value != [] && NeededRow(p.value) + Quotes(p.rest) <= Quotes(s)
    decreases |s|
  {
    var p, f := Record(s), Field(s);
    if p.Ok? {
      FieldNeeds(s);
      if f.rest[0] == '\n' {
        assert p.value[1..] == [];
      } else {
        RecordNeeds(f.rest[1..]);
        assert p.value[1..] == Record(f.rest[1..]).value;
      }
    }
  }

  /** Every text a reader accepts has the quotes its values need, and every record has a field. */
  lemma {:induction false} CsvNeeds(s: string)
    ensures var o := ReadCsv(s);
            o.Some? ==> NeededRows(o.value) <= Quotes(s) && forall i :: 0 <= i < |o.value| ==> o.value[i] != []
    decreases |s|
  {
    if s != "" && ReadCsv(s).Some? {
      var r := Record(s);
      RecordNeeds(s);
      CsvNeeds(r.rest);
      assert ReadCsv(s).value[1..] == ReadCsv(r.rest).value;
    }
  }

  // What the code writes.

  lemma CellWritten(cell: Option<string>)
    ensures Quotes(PlainCell(cell)) == Written(Value(cell))
    ensures Written(Value(cell)) <= Needed(Value(cell))
    ensures Written(Value(cell)) == Needed(Value(cell)) <==> Readable(Value(cell))
  {
    var v := Value(cell);
    QuotesIn(v);
    if cell.Some? && ',' in v {
      QuotesAppend("\"" + v, "\"");
      QuotesAppend("\"", v);
      assert "\""[1..] == "";
    }
  }

  lemma CommaCounts(a: string, b: string)
    ensures Quotes(a + "," + b) == Quotes(a) + Quotes(b)
    ensures Quotes(a + "\n" + b) == Quotes(a) + Quotes(b)
  {
    QuotesAppend(a + ",", b);
    QuotesAppend(a, ",");
    QuotesAppend(a + "\n", b);
    QuotesAppend(a, "\n");
  }

  lemma RowStep(row: seq<Option<string>>)
    requires row != []
    ensures Quotes(PlainCells(row)) == Quotes(PlainCell(row[0])) + Quotes(PlainCells(row[1..]))
    ensures NeededRow(Values(row)) == Needed(Value(row[0])) + NeededRow(Values(row[1..]))
  {
    assert Values(row)[1..] == Values(row[1..]);
    if |row| > 1 { CommaCounts(PlainCell(row[0]), PlainCells(row[1..])); }
  }

  lemma {:induction false} RowWritten(row: seq<Option<string>>)
    ensures Quotes(PlainCells(row)) <= NeededRow(Values(row))
    ensures row != [] && Quotes(PlainCells(row)) == NeededRow(Values(row)) ==> ReadableRow(row)
  {
    if row != [] {
      RowStep(row);
      CellWritten(row[0]);
      RowWritten(row[1..]);
      if Readable(Value(row[0])) && (row[1..] == [] || ReadableRow(row[1..])) { assert row == [row[0]] + row[1..]; }
    }
  }

  lemma {:induction false} RowsWritten(rows: seq<seq<Option<string>>>)
    ensures Quotes(PlainRows(rows)) <= NeededRows(Decoded(rows))
    ensures Quotes(PlainRows(rows)) == NeededRows(Decoded(rows)) && (forall i :: 0 <= i < |rows| ==> rows[i] != []) ==> ReadableRows(rows)
  {
    if rows != [] {
      var more := rows[1..];
      RowWritten(rows[0]);
      RowsWritten(more);
      assert Decoded(rows)[1..] == Decoded(more);
      CommaCounts(PlainCells(rows[0]), PlainRows(more));
      assert rows == [rows[0]] + more;
    }
  }

  lemma {:induction false} DecodedRow(rows: seq<seq<Option<string>>>, i: nat)
    requires i < |rows|
    ensures |Decoded(rows)| == |rows| && (Decoded(rows)[i] != [] ==> rows[i] != [])
  {
    if i > 0 { DecodedRow(rows[1..], i - 1); } else if |rows| > 1 { DecodedRow(rows[1..], 0); }
  }

  /**
   * The CSV text of a table reads back as its rows, nulls as empty fields, if and only if every row has a
   * cell and no value holds a quote, or a line feed without a comma.
   */
  lemma CsvRoundTripIff(rows: seq<seq<Option<string>>>)
    ensures ReadCsv(PlainRows(rows)) == Some(Decoded(rows)) <==> ReadableRows(rows)
  {
    if ReadableRows(rows) {
      CsvRoundTrip(rows);
    } else if ReadCsv(PlainRows(rows)) == Some(Decoded(rows)) {
      CsvNeeds(PlainRows(rows));
      RowsWritten(rows);
      forall i | 0 <= i < |rows| ensures rows[i] != [] { DecodedRow(rows, i); }
    }
  }

  // ---- the JSON text: a table that is read back has clean values ---------------------

  lemma {:induction false} RowsEnd(rows: seq<seq<Option<string>>>)
    ensures var raw := CsvRows(rows); raw != "" ==> raw[|raw| - 1] == 'n'
  {
    if rows != [] {
      var more := CsvRows(rows[1..]);
      RowsEnd(rows[1..]);
      var raw := CsvCells(rows[0]) + "\\n" + more;
      assert more != "" ==> raw[|raw| - 1] == more[|more| - 1];
      assert more == "" ==> raw[|raw| - 1] == "\\n"[1];
    }
  }

  /** Wherever a reader stops, it has the CSV text only if the values are clean. */
  lemma RowsShown(rows: seq<seq<Option<string>>>, rest: string)
    requires var p := ParseString(CsvRows(rows) + ("\"" + rest)); p.Ok? && p.value == PlainRows(rows)
    ensures CleanValues(rows)
  {
    RowsWrite(rows);
    RowsEnd(rows);
    NeverPast(CsvRows(rows), rest);
    ShownIsClean(RowsToks(rows), rest);
  }

  lemma RowsValue(sp: string, rows: seq<seq<Option<string>>>, rest: string)
    requires Blank(sp)
    requires var p := ParseValue(sp + ("\"" + CsvRows(rows) + "\"") + rest); p.Ok? && p.value == Str(PlainRows(rows))
    ensures CleanValues(rows)
  {
    var raw := CsvRows(rows);
    Wrap("\"", raw, "\"", rest);
    Assoc(sp, "\"" + raw + "\"", rest);
    Front("\"", raw + ("\"" + rest));
    ParseBlank(sp, "\"" + (raw + ("\"" + rest)));
    QuotedValue(raw + ("\"" + rest));
    RowsShown(rows, rest);
  }

  predicate Leads(ms: seq<Member>, v: Json) {
    ms != [] && ms[0].value == v
  }

  lemma FirstMember(w: string, k: string, w1: string, t: string)
    requires Blank(w) && Blank(w1) && DenotesString(k, k)
    requires ParseMembers(MemberText(w, k, w1, t)).Ok?
    ensures ParseValue(t).Ok? && Leads(ParseMembers(MemberText(w, k, w1, t)).value, ParseValue(t).value)
  {
    ParseKey(w, k, w1, t);
  }

  lemma ObjectInside(t: string)
    requires ParseValue("{" + t).Ok? && ParseValue("{" + t).value.Obj? && ParseValue("{" + t).value.members != []
    ensures ParseMembers(t).Ok? && ParseMembers(t).value == ParseValue("{" + t).value.members
  {
    assert SkipWs("{" + t) == "{" + t;
    Front("{", t);
  }

  lemma RowsMember(sp: string, rows: seq<seq<Option<string>>>, ct: string)
    requires Blank(sp)
    requires var p := ParseMembers(MemberText(" ", "rows", sp, sp + ("\"" + CsvRows(rows) + "\"") + ct));
             p.Ok? && Leads(p.value, Str(PlainRows(rows)))
    ensures CleanValues(rows)
  {
    assert PlainKey("rows");
    PlainKeyDenotes("rows");
    var t := sp + ("\"" + CsvRows(rows) + "\"") + ct;
    FirstMember(" ", "rows", sp, t);
    RowsValue(sp, rows, ct);
  }

  /** The text of the `fields` member and what follows it. */
  lemma FieldsThenRows(st: Style, n: nat, fields: Json, l: string, mt: string)
    requires BlankStyle(st) && Blank(l) && Writable(fields)
    requires ParseMembers(RenderMember(st, n, Member("fields", fields), l) + ("," + mt)).Ok?
    ensures ParseMembers(mt).Ok?
    ensures var ms := ParseMembers(RenderMember(st, n, Member("fields", fields), l) + ("," + mt)).value;
            ms != [] && ms[1..] == ParseMembers(mt).value
  {
    assert PlainKey("fields");
    PlainKeyDenotes("fields");
    RenderedThenMore(st, n, Member("fields", fields), l, mt);
  }

  lemma RenderedThenMore(st: Style, n: nat, m: Member, l: string, mt: string)
    requires BlankStyle(st) && Blank(l) && Writable(m.value) && DenotesString(m.key, m.key)
    requires ParseMembers(RenderMember(st, n, m, l) + ("," + mt)).Ok?
    ensures ParseMembers(mt).Ok?
    ensures var ms := ParseMembers(RenderMember(st, n, m, l) + ("," + mt)).value; ms != [] && ms[1..] == ParseMembers(mt).value
  {
    RenderDenotes(st, n, m.value);
    RenderStart(st, n, m.value);
    DenotesBlank(st.sp, Render(st, n, m.value), m.value);
    FieldThenMore(l, m.key, st.sp, st.sp + Render(st, n, m.value), m.value, mt);
  }

  lemma FieldThenMore(l: string, k: string, sp: string, vt: string, v: Json, mt: string)
    requires Blank(l) && Blank(sp) && DenotesString(k, k) && Denotes(vt, v)
    requires ParseMembers(MemberText(l, k, sp, vt) + ("," + mt)).Ok?
    ensures ParseMembers(mt).Ok?
    ensures var ms := ParseMembers(MemberText(l, k, sp, vt) + ("," + mt)).value; ms != [] && ms[1..] == ParseMembers(mt).value
  {
    MemberTail(l, k, sp, vt, "," + mt);
    SecondMembers(l, k, sp, vt, v, mt);
    assert ([Member(k, v)] + ParseMembers(mt).value)[1..] == ParseMembers(mt).value;
  }

  function FieldsJson(t: Table): Json {
    Arr(ColumnsJson(t.cols, Names(t.cols, 0)))
  }

  lemma RowsAfter(st: Style, n: nat, fields: Json, l: string, rows: seq<seq<Option<string>>>, ct: string)
    requires BlankStyle(st) && Blank(l) && Writable(fields)
    requires var p := ParseMembers(RenderMember(st, n, Member("fields", fields), l) +
                                   ("," + MemberText(" ", "rows", st.sp, st.sp + ("\"" + CsvRows(rows) + "\"") + ct)));
             p.Ok? && p.value != [] && Leads(p.value[1..], Str(PlainRows(rows)))
    ensures CleanValues(rows)
  {
    FieldsThenRows(st, n, fields, l, MemberText(" ", "rows", st.sp, st.sp + ("\"" + CsvRows(rows) + "\"") + ct));
    RowsMember(st.sp, rows, ct);
  }

  lemma BodyWritable(st: Style, n: nat, t: Table, w: string)
    requires BlankStyle(st) && GoodTable(t) && Blank(w)
    ensures Blank(w + Indent(st, n)) && Writable(FieldsJson(t))
    ensures Leads(CsvTableJson(t).members[1..], Str(PlainRows(t.rows)))
  {
    IndentBlank(st, n);
    NamesPlain(t.cols, 0);
    ColumnsWritable(t.cols, Names(t.cols, 0));
  }

  lemma BodyClean(st: Style, n: nat, t: Table, w: string, tail: string)
    requires BlankStyle(st) && GoodTable(t) && Blank(w)
    requires var p := ParseMembers(w + CsvBody(st, n, t) + tail); p.Ok? && p.value == CsvTableJson(t).members
    ensures CleanValues(t.rows)
  {
    BodyWritable(st, n, t, w);
    CsvBodyText(st, n, t, w, tail);
    var ct := "," + (RenderMember(st, n, Member("count", CountJson(t.count)), "") + tail);
    Assoc(st.sp, "\"" + CsvRows(t.rows) + "\"", ct);
    RowsAfter(st, n, FieldsJson(t), w + Indent(st, n), t.rows, ct);
  }

  /** A table's text, whatever follows it, is read as the table only if the values are clean. */
  lemma TableClean(st: Style, n: nat, t: Table, rest: string)
    requires BlankStyle(st) && GoodTable(t)
    requires var p := ParseValue(CsvTableText(st, n, t) + rest); p.Ok? && p.value == CsvTableJson(t)
    ensures CleanValues(t.rows)
  {
    var body, tail := CsvBody(st, n + 1, t), st.nl + Indent(st, n);
    Wrap("{", st.nl + body + tail, "}", rest);
    ObjectInside(st.nl + body + tail + ("}" + rest));
    Assoc(st.nl + body, tail, "}" + rest);
    BodyClean(st, n + 1, t, st.nl, tail + ("}" + rest));
  }

  lemma TableTextIff(st: Style, t: Table)
    requires BlankStyle(st) && GoodTable(t)
    ensures ParseText(CsvTableText(st, 0, t)) == Some(CsvTableJson(t)) <==> CleanValues(t.rows)
  {
    var text := CsvTableText(st, 0, t);
    if CleanValues(t.rows) {
      CsvTableDenotes(st, 0, t);
      TextOf(text, CsvTableJson(t));
    } else if ParseText(text) == Some(CsvTableJson(t)) {
      assert text + "" == text;
      TableClean(st, 0, t, "");
    }
  }

  /**
   * One result set in CSV mode, although its rows are written raw behind a key whose flag stays set, is one
   * well-formed object that reads back as the fields, the CSV text and the count, if and only if no value
   * holds a quote, a backslash or a control byte.
   */
  lemma CsvTableReadsIff(t: Table, pretty: bool)
    requires GoodTable(t)
    ensures ParseText(TableEffect(true, BLANK.(pretty := pretty, csv := true), t).text) == Some(CsvTableJson(t)) <==> CleanValues(t.rows)
  {
    TableTextIff(if pretty then PRETTY else COMPACT, t);
    CsvTableAlone(t, BLANK.(pretty := pretty, csv := true));
  }

  // ---- all result sets -------------------------------------------------------------------

  lemma FirstOfItems(w: string, vt: string, rest: string)
    requires Blank(w) && vt != "" && !IsWs(vt[0]) && ParseItems(w + vt + rest).Ok?
    ensures ParseValue(vt + rest).Ok? && var vs := ParseItems(w + vt + rest).value; vs != [] && vs[0] == ParseValue(vt + rest).value
  {
    Assoc(w, vt, rest);
    ParseBlank(w, vt + rest);
  }

  lemma SecondItems(vt: string, v: Json, et: string)
    requires Denotes(vt, v) && ParseItems(vt + ("," + et)).Ok?
    ensures ParseItems(et).Ok? && ParseItems(vt + ("," + et)).value == [v] + ParseItems(et).value
  {
    var tail := "," + et;
    assert Boundary(tail);
    assert ParseValue(vt + tail) == Ok(v, tail);
    SkipBlank("", tail);
    assert "" + tail == tail;
    Front(",", et);
  }

  lemma {:induction false} ItemsClean(st: Style, n: nat, ts: seq<Table>, w: string, tail: string)
    requires BlankStyle(st) && ts != [] && GoodTables(ts) && Blank(w)
    requires Reads(ParseItems(w + CsvItems(st, n, ts, true) + tail), CsvTablesJson(ts))
    ensures CleanTables(ts)
    decreases |ts|
  {
    var i, v, j, more := Indent(st, n), CsvTableText(st, n, ts[0]), CsvTableJson(ts[0]), CsvItems(st, n, ts[1..], false);
    RestTables(ts);
    IndentBlank(st, n);
    FirstItem(w, i, v, more, tail);
    FirstTableClean(st, n, ts[0], w + i, more + tail, CsvTablesJson(ts[1..]));
    if |ts| > 1 {
      NextCsvItems(st, n, ts[1..], tail);
      OtherTables(st, n, ts[0], w + i, st.nl + CsvItems(st, n, ts[1..], true) + tail, CsvTablesJson(ts[1..]));
      ItemsClean(st, n, ts[1..], st.nl, tail);
    }
  }

  predicate Reads(p: Parse<seq<Json>>, vs: seq<Json>) {
    p.Ok? && p.value == vs
  }

  lemma FirstTableClean(st: Style, n: nat, t: Table, w: string, rest: string, vs: seq<Json>)
    requires BlankStyle(st) && GoodTable(t) && Blank(w)
    requires Reads(ParseItems(w + CsvTableText(st, n, t) + rest), [CsvTableJson(t)] + vs)
    ensures CleanValues(t.rows)
  {
    FirstOfItems(w, CsvTableText(st, n, t), rest);
    TableClean(st, n, t, rest);
  }

  lemma OtherTables(st: Style, n: nat, t: Table, w: string, more: string, vs: seq<Json>)
    requires BlankStyle(st) && GoodTable(t) && CleanValues(t.rows) && Blank(w)
    requires Reads(ParseItems(w + CsvTableText(st, n, t) + ("," + more)), [CsvTableJson(t)] + vs)
    ensures Reads(ParseItems(more), vs)
  {
    CsvTableDenotes(st, n, t);
    DenotesBlank(w, CsvTableText(st, n, t), CsvTableJson(t));
    SecondItems(w + CsvTableText(st, n, t), CsvTableJson(t), more);
    RestOf(CsvTableJson(t), vs, ParseItems(more).value);
  }

  lemma RestOf(j: Json, a: seq<Json>, b: seq<Json>)
    requires [j] + a == [j] + b
    ensures a == b
  {
    assert ([j] + a)[1..] == a && ([j] + b)[1..] == b;
  }

  lemma ArrayInside(t: string)
    requires ParseValue("[" + t).Ok? && ParseValue("[" + t).value.Arr? && ParseValue("[" + t).value.items != []
    ensures ParseItems(t).Ok? && ParseItems(t).value == ParseValue("[" + t).value.items
  {
    assert SkipWs("[" + t) == "[" + t;
    Front("[", t);
  }

  lemma ArrayClean(st: Style, ts: seq<Table>, rest: string)
    requires BlankStyle(st) && GoodTables(ts)
    requires var p := ParseValue(CsvArray(st, ts) + rest); p.Ok? && p.value == Arr(CsvTablesJson(ts))
    ensures CleanTables(ts)
  {
    if ts != [] {
      var items, tail := CsvItems(st, 1, ts, true), st.nl + "";
      Wrap("[", st.nl + items + tail, "]", rest);
      ArrayInside(st.nl + items + tail + ("]" + rest));
      Assoc(st.nl + items, tail, "]" + rest);
      ItemsClean(st, 1, ts, st.nl, tail + ("]" + rest));
    }
  }

  function CsvDataJson(ts: seq<Table>): Json {
    Obj([Member("data", Arr(CsvTablesJson(ts)))])
  }

  lemma OnlyMember(t: string, v: Json)
    requires ParseText("{" + t) == Some(Obj([Member("data", v)]))
    ensures ParseMembers(t).Ok? && Leads(ParseMembers(t).value, v)
  {
    ObjectInside(t);
  }

  lemma SpacedMember(w: string, k: string, sp: string, a: string)
    requires Blank(w) && Blank(sp) && DenotesString(k, k)
    requires a != "" && !IsWs(a[0]) && ParseMembers(MemberText(w, k, sp, sp + a)).Ok?
    ensures ParseValue(a).Ok? && Leads(ParseMembers(MemberText(w, k, sp, sp + a)).value, ParseValue(a).value)
  {
    FirstMember(w, k, sp, sp + a);
    ParseBlank(sp, a);
  }

  lemma DataKey()
    ensures DenotesString("data", "data")
  {
    assert PlainKey("data");
    PlainKeyDenotes("data");
  }

  lemma BracedMember(sp: string, a: string)
    ensures "{" + MemberText("", "data", sp, sp + a) + "}" == "{" + MemberText("", "data", sp, sp + (a + "}"))
  {
    Assoc("{", MemberText("", "data", sp, sp + a), "}");
    MemberTail("", "data", sp, sp + a, "}");
    Assoc(sp, a, "}");
  }

  lemma ValueInside(sp: string, a: string, v: Json)
    requires Blank(sp) && a != "" && !IsWs(a[0])
    requires ParseText("{" + MemberText("", "data", sp, sp + a) + "}") == Some(Obj([Member("data", v)]))
    ensures ParseValue(a + "}").Ok? && ParseValue(a + "}").value == v
  {
    BracedMember(sp, a);
    OnlyMember(MemberText("", "data", sp, sp + (a + "}")), v);
    DataKey();
    SpacedMember("", "data", sp, a + "}");
  }

  lemma DataTextIff(st: Style, ts: seq<Table>)
    requires BlankStyle(st) && GoodTables(ts)
    ensures ParseText("{" + MemberText("", "data", st.sp, st.sp + CsvArray(st, ts)) + "}") == Some(CsvDataJson(ts)) <==> CleanTables(ts)
  {
    var a := CsvArray(st, ts);
    if CleanTables(ts) {
      CsvObjectReads(st, ts);
    } else if ParseText("{" + MemberText("", "data", st.sp, st.sp + a) + "}") == Some(CsvDataJson(ts)) {
      assert a[0] == '[';
      ValueInside(st.sp, a, Arr(CsvTablesJson(ts)));
      ArrayClean(st, ts, "}");
    }
  }

  /**
   * The whole output of dbrelay_db_fill_data in CSV mode, put into an object of its own, reads back as the
   * result sets if and only if no value of any of them holds a quote, a backslash or a control byte.
   */
  lemma CsvDataReadsIff(ts: seq<Table>, pretty: bool)
    requires GoodTables(ts)
    ensures (ParseText("{" + DataEffect(true, BLANK.(pretty := pretty, csv := true), ts).text + "}") == Some(CsvDataJson(ts)))
            <==> CleanTables(ts)
  {
    DataTextIff(if pretty then PRETTY else COMPACT, ts);
    CsvDataText(ts, BLANK.(pretty := pretty, csv := true));
  }

  // ---- what is in it ---------------------------------------------------------------------

  /** The rows a reader gets are the rows of the table, cell by cell, an empty text for a null. */
  lemma {:induction false} DecodedIs(rows: seq<seq<Option<string>>>, i: nat, k: nat)
    requires i < |rows| && k < |rows[i]|
    ensures |Decoded(rows)| == |rows| && |Decoded(rows)[i]| == |rows[i]|
    ensures Decoded(rows)[i][k] == if rows[i][k].None? then "" else rows[i][k].value
    decreases i
  {
    DecodedRow(rows, i);
    if i > 0 { DecodedIs(rows[1..], i - 1, k); } else { ValuesIs(rows[0], k); }
  }

  lemma {:induction false} ValuesIs(row: seq<Option<string>>, k: nat)
    requires k < |row|
    ensures |Values(row)| == |row| && Values(row)[k] == if row[k].None? then "" else row[k].value
  {
    if k > 0 { ValuesIs(row[1..], k - 1); } else if |row| > 1 { ValuesIs(row[1..], 0); }
  }

  /** Around the rows a result set in CSV mode has the same fields and count as in standard mode. */
  lemma CsvTableHolds(t: Table)
    requires Rectangular(t)
    ensures var j := CsvTableJson(t);
            && |j.members| == 3
            && j.members[0].key == "fields" && HoldsFields(j.members[0].value, t.cols, Names(t.cols, 0))
            && j.members[1] == Member("rows", Str(PlainRows(t.rows)))
            && j.members[2].key == "count" && HoldsCount(j.members[2].value, t.count)
  {
    FieldsHold(t.cols);
    CountHolds(t.count);
  }
}
