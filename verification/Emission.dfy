/** dbrelay_db_fill_data and the column writers: driving the JSON writer from a database (src/db.c). */
module Emission {
  import opened CStrings
  import opened JsonGrammar
  import opened JsonWriter
  import opened JsonRoundTrip
  import opened ResultSets

  // ---- CSV text, in its JSON-escaped form -----------------------------------

  function CsvCell(cell: Option<string>): string {
    if cell.None? then "" else if ',' in cell.value then "\\\"" + cell.value + "\\\"" else cell.value
  }

  function CsvCells(row: seq<Option<string>>): string {
    if row == [] then "" else if |row| == 1 then CsvCell(row[0]) else CsvCell(row[0]) + "," + CsvCells(row[1..])
  }

  function CsvRows(rows: seq<seq<Option<string>>>): string {
    if rows == [] then "" else CsvCells(rows[0]) + "\\n" + CsvRows(rows[1..])
  }

  // ---- the column writers -------------------------------------------------------

  lemma RunOne(w: W, c: Call, rest: seq<Call>)
    ensures Run(w, [c] + rest) == Run(Do(w, c), rest)
  {
    assert ([c] + rest)[1..] == rest;
  }

  lemma MemberCallsSplit(a: Member, rest: seq<Member>)
    ensures MemberCalls([a] + rest) == FieldCalls(a.key, a.value) + MemberCalls(rest)
  {
    assert ([a] + rest)[1..] == rest;
  }

  lemma {:induction false} MemberCallsAppend(a: seq<Member>, b: seq<Member>)
    ensures MemberCalls(a + b) == MemberCalls(a) + MemberCalls(b)
    decreases |a|
  {
    if a == [] {
      assert a + b == b;
    } else {
      assert (a + b)[1..] == a[1..] + b;
      MemberCallsAppend(a[1..], b);
    }
  }

  /** `if (l != 0) json_add_number(...)`. */
  method WriteNonZero(json: Writer, key: string, n: int)
    requires json.Valid()
    modifies json.Repr
    ensures json.Valid() && fresh(json.Repr - old(json.Repr))
    ensures json.State() == Run(old(json.State()), MemberCalls(Number(key, n)))
  {
    if n != 0 {
      json.WriteNumber(key, SignedDecimal(n));
      assert MemberCalls(Number(key, n)) == [AddNumber(key, SignedDecimal(n))] + [];
      RunOne(old(json.State()), AddNumber(key, SignedDecimal(n)), []);
    }
  }

  /** dbrelay_write_json_colinfo: the name and the next counter value, then the object. */
  method WriteColumnInfo(json: Writer, c: Column, max: nat) returns (max': nat)
    requires json.Valid() && NulFree(c.name) && NulFree(c.sqlType)
    modifies json.Repr
    ensures json.Valid() && fresh(json.Repr - old(json.Repr))
    ensures max' == NextName(c.name, max).1
    ensures json.State() == Run(old(json.State()), Calls(ColumnJson(c, NextName(c.name, max).0)))
  {
    max' := max;
    if Unnamed(c.name) {
      max' := max + 1;
      DecimalIsPlain(max');
      WriteColumnObject(json, c, Decimal(max'));
    } else {
      var l := Atol(c.name);
      if l > 0 && l > max { max' := l; }
      WriteColumnObject(json, c, c.name);
    }
  }

  method WriteColumnObject(json: Writer, c: Column, name: string)
    requires json.Valid() && NulFree(name) && NulFree(c.sqlType)
    modifies json.Repr
    ensures json.Valid() && fresh(json.Repr - old(json.Repr))
    ensures json.State() == Run(old(json.State()), Calls(ColumnJson(c, name)))
  {
    ColumnCalls(json.State(), c, name);
    WriteColumnHead(json, c, name);
    WriteColumnSizes(json, c);
    json.CloseContainer(ObjectNode);
  }

  function ColumnHead(w: W, c: Column, name: string): W {
    Do(Do(Do(w, NewObject), AddString("name", name)), AddString("sql_type", c.sqlType))
  }

  function ColumnSizes(w: W, c: Column): W {
    Run(Run(Run(w, MemberCalls(Number("length", c.length))), MemberCalls(Number("precision", c.precision))),
        MemberCalls(Number("scale", c.scale)))
  }

  method WriteColumnHead(json: Writer, c: Column, name: string)
    requires json.Valid() && NulFree(name) && NulFree(c.sqlType)
    modifies json.Repr
    ensures json.Valid() && fresh(json.Repr - old(json.Repr))
    ensures json.State() == ColumnHead(old(json.State()), c, name)
  {
    json.OpenContainer(ObjectNode);
    json.WriteString("name", name);
    json.WriteString("sql_type", c.sqlType);
  }

  method WriteColumnSizes(json: Writer, c: Column)
    requires json.Valid()
    modifies json.Repr
    ensures json.Valid() && fresh(json.Repr - old(json.Repr))
    ensures json.State() == ColumnSizes(old(json.State()), c)
  {
    WriteNonZero(json, "length", c.length);
    WriteNonZero(json, "precision", c.precision);
    WriteNonZero(json, "scale", c.scale);
  }

  lemma AssocCalls(a: seq<Call>, b: seq<Call>, c: seq<Call>)
    ensures a + b + c == a + (b + c)
  {
  }

  /** The calls that write one column description. */
  lemma ColumnCallList(c: Column, name: string)
    ensures var L, P, S := MemberCalls(Number("length", c.length)), MemberCalls(Number("precision", c.precision)), MemberCalls(Number("scale", c.scale));
            Calls(ColumnJson(c, name)) ==
            [NewObject] + ([AddString("name", name)] + ([AddString("sql_type", c.sqlType)] + (L + (P + (S + [EndObject])))))
  {
    var L, P, S := Number("length", c.length), Number("precision", c.precision), Number("scale", c.scale);
    var a, b := Member("name", Str(name)), Member("sql_type", Str(c.sqlType));
    MemberCallsAppend(P, S);
    MemberCallsAppend(L, P + S);
    MemberCallsSplit(a, [b] + (L + (P + S)));
    MemberCallsSplit(b, L + (P + S));
    var l, p, x, tail := MemberCalls(L), MemberCalls(P), MemberCalls(S), [EndObject];
    AssocCalls(p, x, tail);
    AssocCalls(l, p + x, tail);
    var f, g := [AddString("name", name)], [AddString("sql_type", c.sqlType)];
    AssocCalls(g, l + (p + x), tail);
    AssocCalls(f, g + (l + (p + x)), tail);
  }

  lemma ColumnCalls(w: W, c: Column, name: string)
    ensures Run(w, Calls(ColumnJson(c, name))) == Do(ColumnSizes(ColumnHead(w, c, name), c), EndObject)
  {
    var L, P, S := MemberCalls(Number("length", c.length)), MemberCalls(Number("precision", c.precision)), MemberCalls(Number("scale", c.scale));
    var a, b, tail := AddString("name", name), AddString("sql_type", c.sqlType), [EndObject];
    ColumnCallList(c, name);
    var w1 := Do(w, NewObject);
    RunOne(w, NewObject, [a] + ([b] + (L + (P + (S + tail)))));
    RunOne(w1, a, [b] + (L + (P + (S + tail))));
    RunOne(Do(w1, a), b, L + (P + (S + tail)));
    RunSizes(ColumnHead(w, c, name), c, L, P, S);
  }

  lemma RunSizes(w: W, c: Column, L: seq<Call>, P: seq<Call>, S: seq<Call>)
    requires L == MemberCalls(Number("length", c.length)) && P == MemberCalls(Number("precision", c.precision))
    requires S == MemberCalls(Number("scale", c.scale))
    ensures Run(w, L + (P + (S + [EndObject]))) == Do(ColumnSizes(w, c), EndObject)
  {
    var tail := [EndObject];
    RunAppend(w, L, P + (S + tail));
    RunAppend(Run(w, L), P, S + tail);
    RunAppend(Run(Run(w, L), P), S, tail);
    assert tail == [EndObject] + [];
    RunOne(Run(Run(Run(w, L), P), S), EndObject, []);
  }

  // ---- loops over columns, rows and result sets --------------------------------

  /** All strings are C strings, and every row has a value for every column. */
  predicate CTable(t: Table) {
    && Rectangular(t)
    && (forall k :: 0 <= k < |t.cols| ==> NulFree(t.cols[k].name) && NulFree(t.cols[k].sqlType))
    && (forall i :: 0 <= i < |t.rows| ==> CRow(t.rows[i]))
  }

  predicate CRow(row: seq<Option<string>>) {
    forall k :: 0 <= k < |row| && row[k].Some? ==> NulFree(row[k].value)
  }

  lemma ColumnsStep(cols: seq<Column>, i: nat, max: nat)
    requires i < |cols|
    ensures var max' := NextName(cols[i].name, max).1;
            ItemCalls(ColumnsJson(cols[i..], Names(cols[i..], max))) ==
            Calls(ColumnJson(cols[i], NextName(cols[i].name, max).0)) +
            ItemCalls(ColumnsJson(cols[i + 1..], Names(cols[i + 1..], max')))
  {
    var c, rest := cols[i], cols[i + 1..];
    assert cols[i..][0] == c && cols[i..][1..] == rest;
    var names := Names(cols[i..], max);
    assert names[1..] == Names(rest, NextName(c.name, max).1);
    var es := ColumnsJson(cols[i..], names);
    assert es[1..] == ColumnsJson(rest, names[1..]);
  }

  /** The loop over the columns of the `fields` array. */
  method WriteColumns(json: Writer, cols: seq<Column>)
    requires json.Valid() && forall k :: 0 <= k < |cols| ==> NulFree(cols[k].name) && NulFree(cols[k].sqlType)
    modifies json.Repr
    ensures json.Valid() && fresh(json.Repr - old(json.Repr))
    ensures json.State() == Run(old(json.State()), ItemCalls(ColumnsJson(cols, Names(cols, 0))))
  {
    var i, max := 0, 0;
    ghost var goal := Run(json.State(), ItemCalls(ColumnsJson(cols, Names(cols, 0))));
    assert cols[0..] == cols;
    while i < |cols|
      invariant 0 <= i <= |cols| && 0 <= max && json.Valid() && fresh(json.Repr - old(json.Repr))
      invariant goal == Run(json.State(), ItemCalls(ColumnsJson(cols[i..], Names(cols[i..], max))))
    {
      ColumnsStep(cols, i, max);
      ghost var next := NextName(cols[i].name, max);
      RunAppend(json.State(), Calls(ColumnJson(cols[i], next.0)), ItemCalls(ColumnsJson(cols[i + 1..], Names(cols[i + 1..], next.1))));
      max := WriteColumnInfo(json, cols[i], max);
      i := i + 1;
    }
  }

  /** Either mode: the remaining calls in standard mode, the remaining raw text in CSV mode. */
  function Remaining(csv: bool, w: W, calls: seq<Call>, text: string): W {
    if csv then Emit(w, text) else Run(w, calls)
  }

  lemma RemainingStep(csv: bool, w: W, a: seq<Call>, b: seq<Call>, x: string, y: string)
    ensures Remaining(csv, w, a + b, x + y) == Remaining(csv, Remaining(csv, w, a, x), b, y)
  {
    RunAppend(w, a, b);
    EmitTwice(w, x, y);
  }

  /** dbrelay_write_json_column_csv and dbrelay_write_json_column_std. */
  method WriteValue(json: Writer, c: Column, name: string, cell: Option<string>)
    requires json.Valid() && (cell.Some? ==> NulFree(cell.value))
    modifies json.Repr
    ensures json.Valid() && fresh(json.Repr - old(json.Repr))
    ensures json.State() == Remaining(json.csv, old(json.State()), FieldCalls(name, CellJson(c, cell)), CsvCell(cell))
  {
    ghost var w := json.State();
    if json.csv {
      EmitNothing(w);
      if cell.Some? {
        if ',' in cell.value {
          json.Append("\\\"");
          json.Append(cell.value);
          json.Append("\\\"");
          EmitTwice(w, "\\\"", cell.value);
          EmitTwice(w, "\\\"" + cell.value, "\\\"");
        } else {
          json.Append(cell.value);
        }
      }
    } else {
      ghost var f := FieldCalls(name, CellJson(c, cell));
      assert f == [f[0]] + [];
      RunOne(w, f[0], []);
      if cell.None? {
        json.WriteNull(name);
      } else if c.quoted {
        json.WriteString(name, cell.value);
      } else {
        json.WriteNumber(name, cell.value);
      }
    }
  }

  /** dbrelay_write_json_column: the naming logic once more, then the value. */
  method WriteColumn(json: Writer, c: Column, cell: Option<string>, max: nat) returns (max': nat)
    requires json.Valid() && (cell.Some? ==> NulFree(cell.value))
    modifies json.Repr
    ensures json.Valid() && fresh(json.Repr - old(json.Repr))
    ensures max' == NextName(c.name, max).1
    ensures json.State() == Remaining(json.csv, old(json.State()), FieldCalls(NextName(c.name, max).0, CellJson(c, cell)), CsvCell(cell))
  {
    var name := c.name;
    max' := max;
    if Unnamed(c.name) {
      max' := max + 1;
      name := Decimal(max');
    } else {
      var l := Atol(c.name);
      if l > 0 && l > max { max' := l; }
    }
    WriteValue(json, c, name, cell);
  }

  /** The calls and the raw text for the columns from `i` on. */
  function RowCalls(cols: seq<Column>, row: seq<Option<string>>, i: nat, max: nat): seq<Call>
    requires |cols| == |row| && i <= |cols|
  {
    MemberCalls(RowJson(cols[i..], Names(cols[i..], max), row[i..]))
  }

  lemma RowStep(cols: seq<Column>, row: seq<Option<string>>, i: nat, max: nat)
    requires |cols| == |row| && i < |cols|
    ensures var next := NextName(cols[i].name, max);
            RowCalls(cols, row, i, max) == FieldCalls(next.0, CellJson(cols[i], row[i])) + RowCalls(cols, row, i + 1, next.1)
    ensures CsvCells(row[i..]) == CsvCell(row[i]) + ((if i + 1 != |row| then "," else "") + CsvCells(row[i + 1..]))
  {
    var c, rest := cols[i], cols[i + 1..];
    assert cols[i..][0] == c && cols[i..][1..] == rest && row[i..][0] == row[i] && row[i..][1..] == row[i + 1..];
    var names := Names(cols[i..], max);
    assert names[1..] == Names(rest, NextName(c.name, max).1);
    MemberCallsSplit(Member(names[0], CellJson(c, row[i])), RowJson(rest, names[1..], row[i + 1..]));
    Assoc(CsvCell(row[i]), ",", CsvCells(row[i + 1..]));
    assert i + 1 == |row| ==> CsvCell(row[i]) + ("" + "") == CsvCell(row[i]);
  }

  /** The loop over the columns of one row. */
  method WriteCells(json: Writer, cols: seq<Column>, row: seq<Option<string>>)
    requires json.Valid() && |cols| == |row| && CRow(row)
    modifies json.Repr
    ensures json.Valid() && fresh(json.Repr - old(json.Repr))
    ensures json.State() == Remaining(json.csv, old(json.State()), MemberCalls(RowJson(cols, Names(cols, 0), row)), CsvCells(row))
  {
    var i, max := 0, 0;
    ghost var goal := Remaining(json.csv, json.State(), RowCalls(cols, row, 0, 0), CsvCells(row));
    assert cols[0..] == cols && row[0..] == row;
    while i < |cols|
      invariant 0 <= i <= |cols| && 0 <= max && json.Valid() && fresh(json.Repr - old(json.Repr))
      invariant goal == Remaining(json.csv, json.State(), RowCalls(cols, row, i, max), CsvCells(row[i..]))
    {
      RowStep(cols, row, i, max);
      max := WriteCellAndComma(json, cols, row, i, max);
      i := i + 1;
    }
    EmitNothing(json.State());
  }

  /** One turn of the loop over the columns. */
  method WriteCellAndComma(json: Writer, cols: seq<Column>, row: seq<Option<string>>, i: nat, max: nat) returns (max': nat)
    requires json.Valid() && |cols| == |row| && i < |row| && CRow(row)
    modifies json.Repr
    ensures json.Valid() && fresh(json.Repr - old(json.Repr))
    ensures max' == NextName(cols[i].name, max).1
    ensures Remaining(json.csv, old(json.State()), RowCalls(cols, row, i, max), CsvCells(row[i..])) ==
            Remaining(json.csv, json.State(), RowCalls(cols, row, i + 1, max'), CsvCells(row[i + 1..]))
  {
    ghost var w, next := json.State(), NextName(cols[i].name, max);
    RowStep(cols, row, i, max);
    RemainingStep(json.csv, w, FieldCalls(next.0, CellJson(cols[i], row[i])), RowCalls(cols, row, i + 1, next.1),
      CsvCell(row[i]), (if i + 1 != |row| then "," else "") + CsvCells(row[i + 1..]));
    max' := WriteColumn(json, cols[i], row[i], max);
    if json.csv {
      ghost var v := json.State();
      EmitNothing(v);
      EmitTwice(v, if i + 1 != |row| then "," else "", CsvCells(row[i + 1..]));
      if i + 1 != |cols| { json.Append(","); }
    }
  }

  lemma RunObject(w: W, ms: seq<Member>)
    ensures Run(w, Calls(Obj(ms))) == Do(Run(Do(w, NewObject), MemberCalls(ms)), EndObject)
  {
    RunWrapped(w, NewObject, MemberCalls(ms), EndObject);
  }

  lemma RunWrapped(w: W, a: Call, body: seq<Call>, b: Call)
    ensures Run(w, [a] + (body + [b])) == Do(Run(Do(w, a), body), b)
  {
    RunOne(w, a, body + [b]);
    RunAppend(Do(w, a), body, [b]);
    assert [b] == [b] + [];
    RunOne(Run(Do(w, a), body), b, []);
  }

  /** One row. */
  method WriteRow(json: Writer, cols: seq<Column>, row: seq<Option<string>>)
    requires json.Valid() && |cols| == |row| && CRow(row)
    modifies json.Repr
    ensures json.Valid() && fresh(json.Repr - old(json.Repr))
    ensures json.State() == Remaining(json.csv, old(json.State()), Calls(Obj(RowJson(cols, Names(cols, 0), row))), CsvCells(row) + "\\n")
  {
    ghost var w := json.State();
    if json.csv {
      WriteCells(json, cols, row);
      json.Append("\\n");
      EmitTwice(w, CsvCells(row), "\\n");
    } else {
      RunObject(w, RowJson(cols, Names(cols, 0), row));
      json.OpenContainer(ObjectNode);
      WriteCells(json, cols, row);
      json.CloseContainer(ObjectNode);
    }
  }

  /** The fetch loop. */
  method WriteRows(json: Writer, cols: seq<Column>, rows: seq<seq<Option<string>>>)
    requires json.Valid() && SameWidth(cols, rows) && forall i :: 0 <= i < |rows| ==> CRow(rows[i])
    modifies json.Repr
    ensures json.Valid() && fresh(json.Repr - old(json.Repr))
    ensures json.State() == Remaining(json.csv, old(json.State()), ItemCalls(RowsJson(cols, rows)), CsvRows(rows))
  {
    var i := 0;
    ghost var goal := Remaining(json.csv, json.State(), ItemCalls(RowsJson(cols, rows)), CsvRows(rows));
    assert rows[0..] == rows;
    while i < |rows|
      invariant 0 <= i <= |rows| && json.Valid() && fresh(json.Repr - old(json.Repr))
      invariant goal == Remaining(json.csv, json.State(), ItemCalls(RowsJson(cols, rows[i..])), CsvRows(rows[i..]))
    {
      RowsStep(json.csv, json.State(), cols, rows, i);
      WriteRow(json, cols, rows[i]);
      i := i + 1;
    }
    EmitNothing(json.State());
  }

  lemma RowsStep(csv: bool, w: W, cols: seq<Column>, rows: seq<seq<Option<string>>>, i: nat)
    requires i < |rows| && SameWidth(cols, rows)
    ensures var w' := Remaining(csv, w, Calls(Obj(RowJson(cols, Names(cols, 0), rows[i]))), CsvCells(rows[i]) + "\\n");
            Remaining(csv, w, ItemCalls(RowsJson(cols, rows[i..])), CsvRows(rows[i..])) ==
            Remaining(csv, w', ItemCalls(RowsJson(cols, rows[i + 1..])), CsvRows(rows[i + 1..]))
  {
    assert rows[i..][0] == rows[i] && rows[i..][1..] == rows[i + 1..];
    var es := RowsJson(cols, rows[i..]);
    assert es[1..] == RowsJson(cols, rows[i + 1..]);
    RemainingStep(csv, w, Calls(es[0]), ItemCalls(es[1..]), CsvCells(rows[i]) + "\\n", CsvRows(rows[i + 1..]));
  }

  lemma RunArrayField(w: W, k: string, es: seq<Json>)
    ensures Run(w, FieldCalls(k, Arr(es))) == Do(Run(Do(Do(w, AddKey(k)), NewArray), ItemCalls(es)), EndArray)
  {
    RunOne(w, AddKey(k), Calls(Arr(es)));
    RunWrapped(Do(w, AddKey(k)), NewArray, ItemCalls(es), EndArray);
  }

  method OpenArrayField(json: Writer, key: string)
    requires json.Valid()
    modifies json.Repr
    ensures json.Valid() && fresh(json.Repr - old(json.Repr))
    ensures json.State() == Do(Do(old(json.State()), AddKey(key)), NewArray)
  {
    json.WriteKey(key);
    json.OpenContainer(ArrayNode);
  }

  /** The `fields` member. */
  method WriteFields(json: Writer, cols: seq<Column>)
    requires json.Valid() && forall k :: 0 <= k < |cols| ==> NulFree(cols[k].name) && NulFree(cols[k].sqlType)
    modifies json.Repr
    ensures json.Valid() && fresh(json.Repr - old(json.Repr))
    ensures json.State() == Run(old(json.State()), FieldCalls("fields", Arr(ColumnsJson(cols, Names(cols, 0)))))
  {
    RunArrayField(json.State(), "fields", ColumnsJson(cols, Names(cols, 0)));
    OpenArrayField(json, "fields");
    WriteColumns(json, cols);
    json.CloseContainer(ArrayNode);
  }

  /** The `rows` member in CSV mode: a string literal written raw, with its comma; `pending` stays set. */
  function CsvRowsField(w: W, rows: seq<seq<Option<string>>>): W {
    Emit(Emit(Emit(Key(w, "rows"), "\""), CsvRows(rows)), "\",")
  }

  function RowsOpened(csv: bool, w: W): W {
    if csv then Emit(Key(w, "rows"), "\"") else Do(Do(w, AddKey("rows")), NewArray)
  }

  function RowsClosed(csv: bool, w: W): W {
    if csv then Emit(w, "\",") else Do(w, EndArray)
  }

  method OpenRows(json: Writer)
    requires json.Valid()
    modifies json.Repr
    ensures json.Valid() && fresh(json.Repr - old(json.Repr))
    ensures json.State() == RowsOpened(json.csv, old(json.State()))
  {
    json.WriteKey("rows");
    if json.csv { json.Append("\""); } else { json.OpenContainer(ArrayNode); }
  }

  method CloseRows(json: Writer)
    requires json.Valid()
    modifies json.Repr
    ensures json.Valid() && fresh(json.Repr - old(json.Repr))
    ensures json.State() == RowsClosed(json.csv, old(json.State()))
  {
    if json.csv { json.Append("\","); } else { json.CloseContainer(ArrayNode); }
  }

  method WriteRowsField(json: Writer, t: Table)
    requires json.Valid() && CTable(t)
    modifies json.Repr
    ensures json.Valid() && fresh(json.Repr - old(json.Repr))
    ensures json.State() == RowsEffect(json.csv, old(json.State()), t)
  {
    RowsBetween(json.csv, json.State(), t);
    OpenRows(json);
    WriteRows(json, t.cols, t.rows);
    CloseRows(json);
  }

  lemma RowsBetween(csv: bool, w: W, t: Table)
    requires Rectangular(t)
    ensures RowsEffect(csv, w, t) ==
            RowsClosed(csv, Remaining(csv, RowsOpened(csv, w), ItemCalls(RowsJson(t.cols, t.rows)), CsvRows(t.rows)))
  {
    RunArrayField(w, "rows", RowsJson(t.cols, t.rows));
  }

  function RowsEffect(csv: bool, w: W, t: Table): W
    requires Rectangular(t)
  {
    if csv then CsvRowsField(w, t.rows) else Run(w, FieldCalls("rows", Arr(RowsJson(t.cols, t.rows))))
  }

  /** The `count` member. */
  method WriteCount(json: Writer, count: int)
    requires json.Valid()
    modifies json.Repr
    ensures json.Valid() && fresh(json.Repr - old(json.Repr))
    ensures json.State() == Run(old(json.State()), FieldCalls("count", CountJson(count)))
  {
    ghost var f := FieldCalls("count", CountJson(count));
    assert f == [f[0]] + [];
    RunOne(json.State(), f[0], []);
    if count == -1 { json.WriteNull("count"); } else { json.WriteNumber("count", SignedDecimal(count)); }
  }

  /** What one result set adds: the calls of its tree, or in CSV mode the same with raw rows. */
  function TableEffect(csv: bool, w: W, t: Table): W
    requires Rectangular(t)
  {
    var w1 := Run(Do(w, NewObject), FieldCalls("fields", Arr(ColumnsJson(t.cols, Names(t.cols, 0)))));
    var w2 := RowsEffect(csv, w1, t);
    Do(Run(w2, FieldCalls("count", CountJson(t.count))), EndObject)
  }

  method WriteTable(json: Writer, t: Table)
    requires json.Valid() && CTable(t)
    modifies json.Repr
    ensures json.Valid() && fresh(json.Repr - old(json.Repr))
    ensures json.State() == TableEffect(json.csv, old(json.State()), t)
  {
    WriteTableHead(json, t.cols);
    WriteRowsField(json, t);
    WriteTableTail(json, t.count);
  }

  method WriteTableHead(json: Writer, cols: seq<Column>)
    requires json.Valid() && forall k :: 0 <= k < |cols| ==> NulFree(cols[k].name) && NulFree(cols[k].sqlType)
    modifies json.Repr
    ensures json.Valid() && fresh(json.Repr - old(json.Repr))
    ensures json.State() == Run(Do(old(json.State()), NewObject), FieldCalls("fields", Arr(ColumnsJson(cols, Names(cols, 0)))))
  {
    json.OpenContainer(ObjectNode);
    WriteFields(json, cols);
  }

  method WriteTableTail(json: Writer, count: int)
    requires json.Valid()
    modifies json.Repr
    ensures json.Valid() && fresh(json.Repr - old(json.Repr))
    ensures json.State() == Do(Run(old(json.State()), FieldCalls("count", CountJson(count))), EndObject)
  {
    WriteCount(json, count);
    json.CloseContainer(ObjectNode);
  }

  function TablesEffect(csv: bool, w: W, ts: seq<Table>): W
    requires AllRectangular(ts)
    decreases |ts|
  {
    if ts == [] then w else TablesEffect(csv, TableEffect(csv, w, ts[0]), ts[1..])
  }

  /** dbrelay_db_fill_data. */
  method FillData(json: Writer, ts: seq<Table>)
    requires json.Valid() && AllRectangular(ts) && forall i :: 0 <= i < |ts| ==> CTable(ts[i])
    modifies json.Repr
    ensures json.Valid() && fresh(json.Repr - old(json.Repr))
    ensures json.State() == DataEffect(json.csv, old(json.State()), ts)
  {
    ghost var w := Do(Do(json.State(), AddKey("data")), NewArray);
    OpenArrayField(json, "data");
    assert json.State() == w;
    WriteTables(json, ts);
    assert json.State() == TablesEffect(json.csv, w, ts);
    json.CloseContainer(ArrayNode);
  }

  function DataEffect(csv: bool, w: W, ts: seq<Table>): W
    requires AllRectangular(ts)
  {
    Do(TablesEffect(csv, Do(Do(w, AddKey("data")), NewArray), ts), EndArray)
  }

  lemma TablesStep(csv: bool, w: W, ts: seq<Table>, i: nat)
    requires i < |ts| && AllRectangular(ts)
    ensures TablesEffect(csv, w, ts[i..]) == TablesEffect(csv, TableEffect(csv, w, ts[i]), ts[i + 1..])
  {
    assert ts[i..][0] == ts[i] && ts[i..][1..] == ts[i + 1..];
  }

  /** The loop over the result sets. */
  method WriteTables(json: Writer, ts: seq<Table>)
    requires json.Valid() && AllRectangular(ts) && forall i :: 0 <= i < |ts| ==> CTable(ts[i])
    modifies json.Repr
    ensures json.Valid() && fresh(json.Repr - old(json.Repr))
    ensures json.State() == TablesEffect(json.csv, old(json.State()), ts)
  {
    var i := 0;
    ghost var goal := TablesEffect(json.csv, json.State(), ts);
    assert ts[0..] == ts;
    while i < |ts|
      invariant 0 <= i <= |ts| && json.Valid() && fresh(json.Repr - old(json.Repr))
      invariant goal == TablesEffect(json.csv, json.State(), ts[i..])
    {
      TablesStep(json.csv, json.State(), ts, i);
      WriteTable(json, ts[i]);
      i := i + 1;
    }
  }

  // ---- standard mode follows the tree -----------------------------------------------

  lemma TableEffectStd(w: W, t: Table)
    requires Rectangular(t)
    ensures TableEffect(false, w, t) == Run(w, Calls(TableJson(t)))
  {
    var a, b, c := Member("fields", Arr(ColumnsJson(t.cols, Names(t.cols, 0)))), Member("rows", Arr(RowsJson(t.cols, t.rows))), Member("count", CountJson(t.count));
    RunObject(w, [a, b, c]);
    assert [a, b, c] == [a] + ([b] + ([c] + []));
    MemberCallsSplit(a, [b] + ([c] + []));
    MemberCallsSplit(b, [c] + []);
    MemberCallsSplit(c, []);
    var A, B, C := FieldCalls(a.key, a.value), FieldCalls(b.key, b.value), FieldCalls(c.key, c.value);
    var w1 := Do(w, NewObject);
    assert C + MemberCalls([]) == C;
    RunAppend(w1, A, B + C);
    RunAppend(Run(w1, A), B, C);
  }

  lemma {:induction false} TablesEffectStd(w: W, ts: seq<Table>)
    requires AllRectangular(ts)
    ensures TablesEffect(false, w, ts) == Run(w, ItemCalls(TablesJson(ts)))
    decreases |ts|
  {
    if ts != [] {
      var es := TablesJson(ts);
      assert es[1..] == TablesJson(ts[1..]);
      TableEffectStd(w, ts[0]);
      TablesEffectStd(TableEffect(false, w, ts[0]), ts[1..]);
      RunAppend(w, Calls(es[0]), ItemCalls(es[1..]));
    }
  }

  /** In standard mode dbrelay_db_fill_data makes exactly the calls of a `data` member holding the result sets. */
  lemma FillDataFollowsTree(w: W, ts: seq<Table>)
    requires AllRectangular(ts)
    ensures DataEffect(false, w, ts) == Run(w, FieldCalls("data", DataJson(ts)))
  {
    RunArrayField(w, "data", TablesJson(ts));
    TablesEffectStd(Do(Do(w, AddKey("data")), NewArray), ts);
  }
}
