/** What the tree of some result sets holds, member by member (src/db.c). */
module DataTree {
  import opened CStrings
  import opened JsonGrammar
  import opened ResultSets

  /** The value of the first member with this key. */
  function ValueOf(ms: seq<Member>, key: string): Option<Json> {
    if ms == [] then None else if ms[0].key == key then Some(ms[0].value) else ValueOf(ms[1..], key)
  }

  /** The keys are some of these, each once and in this order. */
  predicate KeysAmong(ms: seq<Member>, keys: seq<string>)
    decreases |keys|
  {
    ms == [] || (keys != [] && KeysAmong(if ms[0].key == keys[0] then ms[1..] else ms, keys[1..]))
  }

  /** A number is there unless it is zero. */
  predicate HoldsSize(ms: seq<Member>, key: string, n: int) {
    ValueOf(ms, key) == if n == 0 then None else Some(Num(SignedDecimal(n)))
  }

  /** The description of a column under this name. */
  predicate HoldsColumn(j: Json, c: Column, name: string) {
    && j.Obj? && KeysAmong(j.members, ["name", "sql_type", "length", "precision", "scale"])
    && ValueOf(j.members, "name") == Some(Str(name)) && ValueOf(j.members, "sql_type") == Some(Str(c.sqlType))
    && HoldsSize(j.members, "length", c.length) && HoldsSize(j.members, "precision", c.precision)
    && HoldsSize(j.members, "scale", c.scale)
  }

  /** A cell: null if and only if the database has none, otherwise its text, quoted or not as its column is. */
  predicate HoldsCell(j: Json, c: Column, cell: Option<string>) {
    && (j == Null <==> cell.None?)
    && (cell.Some? && c.quoted ==> j == Str(cell.value))
    && (cell.Some? && !c.quoted ==> j == Num(cell.value))
  }

  /** A row: one member for each column, in order, under the column's name. */
  predicate HoldsRow(j: Json, cols: seq<Column>, names: seq<string>, row: seq<Option<string>>) {
    && j.Obj? && |j.members| == |cols| == |names| == |row|
    && forall k :: 0 <= k < |cols| ==> j.members[k].key == names[k] && HoldsCell(j.members[k].value, cols[k], row[k])
  }

  /** A column keeps its name, and gets a number if it has none. */
  predicate IsName(name: string, cols: seq<Column>, k: nat)
    requires k < |cols|
  {
    if cols[k].name == "" || cols[k].name == "?column?" then name == Decimal(Counter(cols, 0, k) + 1) else name == cols[k].name
  }

  predicate HoldsFields(j: Json, cols: seq<Column>, names: seq<string>) {
    && j.Arr? && |j.items| == |cols| == |names|
    && forall k :: 0 <= k < |cols| ==> HoldsColumn(j.items[k], cols[k], names[k]) && IsName(names[k], cols, k)
  }

  predicate HoldsRows(j: Json, t: Table, names: seq<string>) {
    j.Arr? && |j.items| == |t.rows| && forall i :: 0 <= i < |t.rows| ==> HoldsRow(j.items[i], t.cols, names, t.rows[i])
  }

  predicate HoldsCount(j: Json, n: int) {
    (j == Null <==> n == -1) && (n != -1 ==> j == Num(SignedDecimal(n)))
  }

  /** A result set: fields, rows under the names of the fields, and count. */
  predicate HoldsTable(j: Json, t: Table, names: seq<string>) {
    && j.Obj? && |j.members| == 3
    && j.members[0].key == "fields" && HoldsFields(j.members[0].value, t.cols, names)
    && j.members[1].key == "rows" && HoldsRows(j.members[1].value, t, names)
    && j.members[2].key == "count" && HoldsCount(j.members[2].value, t.count)
  }

  ghost predicate Holds(j: Json, t: Table) {
    exists names :: HoldsTable(j, t, names)
  }

  // ---- the tree the writer is driven through ------------------------------------------

  lemma {:induction false} ValueAppend(a: seq<Member>, b: seq<Member>, key: string)
    ensures ValueOf(a + b, key) == if ValueOf(a, key).Some? then ValueOf(a, key) else ValueOf(b, key)
  {
    if a == [] {
      assert a + b == b;
    } else {
      assert (a + b)[1..] == a[1..] + b;
      ValueAppend(a[1..], b, key);
    }
  }

  lemma ValueOne(m: Member, key: string)
    ensures ValueOf([m], key) == if m.key == key then Some(m.value) else None
  {
  }

  /** The optional sizes of a column. */
  function Sizes(c: Column): seq<Member> {
    Number("length", c.length) + (Number("precision", c.precision) + Number("scale", c.scale))
  }

  lemma SizeHolds(key: string, n: int, other: string)
    ensures ValueOf(Number(key, n), other) == if n != 0 && key == other then Some(Num(SignedDecimal(n))) else None
  {
  }

  lemma SizesHold(c: Column, key: string)
    ensures ValueOf(Sizes(c), key) ==
            if c.length != 0 && key == "length" then Some(Num(SignedDecimal(c.length)))
            else if c.precision != 0 && key == "precision" then Some(Num(SignedDecimal(c.precision)))
            else if c.scale != 0 && key == "scale" then Some(Num(SignedDecimal(c.scale)))
            else None
  {
    var l, p, s := Number("length", c.length), Number("precision", c.precision), Number("scale", c.scale);
    ValueAppend(l, p + s, key);
    ValueAppend(p, s, key);
    SizeHolds("length", c.length, key);
    SizeHolds("precision", c.precision, key);
    SizeHolds("scale", c.scale, key);
  }

  lemma ColumnValue(c: Column, name: string, key: string)
    ensures ValueOf(ColumnJson(c, name).members, key) ==
            if key == "name" then Some(Str(name)) else if key == "sql_type" then Some(Str(c.sqlType)) else ValueOf(Sizes(c), key)
  {
    var a, b := Member("name", Str(name)), Member("sql_type", Str(c.sqlType));
    ValueAppend([a], [b] + Sizes(c), key);
    ValueAppend([b], Sizes(c), key);
    ValueOne(a, key);
    ValueOne(b, key);
  }

  lemma KeyFirst(m: Member, ms: seq<Member>, keys: seq<string>)
    requires KeysAmong(ms, keys)
    ensures KeysAmong([m] + ms, [m.key] + keys)
  {
    assert ([m] + ms)[1..] == ms && ([m.key] + keys)[1..] == keys;
  }

  lemma SizeFirst(key: string, n: int, ms: seq<Member>, keys: seq<string>)
    requires KeysAmong(ms, keys) && forall m :: m in ms ==> m.key != key
    ensures KeysAmong(Number(key, n) + ms, [key] + keys)
  {
    if n != 0 {
      KeyFirst(Member(key, Num(SignedDecimal(n))), ms, keys);
    } else {
      assert [] + ms == ms && ([key] + keys)[1..] == keys;
      assert ms != [] ==> ms[0] in ms;
    }
  }

  lemma ColumnKeys(c: Column, name: string)
    ensures KeysAmong(ColumnJson(c, name).members, ["name", "sql_type", "length", "precision", "scale"])
  {
    var p, s := Number("precision", c.precision), Number("scale", c.scale);
    assert s + [] == s;
    SizeFirst("scale", c.scale, [], []);
    SizeFirst("precision", c.precision, s, ["scale"]);
    SizeFirst("length", c.length, p + s, ["precision", "scale"]);
    KeyFirst(Member("sql_type", Str(c.sqlType)), Sizes(c), ["length", "precision", "scale"]);
    KeyFirst(Member("name", Str(name)), [Member("sql_type", Str(c.sqlType))] + Sizes(c), ["sql_type", "length", "precision", "scale"]);
    KeyLists();
  }

  lemma KeyLists()
    ensures ["precision"] + ["scale"] == ["precision", "scale"]
    ensures ["length"] + ["precision", "scale"] == ["length", "precision", "scale"]
    ensures ["sql_type"] + ["length", "precision", "scale"] == ["sql_type", "length", "precision", "scale"]
    ensures ["name"] + ["sql_type", "length", "precision", "scale"] == ["name", "sql_type", "length", "precision", "scale"]
  {
  }

  lemma ColumnHolds(c: Column, name: string)
    ensures HoldsColumn(ColumnJson(c, name), c, name)
  {
    ColumnKeys(c, name);
    ColumnValue(c, name, "name");
    ColumnValue(c, name, "sql_type");
    ColumnValue(c, name, "length");
    ColumnValue(c, name, "precision");
    ColumnValue(c, name, "scale");
    SizesHold(c, "length");
    SizesHold(c, "precision");
    SizesHold(c, "scale");
  }

  lemma {:induction false} ColumnsAt(cols: seq<Column>, names: seq<string>, k: nat)
    requires k < |cols| == |names|
    ensures |ColumnsJson(cols, names)| == |cols| && ColumnsJson(cols, names)[k] == ColumnJson(cols[k], names[k])
    decreases |cols|
  {
    if |cols| > 1 { ColumnsAt(cols[1..], names[1..], if k > 0 then k - 1 else 0); }
  }

  lemma FieldsHold(cols: seq<Column>)
    ensures HoldsFields(Arr(ColumnsJson(cols, Names(cols, 0))), cols, Names(cols, 0))
  {
    var names := Names(cols, 0);
    if cols != [] { ColumnsAt(cols, names, 0); }
    forall k | 0 <= k < |cols|
      ensures HoldsColumn(ColumnsJson(cols, names)[k], cols[k], names[k]) && IsName(names[k], cols, k)
    {
      ColumnsAt(cols, names, k);
      ColumnHolds(cols[k], names[k]);
      NamesAt(cols, 0, k);
    }
  }

  lemma {:induction false} RowAt(cols: seq<Column>, names: seq<string>, row: seq<Option<string>>, k: nat)
    requires k < |cols| == |names| == |row|
    ensures var ms := RowJson(cols, names, row); |ms| == |cols| && ms[k] == Member(names[k], CellJson(cols[k], row[k]))
    decreases |cols|
  {
    if |cols| > 1 { RowAt(cols[1..], names[1..], row[1..], if k > 0 then k - 1 else 0); }
  }

  lemma RowHolds(cols: seq<Column>, names: seq<string>, row: seq<Option<string>>)
    requires |cols| == |names| == |row|
    ensures HoldsRow(Obj(RowJson(cols, names, row)), cols, names, row)
  {
    var ms := RowJson(cols, names, row);
    if cols != [] { RowAt(cols, names, row, 0); }
    forall k | 0 <= k < |cols| ensures ms[k].key == names[k] && HoldsCell(ms[k].value, cols[k], row[k]) { RowAt(cols, names, row, k); }
  }

  lemma {:induction false} RowsAt(cols: seq<Column>, rows: seq<seq<Option<string>>>, i: nat)
    requires SameWidth(cols, rows) && i < |rows|
    ensures |RowsJson(cols, rows)| == |rows| && RowsJson(cols, rows)[i] == Obj(RowJson(cols, Names(cols, 0), rows[i]))
    decreases |rows|
  {
    if |rows| > 1 { RowsAt(cols, rows[1..], if i > 0 then i - 1 else 0); }
  }

  lemma RowsHold(t: Table)
    requires Rectangular(t)
    ensures HoldsRows(Arr(RowsJson(t.cols, t.rows)), t, Names(t.cols, 0))
  {
    if t.rows != [] { RowsAt(t.cols, t.rows, 0); }
    forall i | 0 <= i < |t.rows| ensures HoldsRow(RowsJson(t.cols, t.rows)[i], t.cols, Names(t.cols, 0), t.rows[i]) {
      RowsAt(t.cols, t.rows, i);
      RowHolds(t.cols, Names(t.cols, 0), t.rows[i]);
    }
  }

  lemma CountHolds(n: int)
    ensures HoldsCount(CountJson(n), n)
  {
  }

  lemma TableHolds(t: Table)
    requires Rectangular(t)
    ensures HoldsTable(TableJson(t), t, Names(t.cols, 0))
  {
    FieldsHold(t.cols);
    RowsHold(t);
    CountHolds(t.count);
  }

  lemma {:induction false} TablesAt(ts: seq<Table>, i: nat)
    requires AllRectangular(ts) && i < |ts|
    ensures |TablesJson(ts)| == |ts| && TablesJson(ts)[i] == TableJson(ts[i])
    decreases |ts|
  {
    if |ts| > 1 { TablesAt(ts[1..], if i > 0 then i - 1 else 0); }
  }

  /**
   * The tree of some result sets has one object for each, with the fields, one row for each row of the
   * database under the names in the fields, every cell as the database has it, and the count.
   */
  lemma DataHolds(ts: seq<Table>)
    requires AllRectangular(ts)
    ensures DataJson(ts).Arr? && |DataJson(ts).items| == |ts|
    ensures forall i :: 0 <= i < |ts| ==> Holds(DataJson(ts).items[i], ts[i])
  {
    if ts != [] { TablesAt(ts, 0); }
    forall i | 0 <= i < |ts| ensures Holds(DataJson(ts).items[i], ts[i]) {
      TablesAt(ts, i);
      TableHolds(ts[i]);
      assert HoldsTable(DataJson(ts).items[i], ts[i], Names(ts[i].cols, 0));
    }
  }
}
