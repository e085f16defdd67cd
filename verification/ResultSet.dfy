/** Result sets on their way from the database into the JSON writer (src/db.c). */
module ResultSets {
  import opened CStrings
  import opened JsonGrammar
  import opened JsonRoundTrip

  /** What the database interface reports about a column, and the values it returns. */
  datatype Column = Column(name: string, sqlType: string, length: int, precision: int, scale: int, quoted: bool)
  datatype Table = Table(cols: seq<Column>, rows: seq<seq<Option<string>>>, count: int)

  // ---- column names ---------------------------------------------------------

  /** dbrelay_is_unnamed_column. */
  predicate Unnamed(name: string) {
    name == "" || name == "?column?"
  }

  /** The name given to a column and the new value of the `maxcolname` counter. */
  function NextName(name: string, max: nat): (string, nat) {
    if Unnamed(name) then (Decimal(max + 1), max + 1)
    else (name, if Atol(name) > max then Atol(name) else max)
  }

  function Names(cols: seq<Column>, max: nat): (r: seq<string>)
    ensures |r| == |cols|
    decreases |cols|
  {
    if cols == [] then [] else
      [NextName(cols[0].name, max).0] + Names(cols[1..], NextName(cols[0].name, max).1)
  }

  /** The counter after the first `k` columns. */
  function Counter(cols: seq<Column>, max: nat, k: nat): nat
    requires k <= |cols|
    decreases k
  {
    if k == 0 then max else Counter(cols[1..], NextName(cols[0].name, max).1, k - 1)
  }

  lemma {:induction false} NamesAt(cols: seq<Column>, max: nat, k: nat)
    requires k < |cols|
    ensures Names(cols, max)[k] == NextName(cols[k].name, Counter(cols, max, k)).0
    ensures Counter(cols, max, k + 1) == NextName(cols[k].name, Counter(cols, max, k)).1
    decreases k
  {
    var m := NextName(cols[0].name, max).1;
    if k > 0 {
      NamesAt(cols[1..], m, k - 1);
      assert cols[1..][k - 1] == cols[k];
    } else {
      assert Counter(cols[1..], m, 0) == m;
    }
  }

  /** The counter dominates the number every earlier name starts with. */
  lemma {:induction false} CounterDominates(cols: seq<Column>, max: nat, i: nat, k: nat)
    requires i < k <= |cols|
    ensures Atol(Names(cols, max)[i]) <= Counter(cols, max, k)
    decreases k - i
  {
    NamesAt(cols, max, k - 1);
    if i == k - 1 {
      AtolSignedDecimal(Counter(cols, max, i) + 1);
    } else {
      CounterDominates(cols, max, i, k - 1);
    }
  }

  /** A generated column name differs from every name to its left. */
  lemma GeneratedNamesAreFresh(cols: seq<Column>, i: nat, k: nat)
    requires i < k < |cols| && Unnamed(cols[k].name)
    ensures Names(cols, 0)[i] != Names(cols, 0)[k]
  {
    NamesAt(cols, 0, k);
    CounterDominates(cols, 0, i, k);
    AtolSignedDecimal(Counter(cols, 0, k) + 1);
  }

  /** How many of the columns i, …, k - 1 have no name. */
  function UnnamedIn(cols: seq<Column>, i: nat, k: nat): nat
    requires i <= k <= |cols|
    decreases k - i
  {
    if i == k then 0 else UnnamedIn(cols, i, k - 1) + if Unnamed(cols[k - 1].name) then 1 else 0
  }

  /** What column j can make of the counter in front of column k: its number, one up for each unnamed column behind it. */
  function Reach(cols: seq<Column>, j: nat, k: nat): int
    requires j < k <= |cols|
  {
    Atol(cols[j].name) + UnnamedIn(cols, j + 1, k)
  }

  /**
   * The counter in closed form: the larger of the number of unnamed columns so far and, over the given
   * names so far, the number each starts with plus the unnamed columns behind it.
   */
  lemma {:induction false} CounterIsMax(cols: seq<Column>, k: nat)
    requires k <= |cols|
    ensures var n := Counter(cols, 0, k);
            && UnnamedIn(cols, 0, k) <= n
            && (forall j :: 0 <= j < k && !Unnamed(cols[j].name) ==> Reach(cols, j, k) <= n)
            && (n == UnnamedIn(cols, 0, k) || exists j :: 0 <= j < k && !Unnamed(cols[j].name) && n == Reach(cols, j, k))
    decreases k
  {
    if k > 0 {
      NamesAt(cols, 0, k - 1);
      CounterIsMax(cols, k - 1);
      var m, last := Counter(cols, 0, k - 1), Unnamed(cols[k - 1].name);
      assert forall j :: 0 <= j < k - 1 ==> Reach(cols, j, k) == Reach(cols, j, k - 1) + if last then 1 else 0;
      if !last { assert Reach(cols, k - 1, k) == Atol(cols[k - 1].name); }
      if m != UnnamedIn(cols, 0, k - 1) {
        var j :| 0 <= j < k - 1 && !Unnamed(cols[j].name) && m == Reach(cols, j, k - 1);
        assert Reach(cols, j, k) == m + if last then 1 else 0;
      }
    } else {
      assert Counter(cols, 0, 0) == 0;
    }
  }

  /** The name of column i: its own, or the number behind the counter. */
  function Shown(cols: seq<Column>, i: nat): string
    requires i < |cols|
  {
    if Unnamed(cols[i].name) then Decimal(Counter(cols, 0, i) + 1) else cols[i].name
  }

  predicate Distinct(names: seq<string>) {
    forall i, k :: 0 <= i < k < |names| ==> names[i] != names[k]
  }

  /**
   * Column k was given a name that column i to its left was given as well, or that is the decimal
   * number the counter leaves for the unnamed column i.
   */
  predicate Repeats(cols: seq<Column>, i: nat, k: nat) {
    i < k < |cols| && !Unnamed(cols[k].name) && cols[k].name == Shown(cols, i)
  }

  /** All names of a result set differ if and only if no given name repeats what a column to its left shows. */
  lemma NamesDistinctIff(cols: seq<Column>)
    ensures Distinct(Names(cols, 0)) <==> forall i: nat, k: nat :: !Repeats(cols, i, k)
  {
    var names := Names(cols, 0);
    if Distinct(names) {
      forall i: nat, k: nat ensures !Repeats(cols, i, k) {
        if i < k < |cols| { PairRepeats(cols, i, k); }
      }
    } else {
      var i, k :| 0 <= i < k < |names| && names[i] == names[k];
      PairRepeats(cols, i, k);
      assert Repeats(cols, i, k);
    }
  }

  lemma PairRepeats(cols: seq<Column>, i: nat, k: nat)
    requires i < k < |cols|
    ensures Names(cols, 0)[i] == Names(cols, 0)[k] <==> Repeats(cols, i, k)
  {
    NamesAt(cols, 0, i);
    NamesAt(cols, 0, k);
    if Unnamed(cols[k].name) { GeneratedNamesAreFresh(cols, i, k); }
  }

  /** ... but not from a given name to its right, which may repeat it. */
  lemma GeneratedNameRepeated()
    ensures var c := Column("", "int", 0, 0, 0, false);
            Names([c, c.(name := "1")], 0) == ["1", "1"]
  {
    var c := Column("", "int", 0, 0, 0, false);
    var cs := [c, c.(name := "1")];
    assert cs[1..] == [c.(name := "1")] && cs[1..][1..] == [];
    assert Names(cs[1..], 1) == [NextName("1", 1).0] + Names([], NextName("1", 1).1);
  }

  // ---- the tree a list of result sets stands for --------------------------------

  function Number(key: string, n: int): seq<Member> {
    if n != 0 then [Member(key, Num(SignedDecimal(n)))] else []
  }

  function ColumnJson(c: Column, name: string): Json {
    Obj([Member("name", Str(name))] + ([Member("sql_type", Str(c.sqlType))] +
        (Number("length", c.length) + (Number("precision", c.precision) + Number("scale", c.scale)))))
  }

  function ColumnsJson(cols: seq<Column>, names: seq<string>): seq<Json>
    requires |cols| == |names|
  {
    if cols == [] then [] else [ColumnJson(cols[0], names[0])] + ColumnsJson(cols[1..], names[1..])
  }

  function CellJson(c: Column, cell: Option<string>): Json {
    if cell.None? then Null else if c.quoted then Str(cell.value) else Num(cell.value)
  }

  function RowJson(cols: seq<Column>, names: seq<string>, row: seq<Option<string>>): seq<Member>
    requires |cols| == |names| == |row|
  {
    if cols == [] then [] else [Member(names[0], CellJson(cols[0], row[0]))] + RowJson(cols[1..], names[1..], row[1..])
  }

  predicate SameWidth(cols: seq<Column>, rows: seq<seq<Option<string>>>) {
    forall i :: 0 <= i < |rows| ==> |rows[i]| == |cols|
  }

  function RowsJson(cols: seq<Column>, rows: seq<seq<Option<string>>>): seq<Json>
    requires SameWidth(cols, rows)
  {
    if rows == [] then [] else [Obj(RowJson(cols, Names(cols, 0), rows[0]))] + RowsJson(cols, rows[1..])
  }

  function CountJson(n: int): Json {
    if n == -1 then Null else Num(SignedDecimal(n))
  }

  predicate Rectangular(t: Table) {
    SameWidth(t.cols, t.rows)
  }

  function TableJson(t: Table): Json
    requires Rectangular(t)
  {
    Obj([Member("fields", Arr(ColumnsJson(t.cols, Names(t.cols, 0)))),
         Member("rows", Arr(RowsJson(t.cols, t.rows))),
         Member("count", CountJson(t.count))])
  }

  predicate AllRectangular(ts: seq<Table>) {
    forall i :: 0 <= i < |ts| ==> Rectangular(ts[i])
  }

  function TablesJson(ts: seq<Table>): seq<Json>
    requires AllRectangular(ts)
  {
    if ts == [] then [] else [TableJson(ts[0])] + TablesJson(ts[1..])
  }

  function DataJson(ts: seq<Table>): Json
    requires AllRectangular(ts)
  {
    Arr(TablesJson(ts))
  }

  // ---- which result sets the writer can express -----------------------------------

  predicate GoodCell(c: Column, cell: Option<string>) {
    cell.Some? ==> if c.quoted then Bytes(cell.value) && NulFree(cell.value) else Numeral(cell.value)
  }

  predicate GoodColumn(c: Column) {
    PlainKey(c.name) && Bytes(c.name) && Bytes(c.sqlType) && NulFree(c.sqlType)
  }

  predicate GoodRow(cols: seq<Column>, row: seq<Option<string>>) {
    |row| == |cols| && forall k :: 0 <= k < |cols| ==> GoodCell(cols[k], row[k])
  }

  predicate GoodTable(t: Table) {
    && Rectangular(t)
    && (forall k :: 0 <= k < |t.cols| ==> GoodColumn(t.cols[k]))
    && (forall i :: 0 <= i < |t.rows| ==> GoodRow(t.cols, t.rows[i]))
  }

  predicate GoodTables(ts: seq<Table>) {
    AllRectangular(ts) && forall i :: 0 <= i < |ts| ==> GoodTable(ts[i])
  }

  lemma {:induction false} DecimalNumeral(n: nat)
    ensures DigitRun(Decimal(n)) == |Decimal(n)| && (n > 0 ==> Decimal(n)[0] != '0') && (n == 0 ==> Decimal(n) == "0")
  {
    if n >= 10 {
      DecimalNumeral(n / 10);
      DigitRunSnoc(Decimal(n / 10), Digit(n % 10));
    }
  }

  lemma {:induction false} DigitRunSnoc(s: string, d: char)
    requires DigitRun(s) == |s| && IsDigit(d)
    ensures DigitRun(s + [d]) == |s| + 1
  {
    if s == "" {
      assert (s + [d])[1..] == "";
    } else {
      assert (s + [d])[1..] == s[1..] + [d];
      DigitRunSnoc(s[1..], d);
    }
  }

  lemma SignedDecimalNumeral(n: int)
    ensures Numeral(SignedDecimal(n))
  {
    var a := if n < 0 then -n else n;
    DecimalNumeral(a);
    assert SignedDecimal(n) == (if n < 0 then "-" else "") + Decimal(a);
    assert n < 0 ==> SignedDecimal(n)[1..] == Decimal(a);
    assert IsDigit(Decimal(a)[0]);
    assert Decimal(a)[|Decimal(a)|..] == "";
  }

  lemma DecimalIsPlain(n: nat)
    ensures PlainKey(Decimal(n)) && Bytes(Decimal(n)) && NulFree(Decimal(n))
  {
    assert forall i :: 0 <= i < |Decimal(n)| ==> Decimal(n)[i] in Decimal(n);
  }

  lemma {:induction false} NamesPlain(cols: seq<Column>, max: nat)
    requires forall k :: 0 <= k < |cols| ==> GoodColumn(cols[k])
    ensures forall k :: 0 <= k < |cols| ==> PlainKey(Names(cols, max)[k]) && Bytes(Names(cols, max)[k])
    decreases |cols|
  {
    if cols != [] {
      DecimalIsPlain(max + 1);
      assert GoodColumn(cols[0]);
      NamesPlain(cols[1..], NextName(cols[0].name, max).1);
    }
  }

  lemma WritableCons(m: Member, ms: seq<Member>)
    requires PlainKey(m.key) && WritableField(m.value) && WritableMembers(ms)
    ensures WritableMembers([m] + ms)
  {
    assert ([m] + ms)[1..] == ms;
  }

  lemma NumberWritable(key: string, n: int)
    requires PlainKey(key)
    ensures WritableMembers(Number(key, n))
  {
    SignedDecimalNumeral(n);
    if n != 0 {
      WritableCons(Member(key, Num(SignedDecimal(n))), []);
    }
  }

  lemma {:induction false} MembersAppendWritable(a: seq<Member>, b: seq<Member>)
    requires WritableMembers(a) && WritableMembers(b)
    ensures WritableMembers(a + b)
    decreases |a|
  {
    if a == [] {
      assert a + b == b;
    } else {
      assert (a + b)[1..] == a[1..] + b;
      MembersAppendWritable(a[1..], b);
    }
  }

  lemma ColumnWritable(c: Column, name: string)
    requires GoodColumn(c) && Bytes(name)
    ensures Writable(ColumnJson(c, name))
  {
    NumberWritable("length", c.length);
    NumberWritable("precision", c.precision);
    NumberWritable("scale", c.scale);
    var p, s := Number("precision", c.precision), Number("scale", c.scale);
    MembersAppendWritable(p, s);
    MembersAppendWritable(Number("length", c.length), p + s);
    var a, b := Member("name", Str(name)), Member("sql_type", Str(c.sqlType));
    WritableCons(b, Number("length", c.length) + (p + s));
    WritableCons(a, [b] + (Number("length", c.length) + (p + s)));
  }

  lemma {:induction false} ColumnsWritable(cols: seq<Column>, names: seq<string>)
    requires |cols| == |names| && forall k :: 0 <= k < |cols| ==> GoodColumn(cols[k]) && Bytes(names[k])
    ensures WritableItems(ColumnsJson(cols, names))
    decreases |cols|
  {
    if cols != [] {
      assert GoodColumn(cols[0]);
      ColumnWritable(cols[0], names[0]);
      ColumnsWritable(cols[1..], names[1..]);
      assert ColumnsJson(cols, names)[1..] == ColumnsJson(cols[1..], names[1..]);
    }
  }

  lemma {:induction false} RowWritable(cols: seq<Column>, names: seq<string>, row: seq<Option<string>>)
    requires |cols| == |names| && GoodRow(cols, row) && forall k :: 0 <= k < |cols| ==> PlainKey(names[k])
    ensures WritableMembers(RowJson(cols, names, row))
    decreases |cols|
  {
    if cols != [] {
      assert GoodCell(cols[0], row[0]) && PlainKey(names[0]);
      assert forall k :: 0 <= k < |cols| - 1 ==> cols[1..][k] == cols[k + 1] && row[1..][k] == row[k + 1] && names[1..][k] == names[k + 1];
      RowWritable(cols[1..], names[1..], row[1..]);
      assert RowJson(cols, names, row)[1..] == RowJson(cols[1..], names[1..], row[1..]);
    }
  }

  lemma {:induction false} RowsWritable(cols: seq<Column>, rows: seq<seq<Option<string>>>)
    requires forall k :: 0 <= k < |cols| ==> GoodColumn(cols[k])
    requires SameWidth(cols, rows) && forall i :: 0 <= i < |rows| ==> GoodRow(cols, rows[i])
    ensures WritableItems(RowsJson(cols, rows))
    decreases |rows|
  {
    if rows != [] {
      NamesPlain(cols, 0);
      assert GoodRow(cols, rows[0]);
      RowWritable(cols, Names(cols, 0), rows[0]);
      RowsWritable(cols, rows[1..]);
      assert RowsJson(cols, rows)[1..] == RowsJson(cols, rows[1..]);
    }
  }

  lemma TableWritable(t: Table)
    requires GoodTable(t)
    ensures Writable(TableJson(t))
  {
    var f, r, c := Arr(ColumnsJson(t.cols, Names(t.cols, 0))), Arr(RowsJson(t.cols, t.rows)), CountJson(t.count);
    assert WritableField(f) by {
      NamesPlain(t.cols, 0);
      ColumnsWritable(t.cols, Names(t.cols, 0));
    }
    assert WritableField(r) by { RowsWritable(t.cols, t.rows); }
    assert WritableField(c) by { SignedDecimalNumeral(t.count); }
    TripleWritable(f, r, c);
  }

  lemma TripleWritable(f: Json, r: Json, c: Json)
    requires WritableField(f) && WritableField(r) && WritableField(c)
    ensures Writable(Obj([Member("fields", f), Member("rows", r), Member("count", c)]))
  {
    WritableTriple(Member("fields", f), Member("rows", r), Member("count", c));
  }

  lemma WritableTriple(a: Member, b: Member, c: Member)
    requires PlainKey(a.key) && WritableField(a.value) && PlainKey(b.key) && WritableField(b.value)
    requires PlainKey(c.key) && WritableField(c.value)
    ensures WritableMembers([a, b, c])
  {
    WritableCons(c, []);
    WritableCons(b, [c]);
    WritableCons(a, [b, c]);
    assert [c] + [] == [c] && [b] + [c] == [b, c] && [a] + [b, c] == [a, b, c];
  }

  /** Every list of good result sets is a tree the writer can express. */
  lemma {:induction false} DataWritable(ts: seq<Table>)
    requires GoodTables(ts)
    ensures Writable(DataJson(ts))
    decreases |ts|
  {
    if ts != [] {
      assert GoodTable(ts[0]);
      TableWritable(ts[0]);
      DataWritable(ts[1..]);
      assert TablesJson(ts)[1..] == TablesJson(ts[1..]);
    }
  }
}
