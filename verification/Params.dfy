/** SQL parameter substitution (src/db.c, lines 766-832). */
module Params {
  import opened CStrings
  import opened StringBufs

  // ---- the values ------------------------------------------------------------

  function Lower(c: char): char {
    if 'A' <= c <= 'Z' then (c as int + 32) as char else c
  }

  /** `strcasecmp(a, b) == 0`. */
  predicate SameIgnoringCase(a: string, b: string) {
    |a| == |b| && forall i :: 0 <= i < |a| ==> Lower(a[i]) == Lower(b[i])
  }

  /** `strstr(p, ":") - p`. */
  function Colon(p: string): (k: nat)
    requires ':' in p
    ensures k < |p| && p[k] == ':' && ':' !in p[..k]
  {
    if p[0] == ':' then 0 else
      assert ':' in p[1..];
      var k := Colon(p[1..]);
      assert p[..k + 1] == [p[0]] + p[1..][..k];
      k + 1
  }

  /** is_quoted_param: the type in front of the colon is one whose values are quoted. */
  predicate QuotedParam(p: string)
    requires ':' in p
  {
    var t := p[..Colon(p)];
    SameIgnoringCase(t, "char") || SameIgnoringCase(t, "varchar") ||
    SameIgnoringCase(t, "datetime") || SameIgnoringCase(t, "smalldatetime")
  }

  function Rendered(p: string): string
    requires ':' in p
  {
    var v := p[Colon(p) + 1..];
    if QuotedParam(p) then "'" + v + "'" else v
  }

  predicate WellTyped(params: seq<string>) {
    forall i :: 0 <= i < |params| ==> ':' in params[i]
  }

  function Values(params: seq<string>): (vs: seq<string>)
    requires WellTyped(params)
    ensures |vs| == |params|
  {
    if params == [] then [] else [Rendered(params[0])] + Values(params[1..])
  }

  // ---- one scan over the whole text ----------------------------------------------

  function Toggle(quoted: bool, c: char): bool {
    if c == '\'' then !quoted else quoted
  }

  /** Whether position n lies between single quotes for a scan that starts at i. */
  function QuotedAt(sql: string, i: nat, quoted: bool, n: nat): bool
    requires i <= n <= |sql|
    decreases n - i
  {
    if i == n then quoted else QuotedAt(sql, i + 1, Toggle(quoted, sql[i]), n)
  }

  /** Every unquoted `?` takes the next value as long as there is one; all other text is kept. */
  function Substitute(sql: string, i: nat, quoted: bool, values: seq<string>): string
    requires i <= |sql|
    decreases |sql| - i
  {
    if i == |sql| then ""
    else if sql[i] == '?' && !quoted && values != [] then values[0] + Substitute(sql, i + 1, quoted, values[1..])
    else [sql[i]] + Substitute(sql, i + 1, Toggle(quoted, sql[i]), values)
  }

  /** The text cut at its unquoted marks. */
  function Chunks(sql: string, i: nat, quoted: bool): (r: seq<string>)
    requires i <= |sql|
    ensures r != []
    decreases |sql| - i
  {
    if i == |sql| then [""] else
    var more := Chunks(sql, i + 1, Toggle(quoted, sql[i]));
    if sql[i] == '?' && !quoted then [""] + more else [[sql[i]] + more[0]] + more[1..]
  }

  function Marks(sql: string): nat {
    |Chunks(sql, 0, false)| - 1
  }

  /** Chunk, value, chunk, value, …; a mark without a value stays. */
  function Weave(chunks: seq<string>, values: seq<string>): string
    requires chunks != []
  {
    if |chunks| == 1 then chunks[0]
    else if values == [] then chunks[0] + ("?" + Weave(chunks[1..], []))
    else chunks[0] + (values[0] + Weave(chunks[1..], values[1..]))
  }

  /** Nothing but the marks is cut away. */
  lemma {:induction false} ChunksJoin(sql: string, i: nat, quoted: bool)
    requires i <= |sql|
    ensures Weave(Chunks(sql, i, quoted), []) == sql[i..]
    decreases |sql| - i
  {
    if i < |sql| {
      var q := Toggle(quoted, sql[i]);
      ChunksJoin(sql, i + 1, q);
      assert sql[i..] == [sql[i]] + sql[i + 1..];
      if !(sql[i] == '?' && !quoted) { LongerFirst([sql[i]], Chunks(sql, i + 1, q), []); }
    }
  }

  lemma LongerFirst(c: string, chunks: seq<string>, values: seq<string>)
    requires chunks != []
    ensures Weave([c + chunks[0]] + chunks[1..], values) == c + Weave(chunks, values)
  {
    var longer := [c + chunks[0]] + chunks[1..];
    assert longer[1..] == chunks[1..];
    if |chunks| > 1 {
      var rest := if values == [] then "?" + Weave(chunks[1..], []) else values[0] + Weave(chunks[1..], values[1..]);
      Assoc(c, chunks[0], rest);
    }
  }

  /** The k-th unquoted mark is replaced by the k-th value, and all other text stays verbatim. */
  lemma {:induction false} SubstituteWeaves(sql: string, i: nat, quoted: bool, values: seq<string>)
    requires i <= |sql|
    ensures Substitute(sql, i, quoted, values) == Weave(Chunks(sql, i, quoted), values)
    decreases |sql| - i
  {
    if i < |sql| {
      var q := Toggle(quoted, sql[i]);
      if sql[i] == '?' && !quoted {
        SubstituteWeaves(sql, i + 1, q, if values == [] then [] else values[1..]);
      } else {
        SubstituteWeaves(sql, i + 1, q, values);
        LongerFirst([sql[i]], Chunks(sql, i + 1, q), values);
      }
    }
  }

  // ---- the restarted scanner ------------------------------------------------------------

  /** The first unquoted mark for a scan that starts at i. */
  function FindFrom(sql: string, i: nat, quoted: bool): (r: Option<nat>)
    requires i <= |sql|
    ensures r.Some? ==> i <= r.value < |sql| && sql[r.value] == '?'
    decreases |sql| - i
  {
    if i == |sql| then None
    else if sql[i] == '?' && !quoted then Some(i)
    else FindFrom(sql, i + 1, Toggle(quoted, sql[i]))
  }

  /** Independent meaning: the found position is the first mark outside quotes. */
  lemma {:induction false} FindFromIsFirst(sql: string, i: nat, quoted: bool, k: nat)
    requires i <= |sql|
    ensures FindFrom(sql, i, quoted) == Some(k) <==>
            i <= k < |sql| && sql[k] == '?' && !QuotedAt(sql, i, quoted, k) &&
            forall j :: i <= j < k && sql[j] == '?' ==> QuotedAt(sql, i, quoted, j)
    decreases |sql| - i
  {
    if i < |sql| {
      var q := Toggle(quoted, sql[i]);
      FindFromIsFirst(sql, i + 1, q, k);
      assert QuotedAt(sql, i, quoted, i) == quoted;
      assert forall j :: i < j <= |sql| ==> QuotedAt(sql, i, quoted, j) == QuotedAt(sql, i + 1, q, j);
    }
  }

  /** Restarting unquoted right behind an unquoted mark keeps the quote state of the single scan. */
  lemma {:induction false} RestartKeepsQuotes(sql: string, i: nat, quoted: bool, n: nat)
    requires i <= |sql| && FindFrom(sql, i, quoted).Some?
    requires FindFrom(sql, i, quoted).value < n <= |sql|
    ensures QuotedAt(sql, i, quoted, n) == QuotedAt(sql, FindFrom(sql, i, quoted).value + 1, false, n)
    decreases |sql| - i
  {
    if !(sql[i] == '?' && !quoted) { RestartKeepsQuotes(sql, i + 1, Toggle(quoted, sql[i]), n); }
  }

  lemma {:induction false} CutAtMark(sql: string, i: nat, quoted: bool, values: seq<string>)
    requires i <= |sql| && FindFrom(sql, i, quoted).Some?
    ensures var k := FindFrom(sql, i, quoted).value;
            && Chunks(sql, i, quoted) == [sql[i..k]] + Chunks(sql, k + 1, false)
            && (values != [] ==> Substitute(sql, i, quoted, values) ==
                                 sql[i..k] + (values[0] + Substitute(sql, k + 1, false, values[1..])))
    decreases |sql| - i
  {
    var k := FindFrom(sql, i, quoted).value;
    if sql[i] == '?' && !quoted {
      assert sql[i..k] == "";
    } else {
      CutAtMark(sql, i + 1, Toggle(quoted, sql[i]), values);
      assert sql[i..k] == [sql[i]] + sql[i + 1..k];
      if values != [] { Assoc([sql[i]], sql[i + 1..k], values[0] + Substitute(sql, k + 1, false, values[1..])); }
    }
  }

  lemma {:induction false} NoMark(sql: string, i: nat, quoted: bool, values: seq<string>)
    requires i <= |sql| && (values == [] || FindFrom(sql, i, quoted).None?)
    ensures Substitute(sql, i, quoted, values) == sql[i..]
    ensures FindFrom(sql, i, quoted).None? ==> Chunks(sql, i, quoted) == [sql[i..]]
    decreases |sql| - i
  {
    if i < |sql| {
      NoMark(sql, i + 1, Toggle(quoted, sql[i]), values);
      assert sql[i..] == [sql[i]] + sql[i + 1..];
    }
  }

  /** dbrelay_find_placeholder on the text that starts at `&sql[start]`. */
  method FindPlaceholder(sql: array<char>, start: nat, ghost text: string) returns (r: int)
    requires start <= |text| < sql.Length && NulFree(text)
    requires sql[start..|text|] == text[start..] && sql[|text|] == NUL
    ensures r == var f := FindFrom(text, start, false); if f.None? then -1 else f.value - start
  {
    var len := Strlen(sql, start, text);
    var quoted, found, i := false, false, 0;
    var more := true;
    while more
      invariant 0 <= i <= len || (len == 0 && i == 1)
      invariant more == (!found && (i < len || i == 0))
      invariant found ==> FindFrom(text, start, false) == Some(start + i - 1)
      invariant !found && i <= len ==> FindFrom(text, start, false) == FindFrom(text, start + i, quoted)
      decreases len + 1 - i
    {
      var c := sql[start + i];
      assert i < len ==> c == sql[start..|text|][i] == text[start..][i] == text[start + i];
      if c == '\'' { quoted := !quoted; }
      if !quoted && c == '?' { found := true; }
      i := i + 1;
      more := !found && i < len;
    }
    r := if !found then -1 else i - 1;
  }

  /** `strlen(&sql[start])`. */
  method Strlen(sql: array<char>, start: nat, ghost text: string) returns (len: nat)
    requires start <= |text| < sql.Length && NulFree(text)
    requires sql[start..|text|] == text[start..] && sql[|text|] == NUL
    ensures start + len == |text|
  {
    len := 0;
    assert forall k :: start <= k < |text| ==> sql[k] == sql[start..|text|][k - start] == text[start..][k - start] == text[k];
    while sql[start + len] != NUL
      invariant start + len <= |text|
      decreases |text| - len
    {
      len := len + 1;
    }
  }

  /** `&sql[from]` as a C string that ends before `end`. */
  method Text(sql: array<char>, from: nat, ghost end: nat) returns (s: string)
    requires from <= end < sql.Length && sql[end] == NUL && NulFree(sql[from..end])
    ensures s == sql[from..end]
  {
    s := "";
    assert forall k :: from <= k < end ==> sql[k] in sql[from..end];
    while sql[from + |s|] != NUL
      invariant from + |s| <= end && s == sql[from..from + |s|]
      decreases end - |s|
    {
      s := s + [sql[from + |s|]];
    }
  }

  /** What one round of the loop appends for the value v when the scan stands at `pos`. */
  function Appended(sql: string, pos: nat, v: string): string
    requires pos <= |sql|
  {
    match FindFrom(sql, pos, false)
    case Some(k) => sql[pos..k] + v
    case None => if pos == 0 then "" else sql[pos..] + v
  }

  /** Where the next round starts. */
  function Advance(sql: string, pos: nat): (r: nat)
    requires pos <= |sql|
    ensures pos <= r <= |sql|
  {
    match FindFrom(sql, pos, false)
    case Some(k) => k + 1
    case None => pos
  }

  /** What the loop appends for the values that are left, with the scan standing at `pos`. */
  function Resolve(sql: string, pos: nat, values: seq<string>): string
    requires pos <= |sql|
    decreases |values|
  {
    if values == [] then sql[pos..]
    else Appended(sql, pos, values[0]) + Resolve(sql, Advance(sql, pos), values[1..])
  }

  /** dbrelay_resolve_params; `magic` is the configured prefix. */
  method ResolveParams(sql: string, params: seq<string>, magic: string, noMagic: bool) returns (newsql: string)
    requires NulFree(sql) && WellTyped(params)
    ensures newsql == (if noMagic then "" else magic) + Resolve(sql, 0, Values(params))
  {
    var tmpsql := new char[|sql| + 1];
    var sb := new StringBuf();
    CopyPart(tmpsql, 0, sql);
    assert tmpsql[0..|sql|] == sql[0..];
    if magic != "" && !noMagic { sb.Append(magic); }
    assert sb.Text() == if noMagic then "" else magic;
    Rounds(tmpsql, sb, sql, params);
    var out := sb.ToChars();
    newsql := out[..out.Length - 1];
  }

  /** The loop over the parameters and the append behind it. */
  method Rounds(tmpsql: array<char>, sb: StringBuf, ghost sql: string, params: seq<string>)
    requires sb.Valid() && tmpsql !in sb.Repr && NulFree(sql) && WellTyped(params)
    requires tmpsql.Length == |sql| + 1 && tmpsql[|sql|] == NUL && tmpsql[0..|sql|] == sql[0..]
    modifies tmpsql, sb.Repr
    ensures sb.Valid() && fresh(sb.Repr - old(sb.Repr)) && sb.Text() == old(sb.Text()) + Resolve(sql, 0, Values(params))
  {
    var i, pos := 0, 0;
    assert Values(params)[0..] == Values(params);
    while i < |params|
      invariant 0 <= i <= |params| && 0 <= pos <= |sql|
      invariant sb.Valid() && fresh(sb.Repr - old(sb.Repr)) && tmpsql !in sb.Repr
      invariant tmpsql[pos..|sql|] == sql[pos..] && tmpsql[|sql|] == NUL
      invariant sb.Text() + Resolve(sql, pos, Values(params)[i..]) == old(sb.Text()) + Resolve(sql, 0, Values(params))
    {
      ResolveStep(sql, pos, Values(params), i, sb.Text());
      ValueAt(params, i);
      pos := NextParam(tmpsql, sb, pos, params[i], sql);
      i := i + 1;
    }
    assert Values(params)[i..] == [];
    var last := Text(tmpsql, pos, |sql|);
    sb.Append(last);
  }

  lemma {:induction false} ValueAt(params: seq<string>, i: nat)
    requires WellTyped(params) && i < |params|
    ensures Values(params)[i] == Rendered(params[i])
  {
    if i > 0 { ValueAt(params[1..], i - 1); }
  }

  lemma ResolveStep(sql: string, pos: nat, values: seq<string>, i: nat, done: string)
    requires pos <= |sql| && i < |values|
    ensures done + Resolve(sql, pos, values[i..]) ==
            done + Appended(sql, pos, values[i]) + Resolve(sql, Advance(sql, pos), values[i + 1..])
  {
    assert values[i..][1..] == values[i + 1..];
    Assoc(done, Appended(sql, pos, values[i]), Resolve(sql, Advance(sql, pos), values[i + 1..]));
  }

  /** One round of the loop. */
  method NextParam(tmpsql: array<char>, sb: StringBuf, prevpos: nat, p: string, ghost sql: string) returns (pos: int)
    requires sb.Valid() && tmpsql !in sb.Repr && ':' in p && NulFree(sql)
    requires tmpsql.Length == |sql| + 1 && tmpsql[|sql|] == NUL && prevpos <= |sql|
    requires tmpsql[prevpos..|sql|] == sql[prevpos..]
    modifies tmpsql, sb.Repr
    ensures sb.Valid() && fresh(sb.Repr - old(sb.Repr)) && tmpsql !in sb.Repr
    ensures pos == Advance(sql, prevpos) && sb.Text() == old(sb.Text()) + Appended(sql, prevpos, Rendered(p))
    ensures tmpsql[pos..|sql|] == sql[pos..] && tmpsql[|sql|] == NUL
  {
    pos := FindPlaceholder(tmpsql, prevpos, sql);
    pos := prevpos + pos;
    if pos == -1 {
      pos := prevpos;
    } else {
      ghost var end := if FindFrom(sql, prevpos, false).None? then |sql| else pos;
      AppendedIs(sql, prevpos, Rendered(p), pos, end);
      TakePiece(tmpsql, sb, prevpos, pos, p, end, sql);
      pos := pos + 1;
    }
  }

  lemma AppendedIs(sql: string, prevpos: nat, v: string, pos: int, end: nat)
    requires prevpos <= |sql| && 0 <= pos
    requires var f := FindFrom(sql, prevpos, false);
             if f.None? then pos == prevpos - 1 && end == |sql| else pos == f.value == end
    ensures Appended(sql, prevpos, v) == sql[prevpos..end] + v && Advance(sql, prevpos) == pos + 1
  {
    if FindFrom(sql, prevpos, false).None? { assert sql[prevpos..end] == sql[prevpos..]; }
  }

  /** One round that appends: cut the text at `pos`, then append from `prevpos` on and the value. */
  method TakePiece(tmpsql: array<char>, sb: StringBuf, prevpos: nat, pos: nat, p: string, ghost end: nat, ghost sql: string)
    requires sb.Valid() && tmpsql !in sb.Repr && ':' in p && NulFree(sql)
    requires tmpsql.Length == |sql| + 1 && tmpsql[|sql|] == NUL && prevpos <= end <= |sql| && pos < |sql|
    requires tmpsql[prevpos..|sql|] == sql[prevpos..] && (pos == end || (pos == prevpos - 1 && end == |sql|))
    modifies tmpsql, sb.Repr
    ensures sb.Valid() && fresh(sb.Repr - old(sb.Repr))
    ensures tmpsql !in sb.Repr && sb.Text() == old(sb.Text()) + (sql[prevpos..end] + Rendered(p))
    ensures tmpsql[pos + 1..|sql|] == sql[pos + 1..] && tmpsql[|sql|] == NUL
  {
    tmpsql[pos] := NUL;
    assert forall k :: prevpos <= k < end ==> tmpsql[k] == sql[k];
    var piece := Text(tmpsql, prevpos, end);
    assert piece == sql[prevpos..end];
    sb.Append(piece);
    AppendValue(sb, p);
    Assoc(old(sb.Text()), piece, Rendered(p));
  }

  method AppendValue(sb: StringBuf, p: string)
    requires sb.Valid() && ':' in p
    modifies sb.Repr
    ensures sb.Valid() && fresh(sb.Repr - old(sb.Repr)) && sb.Text() == old(sb.Text()) + Rendered(p)
  {
    var v := p[Colon(p) + 1..];
    if QuotedParam(p) { AppendQuoted(sb, v); } else { sb.Append(v); }
  }

  method AppendQuoted(sb: StringBuf, v: string)
    requires sb.Valid()
    modifies sb.Repr
    ensures sb.Valid() && fresh(sb.Repr - old(sb.Repr)) && sb.Text() == old(sb.Text()) + ("'" + v + "'")
  {
    sb.Append("'");
    sb.Append(v);
    sb.Append("'");
  }

  // ---- when the two agree --------------------------------------------------------------------

  /** What values without a mark of their own add once a mark has been replaced. */
  function Surplus(tail: string, values: seq<string>): string {
    if values == [] then "" else values[0] + (tail + Surplus(tail, values[1..]))
  }

  lemma {:induction false} SurplusEmpty(tail: string, values: seq<string>)
    ensures Surplus(tail, values) == "" <==>
            (values == [] || tail == "") && forall i :: 0 <= i < |values| ==> values[i] == ""
  {
    if values != [] {
      SurplusEmpty(tail, values[1..]);
      assert values == [values[0]] + values[1..];
    }
  }

  lemma {:induction false} ResolveSurplus(sql: string, pos: nat, values: seq<string>)
    requires 0 < pos <= |sql| && FindFrom(sql, pos, false).None?
    ensures Resolve(sql, pos, values) == sql[pos..] + Surplus(sql[pos..], values)
    decreases |values|
  {
    if values != [] {
      ResolveSurplus(sql, pos, values[1..]);
      var tail := sql[pos..];
      Assoc(tail, values[0], tail + Surplus(tail, values[1..]));
    }
  }

  /** What the values without a mark add behind a text with these chunks. */
  function Extra(chunks: seq<string>, values: seq<string>): string
    requires chunks != []
  {
    var n := |chunks| - 1;
    if |values| <= n then "" else Surplus(chunks[n], values[n..])
  }

  /** The loop gives the single-pass text, and behind it what the surplus values add. */
  predicate Runs(sql: string, pos: nat, values: seq<string>)
    requires pos <= |sql|
  {
    Resolve(sql, pos, values) == Substitute(sql, pos, false, values) + Extra(Chunks(sql, pos, false), values)
  }

  lemma {:induction false} ResolveRuns(sql: string, pos: nat, values: seq<string>)
    requires pos <= |sql| && (pos > 0 || FindFrom(sql, pos, false).Some?)
    ensures Runs(sql, pos, values)
    decreases |values|
  {
    if values == [] || FindFrom(sql, pos, false).None? {
      RunsOut(sql, pos, values);
    } else {
      var k := FindFrom(sql, pos, false).value;
      ResolveRuns(sql, k + 1, values[1..]);
      RunsAtMark(sql, pos, values, k);
    }
  }

  lemma RunsAtMark(sql: string, pos: nat, values: seq<string>, k: nat)
    requires pos <= |sql| && values != [] && FindFrom(sql, pos, false) == Some(k)
    requires Runs(sql, k + 1, values[1..])
    ensures Runs(sql, pos, values)
  {
    SubstituteAtMark(sql, pos, values, k);
    ResolveAtMark(sql, pos, values, k);
    Behind(sql[pos..k], values[0], Substitute(sql, k + 1, false, values[1..]), Extra(Chunks(sql, k + 1, false), values[1..]));
  }

  lemma SubstituteAtMark(sql: string, pos: nat, values: seq<string>, k: nat)
    requires pos <= |sql| && values != [] && FindFrom(sql, pos, false) == Some(k)
    ensures Substitute(sql, pos, false, values) == sql[pos..k] + (values[0] + Substitute(sql, k + 1, false, values[1..]))
    ensures Extra(Chunks(sql, pos, false), values) == Extra(Chunks(sql, k + 1, false), values[1..])
  {
    CutAtMark(sql, pos, false, values);
    ExtraStep(sql[pos..k], Chunks(sql, k + 1, false), values);
  }

  lemma {:induction false} ResolveAtMark(sql: string, pos: nat, values: seq<string>, k: nat)
    requires pos <= |sql| && values != [] && FindFrom(sql, pos, false) == Some(k)
    ensures Resolve(sql, pos, values) == sql[pos..k] + values[0] + Resolve(sql, k + 1, values[1..])
  {
    ResolveOnce(sql, pos, values);
    AppendedIs(sql, pos, values[0], k, k);
  }

  lemma ResolveOnce(sql: string, pos: nat, values: seq<string>)
    requires pos <= |sql| && values != []
    ensures Resolve(sql, pos, values) == Appended(sql, pos, values[0]) + Resolve(sql, Advance(sql, pos), values[1..])
  {
  }

  lemma RunsOut(sql: string, pos: nat, values: seq<string>)
    requires pos <= |sql|
    requires values == [] || (pos > 0 && FindFrom(sql, pos, false).None?)
    ensures Runs(sql, pos, values)
  {
    NoMark(sql, pos, false, values);
    if values == [] {
      assert sql[pos..] == sql[pos..] + "";
    } else {
      ResolveSurplus(sql, pos, values);
      assert values[0..] == values;
    }
  }

  lemma ExtraStep(chunk: string, chunks: seq<string>, values: seq<string>)
    requires chunks != [] && values != []
    ensures Extra([chunk] + chunks, values) == Extra(chunks, values[1..])
  {
    var n := |chunks| - 1;
    if |values| > n + 1 { assert values[1..][n..] == values[n + 1..]; }
  }

  lemma Behind(a: string, b: string, c: string, d: string)
    ensures a + b + (c + d) == a + (b + c) + d
  {
  }

  lemma {:induction false} NoMarkNoChange(sql: string, values: seq<string>)
    requires FindFrom(sql, 0, false).None?
    ensures Resolve(sql, 0, values) == sql
  {
    if values != [] { NoMarkNoChange(sql, values[1..]); }
  }

  /**
   * The restarted scanner computes the single-pass substitution exactly when the values do not
   * outnumber the marks, or there are no marks, or everything that would be appended again is empty.
   */
  lemma ResolveIff(sql: string, values: seq<string>)
    ensures Resolve(sql, 0, values) == Substitute(sql, 0, false, values) <==>
            || |values| <= Marks(sql)
            || Marks(sql) == 0
            || (Chunks(sql, 0, false)[Marks(sql)] == "" && forall i :: Marks(sql) <= i < |values| ==> values[i] == "")
  {
    var n := Marks(sql);
    if FindFrom(sql, 0, false).None? {
      NoMark(sql, 0, false, values);
      NoMarkNoChange(sql, values);
    } else {
      CutAtMark(sql, 0, false, values);
      ResolveRuns(sql, 0, values);
      NothingBehind(Substitute(sql, 0, false, values), Extra(Chunks(sql, 0, false), values));
      if |values| > n { SurplusIff(Chunks(sql, 0, false)[n], values, n); }
    }
  }

  lemma NothingBehind(x: string, extra: string)
    ensures x + extra == x <==> extra == ""
  {
    if extra == "" { assert x + extra == x; } else { assert |x + extra| > |x|; }
  }

  lemma SurplusIff(tail: string, values: seq<string>, n: nat)
    requires n < |values|
    ensures Surplus(tail, values[n..]) == "" <==> tail == "" && forall i :: n <= i < |values| ==> values[i] == ""
  {
    var extra := values[n..];
    SurplusEmpty(tail, extra);
    assert forall i :: n <= i < |values| ==> values[i] == extra[i - n];
    assert forall i :: 0 <= i < |extra| ==> extra[i] == values[n + i];
  }

  /** More values than marks: the text behind the last mark comes twice. */
  lemma ResolveRepeatsTail()
    ensures Resolve("a=? b", 0, ["1", "2"]) == "a=1 b2 b"
    ensures Substitute("a=? b", 0, false, ["1", "2"]) == "a=1 b"
  {
    var sql, vs := "a=? b", ["1", "2"];
    assert FindFrom(sql, 3, false) == None && FindFrom(sql, 0, false) == Some(2);
    assert sql[0..2] == "a=" && sql[3..] == " b";
    ResolveSurplus(sql, 3, ["2"]);
    assert Surplus(" b", ["2"]) == "2" + (" b" + "");
    NoMark(sql, 3, false, ["2"]);
    CutAtMark(sql, 0, false, vs);
    assert vs[1..] == ["2"];
  }
}
