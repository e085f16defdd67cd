/** Which text takes the place of which mark, said without the scanner (src/db.c). */
module ParamExactness {
  import opened CStrings
  import opened Params

  // ---- the value of a parameter ---------------------------------------------------------

  /** The same letters, whichever case t has. */
  predicate SpelledAs(t: string, name: string) {
    |t| == |name| && forall i :: 0 <= i < |t| ==> t[i] == name[i] || ('A' <= t[i] <= 'Z' && t[i] as int + 32 == name[i] as int)
  }

  /** A value of one of four types goes between quotes, any other as it is. */
  ghost predicate StandsFor(p: string, x: string) {
    exists t, v :: p == Typed(t, v) && ':' !in t && x == Written(t, v)
  }

  function Typed(t: string, v: string): string {
    t + ":" + v
  }

  function Written(t: string, v: string): string {
    if SpelledAs(t, "char") || SpelledAs(t, "varchar") || SpelledAs(t, "datetime") || SpelledAs(t, "smalldatetime") then "'" + v + "'" else v
  }

  lemma SameSpelling(t: string, name: string)
    requires forall i :: 0 <= i < |name| ==> 'a' <= name[i] <= 'z'
    ensures SameIgnoringCase(t, name) <==> SpelledAs(t, name)
  {
  }

  lemma {:induction false} ColonAt(t: string, v: string)
    requires ':' !in t
    ensures ':' in t + ":" + v && Colon(t + ":" + v) == |t|
  {
    var p := t + ":" + v;
    assert p[|t|] == ':';
    if t != "" {
      assert p[1..] == t[1..] + ":" + v && t[0] in t;
      ColonAt(t[1..], v);
    } else {
      assert p[0] == ':';
    }
  }

  lemma ParamValue(t: string, v: string)
    requires ':' !in t
    ensures var p := Typed(t, v); ':' in p && Rendered(p) == Written(t, v)
  {
    var p := t + ":" + v;
    ColonAt(t, v);
    assert p[..|t|] == t && p[|t| + 1..] == v;
    SameSpelling(t, "char");
    SameSpelling(t, "varchar");
    SameSpelling(t, "datetime");
    SameSpelling(t, "smalldatetime");
  }

  lemma OnlyValue(p: string, x: string)
    requires StandsFor(p, x)
    ensures ':' in p && Rendered(p) == x
  {
    var t, v :| p == Typed(t, v) && ':' !in t && x == Written(t, v);
    ParamValue(t, v);
  }

  // ---- the marks ------------------------------------------------------------------------

  function Apostrophes(s: string): nat {
    if s == "" then 0 else (if s[0] == '\'' then 1 else 0) + Apostrophes(s[1..])
  }

  /** A question mark behind an even number of apostrophes. */
  predicate IsMark(sql: string, p: nat) {
    p < |sql| && sql[p] == '?' && Apostrophes(sql[..p]) % 2 == 0
  }

  /** All marks from a position on, from left to right. */
  ghost predicate AllMarks(sql: string, from: nat, ps: seq<nat>) {
    && Rising(sql, from, ps)
    && forall p :: p in ps <==> from <= p && IsMark(sql, p)
  }

  predicate Rising(sql: string, from: nat, ps: seq<nat>) {
    && (forall i, k :: 0 <= i < k < |ps| ==> ps[i] < ps[k])
    && forall i :: 0 <= i < |ps| ==> from <= ps[i] < |sql|
  }

  /** The text from a position on with the first marks replaced, one by each of these. */
  ghost function Spliced(sql: string, from: nat, ps: seq<nat>, xs: seq<string>): string
    requires |xs| <= |ps| && from <= |sql|
    requires Rising(sql, from, ps)
    decreases |xs|
  {
    if xs == [] then sql[from..]
    else
      sql[from..ps[0]] + xs[0] + Spliced(sql, ps[0] + 1, ps[1..], xs[1..])
  }

  lemma {:induction false} ApostrophesAppend(a: string, b: string)
    ensures Apostrophes(a + b) == Apostrophes(a) + Apostrophes(b)
  {
    if a == "" {
      assert a + b == b;
    } else {
      assert (a + b)[1..] == a[1..] + b;
      ApostrophesAppend(a[1..], b);
    }
  }

  lemma {:induction false} QuotedIsOdd(sql: string, i: nat, quoted: bool, n: nat)
    requires i <= n <= |sql|
    ensures QuotedAt(sql, i, quoted, n) <==> (Apostrophes(sql[i..n]) + if quoted then 1 else 0) % 2 == 1
    decreases n - i
  {
    if i < n {
      QuotedIsOdd(sql, i + 1, Toggle(quoted, sql[i]), n);
      assert sql[i..n] == [sql[i]] + sql[i + 1..n];
    }
  }

  /** Behind an even number of apostrophes the scanner finds the next mark, if there is one. */
  lemma FindsNext(sql: string, from: nat, ps: seq<nat>)
    requires from <= |sql| && Apostrophes(sql[..from]) % 2 == 0 && AllMarks(sql, from, ps)
    ensures ps != [] ==> FindFrom(sql, from, false) == Some(ps[0])
  {
    if ps != [] {
      assert ps[0] in ps;
      forall k | from <= k <= |sql| ensures QuotedAt(sql, from, false, k) <==> Apostrophes(sql[..k]) % 2 == 1 {
        QuotedIsOdd(sql, from, false, k);
        ApostrophesAppend(sql[..from], sql[from..k]);
        assert sql[..k] == sql[..from] + sql[from..k];
      }
      FindFromIsFirst(sql, from, false, ps[0]);
      forall j | from <= j < ps[0] && sql[j] == '?' ensures QuotedAt(sql, from, false, j) { assert j !in ps; }
    }
  }

  lemma BehindMark(sql: string, from: nat, ps: seq<nat>)
    requires AllMarks(sql, from, ps) && ps != []
    ensures from <= ps[0] < |sql| && Apostrophes(sql[..ps[0] + 1]) % 2 == 0 && AllMarks(sql, ps[0] + 1, ps[1..])
  {
    var p := ps[0];
    assert p in ps;
    assert sql[..p + 1] == sql[..p] + [sql[p]];
    ApostrophesAppend(sql[..p], [sql[p]]);
    assert Apostrophes([sql[p]]) == 0 + Apostrophes([sql[p]][1..]);
    assert forall q :: q in ps <==> q == p || q in ps[1..];
  }

  lemma {:induction false} ResolveIsSpliced(sql: string, from: nat, ps: seq<nat>, xs: seq<string>)
    requires from <= |sql| && Apostrophes(sql[..from]) % 2 == 0 && AllMarks(sql, from, ps) && |xs| <= |ps|
    ensures Resolve(sql, from, xs) == Spliced(sql, from, ps, xs)
    decreases |xs|
  {
    if xs != [] {
      FindsNext(sql, from, ps);
      BehindMark(sql, from, ps);
      ResolveAtMark(sql, from, xs, ps[0]);
      ResolveIsSpliced(sql, ps[0] + 1, ps[1..], xs[1..]);
    }
  }

  lemma {:induction false} ValuesAre(params: seq<string>, xs: seq<string>)
    requires |xs| == |params| && forall i :: 0 <= i < |params| ==> StandsFor(params[i], xs[i])
    ensures WellTyped(params) && Values(params) == xs
  {
    forall i | 0 <= i < |params| ensures ':' in params[i] && Rendered(params[i]) == xs[i] { OnlyValue(params[i], xs[i]); }
    forall i | 0 <= i < |params| ensures Values(params)[i] == xs[i] { ValueAt(params, i); }
  }

  /**
   * With no more parameters than marks, the text behind the configured prefix is the SQL with what the
   * k-th parameter stands for in the place of the k-th mark, and everything else as it was.
   */
  lemma ResolvedExactly(sql: string, params: seq<string>, ps: seq<nat>, xs: seq<string>)
    requires AllMarks(sql, 0, ps) && |params| <= |ps|
    requires |xs| == |params| && forall i :: 0 <= i < |params| ==> StandsFor(params[i], xs[i])
    ensures WellTyped(params) && Resolve(sql, 0, Values(params)) == Spliced(sql, 0, ps, xs)
  {
    ValuesAre(params, xs);
    ResolveIsSpliced(sql, 0, ps, xs);
  }

  /** The marks of a text can be listed, and every parameter with a colon stands for something. */
  lemma {:induction false} MarksListed(sql: string, from: nat) returns (ps: seq<nat>)
    requires from <= |sql|
    ensures AllMarks(sql, from, ps)
    decreases |sql| - from
  {
    if from == |sql| {
      ps := [];
    } else {
      var more := MarksListed(sql, from + 1);
      if IsMark(sql, from) {
        ps := [from] + more;
        assert forall p :: p in ps <==> p == from || p in more;
      } else {
        ps := more;
      }
    }
  }

  lemma StandsForOne(p: string)
    requires ':' in p
    ensures StandsFor(p, Rendered(p))
  {
    var t, v := p[..Colon(p)], p[Colon(p) + 1..];
    assert p == Typed(t, v);
    ParamValue(t, v);
  }
}
