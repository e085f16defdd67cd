/** A string literal put together from raw characters and escapes, and when it is read back (RFC 8259 section 7). */
module CsvLiteral {
  import opened CStrings
  import opened JsonGrammar

  /** A character written as it is, an escaped quote or an escaped line feed. */
  datatype Tok = Lit(c: char) | EscQuote | EscNewline

  function RawOf(t: Tok): string {
    match t
    case Lit(c) => [c]
    case EscQuote => "\\\""
    case EscNewline => "\\n"
  }

  function ShownOf(t: Tok): char {
    match t
    case Lit(c) => c
    case EscQuote => '"'
    case EscNewline => '\n'
  }

  function Raw(ts: seq<Tok>): string {
    if ts == [] then "" else RawOf(ts[0]) + Raw(ts[1..])
  }

  function Meaning(ts: seq<Tok>): (s: string)
    ensures |s| == |ts|
  {
    if ts == [] then "" else [ShownOf(ts[0])] + Meaning(ts[1..])
  }

  predicate PlainChar(c: char) {
    ' ' <= c && c != '"' && c != '\\'
  }

  /** Every character written as it is may stand in a literal. */
  predicate Clean(ts: seq<Tok>) {
    forall i :: 0 <= i < |ts| && ts[i].Lit? ==> PlainChar(ts[i].c)
  }

  lemma {:induction false} RawAppend(a: seq<Tok>, b: seq<Tok>)
    ensures Raw(a + b) == Raw(a) + Raw(b) && Meaning(a + b) == Meaning(a) + Meaning(b)
  {
    if a == [] {
      assert a + b == b;
    } else {
      assert (a + b)[1..] == a[1..] + b;
      RawAppend(a[1..], b);
      Assoc(RawOf(a[0]), Raw(a[1..]), Raw(b));
      Assoc([ShownOf(a[0])], Meaning(a[1..]), Meaning(b));
    }
  }

  // ---- runs of raw characters ------------------------------------------------------

  predicate Lits(ts: seq<Tok>, k: nat) {
    k <= |ts| && forall i :: 0 <= i < k ==> ts[i].Lit?
  }

  lemma {:induction false} RawLits(ts: seq<Tok>, k: nat)
    requires Lits(ts, k)
    ensures k <= |Raw(ts)| && Raw(ts)[k..] == Raw(ts[k..])
    ensures forall i :: 0 <= i < k ==> Raw(ts)[i] == ts[i].c
  {
    if k > 0 {
      RawLits(ts[1..], k - 1);
      assert ts[1..][k - 1..] == ts[k..];
      assert Raw(ts) == [ts[0].c] + Raw(ts[1..]);
    } else {
      assert ts[0..] == ts;
    }
  }

  /** Behind k raw characters, one that is neither a backslash nor the closing quote is raw as well. */
  lemma NextLit(ts: seq<Tok>, k: nat, rest: string)
    requires Lits(ts, k)
    requires var s := Raw(ts) + ("\"" + rest); k < |s| && s[k] != '\\' && s[k] != '"'
    ensures Lits(ts, k + 1)
  {
    RawLits(ts, k);
    var s := Raw(ts) + ("\"" + rest);
    assert k == |ts| ==> |Raw(ts)| == k;
    if k < |ts| { assert Raw(ts)[k..][0] == RawOf(ts[k])[0]; }
  }

  /** A `\u` escape that starts at a raw character consists of six of them. */
  lemma SixLits(ts: seq<Tok>, rest: string)
    requires Lits(ts, 1)
    requires var s := Raw(ts) + ("\"" + rest); 6 <= |s| && s[1] == 'u' && HexCode(s[2..6]).Some?
    ensures Lits(ts, 6)
  {
    var s := Raw(ts) + ("\"" + rest);
    assert forall i :: 2 <= i < 6 ==> s[i] == s[2..6][i - 2];
    NextLit(ts, 1, rest);
    NextLit(ts, 2, rest);
    NextLit(ts, 3, rest);
    NextLit(ts, 4, rest);
    NextLit(ts, 5, rest);
  }

  // ---- what a reader can make of it --------------------------------------------------

  /** Reads to the closing quote that stands in front of `rest`, or to an earlier one. */
  predicate Ends(p: Parse<string>, rest: string) {
    p.Ok? && |rest| <= |p.rest|
  }

  lemma ReadsCons(c: char, p: Parse<string>, rest: string)
    requires Ends(Cons(c, p), rest)
    ensures Ends(p, rest) && |Cons(c, p).value| == 1 + |p.value|
  {
  }

  /** The text of a literal, read from its start or behind the backslash of a first escape, has no more characters than it has left. */
  lemma {:induction false} ReadsAtMost(ts: seq<Tok>, rest: string)
    ensures var p := ParseString(Raw(ts) + ("\"" + rest)); Ends(p, rest) ==> |p.value| <= |ts|
    decreases |ts|, 3
  {
    var s := Raw(ts) + ("\"" + rest);
    if Ends(ParseString(s), rest) && ts != [] {
      var more := Raw(ts[1..]) + ("\"" + rest);
      Assoc(RawOf(ts[0]), Raw(ts[1..]), "\"" + rest);
      if ts[0].Lit? && ts[0].c == '\\' {
        AfterBackslash(ts, rest);
      } else if ts[0].Lit? {
        assert s[1..] == more;
        ReadsAtMost(ts[1..], rest);
      } else {
        assert s[0] == '\\' && s[1] == RawOf(ts[0])[1] && s[2..] == more;
        ReadsAtMost(ts[1..], rest);
      }
    }
  }

  /** A raw backslash swallows what follows it: the reader gets something else, and no more than there is. */
  lemma {:induction false} AfterBackslash(ts: seq<Tok>, rest: string)
    requires ts != [] && ts[0] == Lit('\\')
    ensures var p := ParseString(Raw(ts) + ("\"" + rest));
            Ends(p, rest) ==> |p.value| <= |ts| && p.value != Meaning(ts)
    decreases |ts|, 2
  {
    var s := Raw(ts) + ("\"" + rest);
    Assoc(RawOf(ts[0]), Raw(ts[1..]), "\"" + rest);
    assert s[0] == '\\' && s[1..] == Raw(ts[1..]) + ("\"" + rest);
    if |ts| == 1 {
      QuoteEscaped(s, rest);
    } else if Ends(ParseString(s), rest) {
      if SimpleEscape(s[1]).Some? { AfterSimple(ts, rest, s); } else { AfterCode(ts, rest, s); }
    }
  }

  /** A backslash in front of the closing quote makes the reader run past it. */
  lemma QuoteEscaped(s: string, rest: string)
    requires |s| == |rest| + 2 && s[0] == '\\' && s[1] == '"' && s[1..] == "\"" + rest
    ensures !Ends(ParseString(s), rest)
  {
    assert s[2..] == rest;
  }

  lemma {:induction false} AfterCode(ts: seq<Tok>, rest: string, s: string)
    requires ts != [] && ts[0] == Lit('\\') && s == Raw(ts) + ("\"" + rest) && s[0] == '\\'
    requires 1 < |s| && SimpleEscape(s[1]).None? && Ends(ParseString(s), rest)
    ensures var p := ParseString(s); |p.value| <= |ts| && p.value != Meaning(ts)
    decreases |ts|, 1
  {
    SixLits(ts, rest);
    RawLits(ts, 6);
    assert s[6..] == Raw(ts[6..]) + ("\"" + rest);
    ReadsCons(HexCode(s[2..6]).value, ParseString(s[6..]), rest);
    ReadsAtMost(ts[6..], rest);
  }

  lemma {:induction false} AfterSimple(ts: seq<Tok>, rest: string, s: string)
    requires ts != [] && ts[0] == Lit('\\') && s == Raw(ts) + ("\"" + rest) && s[0] == '\\'
    requires |ts| >= 2 && s[1..] == Raw(ts[1..]) + ("\"" + rest)
    requires 1 < |s| && SimpleEscape(s[1]).Some? && Ends(ParseString(s), rest)
    ensures var p := ParseString(s); |p.value| <= |ts| && p.value != Meaning(ts)
    decreases |ts|, 1
  {
    var q, more := ParseString(s[2..]), Raw(ts[2..]) + ("\"" + rest);
    ReadsCons(SimpleEscape(s[1]).value, q, rest);
    SecondToken(ts, rest, s);
    if ts[1].Lit? { ReadsAtMost(ts[2..], rest); } else { HalfEscape(ts, rest, ParseString(s), q); }
  }

  lemma SecondToken(ts: seq<Tok>, rest: string, s: string)
    requires |ts| >= 2 && 1 < |s| && s[1..] == Raw(ts[1..]) + ("\"" + rest)
    ensures var more := Raw(ts[2..]) + ("\"" + rest);
            s[1] == RawOf(ts[1])[0] && s[2..] == if ts[1].Lit? then more else [RawOf(ts[1])[1]] + more
  {
    var more := Raw(ts[2..]) + ("\"" + rest);
    Assoc(RawOf(ts[1]), Raw(ts[2..]), "\"" + rest);
    assert ts[1..][1..] == ts[2..] && s[1..] == RawOf(ts[1]) + more;
    assert s[2..] == s[1..][1..] && s[1] == s[1..][0];
  }

  /** Behind the first half of an escape its letter stands alone: a quote ends the literal, an `n` is no line feed. */
  lemma {:induction false} HalfEscape(ts: seq<Tok>, rest: string, p: Parse<string>, q: Parse<string>)
    requires |ts| >= 2 && ts[0] == Lit('\\') && !ts[1].Lit? && Ends(q, rest)
    requires q == ParseString([RawOf(ts[1])[1]] + (Raw(ts[2..]) + ("\"" + rest))) && p == Cons('\\', q)
    ensures |p.value| <= |ts| && p.value != Meaning(ts)
    decreases |ts|, 0
  {
    var more := Raw(ts[2..]) + ("\"" + rest);
    var h := [RawOf(ts[1])[1]] + more;
    assert h[1..] == more;
    assert Meaning(ts)[1] == ShownOf(ts[1]) by { assert Meaning(ts) == ['\\'] + ([ShownOf(ts[1])] + Meaning(ts[1..][1..])); }
    if ts[1].EscNewline? {
      ReadsCons('n', ParseString(more), rest);
      ReadsAtMost(ts[2..], rest);
      assert p.value[1] == 'n';
    }
  }

  // ---- both ways ------------------------------------------------------------------------

  /** Behind its opening quote the literal is read as its text, up to its own closing quote, if and only if it is clean. */
  lemma {:induction false} LiteralIff(ts: seq<Tok>, rest: string)
    ensures ParseString(Raw(ts) + ("\"" + rest)) == Ok(Meaning(ts), rest) <==> Clean(ts)
    decreases |ts|
  {
    var s := Raw(ts) + ("\"" + rest);
    if ts == [] {
      assert s == "\"" + rest && s[1..] == rest;
    } else {
      var more := Raw(ts[1..]) + ("\"" + rest);
      Assoc(RawOf(ts[0]), Raw(ts[1..]), "\"" + rest);
      LiteralIff(ts[1..], rest);
      CleanSplit(ts);
      if ts[0].Lit? {
        assert s[0] == ts[0].c && s[1..] == more;
        if ts[0].c == '\\' { AfterBackslash(ts, rest); }
      } else {
        assert s[0] == '\\' && s[1] == RawOf(ts[0])[1] && s[2..] == more;
      }
      if s[0] != '\\' || !ts[0].Lit? { ConsIs(ShownOf(ts[0]), ParseString(more), Meaning(ts[1..]), rest); }
    }
  }

  lemma CleanSplit(ts: seq<Tok>)
    requires ts != []
    ensures Clean(ts) <==> (ts[0].Lit? ==> PlainChar(ts[0].c)) && Clean(ts[1..])
  {
    assert ts == [ts[0]] + ts[1..];
  }

  lemma ConsIs(c: char, p: Parse<string>, v: string, rest: string)
    ensures Cons(c, p) == Ok([c] + v, rest) <==> p == Ok(v, rest)
  {
    if p.Ok? && [c] + p.value == [c] + v {
      assert p.value == ([c] + p.value)[1..] == ([c] + v)[1..] == v;
    }
  }
}
