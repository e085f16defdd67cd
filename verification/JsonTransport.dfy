/** JSON text on its way through the line protocol: newlines are deleted, control lines must not occur. */
module JsonTransport {
  import opened CStrings
  import opened Framing
  import opened Transparency
  import opened JsonGrammar
  import opened JsonRoundTrip

  // ---- deleting newlines ---------------------------------------------------

  /** The two styles of the writer, and what deleting newlines makes of them. */
  predicate WriterStyle(st: Style) {
    st == COMPACT || st == PRETTY
  }

  function Strip(st: Style): Style {
    st.(nl := "")
  }

  lemma {:induction false} StripIndent(st: Style, n: nat)
    requires WriterStyle(st)
    ensures DeleteNewlines(Indent(st, n)) == Indent(st, n) == Indent(Strip(st), n)
  {
    if n > 0 {
      StripIndent(st, n - 1);
      DeleteNewlinesAppend(Indent(st, n - 1), st.unit);
      DeleteNewlinesNone(st.unit);
    }
  }

  lemma StripNl(st: Style)
    requires WriterStyle(st)
    ensures DeleteNewlines(st.nl) == "" && DeleteNewlines(st.sp) == st.sp
  {
    assert "\n"[1..] == "";
    DeleteNewlinesNone(st.sp);
  }

  lemma DeleteThree(a: string, b: string, c: string)
    ensures DeleteNewlines(a + b + c) == DeleteNewlines(a) + DeleteNewlines(b) + DeleteNewlines(c)
  {
    DeleteNewlinesAppend(a + b, c);
    DeleteNewlinesAppend(a, b);
  }

  lemma StripMemberText(w: string, k: string, w1: string, t: string)
    requires NoNewline(w) && NoNewline(k) && NoNewline(w1)
    ensures DeleteNewlines(MemberText(w, k, w1, t)) == MemberText(w, k, w1, DeleteNewlines(t))
  {
    DeleteNewlinesAppend(w, "\"" + (k + ("\"" + (w1 + (":" + t)))));
    DeleteNewlinesAppend("\"", k + ("\"" + (w1 + (":" + t))));
    DeleteNewlinesAppend(k, "\"" + (w1 + (":" + t)));
    DeleteNewlinesAppend("\"", w1 + (":" + t));
    DeleteNewlinesAppend(w1, ":" + t);
    DeleteNewlinesAppend(":", t);
    DeleteNewlinesNone(w);
    DeleteNewlinesNone(k);
    DeleteNewlinesNone(w1);
    DeleteNewlinesNone("\"");
    DeleteNewlinesNone(":");
  }

  lemma StripBody(st: Style, n: nat, body: string, open: string, close: string)
    requires WriterStyle(st) && NoNewline(open) && NoNewline(close)
    ensures DeleteNewlines(open + (st.nl + body + (st.nl + Indent(st, n))) + close) ==
            open + ("" + DeleteNewlines(body) + ("" + Indent(Strip(st), n))) + close
  {
    DeleteThree(open, st.nl + body + (st.nl + Indent(st, n)), close);
    DeleteThree(st.nl, body, st.nl + Indent(st, n));
    DeleteNewlinesAppend(st.nl, Indent(st, n));
    StripNl(st);
    StripIndent(st, n);
    DeleteNewlinesNone(open);
    DeleteNewlinesNone(close);
  }

  lemma PlainKeyLine(k: string)
    requires PlainKey(k)
    ensures NoNewline(k)
  {
  }

  /** Newlines only stand between tokens: deleting them changes the white space and nothing else. */
  lemma {:induction false} StripRender(st: Style, n: nat, v: Json)
    requires WriterStyle(st) && WritableField(v)
    ensures DeleteNewlines(Render(st, n, v)) == Render(Strip(st), n, v)
    decreases v, 0
  {
    match v
    case Obj(ms) =>
      StripBody(st, n, RenderMembers(st, n + 1, ms, true), "{", "}");
      StripMembers(st, n + 1, ms, true);
    case Arr(es) =>
      StripBody(st, n, RenderItems(st, n + 1, es, true), "[", "]");
      StripItems(st, n + 1, es, true);
    case _ =>
      ScalarLine(st, n, v);
      DeleteNewlinesNone(Render(st, n, v));
  }

  /** Scalars are newline-free and do not end in a capital letter. */
  lemma ScalarLine(st: Style, n: nat, v: Json)
    requires WritableField(v) && !v.Obj? && !v.Arr?
    ensures NoNewline(Render(st, n, v)) && Render(st, n, v) == Render(Strip(st), n, v)
    ensures Render(st, n, v) != "" && !Upper(Render(st, n, v)[|Render(st, n, v)| - 1])
  {
    match v
    case Null =>
    case Num(t) => NumeralChars(t);
    case Str(s) => EscapeIsClean(s);
  }

  lemma {:induction false} StripMembers(st: Style, n: nat, ms: seq<Member>, first: bool)
    requires WriterStyle(st) && WritableMembers(ms)
    ensures DeleteNewlines(RenderMembers(st, n, ms, first)) == RenderMembers(Strip(st), n, ms, first)
    decreases ms, 1
  {
    if ms != [] {
      var m := ms[0];
      var lead := if first then Indent(st, n) else ", ";
      StripIndent(st, n);
      StripRender(st, n, m.value);
      StripNl(st);
      PlainKeyLine(m.key);
      StripMembers(st, n, ms[1..], false);
      DeleteNewlinesAppend(RenderMember(st, n, m, lead), RenderMembers(st, n, ms[1..], false));
      StripMemberText(lead, m.key, st.sp, st.sp + Render(st, n, m.value));
      DeleteNewlinesAppend(st.sp, Render(st, n, m.value));
    }
  }

  lemma {:induction false} StripItems(st: Style, n: nat, es: seq<Json>, first: bool)
    requires WriterStyle(st) && WritableItems(es)
    ensures DeleteNewlines(RenderItems(st, n, es, first)) == RenderItems(Strip(st), n, es, first)
    decreases es, 1
  {
    if es != [] {
      StripIndent(st, n);
      StripRender(st, n, es[0]);
      StripNl(st);
      StripItems(st, n, es[1..], false);
      var sep := if first then "" else "," + st.nl;
      DeleteNewlinesAppend(",", st.nl);
      DeleteNewlinesNone(",");
      assert "," + "" == ",";
      DeleteThree(sep, Indent(st, n) + Render(st, n, es[0]), RenderItems(st, n, es[1..], false));
      DeleteNewlinesAppend(Indent(st, n), Render(st, n, es[0]));
    }
  }

  /** Compact, pretty, and either with every newline deleted: all of them read back as the same tree. */
  lemma PrettyKeepsMeaning(v: Json)
    requires Writable(v)
    ensures ParseText(Render(COMPACT, 0, v)) == Some(v) && ParseText(Render(PRETTY, 0, v)) == Some(v)
    ensures ParseText(DeleteNewlines(Render(PRETTY, 0, v))) == Some(v)
    ensures DeleteNewlines(Render(COMPACT, 0, v)) == Render(COMPACT, 0, v)
  {
    RenderDenotes(COMPACT, 0, v);
    RenderDenotes(PRETTY, 0, v);
    RenderDenotes(STRIPPED, 0, v);
    TextOf(Render(COMPACT, 0, v), v);
    TextOf(Render(PRETTY, 0, v), v);
    TextOf(Render(STRIPPED, 0, v), v);
    StripRender(PRETTY, 0, v);
    StripRender(COMPACT, 0, v);
  }

  // ---- payload safety ----------------------------------------------------------

  predicate Upper(c: char) {
    'A' <= c <= 'Z'
  }

  /** No line ends in a capital letter, as every control line does. */
  predicate CleanEnds(s: string) {
    && (s != "" ==> !Upper(s[|s| - 1]))
    && forall i :: 0 < i < |s| && s[i] == '\n' ==> !Upper(s[i - 1])
  }

  lemma CleanAppend(a: string, b: string)
    requires CleanEnds(a) && CleanEnds(b)
    ensures CleanEnds(a + b)
  {
    var s := a + b;
    forall i | 0 < i < |s| && s[i] == '\n'
      ensures !Upper(s[i - 1])
    {
      if i < |a| {
        assert s[i] == a[i] && s[i - 1] == a[i - 1];
      } else if i > |a| {
        assert s[i] == b[i - |a|] && s[i - 1] == b[i - |a| - 1];
      } else {
        assert s[i - 1] == a[|a| - 1];
      }
    }
  }

  lemma {:induction false} CleanIndent(st: Style, n: nat)
    requires WriterStyle(st)
    ensures CleanEnds(Indent(st, n))
  {
    if n > 0 {
      CleanIndent(st, n - 1);
      CleanAppend(Indent(st, n - 1), st.unit);
    }
  }

  lemma CleanLine(s: string)
    requires NoNewline(s) && (s != "" ==> !Upper(s[|s| - 1]))
    ensures CleanEnds(s)
  {
    assert forall i :: 0 <= i < |s| ==> s[i] != '\n';
  }

  lemma CleanMemberText(w: string, k: string, w1: string, t: string)
    requires CleanEnds(w) && NoNewline(k) && CleanEnds(w1) && CleanEnds(t)
    ensures CleanEnds(MemberText(w, k, w1, t))
  {
    var q := "\"" + k + "\"";
    CleanLine(q);
    CleanLine(":");
    CleanAppend(":", t);
    CleanAppend(w1, ":" + t);
    CleanAppend(q, w1 + (":" + t));
    CleanAppend(w, q + (w1 + (":" + t)));
    assert q + (w1 + (":" + t)) == "\"" + (k + ("\"" + (w1 + (":" + t))));
  }

  lemma CleanBody(st: Style, n: nat, body: string, open: string, close: string)
    requires WriterStyle(st) && CleanEnds(body) && CleanEnds(open) && CleanEnds(close)
    ensures CleanEnds(open + (st.nl + body + (st.nl + Indent(st, n))) + close)
  {
    CleanIndent(st, n);
    CleanAppend(st.nl, Indent(st, n));
    CleanAppend(st.nl, body);
    CleanAppend(st.nl + body, st.nl + Indent(st, n));
    CleanAppend(open, st.nl + body + (st.nl + Indent(st, n)));
    CleanAppend(open + (st.nl + body + (st.nl + Indent(st, n))), close);
  }

  lemma {:induction false} CleanRender(st: Style, n: nat, v: Json)
    requires WriterStyle(st) && WritableField(v)
    ensures CleanEnds(Render(st, n, v))
    decreases v, 0
  {
    match v
    case Obj(ms) =>
      CleanMembers(st, n + 1, ms, true);
      CleanBody(st, n, RenderMembers(st, n + 1, ms, true), "{", "}");
    case Arr(es) =>
      CleanItems(st, n + 1, es, true);
      CleanBody(st, n, RenderItems(st, n + 1, es, true), "[", "]");
    case _ =>
      ScalarLine(st, n, v);
      CleanLine(Render(st, n, v));
  }

  lemma {:induction false} CleanMembers(st: Style, n: nat, ms: seq<Member>, first: bool)
    requires WriterStyle(st) && WritableMembers(ms)
    ensures CleanEnds(RenderMembers(st, n, ms, first))
    decreases ms, 1
  {
    if ms != [] {
      var m := ms[0];
      CleanIndent(st, n);
      CleanRender(st, n, m.value);
      CleanAppend(st.sp, Render(st, n, m.value));
      PlainKeyLine(m.key);
      var lead := if first then Indent(st, n) else ", ";
      CleanMemberText(lead, m.key, st.sp, st.sp + Render(st, n, m.value));
      CleanMembers(st, n, ms[1..], false);
      CleanAppend(RenderMember(st, n, m, lead), RenderMembers(st, n, ms[1..], false));
    }
  }

  lemma {:induction false} CleanItems(st: Style, n: nat, es: seq<Json>, first: bool)
    requires WriterStyle(st) && WritableItems(es)
    ensures CleanEnds(RenderItems(st, n, es, first))
    decreases es, 1
  {
    if es != [] {
      CleanIndent(st, n);
      CleanRender(st, n, es[0]);
      CleanItems(st, n, es[1..], false);
      var sep := if first then "" else "," + st.nl;
      CleanAppend(",", st.nl);
      CleanAppend(Indent(st, n), Render(st, n, es[0]));
      CleanAppend(sep, Indent(st, n) + Render(st, n, es[0]));
      CleanAppend(sep + (Indent(st, n) + Render(st, n, es[0])), RenderItems(st, n, es[1..], false));
    }
  }

  lemma CleanFinalNewline(t: string)
    requires CleanEnds(t)
    ensures var s := t + "\n"; forall i :: 0 < i < |s| && s[i] == '\n' ==> !Upper(s[i - 1])
  {
    var s := t + "\n";
    forall i | 0 < i < |s| && s[i] == '\n'
      ensures !Upper(s[i - 1])
    {
      assert s[i - 1] == t[i - 1];
      assert i < |t| ==> s[i] == t[i];
    }
  }

  lemma PieceIsNoControlLine(p: string)
    requires IsPiece(p) && (p[|p| - 1] == '\n' && |p| > 1 ==> !Upper(p[|p| - 2]))
    ensures RowPiece(p)
  {
    var line := Trim(p);
    if p[|p| - 1] == '\n' {
      assert line != "" ==> !Upper(line[|line| - 1]);
    } else {
      assert |line| == MAXPIECE;
    }
  }

  /** Wherever the 4095-byte cuts fall, a text with clean line ends contains no control line. */
  lemma {:induction false} CleanEndsSafe(s: string)
    requires forall i :: 0 < i < |s| && s[i] == '\n' ==> !Upper(s[i - 1])
    ensures AllPieces(RowPiece, s)
    decreases |s|
  {
    if CutOne(s).Piece? {
      var p, r := CutOne(s).piece, CutOne(s).rest;
      CutIsPiece(s);
      assert forall i :: 0 <= i < |p| ==> p[i] == s[i];
      assert forall i :: 0 <= i < |r| ==> r[i] == s[|p| + i];
      PieceIsNoControlLine(p);
      CleanEndsSafe(r);
    }
  }
}
