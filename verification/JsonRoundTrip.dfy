/** Driving the writer in tree order produces a text that reads back as the tree. */
module JsonRoundTrip {
  import opened CStrings
  import opened JsonGrammar
  import opened JsonWriter

  // ---- trees the writer can express -----------------------------------------

  /** A key that is copied into the output unescaped reads back as itself. */
  predicate PlainKey(k: string) {
    forall i :: 0 <= i < |k| ==> ' ' <= k[i] && k[i] != '"' && k[i] != '\\'
  }

  predicate Bytes(s: string) {
    forall i :: 0 <= i < |s| ==> s[i] < 256 as char
  }

  /** Containers hold containers; scalars only stand behind keys. */
  predicate Writable(v: Json)
    decreases v, 0
  {
    match v
    case Obj(ms) => WritableMembers(ms)
    case Arr(es) => WritableItems(es)
    case _ => false
  }

  predicate WritableMembers(ms: seq<Member>)
    decreases ms, 1
  {
    ms == [] || (PlainKey(ms[0].key) && WritableField(ms[0].value) && WritableMembers(ms[1..]))
  }

  predicate WritableField(v: Json)
    decreases v, 1
  {
    match v
    case Null => true
    case Num(t) => Numeral(t)
    case Str(s) => Bytes(s)
    case Bool(_) => false
    case _ => Writable(v)
  }

  predicate WritableItems(es: seq<Json>)
    decreases es, 1
  {
    es == [] || (Writable(es[0]) && WritableItems(es[1..]))
  }

  // ---- the calls that write a tree ---------------------------------------------

  function Calls(v: Json): seq<Call>
    decreases v, 0
  {
    match v
    case Obj(ms) => [NewObject] + (MemberCalls(ms) + [EndObject])
    case Arr(es) => [NewArray] + (ItemCalls(es) + [EndArray])
    case _ => []
  }

  function FieldCalls(k: string, v: Json): seq<Call>
    decreases v, 1
  {
    match v
    case Null => [AddNull(k)]
    case Num(t) => [AddNumber(k, t)]
    case Str(s) => [AddString(k, s)]
    case Bool(_) => []
    case _ => [AddKey(k)] + Calls(v)
  }

  function MemberCalls(ms: seq<Member>): seq<Call>
    decreases ms, 1
  {
    if ms == [] then [] else FieldCalls(ms[0].key, ms[0].value) + MemberCalls(ms[1..])
  }

  function ItemCalls(es: seq<Json>): seq<Call>
    decreases es, 1
  {
    if es == [] then [] else Calls(es[0]) + ItemCalls(es[1..])
  }

  // ---- the text they leave behind ------------------------------------------------

  /** White space around the structure: after brackets, around colons, one level of indentation. */
  datatype Style = Style(nl: string, sp: string, unit: string)

  const COMPACT := Style("", "", "")
  const PRETTY := Style("\n", " ", "   ")
  /** Pretty output after every newline was deleted on its way through the connector. */
  const STRIPPED := Style("", " ", "   ")

  predicate BlankStyle(st: Style) {
    Blank(st.nl) && Blank(st.sp) && Blank(st.unit)
  }

  function StyleOf(w: W): Style {
    if w.pretty then PRETTY else COMPACT
  }

  function Indent(st: Style, n: nat): string {
    if n == 0 then "" else Indent(st, n - 1) + st.unit
  }

  function Render(st: Style, n: nat, v: Json): string
    decreases v, 0
  {
    match v
    case Null => "null"
    case Bool(_) => ""
    case Num(t) => t
    case Str(s) => "\"" + Escape(s) + "\""
    case Obj(ms) => "{" + (st.nl + RenderMembers(st, n + 1, ms, true) + (st.nl + Indent(st, n))) + "}"
    case Arr(es) => "[" + (st.nl + RenderItems(st, n + 1, es, true) + (st.nl + Indent(st, n))) + "]"
  }

  function RenderMembers(st: Style, n: nat, ms: seq<Member>, first: bool): string
    decreases ms, 1
  {
    if ms == [] then "" else
      RenderMember(st, n, ms[0], if first then Indent(st, n) else ", ") + RenderMembers(st, n, ms[1..], false)
  }

  function RenderMember(st: Style, n: nat, m: Member, lead: string): string
    decreases m, 0
  {
    MemberText(lead, m.key, st.sp, st.sp + Render(st, n, m.value))
  }

  function RenderItems(st: Style, n: nat, es: seq<Json>, first: bool): string
    decreases es, 1
  {
    if es == [] then "" else
      (if first then "" else "," + st.nl) + (Indent(st, n) + Render(st, n, es[0])) + RenderItems(st, n, es[1..], false)
  }

  // ---- strings and raw keys --------------------------------------------------------

  lemma DecodeHex(c: char, t: string)
    requires c < 256 as char && |EscapeChar(c)| == 6
    ensures ParseString(EscapeChar(c) + t) == Cons(c, ParseString(t))
  {
    var h, l := HexChar(c as int / 16), HexChar(c as int % 16);
    assert EscapeChar(c) == ['\\', 'u', '0', '0', h, l];
    HexPair(c as int / 16, c as int % 16);
    UnicodeReads(EscapeChar(c), c, t);
  }

  lemma HexPair(x: nat, y: nat)
    requires x < 16 && y < 16
    ensures HexDigit('0') == Some(0) && HexDigit(HexChar(x)) == Some(x) && HexDigit(HexChar(y)) == Some(y)
  {
  }

  lemma UnicodeReads(e: string, c: char, t: string)
    requires |e| == 6 && e[0] == '\\' && e[1] == 'u' && HexCode(e[2..6]) == Some(c)
    ensures ParseString(e + t) == Cons(c, ParseString(t))
  {
    var s := e + t;
    assert s[0] == e[0] && s[1] == e[1] && s[2..6] == e[2..6] && s[6..] == t;
  }

  lemma DecodeEscape(c: char, t: string)
    requires c < 256 as char
    ensures ParseString((if Printable(c) then [c] else EscapeChar(c)) + t) == Cons(c, ParseString(t))
  {
    var e := if Printable(c) then [c] else EscapeChar(c);
    var s := e + t;
    if |e| == 1 {
      assert s[1..] == t;
    } else if |e| == 2 {
      assert s[2..] == t && s[0] == e[0] && s[1] == e[1];
    } else {
      DecodeHex(c, t);
    }
  }

  /** Escaping and then reading a string literal is the identity on byte strings. */
  lemma {:induction false} EscapeRoundTrip(s: string)
    requires Bytes(s)
    ensures DenotesString(Escape(s), s)
  {
    forall rest
      ensures ParseString(Escape(s) + ("\"" + rest)) == Ok(s, rest)
    {
      EscapeDecodes(s, rest);
    }
  }

  lemma {:induction false} EscapeDecodes(s: string, rest: string)
    requires Bytes(s)
    ensures ParseString(Escape(s) + ("\"" + rest)) == Ok(s, rest)
  {
    if s == "" {
      assert "" + ("\"" + rest) == "\"" + rest;
      Front("\"", rest);
    } else {
      var e := if Printable(s[0]) then [s[0]] else EscapeChar(s[0]);
      EscapeDecodes(s[1..], rest);
      Assoc(e, Escape(s[1..]), "\"" + rest);
      DecodeEscape(s[0], Escape(s[1..]) + ("\"" + rest));
      assert [s[0]] + s[1..] == s;
    }
  }

  /** Every quote is the second character of an escape. */
  predicate NoBareQuote(t: string)
    decreases |t|
  {
    t == "" || (if t[0] == '\\' then 2 <= |t| && NoBareQuote(t[2..]) else t[0] != '"' && NoBareQuote(t[1..]))
  }

  /** Inside a literal there is no unescaped quote, no control byte and no byte above 0x7f. */
  lemma {:induction false} EscapeIsClean(s: string)
    ensures forall i :: 0 <= i < |Escape(s)| ==> ' ' <= Escape(s)[i] < 0x80 as char
    ensures '\n' !in Escape(s) && NoBareQuote(Escape(s))
  {
    if s != "" {
      EscapeIsClean(s[1..]);
      var e := if Printable(s[0]) then [s[0]] else EscapeChar(s[0]);
      assert forall i :: 0 <= i < |e| ==> ' ' <= e[i] < 0x80 as char;
      EscapedFirst(s[0], Escape(s[1..]));
    }
  }

  lemma EscapedFirst(c: char, t: string)
    requires NoBareQuote(t)
    ensures NoBareQuote((if Printable(c) then [c] else EscapeChar(c)) + t)
  {
    if Printable(c) {
      assert ([c] + t)[1..] == t;
    } else {
      var e := EscapeChar(c);
      Unquoted(e[2..], t);
      assert (e + t)[2..] == e[2..] + t;
    }
  }

  lemma {:induction false} Unquoted(a: string, t: string)
    requires '"' !in a && '\\' !in a && NoBareQuote(t)
    ensures NoBareQuote(a + t)
  {
    if a == "" {
      assert a + t == t;
    } else {
      assert (a + t)[1..] == a[1..] + t;
      Unquoted(a[1..], t);
    }
  }

  lemma {:induction false} DecodedLength(s: string)
    requires ParseString(s).Ok?
    ensures |ParseString(s).value| + 1 + |ParseString(s).rest| <= |s|
    decreases |s|
  {
    if s[0] == '"' {
    } else if s[0] != '\\' {
      DecodedLength(s[1..]);
    } else if SimpleEscape(s[1]).Some? {
      DecodedLength(s[2..]);
    } else {
      DecodedLength(s[6..]);
    }
  }

  /** A raw key between quotes reads back as itself if and only if it needs no escaping. */
  lemma {:induction false} RawKeyIff(k: string, rest: string)
    ensures ParseString(k + ("\"" + rest)) == Ok(k, rest) <==> PlainKey(k)
    decreases |k|
  {
    var s := k + ("\"" + rest);
    if k == "" {
      assert s == "\"" + rest;
      Front("\"", rest);
    } else {
      var tail := k[1..] + ("\"" + rest);
      assert s[0] == k[0] && s[1..] == tail;
      RawKeyIff(k[1..], rest);
      assert PlainKey(k) <==> ' ' <= k[0] && k[0] != '"' && k[0] != '\\' && PlainKey(k[1..]);
      assert k == [k[0]] + k[1..];
      if k[0] == '\\' && ParseString(s).Ok? {
        DecodedShorter(s);
      }
    }
  }

  lemma DecodedShorter(s: string)
    requires s != "" && s[0] == '\\' && ParseString(s).Ok?
    ensures |ParseString(s).value| + 1 + |ParseString(s).rest| < |s|
  {
    if SimpleEscape(s[1]).Some? {
      DecodedLength(s[2..]);
    } else {
      DecodedLength(s[6..]);
    }
  }

  lemma PlainKeyDenotes(k: string)
    requires PlainKey(k)
    ensures DenotesString(k, k)
  {
    forall rest
      ensures ParseString(k + ("\"" + rest)) == Ok(k, rest)
    {
      RawKeyIff(k, rest);
    }
  }

  // ---- the rendered text denotes the tree --------------------------------------------

  lemma {:induction false} IndentBlank(st: Style, n: nat)
    requires BlankStyle(st)
    ensures Blank(Indent(st, n))
  {
    if n > 0 { IndentBlank(st, n - 1); }
  }

  lemma RenderStart(st: Style, n: nat, v: Json)
    requires WritableField(v)
    ensures Render(st, n, v) != "" && !IsWs(Render(st, n, v)[0])
  {
    if v.Num? { NumeralChars(v.text); }
  }

  lemma {:induction false} RenderDenotes(st: Style, n: nat, v: Json)
    requires BlankStyle(st) && WritableField(v)
    ensures Denotes(Render(st, n, v), v)
    decreases v, 0
  {
    IndentBlank(st, n);
    match v
    case Null => DenotesNull();
    case Num(t) => DenotesNum(t);
    case Str(s) =>
      EscapeRoundTrip(s);
      DenotesStr(Escape(s), s);
    case Obj(ms) =>
      if ms == [] {
        DenotesEmptyObject(st.nl + "" + (st.nl + Indent(st, n)));
      } else {
        MembersDenote(st, n + 1, ms, st.nl, st.nl + Indent(st, n));
        DenotesObject(st.nl + RenderMembers(st, n + 1, ms, true) + (st.nl + Indent(st, n)), ms);
      }
    case Arr(es) =>
      if es == [] {
        DenotesEmptyArray(st.nl + "" + (st.nl + Indent(st, n)));
      } else {
        ItemsDenote(st, n + 1, es, st.nl, st.nl + Indent(st, n));
        DenotesArray(st.nl + RenderItems(st, n + 1, es, true) + (st.nl + Indent(st, n)), es);
      }
  }

  /** The member list behind an opening brace, with white space around it. */
  lemma {:induction false} MembersDenote(st: Style, n: nat, ms: seq<Member>, w: string, tail: string)
    requires BlankStyle(st) && WritableMembers(ms) && ms != [] && Blank(w) && Blank(tail)
    ensures DenotesMembers(w + RenderMembers(st, n, ms, true) + tail, ms)
    decreases ms, 2
  {
    IndentBlank(st, n);
    var l := Indent(st, n);
    MembersDenoteFrom(st, n, ms, w + l, tail);
    var m, more := ms[0], RenderMembers(st, n, ms[1..], false);
    LeadMember(st, n, m, w, l);
    assert w + (RenderMember(st, n, m, l) + more) + tail == (w + RenderMember(st, n, m, l)) + more + tail;
  }

  lemma LeadMember(st: Style, n: nat, m: Member, w: string, l: string)
    ensures w + RenderMember(st, n, m, l) == RenderMember(st, n, m, w + l)
  {
  }

  lemma {:induction false} MembersDenoteFrom(st: Style, n: nat, ms: seq<Member>, l: string, tail: string)
    requires BlankStyle(st) && WritableMembers(ms) && ms != [] && Blank(l) && Blank(tail)
    ensures DenotesMembers(RenderMember(st, n, ms[0], l) + RenderMembers(st, n, ms[1..], false) + tail, ms)
    decreases ms, 1
  {
    var m := ms[0];
    var v := Render(st, n, m.value);
    RenderDenotes(st, n, m.value);
    RenderStart(st, n, m.value);
    DenotesBlank(st.sp, v, m.value);
    PlainKeyDenotes(m.key);
    if |ms| == 1 {
      MembersOne(l, m.key, st.sp, st.sp + v, m.value, tail);
      MemberTail(l, m.key, st.sp, st.sp + v, tail);
      assert RenderMember(st, n, m, l) + "" == RenderMember(st, n, m, l);
      assert ms == [Member(m.key, m.value)];
    } else {
      MembersDenoteFrom(st, n, ms[1..], " ", tail);
      var mt := RenderMember(st, n, ms[1], " ") + RenderMembers(st, n, ms[1..][1..], false) + tail;
      MembersCons(l, m.key, st.sp, st.sp + v, m.value, mt, ms[1..]);
      MemberTail(l, m.key, st.sp, st.sp + v, "," + mt);
      CommaLead(st, n, ms[1..], tail);
      assert RenderMember(st, n, m, l) + RenderMembers(st, n, ms[1..], false) + tail == RenderMember(st, n, m, l) + ("," + mt);
      assert ms == [Member(m.key, m.value)] + ms[1..];
    }
  }

  /** A member rendered in any style, in front of a list that denotes further members. */
  lemma FieldCons(st: Style, n: nat, m: Member, l: string, mt: string, ms: seq<Member>)
    requires BlankStyle(st) && PlainKey(m.key) && WritableField(m.value) && Blank(l) && DenotesMembers(mt, ms)
    ensures DenotesMembers(RenderMember(st, n, m, l) + ("," + mt), [m] + ms)
  {
    RenderDenotes(st, n, m.value);
    RenderStart(st, n, m.value);
    DenotesBlank(st.sp, Render(st, n, m.value), m.value);
    PlainKeyDenotes(m.key);
    MembersCons(l, m.key, st.sp, st.sp + Render(st, n, m.value), m.value, mt, ms);
    MemberTail(l, m.key, st.sp, st.sp + Render(st, n, m.value), "," + mt);
  }

  /** A further member is a comma followed by a member with a blank in front. */
  lemma CommaLead(st: Style, n: nat, ms: seq<Member>, tail: string)
    requires ms != []
    ensures RenderMembers(st, n, ms, false) + tail ==
            "," + (RenderMember(st, n, ms[0], " ") + RenderMembers(st, n, ms[1..], false) + tail)
  {
    LeadMember(st, n, ms[0], ",", " ");
    assert "," + " " == ", ";
    var a, b := RenderMember(st, n, ms[0], " "), RenderMembers(st, n, ms[1..], false);
    Assoc(",", a, b);
    Assoc(",", a + b, tail);
  }

  lemma {:induction false} ItemsDenote(st: Style, n: nat, es: seq<Json>, w: string, tail: string)
    requires BlankStyle(st) && WritableItems(es) && es != [] && Blank(w) && Blank(tail)
    ensures DenotesItems(w + RenderItems(st, n, es, true) + tail, es)
    decreases es, 1
  {
    IndentBlank(st, n);
    var i, v := Indent(st, n), Render(st, n, es[0]);
    RenderDenotes(st, n, es[0]);
    RenderStart(st, n, es[0]);
    DenotesBlank(w + i, v, es[0]);
    var t := w + i + v;
    if |es| == 1 {
      ItemsOne(t, es[0], tail);
      FirstItem(w, i, v, "", tail);
      assert es[1..] == [] && es == [es[0]] && "" + tail == tail;
    } else {
      ItemsDenote(st, n, es[1..], st.nl, tail);
      var et := st.nl + RenderItems(st, n, es[1..], true) + tail;
      ItemsCons(t, es[0], et, es[1..]);
      FirstItem(w, i, v, RenderItems(st, n, es[1..], false), tail);
      NextItems(st, n, es[1..], tail);
      assert es == [es[0]] + es[1..];
    }
  }

  lemma FirstItem(w: string, i: string, v: string, more: string, tail: string)
    ensures w + ("" + (i + v) + more) + tail == (w + i + v) + (more + tail)
  {
    assert "" + (i + v) == i + v;
    Assoc(w, i + v, more);
    Assoc(w, i, v);
    Assoc(w + (i + v), more, tail);
  }

  lemma NextItems(st: Style, n: nat, es: seq<Json>, tail: string)
    requires es != []
    ensures RenderItems(st, n, es, false) + tail == "," + (st.nl + RenderItems(st, n, es, true) + tail)
  {
    var x, more := Indent(st, n) + Render(st, n, es[0]), RenderItems(st, n, es[1..], false);
    assert "" + x == x;
    Assoc(",", st.nl, x);
    Assoc("," + st.nl, x, more);
    Assoc(",", st.nl, x + more);
    Assoc(",", st.nl + (x + more), tail);
  }
}
