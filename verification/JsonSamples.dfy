/** The writer's texts to the letter: escapes, separators and white space (src/json.c). */
module JsonSamples {
  import opened CStrings
  import opened JsonWriter

  /** What stands for one byte inside a string. */
  function Written(c: char): string
    requires c < 256 as char
  {
    if c == '"' then "\\\"" else if c == '\\' then "\\\\"
    else if c == '\U{08}' then "\\b" else if c == '\U{0C}' then "\\f"
    else if c == '\n' then "\\n" else if c == '\r' then "\\r" else if c == '\t' then "\\t"
    else if ' ' <= c <= '\U{7F}' then [c]
    else "\\u00" + ["0123456789abcdef"[c as int / 16], "0123456789abcdef"[c as int % 16]]
  }

  lemma HexIs(n: nat)
    requires n < 16
    ensures HexChar(n) == "0123456789abcdef"[n]
  {
  }

  /** Printable bytes are written as they are, seven have a short escape, the others four lower-case hex digits. */
  lemma ByteWritten(c: char)
    requires c < 256 as char
    ensures Escape([c]) == Written(c)
  {
    assert [c][1..] == "" && Escape([c]) == (if Printable(c) then [c] else EscapeChar(c)) + "";
    if !Printable(c) { EscapeWritten(c); }
  }

  lemma EscapeWritten(c: char)
    requires c < 256 as char && !Printable(c)
    ensures EscapeChar(c) == Written(c)
  {
    if c !in "\"\\\U{08}\U{0C}\n\r\t" { HexWritten(c as int); }
  }

  lemma HexWritten(n: nat)
    requires n < 256
    ensures [HexChar(n % 256 / 16), HexChar(n % 16)] == ["0123456789abcdef"[n / 16], "0123456789abcdef"[n % 16]]
  {
    HexIs(n / 16);
    HexIs(n % 16);
  }

  lemma {:induction false} BytesWritten(s: string, t: string)
    ensures Escape(s + t) == Escape(s) + Escape(t)
  {
    if s == "" {
      assert s + t == t;
    } else {
      assert (s + t)[1..] == s[1..] + t;
      BytesWritten(s[1..], t);
      Assoc(if Printable(s[0]) then [s[0]] else EscapeChar(s[0]), Escape(s[1..]), Escape(t));
    }
  }

  // ---- a small text, call by call, compact and pretty ----------------------------------

  function At(text: string, tab: int, stack: seq<Frame>, pending: bool, pretty: bool): W {
    W(text, tab, stack, pending, pretty, false)
  }

  lemma Tabbed()
    ensures Tabs(0) == "" && Tabs(1) == "   " && Tabs(2) == "      " && Tabs(3) == "         "
  {
    assert Tabs(1) == "" + "   " && Tabs(2) == "   " + "   " && Tabs(3) == "      " + "   ";
  }

  lemma ObjectOpened(x: string, p: bool)
    ensures Do(At(x, 0, [], false, p), NewObject) ==
            At(x + (if p then "{\n" else "{"), 1, [Frame(ObjectNode, 0)], false, p)
  {
    Tabbed();
  }

  lemma KeyWritten(x: string, p: bool)
    ensures Do(At(x, 1, [Frame(ObjectNode, 0)], false, p), AddKey("a")) ==
            At(x + (if p then "   \"a\" : " else "\"a\":"), 1, [Frame(ObjectNode, 1)], true, p)
  {
    Tabbed();
  }

  lemma ArrayOpened(x: string, p: bool)
    ensures Do(At(x, 1, [Frame(ObjectNode, 1)], true, p), NewArray) ==
            At(x + (if p then "[\n" else "["), 2, [Frame(ArrayNode, 0), Frame(ObjectNode, 2)], false, p)
  {
    Tabbed();
  }

  lemma ElementOpened(x: string, p: bool)
    ensures Do(At(x, 2, [Frame(ArrayNode, 0), Frame(ObjectNode, 2)], false, p), NewObject) ==
            At(x + (if p then "      {\n" else "{"), 3, [Frame(ObjectNode, 0), Frame(ArrayNode, 1), Frame(ObjectNode, 2)], false, p)
  {
    Tabbed();
  }

  lemma NumberWritten(x: string, p: bool)
    ensures Do(At(x, 3, [Frame(ObjectNode, 0), Frame(ArrayNode, 1), Frame(ObjectNode, 2)], false, p), AddNumber("n", "1")) ==
            At(x + (if p then "         \"n\" : 1" else "\"n\":1"), 3, [Frame(ObjectNode, 1), Frame(ArrayNode, 1), Frame(ObjectNode, 2)], false, p)
  {
    Tabbed();
  }

  lemma StringWritten(x: string, p: bool)
    ensures Do(At(x, 3, [Frame(ObjectNode, 1), Frame(ArrayNode, 1), Frame(ObjectNode, 2)], false, p), AddString("s", "x")) ==
            At(x + (if p then ", \"s\" : \"x\"" else ", \"s\":\"x\""), 3, [Frame(ObjectNode, 2), Frame(ArrayNode, 1), Frame(ObjectNode, 2)], false, p)
  {
    Tabbed();
  }

  lemma NullWritten(x: string, p: bool)
    ensures Do(At(x, 3, [Frame(ObjectNode, 2), Frame(ArrayNode, 1), Frame(ObjectNode, 2)], false, p), AddNull("z")) ==
            At(x + (if p then ", \"z\" : null" else ", \"z\":null"), 3, [Frame(ObjectNode, 3), Frame(ArrayNode, 1), Frame(ObjectNode, 2)], false, p)
  {
    Tabbed();
  }

  lemma ElementClosed(x: string, p: bool)
    ensures Do(At(x, 3, [Frame(ObjectNode, 3), Frame(ArrayNode, 1), Frame(ObjectNode, 2)], false, p), EndObject) ==
            At(x + (if p then "\n      }" else "}"), 2, [Frame(ArrayNode, 1), Frame(ObjectNode, 2)], false, p)
  {
    Tabbed();
  }

  lemma Separated(w: W)
    requires w.tab == 2 && !w.pending && HasItems(w)
    ensures Lead(w) == Emit(w, ",").(text := if w.pretty then w.text + "," + "\n" + "      " else w.text + ",")
  {
    Tabbed();
  }

  lemma NextOpened(x: string, p: bool)
    ensures Do(At(x, 2, [Frame(ArrayNode, 1), Frame(ObjectNode, 2)], false, p), NewObject) ==
            At(x + (if p then ",\n      {\n" else ",{"), 3, [Frame(ObjectNode, 0), Frame(ArrayNode, 2), Frame(ObjectNode, 2)], false, p)
  {
    Tabbed();
    Separated(At(x, 2, [Frame(ArrayNode, 1), Frame(ObjectNode, 2)], false, p));
    assert x + "," + "\n" + "      " + "{" + "\n" == x + ",\n      {\n";
  }

  lemma NextClosed(x: string, p: bool)
    ensures Do(At(x, 3, [Frame(ObjectNode, 0), Frame(ArrayNode, 2), Frame(ObjectNode, 2)], false, p), EndObject) ==
            At(x + (if p then "\n      }" else "}"), 2, [Frame(ArrayNode, 2), Frame(ObjectNode, 2)], false, p)
  {
    Tabbed();
  }

  lemma ArrayClosed(x: string, p: bool)
    ensures Do(At(x, 2, [Frame(ArrayNode, 2), Frame(ObjectNode, 2)], false, p), EndArray) ==
            At(x + (if p then "\n   ]" else "]"), 1, [Frame(ObjectNode, 2)], false, p)
  {
    Tabbed();
  }

  lemma ObjectClosed(x: string, p: bool)
    ensures Do(At(x, 1, [Frame(ObjectNode, 2)], false, p), EndObject) ==
            At(x + (if p then "\n}" else "}"), 0, [], false, p)
  {
    Tabbed();
  }

  /** The whole text, on one line or on seven. */
  lemma SampleText(p: bool)
    ensures
            var w0 := BLANK.(pretty := p);
            var w1 := Do(w0, NewObject);
            var w2 := Do(w1, AddKey("a"));
            var w3 := Do(w2, NewArray);
            var w4 := Do(w3, NewObject);
            var w5 := Do(w4, AddNumber("n", "1"));
            var w6 := Do(w5, AddString("s", "x"));
            var w7 := Do(w6, AddNull("z"));
            var w8 := Do(w7, EndObject);
            var w9 := Do(w8, NewObject);
            var w10 := Do(w9, EndObject);
            var w11 := Do(w10, EndArray);
            var w12 := Do(w11, EndObject);
            w12.text == if p
              then "" + "{\n" + "   \"a\" : " + "[\n" + "      {\n" + "         \"n\" : 1" + ", \"s\" : \"x\"" + ", \"z\" : null" + "\n      }" + ",\n      {\n" + "\n      }" + "\n   ]" + "\n}"
              else "" + "{" + "\"a\":" + "[" + "{" + "\"n\":1" + ", \"s\":\"x\"" + ", \"z\":null" + "}" + ",{" + "}" + "]" + "}"
  {
    var x := "";
    assert BLANK.(pretty := p) == At("", 0, [], false, p);
    ObjectOpened(x, p);
    x := x + if p then "{\n" else "{";
    KeyWritten(x, p);
    x := x + if p then "   \"a\" : " else "\"a\":";
    ArrayOpened(x, p);
    x := x + if p then "[\n" else "[";
    ElementOpened(x, p);
    x := x + if p then "      {\n" else "{";
    NumberWritten(x, p);
    x := x + if p then "         \"n\" : 1" else "\"n\":1";
    StringWritten(x, p);
    x := x + if p then ", \"s\" : \"x\"" else ", \"s\":\"x\"";
    NullWritten(x, p);
    x := x + if p then ", \"z\" : null" else ", \"z\":null";
    ElementClosed(x, p);
    x := x + if p then "\n      }" else "}";
    NextOpened(x, p);
    x := x + if p then ",\n      {\n" else ",{";
    NextClosed(x, p);
    x := x + if p then "\n      }" else "}";
    ArrayClosed(x, p);
    x := x + if p then "\n   ]" else "]";
    ObjectClosed(x, p);
    x := x + if p then "\n}" else "}";
  }
}
