/** A JSON reader written from RFC 8259, independent of the writer. */
module JsonGrammar {
  import opened CStrings

  datatype Json =
    | Null
    | Bool(b: bool)
    | Num(text: string)
    | Str(s: string)
    | Arr(items: seq<Json>)
    | Obj(members: seq<Member>)

  datatype Member = Member(key: string, value: Json)

  datatype Parse<+T> = Fail | Ok(value: T, rest: string)

  // ---- white space (section 2) -------------------------------------------

  predicate IsWs(c: char) {
    c == ' ' || c == '\n' || c == '\r' || c == '\t'
  }

  predicate Blank(s: string) {
    forall i :: 0 <= i < |s| ==> IsWs(s[i])
  }

  function SkipWs(s: string): (r: string)
    ensures |r| <= |s|
  {
    if s != "" && IsWs(s[0]) then SkipWs(s[1..]) else s
  }

  // ---- numbers (section 6) -----------------------------------------------

  function DigitRun(s: string): (n: nat)
    ensures n <= |s|
  {
    if s != "" && IsDigit(s[0]) then 1 + DigitRun(s[1..]) else 0
  }

  predicate Exponent(s: string) {
    s == "" ||
    ((s[0] == 'e' || s[0] == 'E') &&
     var t := if |s| > 1 && (s[1] == '+' || s[1] == '-') then s[2..] else s[1..];
     t != "" && DigitRun(t) == |t|)
  }

  predicate Fraction(s: string) {
    if s != "" && s[0] == '.' then
      var n := DigitRun(s[1..]); 1 <= n && Exponent(s[1 + n..])
    else Exponent(s)
  }

  /** `number = [ minus ] int [ frac ] [ exp ]`. */
  predicate Numeral(s: string) {
    var t := if s != "" && s[0] == '-' then s[1..] else s;
    var n := DigitRun(t);
    1 <= n && (t[0] == '0' ==> n == 1) && Fraction(t[n..])
  }

  predicate NumChar(c: char) {
    IsDigit(c) || c == '-' || c == '+' || c == '.' || c == 'e' || c == 'E'
  }

  function NumRun(s: string): (n: nat)
    ensures n <= |s|
  {
    if s != "" && NumChar(s[0]) then 1 + NumRun(s[1..]) else 0
  }

  // ---- strings (section 7) -----------------------------------------------

  function HexDigit(c: char): Option<nat> {
    if '0' <= c <= '9' then Some(c as int - '0' as int)
    else if 'a' <= c <= 'f' then Some(c as int - 'a' as int + 10)
    else if 'A' <= c <= 'F' then Some(c as int - 'A' as int + 10)
    else None
  }

  /** Four hex digits; a surrogate half is not a character of its own. */
  function HexCode(s: string): Option<char>
    requires 4 <= |s|
  {
    var a, b, c, d := HexDigit(s[0]), HexDigit(s[1]), HexDigit(s[2]), HexDigit(s[3]);
    if a.None? || b.None? || c.None? || d.None? then None
    else
      var code := 4096 * a.value + 256 * b.value + 16 * c.value + d.value;
      if 0xD800 <= code < 0xE000 || 0x1_0000 <= code then None else Some(code as char)
  }

  function SimpleEscape(c: char): Option<char> {
    if c == '"' || c == '\\' || c == '/' then Some(c)
    else if c == 'b' then Some('\U{08}')
    else if c == 'f' then Some('\U{0C}')
    else if c == 'n' then Some('\n')
    else if c == 'r' then Some('\r')
    else if c == 't' then Some('\t')
    else None
  }

  /** Reads string characters up to and including the closing quote. */
  function ParseString(s: string): (p: Parse<string>)
    ensures p.Ok? ==> |p.rest| < |s|
  {
    if s == "" || s[0] < ' ' then Fail
    else if s[0] == '"' then Ok("", s[1..])
    else if s[0] == '\\' then
      if |s| >= 2 && SimpleEscape(s[1]).Some? then Cons(SimpleEscape(s[1]).value, ParseString(s[2..]))
      else if |s| >= 6 && s[1] == 'u' && HexCode(s[2..6]).Some? then Cons(HexCode(s[2..6]).value, ParseString(s[6..]))
      else Fail
    else Cons(s[0], ParseString(s[1..]))
  }

  function Cons(c: char, p: Parse<string>): Parse<string> {
    if p.Ok? then Ok([c] + p.value, p.rest) else Fail
  }

  // ---- values (sections 3, 4 and 5) ----------------------------------------

  predicate Starts(s: string, c: char) {
    s != "" && s[0] == c
  }

  function ParseValue(s: string): (p: Parse<Json>)
    ensures p.Ok? ==> |p.rest| < |s|
    decreases |s|, 1
  {
    var t := SkipWs(s);
    if t == "" then Fail
    else if t[0] == '{' then
      if Starts(SkipWs(t[1..]), '}') then Ok(Obj([]), SkipWs(t[1..])[1..])
      else match ParseMembers(t[1..])
        case Fail => Fail
        case Ok(ms, r) => Ok(Obj(ms), r)
    else if t[0] == '[' then
      if Starts(SkipWs(t[1..]), ']') then Ok(Arr([]), SkipWs(t[1..])[1..])
      else match ParseItems(t[1..])
        case Fail => Fail
        case Ok(es, r) => Ok(Arr(es), r)
    else if t[0] == '"' then
      match ParseString(t[1..])
      case Fail => Fail
      case Ok(x, r) => Ok(Str(x), r)
    else if HasPrefix(t, "null") then Ok(Null, t[4..])
    else if HasPrefix(t, "true") then Ok(Bool(true), t[4..])
    else if HasPrefix(t, "false") then Ok(Bool(false), t[5..])
    else if Numeral(t[..NumRun(t)]) then Ok(Num(t[..NumRun(t)]), t[NumRun(t)..])
    else Fail
  }

  /** One or more members and the closing brace. */
  function ParseMembers(s: string): (p: Parse<seq<Member>>)
    ensures p.Ok? ==> |p.rest| < |s|
    decreases |s|, 3
  {
    var t := SkipWs(s);
    if !Starts(t, '"') then Fail else
    var k := ParseString(t[1..]);
    if k.Fail? || !Starts(SkipWs(k.rest), ':') then Fail else
    MemberValue(k.value, SkipWs(k.rest)[1..])
  }

  /** The value of a member, then the closing brace or more members. */
  function MemberValue(key: string, s: string): (p: Parse<seq<Member>>)
    ensures p.Ok? ==> |p.rest| < |s|
    decreases |s|, 2
  {
    var v := ParseValue(s);
    if v.Fail? then Fail else
    var r := SkipWs(v.rest);
    if Starts(r, '}') then Ok([Member(key, v.value)], r[1..])
    else if !Starts(r, ',') then Fail
    else
      var ms := ParseMembers(r[1..]);
      if ms.Fail? then Fail else Ok([Member(key, v.value)] + ms.value, ms.rest)
  }

  /** One or more array elements and the closing bracket. */
  function ParseItems(s: string): (p: Parse<seq<Json>>)
    ensures p.Ok? ==> |p.rest| < |s|
    decreases |s|, 2
  {
    var v := ParseValue(s);
    if v.Fail? then Fail else
    var r := SkipWs(v.rest);
    if Starts(r, ']') then Ok([v.value], r[1..])
    else if !Starts(r, ',') then Fail
    else
      var es := ParseItems(r[1..]);
      if es.Fail? then Fail else Ok([v.value] + es.value, es.rest)
  }

  /** A JSON text: one value with white space around it. */
  function ParseText(s: string): Option<Json> {
    match ParseValue(s)
    case Fail => None
    case Ok(v, r) => if SkipWs(r) == "" then Some(v) else None
  }

  // ---- texts that denote a value wherever they stand -----------------------

  /** A text after which a number cannot go on. */
  predicate Boundary(rest: string) {
    rest == "" || !NumChar(rest[0])
  }

  ghost predicate Denotes(t: string, v: Json) {
    forall rest :: Boundary(rest) ==> ParseValue(t + rest) == Ok(v, rest)
  }

  /** A member list up to its closing brace. */
  ghost predicate DenotesMembers(t: string, ms: seq<Member>) {
    forall rest :: ParseMembers(t + ("}" + rest)) == Ok(ms, rest)
  }

  /** An element list up to its closing bracket. */
  ghost predicate DenotesItems(t: string, es: seq<Json>) {
    forall rest :: ParseItems(t + ("]" + rest)) == Ok(es, rest)
  }

  /** The inside of a string literal, up to its closing quote. */
  ghost predicate DenotesString(body: string, s: string) {
    forall rest :: ParseString(body + ("\"" + rest)) == Ok(s, rest)
  }

  lemma {:induction false} SkipBlank(w: string, t: string)
    requires Blank(w) && (t == "" || !IsWs(t[0]))
    ensures SkipWs(w + t) == t
  {
    if w == "" {
      assert w + t == t;
    } else {
      assert (w + t)[1..] == w[1..] + t;
      SkipBlank(w[1..], t);
    }
  }

  lemma Front(c: string, t: string)
    requires |c| == 1
    ensures (c + t)[0] == c[0] && (c + t)[1..] == t
  {
  }

  lemma TextOf(t: string, v: Json)
    requires Denotes(t, v)
    ensures ParseText(t) == Some(v)
  {
    assert t + "" == t && Boundary("");
  }

  lemma ParseBlank(w: string, t: string)
    requires Blank(w) && t != "" && !IsWs(t[0])
    ensures ParseValue(w + t) == ParseValue(t)
  {
    SkipBlank(w, t);
    SkipBlank("", t);
    assert "" + t == t;
  }

  lemma DenotesBlank(w: string, t: string, v: Json)
    requires Blank(w) && Denotes(t, v) && t != "" && !IsWs(t[0])
    ensures Denotes(w + t, v)
  {
    forall rest | Boundary(rest)
      ensures ParseValue(w + t + rest) == Ok(v, rest)
    {
      Assoc(w, t, rest);
      var u := t + rest;
      assert u != "" && u[0] == t[0];
      ParseBlank(w, u);
    }
  }

  lemma DenotesStr(body: string, s: string)
    requires DenotesString(body, s)
    ensures Denotes("\"" + body + "\"", Str(s))
  {
    forall rest | Boundary(rest)
      ensures ParseValue("\"" + body + "\"" + rest) == Ok(Str(s), rest)
    {
      Wrap("\"", body, "\"", rest);
      QuotedValue(body + ("\"" + rest));
    }
  }

  lemma QuotedValue(t: string)
    ensures ParseValue("\"" + t) == var p := ParseString(t); if p.Ok? then Ok(Str(p.value), p.rest) else Fail
  {
    Front("\"", t);
    SkipBlank("", "\"" + t);
    assert "" + ("\"" + t) == "\"" + t;
  }

  lemma DenotesNull()
    ensures Denotes("null", Null)
  {
    forall rest | Boundary(rest)
      ensures ParseValue("null" + rest) == Ok(Null, rest)
    {
      var t := "null" + rest;
      assert t[0] == 'n' && SkipWs(t) == t && t[..4] == "null" && t[4..] == rest;
    }
  }

  lemma {:induction false} NumRunAll(s: string, rest: string)
    requires Boundary(rest) && forall i :: 0 <= i < |s| ==> NumChar(s[i])
    ensures NumRun(s + rest) == |s|
  {
    if s == "" {
      assert s + rest == rest;
    } else {
      assert (s + rest)[1..] == s[1..] + rest;
      NumRunAll(s[1..], rest);
    }
  }

  lemma DigitsAreNumChars(s: string)
    ensures forall i :: 0 <= i < DigitRun(s) ==> IsDigit(s[i])
  {
  }

  lemma ExponentChars(s: string)
    requires Exponent(s)
    ensures forall i :: 0 <= i < |s| ==> NumChar(s[i])
    ensures s != "" ==> IsDigit(s[|s| - 1])
  {
    if s != "" {
      var t := if |s| > 1 && (s[1] == '+' || s[1] == '-') then s[2..] else s[1..];
      DigitsAreNumChars(t);
      assert forall i :: |s| - |t| <= i < |s| ==> s[i] == t[i - (|s| - |t|)];
    }
  }

  lemma FractionChars(s: string)
    requires Fraction(s)
    ensures forall i :: 0 <= i < |s| ==> NumChar(s[i])
    ensures s != "" ==> IsDigit(s[|s| - 1])
  {
    if s != "" && s[0] == '.' {
      var n := DigitRun(s[1..]);
      DigitsAreNumChars(s[1..]);
      ExponentChars(s[1 + n..]);
      assert forall i :: 1 <= i < 1 + n ==> s[i] == s[1..][i - 1];
      assert forall i :: 1 + n <= i < |s| ==> s[i] == s[1 + n..][i - (1 + n)];
    } else {
      ExponentChars(s);
    }
  }

  /** A numeral consists of number characters, starts with a digit or minus, and ends with a digit. */
  lemma NumeralChars(s: string)
    requires Numeral(s)
    ensures s != "" && (IsDigit(s[0]) || s[0] == '-') && IsDigit(s[|s| - 1])
    ensures forall i :: 0 <= i < |s| ==> NumChar(s[i])
  {
    var t := if s != "" && s[0] == '-' then s[1..] else s;
    UnsignedChars(t);
    assert forall i :: |s| - |t| <= i < |s| ==> s[i] == t[i - (|s| - |t|)];
  }

  lemma UnsignedChars(t: string)
    requires DigitRun(t) > 0 && Fraction(t[DigitRun(t)..])
    ensures t != "" && IsDigit(t[0]) && IsDigit(t[|t| - 1])
    ensures forall i :: 0 <= i < |t| ==> NumChar(t[i])
  {
    var n := DigitRun(t);
    DigitsAreNumChars(t);
    FractionChars(t[n..]);
    DigitsThenFraction(t, n);
  }

  lemma DigitsThenFraction(t: string, n: nat)
    requires 0 < n <= |t| && forall i :: 0 <= i < n ==> IsDigit(t[i])
    requires var f := t[n..]; (f != "" ==> IsDigit(f[|f| - 1])) && forall i :: 0 <= i < |f| ==> NumChar(f[i])
    ensures IsDigit(t[0]) && IsDigit(t[|t| - 1])
    ensures forall i :: 0 <= i < |t| ==> NumChar(t[i])
  {
    var f := t[n..];
    forall i | 0 <= i < |t| ensures NumChar(t[i]) {
      if n <= i { assert t[i] == f[i - n]; }
    }
    if f != "" { assert t[|t| - 1] == f[|f| - 1]; }
  }

  lemma DenotesNum(text: string)
    requires Numeral(text)
    ensures Denotes(text, Num(text))
  {
    NumeralChars(text);
    forall rest | Boundary(rest)
      ensures ParseValue(text + rest) == Ok(Num(text), rest)
    {
      NumRunAll(text, rest);
      NumberValue(text, rest);
    }
  }

  lemma NumberValue(text: string, rest: string)
    requires Numeral(text) && text != "" && (IsDigit(text[0]) || text[0] == '-') && NumRun(text + rest) == |text|
    ensures ParseValue(text + rest) == Ok(Num(text), rest)
  {
    var t := text + rest;
    assert t[0] == text[0] && SkipWs(t) == t;
    assert t[..|text|] == text && t[|text|..] == rest;
  }

  // ---- objects and arrays ----------------------------------------------------

  function MemberText(w: string, k: string, w1: string, t: string): string {
    w + ("\"" + (k + ("\"" + (w1 + (":" + t)))))
  }

  lemma Regroup(a: string, b: string, c: string, d: string)
    ensures a + (b + c) + d == a + (b + (c + d))
  {
    assert b + c + d == b + (c + d);
  }

  lemma MemberTail(w: string, k: string, w1: string, t: string, tail: string)
    ensures MemberText(w, k, w1, t) + tail == MemberText(w, k, w1, t + tail)
  {
    assert ":" + t + tail == ":" + (t + tail);
    assert w1 + (":" + t) + tail == w1 + (":" + (t + tail));
    assert "\"" + (w1 + (":" + t)) + tail == "\"" + (w1 + (":" + (t + tail)));
    assert k + ("\"" + (w1 + (":" + t))) + tail == k + ("\"" + (w1 + (":" + (t + tail))));
  }

  lemma ParseKey(w: string, k: string, w1: string, t: string)
    requires Blank(w) && Blank(w1) && DenotesString(k, k)
    ensures ParseMembers(MemberText(w, k, w1, t)) == MemberValue(k, t)
  {
    var c := ":" + t;
    var b := k + ("\"" + (w1 + c));
    SkipBlank(w, "\"" + b);
    Front("\"", b);
    SkipBlank(w1, c);
    Front(":", t);
  }

  lemma MemberLast(k: string, vt: string, v: Json, w: string, rest: string)
    requires Denotes(vt, v) && Blank(w)
    ensures MemberValue(k, vt + (w + ("}" + rest))) == Ok([Member(k, v)], rest)
  {
    var tail := w + ("}" + rest);
    assert Boundary(tail);
    assert ParseValue(vt + tail) == Ok(v, tail);
    SkipBlank(w, "}" + rest);
    Front("}", rest);
  }

  lemma MemberMore(k: string, vt: string, v: Json, mt: string, ms: seq<Member>, rest: string)
    requires Denotes(vt, v) && DenotesMembers(mt, ms)
    ensures MemberValue(k, vt + ("," + (mt + ("}" + rest)))) == Ok([Member(k, v)] + ms, rest)
  {
    var tail := "," + (mt + ("}" + rest));
    assert Boundary(tail);
    assert ParseValue(vt + tail) == Ok(v, tail);
    SkipBlank("", tail);
    assert "" + tail == tail;
    Front(",", mt + ("}" + rest));
  }

  /** The last member of an object, with white space before the brace. */
  lemma MembersOne(w: string, k: string, w1: string, vt: string, v: Json, w2: string)
    requires Blank(w) && Blank(w1) && Blank(w2) && DenotesString(k, k) && Denotes(vt, v)
    ensures DenotesMembers(MemberText(w, k, w1, vt + w2), [Member(k, v)])
  {
    forall rest
      ensures ParseMembers(MemberText(w, k, w1, vt + w2) + ("}" + rest)) == Ok([Member(k, v)], rest)
    {
      MemberTail(w, k, w1, vt + w2, "}" + rest);
      Assoc(vt, w2, "}" + rest);
      ParseKey(w, k, w1, vt + (w2 + ("}" + rest)));
      MemberLast(k, vt, v, w2, rest);
    }
  }

  /** A member in front of further members. */
  lemma MembersCons(w: string, k: string, w1: string, vt: string, v: Json, mt: string, ms: seq<Member>)
    requires Blank(w) && Blank(w1) && DenotesString(k, k) && Denotes(vt, v) && DenotesMembers(mt, ms)
    ensures DenotesMembers(MemberText(w, k, w1, vt + ("," + mt)), [Member(k, v)] + ms)
  {
    forall rest
      ensures ParseMembers(MemberText(w, k, w1, vt + ("," + mt)) + ("}" + rest)) == Ok([Member(k, v)] + ms, rest)
    {
      MemberTail(w, k, w1, vt + ("," + mt), "}" + rest);
      Regroup(vt, ",", mt, "}" + rest);
      ParseKey(w, k, w1, vt + ("," + (mt + ("}" + rest))));
      MemberMore(k, vt, v, mt, ms, rest);
    }
  }

  /** The members behind a first one that is read as meant decide the rest. */
  lemma SecondMembers(w: string, k: string, w1: string, vt: string, v: Json, mt: string)
    requires Blank(w) && Blank(w1) && DenotesString(k, k) && Denotes(vt, v)
    ensures var p := ParseMembers(MemberText(w, k, w1, vt + ("," + mt)));
            && (p.Ok? <==> ParseMembers(mt).Ok?)
            && (p.Ok? ==> p.value == [Member(k, v)] + ParseMembers(mt).value)
  {
    var tail := "," + mt;
    ParseKey(w, k, w1, vt + tail);
    assert Boundary(tail);
    assert ParseValue(vt + tail) == Ok(v, tail);
    SkipBlank("", tail);
    assert "" + tail == tail;
    Front(",", mt);
  }

  lemma Wrap(a: string, m: string, b: string, rest: string)
    ensures a + m + b + rest == a + (m + (b + rest))
  {
    assert a + m + b == a + (m + b);
    assert m + b + rest == m + (b + rest);
  }

  lemma ParseObject(t: string)
    requires ParseMembers(t).Ok?
    ensures ParseValue("{" + t) == Ok(Obj(ParseMembers(t).value), ParseMembers(t).rest)
  {
    assert SkipWs("{" + t) == "{" + t;
    Front("{", t);
  }

  lemma ParseArray(t: string)
    requires ParseItems(t).Ok?
    ensures ParseValue("[" + t) == Ok(Arr(ParseItems(t).value), ParseItems(t).rest)
  {
    assert SkipWs("[" + t) == "[" + t;
    Front("[", t);
  }

  lemma DenotesObject(mt: string, ms: seq<Member>)
    requires DenotesMembers(mt, ms)
    ensures Denotes("{" + mt + "}", Obj(ms))
  {
    forall rest | Boundary(rest)
      ensures ParseValue("{" + mt + "}" + rest) == Ok(Obj(ms), rest)
    {
      Wrap("{", mt, "}", rest);
      ParseObject(mt + ("}" + rest));
    }
  }

  lemma DenotesEmptyObject(w: string)
    requires Blank(w)
    ensures Denotes("{" + w + "}", Obj([]))
  {
    forall rest | Boundary(rest)
      ensures ParseValue("{" + w + "}" + rest) == Ok(Obj([]), rest)
    {
      var t := w + ("}" + rest);
      assert "{" + w + "}" + rest == "{" + t;
      Front("{", t);
      Front("}", rest);
      SkipBlank("", "{" + t);
      SkipBlank(w, "}" + rest);
      assert "" + ("{" + t) == "{" + t;
    }
  }

  lemma ItemsOne(vt: string, v: Json, w: string)
    requires Denotes(vt, v) && Blank(w)
    ensures DenotesItems(vt + w, [v])
  {
    forall rest
      ensures ParseItems(vt + w + ("]" + rest)) == Ok([v], rest)
    {
      var tail := w + ("]" + rest);
      Assoc(vt, w, "]" + rest);
      assert Boundary(tail);
      SkipBlank(w, "]" + rest);
      Front("]", rest);
    }
  }

  lemma ItemsCons(vt: string, v: Json, et: string, es: seq<Json>)
    requires Denotes(vt, v) && DenotesItems(et, es)
    ensures DenotesItems(vt + ("," + et), [v] + es)
  {
    forall rest
      ensures ParseItems(vt + ("," + et) + ("]" + rest)) == Ok([v] + es, rest)
    {
      var tail := "," + (et + ("]" + rest));
      Regroup(vt, ",", et, "]" + rest);
      assert Boundary(tail);
      assert ParseValue(vt + tail) == Ok(v, tail);
      SkipBlank("", tail);
      assert "" + tail == tail;
      Front(",", et + ("]" + rest));
    }
  }

  lemma DenotesArray(et: string, es: seq<Json>)
    requires DenotesItems(et, es)
    ensures Denotes("[" + et + "]", Arr(es))
  {
    forall rest | Boundary(rest)
      ensures ParseValue("[" + et + "]" + rest) == Ok(Arr(es), rest)
    {
      Wrap("[", et, "]", rest);
      ParseArray(et + ("]" + rest));
    }
  }

  lemma DenotesEmptyArray(w: string)
    requires Blank(w)
    ensures Denotes("[" + w + "]", Arr([]))
  {
    forall rest | Boundary(rest)
      ensures ParseValue("[" + w + "]" + rest) == Ok(Arr([]), rest)
    {
      var t := w + ("]" + rest);
      assert "[" + w + "]" + rest == "[" + t;
      Front("[", t);
      Front("]", rest);
      SkipBlank("", "[" + t);
      SkipBlank(w, "]" + rest);
      assert "" + ("[" + t) == "[" + t;
    }
  }
}
