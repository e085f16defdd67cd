/**
 * The streaming JSON writer (src/json.c).
 *
 * W is its state as a value and Do what each call makes of it; the class Writer does the same on
 * fields and a rope.
 */
module JsonWriter {
  import opened CStrings
  import opened StringBufs

  datatype Kind = ArrayNode | ObjectNode
  datatype Frame = Frame(kind: Kind, numItems: nat)

  /** The writer as a value: `stack[0]` is the innermost open container. */
  datatype W = W(text: string, tab: int, stack: seq<Frame>, pending: bool, pretty: bool, csv: bool)

  datatype Call =
    | NewObject
    | EndObject
    | NewArray
    | EndArray
    | AddKey(key: string)
    | AddNumber(key: string, number: string)
    | AddString(key: string, value: string)
    | AddNull(key: string)
    | AddJson(raw: string)

  const BLANK := W("", 0, [], false, false, false)

  // ---- what each call does ------------------------------------------------

  function Emit(w: W, s: string): W {
    w.(text := w.text + s)
  }

  function NewLine(w: W): W {
    if w.pretty then Emit(w, "\n") else w
  }

  function Space(w: W): W {
    if w.pretty then Emit(w, " ") else w
  }

  function Tabs(n: int): string
    decreases if n < 0 then 0 else n
  {
    if n <= 0 then "" else Tabs(n - 1) + "   "
  }

  /** json_tab. */
  function Tab(w: W): W {
    if w.pretty then Emit(w, Tabs(w.tab)) else w
  }

  function Bump(stack: seq<Frame>): seq<Frame> {
    if stack == [] then [] else [stack[0].(numItems := stack[0].numItems + 1)] + stack[1..]
  }

  predicate HasItems(w: W) {
    w.stack != [] && w.stack[0].numItems > 0
  }

  /** What stands in front of a container. */
  function Lead(w: W): W {
    if w.pending then w else Tab(if HasItems(w) then NewLine(Emit(w, ",")) else w)
  }

  function Bracket(w: W, kind: Kind): W {
    NewLine(Emit(w, if kind.ObjectNode? then "{" else "[")).(
      tab := w.tab + 1, stack := [Frame(kind, 0)] + Bump(w.stack), pending := false)
  }

  function Open(w: W, kind: Kind): W {
    Bracket(Lead(w), kind)
  }

  function Close(w: W, kind: Kind): W {
    var w1 := Tab(NewLine(w.(tab := w.tab - 1)));
    Emit(w1, if kind.ObjectNode? then "}" else "]").(stack := if w.stack == [] then [] else w.stack[1..])
  }

  /** What stands in front of a key. */
  function KeyLead(w: W): W {
    if w.stack == [] || (HasItems(w) && w.pending) then w else if HasItems(w) then Emit(w, ", ") else Tab(w)
  }

  /** `"text"`. */
  function Quote(w: W, text: string): W {
    Emit(Emit(Emit(w, "\""), text), "\"")
  }

  function Key(w: W, key: string): W {
    Space(Emit(Space(Quote(KeyLead(w), key)), ":")).(stack := Bump(w.stack), pending := true)
  }

  function Do(w: W, c: Call): W {
    match c
    case NewObject => Open(w, ObjectNode)
    case NewArray => Open(w, ArrayNode)
    case EndObject => Close(w, ObjectNode)
    case EndArray => Close(w, ArrayNode)
    case AddKey(k) => Key(w, k)
    case AddNumber(k, n) => Emit(Key(w, k), n).(pending := false)
    case AddNull(k) => Emit(Key(w, k), "null").(pending := false)
    case AddString(k, v) => Quote(Key(w, k), Escape(v)).(pending := false)
    case AddJson(raw) => Emit(w, raw)
  }

  function Run(w: W, calls: seq<Call>): W
    decreases |calls|
  {
    if calls == [] then w else Run(Do(w, calls[0]), calls[1..])
  }

  lemma {:induction false} RunAppend(w: W, a: seq<Call>, b: seq<Call>)
    ensures Run(w, a + b) == Run(Run(w, a), b)
    decreases |a|
  {
    if a == [] {
      assert a + b == b;
    } else {
      assert (a + b)[1..] == a[1..] + b;
      RunAppend(Do(w, a[0]), a[1..], b);
    }
  }

  // ---- escaping --------------------------------------------------------------

  /** is_printable on a signed `char`: bytes from 0x80 on are negative. */
  predicate Printable(c: char) {
    ' ' <= c < 0x80 as char && c != '"' && c != '\\'
  }

  function HexChar(n: nat): char
    requires n < 16
  {
    if n < 10 then '0' + n as char else 'a' + (n - 10) as char
  }

  /** append_nonprintable. */
  function EscapeChar(c: char): string {
    if c == '"' then "\\\""
    else if c == '\\' then "\\\\"
    else if c == '\U{08}' then "\\b"
    else if c == '\U{0C}' then "\\f"
    else if c == '\n' then "\\n"
    else if c == '\r' then "\\r"
    else if c == '\t' then "\\t"
    else "\\u00" + [HexChar(c as int % 256 / 16), HexChar(c as int % 16)]
  }

  function Escape(s: string): string {
    if s == "" then ""
    else (if Printable(s[0]) then [s[0]] else EscapeChar(s[0])) + Escape(s[1..])
  }

  lemma {:induction false} EscapeSnoc(s: string, c: char)
    ensures Escape(s + [c]) == Escape(s) + if Printable(c) then [c] else EscapeChar(c)
  {
    if s == "" {
      assert (s + [c])[1..] == "";
      assert Escape(s + [c]) == (if Printable(c) then [c] else EscapeChar(c)) + "";
    } else {
      assert (s + [c])[1..] == s[1..] + [c];
      EscapeSnoc(s[1..], c);
      Assoc(if Printable(s[0]) then [s[0]] else EscapeChar(s[0]), Escape(s[1..]), if Printable(c) then [c] else EscapeChar(c));
    }
  }

  /** What has been appended, and the segment behind it, are the escaped text so far. */
  ghost predicate EscapedTo(done: string, value: string, first: nat, s: nat) {
    first <= s <= |value| && done + value[first..s] == Escape(value[..s])
  }

  lemma EscapedNone(value: string)
    ensures EscapedTo("", value, 0, 0)
  {
    assert value[..0] == "" && value[0..0] == "";
  }

  lemma EscapedAll(done: string, value: string, first: nat)
    requires EscapedTo(done, value, first, |value|)
    ensures done + value[first..] == Escape(value)
  {
    assert value[..|value|] == value && value[first..|value|] == value[first..];
  }

  /** A printable byte only makes the pending segment longer. */
  lemma EscapeSkip(done: string, value: string, first: nat, s: nat)
    requires s < |value| && EscapedTo(done, value, first, s) && Printable(value[s])
    ensures EscapedTo(done, value, first, s + 1)
  {
    var c := value[s];
    assert value[..s + 1] == value[..s] + [c];
    EscapeSnoc(value[..s], c);
    assert value[first..s + 1] == value[first..s] + [c];
    Assoc(done, value[first..s], [c]);
  }

  /** Any other byte ends the segment and is escaped. */
  lemma EscapeCut(w: W, done: string, value: string, first: nat, s: nat, piece: string)
    requires first <= s < |value| && done + value[first..s] == Escape(value[..s]) && !Printable(value[s])
    requires piece == value[first..s] + EscapeChar(value[s])
    ensures Emit(Emit(w, done), piece) == Emit(w, done + piece)
    ensures done + piece + value[s + 1..s + 1] == Escape(value[..s + 1])
  {
    var c := value[s];
    assert value[..s + 1] == value[..s] + [c];
    EscapeSnoc(value[..s], c);
    Assoc(done, value[first..s], EscapeChar(c));
    Assoc(w.text, done, piece);
    assert done + piece + "" == done + piece;
  }

  lemma EmitTwice(w: W, a: string, b: string)
    ensures Emit(Emit(w, a), b) == Emit(w, a + b)
  {
    Assoc(w.text, a, b);
  }

  lemma EmitNothing(w: W)
    ensures Emit(w, "") == w
  {
    assert w.text + "" == w.text;
  }

  // ---- the writer object -----------------------------------------------------

  class Writer {
    const sb: StringBuf
    var tabLevel: int
    var stack: seq<Frame>
    var pending: bool
    const prettyPrint: bool
    const csv: bool
    ghost var Repr: set<object>

    ghost predicate Valid()
      reads this, Repr
      ensures Valid() ==> this in Repr
    {
      this in Repr && sb in Repr && sb.Repr <= Repr && this !in sb.Repr && sb.Valid()
    }

    ghost function State(): W
      requires Valid()
      reads this, Repr
    {
      W(sb.Text(), tabLevel, stack, pending, prettyPrint, csv)
    }

    /** json_new, json_pretty_print and json_set_mode. */
    constructor (pretty: bool, csv: bool)
      ensures Valid() && fresh(Repr)
      ensures State() == BLANK.(pretty := pretty, csv := csv)
      ensures prettyPrint == pretty && this.csv == csv
    {
      sb := new StringBuf();
      tabLevel, stack, pending, prettyPrint, this.csv := 0, [], false, pretty, csv;
      new;
      Repr := {this} + sb.Repr;
    }

    /** sb_append on the writer's own rope; json_add_json. */
    method Append(s: string)
      requires Valid()
      modifies Repr
      ensures Valid() && fresh(Repr - old(Repr))
      ensures State() == Emit(old(State()), s)
    {
      sb.Append(s);
      Repr := Repr + sb.Repr;
    }

    method NewLineIfPretty()
      requires Valid()
      modifies Repr
      ensures Valid() && fresh(Repr - old(Repr))
      ensures State() == NewLine(old(State()))
    {
      if prettyPrint { Append("\n"); }
    }

    /** json_tab. */
    method TabIfPretty()
      requires Valid()
      modifies Repr
      ensures Valid() && fresh(Repr - old(Repr))
      ensures State() == Tab(old(State()))
    {
      if !prettyPrint { return; }
      var i := 0;
      EmitNothing(State());
      while i < tabLevel
        invariant Valid() && fresh(Repr - old(Repr))
        invariant 0 <= i && (i <= tabLevel || i == 0)
        invariant State() == Emit(old(State()), Tabs(i))
      {
        Append("   ");
        i := i + 1;
        EmitTwice(old(State()), Tabs(i - 1), "   ");
      }
      assert Tabs(i) == Tabs(tabLevel);
    }

    /** The part of json_new_object and json_new_array in front of the bracket. */
    method OpenLead()
      requires Valid()
      modifies Repr
      ensures Valid() && fresh(Repr - old(Repr))
      ensures State() == Lead(old(State()))
    {
      if !pending {
        if stack != [] && stack[0].numItems > 0 {
          Append(",");
          NewLineIfPretty();
        }
        TabIfPretty();
      }
    }

    /** The bracket, and the container it opens. */
    method OpenBracket(kind: Kind)
      requires Valid()
      modifies Repr
      ensures Valid() && fresh(Repr - old(Repr))
      ensures State() == Bracket(old(State()), kind)
    {
      Append(if kind.ObjectNode? then "{" else "[");
      NewLineIfPretty();
      tabLevel := tabLevel + 1;
      stack := [Frame(kind, 0)] + Bump(stack);
      pending := false;
    }

    /** json_new_object and json_new_array. */
    method OpenContainer(kind: Kind)
      requires Valid()
      modifies Repr
      ensures Valid() && fresh(Repr - old(Repr))
      ensures State() == Open(old(State()), kind)
    {
      OpenLead();
      OpenBracket(kind);
    }

    /** json_end_object and json_end_array. */
    method CloseContainer(kind: Kind)
      requires Valid()
      modifies Repr
      ensures Valid() && fresh(Repr - old(Repr))
      ensures State() == Close(old(State()), kind)
    {
      tabLevel := tabLevel - 1;
      NewLineIfPretty();
      TabIfPretty();
      Append(if kind.ObjectNode? then "}" else "]");
      if stack != [] { stack := stack[1..]; }
    }

    /** The part of json_add_key in front of the key. */
    method WriteKeyLead()
      requires Valid()
      modifies Repr
      ensures Valid() && fresh(Repr - old(Repr))
      ensures State() == KeyLead(old(State())).(stack := Bump(old(stack)))
    {
      if stack != [] {
        if stack[0].numItems > 0 {
          if !pending { Append(", "); }
        } else {
          TabIfPretty();
        }
        stack := Bump(stack);
      }
    }

    method WriteQuoted(text: string)
      requires Valid()
      modifies Repr
      ensures Valid() && fresh(Repr - old(Repr))
      ensures State() == Quote(old(State()), text)
    {
      Append("\"");
      Append(text);
      Append("\"");
    }

    method SpaceIfPretty()
      requires Valid()
      modifies Repr
      ensures Valid() && fresh(Repr - old(Repr))
      ensures State() == Space(old(State()))
    {
      if prettyPrint { Append(" "); }
    }

    /** json_add_key. */
    method WriteKey(key: string)
      requires Valid()
      modifies Repr
      ensures Valid() && fresh(Repr - old(Repr))
      ensures State() == Key(old(State()), key)
    {
      WriteKeyLead();
      WriteQuoted(key);
      WriteColon();
      pending := true;
    }

    method WriteColon()
      requires Valid()
      modifies Repr
      ensures Valid() && fresh(Repr - old(Repr))
      ensures State() == Space(Emit(Space(old(State())), ":"))
    {
      SpaceIfPretty();
      Append(":");
      SpaceIfPretty();
    }

    /** json_add_number. */
    method WriteNumber(key: string, number: string)
      requires Valid()
      modifies Repr
      ensures Valid() && fresh(Repr - old(Repr))
      ensures State() == Do(old(State()), AddNumber(key, number))
    {
      WriteKey(key);
      Append(number);
      pending := false;
    }

    /** json_add_null. */
    method WriteNull(key: string)
      requires Valid()
      modifies Repr
      ensures Valid() && fresh(Repr - old(Repr))
      ensures State() == Do(old(State()), AddNull(key))
    {
      WriteKey(key);
      Append("null");
      pending := false;
    }

    /** Cuts the copy at a byte that needs escaping and appends the segment and the escape. */
    method CutSegment(tmp: array<char>, first: nat, s: nat)
      requires Valid() && tmp !in Repr && first <= s < tmp.Length
      modifies Repr, tmp
      ensures Valid() && fresh(Repr - old(Repr))
      ensures State() == Emit(old(State()), old(tmp[first..s]) + EscapeChar(old(tmp[s])))
      ensures forall i :: 0 <= i < tmp.Length && i != s ==> tmp[i] == old(tmp[i])
    {
      var c := tmp[s];
      tmp[s] := NUL;
      var segment := tmp[first..s];
      assert segment == old(tmp[first..s]);
      Append(segment);
      Append(EscapeChar(c));
      EmitTwice(old(State()), segment, EscapeChar(c));
    }

    /** CutSegment at a byte of the value, with what has been written so far. */
    method CutAt(tmp: array<char>, first: nat, s: nat, ghost w0: W, ghost done: string, ghost value: string) returns (ghost more: string)
      requires Valid() && tmp !in Repr && first <= s < |value| < tmp.Length
      requires forall i :: first <= i < |value| ==> tmp[i] == value[i]
      requires State() == Emit(w0, done) && EscapedTo(done, value, first, s) && !Printable(value[s])
      modifies Repr, tmp
      ensures Valid() && fresh(Repr - old(Repr)) && tmp !in Repr
      ensures State() == Emit(w0, more) && EscapedTo(more, value, s + 1, s + 1)
      ensures forall i :: s + 1 <= i < |value| ==> tmp[i] == value[i]
    {
      ghost var piece := tmp[first..s] + EscapeChar(tmp[s]);
      assert tmp[first..s] == value[first..s];
      CutSegment(tmp, first, s);
      EscapeCut(w0, done, value, first, s, piece);
      more := done + piece;
    }

    /**
     * The segment loop of json_add_string on a private copy of the value: each byte that needs
     * escaping is overwritten by NUL so that the segment before it can be appended as a C string.
     */
    method EscapeInPlace(tmp: array<char>, ghost value: string)
      requires Valid() && tmp !in Repr
      requires tmp.Length == |value| + 1 && tmp[..|value|] == value
      modifies Repr, tmp
      ensures Valid() && fresh(Repr - old(Repr))
      ensures State() == Emit(old(State()), Escape(value))
    {
      var n := tmp.Length - 1;
      var s, first := 0, 0;
      ghost var w0, done := State(), "";
      EmitNothing(w0);
      EscapedNone(value);
      while s < n
        invariant Valid() && fresh(Repr - old(Repr))
        invariant 0 <= first <= s <= n
        invariant forall i :: first <= i < n ==> tmp[i] == value[i]
        invariant State() == Emit(w0, done)
        invariant EscapedTo(done, value, first, s)
      {
        if Printable(tmp[s]) {
          EscapeSkip(done, value, first, s);
        } else {
          done := CutAt(tmp, first, s, w0, done, value);
          first := s + 1;
        }
        s := s + 1;
      }
      EscapedAll(done, value, first);
      assert tmp[first..n] == value[first..];
      AppendRest(tmp, first, n, w0, done, value);
    }

    /** The last segment. */
    method AppendRest(tmp: array<char>, first: nat, n: nat, ghost w0: W, ghost done: string, ghost value: string)
      requires Valid() && tmp !in Repr && first <= n <= tmp.Length
      requires State() == Emit(w0, done) && done + tmp[first..n] == Escape(value)
      modifies Repr
      ensures Valid() && fresh(Repr - old(Repr))
      ensures State() == Emit(w0, Escape(value))
    {
      EmitTwice(w0, done, tmp[first..n]);
      Append(tmp[first..n]);
    }

    method AppendEscaped(value: string)
      requires Valid()
      modifies Repr
      ensures Valid() && fresh(Repr - old(Repr))
      ensures State() == Emit(old(State()), Escape(value))
    {
      var tmp := new char[|value| + 1](i => if 0 <= i < |value| then value[i] else NUL);
      assert tmp[..|value|] == value;
      EscapeInPlace(tmp, value);
    }

    method AppendLiteral(value: string)
      requires Valid()
      modifies Repr
      ensures Valid() && fresh(Repr - old(Repr))
      ensures State() == Quote(old(State()), Escape(value))
    {
      Append("\"");
      AppendEscaped(value);
      Append("\"");
    }

    /** json_add_string. */
    method WriteString(key: string, value: string)
      requires Valid() && NulFree(value)
      modifies Repr
      ensures Valid() && fresh(Repr - old(Repr))
      ensures State() == Do(old(State()), AddString(key, value))
    {
      WriteKey(key);
      AppendLiteral(value);
      pending := false;
    }

    /** json_to_string. */
    method ToText() returns (text: string)
      requires Valid()
      ensures text == State().text
    {
      var out := sb.ToChars();
      text := out[..out.Length - 1];
    }
  }
}
