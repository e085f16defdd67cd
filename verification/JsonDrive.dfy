/** The writer's state machine, driven in tree order, leaves the rendered text behind. */
module JsonDrive {
  import opened CStrings
  import opened JsonGrammar
  import opened JsonWriter
  import opened JsonRoundTrip

  // ---- the conditional appends as plain appends -----------------------------

  lemma {:induction false} TabsAreIndent(st: Style, n: nat)
    ensures st == PRETTY ==> Indent(st, n) == Tabs(n)
    ensures st == COMPACT ==> Indent(st, n) == ""
  {
    if n > 0 { TabsAreIndent(st, n - 1); }
  }

  lemma Appends(w: W)
    requires 0 <= w.tab
    ensures NewLine(w) == Emit(w, StyleOf(w).nl)
    ensures Space(w) == Emit(w, StyleOf(w).sp)
    ensures Tab(w) == Emit(w, Indent(StyleOf(w), w.tab))
  {
    EmitNothing(w);
    TabsAreIndent(StyleOf(w), w.tab);
  }

  // ---- keys and fields -----------------------------------------------------------

  /** The white space or comma in front of the next key of an open container. */
  function LeadText(w: W): string
    requires 0 <= w.tab
  {
    if HasItems(w) then ", " else Indent(StyleOf(w), w.tab)
  }

  lemma EmitFive(w: W, a: string, k: string, sp: string)
    ensures Emit(Emit(Emit(Quote(Emit(w, a), k), sp), ":"), sp) == Emit(w, MemberText(a, k, sp, sp))
  {
    var x := Emit(w, a);
    EmitTwice(Emit(Quote(x, k), sp), ":", sp);
    EmitTwice(Quote(x, k), sp, ":" + sp);
    EmitTwice(Emit(Emit(x, "\""), k), "\"", sp + (":" + sp));
    EmitTwice(Emit(x, "\""), k, "\"" + (sp + (":" + sp)));
    EmitTwice(x, "\"", k + ("\"" + (sp + (":" + sp))));
    EmitTwice(w, a, "\"" + (k + ("\"" + (sp + (":" + sp)))));
  }

  lemma KeyEmits(w: W, k: string)
    requires w.stack != [] && !w.pending && 0 <= w.tab
    ensures var st := StyleOf(w);
            Key(w, k) == Emit(w, MemberText(LeadText(w), k, st.sp, st.sp)).(stack := Bump(w.stack), pending := true)
  {
    var st := StyleOf(w);
    Appends(w);
    var w1 := Emit(w, LeadText(w));
    assert KeyLead(w) == w1;
    var w2 := Quote(w1, k);
    Appends(w2);
    var w3 := Emit(Emit(w2, st.sp), ":");
    Appends(w3);
    EmitFive(w, LeadText(w), k, st.sp);
  }

  /** A key outside any container stands alone. */
  lemma KeyAtTop(w: W, k: string)
    requires w.stack == [] && w.tab == 0 && w.text == ""
    ensures Key(w, k) == w.(text := MemberText("", k, StyleOf(w).sp, StyleOf(w).sp), pending := true)
  {
    var st := StyleOf(w);
    EmitNothing(w);
    var w2 := Quote(w, k);
    Appends(w2);
    Appends(Emit(Emit(w2, st.sp), ":"));
    EmitFive(w, "", k, st.sp);
    assert "" + MemberText("", k, st.sp, st.sp) == MemberText("", k, st.sp, st.sp);
  }

  function Grown(stack: seq<Frame>, n: nat): seq<Frame> {
    if stack == [] then [] else [stack[0].(numItems := stack[0].numItems + n)] + stack[1..]
  }

  function FieldWeight(v: Json): nat {
    if v.Obj? || v.Arr? then 2 else 1
  }

  function Weight(ms: seq<Member>): nat {
    if ms == [] then 0 else FieldWeight(ms[0].value) + Weight(ms[1..])
  }

  lemma GrownTwice(stack: seq<Frame>, a: nat, b: nat)
    ensures Grown(Grown(stack, a), b) == Grown(stack, a + b) && Grown(stack, 0) == stack && Bump(stack) == Grown(stack, 1)
  {
  }

  lemma QuoteEmits(w: W, s: string)
    ensures Quote(w, s) == Emit(w, "\"" + s + "\"")
  {
    EmitTwice(w, "\"", s);
    EmitTwice(w, "\"" + s, "\"");
  }

  /** A scalar field: the key, then the value's text. */
  lemma ScalarField(w: W, k: string, v: Json)
    requires w.stack != [] && !w.pending && 0 <= w.tab && (v.Null? || v.Num? || v.Str?)
    ensures Run(w, FieldCalls(k, v)) ==
            Emit(w, RenderMember(StyleOf(w), w.tab, Member(k, v), LeadText(w))).(stack := Bump(w.stack))
  {
    var st := StyleOf(w);
    var c := FieldCalls(k, v)[0];
    assert FieldCalls(k, v) == [c] && Run(w, [c]) == Do(w, c);
    KeyEmits(w, k);
    QuoteEmits(Key(w, k), if v.Str? then Escape(v.s) else "");
    var val := Render(st, w.tab, v);
    EmitTwice(w, MemberText(LeadText(w), k, st.sp, st.sp), val);
    MemberTail(LeadText(w), k, st.sp, st.sp, val);
  }

  // ---- containers -------------------------------------------------------------------

  lemma EmitBody(w: W, open: string, nl: string, m: string, nl2: string, ind: string, close: string)
    ensures Emit(Emit(Emit(Emit(Emit(Emit(w, open), nl), m), nl2), ind), close) ==
            Emit(w, open + (nl + m + (nl2 + ind)) + close)
  {
    var x := Emit(w, open);
    EmitTwice(Emit(Emit(x, nl), m), nl2, ind);
    EmitTwice(x, nl, m);
    EmitTwice(x, nl + m, nl2 + ind);
    EmitTwice(w, open, nl + m + (nl2 + ind));
    EmitTwice(w, open + (nl + m + (nl2 + ind)), close);
  }

  /** Opening, a body that only appends, and closing. */
  lemma ContainerEmits(w: W, kind: Kind, body: string, w2: W)
    requires 0 <= w.tab
    requires w2 == Emit(Open(w, kind), body).(stack := w2.stack) && w2.stack != [] && w2.stack[1..] == Bump(w.stack)
    ensures var st := StyleOf(w);
            Close(w2, kind) ==
            Emit(Lead(w), (if kind.ObjectNode? then "{" else "[") + (st.nl + body + (st.nl + Indent(st, w.tab))) +
                          (if kind.ObjectNode? then "}" else "]")).(stack := Bump(w.stack), pending := false)
  {
    var st := StyleOf(w);
    var open, close := if kind.ObjectNode? then "{" else "[", if kind.ObjectNode? then "}" else "]";
    var l := Lead(w);
    Appends(Emit(l, open));
    assert Open(w, kind).text == Emit(Emit(l, open), st.nl).text;
    var w3 := w2.(tab := w2.tab - 1);
    Appends(w3);
    Appends(NewLine(w3));
    assert Close(w2, kind).text == Emit(Emit(Emit(w3, st.nl), Indent(st, w.tab)), close).text;
    EmitBody(l, open, st.nl, body, st.nl, Indent(st, w.tab), close);
  }

  lemma RunOpenClose(w: W, a: Call, body: seq<Call>, b: Call)
    ensures Run(w, [a] + (body + [b])) == Do(Run(Do(w, a), body), b)
  {
    assert ([a] + (body + [b]))[1..] == body + [b];
    RunAppend(Do(w, a), body, [b]);
    assert [b][1..] == [];
  }

  lemma OpenState(w: W, kind: Kind)
    ensures var w1 := Open(w, kind);
            StyleOf(w1) == StyleOf(w) && w1.tab == w.tab + 1 && !w1.pending && !HasItems(w1) &&
            w1.stack == [Frame(kind, 0)] + Bump(w.stack)
  {
  }

  /** Writing a container in any context appends its rendering behind the proper separator. */
  lemma {:induction false} RunValue(w: W, v: Json)
    requires 0 <= w.tab && Writable(v)
    ensures Run(w, Calls(v)) ==
            Emit(Lead(w), Render(StyleOf(w), w.tab, v)).(stack := Bump(w.stack), pending := false)
    decreases v, 0
  {
    match v
    case Obj(ms) =>
      var w1 := Open(w, ObjectNode);
      OpenState(w, ObjectNode);
      RunOpenClose(w, NewObject, MemberCalls(ms), EndObject);
      RunMembers(w1, ms);
      ContainerEmits(w, ObjectNode, RenderMembers(StyleOf(w), w.tab + 1, ms, true), Run(w1, MemberCalls(ms)));
    case Arr(es) =>
      var w1 := Open(w, ArrayNode);
      OpenState(w, ArrayNode);
      RunOpenClose(w, NewArray, ItemCalls(es), EndArray);
      RunItems(w1, es);
      ContainerEmits(w, ArrayNode, RenderItems(StyleOf(w), w.tab + 1, es, true), Run(w1, ItemCalls(es)));
  }

  lemma {:induction false} RunField(w: W, k: string, v: Json)
    requires w.stack != [] && !w.pending && 0 <= w.tab && WritableField(v)
    ensures Run(w, FieldCalls(k, v)) ==
            Emit(w, RenderMember(StyleOf(w), w.tab, Member(k, v), LeadText(w))).(stack := Grown(w.stack, FieldWeight(v)))
    decreases v, 1
  {
    if v.Obj? || v.Arr? {
      KeyEmits(w, k);
      RunValue(Key(w, k), v);
      ContainerField(w, k, v);
    } else {
      ScalarField(w, k, v);
      GrownTwice(w.stack, 1, 0);
    }
  }

  /** A container field: the key, then the container without a separator of its own. */
  lemma ContainerField(w: W, k: string, v: Json)
    requires w.stack != [] && !w.pending && 0 <= w.tab && (v.Obj? || v.Arr?)
    requires Run(Key(w, k), Calls(v)) ==
             Emit(Key(w, k), Render(StyleOf(w), w.tab, v)).(stack := Bump(Bump(w.stack)), pending := false)
    ensures Run(w, FieldCalls(k, v)) ==
            Emit(w, RenderMember(StyleOf(w), w.tab, Member(k, v), LeadText(w))).(stack := Grown(w.stack, 2))
  {
    var val := Render(StyleOf(w), w.tab, v);
    assert ([AddKey(k)] + Calls(v))[1..] == Calls(v);
    KeyEmits(w, k);
    KeyThenValue(w, k, val);
  }

  lemma KeyThenValue(w: W, k: string, val: string)
    requires w.stack != [] && !w.pending && 0 <= w.tab
    ensures var st := StyleOf(w);
            Emit(Emit(w, MemberText(LeadText(w), k, st.sp, st.sp)), val).(stack := Bump(Bump(w.stack)), pending := false) ==
            Emit(w, MemberText(LeadText(w), k, st.sp, st.sp + val)).(stack := Grown(w.stack, 2))
  {
    var st := StyleOf(w);
    GrownTwice(w.stack, 1, 1);
    GrownTwice(Bump(w.stack), 1, 0);
    EmitTwice(w, MemberText(LeadText(w), k, st.sp, st.sp), val);
    MemberTail(LeadText(w), k, st.sp, st.sp, val);
  }

  lemma {:induction false} RunMembers(w: W, ms: seq<Member>)
    requires w.stack != [] && !w.pending && 0 <= w.tab && WritableMembers(ms)
    ensures Run(w, MemberCalls(ms)) ==
            Emit(w, RenderMembers(StyleOf(w), w.tab, ms, !HasItems(w))).(stack := Grown(w.stack, Weight(ms)))
    decreases ms, 2
  {
    if ms == [] {
      EmitNothing(w);
      GrownTwice(w.stack, 0, 0);
    } else {
      var m, st := ms[0], StyleOf(w);
      RunAppend(w, FieldCalls(m.key, m.value), MemberCalls(ms[1..]));
      RunField(w, m.key, m.value);
      var w1 := Run(w, FieldCalls(m.key, m.value));
      RunMembers(w1, ms[1..]);
      GrownTwice(w.stack, FieldWeight(m.value), Weight(ms[1..]));
      EmitTwice(w, RenderMember(st, w.tab, m, LeadText(w)), RenderMembers(st, w.tab, ms[1..], false));
    }
  }

  lemma {:induction false} RunItems(w: W, es: seq<Json>)
    requires w.stack != [] && !w.pending && 0 <= w.tab && WritableItems(es)
    ensures Run(w, ItemCalls(es)) ==
            Emit(w, RenderItems(StyleOf(w), w.tab, es, !HasItems(w))).(stack := Grown(w.stack, |es|))
    decreases es, 2
  {
    if es == [] {
      EmitNothing(w);
      GrownTwice(w.stack, 0, 0);
    } else {
      var st := StyleOf(w);
      var w1 := Run(w, Calls(es[0]));
      RunAppend(w, Calls(es[0]), ItemCalls(es[1..]));
      RunItem(w, es[0]);
      RunItems(w1, es[1..]);
      GrownTwice(w.stack, 1, |es[1..]|);
      EmitTwice(w, ItemText(w, es[0]), RenderItems(st, w.tab, es[1..], false));
    }
  }

  /** An array element with its separator. */
  function ItemText(w: W, e: Json): string
    requires 0 <= w.tab
  {
    (if HasItems(w) then "," + StyleOf(w).nl else "") + (Indent(StyleOf(w), w.tab) + Render(StyleOf(w), w.tab, e))
  }

  lemma RunItem(w: W, e: Json)
    requires w.stack != [] && !w.pending && 0 <= w.tab && Writable(e)
    ensures Run(w, Calls(e)) == Emit(w, ItemText(w, e)).(stack := Bump(w.stack))
    decreases e, 1
  {
    RunValue(w, e);
    ItemLead(w, Render(StyleOf(w), w.tab, e));
  }

  /** The separator in front of an array element. */
  lemma ItemLead(w: W, val: string)
    requires !w.pending && 0 <= w.tab
    ensures var st := StyleOf(w);
            Emit(Lead(w), val) == Emit(w, (if HasItems(w) then "," + st.nl else "") + (Indent(st, w.tab) + val))
  {
    var st := StyleOf(w);
    var sep := if HasItems(w) then "," + st.nl else "";
    EmitNothing(w);
    Appends(Emit(w, ","));
    EmitTwice(w, ",", st.nl);
    Appends(Emit(w, sep));
    EmitTwice(Emit(w, sep), Indent(st, w.tab), val);
    EmitTwice(w, sep, Indent(st, w.tab) + val);
  }

  // ---- main results -------------------------------------------------------------------

  /** Any run of calls that follows the shape of a tree prints a text that reads back as that tree. */
  lemma WriterRoundTrip(v: Json, pretty: bool)
    requires Writable(v)
    ensures ParseText(Run(BLANK.(pretty := pretty), Calls(v)).text) == Some(v)
  {
    var w := BLANK.(pretty := pretty);
    RunValue(w, v);
    Appends(w);
    EmitNothing(w);
    assert Lead(w) == w;
    assert "" + Render(StyleOf(w), 0, v) == Render(StyleOf(w), 0, v);
    RenderDenotes(StyleOf(w), 0, v);
    TextOf(Render(StyleOf(w), 0, v), v);
  }

  /** Calls that never close more containers than are open. */
  predicate Balanced(calls: seq<Call>, depth: nat)
    decreases |calls|
  {
    calls == [] || ((IsEnd(calls[0]) ==> depth > 0) && Balanced(calls[1..], DepthAfter(calls[0], depth)))
  }

  predicate IsEnd(c: Call) {
    c.EndObject? || c.EndArray?
  }

  function DepthAfter(c: Call, depth: nat): nat {
    if c.NewObject? || c.NewArray? then depth + 1 else if IsEnd(c) && depth > 0 then depth - 1 else depth
  }

  lemma KeyDepth(w: W, k: string)
    ensures |Key(w, k).stack| == |w.stack| && Key(w, k).tab == w.tab
  {
  }

  lemma DoDepth(w: W, c: Call)
    ensures |Do(w, c).stack| == DepthAfter(c, |w.stack|)
    ensures Do(w, c).tab == if IsEnd(c) then w.tab - 1 else if c.NewObject? || c.NewArray? then w.tab + 1 else w.tab
  {
    if c.AddKey? || c.AddNumber? || c.AddString? || c.AddNull? {
      KeyDepth(w, c.key);
    }
  }

  /**
   * The indentation equals the stack depth after any run of calls, whatever it writes, if and only if
   * the run never closes a container that is not open; a deficit is never made up.
   */
  lemma {:induction false} TabIsDepthIff(w: W, calls: seq<Call>)
    requires w.tab <= |w.stack|
    ensures Run(w, calls).tab <= |Run(w, calls).stack|
    ensures Run(w, calls).tab == |Run(w, calls).stack| <==> w.tab == |w.stack| && Balanced(calls, |w.stack|)
    decreases |calls|
  {
    if calls != [] {
      DoDepth(w, calls[0]);
      TabIsDepthIff(Do(w, calls[0]), calls[1..]);
    }
  }
}
