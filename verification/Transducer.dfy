/** A process that reacts to the complete pieces of a byte stream. */
module Transducers {
  import opened Framing

  /** `handle` maps a state and a received piece to the next state and the bytes to reply. */
  datatype Machine<!C> = Machine(handle: (C, string) -> (C, string), open: C -> bool)

  /** The state, the incomplete rest of the input and the replies after consuming some input. */
  datatype Fed<C> = Fed(state: C, left: string, replies: string)

  function Feed<C>(m: Machine<C>, c: C, s: string): Fed<C>
    decreases |s|
  {
    if !m.open(c) then Fed(c, "", "")
    else match CutOne(s)
      case Partial => Fed(c, s, "")
      case Piece(p, r) =>
        var (c', reply) := m.handle(c, p);
        var f := Feed(m, c', r);
        Fed(f.state, f.left, reply + f.replies)
  }

  /** Taking one piece off the input keeps what was sent plus what is still to be replied. */
  lemma FeedStep<C>(m: Machine<C>, c: C, s: string, c': C, reply: string, sent: string)
    requires m.open(c) && CutOne(s).Piece? && m.handle(c, CutOne(s).piece) == (c', reply)
    ensures Feed(m, c, s).state == Feed(m, c', CutOne(s).rest).state
    ensures sent + Feed(m, c, s).replies == (sent + reply) + Feed(m, c', CutOne(s).rest).replies
  {
    var later := Feed(m, c', CutOne(s).rest).replies;
    assert Feed(m, c, s).replies == reply + later;
    assert sent + (reply + later) == (sent + reply) + later;
  }

  /** Input is consumed incrementally: feeding in two parts equals feeding at once. */
  lemma {:induction false} FeedAppend<C>(m: Machine<C>, c: C, s: string, t: string)
    ensures var f := Feed(m, c, s); var g := Feed(m, f.state, f.left + t);
            Feed(m, c, s + t) == Fed(g.state, g.left, f.replies + g.replies)
    decreases |s|
  {
    if m.open(c) {
      match CutOne(s)
      case Partial =>
      case Piece(p, r) =>
        CutStable(s, t);
        var (c', reply) := m.handle(c, p);
        FeedAppend(m, c', r, t);
        var f := Feed(m, c', r);
        var g := Feed(m, f.state, f.left + t);
        assert reply + (f.replies + g.replies) == reply + f.replies + g.replies;
    }
  }

  /** Only a piece that exhausts the input draws a reply. */
  predicate Quiet<C>(m: Machine<C>, c: C, s: string)
    decreases |s|
  {
    m.open(c) && CutOne(s).Piece? ==>
      var (c', reply) := m.handle(c, CutOne(s).piece);
      CutOne(s).rest == "" || (reply == "" && Quiet(m, c', CutOne(s).rest))
  }

  lemma {:induction false} QuietAppend<C>(m: Machine<C>, c: C, s: string, t: string)
    requires Feed(m, c, s).replies == ""
    requires Quiet(m, Feed(m, c, s).state, Feed(m, c, s).left + t)
    ensures Quiet(m, c, s + t)
    decreases |s|
  {
    if m.open(c) {
      match CutOne(s)
      case Partial =>
      case Piece(p, r) =>
        CutStable(s, t);
        var (c', reply) := m.handle(c, p);
        QuietAppend(m, c', r, t);
    }
  }

  /** The process does not end before the input is exhausted. */
  predicate Stays<C>(m: Machine<C>, c: C, s: string)
    decreases |s|
  {
    && m.open(c)
    && (CutOne(s).Piece? && CutOne(s).rest != "" ==>
          Stays(m, m.handle(c, CutOne(s).piece).0, CutOne(s).rest))
  }

  lemma {:induction false} StaysAppend<C>(m: Machine<C>, c: C, s: string, t: string)
    requires m.open(Feed(m, c, s).state)
    requires Stays(m, Feed(m, c, s).state, Feed(m, c, s).left + t)
    ensures Stays(m, c, s + t)
    decreases |s|
  {
    match CutOne(s)
    case Partial =>
    case Piece(p, r) =>
      CutStable(s, t);
      StaysAppend(m, m.handle(c, p).0, r, t);
  }
}
