/** A worker and a connector joined by two bounded byte channels, under every schedule. */
module Sessions {
  import opened CStrings
  import opened Framing
  import opened Transducers
  import opened Clients

  // Every interleaving of the two processes and every way of splitting the bytes into `send` and
  // `recv` calls is a sequence of actions.  The worker's instruction list is arbitrary here; Script.dfy
  // instantiates it with the real script.

  /**
   * `sending` is what the worker still has to send, `must` whether failing to do so is fatal,
   * `unread` its input buffer together with the piece under construction; `inbox` and `outbox`
   * are the same for the connector; `up` and `down` are the bytes inside the channels.
   */
  datatype Sys<C> = Sys(
    client: Client, sending: string, must: bool, unread: string,
    up: string, down: string,
    conn: C, inbox: string, outbox: string)

  datatype Action =
    | Begin
    | Push(n: nat)
    | LoseSend
    | TakeReply(n: nat)
    | Deliver
    | SeeEnd
    | ConnTake(n: nat)
    | ConnHandle
    | ConnPush(n: nat)

  predicate Awaiting<C>(s: Sys<C>) {
    s.sending == "" && Receiving(s.client) && CutOne(s.unread).Partial?
  }

  predicate Enabled<C>(m: Machine<C>, cap: nat, s: Sys<C>, a: Action) {
    match a
    case Begin => s.sending == "" && s.client.prog != [] && !Receiving(s.client)
    case Push(n) => 1 <= n <= |s.sending| && |s.up| + n <= cap
    case LoseSend => s.sending != "" && !m.open(s.conn) && s.outbox == ""
    case TakeReply(n) => Awaiting(s) && 1 <= n <= |s.down| && n <= MAXPIECE
    case Deliver => s.sending == "" && Receiving(s.client) && CutOne(s.unread).Piece?
    case SeeEnd => Awaiting(s) && s.down == "" && s.outbox == "" && !m.open(s.conn)
    case ConnTake(n) =>
      s.outbox == "" && m.open(s.conn) && CutOne(s.inbox).Partial? && 1 <= n <= |s.up| && n <= MAXPIECE
    case ConnHandle => s.outbox == "" && m.open(s.conn) && CutOne(s.inbox).Piece?
    case ConnPush(n) => 1 <= n <= |s.outbox| && |s.down| + n <= cap
  }

  function Next<C>(m: Machine<C>, cap: nat, s: Sys<C>, a: Action): Sys<C>
    requires Enabled(m, cap, s, a)
  {
    match a
    case Begin =>
      var cl := s.client.(prog := s.client.prog[1..]);
      if s.client.prog[0].Fresh? then s.(client := cl, unread := "")
      else s.(client := cl, sending := s.client.prog[0].text, must := s.client.prog[0].must)
    case Push(n) => s.(sending := s.sending[n..], up := s.up + s.sending[..n])
    case LoseSend => s.(client := AfterLost(s.client, s.must), sending := "")
    case TakeReply(n) => s.(unread := s.unread + s.down[..n], down := s.down[n..])
    case Deliver => s.(client := AfterPiece(s.client, CutOne(s.unread).piece), unread := CutOne(s.unread).rest)
    case SeeEnd => s.(client := AfterEnd(s.client), unread := "")
    case ConnTake(n) => s.(inbox := s.inbox + s.up[..n], up := s.up[n..])
    case ConnHandle =>
      var (c', reply) := m.handle(s.conn, CutOne(s.inbox).piece);
      s.(conn := c', inbox := CutOne(s.inbox).rest, outbox := reply)
    case ConnPush(n) => s.(outbox := s.outbox[n..], down := s.down + s.outbox[..n])
  }

  // ---- the schedule-free meaning of a session ----------------------------

  /** `left` is the connector's incomplete line, `unread` what the worker was sent and never read. */
  datatype Outcome<C> = Outcome(pid: int, got: Collector, conn: C, left: string, unread: string)

  /**
   * What a session amounts to when the connector always keeps up: `left` is the connector's
   * incomplete line, `replies` what the worker has not read.  `None` marks a script that is not
   * disciplined: it sends or drops its buffer while a reply is outstanding, lets the connector
   * answer in the middle of a send, or waits for a reply that will never come.
   */
  function Predict<C>(m: Machine<C>, cl: Client, c: C, left: string, replies: string): Option<Outcome<C>>
    decreases |cl.prog|, |replies|
  {
    if cl.prog == [] then Some(Outcome(cl.pid, cl.got, c, left, replies))
    else match cl.prog[0]
      case Fresh =>
        if replies != "" then None else Predict(m, cl.(prog := cl.prog[1..]), c, left, "")
      case Send(text, must) =>
        var f := Feed(m, c, left + text);
        if replies != "" || !Quiet(m, c, left + text) || (must && !Stays(m, c, left + text)) then None
        else Predict(m, cl.(prog := cl.prog[1..]), f.state, f.left, f.replies)
      case _ =>
        match CutOne(replies)
        case Piece(p, r) => Predict(m, AfterPiece(cl, p), c, left, r)
        case Partial =>
          if replies != "" || m.open(c) then None else Predict(m, AfterEnd(cl), c, left, "")
  }

  /** Bytes on their way to the connector, and on their way back. */
  function Upward<C>(s: Sys<C>): string {
    s.inbox + s.up + s.sending
  }

  function Downward<C>(s: Sys<C>): string {
    s.unread + s.down + s.outbox
  }

  /** The outcome a state is heading for. */
  function Predicted<C>(m: Machine<C>, s: Sys<C>): Option<Outcome<C>> {
    var f := Feed(m, s.conn, Upward(s));
    Predict(m, s.client, f.state, f.left, Downward(s) + f.replies)
  }

  /** The protocol is half-duplex, and the connector only answers complete requests. */
  predicate HalfDuplex<C>(m: Machine<C>, s: Sys<C>) {
    && (Upward(s) == "" || Downward(s) == "")
    && Quiet(m, s.conn, Upward(s))
    && (s.sending != "" && s.must ==> Stays(m, s.conn, Upward(s)))
  }

  ghost predicate OnCourse<C>(m: Machine<C>, s: Sys<C>, o: Outcome<C>) {
    HalfDuplex(m, s) && Predicted(m, s) == Some(o)
  }

  // ---- every action stays on course --------------------------------------

  lemma BeginOnCourse<C>(m: Machine<C>, cap: nat, s: Sys<C>, o: Outcome<C>)
    requires OnCourse(m, s, o) && Enabled(m, cap, s, Begin)
    ensures OnCourse(m, Next(m, cap, s, Begin), o)
    ensures s.client.prog[0].Fresh? ==> Downward(s) == ""
  {
    var f := Feed(m, s.conn, Upward(s));
    assert Downward(s) == "" && f.replies == "";
    match s.client.prog[0]
    case Fresh =>
    case Send(text, must) =>
      var s' := Next(m, cap, s, Begin);
      assert Upward(s') == Upward(s) + text;
      FeedAppend(m, s.conn, Upward(s), text);
      QuietAppend(m, s.conn, Upward(s), text);
      if must { StaysAppend(m, s.conn, Upward(s), text); }
      var g := Feed(m, f.state, f.left + text);
      assert "" + g.replies == g.replies;
      assert Downward(s') == "";
  }

  lemma ShiftFirst(a: string, b: string, c: string, n: nat)
    requires n <= |b|
    ensures (a + b[..n]) + b[n..] + c == a + b + c
  {
    assert (a + b[..n]) + b[n..] == a + b;
  }

  lemma ShiftLast(a: string, b: string, c: string, n: nat)
    requires n <= |c|
    ensures a + (b + c[..n]) + c[n..] == a + b + c
  {
    assert c == c[..n] + c[n..];
    assert a + (b + c[..n]) + c[n..] == a + b + (c[..n] + c[n..]);
  }

  /** Moving bytes along a channel changes neither direction's contents. */
  lemma MoveKeepsBytes<C>(m: Machine<C>, cap: nat, s: Sys<C>, a: Action)
    requires Enabled(m, cap, s, a)
    requires a.Push? || a.TakeReply? || a.ConnTake? || a.ConnPush?
    ensures Upward(Next(m, cap, s, a)) == Upward(s)
    ensures Downward(Next(m, cap, s, a)) == Downward(s)
  {
    match a
    case Push(n) => ShiftLast(s.inbox, s.up, s.sending, n);
    case TakeReply(n) => ShiftFirst(s.unread, s.down, s.outbox, n);
    case ConnTake(n) => ShiftFirst(s.inbox, s.up, s.sending, n);
    case ConnPush(n) => ShiftLast(s.unread, s.down, s.outbox, n);
  }

  lemma MoveOnCourse<C>(m: Machine<C>, cap: nat, s: Sys<C>, a: Action, o: Outcome<C>)
    requires OnCourse(m, s, o) && Enabled(m, cap, s, a)
    requires a.Push? || a.TakeReply? || a.ConnTake? || a.ConnPush?
    ensures OnCourse(m, Next(m, cap, s, a), o)
  {
    MoveKeepsBytes(m, cap, s, a);
  }

  lemma DeliverOnCourse<C>(m: Machine<C>, cap: nat, s: Sys<C>, o: Outcome<C>)
    requires OnCourse(m, s, o) && Enabled(m, cap, s, Deliver)
    ensures OnCourse(m, Next(m, cap, s, Deliver), o)
  {
    var s' := Next(m, cap, s, Deliver);
    var f := Feed(m, s.conn, Upward(s));
    var later := s.down + s.outbox + f.replies;
    var cut := CutOne(s.unread);
    Around(s.unread, s.down, s.outbox, f.replies);
    Around(cut.rest, s.down, s.outbox, f.replies);
    CutStable(s.unread, later);
    DeliverPredicts(m, s, cut.piece, cut.rest, later);
    assert Upward(s') == Upward(s) == "" && s'.conn == s.conn;
  }

  lemma Around(a: string, b: string, c: string, d: string)
    ensures a + b + c + d == a + (b + c + d)
  {
  }

  lemma DeliverPredicts<C>(m: Machine<C>, s: Sys<C>, piece: string, rest: string, later: string)
    requires Receiving(s.client) && CutOne(s.unread + later) == Piece(piece, rest + later)
    ensures forall c, left :: Predict(m, s.client, c, left, s.unread + later) ==
                              Predict(m, AfterPiece(s.client, piece), c, left, rest + later)
  {
  }

  lemma ConnHandleOnCourse<C>(m: Machine<C>, cap: nat, s: Sys<C>, o: Outcome<C>)
    requires OnCourse(m, s, o) && Enabled(m, cap, s, ConnHandle)
    ensures OnCourse(m, Next(m, cap, s, ConnHandle), o)
  {
    var s' := Next(m, cap, s, ConnHandle);
    var later := s.up + s.sending;
    Assoc(s.inbox, s.up, s.sending);
    Assoc(CutOne(s.inbox).rest, s.up, s.sending);
    CutStable(s.inbox, later);
    assert Upward(s) != "" && Downward(s) == "";
    var (c', reply) := m.handle(s.conn, CutOne(s.inbox).piece);
    assert Downward(s') == reply;
    var f := Feed(m, c', Upward(s'));
    assert Downward(s) + (reply + f.replies) == reply + f.replies;
  }

  lemma EndOnCourse<C>(m: Machine<C>, cap: nat, s: Sys<C>, a: Action, o: Outcome<C>)
    requires OnCourse(m, s, o) && Enabled(m, cap, s, a)
    requires a.SeeEnd? || a.LoseSend?
    ensures OnCourse(m, Next(m, cap, s, a), o)
  {
    assert Feed(m, s.conn, Upward(s)) == Fed(s.conn, "", "");
    if a.SeeEnd? {
      assert Downward(s) + "" == s.unread;
    }
    assert Downward(Next(m, cap, s, a)) == Downward(s);
  }

  /** Whatever happens next, the session keeps heading for the same outcome. */
  lemma StepOnCourse<C>(m: Machine<C>, cap: nat, s: Sys<C>, a: Action, o: Outcome<C>)
    requires OnCourse(m, s, o) && Enabled(m, cap, s, a)
    ensures OnCourse(m, Next(m, cap, s, a), o)
  {
    match a
    case Begin => BeginOnCourse(m, cap, s, o);
    case Deliver => DeliverOnCourse(m, cap, s, o);
    case ConnHandle => ConnHandleOnCourse(m, cap, s, o);
    case SeeEnd => EndOnCourse(m, cap, s, a, o);
    case LoseSend => EndOnCourse(m, cap, s, a, o);
    case _ => MoveOnCourse(m, cap, s, a, o);
  }

  // ---- progress and termination --------------------------------------------

  ghost predicate Stuck<C>(m: Machine<C>, cap: nat, s: Sys<C>) {
    forall a :: !Enabled(m, cap, s, a)
  }

  /** An action that is enabled whenever the worker is not finished: the two sides never wait for each other. */
  function SomeAction<C>(m: Machine<C>, s: Sys<C>): Action {
    if s.outbox != "" && s.down == "" then ConnPush(1)
    else if s.sending == "" && s.client.prog != [] && !Receiving(s.client) then Begin
    else if s.sending == "" && Receiving(s.client) && CutOne(s.unread).Piece? then Deliver
    else if Awaiting(s) && s.down != "" then TakeReply(1)
    else if m.open(s.conn) && CutOne(s.inbox).Piece? then ConnHandle
    else if m.open(s.conn) && s.up != "" then ConnTake(1)
    else if s.sending != "" then (if m.open(s.conn) || s.up == "" then Push(1) else LoseSend)
    else SeeEnd
  }

  lemma NoDeadlock<C>(m: Machine<C>, cap: nat, s: Sys<C>, o: Outcome<C>)
    requires OnCourse(m, s, o) && 1 <= cap
    requires s.client.prog != [] || s.sending != ""
    ensures Enabled(m, cap, s, SomeAction(m, s))
  {
    if s.outbox == "" && Awaiting(s) && s.down == "" && m.open(s.conn) && CutOne(s.inbox).Partial? && s.up == "" {
      WaitsForever(m, s);
    }
  }

  /** No outcome is predicted for a worker whose reply never comes. */
  lemma WaitsForever<C>(m: Machine<C>, s: Sys<C>)
    requires s.outbox == "" && Awaiting(s) && s.down == "" && m.open(s.conn) && CutOne(s.inbox).Partial? && s.up == ""
    ensures Predicted(m, s).None?
  {
    assert Upward(s) == s.inbox && Downward(s) == s.unread;
    assert Feed(m, s.conn, Upward(s)) == Fed(s.conn, s.inbox, "");
    assert Downward(s) + "" == s.unread;
  }

  /** A session in which nothing can happen any more has ended with the predicted outcome. */
  lemma StuckIsDone<C>(m: Machine<C>, cap: nat, s: Sys<C>, o: Outcome<C>)
    requires OnCourse(m, s, o) && 1 <= cap && Stuck(m, cap, s)
    ensures s.client.prog == [] && s.sending == ""
    ensures o == Outcome(s.client.pid, s.client.got, s.conn, o.left, Downward(s))
  {
    if s.client.prog != [] || s.sending != "" {
      NoDeadlock(m, cap, s, o);
      assert false;
    }
    assert !Enabled(m, cap, s, ConnHandle) && !Enabled(m, cap, s, ConnTake(1));
    assert Upward(s) == s.inbox + s.up;
    if s.outbox == "" && m.open(s.conn) {
      assert Upward(s) == s.inbox;
    }
  }

  /** Every action uses something up: instructions first, then bytes in the order they travel. */
  predicate Smaller<C>(x: Sys<C>, y: Sys<C>) {
    |x.client.prog| < |y.client.prog| || (|x.client.prog| == |y.client.prog| && (
    |x.sending| < |y.sending| || (|x.sending| == |y.sending| && (
    |x.up| < |y.up| || (|x.up| == |y.up| && (
    |x.inbox| < |y.inbox| || (|x.inbox| == |y.inbox| && (
    |x.outbox| < |y.outbox| || (|x.outbox| == |y.outbox| && (
    |x.down| < |y.down| || (|x.down| == |y.down| &&
    |x.unread| < |y.unread|)))))))))))
  }

  lemma StepShrinks<C>(m: Machine<C>, cap: nat, s: Sys<C>, a: Action)
    requires Enabled(m, cap, s, a)
    ensures Smaller(Next(m, cap, s, a), s)
  {
  }

  /** A scheduler that, as long as anything can happen, picks something that can. */
  ghost predicate Scheduler<C(!new)>(m: Machine<C>, cap: nat, sched: (nat, Sys<C>) -> Action) {
    forall i, x :: Stuck(m, cap, x) || Enabled(m, cap, x, sched(i, x))
  }

  /**
   * Runs the session to its end under an arbitrary scheduler, which may look at the whole state
   * and at the number of steps taken.  That this function terminates means that no schedule
   * keeps a session going forever.
   */
  ghost function RunUnder<C(!new)>(m: Machine<C>, cap: nat, sched: (nat, Sys<C>) -> Action, t: nat, s: Sys<C>): (end: Sys<C>)
    requires Scheduler(m, cap, sched)
    ensures Stuck(m, cap, end)
    decreases |s.client.prog|, |s.sending|, |s.up|, |s.inbox|, |s.outbox|, |s.down|, |s.unread|
  {
    if Stuck(m, cap, s) then s
    else
      StepShrinks(m, cap, s, sched(t, s));
      RunUnder(m, cap, sched, t + 1, Next(m, cap, s, sched(t, s)))
  }

  /** Safety and liveness together: under every scheduler the session ends, with the predicted outcome. */
  lemma {:induction false} EveryScheduleEnds<C(!new)>(
    m: Machine<C>, cap: nat, sched: (nat, Sys<C>) -> Action, t: nat, s: Sys<C>, o: Outcome<C>)
    requires Scheduler(m, cap, sched)
    requires OnCourse(m, s, o) && 1 <= cap
    ensures var end := RunUnder(m, cap, sched, t, s);
            && end.client.prog == [] && end.sending == ""
            && o == Outcome(end.client.pid, end.client.got, end.conn, o.left, Downward(end))
    decreases |s.client.prog|, |s.sending|, |s.up|, |s.inbox|, |s.outbox|, |s.down|, |s.unread|
  {
    if Stuck(m, cap, s) {
      StuckIsDone(m, cap, s, o);
    } else {
      var a := sched(t, s);
      StepOnCourse(m, cap, s, a, o);
      StepShrinks(m, cap, s, a);
      EveryScheduleEnds(m, cap, sched, t + 1, Next(m, cap, s, a), o);
    }
  }

  /** No reply is ever thrown away: when a buffer is declared, nothing the connector sent is unread. */
  lemma NoLostReply<C>(m: Machine<C>, s: Sys<C>, o: Outcome<C>)
    requires OnCourse(m, s, o) && s.sending == "" && s.client.prog != [] && s.client.prog[0].Fresh?
    ensures s.unread == "" && s.down == "" && s.outbox == ""
    ensures Feed(m, s.conn, Upward(s)).replies == ""
  {
    assert Downward(s) + Feed(m, s.conn, Upward(s)).replies == "";
  }
}
