/** The worker's side of the line protocol (src/client.c). */
module Clients {
  import opened CStrings
  import opened Framing

  /** dbrelay_conn_send_request's `results`, `errors`, `*error` and the accumulated text. */
  datatype Collector = Collector(results: bool, errors: bool, error: int, text: string)

  const FRESH := Collector(false, false, 0, "")

  predicate Stops(line: string) {
    line == ":BYE" || line == ":OK" || line == ":ERR"
  }

  /** One turn of the result loop on a line that does not stop it. */
  function CollectLine(k: Collector, line: string): Collector {
    var results := k.results && line != ":RESULTS END";
    var errors := k.errors && line != ":ERROR END";
    Collector(
      results || line == ":RESULTS BEGIN",
      errors || line == ":ERROR BEGIN",
      if line == ":ERROR BEGIN" then 1 else k.error,
      k.text + if results || errors then line else "")
  }

  datatype Collected = Collected(got: Collector, rest: string, stopped: bool)

  /** The whole result loop over a byte stream. */
  function CollectAll(k: Collector, s: string): Collected
    decreases |s|
  {
    match CutOne(s)
    case Partial => Collected(k, s, false)
    case Piece(p, r) =>
      if Stops(Trim(p)) then Collected(k, r, true) else CollectAll(CollectLine(k, Trim(p)), r)
  }

  /**
   * What the worker does, call by call.  `Fresh` declares a new `in_buf` with `in_ptr = -1`;
   * a `Send` marked `must` gives up on failure, the others ignore it; `RecvPid` and `Recv` read
   * one piece; `Collect` is the result loop.
   */
  datatype Instr = Fresh | Send(text: string, must: bool) | RecvPid | Recv | Collect

  datatype Client = Client(prog: seq<Instr>, pid: int, got: Collector)

  predicate Receiving(cl: Client) {
    cl.prog != [] && (cl.prog[0].RecvPid? || cl.prog[0].Recv? || cl.prog[0].Collect?)
  }

  /** dbrelay_conn_initialize's reading of the `:PID` reply; anything else gives up. */
  function ReadPid(cl: Client, piece: string): Client
    requires cl.prog != []
  {
    if HasPrefix(piece, ":PID ") then
      assert piece[4] == piece[..5][4] == ' ';
      Client(cl.prog[1..], Atol(Trim(piece)[5..]), cl.got)
    else Client([], -1, cl.got)
  }

  /** The client after recv_string handed it a piece. */
  function AfterPiece(cl: Client, piece: string): Client
    requires Receiving(cl)
  {
    match cl.prog[0]
    case RecvPid => ReadPid(cl, piece)
    case Collect =>
      if Stops(Trim(piece)) then cl.(prog := cl.prog[1..])
      else cl.(got := CollectLine(cl.got, Trim(piece)))
    case _ => cl.(prog := cl.prog[1..])
  }

  /** The client after recv_string reported the end of the stream. */
  function AfterEnd(cl: Client): Client
    requires Receiving(cl)
  {
    if cl.prog[0].RecvPid? then Client([], -1, cl.got) else cl.(prog := cl.prog[1..])
  }

  const BROKEN := "Internal Error: " + "connector terminated connection unexpectedly."

  /**
   * The client after a send failed.  Without the greeting there is no pid; a failed `:RUN`, with only the
   * result loop left to do, is reported with the text of an internal error but `*error` already back at 0.
   */
  function AfterLost(cl: Client, must: bool): Client {
    if must && cl.prog != [] && cl.prog[0].RecvPid? then Client([], -1, cl.got)
    else if must then
      Client([], cl.pid, cl.got.(error := if cl.prog != [] && cl.prog[0].Collect? then 0 else 2, text := BROKEN))
    else cl
  }
}
