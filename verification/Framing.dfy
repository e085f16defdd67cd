/** Framing of the byte stream between a worker and its connector (src/socket.c). */
module Framing {
  import opened CStrings

  const BUFSIZE := 4096
  const MAXPIECE := BUFSIZE - 1

  // ---- the pure cut ----------------------------------------------------

  /** Index of the first newline, or the length. */
  function LineEnd(s: string): (k: nat)
    ensures k <= |s| && forall i :: 0 <= i < k ==> s[i] != '\n'
    ensures k < |s| ==> s[k] == '\n'
  {
    if s == "" || s[0] == '\n' then 0 else 1 + LineEnd(s[1..])
  }

  datatype Cut = Piece(piece: string, rest: string) | Partial

  /** One piece: up to and including the first newline if that fits, else MAXPIECE bytes. */
  function CutOne(s: string): (c: Cut)
    ensures c.Piece? ==> c.piece + c.rest == s && 1 <= |c.piece| <= MAXPIECE
  {
    var k := LineEnd(s);
    if k < |s| && k < MAXPIECE then Piece(s[..k + 1], s[k + 1..])
    else if MAXPIECE <= |s| then Piece(s[..MAXPIECE], s[MAXPIECE..])
    else Partial
  }

  /** Every complete piece of the stream, in order. */
  function Pieces(s: string): seq<string>
    decreases |s|
  {
    match CutOne(s)
    case Partial => []
    case Piece(p, r) => [p] + Pieces(r)
  }

  /** The incomplete piece at the end of the stream. */
  function Leftover(s: string): string
    decreases |s|
  {
    match CutOne(s)
    case Partial => s
    case Piece(_, r) => Leftover(r)
  }

  /** Every complete piece of the stream satisfies `ok`. */
  predicate AllPieces(ok: string -> bool, s: string)
    decreases |s|
  {
    CutOne(s).Piece? ==> ok(CutOne(s).piece) && AllPieces(ok, CutOne(s).rest)
  }

  lemma {:induction false} PiecesSplit(ok: string -> bool, s: string, t: string)
    requires AllPieces(ok, s + t)
    ensures AllPieces(ok, s) && AllPieces(ok, Leftover(s) + t)
    decreases |s|
  {
    if CutOne(s).Piece? {
      CutStable(s, t);
      PiecesSplit(ok, CutOne(s).rest, t);
    }
  }

  /** A piece holds at most one newline, at its end. */
  lemma TrimPiece(s: string)
    requires CutOne(s).Piece?
    ensures DeleteNewlines(CutOne(s).piece) == Trim(CutOne(s).piece)
  {
    var p := CutOne(s).piece;
    if p[|p| - 1] == '\n' {
      assert p == Trim(p) + "\n";
      DeleteNewlinesAppend(Trim(p), "\n");
      DeleteNewlinesNone(Trim(p));
      assert DeleteNewlines("\n") == "";
    } else {
      DeleteNewlinesNone(p);
    }
  }

  predicate EndsLine(s: string) {
    s != "" && s[|s| - 1] == '\n'
  }

  /** A stream that ends in a newline is cut into pieces without remainder. */
  lemma {:induction false} WholeLines(s: string)
    requires s == "" || EndsLine(s)
    ensures Leftover(s) == ""
    decreases |s|
  {
    match CutOne(s)
    case Partial =>
    case Piece(p, r) =>
      assert r != "" ==> r[|r| - 1] == s[|s| - 1];
      WholeLines(r);
  }

  lemma LineEndAt(s: string, k: nat)
    requires k <= |s| && (forall i :: 0 <= i < k ==> s[i] != '\n') && (k < |s| ==> s[k] == '\n')
    ensures LineEnd(s) == k
  {
  }

  /** Bytes that arrive later never change a piece that is already complete. */
  lemma CutStable(s: string, t: string)
    requires CutOne(s).Piece?
    ensures CutOne(s + t) == Piece(CutOne(s).piece, CutOne(s).rest + t)
  {
    var k := LineEnd(s);
    if k < |s| && k < MAXPIECE {
      assert (s + t)[..k + 1] == s[..k + 1];
      assert (s + t)[k + 1..] == s[k + 1..] + t;
    } else {
      assert (s + t)[..MAXPIECE] == s[..MAXPIECE];
      assert (s + t)[MAXPIECE..] == s[MAXPIECE..] + t;
    }
  }

  predicate NoNewline(s: string) {
    '\n' !in s
  }

  /** What a complete piece looks like. */
  predicate IsPiece(p: string) {
    || (1 <= |p| <= MAXPIECE && p[|p| - 1] == '\n' && NoNewline(p[..|p| - 1]))
    || (|p| == MAXPIECE && NoNewline(p))
  }

  lemma CutIsPiece(s: string)
    requires CutOne(s).Piece?
    ensures IsPiece(CutOne(s).piece)
  {
  }

  /** A stream that starts with a complete piece is cut right behind it. */
  lemma CutPiece(p: string, rest: string)
    requires IsPiece(p)
    ensures CutOne(p + rest) == Piece(p, rest)
  {
    var s := p + rest;
    assert s[..|p|] == p && s[|p|..] == rest;
    if p[|p| - 1] == '\n' {
      assert forall i :: 0 <= i < |p| - 1 ==> s[i] == p[..|p| - 1][i];
      LineEndAt(s, |p| - 1);
    } else {
      assert forall i :: 0 <= i < |p| ==> s[i] == p[i];
    }
  }

  // ---- the socket as the operating system presents it --------------------

  /** What one `recv` call yields. */
  datatype Arrival = Data(bytes: string) | Interrupted | Closed | Failed

  predicate ValidArrivals(a: seq<Arrival>) {
    forall i :: 0 <= i < |a| && a[i].Data? ==> 1 <= |a[i].bytes| <= MAXPIECE && NulFree(a[i].bytes)
  }

  /** All bytes that will be received before the stream ends. */
  function Incoming(a: seq<Arrival>): string {
    if |a| == 0 || a[0].Closed? || a[0].Failed? then ""
    else if a[0].Interrupted? then Incoming(a[1..])
    else a[0].bytes + Incoming(a[1..])
  }

  /** The value `recv` reports when the stream ends. */
  function Ending(a: seq<Arrival>): (t: int)
    ensures t == 0 || t == -1
  {
    if |a| == 0 || a[0].Closed? then 0
    else if a[0].Failed? then -1
    else Ending(a[1..])
  }

  /** What is left to receive after a call that starts with the bytes `have`: it reads no further than it must. */
  function LeftArrivals(a: seq<Arrival>, have: string): seq<Arrival>
    decreases |a|
  {
    if CutOne(have).Piece? || a == [] then a
    else match a[0]
      case Data(bytes) => LeftArrivals(a[1..], have + bytes)
      case Interrupted => LeftArrivals(a[1..], have)
      case _ => a[1..]
  }

  /** No future `send` fails. */
  predicate SendsSucceed(accepts: seq<int>) {
    forall i :: 0 <= i < |accepts| ==> 0 <= accepts[i]
  }

  class Socket {
    /** Results of future `recv` calls, and how many bytes future `send` calls accept. */
    var arrivals: seq<Arrival>
    var accepts: seq<int>
    /** Everything handed to the peer so far. */
    var sent: string

    constructor (arrivals: seq<Arrival>, accepts: seq<int>)
      ensures this.arrivals == arrivals && this.accepts == accepts && sent == ""
    {
      this.arrivals, this.accepts, this.sent := arrivals, accepts, "";
    }

    method Recv() returns (a: Arrival)
      modifies this`arrivals
      ensures old(arrivals) == [] ==> a == Closed && arrivals == []
      ensures old(arrivals) != [] ==> a == old(arrivals)[0] && arrivals == old(arrivals)[1..]
    {
      if arrivals == [] {
        a := Closed;
      } else {
        a, arrivals := arrivals[0], arrivals[1..];
      }
    }

    /** `send`: -1, or the number of leading bytes of `s` taken over (at least one). */
    method SendSome(s: string) returns (n: int)
      requires s != ""
      modifies this`sent, this`accepts
      ensures n == -1 || 1 <= n <= |s|
      ensures sent == old(sent) + if n == -1 then "" else s[..n]
      ensures SendsSucceed(old(accepts)) ==> n != -1 && SendsSucceed(accepts)
    {
      n := |s|;
      if accepts != [] {
        n := if accepts[0] < 0 then -1 else if accepts[0] == 0 then 1 else if accepts[0] < |s| then accepts[0] else |s|;
        accepts := accepts[1..];
      }
      if n != -1 {
        sent := sent + s[..n];
      }
    }
  }

  /** dbrelay_socket_send_string: all of the string, or -1 after a proper prefix of it. */
  method SendString(sock: Socket, str: string) returns (ret: int)
    modifies sock`sent, sock`accepts
    ensures ret == 0 || ret == -1
    ensures ret == 0 ==> sock.sent == old(sock.sent) + str
    ensures ret == -1 ==> exists n :: 0 <= n < |str| && sock.sent == old(sock.sent) + str[..n]
    ensures SendsSucceed(old(sock.accepts)) ==> ret == 0 && SendsSucceed(sock.accepts)
  {
    var bytesToSend := |str|;
    var pos := 0;
    while bytesToSend > 0
      invariant 0 <= pos && pos + bytesToSend == |str| && bytesToSend >= 0
      invariant sock.sent == old(sock.sent) + str[..pos]
      invariant SendsSucceed(old(sock.accepts)) ==> SendsSucceed(sock.accepts)
      decreases bytesToSend
    {
      var n := sock.SendSome(str[pos..]);
      if n == -1 {
        assert sock.sent == old(sock.sent) + str[..pos];
        return -1;
      }
      assert str[..pos] + str[pos..][..n] == str[..pos + n];
      bytesToSend := bytesToSend - n;
      pos := pos + n;
    }
    assert str[..pos] == str;
    return 0;
  }

  // ---- the buffered reader ---------------------------------------------

  /** State of the caller's `in_buf` / `in_ptr` pair between two calls. */
  predicate ValidReader(buf: seq<char>, ptr: int) {
    |buf| == BUFSIZE && (ptr == -1 || (0 <= ptr <= StrLen(buf) <= MAXPIECE))
  }

  /** The bytes received but not yet handed out. */
  function Unread(buf: seq<char>, ptr: int): string
    requires ValidReader(buf, ptr)
  {
    if ptr == -1 then "" else buf[ptr..StrLen(buf)]
  }

  /** `strncpy(&dst[at], &src[from], n); dst[at + n] = 0` on `n` bytes without NUL. */
  method CopyBytes(dst: array<char>, at: nat, src: seq<char>, n: nat)
    requires at + n < dst.Length && n <= |src|
    modifies dst
    ensures dst[..at + n] == old(dst[..at]) + src[..n] && dst[at + n] == NUL
  {
    var i := 0;
    while i < n
      invariant i <= n && dst[..at + i] == old(dst[..at]) + src[..i]
    {
      dst[at + i] := src[i];
      i := i + 1;
    }
    dst[at + n] := NUL;
  }

  /** One `recv` into the buffer; on data the reader restarts at offset 0. */
  method Refill(sock: Socket, inBuf: array<char>) returns (a: Arrival)
    requires inBuf.Length == BUFSIZE && ValidArrivals(sock.arrivals)
    modifies sock`arrivals, inBuf
    ensures ValidArrivals(sock.arrivals)
    ensures old(sock.arrivals) == [] ==> a == Closed && sock.arrivals == []
    ensures old(sock.arrivals) != [] ==> a == old(sock.arrivals)[0] && sock.arrivals == old(sock.arrivals)[1..]
    ensures a.Data? ==> ValidReader(inBuf[..], 0) && Unread(inBuf[..], 0) == a.bytes &&
                        Unread(inBuf[..], 0) + Incoming(sock.arrivals) == Incoming(old(sock.arrivals))
    ensures a.Interrupted? ==> Incoming(sock.arrivals) == Incoming(old(sock.arrivals))
    ensures a.Data? || a.Interrupted? ==>
              |sock.arrivals| < |old(sock.arrivals)| && Ending(sock.arrivals) == Ending(old(sock.arrivals))
    ensures a.Closed? || a.Failed? ==> Incoming(old(sock.arrivals)) == "" &&
                                       Ending(old(sock.arrivals)) == if a.Closed? then 0 else -1
  {
    a := sock.Recv();
    if a.Data? {
      CopyBytes(inBuf, 0, a.bytes, |a.bytes|);
      assert inBuf[..|a.bytes|] == a.bytes;
      assert forall i :: 0 <= i < |a.bytes| ==> inBuf[..][i] == a.bytes[i];
      StrLenAt(inBuf[..], |a.bytes|);
    }
  }

  /** The scan for a newline in the unread bytes. */
  method FindLineEnd(avail: string) returns (i: nat)
    ensures i <= |avail| && NoNewline(avail[..i])
    ensures i < |avail| ==> avail[i] == '\n'
  {
    i := 0;
    while i < |avail| && avail[i] != '\n'
      invariant i <= |avail| && NoNewline(avail[..i])
    {
      i := i + 1;
    }
  }

  predicate Plain(s: string) {
    NoNewline(s) && NulFree(s)
  }

  /** How one round of copying ends: at a newline, with a full buffer, or out of input. */
  datatype Round = Line | Full | More

  /** One round of copying from the unread bytes `avail` behind the first `outPtr` bytes of the output. */
  method TakeBytes(avail: string, lineEnd: nat, outBuf: array<char>, outPtr: nat)
    returns (round: Round, taken: nat, outPtr': nat)
    requires outBuf.Length == BUFSIZE
    requires outPtr < MAXPIECE && Plain(outBuf[..outPtr])
    requires lineEnd <= |avail| && NulFree(avail) && NoNewline(avail[..lineEnd])
    requires lineEnd < |avail| ==> avail[lineEnd] == '\n'
    modifies outBuf
    ensures taken <= |avail|
    ensures var text := old(outBuf[..outPtr]) + avail[..taken];
            if round.More? then outPtr' < MAXPIECE && outBuf[..outPtr'] == text && Plain(text) && taken == |avail|
            else IsPiece(text) && CString(outBuf[..]) == text && NUL in outBuf[..]
  {
    ghost var acc := outBuf[..outPtr];
    var haveSpace := BUFSIZE - outPtr - 1;
    if haveSpace > lineEnd {
      CopyBytes(outBuf, outPtr, avail, lineEnd);
      outPtr' := outPtr + lineEnd;
      if lineEnd < |avail| {
        outBuf[outPtr'] := '\n';
        outBuf[outPtr' + 1] := NUL;
        outPtr' := outPtr' + 2;
        round, taken := Line, lineEnd + 1;
        assert outBuf[..outPtr + lineEnd + 1] == acc + avail[..taken];
        HoldsString(outBuf[..], acc + avail[..taken]);
      } else {
        round, taken := More, lineEnd;
      }
    } else {
      CopyBytes(outBuf, outPtr, avail, haveSpace);
      outPtr' := outPtr;
      round, taken := Full, haveSpace;
      assert avail[..haveSpace] == avail[..lineEnd][..haveSpace];
      HoldsString(outBuf[..], acc + avail[..taken]);
    }
  }

  /** The body of the loop behind a filled buffer: copy once and move `in_ptr`. */
  method OneRound(inBuf: array<char>, inPtr: nat, outBuf: array<char>, outPtr: nat)
    returns (more: bool, inPtr': int, outPtr': nat, ghost piece: string, ghost rest: string)
    requires inBuf != outBuf && outBuf.Length == BUFSIZE && ValidReader(inBuf[..], inPtr)
    requires outPtr < MAXPIECE && Plain(outBuf[..outPtr])
    modifies outBuf
    ensures ValidReader(inBuf[..], inPtr') && Unread(inBuf[..], inPtr') == rest
    ensures piece + rest == old(outBuf[..outPtr] + Unread(inBuf[..], inPtr))
    ensures more ==> outPtr' < MAXPIECE && outBuf[..outPtr'] == piece && Plain(piece) && inPtr' == -1
    ensures !more ==> IsPiece(piece) && CString(outBuf[..]) == piece && NUL in outBuf[..]
  {
    var len := StrLen(inBuf[..]);
    var avail := inBuf[inPtr..len];
    assert avail == Unread(inBuf[..], inPtr) && NulFree(avail);
    var haveAvailable := FindLineEnd(avail);
    ghost var acc := outBuf[..outPtr];
    var round, taken;
    round, taken, outPtr' := TakeBytes(avail, haveAvailable, outBuf, outPtr);
    piece, rest := acc + avail[..taken], avail[taken..];
    inPtr' := inPtr + taken;
    UnreadMoves(inBuf[..], inPtr, taken);
    if !round.Full? && inPtr' >= len { inPtr' := -1; }
    more := round.More?;
    if !more && inPtr' >= BUFSIZE - 1 { inPtr' := -1; }
    SplitAvail(acc, avail, taken);
  }

  lemma UnreadMoves(buf: seq<char>, ptr: nat, taken: nat)
    requires ValidReader(buf, ptr) && taken <= |Unread(buf, ptr)|
    ensures ValidReader(buf, ptr + taken) && Unread(buf, ptr + taken) == Unread(buf, ptr)[taken..]
  {
  }

  lemma SplitAvail(acc: string, avail: string, taken: nat)
    requires taken <= |avail|
    ensures acc + avail[..taken] + avail[taken..] == acc + avail
  {
    assert avail == avail[..taken] + avail[taken..];
  }

  /**
   * The head of the loop: if nothing is unread, `recv` until there is data or the stream ends.  `acc`
   * is the incomplete piece copied out so far.
   */
  method AwaitData(sock: Socket, inBuf: array<char>, inPtr: int, ghost acc: string) returns (ret: int, inPtr': int)
    requires ValidReader(inBuf[..], inPtr) && ValidArrivals(sock.arrivals) && |acc| < MAXPIECE && Plain(acc)
    modifies sock`arrivals, inBuf
    ensures ValidReader(inBuf[..], inPtr') && ValidArrivals(sock.arrivals)
    ensures ret == 1 ==> && inPtr' != -1 && Ending(sock.arrivals) == Ending(old(sock.arrivals))
                         && Unread(inBuf[..], inPtr') + Incoming(sock.arrivals) == old(Unread(inBuf[..], inPtr) + Incoming(sock.arrivals))
                         && (|sock.arrivals| < |old(sock.arrivals)| || (inPtr != -1 && sock.arrivals == old(sock.arrivals)))
    ensures ret != 1 ==> ret == Ending(old(sock.arrivals)) && old(Unread(inBuf[..], inPtr) + Incoming(sock.arrivals)) == ""
    ensures LeftArrivals(old(sock.arrivals), acc + old(Unread(inBuf[..], inPtr))) ==
            if ret == 1 then LeftArrivals(sock.arrivals, acc + Unread(inBuf[..], inPtr')) else sock.arrivals
    ensures ret != 1 ==> inPtr' == -1
  {
    inPtr' := if inPtr >= BUFSIZE - 1 then -1 else inPtr;
    ghost var goal := LeftArrivals(sock.arrivals, acc + Unread(inBuf[..], inPtr));
    while inPtr' == -1
      invariant ValidReader(inBuf[..], inPtr') && ValidArrivals(sock.arrivals)
      invariant Unread(inBuf[..], inPtr') + Incoming(sock.arrivals) == old(Unread(inBuf[..], inPtr) + Incoming(sock.arrivals))
      invariant Ending(sock.arrivals) == Ending(old(sock.arrivals))
      invariant |sock.arrivals| < |old(sock.arrivals)| || (sock.arrivals == old(sock.arrivals) && (inPtr' == -1 || inPtr != -1))
      invariant goal == LeftArrivals(sock.arrivals, acc + Unread(inBuf[..], inPtr'))
      decreases |sock.arrivals|, if inPtr' == -1 then 1 else 0
    {
      LeftStep(sock.arrivals, acc);
      var a := Refill(sock, inBuf);
      match a {
        case Data(_) => inPtr' := 0;
        case Interrupted =>
        case Closed => return 0, inPtr';
        case Failed => return -1, inPtr';
      }
    }
    ret := 1;
  }

  /** Everything the reader still has to hand out, behind the incomplete piece `acc`. */
  ghost function Stream(sock: Socket, buf: seq<char>, ptr: int, acc: string): string
    requires ValidReader(buf, ptr)
    reads sock
  {
    acc + (Unread(buf, ptr) + Incoming(sock.arrivals))
  }

  /** One turn of the do/while: wait for data if nothing is unread, then copy once. */
  method OneTurn(sock: Socket, inBuf: array<char>, inPtr: int, outBuf: array<char>, outPtr: nat)
    returns (more: bool, ret: int, inPtr': int, outPtr': nat)
    requires inBuf != outBuf && outBuf.Length == BUFSIZE
    requires ValidReader(inBuf[..], inPtr) && ValidArrivals(sock.arrivals)
    requires outPtr < MAXPIECE && Plain(outBuf[..outPtr])
    modifies sock`arrivals, inBuf, outBuf
    ensures ValidReader(inBuf[..], inPtr') && ValidArrivals(sock.arrivals)
    ensures more ==>
              && outPtr' < MAXPIECE && Plain(outBuf[..outPtr'])
              && Stream(sock, inBuf[..], inPtr', outBuf[..outPtr']) == old(Stream(sock, inBuf[..], inPtr, outBuf[..outPtr]))
              && Ending(sock.arrivals) == Ending(old(sock.arrivals))
              && LeftArrivals(sock.arrivals, outBuf[..outPtr'] + Unread(inBuf[..], inPtr')) ==
                 LeftArrivals(old(sock.arrivals), old(outBuf[..outPtr] + Unread(inBuf[..], inPtr)))
              && (|sock.arrivals| < |old(sock.arrivals)| || (sock.arrivals == old(sock.arrivals) && inPtr != -1 == inPtr'))
    ensures !more ==>
              && sock.arrivals == LeftArrivals(old(sock.arrivals), old(outBuf[..outPtr] + Unread(inBuf[..], inPtr)))
              && var c := CutOne(old(Stream(sock, inBuf[..], inPtr, outBuf[..outPtr])));
                 if c.Partial? then ret == Ending(old(sock.arrivals)) && inPtr' == -1 else
                   && ret == 1 && NUL in outBuf[..] && CString(outBuf[..]) == c.piece
                   && Unread(inBuf[..], inPtr') + Incoming(sock.arrivals) == c.rest
                   && Ending(sock.arrivals) == Ending(old(sock.arrivals))
  {
    ghost var acc, S := outBuf[..outPtr], Stream(sock, inBuf[..], inPtr, outBuf[..outPtr]);
    ret, inPtr' := AwaitData(sock, inBuf, inPtr, acc);
    if ret != 1 {
      PartialIsShort(acc, S);
      return false, ret, inPtr', outPtr;
    }
    ghost var unread, todo := Unread(inBuf[..], inPtr'), Incoming(sock.arrivals);
    ghost var piece: string;
    ghost var rest: string;
    more, inPtr', outPtr', piece, rest := OneRound(inBuf, inPtr', outBuf, outPtr);
    Regroup(acc, unread, todo, piece, rest);
    if !more {
      CutPiece(piece, rest + todo);
      LeftDone(sock.arrivals, piece, rest);
    }
  }

  /**
   * dbrelay_socket_recv_string.  With `S` the unread bytes followed by everything still to
   * arrive, a call returns 1 and hands out the first piece of the pure cut of `S`, leaving
   * exactly the rest, or reports the end of the stream when no piece is complete.  How the
   * bytes are split into `recv` results does not matter.  It receives no more than it needs.
   */
  method RecvString(sock: Socket, inBuf: array<char>, inPtr: int, outBuf: array<char>)
    returns (ret: int, inPtr': int)
    requires inBuf != outBuf && outBuf.Length == BUFSIZE
    requires ValidReader(inBuf[..], inPtr) && ValidArrivals(sock.arrivals)
    modifies sock`arrivals, inBuf, outBuf
    ensures ValidReader(inBuf[..], inPtr') && ValidArrivals(sock.arrivals)
    ensures var c := CutOne(old(Unread(inBuf[..], inPtr) + Incoming(sock.arrivals)));
            if c.Partial? then ret == Ending(old(sock.arrivals)) && inPtr' == -1 else
              && ret == 1 && NUL in outBuf[..] && CString(outBuf[..]) == c.piece
              && Unread(inBuf[..], inPtr') + Incoming(sock.arrivals) == c.rest
              && Ending(sock.arrivals) == Ending(old(sock.arrivals))
    ensures sock.arrivals == LeftArrivals(old(sock.arrivals), old(Unread(inBuf[..], inPtr)))
  {
    inPtr' := inPtr;
    var outPtr := 0;
    var more := true;
    ghost var S := Unread(inBuf[..], inPtr) + Incoming(sock.arrivals);
    ghost var goal := LeftArrivals(sock.arrivals, Unread(inBuf[..], inPtr));
    EmptyFirst(Unread(inBuf[..], inPtr), S);
    while true
      invariant 0 <= outPtr < MAXPIECE && Plain(outBuf[..outPtr])
      invariant ValidReader(inBuf[..], inPtr') && ValidArrivals(sock.arrivals)
      invariant Stream(sock, inBuf[..], inPtr', outBuf[..outPtr]) == S
      invariant Ending(sock.arrivals) == Ending(old(sock.arrivals))
      invariant goal == LeftArrivals(sock.arrivals, outBuf[..outPtr] + Unread(inBuf[..], inPtr'))
      decreases |sock.arrivals|, if inPtr' == -1 then 0 else 1
    {
      more, ret, inPtr', outPtr := OneTurn(sock, inBuf, inPtr', outBuf, outPtr);
      if !more { return; }
    }
  }

  lemma EmptyFirst(a: string, b: string)
    ensures "" + a == a && "" + b == b
  {
  }

  lemma LeftDone(a: seq<Arrival>, piece: string, rest: string)
    requires IsPiece(piece)
    ensures LeftArrivals(a, piece + rest) == a
  {
    CutPiece(piece, rest);
  }

  /** With nothing unread and no complete piece, the next arrival is taken. */
  lemma LeftStep(a: seq<Arrival>, acc: string)
    requires |acc| < MAXPIECE && NoNewline(acc)
    ensures LeftArrivals(a, acc + "") ==
            if a == [] then []
            else if a[0].Data? then LeftArrivals(a[1..], acc + a[0].bytes)
            else if a[0].Interrupted? then LeftArrivals(a[1..], acc + "")
            else a[1..]
  {
    assert acc + "" == acc;
  }

  lemma Regroup(acc: string, unread: string, todo: string, piece: string, rest: string)
    requires piece + rest == acc + unread
    ensures acc + (unread + todo) == piece + (rest + todo)
  {
    calc {
      acc + (unread + todo);
      (acc + unread) + todo;
      (piece + rest) + todo;
      piece + (rest + todo);
    }
  }

  lemma HoldsString(buf: seq<char>, s: string)
    requires |s| < |buf| && buf[..|s|] == s && buf[|s|] == NUL && NulFree(s)
    ensures CString(buf) == s && NUL in buf
  {
    assert forall i :: 0 <= i < |s| ==> buf[i] == s[i];
    StrLenAt(buf, |s|);
  }

  lemma PartialIsShort(s: string, S: string)
    requires |s| < MAXPIECE && NoNewline(s) && S == s + ""
    ensures CutOne(S) == Partial
  {
    assert S == s;
  }
}
