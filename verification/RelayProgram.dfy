/**
 One direction of a TCP relay: the program each of the two relay threads runs.
 `After` is the program as an automaton over the calls it makes and the results it gets; the
 methods at the end are the program itself, and every log they leave is a run of the automaton.
 */
module RelayProgram {
  import opened Sockets

  const BUFFER := 16 * 1024

  datatype Ending = CleanEof | ReceiveError | SendFailure

  /** `Sending(chunk, sent)`: inside SendAll, `sent` bytes of the chunk accepted so far. */
  datatype Pc =
    | Receiving
    | Sending(chunk: seq<Byte>, sent: nat)
    | AtEof
    | AtError
    | AtFailure
    | AtFailureSourceDown
    | Returned(ending: Ending)

  datatype Event =
    | Received(data: seq<Byte>)
    | ReceivedEof
    | ReceivedError
    | Sent(bytes: seq<Byte>)
    | SendFailed
    | ShutWriteDestination
    | ShutBothSource
    | ShutBothDestination

  function After(pc: Pc, e: Event): Option<Pc> {
    match pc
    case Receiving =>
      if e.Received? && 0 < |e.data| <= BUFFER then Some(Sending(e.data, 0))
      else if e.ReceivedEof? then Some(AtEof)
      else if e.ReceivedError? then Some(AtError)
      else None
    case Sending(chunk, sent) =>
      if e.Sent? && sent <= |chunk| && e.bytes != [] && e.bytes <= chunk[sent..] then
        Some(if sent + |e.bytes| == |chunk| then Receiving else Sending(chunk, sent + |e.bytes|))
      else if e.SendFailed? then Some(AtFailure)
      else None
    case AtEof => if e.ShutWriteDestination? then Some(Returned(CleanEof)) else None
    case AtError => if e.ShutBothDestination? then Some(Returned(ReceiveError)) else None
    case AtFailure => if e.ShutBothSource? then Some(AtFailureSourceDown) else None
    case AtFailureSourceDown => if e.ShutBothDestination? then Some(Returned(SendFailure)) else None
    case Returned(_) => None
  }

  function Run(pc: Pc, log: seq<Event>): Option<Pc>
    decreases log
  {
    if log == [] then Some(pc)
    else match After(pc, log[0])
      case None => None
      case Some(next) => Run(next, log[1..])
  }

  /** The bytes a log takes from the source, and the bytes it hands to the destination. */
  function Taken(log: seq<Event>): seq<Byte> {
    if log == [] then []
    else TakenBy(log[0]) + Taken(log[1..])
  }

  function Delivered(log: seq<Event>): seq<Byte> {
    if log == [] then []
    else DeliveredBy(log[0]) + Delivered(log[1..])
  }

  /** The part of the buffer still to be sent. */
  function Pending(pc: Pc): seq<Byte> {
    if pc.Sending? && pc.sent <= |pc.chunk| then pc.chunk[pc.sent..] else []
  }

  predicate Failing(pc: Pc) {
    pc.AtFailure? || pc.AtFailureSourceDown? || (pc.Returned? && pc.ending.SendFailure?)
  }

  predicate WellFormed(pc: Pc) {
    pc.Sending? ==> pc.sent < |pc.chunk| <= BUFFER
  }

  function TakenBy(e: Event): seq<Byte> {
    if e.Received? then e.data else []
  }

  function DeliveredBy(e: Event): seq<Byte> {
    if e.Sent? then e.bytes else []
  }

  lemma StepConserves(pc: Pc, e: Event)
    requires WellFormed(pc) && After(pc, e).Some?
    ensures WellFormed(After(pc, e).value)
    ensures !Failing(After(pc, e).value) ==>
              DeliveredBy(e) + Pending(After(pc, e).value) == Pending(pc) + TakenBy(e)
    ensures Failing(After(pc, e).value) ==> DeliveredBy(e) == TakenBy(e) == []
  {
    if e.Sent? {
      assert Pending(pc) == e.bytes + Pending(pc)[|e.bytes|..];
    }
  }

  lemma Glue(d: seq<Byte>, held: seq<Byte>, p: seq<Byte>, t: seq<Byte>, rest: seq<Byte>, more: seq<Byte>,
          end: seq<Byte>)
    requires d + held == p + t
    ensures rest <= held + more ==> d + rest <= p + (t + more)
    ensures rest + end == held + more ==> (d + rest) + end == p + (t + more)
  {
    assert d + (held + more) == (d + held) + more;
    assert (p + t) + more == p + (t + more);
    if rest + end == held + more {
      assert (d + rest) + end == d + (rest + end);
    }
  }

  /** Along every run: what was delivered, then the unsent rest of the buffer, is what was taken,
      in order and without gap or repetition; once a send has failed, what was delivered is still
      a prefix of what was taken. */
  lemma {:induction false} RunConserves(pc: Pc, log: seq<Event>)
    requires WellFormed(pc) && Run(pc, log).Some?
    ensures Delivered(log) <= Pending(pc) + Taken(log)
    ensures !Failing(Run(pc, log).value) ==>
              Delivered(log) + Pending(Run(pc, log).value) == Pending(pc) + Taken(log)
    decreases log
  {
    if log != [] {
      var e, rest := log[0], log[1..];
      var next := After(pc, e).value;
      StepConserves(pc, e);
      if Failing(next) {
        FailureIsFinal(next, rest);
      } else {
        RunConserves(next, rest);
        Glue(DeliveredBy(e), Pending(next), Pending(pc), TakenBy(e), Delivered(rest), Taken(rest),
             Pending(Run(next, rest).value));
      }
    }
  }

  lemma {:induction false} FailureIsFinal(pc: Pc, log: seq<Event>)
    requires Failing(pc) && Run(pc, log).Some?
    ensures Failing(Run(pc, log).value) && Delivered(log) == []
    decreases log
  {
    if log != [] {
      FailureIsFinal(After(pc, log[0]).value, log[1..]);
    }
  }

  /** A log grows by one call: the run goes on from where it stood. */
  lemma {:induction false} Extend(pc: Pc, log: seq<Event>, e: Event)
    requires Run(pc, log).Some?
    ensures Run(pc, log + [e]) == After(Run(pc, log).value, e)
    decreases log
  {
    if log == [] {
      assert (log + [e])[1..] == [];
    } else {
      assert (log + [e])[1..] == log[1..] + [e];
      Extend(After(pc, log[0]).value, log[1..], e);
    }
  }

  lemma {:induction false} TakenExtend(log: seq<Event>, e: Event)
    ensures Taken(log + [e]) == Taken(log) + TakenBy(e)
  {
    if log == [] {
      assert (log + [e])[1..] == [];
    } else {
      assert (log + [e])[1..] == log[1..] + [e];
      TakenExtend(log[1..], e);
    }
  }

  datatype Reply = Chunk(data: seq<Byte>) | Eof | Error

  /** The bytes a source gives up before its stream ends or fails. */
  function Stream(replies: seq<Reply>): seq<Byte> {
    if replies == [] || !replies[0].Chunk? || replies[0].data == [] then []
    else replies[0].data + Stream(replies[1..])
  }

  /** The two sockets of one direction as the relay thread meets them.  `arrivals` and `room`
      script the results of the receive and send calls: a chunk longer than the buffer is handed
      out in parts, an exhausted script answers end of stream and send failure. */
  class Wire {
    var arrivals: seq<Reply>
    var room: seq<int>
    ghost var log: seq<Event>

    constructor (arrivals: seq<Reply>, room: seq<int>)
      ensures this.arrivals == arrivals && this.room == room && log == []
    {
      this.arrivals, this.room, log := arrivals, room, [];
    }

    ghost function Backlog(): nat
      reads this
    {
      Measure(arrivals)
    }

    static ghost function Measure(replies: seq<Reply>): nat {
      if replies == [] then 0
      else (if replies[0].Chunk? then 1 + |replies[0].data| else 1) + Measure(replies[1..])
    }

    /** The result of `Recv` on the source: bytes written to the front of the buffer, 0 at the
        end of the stream, -1 on an error. */
    method Recv(buffer: array<Byte>) returns (received: int)
      requires 0 < buffer.Length <= BUFFER
      modifies this, buffer
      ensures room == old(room) && -1 <= received <= buffer.Length
      ensures received > 0 ==> log == old(log) + [Received(buffer[..received])] && Backlog() < old(Backlog())
      ensures received > 0 ==> Stream(old(arrivals)) == buffer[..received] + Stream(arrivals)
      ensures received <= 0 ==> Stream(old(arrivals)) == []
      ensures received == 0 ==> log == old(log) + [ReceivedEof]
      ensures received < 0 ==> log == old(log) + [ReceivedError]
    {
      if arrivals == [] || arrivals[0].Eof? || (arrivals[0].Chunk? && arrivals[0].data == []) {
        log := log + [ReceivedEof];
        return 0;
      }
      if arrivals[0].Error? {
        log := log + [ReceivedError];
        return -1;
      }
      var data := arrivals[0].data;
      received := if |data| <= buffer.Length then |data| else buffer.Length;
      forall i | 0 <= i < received { buffer[i] := data[i]; }
      assert buffer[..received] == data[..received];
      log := log + [Received(buffer[..received])];
      if received == |data| {
        arrivals := arrivals[1..];
      } else {
        ghost var rest := arrivals[1..];
        arrivals := [Chunk(data[received..])] + arrivals[1..];
        assert arrivals[1..] == rest;
        assert data == data[..received] + data[received..];
      }
    }

    /** `Send` of `buffer[from..to]` to the destination: how many bytes it accepted, or -1. */
    method Send(buffer: array<Byte>, from: nat, to: nat) returns (chunk: int)
      requires from < to <= buffer.Length
      modifies this
      ensures arrivals == old(arrivals) && (chunk == -1 || 0 < chunk <= to - from)
      ensures chunk > 0 ==> log == old(log) + [Sent(buffer[from..from + chunk])]
      ensures chunk <= 0 ==> log == old(log) + [SendFailed]
    {
      if room == [] || room[0] <= 0 {
        log := log + [SendFailed];
        return -1;
      }
      chunk := if room[0] <= to - from then room[0] else to - from;
      room := room[1..];
      log := log + [Sent(buffer[from..from + chunk])];
    }

    method ShutdownWriteDestination()
      modifies this`log
      ensures log == old(log) + [ShutWriteDestination]
    {
      log := log + [ShutWriteDestination];
    }

    method ShutdownBothSource()
      modifies this`log
      ensures log == old(log) + [ShutBothSource]
    {
      log := log + [ShutBothSource];
    }

    method ShutdownBothDestination()
      modifies this`log
      ensures log == old(log) + [ShutBothDestination]
    {
      log := log + [ShutBothDestination];
    }
  }

  ghost predicate At(log: seq<Event>, pc: Pc, taken: seq<Byte>) {
    Run(Receiving, log) == Some(pc) && Taken(log) == taken
  }

  lemma Advance(log: seq<Event>, pc: Pc, taken: seq<Byte>, e: Event, next: Pc)
    requires At(log, pc, taken) && After(pc, e) == Some(next)
    ensures At(log + [e], next, taken + TakenBy(e))
  {
    Extend(Receiving, log, e);
    TakenExtend(log, e);
  }

  /** SendAll (src/net/forward_session.cpp:10-20); with nothing to send it makes no call. */
  method SendAll(wire: Wire, buffer: array<Byte>, size: nat, ghost taken: seq<Byte>) returns (ok: bool)
    requires size <= buffer.Length <= BUFFER
    requires size > 0 ==> At(wire.log, Sending(buffer[..size], 0), taken)
    modifies wire
    ensures wire.arrivals == old(wire.arrivals)
    ensures size > 0 ==> At(wire.log, if ok then Receiving else AtFailure, taken)
    ensures size == 0 ==> ok && wire.log == old(wire.log)
  {
    var sent := 0;
    while sent < size
      invariant 0 <= sent <= size && wire.arrivals == old(wire.arrivals)
      invariant size == 0 ==> wire.log == old(wire.log)
      invariant size > 0 ==> At(wire.log, if sent < size then Sending(buffer[..size], sent) else Receiving, taken)
    {
      ghost var before := wire.log;
      ghost var pc := Sending(buffer[..size], sent);
      var chunk := wire.Send(buffer, sent, size);
      if chunk <= 0 {
        Advance(before, pc, taken, SendFailed, AtFailure);
        return false;
      }
      assert buffer[..size][sent..][..chunk] == buffer[sent..sent + chunk];
      ghost var e := Sent(buffer[sent..sent + chunk]);
      sent := sent + chunk;
      Advance(before, pc, taken, e, if sent < size then Sending(buffer[..size], sent) else Receiving);
    }
    return true;
  }

  /** Where the program stands when its loop ends. */
  function Ended(ending: Ending): Pc {
    match ending
    case CleanEof => AtEof
    case ReceiveError => AtError
    case SendFailure => AtFailure
  }

  /** The three ways out of the loop of RelayOneDirection. */
  method Leave(wire: Wire, ending: Ending, ghost taken: seq<Byte>)
    requires At(wire.log, Ended(ending), taken)
    modifies wire`log
    ensures At(wire.log, Returned(ending), taken)
  {
    ghost var log := wire.log;
    match ending {
      case CleanEof =>
        wire.ShutdownWriteDestination();
        Advance(log, AtEof, taken, ShutWriteDestination, Returned(ending));
      case ReceiveError =>
        wire.ShutdownBothDestination();
        Advance(log, AtError, taken, ShutBothDestination, Returned(ending));
      case SendFailure =>
        wire.ShutdownBothSource();
        Advance(log, AtFailure, taken, ShutBothSource, AtFailureSourceDown);
        log := wire.log;
        wire.ShutdownBothDestination();
        Advance(log, AtFailureSourceDown, taken, ShutBothDestination, Returned(ending));
    }
  }

  /** RelayOneDirection (src/net/forward_session.cpp:22-40).  It always returns, the log is a
      complete run of the program, and unless a send failed the destination was handed exactly
      the source's stream. */
  method RelayOneDirection(wire: Wire) returns (ending: Ending)
    requires wire.log == []
    modifies wire
    ensures Run(Receiving, wire.log) == Some(Returned(ending))
    ensures Delivered(wire.log) <= Taken(wire.log) <= Stream(old(wire.arrivals))
    ensures !ending.SendFailure? ==> Delivered(wire.log) == Stream(old(wire.arrivals))
  {
    var buffer := new Byte[BUFFER];
    ghost var taken := [];
    while true
      invariant fresh(buffer)
      invariant At(wire.log, Receiving, taken)
      invariant taken + Stream(wire.arrivals) == Stream(old(wire.arrivals))
      decreases wire.Backlog()
    {
      ghost var before := wire.log;
      var received := wire.Recv(buffer);
      if received == 0 {
        Advance(before, Receiving, taken, ReceivedEof, AtEof);
        ending := CleanEof;
        break;
      }
      if received < 0 {
        Advance(before, Receiving, taken, ReceivedError, AtError);
        ending := ReceiveError;
        break;
      }
      Advance(before, Receiving, taken, Received(buffer[..received]), Sending(buffer[..received], 0));
      taken := taken + buffer[..received];
      var ok := SendAll(wire, buffer, received, taken);
      if !ok {
        ending := SendFailure;
        break;
      }
    }
    Leave(wire, ending, taken);
    RunConserves(Receiving, wire.log);
  }
}
