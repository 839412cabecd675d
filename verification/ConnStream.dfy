/** The engine's stream wrapper: which calls each operation makes on the underlying stream, and
    where it stops when one of them fails. */
module ConnStream {
  import opened Base
  import opened Machine

  /** A `grpc.ClientStream`: the calls that went through, and how many more will. */
  class ClientStream {
    var log: seq<Wire>
    var budget: nat

    constructor (budget: nat)
      ensures log == [] && this.budget == budget
    {
      log := [];
      this.budget := budget;
    }

    method Call(w: Wire) returns (ok: bool)
      modifies this
      ensures ok <==> old(budget) > 0
      ensures log == (if ok then old(log) + [w] else old(log)) && budget == if ok then old(budget) - 1 else 0
    {
      ok := budget > 0;
      if ok {
        log := log + [w];
        budget := budget - 1;
      }
    }
  }

  /** How many of the calls of an operation go through. */
  function Cut(typ: StreamType, op: Op, budget: nat): (n: nat)
    ensures n <= |FullWire(typ, op)|
  {
    if budget < |FullWire(typ, op)| then budget else |FullWire(typ, op)|
  }

  /** A `conn.Stream`. Every operation adds a prefix of its full script to the wire, the whole of
      it exactly when it returns no error: the two facts the transition system assumes. */
  class Stream {
    const cs: ClientStream
    const streamType: StreamType

    constructor (cs: ClientStream, streamType: StreamType)
      ensures this.cs == cs && this.streamType == streamType
    {
      this.cs := cs;
      this.streamType := streamType;
    }

    method Recv() returns (failed: bool)
      modifies cs
      ensures cs.log == old(cs.log) + FullWire(streamType, RecvOp)[..Cut(streamType, RecvOp, old(cs.budget))]
      ensures failed <==> Cut(streamType, RecvOp, old(cs.budget)) < |FullWire(streamType, RecvOp)|
      ensures streamType.ClientStream? ==>
                if failed then cs.log == old(cs.log) || cs.log == old(cs.log) + [HalfClose]
                else cs.log == old(cs.log) + [HalfClose, Read]
      ensures !streamType.ClientStream? ==> cs.log == if failed then old(cs.log) else old(cs.log) + [Read]
    {
      if streamType == StreamType.ClientStream {
        var ok := cs.Call(HalfClose);
        if !ok {
          return true;
        }
      }
      var ok := cs.Call(Read);
      return !ok;
    }

    method Send(req: Bytes) returns (failed: bool)
      modifies cs
      ensures cs.log == old(cs.log) + FullWire(streamType, SendOp(req))[..Cut(streamType, SendOp(req), old(cs.budget))]
      ensures failed <==> Cut(streamType, SendOp(req), old(cs.budget)) < |FullWire(streamType, SendOp(req))|
      ensures cs.log == if failed then old(cs.log) else old(cs.log) + [Msg(req)]
    {
      var ok := cs.Call(Msg(req));
      return !ok;
    }

    method CloseSend() returns (failed: bool)
      modifies cs
      ensures cs.log == old(cs.log) + FullWire(streamType, CloseSendOp)[..Cut(streamType, CloseSendOp, old(cs.budget))]
      ensures failed <==> Cut(streamType, CloseSendOp, old(cs.budget)) < |FullWire(streamType, CloseSendOp)|
      ensures cs.log == if failed then old(cs.log) else old(cs.log) + [HalfClose]
    {
      var ok := cs.Call(HalfClose);
      return !ok;
    }
  }

  /** The numbers C and Lua use; anything else, the unary one included, makes `NewStream` panic. */
  function StreamKind(code: int): Option<StreamType> {
    match code
    case 1 => Some(StreamType.ClientStream)
    case 2 => Some(ServerStream)
    case 3 => Some(BidirectionalStream)
    case _ => None
  }

  datatype Opened = Opened(s: Stream, cs: ClientStream) | Failed(cs: ClientStream) | Panicked

  /** `NewStream`: the request, and for a server stream the half-close, before the stream exists; a
      panic, before anything is sent, for an unknown stream type. */
  method NewStream(code: int, req: Bytes, budget: nat) returns (r: Opened)
    ensures r.Panicked? <==> StreamKind(code).None?
    ensures !r.Panicked? ==>
              var typ := StreamKind(code).value;
              && fresh(r.cs) && r.cs.log == FullWire(typ, OpenOp(req))[..Cut(typ, OpenOp(req), budget)]
              && (r.Failed? <==> Cut(typ, OpenOp(req), budget) < |FullWire(typ, OpenOp(req))|)
              && (r.Opened? ==> fresh(r.s) && r.s.cs == r.cs && r.s.streamType == typ)
    ensures r.Panicked? <==> code < 1 || code > 3
    ensures r.Opened? && code == 1 ==> r.s.streamType == StreamType.ClientStream && r.cs.log == [Msg(req)]
    ensures r.Opened? && code == 2 ==> r.s.streamType == ServerStream && r.cs.log == [Msg(req), HalfClose]
    ensures r.Opened? && code == 3 ==> r.s.streamType == BidirectionalStream && r.cs.log == [Msg(req)]
    ensures r.Failed? ==> r.cs.log == [] || (code == 2 && r.cs.log == [Msg(req)])
  {
    if StreamKind(code).None? {
      return Panicked;
    }
    var streamType := StreamKind(code).value;
    var cs := new ClientStream(budget);
    var ok := cs.Call(Msg(req));
    if !ok {
      return Failed(cs);
    }
    if streamType.ServerStream? {
      ok := cs.Call(HalfClose);
      if !ok {
        return Failed(cs);
      }
    }
    var s := new Stream(cs, streamType);
    return Opened(s, cs);
  }
}
