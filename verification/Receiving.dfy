/**
 The resumable receive loop of a peer. The socket is an oracle: a script of chunks,
 would-block returns and failures, so every split of the byte stream and every
 placement of would-block returns is some script.
 */
module Receiving {
  import opened Common
  import opened Framing

  /** One thing the socket may report. An empty chunk is the end of the stream. */
  datatype Event = Chunk(bytes: seq<Byte>) | WouldBlock | Failure

  /** What one read returns to the caller. */
  datatype Read = Data(bytes: seq<Byte>) | Again | Closed | Error

  /** The bytes that can be read before the next event that ends a receive call. */
  function Upcoming(script: seq<Event>): seq<Byte> {
    if script == [] || !script[0].Chunk? || script[0].bytes == [] then []
    else script[0].bytes + Upcoming(script[1..])
  }

  /** How a receive call over this script ends, once those bytes are read. */
  function EndOf(script: seq<Event>): Read {
    if script == [] then Again
    else match script[0]
      case Chunk(b) => if b == [] then Closed else EndOf(script[1..])
      case WouldBlock => Again
      case Failure => Error
  }

  /** What is left of the script after that event. */
  function After(script: seq<Event>): seq<Event> {
    if script == [] then []
    else if script[0].Chunk? && script[0].bytes != [] then After(script[1..])
    else script[1..]
  }

  /** The supply a script holds; every successful read uses some of it. */
  function Supply(script: seq<Event>): nat {
    if script == [] then 0
    else 1 + (if script[0].Chunk? then |script[0].bytes| else 0) + Supply(script[1..])
  }

  /** Everything the connection carries before it closes or fails, however it is cut up. */
  function Stream(script: seq<Event>): seq<Byte> {
    if script == [] then []
    else match script[0]
      case Chunk(b) => if b == [] then [] else b + Stream(script[1..])
      case WouldBlock => Stream(script[1..])
      case Failure => []
  }

  lemma {:induction false} StreamByCalls(script: seq<Event>)
    ensures Stream(script) == Upcoming(script) + (if EndOf(script) == Again then Stream(After(script)) else [])
    ensures script != [] ==> Supply(After(script)) < Supply(script)
  {
    if script != [] && script[0].Chunk? && script[0].bytes != [] {
      StreamByCalls(script[1..]);
      ConcatAssociative(script[0].bytes, Upcoming(script[1..]),
                        if EndOf(script) == Again then Stream(After(script)) else []);
    }
  }

  /** What a receive call has to work through: everything received once it is done, and its end. */
  datatype Plan = Plan(all: seq<Byte>, end: Read, after: seq<Event>)

  datatype Status = GoOn | Return(rc: int)

  class Receiver {
    const parses: Payload -> bool
    var connected: bool
    var script: seq<Event>
    const lengthBuffer: array<Byte>
    var lengthLevel: nat
    var dataBuffer: seq<Byte>
    var dataLevel: nat
    /** Payloads handed to the parser on this connection, and those it accepted. */
    var handed: seq<Payload>
    var dispatched: seq<Payload>
    /** Every byte read from the socket since the last start. */
    ghost var history: seq<Byte>

    ghost predicate Shape()
      reads this
    {
      && lengthBuffer.Length == HEADER_SIZE
      && lengthLevel <= HEADER_SIZE
      && dataLevel <= |dataBuffer| <= MAX_MESSAGE_SIZE
      && (lengthLevel < HEADER_SIZE ==> dataBuffer == [])
      && dispatched == Filter(parses, handed)
    }

    /** The bytes of the frame being read. */
    ghost function Pending(): seq<Byte>
      reads this, lengthBuffer
      requires Shape()
    {
      lengthBuffer[..lengthLevel] + dataBuffer[..dataLevel]
    }

    /** While connected, every received byte is in one delivered frame or pending. */
    ghost predicate Sound()
      reads this, lengthBuffer
    {
      && Shape()
      && history == Frames(handed) + Pending()
      && (lengthLevel == HEADER_SIZE ==> |dataBuffer| == Ntohl(lengthBuffer[..]))
    }

    /** The state between two receive calls. */
    ghost predicate Valid()
      reads this, lengthBuffer
    {
      Shape() && (connected ==> Sound() && Incomplete(Pending()))
    }

    ghost predicate Follows(plan: Plan)
      reads this, lengthBuffer
    {
      && Sound()
      && history + Upcoming(script) == plan.all
      && EndOf(script) == plan.end
      && After(script) == plan.after
    }

    /** How a receive call that follows `plan` ends. */
    ghost predicate Ended(plan: Plan, rc: int)
      reads this, lengthBuffer
    {
      var d := Decode(plan.all);
      && Valid()
      && handed == d.frames
      && connected == (!d.rejected && plan.end == Again)
      && rc == (if d.rejected || plan.end == Error then -1 else 0)
      && if d.rejected then Pending() == d.pending[..HEADER_SIZE]
         else history == plan.all && script == plan.after && Pending() == d.pending
    }

    constructor (parses: Payload -> bool)
      ensures Valid() && !connected && handed == [] && fresh(lengthBuffer)
    {
      this.parses := parses;
      connected, script := false, [];
      lengthBuffer := new Byte[4](_ => 0);
      lengthLevel, dataBuffer, dataLevel := 0, [], 0;
      handed, dispatched, history := [], [], [];
    }

    /**
     `start()` on a connection that will behave as `supply` says. Whatever state the
     decoder was left in, nothing of it survives.
     */
    method Start(supply: seq<Event>)
      requires Valid()
      modifies this
      ensures Valid() && connected && script == supply
      ensures handed == [] && history == [] && Pending() == []
    {
      lengthLevel := 0;
      dataBuffer := [];
      dataLevel := 0;
      connected, script := true, supply;
      handed, dispatched, history := [], [], [];
    }

    /** One read of at most `n` bytes. */
    method ReadSocket(n: nat) returns (r: Read)
      requires n > 0
      modifies this`script
      ensures !connected ==> r == Error && script == old(script)
      ensures connected && r.Data? ==>
                && 0 < |r.bytes| <= n
                && r.bytes + Upcoming(script) == Upcoming(old(script))
                && EndOf(script) == EndOf(old(script)) && After(script) == After(old(script))
                && Supply(script) < Supply(old(script))
      ensures connected && !r.Data? ==>
                Upcoming(old(script)) == [] && r == EndOf(old(script)) && script == After(old(script))
    {
      if !connected { return Error; }
      if script == [] { return Again; }
      var e := script[0];
      match e {
        case Chunk(b) =>
          if b == [] {
            r := Closed;
          } else if |b| <= n {
            r := Data(b);
          } else {
            r := Data(b[..n]);
            script := [Chunk(b[n..])] + script[1..];
            assert script[1..] == old(script)[1..];
            ConcatAssociative(b[..n], b[n..], Upcoming(script[1..]));
            assert b == b[..n] + b[n..];
            return;
          }
        case WouldBlock => r := Again;
        case Failure => r := Error;
      }
      script := script[1..];
    }

    /** A read that yields no data ends the call: return codes of lines 233-249 and 268-283. */
    method EndCall(r: Read, ghost plan: Plan) returns (rc: int)
      requires Shape() && !r.Data? && (!connected ==> r == Error)
      requires connected ==> Sound() && Incomplete(Pending()) && plan == Plan(history, r, script)
      modifies this`connected
      ensures old(connected) ==> Ended(plan, rc)
      ensures !old(connected) ==> rc == -1 && !connected
    {
      if connected { DecodeUnique(handed, Pending()); }
      if r.Again? { return 0; }
      connected := false;
      rc := if r == Error then -1 else 0;
    }

    /** An unacceptable length ends the call and the connection: lines 255-259. */
    method Reject(ghost plan: Plan) returns (rc: int)
      requires Shape() && connected && dataBuffer == [] && history == Frames(handed) + Pending()
      requires history + Upcoming(script) == plan.all
      requires lengthLevel == HEADER_SIZE && Oversize(Pending())
      modifies this`connected
      ensures Ended(plan, rc)
    {
      DecodeUnique(handed, Pending());
      DecodeAfterReject(history, Upcoming(script));
      connected := false;
      rc := -1;
    }

    /** The read bytes land in the length buffer behind those already there. */
    method StoreHeader(bytes: seq<Byte>)
      requires Shape() && lengthLevel + |bytes| <= HEADER_SIZE && dataBuffer == []
      requires history == Frames(handed) + Pending()
      modifies this`lengthLevel, this`history, lengthBuffer
      ensures lengthLevel == old(lengthLevel) + |bytes| && history == old(history) + bytes
      ensures history == Frames(handed) + Pending()
    {
      var from := lengthLevel;
      for i := 0 to |bytes|
        invariant lengthBuffer[..from + i] == old(lengthBuffer[..lengthLevel]) + bytes[..i]
        invariant lengthLevel == from && history == old(history)
        modifies lengthBuffer
      {
        lengthBuffer[from + i] := bytes[i];
      }
      lengthLevel := from + |bytes|;
      history := history + bytes;
      ConcatAssociative(Frames(handed), old(Pending()), bytes);
      assert Pending() == old(Pending()) + bytes;
    }

    /** The read bytes land in the data buffer behind those already there. */
    method StoreBody(bytes: seq<Byte>)
      requires Sound() && lengthLevel == HEADER_SIZE && dataLevel + |bytes| <= |dataBuffer|
      modifies this`dataBuffer, this`dataLevel, this`history
      ensures Sound() && |dataBuffer| == old(|dataBuffer|) && dataLevel == old(dataLevel) + |bytes|
      ensures history == old(history) + bytes
    {
      var k := dataLevel + |bytes|;
      dataBuffer := dataBuffer[..dataLevel] + bytes + dataBuffer[k..];
      dataLevel := k;
      history := history + bytes;
      ConcatAssociative(Frames(handed), old(Pending()), bytes);
      assert dataBuffer[..dataLevel] == old(dataBuffer[..dataLevel]) + bytes;
      assert Pending() == old(Pending()) + bytes;
    }

    /** One pass of the header loop: lines 231 to 262. */
    method HeaderStep(ghost plan: Plan) returns (s: Status)
      requires Shape() && lengthLevel < HEADER_SIZE && (connected ==> Follows(plan))
      modifies this, lengthBuffer
      ensures Shape() && handed == old(handed)
      ensures s.GoOn? ==> old(connected) && connected && Follows(plan)
      ensures s.GoOn? ==> lengthLevel > old(lengthLevel) && Supply(script) < Supply(old(script))
      ensures s.Return? && old(connected) ==> Ended(plan, s.rc)
      ensures s.Return? && !old(connected) ==> s.rc == -1 && !connected
    {
      var r := ReadSocket(HEADER_SIZE - lengthLevel);
      if !r.Data? {
        var rc := EndCall(r, plan);
        return Return(rc);
      }
      StoreHeader(r.bytes);
      ConcatAssociative(old(history), r.bytes, Upcoming(script));
      if lengthLevel == HEADER_SIZE {
        var len := Ntohl(lengthBuffer[..]);
        assert Pending()[..HEADER_SIZE] == lengthBuffer[..];
        if len > MAX_MESSAGE_SIZE {
          var rc := Reject(plan);
          return Return(rc);
        }
        dataBuffer := seq(len, _ => 0);
        assert dataBuffer[..0] == [];
      }
      return GoOn;
    }

    /** Completing the length field: lines 229 to 263. */
    method ReadHeader(ghost plan: Plan) returns (s: Status)
      requires Shape() && (connected ==> Follows(plan))
      modifies this, lengthBuffer
      ensures Shape() && handed == old(handed)
      ensures old(lengthLevel) == HEADER_SIZE ==>
                s.GoOn? && unchanged(this) && unchanged(lengthBuffer)
      ensures s.GoOn? ==> lengthLevel == HEADER_SIZE && (connected ==> Follows(plan))
      ensures s.GoOn? && old(lengthLevel) < HEADER_SIZE ==>
                old(connected) && connected && Supply(script) < Supply(old(script))
      ensures s.Return? && old(connected) ==> Ended(plan, s.rc)
      ensures s.Return? && !old(connected) ==> s.rc == -1 && !connected
    {
      while lengthLevel < HEADER_SIZE
        invariant Shape() && handed == old(handed) && (connected ==> Follows(plan))
        invariant lengthLevel >= old(lengthLevel) && connected == old(connected)
        invariant if lengthLevel == old(lengthLevel) then unchanged(this) && unchanged(lengthBuffer)
                  else connected && Supply(script) < Supply(old(script))
        decreases HEADER_SIZE - lengthLevel
      {
        s := HeaderStep(plan);
        if s.Return? { return; }
      }
      return GoOn;
    }

    /** Completing the payload: lines 265 to 285. */
    method ReadBody(ghost plan: Plan) returns (s: Status)
      requires Shape() && lengthLevel == HEADER_SIZE && (connected ==> Follows(plan))
      modifies this
      ensures Shape() && handed == old(handed)
      ensures s.GoOn? ==> lengthLevel == HEADER_SIZE && dataLevel == |dataBuffer| && connected == old(connected)
      ensures s.GoOn? ==> Supply(script) <= Supply(old(script)) && (connected ==> Follows(plan))
      ensures s.GoOn? && !connected ==> unchanged(this)
      ensures s.GoOn? && old(dataLevel) < old(|dataBuffer|) ==> Supply(script) < Supply(old(script))
      ensures s.Return? && old(connected) ==> Ended(plan, s.rc)
      ensures s.Return? && !old(connected) ==>
                s.rc == -1 && !connected && old(dataLevel) < old(|dataBuffer|)
    {
      while dataLevel < |dataBuffer|
        invariant Shape() && lengthLevel == HEADER_SIZE && |dataBuffer| == old(|dataBuffer|)
        invariant handed == old(handed) && connected == old(connected)
        invariant connected ==> Follows(plan)
        invariant if dataLevel == old(dataLevel) then unchanged(this)
                  else connected && Supply(script) < Supply(old(script))
        decreases |dataBuffer| - dataLevel
      {
        ghost var before := history;
        var r := ReadSocket(|dataBuffer| - dataLevel);
        if !r.Data? {
          assert connected ==> Pending()[..HEADER_SIZE] == lengthBuffer[..];
          var rc := EndCall(r, plan);
          return Return(rc);
        }
        StoreBody(r.bytes);
        ConcatAssociative(before, r.bytes, Upcoming(script));
      }
      return GoOn;
    }

    /** A complete payload: lines 287 to 314. */
    method HandOver(ghost plan: Plan)
      requires Shape() && lengthLevel == HEADER_SIZE && dataLevel == |dataBuffer|
      requires connected ==> Follows(plan)
      modifies this
      ensures Shape() && lengthLevel == 0 && connected == old(connected)
      ensures handed == old(handed) + [old(dataBuffer)] && script == old(script)
      ensures connected ==> Follows(plan)
    {
      if connected { WholeFrame(); }
      // room for the end pointer; the parser sees everything before it
      dataBuffer := dataBuffer + [0];
      assert |dataBuffer| <= MAX_MESSAGE_SIZE + 1;
      var payload := dataBuffer[..|dataBuffer| - 1];
      assert payload == old(dataBuffer);
      Parse(payload);
      dataBuffer := [];
      lengthLevel := 0;
      dataLevel := 0;
      assert connected ==> Pending() == [];
    }

    /** An unparsable payload is logged and otherwise ignored. */
    method Parse(payload: Payload)
      requires dispatched == Filter(parses, handed)
      modifies this`handed, this`dispatched
      ensures handed == old(handed) + [payload] && dispatched == Filter(parses, handed)
    {
      if parses(payload) {
        dispatched := dispatched + [payload];
      }
      handed := handed + [payload];
      assert handed[..|handed| - 1] == old(handed);
    }

    lemma WholeFrame()
      requires Sound() && lengthLevel == HEADER_SIZE && dataLevel == |dataBuffer|
      ensures history == Frames(handed + [dataBuffer])
    {
      BigEndianInjective(Htonl(|dataBuffer|), lengthBuffer[..]);
      assert Pending() == Frame(dataBuffer);
      FramesAppend(handed, [dataBuffer]);
      assert Frames([dataBuffer]) == Frame(dataBuffer) + Frames([]);
    }

    /** The empty payload a further call hands over after an unacceptable length. */
    ghost function Leftover(): seq<Payload>
      reads this
      requires Shape()
    {
      if lengthLevel == HEADER_SIZE && dataLevel == |dataBuffer| then [dataBuffer] else []
    }

    /**
     `receive()`. On a live connection, however the bytes are split and wherever
     reads would block, the payloads handed to the parser are the reference decoding
     of everything received, all available bytes are consumed, and the connection is
     kept exactly when no length is unacceptable and the socket merely would block.
     On a dead connection it reports an error; after an unacceptable length it first
     hands over one empty payload.
     */
    method Receive() returns (rc: int)
      requires Valid()
      modifies this, lengthBuffer
      ensures Valid()
      ensures old(connected) ==>
                Ended(Plan(old(history) + Upcoming(old(script)), EndOf(old(script)), After(old(script))), rc)
      ensures !old(connected) ==> rc == -1 && !connected && handed == old(handed) + old(Leftover())
    {
      ghost var plan := Plan(history + Upcoming(script), EndOf(script), After(script));
      ghost var left := Leftover();
      assert lengthLevel == HEADER_SIZE ==> Pending()[..HEADER_SIZE] == lengthBuffer[..];
      while true
        invariant Shape() && connected == old(connected)
        invariant connected ==> Follows(plan) && Leftover() == []
        invariant !connected ==> handed + Leftover() == old(handed) + left
        decreases Supply(script), lengthLevel
      {
        var s := ReadHeader(plan);
        if s.Return? { return s.rc; }
        s := ReadBody(plan);
        if s.Return? { return s.rc; }
        HandOver(plan);
      }
    }

    /** The connection so far agrees with the reference decoding of the stream `all`. */
    ghost predicate Agrees(all: seq<Byte>)
      reads this, lengthBuffer
    {
      && Valid()
      && (connected ==> history + Stream(script) == all)
      && (!connected ==> handed == Decode(all).frames)
    }

    /** One call of `receive()` by the event loop. */
    method Poll(ghost all: seq<Byte>)
      requires Agrees(all) && connected && script != []
      modifies this, lengthBuffer
      ensures Agrees(all) && (connected ==> Supply(script) < Supply(old(script)))
    {
      StreamByCalls(script);
      ghost var received := history + Upcoming(script);
      ghost var later := if EndOf(script) == Again then Stream(After(script)) else [];
      assert received + later == all;
      var _ := Receive();
      if Decode(received).rejected {
        DecodeAfterReject(received, later);
      } else if !connected {
        assert received == all;
      }
    }

    /**
     A whole connection: `start()`, then the event loop calls `receive()` as long as
     the socket has something to report. From any earlier state, the payloads handed
     to the parser are those of the reference decoding of the bytes the new
     connection carries: nothing of the old connection, no trace of how the bytes
     were split.
     */
    method Connection(supply: seq<Event>)
      requires Valid()
      modifies this, lengthBuffer
      ensures Valid() && handed == Decode(Stream(supply)).frames
      ensures dispatched == Filter(parses, Decode(Stream(supply)).frames)
    {
      Start(supply);
      while connected && script != []
        invariant Agrees(Stream(supply))
        decreases connected, Supply(script)
      {
        Poll(Stream(supply));
      }
      if connected {
        assert history == Stream(supply);
        DecodeUnique(handed, Pending());
      }
    }
  }
}
