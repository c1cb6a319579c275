/** The transport collaborators of the handshake: a bidirectional stream with an independent
    half-close of its write side, and the network node that installs inbound handlers and
    dials outbound streams. Both are scripted: what the peer sends and what a dial yields
    are fixed inputs, and every effect on them is logged. */
module Transport {
  import opened Outcomes

  /** One effect on the write side of a stream, in the order it happened. */
  datatype Event = Wrote(text: string) | ClosedWrite | Closed

  /** The fixed behaviour of a stream: whether its read side ends once the queued chunks are
      consumed (otherwise it stays open and silent), whether its source ends for good when a
      reader leaves a `for await` loop over it early (as an async generator does when the loop
      calls its `return()`), which of the optional `closeWrite` and `close` methods it has,
      and whether its sink rejects writes. */
  datatype Caps = Caps(ends: bool, closesOnReturn: bool, hasCloseWrite: bool, hasClose: bool,
                       sinkError: Option<string>)

  /** Everything observable about a stream: its fixed capabilities, the decoded text chunks
      its read side has yet to yield, whether a reader has ended its source by leaving a read
      loop early, and what was done to its write side. */
  datatype StreamView = StreamView(caps: Caps, incoming: seq<string>, returned: bool, events: seq<Event>)

  /** The read side ends once the queued chunks are consumed. */
  predicate Ends(v: StreamView) {
    v.caps.ends || v.returned
  }

  /** What a peer will do on a stream it accepts: the stream's capabilities and the chunks it sends. */
  datatype StreamScript = StreamScript(caps: Caps, incoming: seq<string>)

  function Opened(script: StreamScript): (v: StreamView)
    ensures v.events == [] && v.incoming == script.incoming && v.caps == script.caps && !v.returned
  {
    StreamView(script.caps, script.incoming, false, [])
  }

  /** The `return()` a `for await` loop calls on the source it leaves early: a source that
      closes on return drops the chunks it has not yielded and ends; any other keeps them. */
  function ReturnSpec(v: StreamView): (r: StreamView)
    ensures r.caps == v.caps && r.events == v.events
    ensures v.caps.closesOnReturn ==> r.incoming == [] && Ends(r)
    ensures !v.caps.closesOnReturn ==> r == v
  {
    if v.caps.closesOnReturn then v.(incoming := [], returned := true) else v
  }

  /** `stream.sink(one())`: a single write of `text`, or the sink's rejection. */
  function SinkSpec(v: StreamView, text: string): (r: (StreamView, Outcome<()>))
    ensures r.0.caps == v.caps && r.0.incoming == v.incoming && r.0.returned == v.returned
    ensures v.caps.sinkError.None? ==> r.0.events == v.events + [Wrote(text)] && r.1 == Ok(())
    ensures v.caps.sinkError.Some? ==> r.0 == v && r.1 == Err(v.caps.sinkError.value)
  {
    match v.caps.sinkError
    case None => (v.(events := v.events + [Wrote(text)]), Ok(()))
    case Some(e) => (v, Err(e))
  }

  function Append(v: StreamView, e: Event): (r: StreamView)
    ensures r.caps == v.caps && r.incoming == v.incoming && r.returned == v.returned
    ensures r.events == v.events + [e]
  {
    v.(events := v.events + [e])
  }

  class Stream {
    const caps: Caps
    var incoming: seq<string>
    var returned: bool
    var events: seq<Event>

    function View(): StreamView
      reads this
    {
      StreamView(caps, incoming, returned, events)
    }

    /** The write side is half-closed once closeWrite or close has been called. */
    predicate WriteClosed()
      reads this
    {
      ClosedWrite in events || Closed in events
    }

    predicate FullyClosed()
      reads this
    {
      Closed in events
    }

    constructor (script: StreamScript)
      ensures View() == Opened(script)
    {
      caps := script.caps;
      incoming := script.incoming;
      returned := false;
      events := [];
    }

    method Sink(text: string) returns (r: Outcome<()>)
      modifies this
      ensures (View(), r) == SinkSpec(old(View()), text)
    {
      if caps.sinkError.Some? {
        r := Err(caps.sinkError.value);
      } else {
        events := events + [Wrote(text)];
        r := Ok(());
      }
    }

    method CloseWrite()
      requires caps.hasCloseWrite
      modifies this
      ensures View() == Append(old(View()), ClosedWrite)
      ensures WriteClosed()
    {
      events := events + [ClosedWrite];
    }

    method Close()
      requires caps.hasClose
      modifies this
      ensures View() == Append(old(View()), Closed)
      ensures WriteClosed() && FullyClosed()
    {
      events := events + [Closed];
    }

    /** The next chunk of the read side's async iterator. */
    method NextChunk() returns (chunk: string)
      requires incoming != []
      modifies this
      ensures chunk == old(incoming[0]) && incoming == old(incoming[1..])
      ensures returned == old(returned) && events == old(events)
    {
      chunk := incoming[0];
      incoming := incoming[1..];
    }

    /** The source's `return()`, called by a `for await` loop left early. */
    method Return()
      modifies this
      ensures View() == ReturnSpec(old(View()))
    {
      if caps.closesOnReturn {
        incoming := [];
        returned := true;
      }
    }
  }

  /** What a dial to the peer yields: a stream, or the transport's rejection. */
  datatype DialScript = Accept(script: StreamScript) | Refuse(message: string)

  datatype Dial = Dial(address: string, protocolId: string)

  /** How a dial settles: connected on the next script, refused, or (no connection left to
      give) it never settles. */
  datatype DialReply = Connected(script: StreamScript) | Refused(message: string) | Unanswered

  datatype NetView = NetView(handlers: set<string>, outbound: seq<DialScript>, dials: seq<Dial>)

  function DialSpec(n: NetView, address: string, protocolId: string): (r: (NetView, DialReply))
    ensures r.0.handlers == n.handlers && r.0.dials == n.dials + [Dial(address, protocolId)]
    ensures n.outbound == [] ==> r.1 == Unanswered && r.0.outbound == []
    ensures n.outbound != [] ==> r.0.outbound == n.outbound[1..]
    ensures n.outbound != [] && n.outbound[0].Accept? ==> r.1 == Connected(n.outbound[0].script)
    ensures n.outbound != [] && n.outbound[0].Refuse? ==> r.1 == Refused(n.outbound[0].message)
  {
    var n' := n.(dials := n.dials + [Dial(address, protocolId)]);
    if n.outbound == [] then (n', Unanswered)
    else
      var next := n.outbound[0];
      (n'.(outbound := n.outbound[1..]), if next.Accept? then Connected(next.script) else Refused(next.message))
  }

  /** The network node: the protocol ids with an installed inbound handler, the scripted
      outcomes of its future dials, and the log of dials made. */
  class Network {
    var handlers: set<string>
    var outbound: seq<DialScript>
    var dials: seq<Dial>

    function View(): NetView
      reads this
    {
      NetView(handlers, outbound, dials)
    }

    constructor (outbound: seq<DialScript>)
      ensures View() == NetView({}, outbound, [])
    {
      handlers := {};
      this.outbound := outbound;
      dials := [];
    }

    /** `node.handle(pid, ...)`: install the inbound handler for `pid`. */
    method Handle(protocolId: string)
      modifies this
      ensures View() == old(View()).(handlers := old(handlers) + {protocolId})
    {
      handlers := handlers + {protocolId};
    }

    /** `node.unhandle(pid)`: remove it; removing an absent handler changes nothing. */
    method Unhandle(protocolId: string)
      modifies this
      ensures View() == old(View()).(handlers := old(handlers) - {protocolId})
    {
      handlers := handlers - {protocolId};
    }

    /** `node.dialProtocol(address, pid)`. When it connects, the stream is new. */
    method DialProtocol(address: string, protocolId: string) returns (stream: Stream?, reply: DialReply)
      modifies this
      ensures (View(), reply) == DialSpec(old(View()), address, protocolId)
      ensures reply.Connected? ==> stream != null && fresh(stream) && stream.View() == Opened(reply.script)
      ensures !reply.Connected? ==> stream == null
    {
      dials := dials + [Dial(address, protocolId)];
      stream := null;
      if outbound == [] {
        reply := Unanswered;
      } else {
        var next := outbound[0];
        outbound := outbound[1..];
        match next
        case Accept(script) =>
          stream := new Stream(script);
          reply := Connected(script);
        case Refuse(message) =>
          reply := Refused(message);
      }
    }
  }
}
