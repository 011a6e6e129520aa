/**
 * The SKNet session layer: a server that hands out connection ids and keeps
 * a registry, a client, the two-sided session handshake, the receive loop
 * and the client's active close.
 *
 * Sockets and object streams become values: a `Socket` says whether the
 * stream headers can be created, what the peer will send (`incoming`) and
 * whether writes fail; a connection keeps the unread input and a log of the
 * packets it wrote. Packet listeners are opaque ids, and every callback into
 * them is an `Event` appended to the log of the endpoint that made it.
 */
module SKNet {
  import opened Java

  /** The two connection types (the `SK_SERVER` and `SK_CLIENT` constants). */
  datatype Role = ServerRole | ClientRole

  /** Packets in their serialised form. */
  datatype Packet =
    | ServerHello(id: int)            // SKServerPacket
    | ClientHello(valid: bool)        // SKClientPacket
    | Disconnect(msg: Option<string>) // SKDisconnectPacket, sent with no message by the library
    | App(name: string)               // a packet class defined by the application

  /** What `readObject` returns: a packet, a null reference, or an object of some other class. */
  datatype WireObject = Pkt(packet: Packet) | NullObject | Foreign

  /** One read from the peer: an object, or one of the two checked exceptions of `readObject`. */
  datatype Incoming = Read(obj: WireObject) | ReadIOError | ReadClassNotFound

  /** Which of the two stream headers cannot be created when a connection is initialised. */
  datatype HeaderFault = NoFault | OutputFails | InputFails

  /** A connected socket as the connection sees it. */
  datatype Socket = Socket(fault: HeaderFault, incoming: seq<Incoming>, sendFails: bool)

  /**
   * The result of a stream operation: a value, a checked exception
   * (`IOException` or `ClassNotFoundException`, which every caller in the
   * library treats alike), or an unchecked exception.
   */
  datatype Io<+T> = Done(value: T) | IoFailure | Raised(ex: Exception)

  /** A callback into a packet listener. */
  datatype Event =
    | Connected(listener: nat, conn: Connection)
    | Disconnected(listener: nat, target: Connection?) // null when the id has no registry entry
    | Dispatched(listeners: seq<nat>, conn: Connection, packet: Option<Packet>) // one `received` thread per listener

  /** The packet object handed to `init`. */
  datatype InitPacket = ServerArg(id: int) | ClientArg(cp: ClientPacket) | OtherArg(p: Packet)

  /** How a receive loop ends. */
  datatype RunEnd =
    | ClosedStop        // the connection was closed when the loop condition was tested
    | Exited            // a disconnect packet arrived and the owner's close returned
    | ReadingForever    // the peer sends nothing more: every later read fails and is retried
    | Escaped(ex: Exception)

  /** `receivePacket`'s type filter applied to one read. */
  function ReadObject(item: Incoming): (r: Io<Option<Packet>>)
    ensures r.Done? <==> item.Read? && !item.obj.Foreign?
    ensures r.Done? && item.obj.Pkt? ==> r.value == Some(item.obj.packet)
    ensures r.Done? && item.obj.NullObject? ==> r.value == None
    ensures r.Raised? <==> item == Read(Foreign)
    ensures r.Raised? ==> r.ex == IllegalState
  {
    match item
    case ReadIOError => IoFailure
    case ReadClassNotFound => IoFailure
    case Read(Pkt(p)) => Done(Some(p))
    case Read(NullObject) => Done(None)
    case Read(Foreign) => Raised(IllegalState)
  }

  /** What `sendPacket` does in a given stream state. */
  function SendResult(outOpen: bool, closed: bool, sendFails: bool): (r: Io<()>)
    ensures r.Raised? <==> !outOpen
    ensures r.Raised? ==> r.ex == NullPointer
    ensures r.Done? <==> outOpen && !closed && !sendFails
  {
    if !outOpen then Raised(NullPointer)
    else if closed || sendFails then IoFailure
    else Done(())
  }

  /** What `receivePacket` yields in a given stream state; a stream with nothing left fails like one at its end. */
  function NextRead(inOpen: bool, closed: bool, input: seq<Incoming>): (r: Io<Option<Packet>>)
    ensures !inOpen ==> r == Raised(NullPointer)
    ensures inOpen && (closed || input == []) ==> r == IoFailure
    ensures inOpen && !closed && input != [] ==> r == ReadObject(input[0])
  {
    if !inOpen then Raised(NullPointer)
    else if closed || input == [] then IoFailure
    else ReadObject(input[0])
  }

  /** The input left after `receivePacket`: exactly one read is consumed when the stream is readable. */
  function AfterRead(inOpen: bool, closed: bool, input: seq<Incoming>): (rest: seq<Incoming>)
    ensures inOpen && !closed && input != [] ==> rest == input[1..]
    ensures !inOpen || closed || input == [] ==> rest == input
  {
    if !inOpen || closed || input == [] then input else input[1..]
  }

  /** Server side of the handshake after its packet went out: the reply must be a validated client packet. */
  function CheckClientReply(reply: Io<Option<Packet>>): (o: Outcome)
    ensures o.Normal? <==> reply.IoFailure? || reply == Done(Some(ClientHello(true)))
    ensures reply.Raised? ==> o == Thrown(reply.ex)
    ensures reply.Done? && reply.value != Some(ClientHello(true)) ==> o == Thrown(IllegalState)
  {
    match reply
    case IoFailure => Normal
    case Raised(e) => Thrown(e)
    case Done(p) => if p == Some(ClientHello(true)) then Normal else Thrown(IllegalState)
  }

  /** True when a reply read by the client side of the handshake is a server packet. */
  predicate IsServerHello(reply: Io<Option<Packet>>)
  {
    reply.Done? && reply.value.Some? && reply.value.value.ServerHello?
  }

  /** Client side of the handshake when the reply is not a server packet. */
  function RejectServerReply(reply: Io<Option<Packet>>): (o: Outcome)
    requires !IsServerHello(reply)
    ensures o.Normal? <==> reply.IoFailure?
    ensures reply.Raised? ==> o == Thrown(reply.ex)
    ensures reply.Done? ==> o == Thrown(IllegalState)
  {
    match reply
    case IoFailure => Normal
    case Raised(e) => Thrown(e)
    case Done(_) => Thrown(IllegalState)
  }

  /** The outcome of a step whose checked exceptions are caught and printed. */
  function Swallowed<T>(r: Io<T>): (o: Outcome)
    ensures o.Normal? <==> !r.Raised?
    ensures r.Raised? ==> o == Thrown(r.ex)
  {
    if r.Raised? then Thrown(r.ex) else Normal
  }

  /** How a receive loop ends once the owner's close returned `o`. */
  function EndAfter(o: Outcome): (r: RunEnd)
    ensures r == Exited <==> o.Normal?
    ensures o.Thrown? ==> r == Escaped(o.ex)
  {
    if o.Normal? then Exited else Escaped(o.ex)
  }

  /** `init` accepts a server packet only on a server connection and a client packet only on a client connection. */
  predicate Accepts(role: Role, packet: InitPacket)
  {
    (packet.ServerArg? && role == ServerRole) || (packet.ClientArg? && role == ClientRole)
  }

  /** One `connected` call per listener, in list order. */
  function ConnectedEvents(ls: seq<nat>, c: Connection): (es: seq<Event>)
    ensures |es| == |ls|
    ensures forall i :: 0 <= i < |ls| ==> es[i] == Connected(ls[i], c)
  {
    seq(|ls|, i requires 0 <= i < |ls| => Connected(ls[i], c))
  }

  /** One `disconnected` call per listener, in list order. */
  function DisconnectedEvents(ls: seq<nat>, c: Connection?): (es: seq<Event>)
    ensures |es| == |ls|
    ensures forall i :: 0 <= i < |ls| ==> es[i] == Disconnected(ls[i], c)
  {
    seq(|ls|, i requires 0 <= i < |ls| => Disconnected(ls[i], c))
  }

  /** An item at which the receive loop stops reading: a disconnect packet, or an object that is not a packet. */
  predicate EndsLoop(item: Incoming)
  {
    item == Read(Foreign) || (item.Read? && item.obj.Pkt? && item.obj.packet.Disconnect?)
  }

  /** The packets one read hands to the listeners: a packet or a null; a failed read hands over nothing. */
  function Delivery(item: Incoming): seq<Option<Packet>>
  {
    match item
    case Read(Pkt(p)) => [Some(p)]
    case Read(NullObject) => [None]
    case _ => []
  }

  /** What the receive loop makes of a run of reads: the packets it hands over, the item that ends it
    * (none when the reads run out first), and the reads left unconsumed. */
  datatype Trace = Trace(delivered: seq<Option<Packet>>, end: Option<Incoming>, rest: seq<Incoming>)

  function ReadLoop(items: seq<Incoming>): (t: Trace)
    ensures t.end.Some? ==> EndsLoop(t.end.value)
    ensures t.end.None? ==> t.rest == []
    ensures |t.delivered| + |t.rest| <= |items|
  {
    if items == [] then Trace([], None, [])
    else if EndsLoop(items[0]) then Trace([], Some(items[0]), items[1..])
    else
      var t := ReadLoop(items[1..]);
      Trace(Delivery(items[0]) + t.delivered, t.end, t.rest)
  }

  /** The loop stops at the first ending item and leaves exactly what follows it. */
  lemma {:induction false} ReadLoopStopsAtFirstEnd(items: seq<Incoming>)
    ensures var t := ReadLoop(items); var n := |items| - |t.rest|;
      (t.end.None? ==> forall j :: 0 <= j < |items| ==> !EndsLoop(items[j])) &&
      (t.end.Some? ==> 0 < n && items[n - 1] == t.end.value && items[n..] == t.rest &&
                       forall j :: 0 <= j < n - 1 ==> !EndsLoop(items[j]))
  {
    if items != [] && !EndsLoop(items[0]) {
      ReadLoopStopsAtFirstEnd(items[1..]);
      var t := ReadLoop(items[1..]);
      var n := |items[1..]| - |t.rest|;
      forall j | 0 <= j < |items| && (t.end.Some? ==> j < n) ensures !EndsLoop(items[j]) {
        if j > 0 {
          assert items[j] == items[1..][j - 1];
        }
      }
      if t.end.Some? {
        assert items[n] == items[1..][n - 1];
        assert items[n + 1..] == items[1..][n..];
      }
    }
  }

  /** No packet handed to the listeners by the receive loop is a disconnect packet. */
  lemma {:induction false} ReadLoopNoDisconnect(items: seq<Incoming>, j: nat)
    requires j < |ReadLoop(items).delivered|
    ensures ReadLoop(items).delivered[j].Some? ==> !ReadLoop(items).delivered[j].value.Disconnect?
  {
    if items != [] && !EndsLoop(items[0]) {
      var d := Delivery(items[0]);
      if j >= |d| {
        ReadLoopNoDisconnect(items[1..], j - |d|);
      }
    }
  }

  /** How one read moves the loop along: a failed read hands over nothing, a packet or null is handed over
    * and reading goes on, and a disconnect or a foreign object ends the loop there. */
  lemma ReadLoopStep(items: seq<Incoming>, got: Io<Option<Packet>>)
    requires items != [] && got == ReadObject(items[0])
    ensures var t0, t := ReadLoop(items), ReadLoop(items[1..]);
      (got.IoFailure? ==> t0 == t) &&
      (got.Done? && !(got.value.Some? && got.value.value.Disconnect?) ==>
         t0 == Trace([got.value] + t.delivered, t.end, t.rest)) &&
      (got.Done? && got.value.Some? && got.value.value.Disconnect? ==>
         t0 == Trace([], Some(items[0]), items[1..]) && items[0] != Read(Foreign)) &&
      (got.Raised? ==> t0 == Trace([], Some(Read(Foreign)), items[1..]) && got.ex == IllegalState)
  {
    if got.IoFailure? {
      assert [] + ReadLoop(items[1..]).delivered == ReadLoop(items[1..]).delivered;
    }
  }

  lemma AppendShift<T>(a: seq<T>, x: T, b: seq<T>)
    ensures a + [x] + b == a + ([x] + b)
  {
  }

  /** The dispatch events for a sequence of delivered packets. */
  function DispatchLog(ls: seq<nat>, c: Connection, ps: seq<Option<Packet>>): (es: seq<Event>)
    ensures |es| == |ps|
    ensures forall i :: 0 <= i < |ps| ==> es[i] == Dispatched(ls, c, ps[i])
  {
    seq(|ps|, i requires 0 <= i < |ps| => Dispatched(ls, c, ps[i]))
  }

  lemma DispatchLogAppend(ls: seq<nat>, c: Connection, ps: seq<Option<Packet>>, qs: seq<Option<Packet>>)
    ensures DispatchLog(ls, c, ps + qs) == DispatchLog(ls, c, ps) + DispatchLog(ls, c, qs)
  {
    var a, b := DispatchLog(ls, c, ps + qs), DispatchLog(ls, c, ps) + DispatchLog(ls, c, qs);
    assert |a| == |b|;
    forall i | 0 <= i < |a| ensures a[i] == b[i] {
      if i < |ps| {
        assert (ps + qs)[i] == ps[i];
      } else {
        assert (ps + qs)[i] == qs[i - |ps|];
      }
    }
  }

  /** The packet object that opens a session on the client side. */
  class ClientPacket {
    var valid: bool

    constructor ()
      ensures !valid
    {
      valid := false;
    }

    /** Marks the packet as accepted by the client; nothing sets it back. */
    method Validate()
      modifies this
      ensures valid
    {
      valid := true;
    }

    function IsValid(): (b: bool)
      reads this
      ensures b <==> valid
    {
      valid
    }

    function GetName(): (n: string)
      ensures n == "Client Session Initialization"
    {
      "Client Session Initialization"
    }

    /** `toString` of every packet is its name. */
    function ToString(): (s: string)
      ensures s == GetName()
    {
      GetName()
    }
  }

  class Connection {
    const role: Role
    const socket: Socket
    var id: int
    var outOpen: bool
    var inOpen: bool
    var input: seq<Incoming>
    var output: seq<Packet>
    var closed: bool
    var listener: CommunicationListener?
    var server: Server?
    var client: Client?

    constructor (role: Role, socket: Socket)
      ensures this.role == role && this.socket == socket
      ensures id == -1 && !outOpen && !inOpen && !closed
      ensures input == socket.incoming && output == []
      ensures listener == null && server == null && client == null
    {
      this.role := role;
      this.socket := socket;
      id := -1;
      outOpen, inOpen := false, false;
      input, output := socket.incoming, [];
      closed := false;
      listener, server, client := null, null, null;
    }

    /** The session id, the streams' existence, the listener and the owners are as they were. */
    twostate predicate SessionKept()
      reads this
    {
      unchanged(this`id, this`outOpen, this`inOpen, this`listener, this`server, this`client)
    }

    /** Every field but the pending input is as it was. */
    twostate predicate KeptButInput()
      reads this
    {
      SessionKept() && unchanged(this`output, this`closed)
    }

    method SendPacket(p: Packet) returns (r: Io<()>)
      modifies this`output
      ensures r == SendResult(outOpen, closed, socket.sendFails)
      ensures output == old(output) + (if r.Done? then [p] else [])
    {
      r := SendResult(outOpen, closed, socket.sendFails);
      if r.Done? {
        output := output + [p];
      }
    }

    method ReceivePacket() returns (r: Io<Option<Packet>>)
      modifies this`input
      ensures r == NextRead(inOpen, closed, old(input))
      ensures input == AfterRead(inOpen, closed, old(input))
    {
      if !inOpen {
        return Raised(NullPointer);
      }
      if closed || input == [] {
        return IoFailure;
      }
      var item := input[0];
      input := input[1..];
      r := ReadObject(item);
    }

    /** The session handshake, run once the stream headers are created. */
    method Init(packet: InitPacket) returns (o: Outcome)
      modifies this, if packet.ClientArg? then {packet.cp} else {}
      ensures outOpen == (socket.fault != OutputFails) && inOpen == (socket.fault == NoFault)
      ensures closed == old(closed) && listener == old(listener)
      ensures server == old(server) && client == old(client)
      ensures !Accepts(role, packet) ==>
        o == Thrown(IllegalArgument) && id == old(id) && input == old(input) && output == old(output)
      ensures packet.ServerArg? && role == ServerRole ==>
        var sent := SendResult(outOpen, closed, socket.sendFails);
        var reply := NextRead(inOpen, closed, old(input));
        if !sent.Done? then
          o == Swallowed(sent) && id == old(id) && input == old(input) && output == old(output)
        else
          output == old(output) + [ServerHello(packet.id)] &&
          input == AfterRead(inOpen, closed, old(input)) &&
          o == CheckClientReply(reply) &&
          id == (if reply == Done(Some(ClientHello(true))) then packet.id else old(id))
      ensures packet.ClientArg? && role == ClientRole ==>
        var reply := NextRead(inOpen, closed, old(input));
        var sent := SendResult(outOpen, closed, socket.sendFails);
        input == AfterRead(inOpen, closed, old(input)) &&
        if IsServerHello(reply) then
          id == reply.value.value.id && packet.cp.valid &&
          output == old(output) + (if sent.Done? then [ClientHello(true)] else []) &&
          o == Swallowed(sent)
        else
          id == old(id) && packet.cp.valid == old(packet.cp.valid) &&
          output == old(output) && o == RejectServerReply(reply)
    {
      outOpen := socket.fault != OutputFails;
      inOpen := socket.fault == NoFault;
      match packet
      case ServerArg(n) =>
        if role == ClientRole {
          return Thrown(IllegalArgument);
        }
        var sent := SendPacket(ServerHello(n));
        if !sent.Done? {
          return Swallowed(sent);
        }
        var reply := ReceivePacket();
        o := CheckClientReply(reply);
        if reply == Done(Some(ClientHello(true))) {
          id := n;
        }
      case ClientArg(cp) =>
        if role == ServerRole {
          return Thrown(IllegalArgument);
        }
        var reply := ReceivePacket();
        if !IsServerHello(reply) {
          return RejectServerReply(reply);
        }
        id := reply.value.value.id;
        cp.Validate();
        var sent := SendPacket(ClientHello(cp.valid));
        o := Swallowed(sent);
      case OtherArg(_) =>
        o := Thrown(IllegalArgument);
    }

    /** Closes both streams, then the socket; closing the output stream already closes the socket,
      * so a missing input stream raises only after the socket is closed. */
    method Close() returns (o: Outcome)
      modifies this`closed
      ensures o.Normal? <==> outOpen && inOpen
      ensures o.Thrown? ==> o.ex == NullPointer
      ensures closed == (old(closed) || outOpen)
    {
      if !outOpen {
        return Thrown(NullPointer);
      }
      closed := true;
      if !inOpen {
        return Thrown(NullPointer);
      }
      o := Normal;
    }

    method StartListening()
      requires role == ServerRole ==> server != null
      requires role == ClientRole ==> client != null
      modifies this`listener
      ensures listener != null && fresh(listener)
      ensures listener.connection == this && listener.role == role
    {
      listener := new CommunicationListener(this);
    }

    method SetServer(s: Server) returns (o: Outcome)
      modifies this`server
      ensures o.Thrown? <==> role == ClientRole
      ensures o.Thrown? ==> o.ex == IllegalState && server == old(server)
      ensures o.Normal? ==> server == s
    {
      if role == ClientRole {
        return Thrown(IllegalState);
      }
      server := s;
      o := Normal;
    }

    method GetServer() returns (r: Result<Server?>)
      ensures r.Throws? <==> role == ClientRole
      ensures r.Throws? ==> r.ex == IllegalState
      ensures r.Ok? ==> r.value == server
    {
      if role == ClientRole {
        return Throws(IllegalState);
      }
      r := Ok(server);
    }

    method SetClient(c: Client) returns (o: Outcome)
      modifies this`client
      ensures o.Thrown? <==> role == ServerRole
      ensures o.Thrown? ==> o.ex == IllegalState && client == old(client)
      ensures o.Normal? ==> client == c
    {
      if role == ServerRole {
        return Thrown(IllegalState);
      }
      client := c;
      o := Normal;
    }

    method GetClient() returns (r: Result<Client?>)
      ensures r.Throws? <==> role == ServerRole
      ensures r.Throws? ==> r.ex == IllegalState
      ensures r.Ok? ==> r.value == client
    {
      if role == ServerRole {
        return Throws(IllegalState);
      }
      r := Ok(client);
    }
  }

  /** True when `id` is what the scan in `addConnection` arrives at, and `handshake` whether it found a free slot. */
  predicate ScanResult(registry: map<int, Connection>, max: int, id: int, handshake: bool)
  {
    (forall j :: 0 <= j < id ==> j in registry) &&
    (handshake ==> 0 <= id && id !in registry && (max == 0 || id < max)) &&
    (!handshake ==> max != 0 && id == (if max < 0 then 0 else max))
  }

  /** A set holding all of 0..n-1 has at least n elements. */
  lemma {:induction false} PrefixInKeys(ks: set<int>, n: nat)
    requires forall j :: 0 <= j < n ==> j in ks
    ensures n <= |ks|
  {
    if n > 0 {
      var rest := ks - {n - 1};
      assert forall j :: 0 <= j < n - 1 ==> j in rest;
      PrefixInKeys(rest, n - 1);
    }
  }

  class Server {
    var connections: map<int, Connection>
    var listeners: seq<nat>
    var events: seq<Event>
    var running: bool
    var timeout: int
    var maxConnections: int

    constructor ()
      ensures connections == map[] && listeners == [] && events == []
      ensures !running && timeout == 10000 && maxConnections == 1000
    {
      connections, listeners, events := map[], [], [];
      running := false;
      timeout, maxConnections := 10000, 1000;
    }

    /** Starts accepting connections; refused while no listener is registered. */
    method Start() returns (o: Outcome)
      modifies this`running
      ensures o.Thrown? <==> |listeners| < 1
      ensures o.Thrown? ==> o.ex == IllegalState && running == old(running)
      ensures o.Normal? ==> running
    {
      if |listeners| < 1 {
        return Thrown(IllegalState);
      }
      running := true;
      o := Normal;
    }

    method AddPacketListener(l: nat)
      modifies this`listeners
      ensures listeners == old(listeners) + [l]
    {
      listeners := listeners + [l];
    }

    /** The id scan of `addConnection`: the lowest id with no registry entry, below the limit unless it is 0. */
    method ScanForId() returns (id: int, handshake: bool)
      ensures ScanResult(connections, maxConnections, id, handshake)
    {
      id := 0;
      while id < maxConnections || maxConnections == 0
        invariant 0 <= id
        invariant maxConnections > 0 ==> id <= maxConnections
        invariant maxConnections < 0 ==> id == 0
        invariant forall j :: 0 <= j < id ==> j in connections
        decreases |connections.Keys| - id
      {
        PrefixInKeys(connections.Keys, id);
        if id !in connections {
          return id, true;
        }
        PrefixInKeys(connections.Keys, id + 1);
        id := id + 1;
      }
      handshake := false;
    }

    /** Registers a newly accepted socket under the scanned id, notifies the listeners and starts reading. */
    method AddConnection(socket: Socket) returns (conn: Connection, id: int, handshake: bool, o: Outcome)
      modifies this`connections, this`events
      ensures fresh(conn) && conn.role == ServerRole && conn.server == this && conn.socket == socket
      ensures ScanResult(old(connections), maxConnections, id, handshake)
      ensures !handshake ==> conn.id == -1 && conn.output == [] && !conn.outOpen && !conn.inOpen
      ensures conn.id == -1 || conn.id == id
      ensures !handshake ==> o == Normal
      ensures handshake ==>
        var outOpen, inOpen := socket.fault != OutputFails, socket.fault == NoFault;
        var sent := SendResult(outOpen, false, socket.sendFails);
        var reply := NextRead(inOpen, false, socket.incoming);
        conn.outOpen == outOpen && conn.inOpen == inOpen && !conn.closed &&
        if !sent.Done? then
          o == Swallowed(sent) && conn.id == -1 && conn.output == [] && conn.input == socket.incoming
        else
          conn.output == [ServerHello(id)] && conn.input == AfterRead(inOpen, false, socket.incoming) &&
          o == CheckClientReply(reply) &&
          conn.id == (if reply == Done(Some(ClientHello(true))) then id else -1)
      ensures o.Thrown? ==>
        connections == old(connections) && events == old(events) && conn.listener == null
      ensures o.Normal? ==>
        connections == old(connections)[id := conn] &&
        events == old(events) + ConnectedEvents(listeners, conn) &&
        conn.listener != null
    {
      conn := new Connection(ServerRole, socket);
      var _ := conn.SetServer(this);
      id, handshake := ScanForId();
      o := Normal;
      if handshake {
        o := conn.Init(ServerArg(id));
        if o.Thrown? {
          return;
        }
      }
      connections := connections[id := conn];
      NotifyConnected(conn);
      conn.StartListening();
    }

    /** Sends a disconnect packet to one client; the registry entry stays. */
    method Disconnect(clientId: int) returns (o: Outcome)
      modifies (if clientId in connections then {connections[clientId]} else {})`output
      ensures clientId !in connections ==> o == Thrown(NullPointer)
      ensures clientId in connections ==>
        var c := connections[clientId];
        var sent := SendResult(old(c.outOpen), old(c.closed), c.socket.sendFails);
        o == Swallowed(sent) && c.output == old(c.output) + (if sent.Done? then [Packet.Disconnect(None)] else []) &&
        c.closed == old(c.closed) && c.input == old(c.input) && c.SessionKept()
    {
      if clientId !in connections {
        return Thrown(NullPointer);
      }
      var sent := connections[clientId].SendPacket(Packet.Disconnect(None));
      o := Swallowed(sent);
    }

    /** Tells every listener, then sends a disconnect packet and closes the connection; the registry entry stays. */
    method Close(clientId: int) returns (o: Outcome)
      modifies this`events
      modifies (if clientId in connections then {connections[clientId]} else {})`output
      modifies (if clientId in connections then {connections[clientId]} else {})`closed
      ensures var c := if clientId in connections then connections[clientId] else null;
        events == old(events) + DisconnectedEvents(listeners, c)
      ensures clientId !in connections ==> o == Thrown(NullPointer)
      ensures clientId in connections ==>
        var c := connections[clientId];
        var sent := SendResult(old(c.outOpen), old(c.closed), c.socket.sendFails);
        c.output == old(c.output) + (if sent.Done? then [Packet.Disconnect(None)] else []) &&
        c.input == old(c.input) && c.SessionKept() &&
        if !sent.Done? then o == Swallowed(sent) && c.closed == old(c.closed)
        else (o.Normal? <==> old(c.inOpen)) && (o.Thrown? ==> o.ex == NullPointer) && c.closed
    {
      var c: Connection? := if clientId in connections then connections[clientId] else null;
      NotifyDisconnected(c);
      if c == null {
        return Thrown(NullPointer);
      }
      var sent := c.SendPacket(Packet.Disconnect(None));
      if !sent.Done? {
        return Swallowed(sent);
      }
      o := c.Close();
    }

    /** One `connected` call per listener, in list order. */
    method NotifyConnected(c: Connection)
      modifies this`events
      ensures events == old(events) + ConnectedEvents(listeners, c)
    {
      for i := 0 to |listeners|
        invariant events == old(events) + ConnectedEvents(listeners[..i], c)
      {
        assert ConnectedEvents(listeners[..i + 1], c) == ConnectedEvents(listeners[..i], c) + [Connected(listeners[i], c)];
        events := events + [Connected(listeners[i], c)];
      }
      assert listeners[..|listeners|] == listeners;
    }

    /** One `disconnected` call per listener, in list order. */
    method NotifyDisconnected(c: Connection?)
      modifies this`events
      ensures events == old(events) + DisconnectedEvents(listeners, c)
    {
      for i := 0 to |listeners|
        invariant events == old(events) + DisconnectedEvents(listeners[..i], c)
      {
        assert DisconnectedEvents(listeners[..i + 1], c) == DisconnectedEvents(listeners[..i], c) + [Disconnected(listeners[i], c)];
        events := events + [Disconnected(listeners[i], c)];
      }
      assert listeners[..|listeners|] == listeners;
    }

    /** Records the `received` threads started for one packet. */
    method Dispatch(c: Connection, p: Option<Packet>)
      modifies this`events
      ensures events == old(events) + [Dispatched(listeners, c, p)]
    {
      events := events + [Dispatched(listeners, c, p)];
    }

    method GetConnection(clientId: int) returns (c: Connection?)
      ensures clientId in connections ==> c == connections[clientId]
      ensures clientId !in connections ==> c == null
    {
      c := if clientId in connections then connections[clientId] else null;
    }

    method SetMaxConnections(m: int)
      modifies this`maxConnections
      ensures maxConnections == m
    {
      maxConnections := m;
    }

    method SetTimeout(ms: int)
      modifies this`timeout
      ensures timeout == ms
    {
      timeout := ms;
    }
  }

  class Client {
    var connection: Connection?
    var listeners: seq<nat>
    var events: seq<Event>

    constructor ()
      ensures connection == null && listeners == [] && events == []
    {
      connection, listeners, events := null, [], [];
    }

    /** Opens a session over `socket`: the handshake, then the `connected` calls, then the receive loop. */
    method Connect(socket: Socket) returns (o: Outcome)
      modifies this
      ensures |listeners| < 1 ==> o == Thrown(IllegalState) && connection == old(connection) && events == old(events)
      ensures listeners == old(listeners)
      ensures |listeners| >= 1 ==>
        connection != null && fresh(connection) && connection.role == ClientRole &&
        connection.client == this && connection.socket == socket
      ensures |listeners| >= 1 && o.Thrown? ==> events == old(events) && connection.listener == null
      ensures |listeners| >= 1 && o.Normal? ==>
        events == old(events) + ConnectedEvents(listeners, connection) && connection.listener != null
      ensures |listeners| >= 1 ==>
        var reply := NextRead(connection.inOpen, false, socket.incoming);
        (connection.outOpen <==> socket.fault != OutputFails) &&
        (connection.inOpen <==> socket.fault == NoFault) &&
        !connection.closed && connection.input == AfterRead(connection.inOpen, false, socket.incoming) &&
        (IsServerHello(reply) ==>
           connection.id == reply.value.value.id &&
           o == Swallowed(SendResult(connection.outOpen, false, socket.sendFails)) &&
           connection.output == (if connection.outOpen && !socket.sendFails then [ClientHello(true)] else [])) &&
        (!IsServerHello(reply) ==> connection.id == -1 && connection.output == [] && o == RejectServerReply(reply))
    {
      if |listeners| < 1 {
        return Thrown(IllegalState);
      }
      var c := new Connection(ClientRole, socket);
      var _ := c.SetClient(this);
      connection := c;
      var cp := new ClientPacket();
      o := c.Init(ClientArg(cp));
      if o.Thrown? {
        return;
      }
      NotifyConnected(c);
      c.StartListening();
    }

    /** Sends one disconnect packet; nothing is closed and no listener is told. */
    method Disconnect() returns (o: Outcome)
      modifies (if connection != null then {connection} else {})`output
      ensures connection == null ==> o == Thrown(NullPointer)
      ensures connection != null ==>
        var sent := SendResult(old(connection.outOpen), old(connection.closed), connection.socket.sendFails);
        o == Swallowed(sent) &&
        connection.output == old(connection.output) + (if sent.Done? then [Packet.Disconnect(None)] else []) &&
        connection.closed == old(connection.closed) && connection.input == old(connection.input) &&
        connection.SessionKept()
    {
      if connection == null {
        return Thrown(NullPointer);
      }
      var sent := connection.SendPacket(Packet.Disconnect(None));
      o := Swallowed(sent);
    }

    /** Tells every listener, sends a disconnect packet and waits for the server's disconnect packet before closing. */
    method Close() returns (o: Outcome)
      modifies this`events
      modifies (if connection != null then {connection} else {})`output
      modifies (if connection != null then {connection} else {})`input
      modifies (if connection != null then {connection} else {})`closed
      ensures events == old(events) + DisconnectedEvents(listeners, connection)
      ensures connection == null ==> o == Thrown(NullPointer)
      ensures connection != null ==>
        var c := connection;
        var sent := SendResult(old(c.outOpen), old(c.closed), c.socket.sendFails);
        var reply := NextRead(old(c.inOpen), old(c.closed), old(c.input));
        c.output == old(c.output) + (if sent.Done? then [Packet.Disconnect(None)] else []) &&
        c.SessionKept() &&
        if !sent.Done? then
          o == Swallowed(sent) && c.input == old(c.input) && c.closed == old(c.closed)
        else
          c.input == AfterRead(c.inOpen, old(c.closed), old(c.input)) &&
          if reply.Done? && reply.value.Some? && reply.value.value.Disconnect? then
            (o.Normal? <==> c.inOpen) && c.closed
          else
            o == (if reply.Done? then Thrown(IllegalState) else Swallowed(reply)) && c.closed == old(c.closed)
    {
      NotifyDisconnected(connection);
      if connection == null {
        return Thrown(NullPointer);
      }
      var sent := connection.SendPacket(Packet.Disconnect(None));
      if !sent.Done? {
        return Swallowed(sent);
      }
      var reply := connection.ReceivePacket();
      if !reply.Done? {
        return Swallowed(reply);
      }
      if !(reply.value.Some? && reply.value.value.Disconnect?) {
        return Thrown(IllegalState);
      }
      o := connection.Close();
    }

    method AddPacketListener(l: nat)
      modifies this`listeners
      ensures listeners == old(listeners) + [l]
    {
      listeners := listeners + [l];
    }

    method GetPacketListeners() returns (ls: seq<nat>)
      ensures ls == listeners
    {
      ls := listeners;
    }

    /** One `connected` call per listener, in list order. */
    method NotifyConnected(c: Connection)
      modifies this`events
      ensures events == old(events) + ConnectedEvents(listeners, c)
    {
      for i := 0 to |listeners|
        invariant events == old(events) + ConnectedEvents(listeners[..i], c)
      {
        assert ConnectedEvents(listeners[..i + 1], c) == ConnectedEvents(listeners[..i], c) + [Connected(listeners[i], c)];
        events := events + [Connected(listeners[i], c)];
      }
      assert listeners[..|listeners|] == listeners;
    }

    /** One `disconnected` call per listener, in list order. */
    method NotifyDisconnected(c: Connection?)
      modifies this`events
      ensures events == old(events) + DisconnectedEvents(listeners, c)
    {
      for i := 0 to |listeners|
        invariant events == old(events) + DisconnectedEvents(listeners[..i], c)
      {
        assert DisconnectedEvents(listeners[..i + 1], c) == DisconnectedEvents(listeners[..i], c) + [Disconnected(listeners[i], c)];
        events := events + [Disconnected(listeners[i], c)];
      }
      assert listeners[..|listeners|] == listeners;
    }

    /** Records the `received` threads started for one packet. */
    method Dispatch(c: Connection, p: Option<Packet>)
      modifies this`events
      ensures events == old(events) + [Dispatched(listeners, c, p)]
    {
      events := events + [Dispatched(listeners, c, p)];
    }
  }

  /** The receive loop of one connection, bound at construction to the owner matching its role. */
  class CommunicationListener {
    const role: Role
    const connection: Connection
    const server: Server?
    const client: Client?

    constructor (connection: Connection)
      ensures this.connection == connection && role == connection.role
      ensures role == ServerRole ==> server == connection.server && client == null
      ensures role == ClientRole ==> client == connection.client && server == null
    {
      this.connection := connection;
      role := connection.role;
      var s := connection.GetServer();
      var c := connection.GetClient();
      server := if s.Ok? then s.value else null;
      client := if c.Ok? then c.value else null;
    }

    /** Reads and dispatches until the reads run out, a read raises, or a disconnect packet arrives (server side). */
    method ServerReads(s: Server) returns (r: RunEnd, disconnected: bool)
      requires role == ServerRole && server == s
      requires connection.inOpen && !connection.closed
      modifies connection`input, s`events
      ensures var t := ReadLoop(old(connection.input));
        s.events == old(s.events) + DispatchLog(s.listeners, connection, t.delivered) &&
        (disconnected <==> t.end.Some? && t.end.value != Read(Foreign)) &&
        connection.input == t.rest &&
        (t.end.None? ==> r == ReadingForever) &&
        (t.end == Some(Read(Foreign)) ==> r == Escaped(IllegalState))
    {
      ghost var t0 := ReadLoop(connection.input);
      ghost var done: seq<Option<Packet>> := [];
      disconnected := false;
      while !connection.closed && !disconnected
        invariant !disconnected ==> done + ReadLoop(connection.input).delivered == t0.delivered
        invariant !disconnected ==> ReadLoop(connection.input).end == t0.end && ReadLoop(connection.input).rest == t0.rest
        invariant disconnected ==> done == t0.delivered && t0.end.Some? && t0.end.value != Read(Foreign) && connection.input == t0.rest
        invariant s.events == old(s.events) + DispatchLog(s.listeners, connection, done)
        decreases |connection.input|, !disconnected
      {
        if connection.input == [] {
          return ReadingForever, false;
        }
        ghost var before := connection.input;
        var got := connection.ReceivePacket();
        ReadLoopStep(before, got);
        match got
        case IoFailure =>
        case Raised(e) =>
          return Escaped(e), false;
        case Done(p) =>
          if p.Some? && p.value.Disconnect? {
            disconnected := true;
          } else {
            DispatchLogAppend(s.listeners, connection, done, [p]);
            s.Dispatch(connection, p);
            AppendShift(done, p, ReadLoop(connection.input).delivered);
            done := done + [p];
          }
      }
      r := Exited;
    }

    /** The receive loop of a server-side connection: `TYPE` is final, so the role test inside the loop always takes the server branch. */
    method ServerLoop(s: Server) returns (r: RunEnd)
      requires role == ServerRole && server == s
      requires connection.inOpen && !connection.closed
      modifies connection`input, s`events
      modifies (if connection.id in s.connections then {s.connections[connection.id]} else {})`output
      modifies (if connection.id in s.connections then {s.connections[connection.id]} else {})`closed
      ensures var t := ReadLoop(old(connection.input));
        var before := old(s.events) + DispatchLog(s.listeners, connection, t.delivered);
        var c := if old(connection.id) in s.connections then s.connections[old(connection.id)] else null;
        connection.input == t.rest &&
        (t.end.None? ==> r == ReadingForever && s.events == before) &&
        (t.end == Some(Read(Foreign)) ==> r == Escaped(IllegalState) && s.events == before) &&
        (t.end.Some? && t.end.value != Read(Foreign) ==>
           s.events == before + DisconnectedEvents(s.listeners, c) &&
           (c == null ==> r == Escaped(NullPointer)) &&
           connection.SessionKept() &&
           (c != null ==>
              var sent := SendResult(c.outOpen, old(c.closed), c.socket.sendFails);
              c.SessionKept() &&
              c.output == old(c.output) + (if sent.Done? then [Packet.Disconnect(None)] else []) &&
              if !sent.Done? then r == EndAfter(Swallowed(sent)) && c.closed == old(c.closed)
              else
                (r == Exited <==> c.inOpen) && (r != Exited ==> r == Escaped(NullPointer)) &&
                c.closed))
      ensures var t := ReadLoop(old(connection.input));
        var c := if old(connection.id) in s.connections then s.connections[old(connection.id)] else null;
        !(t.end.Some? && t.end.value != Read(Foreign)) ==>
          connection.KeptButInput() && (c != null && c != connection ==> unchanged(c))
    {
      var disconnected;
      r, disconnected := ServerReads(s);
      if disconnected {
        var o := s.Close(connection.id);
        r := EndAfter(o);
      }
    }

    /** Reads and dispatches until the reads run out, a read raises, or a disconnect packet arrives (client side). */
    method ClientReads(cl: Client) returns (r: RunEnd, disconnected: bool)
      requires role == ClientRole && client == cl
      requires connection.inOpen && !connection.closed
      modifies connection`input, cl`events
      ensures var t := ReadLoop(old(connection.input));
        cl.events == old(cl.events) + DispatchLog(cl.listeners, connection, t.delivered) &&
        (disconnected <==> t.end.Some? && t.end.value != Read(Foreign)) &&
        connection.input == t.rest &&
        (t.end.None? ==> r == ReadingForever) &&
        (t.end == Some(Read(Foreign)) ==> r == Escaped(IllegalState))
    {
      ghost var t0 := ReadLoop(connection.input);
      ghost var done: seq<Option<Packet>> := [];
      disconnected := false;
      while !connection.closed && !disconnected
        invariant !disconnected ==> done + ReadLoop(connection.input).delivered == t0.delivered
        invariant !disconnected ==> ReadLoop(connection.input).end == t0.end && ReadLoop(connection.input).rest == t0.rest
        invariant disconnected ==> done == t0.delivered && t0.end.Some? && t0.end.value != Read(Foreign) && connection.input == t0.rest
        invariant cl.events == old(cl.events) + DispatchLog(cl.listeners, connection, done)
        decreases |connection.input|, !disconnected
      {
        if connection.input == [] {
          return ReadingForever, false;
        }
        ghost var before := connection.input;
        var got := connection.ReceivePacket();
        ReadLoopStep(before, got);
        match got
        case IoFailure =>
        case Raised(e) =>
          return Escaped(e), false;
        case Done(p) =>
          if p.Some? && p.value.Disconnect? {
            disconnected := true;
          } else {
            DispatchLogAppend(cl.listeners, connection, done, [p]);
            cl.Dispatch(connection, p);
            AppendShift(done, p, ReadLoop(connection.input).delivered);
            done := done + [p];
          }
      }
      r := Exited;
    }

    /** The receive loop of a client-side connection. */
    method ClientLoop(cl: Client) returns (r: RunEnd)
      requires role == ClientRole && client == cl
      requires connection.inOpen && !connection.closed
      modifies connection`input, cl`events
      modifies (if cl.connection != null then {cl.connection} else {})`output
      modifies (if cl.connection != null then {cl.connection} else {})`input
      modifies (if cl.connection != null then {cl.connection} else {})`closed
      ensures var t := ReadLoop(old(connection.input));
        var before := old(cl.events) + DispatchLog(cl.listeners, connection, t.delivered);
        (t.end.None? ==> r == ReadingForever && connection.input == [] && cl.events == before) &&
        (t.end == Some(Read(Foreign)) ==> r == Escaped(IllegalState) && connection.input == t.rest && cl.events == before) &&
        (t.end.Some? && t.end.value != Read(Foreign) ==>
           cl.events == before + DisconnectedEvents(cl.listeners, cl.connection) &&
           connection.SessionKept() &&
           (cl.connection == null ==> r == Escaped(NullPointer)) &&
           (cl.connection != null ==>
              var c := cl.connection;
              var pending := if c == connection then t.rest else old(c.input);
              var sent := SendResult(c.outOpen, old(c.closed), c.socket.sendFails);
              var reply := NextRead(c.inOpen, old(c.closed), pending);
              c.SessionKept() &&
              c.output == old(c.output) + (if sent.Done? then [Packet.Disconnect(None)] else []) &&
              if !sent.Done? then r == EndAfter(Swallowed(sent)) && c.closed == old(c.closed) && c.input == pending
              else
                c.input == AfterRead(c.inOpen, old(c.closed), pending) &&
                if reply.Done? && reply.value.Some? && reply.value.value.Disconnect? then
                  r == Exited && c.closed
                else
                  r == (if reply.Done? then Escaped(IllegalState) else EndAfter(Swallowed(reply))) && c.closed == old(c.closed)))
      ensures var t := ReadLoop(old(connection.input));
        !(t.end.Some? && t.end.value != Read(Foreign)) ==>
          connection.KeptButInput() && (cl.connection != null && cl.connection != connection ==> unchanged(cl.connection))
    {
      var disconnected;
      r, disconnected := ClientReads(cl);
      if disconnected {
        var o := cl.Close();
        r := EndAfter(o);
      }
    }

    /** Reads until the connection is closed, a disconnect packet arrives, or a read throws an unchecked exception. */
    method Run() returns (r: RunEnd)
      requires role == ServerRole ==> server != null
      requires role == ClientRole ==> client != null
      modifies connection`input, connection`output, connection`closed
      modifies if server != null then {server} else {}
      modifies (if server != null && connection.id in server.connections then {server.connections[connection.id]} else {})`output
      modifies (if server != null && connection.id in server.connections then {server.connections[connection.id]} else {})`closed
      modifies if client != null then {client} else {}
      modifies (if client != null && client.connection != null then {client.connection} else {})`output
      modifies (if client != null && client.connection != null then {client.connection} else {})`input
      modifies (if client != null && client.connection != null then {client.connection} else {})`closed
      ensures server != null ==> server.connections == old(server.connections) && server.listeners == old(server.listeners)
      ensures client != null ==> client.connection == old(client.connection) && client.listeners == old(client.listeners)
      ensures old(connection.closed) ==> r == ClosedStop
      ensures !old(connection.closed) && !old(connection.inOpen) ==> r == Escaped(NullPointer)
      ensures old(connection.closed) || !old(connection.inOpen) ==>
        unchanged(connection) &&
        (server != null ==>
           unchanged(server) &&
           (old(connection.id) in server.connections ==> unchanged(server.connections[old(connection.id)]))) &&
        (client != null ==> unchanged(client) && (client.connection != null ==> unchanged(client.connection)))
      ensures !old(connection.closed) && old(connection.inOpen) && role == ServerRole ==>
        var t := ReadLoop(old(connection.input));
        var c := if old(connection.id) in server.connections then server.connections[old(connection.id)] else null;
        !(t.end.Some? && t.end.value != Read(Foreign)) ==>
          connection.KeptButInput() && (c != null && c != connection ==> unchanged(c))
      ensures !old(connection.closed) && old(connection.inOpen) && role == ClientRole ==>
        var t := ReadLoop(old(connection.input));
        !(t.end.Some? && t.end.value != Read(Foreign)) ==>
          connection.KeptButInput() && (client.connection != null && client.connection != connection ==> unchanged(client.connection))
      ensures !old(connection.closed) && old(connection.inOpen) && role == ServerRole ==>
        var t := ReadLoop(old(connection.input));
        var before := old(server.events) + DispatchLog(server.listeners, connection, t.delivered);
        var c := if old(connection.id) in server.connections then server.connections[old(connection.id)] else null;
        connection.input == t.rest &&
        (t.end.None? ==> r == ReadingForever && server.events == before) &&
        (t.end == Some(Read(Foreign)) ==> r == Escaped(IllegalState) && server.events == before) &&
        (t.end.Some? && t.end.value != Read(Foreign) ==>
           server.events == before + DisconnectedEvents(server.listeners, c) &&
           (c == null ==> r == Escaped(NullPointer)) &&
           connection.SessionKept() &&
           (c != null ==>
              var sent := SendResult(c.outOpen, old(c.closed), c.socket.sendFails);
              c.SessionKept() &&
              c.output == old(c.output) + (if sent.Done? then [Packet.Disconnect(None)] else []) &&
              if !sent.Done? then r == EndAfter(Swallowed(sent)) && c.closed == old(c.closed)
              else
                (r == Exited <==> c.inOpen) && (r != Exited ==> r == Escaped(NullPointer)) &&
                c.closed))
      ensures !old(connection.closed) && old(connection.inOpen) && role == ClientRole ==>
        var t := ReadLoop(old(connection.input));
        var before := old(client.events) + DispatchLog(client.listeners, connection, t.delivered);
        (t.end.None? ==> r == ReadingForever && connection.input == [] && client.events == before) &&
        (t.end == Some(Read(Foreign)) ==> r == Escaped(IllegalState) && connection.input == t.rest && client.events == before) &&
        (t.end.Some? && t.end.value != Read(Foreign) ==>
           client.events == before + DisconnectedEvents(client.listeners, client.connection) &&
           connection.SessionKept() &&
           (client.connection == null ==> r == Escaped(NullPointer)) &&
           (client.connection != null ==>
              var c := client.connection;
              var pending := if c == connection then t.rest else old(c.input);
              var sent := SendResult(c.outOpen, old(c.closed), c.socket.sendFails);
              var reply := NextRead(c.inOpen, old(c.closed), pending);
              c.SessionKept() &&
              c.output == old(c.output) + (if sent.Done? then [Packet.Disconnect(None)] else []) &&
              if !sent.Done? then r == EndAfter(Swallowed(sent)) && c.closed == old(c.closed) && c.input == pending
              else
                c.input == AfterRead(c.inOpen, old(c.closed), pending) &&
                if reply.Done? && reply.value.Some? && reply.value.value.Disconnect? then
                  r == Exited && c.closed
                else
                  r == (if reply.Done? then Escaped(IllegalState) else EndAfter(Swallowed(reply))) && c.closed == old(c.closed)))
    {
      if connection.closed {
        return ClosedStop;
      }
      if !connection.inOpen {
        r := Escaped(NullPointer);
        var _ := connection.ReceivePacket();
        return;
      }
      if role == ServerRole {
        r := ServerLoop(server);
      } else {
        r := ClientLoop(client);
      }
    }
  }
}
