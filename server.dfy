/** The broker (server/server.go): the session table `connections`, the FIFO
    `newRequests` of sessions waiting for a bridge, the CONNECT / SYM / DATA
    handlers for bus messages, and one step of each bridge connection's POLL /
    data loop. Goroutines are run one step at a time; what the broker publishes
    and what it writes to bridge sockets are recorded as logs. */
module Server {
  import opened Common
  import opened Framing
  import opened Crypto
  import opened Wire

  /** A bridge's local TCP connection (`proxy_conn`), by handle. */
  type BridgeId = nat

  /** `client_conn`: a session record. A nil `symKey` is the empty sequence; Go
      treats a nil slice and an empty one alike everywhere the key is used. */
  datatype ClientConn = ClientConn(id: Bytes, proxyConn: Option<BridgeId>, symKey: Bytes)

  /** The zero `client_conn`, which a Go map read yields for a missing key. */
  const ZeroConn: ClientConn := ClientConn([], None, [])

  /** `connections[id]` in Go: the record, or the zero record when absent. */
  function Lookup(connections: map<Bytes, ClientConn>, id: Bytes): (conn: ClientConn)
    ensures id in connections ==> conn == connections[id]
    ensures id !in connections ==> conn.id == [] && conn.proxyConn.None? && conn.symKey == []
  {
    if id in connections then connections[id] else ZeroConn
  }

  /** The key `ecies.Decrypt` leaves in `aux`: nil when decryption fails. */
  function KeyOf(decrypted: Option<Bytes>): Bytes
  {
    if decrypted.Some? then decrypted.value else []
  }

  /** A frame written to a bridge's socket. */
  datatype Write = Write(bridge: BridgeId, frame: Bytes)

  class Broker {
    /** The key pair generated at start-up. */
    const ecies: Ecies
    const aead: Aead

    var connections: map<Bytes, ClientConn>
    var newRequests: seq<ClientConn>
    /** Each bridge handler's local `cc`: the snapshot of the session it was last
        assigned; a bridge that never received one is absent (Go's nil). */
    var current: map<BridgeId, ClientConn>
    /** Messages published on the bus, in order. */
    var published: seq<Bytes>
    /** Frames written to bridge sockets, in order. */
    var written: seq<Write>

    /** A session that points at a bridge points at one whose handler holds a
        session, and every frame written to a bridge is a whole number of
        blocks. */
    ghost predicate Valid()
      reads this
    {
      && (forall id :: id in connections && connections[id].proxyConn.Some? ==>
            connections[id].proxyConn.value in current)
      && (forall i :: 0 <= i < |written| ==> |written[i].frame| % BlockSize == 0)
    }

    /** `main`: an empty table and queue, before any goroutine starts. */
    constructor (ecies: Ecies, aead: Aead)
      ensures Valid()
      ensures this.ecies == ecies && this.aead == aead
      ensures connections == map[] && newRequests == [] && current == map[]
      ensures published == [] && written == []
    {
      this.ecies := ecies;
      this.aead := aead;
      connections := map[];
      newRequests := [];
      current := map[];
      published := [];
      written := [];
    }

    /** The effect of CONNECT for `id`: a fresh record replaces whatever was
        stored under `id`, and the public key is broadcast. */
    twostate predicate Connected(id: Bytes)
      reads this
    {
      && connections == old(connections)[id := ClientConn(id, None, [])]
      && newRequests == old(newRequests) && current == old(current)
      && written == old(written)
      && published == old(published) + [PublicKeyMessage(ecies.publicKey)]
    }

    /** The CONNECT branch of the subscription callback. */
    method Connect(id: Bytes)
      requires Valid()
      modifies this
      ensures Valid() && Connected(id)
    {
      connections := connections[id := ClientConn(id, None, [])];
      published := published + [PublicKeyMessage(ecies.publicKey)];
    }

    /** The effect of `handleMessage(msg)`. */
    twostate predicate MessageHandled(msg: Bytes, new outcome: Outcome<()>)
      reads this
    {
      match ParseMessage(msg)
      case Panic => outcome == Panic && unchanged(this)
      case Ok(p) =>
        var conn := Lookup(old(connections), p.id);
        if p.tag == SYM then
          // The copy `conn` gets the decrypted key and is stored back; the
          // queue receives the address of that copy, so it holds this snapshot.
          var stored := conn.(symKey := KeyOf(ecies.decrypt(p.body)));
          && outcome.Ok?
          && connections == old(connections)[p.id := stored]
          && newRequests == old(newRequests) + [stored]
          && current == old(current) && published == old(published) && written == old(written)
        else if p.tag == DATA then
          && connections == old(connections) && newRequests == old(newRequests)
          && current == old(current) && published == old(published)
          && match ServerDecrypt(aead, conn.symKey, p.body)
             case Panic => outcome == Panic && written == old(written)
             case Ok(plain) =>
               if conn.proxyConn.None? then outcome == Panic && written == old(written)
               else outcome.Ok? && written == old(written) + [Write(conn.proxyConn.value, Packetize(plain))]
        else
          outcome.Ok? && unchanged(this)
    }

    /** `handleMessage`: SYM stores the key and queues the session; DATA
        decrypts with the stored key and writes the frame to the session's
        bridge. Writing to a session without a bridge dereferences nil. */
    method HandleMessage(msg: Bytes) returns (outcome: Outcome<()>)
      requires Valid()
      modifies this
      ensures Valid() && MessageHandled(msg, outcome)
    {
      var parsed := ParseMessage(msg);
      if parsed.Panic? {
        return Panic;
      }
      var p := parsed.value;
      var conn := Lookup(connections, p.id);
      if p.tag == SYM {
        conn := conn.(symKey := KeyOf(ecies.decrypt(p.body)));
        connections := connections[p.id := conn];
        newRequests := newRequests + [conn];
        outcome := Ok(());
      } else if p.tag == DATA {
        var result := ServerDecrypt(aead, conn.symKey, p.body);
        if result.Panic? || conn.proxyConn.None? {
          return Panic;
        }
        written := written + [Write(conn.proxyConn.value, Packetize(result.value))];
        outcome := Ok(());
      } else {
        outcome := Ok(());
      }
    }

    /** The subscription callback of `handleRequests`: CONNECT is handled in
        place, everything else goes on to `handleMessage`. Reading the tag of
        an empty message panics. */
    method Receive(data: Bytes) returns (outcome: Outcome<()>)
      requires Valid()
      modifies this
      ensures Valid()
      ensures data == [] ==> outcome == Panic && unchanged(this)
      ensures data != [] && data[0] == CONNECT ==> outcome.Ok? && Connected(data[1..])
      ensures data != [] && data[0] != CONNECT ==> MessageHandled(data, outcome)
    {
      if data == [] {
        return Panic;
      }
      if data[0] == CONNECT {
        Connect(data[1..]);
        outcome := Ok(());
      } else {
        outcome := HandleMessage(data);
      }
    }

    /** The effect of one packet from bridge `b` in `handleBridges`. */
    twostate predicate PacketHandled(b: BridgeId, packet: Bytes, nonce: Bytes, new outcome: Outcome<()>)
      requires |nonce| == aead.nonceSize
      reads this
    {
      if packet == [] then outcome == Panic && unchanged(this)
      else if packet[0] == POLL && old(newRequests) != [] then
        // The head leaves the queue, becomes this handler's `cc`, and its
        // session now points at `b`.
        var head := old(newRequests)[0];
        && newRequests == old(newRequests)[1..]
        && current == old(current)[b := head]
        && connections == old(connections)[head.id := Lookup(old(connections), head.id).(proxyConn := Some(b))]
        && written == old(written) + [Write(b, Packetize([HAS_PENDING]))]
        && match Encrypt(aead, head.symKey, nonce, head.id)
           case Panic => outcome == Panic && published == old(published)
           case Ok(c) => outcome.Ok? && published == old(published) + [SealedMessage(HAS_PENDING, c)]
      else if packet[0] == POLL then
        && outcome.Ok?
        && connections == old(connections) && newRequests == old(newRequests)
        && current == old(current) && published == old(published)
        && written == old(written) + [Write(b, Packetize([NO_PENDING]))]
      else if b !in old(current) then
        outcome == Panic && unchanged(this)
      else
        var cc := old(current)[b];
        && connections == old(connections) && newRequests == old(newRequests)
        && current == old(current) && written == old(written)
        && match Encrypt(aead, cc.symKey, nonce, cc.id + packet)
           case Panic => outcome == Panic && published == old(published)
           case Ok(c) => outcome.Ok? && published == old(published) + [SealedMessage(DATA, c)]
    }

    /** The body of the `handleBridges` loop after the frame is read: POLL pops
        the queue (or answers NO_PENDING); any other packet is relayed to the
        bridge's current session, encrypted under the key in its snapshot. A
        packet whose first byte is POLL is a poll whatever `cc` holds. */
    method HandleBridgePacket(b: BridgeId, packet: Bytes, nonce: Bytes) returns (outcome: Outcome<()>)
      requires Valid() && |nonce| == aead.nonceSize
      modifies this
      ensures Valid() && PacketHandled(b, packet, nonce, outcome)
    {
      if packet == [] {
        return Panic;
      }
      if packet[0] == POLL {
        if |newRequests| > 0 {
          var cc := newRequests[0];
          newRequests := newRequests[1..];
          current := current[b := cc];
          var aux := Lookup(connections, cc.id);
          connections := connections[cc.id := aux.(proxyConn := Some(b))];
          written := written + [Write(b, Packetize([HAS_PENDING]))];
          var msg := Encrypt(aead, cc.symKey, nonce, cc.id);
          if msg.Panic? {
            return Panic;
          }
          published := published + [SealedMessage(HAS_PENDING, msg.value)];
        } else {
          written := written + [Write(b, Packetize([NO_PENDING]))];
        }
        outcome := Ok(());
      } else {
        if b !in current {
          return Panic;
        }
        var cc := current[b];
        var msg := Encrypt(aead, cc.symKey, nonce, cc.id + packet);
        if msg.Panic? {
          return Panic;
        }
        published := published + [SealedMessage(DATA, msg.value)];
        outcome := Ok(());
      }
    }

    /** One iteration of the `handleBridges` loop: read a frame from the
        bridge's socket, then handle its payload. Returns the number of blocks
        read. */
    method BridgeStep(b: BridgeId, stream: seq<Block>, nonce: Bytes) returns (outcome: Outcome<nat>)
      requires Valid() && |nonce| == aead.nonceSize
      modifies this
      ensures Valid()
      ensures Deframe(stream) == Panic ==> outcome == Panic && unchanged(this)
      ensures Deframe(stream).Ok? ==>
                var frame := Deframe(stream).value;
                && PacketHandled(b, frame.payload, nonce, if outcome.Ok? then Ok(()) else Panic)
                && (outcome.Ok? ==> outcome.value == frame.blocks)
    {
      var read := GetFullPacket(stream);
      if read.Panic? {
        return Panic;
      }
      var handled := HandleBridgePacket(b, read.value.payload, nonce);
      if handled.Panic? {
        return Panic;
      }
      outcome := Ok(read.value.blocks);
    }
  }
}
