/** How the two programs fit together: every message one side builds is read
    back by the other side as the parts it was built from, and a full session
    (CONNECT, key exchange, bridge assignment, data both ways) delivers each
    side's bytes to the other's socket. */
module Protocol {
  import opened Common
  import opened Framing
  import opened Crypto
  import opened Wire
  import Server
  import Client

  /** The client's SYM (client/client.go) as the broker's `handleMessage`
      reads it: tag SYM, the client's identity, and a ciphertext the broker's
      private key opens to the client's symmetric key. */
  lemma SymReachesBroker(ecies: Ecies, valueID: Bytes, symKey: Bytes, rnd: Bytes)
    requires EciesCorrect(ecies) && |valueID| == IdLength
    ensures var sealed := ecies.encrypt(ecies.publicKey, symKey, rnd);
            && ParseMessage(SymMessage(valueID, sealed)) == Ok(Parsed(SYM, valueID, sealed))
            && Server.KeyOf(ecies.decrypt(sealed)) == symKey
  {
  }

  /** The client's DATA (`[9] ++ valueID ++ Enc(payload)`) as the broker reads
      it: tag DATA, the client's identity, and a body that the broker's
      `decryptMsg` opens to the payload under the client's key. */
  lemma ClientDataReachesBroker(aead: Aead, valueID: Bytes, symKey: Bytes, nonce: Bytes, payload: Bytes)
    requires AeadCorrect(aead) && |valueID| == IdLength && ValidKey(symKey)
    requires |nonce| == aead.nonceSize
    ensures var sealed := Encrypt(aead, symKey, nonce, payload).value;
            && ParseMessage(ClientDataMessage(valueID, sealed)) == Ok(Parsed(DATA, valueID, sealed))
            && ServerDecrypt(aead, symKey, sealed) == Ok(payload)
  {
    ServerDecryptEncrypt(aead, symKey, nonce, payload);
  }

  /** The broker's DATA (`[9] ++ Enc(cc.id ++ packet)`) as the client's filter
      reads it: a client whose key sealed it writes `packetize(packet)` if `id`
      is its own identity, and nothing if `id` is another client's. */
  lemma BrokerDataReachesClient(aead: Aead, valueID: Bytes, symKey: Bytes, id: Bytes, packet: Bytes, nonce: Bytes)
    requires AeadCorrect(aead) && ValidKey(symKey) && |nonce| == aead.nonceSize
    requires |valueID| == IdLength && |id| == IdLength
    ensures var msg := SealedMessage(DATA, Encrypt(aead, symKey, nonce, id + packet).value);
            Client.Inbound(aead, valueID, symKey, msg[0], msg[1..]) ==
              if id == valueID then Ok(Some(Packetize(packet))) else Ok(None)
  {
    ClientDecryptEncrypt(aead, symKey, nonce, id + packet);
    assert (id + packet)[..IdLength] == id && (id + packet)[IdLength..] == packet;
  }

  /** The broker's HAS_PENDING (`[5] ++ Enc(cc.id)`) as the client's filter
      reads it: `packetize([5])` is written if `id` is the client's own
      identity, and nothing otherwise. */
  lemma HasPendingReachesClient(aead: Aead, valueID: Bytes, symKey: Bytes, id: Bytes, nonce: Bytes)
    requires AeadCorrect(aead) && ValidKey(symKey) && |nonce| == aead.nonceSize
    requires |valueID| == IdLength && |id| == IdLength
    ensures var msg := SealedMessage(HAS_PENDING, Encrypt(aead, symKey, nonce, id).value);
            Client.Inbound(aead, valueID, symKey, msg[0], msg[1..]) ==
              if id == valueID then Ok(Some(Packetize([HAS_PENDING]))) else Ok(None)
  {
    ClientDecryptEncrypt(aead, symKey, nonce, id);
    assert id[..IdLength] == id;
  }

  /** CONNECT, PUBLIC_KEY and SYM between a fresh broker and a fresh client:
      the broker ends up holding the client's key under its identity, with the
      session queued for a bridge. */
  method Handshake(broker: Server.Broker, client: Client.Endpoint, rnd: Bytes)
    requires broker.Valid() && client.Valid()
    requires EciesCorrect(broker.ecies) && client.ecies == broker.ecies
    requires broker.connections == map[] && broker.newRequests == [] && broker.published == []
    requires client.publicKey == None && client.published == []
    modifies broker, client
    ensures broker.Valid() && client.Valid()
    ensures var session := Server.ClientConn(client.valueID, None, client.symKey);
            && broker.connections == map[client.valueID := session]
            && broker.newRequests == [session]
    ensures broker.current == old(broker.current) && broker.written == old(broker.written)
    ensures client.written == old(client.written)
  {
    client.Connect();
    var _ := broker.Receive(client.published[0]);
    var _ := client.HandleMessage(broker.published[0], rnd);
    assert client.published[1] == SymMessage(client.valueID, broker.ecies.encrypt(broker.ecies.publicKey, client.symKey, rnd));
    SymReachesBroker(broker.ecies, client.valueID, client.symKey, rnd);
    var _ := broker.Receive(client.published[1]);
  }

  /** A bridge's POLL while the client's session is the only one queued: the
      bridge and the client's application are both told HAS_PENDING. */
  method Assign(broker: Server.Broker, client: Client.Endpoint, nonce: Bytes)
    requires broker.Valid() && client.Valid()
    requires AeadCorrect(broker.aead) && client.aead == broker.aead
    requires |nonce| == broker.aead.nonceSize
    requires var session := Server.ClientConn(client.valueID, None, client.symKey);
             && client.valueID in broker.connections && broker.connections[client.valueID] == session
             && broker.newRequests == [session]
    modifies broker, client
    ensures broker.Valid() && client.Valid()
    ensures client.valueID in broker.connections
    ensures broker.connections[client.valueID] == Server.ClientConn(client.valueID, Some(0), client.symKey)
    ensures 0 in broker.current && broker.current[0] == Server.ClientConn(client.valueID, None, client.symKey)
    ensures broker.written == old(broker.written) + [Server.Write(0, Packetize([HAS_PENDING]))]
    ensures client.written == old(client.written) + [Packetize([HAS_PENDING])]
  {
    RoundTrip([POLL], []);
    assert Split(Packetize([POLL])) + [] == Split(Packetize([POLL]));
    var _ := broker.BridgeStep(0, Split(Packetize([POLL])), nonce);
    var sealed := Encrypt(broker.aead, client.symKey, nonce, client.valueID).value;
    assert broker.published[|broker.published| - 1] == SealedMessage(HAS_PENDING, sealed);
    HasPendingReachesClient(broker.aead, client.valueID, client.symKey, client.valueID, nonce);
    var _ := client.HandleMessage(broker.published[|broker.published| - 1], []);
  }

  /** A frame from the client's application, once bridge 0 serves the
      session: the broker writes its payload, re-framed, to bridge 0. */
  method Upstream(broker: Server.Broker, client: Client.Endpoint, nonce: Bytes, ping: Bytes)
    requires broker.Valid() && client.Valid()
    requires AeadCorrect(broker.aead) && client.aead == broker.aead
    requires |nonce| == broker.aead.nonceSize && |ping| <= MaxPayload
    requires client.valueID in broker.connections
    requires broker.connections[client.valueID] == Server.ClientConn(client.valueID, Some(0), client.symKey)
    modifies broker, client
    ensures broker.Valid() && client.Valid()
    ensures broker.connections == old(broker.connections) && broker.current == old(broker.current)
    ensures broker.written == old(broker.written) + [Server.Write(0, Packetize(ping))]
    ensures client.written == old(client.written)
  {
    RoundTrip(ping, []);
    assert Split(Packetize(ping)) + [] == Split(Packetize(ping));
    var _ := client.RelayLocalFrame(Split(Packetize(ping)), nonce);
    ClientDataReachesBroker(broker.aead, client.valueID, client.symKey, nonce, ping);
    var _ := broker.Receive(client.published[|client.published| - 1]);
  }

  /** A frame from bridge 0, which holds the client's session: the client
      writes its payload, re-framed, to its application. */
  method Downstream(broker: Server.Broker, client: Client.Endpoint, nonce: Bytes, pong: Bytes)
    requires broker.Valid() && client.Valid()
    requires AeadCorrect(broker.aead) && client.aead == broker.aead
    requires |nonce| == broker.aead.nonceSize && |pong| <= MaxPayload
    requires pong != [] && pong[0] != POLL
    requires 0 in broker.current
    requires broker.current[0].id == client.valueID && broker.current[0].symKey == client.symKey
    modifies broker, client
    ensures broker.Valid() && client.Valid()
    ensures broker.written == old(broker.written)
    ensures client.written == old(client.written) + [Packetize(pong)]
  {
    RoundTrip(pong, []);
    assert Split(Packetize(pong)) + [] == Split(Packetize(pong));
    var _ := broker.BridgeStep(0, Split(Packetize(pong)), nonce);
    var sealed := Encrypt(broker.aead, client.symKey, nonce, client.valueID + pong).value;
    assert broker.published[|broker.published| - 1] == SealedMessage(DATA, sealed);
    BrokerDataReachesClient(broker.aead, client.valueID, client.symKey, client.valueID, pong, nonce);
    var _ := client.HandleMessage(broker.published[|broker.published| - 1], []);
  }

  /** A whole session between a fresh broker and a fresh client, each bus
      message delivered once, in order: the client's CONNECT, the broker's
      PUBLIC_KEY, the client's SYM, a bridge's POLL, the broker's HAS_PENDING,
      a frame `ping` from the client's application and a frame `pong` from the
      bridge. The bridge receives HAS_PENDING and then `ping`; the client's
      application receives HAS_PENDING and then `pong`. The bridge's reply must
      not be empty or begin with the POLL byte, which the broker would read as
      another poll. */
  method Session(aead: Aead, ecies: Ecies, valueID: Bytes, symKey: Bytes, rnd: Bytes,
                 nonces: seq<Bytes>, ping: Bytes, pong: Bytes)
    returns (bridgeFrames: seq<Server.Write>, clientFrames: seq<Bytes>)
    requires AeadCorrect(aead) && EciesCorrect(ecies)
    requires |valueID| == IdLength && |symKey| == Client.SymKeyLength
    requires |nonces| == 3 && forall i :: 0 <= i < 3 ==> |nonces[i]| == aead.nonceSize
    requires |ping| <= MaxPayload && |pong| <= MaxPayload
    requires pong != [] && pong[0] != POLL
    ensures bridgeFrames == [Server.Write(0, Packetize([HAS_PENDING])), Server.Write(0, Packetize(ping))]
    ensures clientFrames == [Packetize([HAS_PENDING]), Packetize(pong)]
  {
    var broker := new Server.Broker(ecies, aead);
    var client := new Client.Endpoint(valueID, symKey, aead, ecies);
    Handshake(broker, client, rnd);
    Assign(broker, client, nonces[0]);
    Upstream(broker, client, nonces[1], ping);
    Downstream(broker, client, nonces[2], pong);
    bridgeFrames := broker.written;
    clientFrames := client.written;
  }
}
