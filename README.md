# PubSub-Rendezvous: a Dafny model of the broker and client core

PubSub-Rendezvous tunnels a local TCP stream through a publish/subscribe bus.
A **client** (`client/client.go`) serves one local application. A **broker**
(`server/server.go`) pairs each client session with a **bridge** that connects
to its local listener. Both sides cut TCP streams into 1024-byte blocks. A
frame has a 4-byte big-endian length, the payload, and zero padding up to the
next block boundary (`packetize` / `getFullPacket`; both files hold identical
copies).

A session runs like this:

1. The client publishes CONNECT with its identity, a 36-character UUID.
2. The broker answers with its ECIES public key (PUBLIC_KEY).
3. The client latches that key once and publishes SYM: its identity, then its
   32-byte AES key encrypted under the broker's public key.
4. The broker stores the key in its session table `connections` and queues the
   session in `newRequests`.
5. A bridge that sends POLL takes the head of the queue. It receives
   HAS_PENDING on its socket, and so does the client, through the bus.
6. From then on, DATA frames flow both ways, encrypted with AES-GCM. The
   client delivers a frame only if the decrypted identity is its own.

The model has seven modules:

- `Common`: bytes, the `Outcome` of an operation that may panic, and `uint32`
  wrap-around and big-endian encoding.
- `Framing`: the block codec.
- `Crypto`: AES-GCM and ECIES, passed in as function values, with correctness
  stated as a hypothesis.
- `Wire`: the tags and the layout of every bus message.
- `Server`: the `Broker` class, holding the table, the queue, each bridge
  handler's `cc` and output logs.
- `Client`: the `Endpoint` class, holding the key latch and output logs, and
  the inbound filter.
- `Protocol`: how the two programs' messages fit together, including a whole
  session between a fresh broker and a fresh client.

A Go panic is an `Outcome.Panic` result and not a precondition. The panics
modelled are:

- an index or slice out of range;
- a nil dereference;
- the broker's `decryptMsg` failing;
- an invalid AES key in `encryptMsg`.

Arithmetic in `getFullPacket` is `uint32` and wraps. Some consequences of the
code worth knowing, all of which the model keeps:

- A second SYM for the same identity replaces the key and queues the session
  again. The first key does not win.
- CONNECT for a known identity resets its record, dropping its key and its
  bridge. It is not idempotent.
- SYM for an identity never seen stores the zero record with the key added.
  Its `id` is empty.
- DATA for a session without a bridge dereferences a nil connection and
  panics. It is not dropped. DATA for an unknown identity panics in
  `decryptMsg`, because the key is nil.
- A bridge packet whose first byte is 3 is a POLL, even when the bridge already
  serves a session.
- The client panics on a decrypted HAS_BRIDGE or DATA plaintext shorter than 36
  bytes.

## Model

| member | source | states |
|---|---|---|
| Common.Wrap32 | server/server.go:153 | the `uint32` conversion (and `uint32` addition and subtraction): a value in [0, 2^32) congruent to the input modulo 2^32, and the input itself when it already fits |
| Common.Be32 | server/server.go:153 | `PutUint32` writes four bytes from which `Uint32` reads the original value back |
| Common.ReadBe32 | server/server.go:164 | `Uint32` of four bytes is a value below 2^32 |
| Common.Be32OfReadBe32 | server/server.go:164 | every four bytes are the big-endian encoding of the value `Uint32` reads from them, so the decoding is one-to-one |
| Framing.Padding | server/server.go:150 | the padding is below 1024, length plus padding is a multiple of 1024, and the padding is zero exactly when the length already is a multiple |
| Framing.Packetize | server/server.go:148-158 | a frame is 4 + payload + padding bytes long, a whole number of blocks, and at least one block |
| Framing.PacketizeLayout | client/client.go:46-56 | the header decodes to the payload length, the payload follows at offset 4 unchanged, and every byte after it is zero |
| Framing.ExtraBlocks | server/server.go:165 | `numberOfPackets` computed in `uint32` is below 2^32, and for payloads up to 2^32-1028 bytes it is the fewest extra blocks that, with the first block, hold the 4-byte header and the payload |
| Framing.ExtraBlocksOfFrame | server/server.go:165 | for payloads up to 2^32-1028 bytes, the `uint32` count of extra blocks equals the frame's block count minus one |
| Framing.ExtraBlocksWrapsNearLimit | server/server.go:165 | for lengths from 2^32-1027 to 2^32-5, the count wraps to 2^32-1, more than the frame has |
| Framing.Split | server/server.go:172-175 | a whole number of blocks of bytes cut into 1024-byte reads has the right count and concatenates back to the same bytes |
| Framing.Deframe | client/client.go:145-168 | reading a frame succeeds exactly when the header is below 2^32-4; the payload then has the header's length and the read consumes the computed number of blocks |
| Framing.GetFullPacket | server/server.go:160-183 | the block-reading loop returns what `Deframe` specifies: the same payload, block count and panic |
| Framing.RoundTrip | server/server.go:148-183 | a stream carrying `packetize(p)` and then anything yields exactly `p` and consumes exactly the frame's blocks |
| Framing.PanicsNearLimit | server/server.go:180 | a header of 2^32-4 or more wraps `lenMessage+4` below 4 and the slice panics |
| Crypto.Encrypt | server/server.go:81-100 | encryption fails (panics) exactly on an invalid AES key length; the output starts with the nonce |
| Crypto.ServerDecrypt | server/server.go:59-79 | a result means the key was valid, the message held a nonce, and GCM opened the rest to that result |
| Crypto.ClientDecrypt | client/client.go:58-79 | the client panics exactly on a valid key with a message shorter than a nonce; a plaintext it returns is non-empty and is what GCM opened |
| Crypto.ServerDecryptEncrypt | server/server.go:59-100 | the broker's `decryptMsg` undoes `encryptMsg` under the same key |
| Crypto.ClientDecryptEncrypt | client/client.go:58-100 | the client's `decryptMsg` undoes `encryptMsg` for a non-empty message |
| Wire.ParseMessage | server/server.go:132-135 | parsing succeeds exactly for messages of at least 37 bytes; the parts are a 36-byte identity and a body, and they reassemble to the message |
| Wire.ParseLayout | server/server.go:133-134 | whatever is built as tag, 36-byte identity and body is parsed back into exactly those parts |
| Wire.ConnectMessage | client/client.go:242-244 | CONNECT is the tag followed by the identity, which is what the broker takes after the tag |
| Wire.SymMessage | client/client.go:119-121 | the broker parses the client's SYM as tag SYM, the client's identity and the encrypted key |
| Wire.ClientDataMessage | client/client.go:196-198 | the broker parses the client's DATA as tag DATA, the client's identity and the ciphertext |
| Wire.PublicKeyMessage | server/server.go:123-124 | PUBLIC_KEY is the tag followed by the key bytes the client reads after it |
| Wire.SealedMessage | server/server.go:203-204 | HAS_PENDING and DATA towards the client are the tag followed by the ciphertext the client decrypts |
| Server.Lookup | server/server.go:135 | a Go map read: the stored record for a known identity, and the zero record (empty id, no bridge, nil key) for an unknown one |
| Server.Broker.constructor | server/server.go:256-259 | the broker starts with an empty table, queue and bridge assignments |
| Server.Broker.Connect | server/server.go:116-125 | CONNECT replaces the record under the identity with a fresh one, touches nothing else, and broadcasts the public key |
| Server.Broker.HandleMessage | server/server.go:132-146 | SYM stores the decrypted key (empty on failure) in the looked-up record and queues that snapshot. DATA decrypts with the record's key and writes the re-framed plaintext to its bridge, panicking on a decrypt failure or no bridge. Short messages panic. Other tags change nothing. Every written frame stays block-aligned |
| Server.Broker.Receive | server/server.go:113-129 | an empty message panics; CONNECT goes to `Connect`; anything else goes to `handleMessage` |
| Server.Broker.HandleBridgePacket | server/server.go:191-218 | POLL with a queued session pops it, makes it the bridge's `cc`, points its record at the bridge, writes HAS_PENDING to the bridge and publishes the encrypted identity. POLL with an empty queue writes NO_PENDING. Any other packet is encrypted with `cc`'s identity and key and published as DATA, panicking if there is no `cc`. Every session with a bridge points at a bridge that holds a `cc` |
| Server.Broker.BridgeStep | server/server.go:185-218 | one loop iteration reads one frame, then handles its payload as above; a frame that panics changes nothing |
| Client.Inbound | client/client.go:125-140 | a frame reaches the local socket only if decryption gave a plaintext beginning with the client's own identity. It is `packetize([5])` for HAS_BRIDGE and the packetized rest for DATA. A failed decryption delivers nothing |
| Client.Endpoint.constructor | client/client.go:208-214 | the client starts with a 36-byte identity, a 32-byte key, no public key and nothing sent |
| Client.Endpoint.Connect | client/client.go:241-244 | CONNECT with the client's identity is published |
| Client.Endpoint.HandleMessage | client/client.go:111-142 | the first PUBLIC_KEY is latched and answered with exactly one SYM, and a held key never changes (exactly one SYM ever while a key is held). HAS_BRIDGE and DATA write at most the frame `Inbound` lets through. A PUBLIC_KEY while a key is held, and every other tag, changes nothing. An empty message panics |
| Client.Endpoint.RelayLocalFrame | client/client.go:194-200 | a frame read from the local socket is published as DATA with the identity in the clear and the encrypted payload; a panicking read publishes nothing |
| Protocol.SymReachesBroker | server/server.go:132-141 | the broker parses the client's SYM to the client's identity, and its private key recovers the client's symmetric key |
| Protocol.ClientDataReachesBroker | server/server.go:142-144 | the broker parses the client's DATA to the client's identity and decrypts the body to the client's payload |
| Protocol.BrokerDataReachesClient | client/client.go:133-140 | the broker's DATA for a session is delivered as `packetize(packet)` by the client with that identity and ignored by any other client sharing the key |
| Protocol.HasPendingReachesClient | client/client.go:125-132 | the broker's HAS_PENDING for a session is delivered as `packetize([5])` by the client with that identity and ignored by any other |
| Protocol.Handshake | server/server.go:113-141 | CONNECT, PUBLIC_KEY and SYM leave the client's key stored under its identity and its session alone in the queue |
| Protocol.Assign | server/server.go:191-205 | a POLL takes the queued session: bridge 0 and the client's application both receive HAS_PENDING |
| Protocol.Upstream | client/client.go:194-200 | a frame from the client's application is written, re-framed, to the session's bridge |
| Protocol.Downstream | server/server.go:211-218 | a frame from the bridge is written, re-framed, to the client's application |
| Protocol.Session | server/server.go:110-218 | in a whole session from a fresh start, the bridge receives HAS_PENDING then `ping`, and the client's application receives HAS_PENDING then `pong` |

## Left out

- The Pub/Sub bus, TCP listeners and `sendMessage`: messages and frames are recorded in `published` / `written` logs, and incoming bytes are parameters.
- Goroutines, `messageQueue` and the mutexes. Each callback, `handleMessage` call and bridge-loop iteration is one atomic step. So the unsynchronised access to `connections` and `newRequests` from `handleMessage` and `handleRequests` is not modelled.
- Wire.ParseMessage: the bus's message buffer is taken to have capacity equal to its length, so the identity slice `msg[1:37]` panics exactly when the message is shorter than 37 bytes. In Go, a 33 to 36 byte message with a tag other than SYM or DATA, delivered in a buffer with spare capacity, would slice without panicking and change nothing. SYM and DATA panic either way, at `msg[37:]`. The capacity is the bus library's choice and is not visible in the source. The client's `aux[:36]` is treated the same way; that buffer comes from `gcm.Open` with a nil destination, which allocates exactly the plaintext's length.
- Short reads: every `Read` fills a whole 1024-byte block, and reading past the end of the stream gives a zero block (the error is ignored).
- The internals of AES-GCM and ECIES. They are function values, and decryption undoing encryption is the hypothesis `AeadCorrect` / `EciesCorrect`. `ToyAeadCorrect` / `ToyEciesCorrect` show the hypotheses can be met. The nonce size is a parameter, and the random nonce and ECIES randomness are inputs.
- Failure of `rand.Read`, `cipher.NewGCM` and `ecies.GenerateKey`: these never fail in the model.
- `ecies.NewPublicKeyFromBytes` failing on malformed key bytes: the client latches the raw bytes as its public key.
- Framing.RoundTrip: proved only for payloads up to 2^32-1028 bytes. Above that, the `uint32` length or block count wraps (see `ExtraBlocksWrapsNearLimit` and `PanicsNearLimit`).
- The client's DONE tag (10), which is declared and never used, and the configuration in both `main` functions (project, topic and credential names).
