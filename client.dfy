/** The client (client/client.go): its identity and symmetric key, the
    once-only latch on the broker's public key, the filter that decides which
    bus messages reach the local application socket, and the messages it
    publishes. Goroutines are run one step at a time; what the client publishes
    and what it writes to its local socket are recorded as logs. */
module Client {
  import opened Common
  import opened Framing
  import opened Crypto
  import opened Wire

  /** The length of the key `main` allocates and fills from `rand.Read`. */
  const SymKeyLength: nat := 32

  /** The number of SYM messages in a log of published messages. */
  function SymCount(msgs: seq<Bytes>): nat
  {
    if msgs == [] then 0
    else SymCount(msgs[..|msgs| - 1]) + (if msgs[|msgs| - 1] != [] && msgs[|msgs| - 1][0] == SYM then 1 else 0)
  }

  /** Publishing one more message adds one to the count exactly when it is a
      SYM message. */
  lemma SymCountAppend(msgs: seq<Bytes>, msg: Bytes)
    ensures SymCount(msgs + [msg]) == SymCount(msgs) + (if msg != [] && msg[0] == SYM then 1 else 0)
  {
    assert (msgs + [msg])[..|msgs|] == msgs;
  }

  /** The HAS_BRIDGE and DATA branches of the `handleMessages` callback, for a
      message with tag `tag` and body `body` (everything after the tag): the
      frame written to the local socket, if any. The body is decrypted with
      the client's key; only a plaintext whose first 36 bytes are the client's
      own identity produces a frame: `packetize([5])` for HAS_BRIDGE, the
      packetized rest of the plaintext for DATA. A plaintext shorter than 36
      bytes panics on `aux[:36]`. */
  function Inbound(aead: Aead, valueID: Bytes, symKey: Bytes, tag: byte, body: Bytes): (r: Outcome<Option<Bytes>>)
    requires tag == HAS_PENDING || tag == DATA
    ensures r.Ok? && r.value.Some? ==>
              var plain := ClientDecrypt(aead, symKey, body);
              && plain.Ok? && plain.value.Some? && |plain.value.value| >= IdLength
              && plain.value.value[..IdLength] == valueID
              && r.value.value == Packetize(if tag == DATA then plain.value.value[IdLength..] else [HAS_PENDING])
    ensures ClientDecrypt(aead, symKey, body) == Ok(None) ==> r == Ok(None)
  {
    match ClientDecrypt(aead, symKey, body)
    case Panic => Panic
    case Ok(None) => Ok(None)
    case Ok(Some(plain)) =>
      if |plain| < IdLength then Panic
      else if plain[..IdLength] != valueID then Ok(None)
      else Ok(Some(Packetize(if tag == DATA then plain[IdLength..] else [HAS_PENDING])))
  }

  class Endpoint {
    /** `valueID`, fixed by `main` before anything else runs. */
    const valueID: Bytes
    /** `symKey`, fixed by `main` before anything else runs. */
    const symKey: Bytes
    const aead: Aead
    /** The broker's key pair as the client sees it: only `encrypt` is used on
        this side (with the public key received in PUBLIC_KEY); `decrypt`,
        which stands for the broker's private key, is never called here. */
    const ecies: Ecies

    /** The broker's public key: `None` until the first PUBLIC_KEY message. */
    var publicKey: Option<Bytes>
    /** Messages published on the bus, in order. */
    var published: seq<Bytes>
    /** Frames written to the local rendezvous socket, in order. */
    var written: seq<Bytes>

    /** The identity has the length of a UUID's text form, the key is an AES-256
        key, and a SYM message has been published exactly when the public key
        is held: once, at the moment it was learnt. */
    ghost predicate Valid()
      reads this
    {
      && |valueID| == IdLength && |symKey| == SymKeyLength
      && SymCount(published) == (if publicKey.Some? then 1 else 0)
    }

    /** `main`: a fresh identity and key, no public key yet. */
    constructor (valueID: Bytes, symKey: Bytes, aead: Aead, ecies: Ecies)
      requires |valueID| == IdLength && |symKey| == SymKeyLength
      ensures Valid()
      ensures this.valueID == valueID && this.symKey == symKey
      ensures this.aead == aead && this.ecies == ecies
      ensures publicKey == None && published == [] && written == []
    {
      this.valueID := valueID;
      this.symKey := symKey;
      this.aead := aead;
      this.ecies := ecies;
      publicKey := None;
      published := [];
      written := [];
    }

    /** The end of `main`, once the local application has connected: publish
        CONNECT with the client's identity. */
    method Connect()
      requires Valid()
      modifies this
      ensures Valid()
      ensures published == old(published) + [ConnectMessage(valueID)]
      ensures publicKey == old(publicKey) && written == old(written)
    {
      SymCountAppend(published, ConnectMessage(valueID));
      published := published + [ConnectMessage(valueID)];
    }

    /** The `handleMessages` callback for one bus message `data`; `rnd` stands
        for the randomness `ecies.Encrypt` draws. */
    method HandleMessage(data: Bytes, rnd: Bytes) returns (outcome: Outcome<()>)
      requires Valid()
      modifies this
      ensures Valid()
      // Once learnt, the public key never changes.
      ensures old(publicKey).Some? ==> publicKey == old(publicKey)
      ensures data == [] ==> outcome == Panic && unchanged(this)
      // The first PUBLIC_KEY message is accepted and answered with exactly one SYM.
      ensures data != [] && data[0] == PUBLIC_KEY && old(publicKey).None? ==>
                && outcome.Ok?
                && publicKey == Some(data[1..])
                && published == old(published) + [SymMessage(valueID, ecies.encrypt(data[1..], symKey, rnd))]
                && written == old(written)
      // Nothing else changes the key or publishes anything.
      ensures !(data != [] && data[0] == PUBLIC_KEY && old(publicKey).None?) ==>
                publicKey == old(publicKey) && published == old(published)
      // HAS_BRIDGE and DATA write at most the frame the filter lets through.
      ensures data != [] && (data[0] == HAS_PENDING || data[0] == DATA) ==>
                match Inbound(aead, valueID, symKey, data[0], data[1..])
                case Panic => outcome == Panic && written == old(written)
                case Ok(None) => outcome.Ok? && written == old(written)
                case Ok(Some(frame)) => outcome.Ok? && written == old(written) + [frame]
      // A PUBLIC_KEY while a key is held, and any other tag, is ignored.
      ensures data != [] && data[0] !in {HAS_PENDING, DATA} && !(data[0] == PUBLIC_KEY && old(publicKey).None?) ==>
                outcome.Ok? && unchanged(this)
    {
      if data == [] {
        return Panic;
      }
      outcome := Ok(());
      if data[0] == PUBLIC_KEY && publicKey.None? {
        var key := data[1..];
        publicKey := Some(key);
        var sendMsg := SymMessage(valueID, ecies.encrypt(key, symKey, rnd));
        SymCountAppend(published, sendMsg);
        published := published + [sendMsg];
      } else if data[0] == HAS_PENDING || data[0] == DATA {
        var frame := Inbound(aead, valueID, symKey, data[0], data[1..]);
        if frame.Panic? {
          return Panic;
        }
        if frame.value.Some? {
          written := written + [frame.value.value];
        }
      }
    }

    /** One iteration of the `initializeServer` loop: read a frame from the
        local socket, encrypt its payload, and publish it as DATA with the
        identity in the clear. Returns the number of blocks read; `nonce`
        stands for the bytes `rand.Read` draws. */
    method RelayLocalFrame(stream: seq<Block>, nonce: Bytes) returns (outcome: Outcome<nat>)
      requires Valid() && |nonce| == aead.nonceSize
      modifies this
      ensures Valid()
      ensures publicKey == old(publicKey) && written == old(written)
      ensures Deframe(stream) == Panic ==> outcome == Panic && published == old(published)
      ensures Deframe(stream).Ok? ==>
                var frame := Deframe(stream).value;
                && outcome == Ok(frame.blocks)
                && published == old(published) +
                     [ClientDataMessage(valueID, Encrypt(aead, symKey, nonce, frame.payload).value)]
    {
      var read := GetFullPacket(stream);
      if read.Panic? {
        return Panic;
      }
      var sealed := Encrypt(aead, symKey, nonce, read.value.payload);
      var msg := ClientDataMessage(valueID, sealed.value);
      SymCountAppend(published, msg);
      published := published + [msg];
      outcome := Ok(read.value.blocks);
    }
  }
}
