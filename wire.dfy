/** Bus messages: one tag byte, then a tag-specific body. The tag constants are
    those of server/server.go and client/client.go (the client calls tag 5
    HAS_BRIDGE, the broker HAS_PEDDING_CLIENTS). */
module Wire {
  import opened Common

  const CONNECT: byte := 1
  const SYM: byte := 2
  const POLL: byte := 3
  const PUBLIC_KEY: byte := 4
  const HAS_PENDING: byte := 5
  const NO_PENDING: byte := 6
  const DATA: byte := 9

  /** The length of a client identity: the text form of a UUID. */
  const IdLength: nat := 36

  /** The broker's reading of a non-CONNECT message: tag `msg[0]`, identity
      `msg[1:37]`, body `msg[37:]`. */
  datatype Parsed = Parsed(tag: byte, id: Bytes, body: Bytes)

  /** The split at the head of `handleMessage`. Go checks the end of the slice
      `msg[1:37]` against the buffer's capacity, not its length; the buffer the
      bus delivers is taken to have no spare capacity, so a message shorter
      than 37 bytes panics here. */
  function ParseMessage(msg: Bytes): (r: Outcome<Parsed>)
    ensures r.Ok? <==> |msg| >= 1 + IdLength
    ensures r.Ok? ==> |r.value.id| == IdLength && [r.value.tag] + r.value.id + r.value.body == msg
  {
    if |msg| < 1 + IdLength then Panic
    else
      assert msg == [msg[0]] + msg[1..1 + IdLength] + msg[1 + IdLength..];
      Ok(Parsed(msg[0], msg[1..1 + IdLength], msg[1 + IdLength..]))
  }

  /** A message's parse is determined by its layout: whatever is built as tag,
      36-byte identity and body is read back as exactly those three parts. */
  lemma ParseLayout(tag: byte, id: Bytes, body: Bytes)
    requires |id| == IdLength
    ensures ParseMessage([tag] + id + body) == Ok(Parsed(tag, id, body))
  {
    var msg := [tag] + id + body;
    assert msg[1..1 + IdLength] == id;
    assert msg[1 + IdLength..] == body;
  }

  /** CONNECT, as the client's `main` sends it: the tag, then the identity. The
      broker takes everything after the tag as the identity. */
  function ConnectMessage(id: Bytes): (msg: Bytes)
    ensures |msg| == 1 + |id| && msg[0] == CONNECT && msg[1..] == id
  {
    [CONNECT] + id
  }

  /** SYM, as the client builds it on receiving the broker's public key: the
      tag, the identity, then the ECIES-encrypted symmetric key. */
  function SymMessage(id: Bytes, encryptedKey: Bytes): (msg: Bytes)
    ensures |id| == IdLength ==> ParseMessage(msg) == Ok(Parsed(SYM, id, encryptedKey))
  {
    assert |id| == IdLength ==> ParseMessage([SYM] + id + encryptedKey) == Ok(Parsed(SYM, id, encryptedKey)) by {
      if |id| == IdLength { ParseLayout(SYM, id, encryptedKey); }
    }
    [SYM] + id + encryptedKey
  }

  /** DATA from the client: the tag, the identity in the clear, then the
      AES-GCM ciphertext of the payload. */
  function ClientDataMessage(id: Bytes, ciphertext: Bytes): (msg: Bytes)
    ensures |id| == IdLength ==> ParseMessage(msg) == Ok(Parsed(DATA, id, ciphertext))
  {
    assert |id| == IdLength ==> ParseMessage([DATA] + id + ciphertext) == Ok(Parsed(DATA, id, ciphertext)) by {
      if |id| == IdLength { ParseLayout(DATA, id, ciphertext); }
    }
    [DATA] + id + ciphertext
  }

  /** PUBLIC_KEY from the broker: the tag, then the public key bytes, which the
      client reads as `msg[1:]`. */
  function PublicKeyMessage(publicKey: Bytes): (msg: Bytes)
    ensures |msg| >= 1 && msg[0] == PUBLIC_KEY && msg[1..] == publicKey
  {
    [PUBLIC_KEY] + publicKey
  }

  /** A broker message that carries only ciphertext after its tag (HAS_PENDING
      and DATA towards the client); the client decrypts `msg[1:]`. */
  function SealedMessage(tag: byte, ciphertext: Bytes): (msg: Bytes)
    ensures |msg| >= 1 && msg[0] == tag && msg[1..] == ciphertext
  {
    [tag] + ciphertext
  }
}
