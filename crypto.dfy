/** The crypto layer as both programs use it. AES-GCM and ECIES are library
    calls; here they are function values passed into the model, and the one
    property the protocol relies on (decryption undoes encryption) is a
    hypothesis, `AeadCorrect` / `EciesCorrect`, that the lemmas needing it
    require. `ToyAead` and `ToyEcies` show that the hypotheses can be met. */
module Crypto {
  import opened Common

  /** AES-GCM through `crypto/cipher`: the nonce size of `gcm.NonceSize()`,
      `seal(key, nonce, plain)` for the output of `gcm.Seal` after the nonce,
      and `open(key, nonce, ciphertext)` for `gcm.Open`, `None` on an
      authentication failure. */
  datatype Aead = Aead(
    nonceSize: nat,
    seal: (Bytes, Bytes, Bytes) -> Bytes,
    open: (Bytes, Bytes, Bytes) -> Option<Bytes>)

  /** The broker's ECIES key pair: the public key bytes it broadcasts,
      `encrypt(publicKey, plain, randomness)` for `ecies.Encrypt` (whose
      ephemeral key is drawn from `randomness`), and `decrypt` for
      `ecies.Decrypt` under the broker's private key, `None` on failure. */
  datatype Ecies = Ecies(
    publicKey: Bytes,
    encrypt: (Bytes, Bytes, Bytes) -> Bytes,
    decrypt: Bytes -> Option<Bytes>)

  /** The key lengths `aes.NewCipher` accepts. */
  predicate ValidKey(key: Bytes)
  {
    |key| == 16 || |key| == 24 || |key| == 32
  }

  /** AES-GCM opens what it sealed under the same key and nonce. */
  ghost predicate AeadCorrect(aead: Aead)
  {
    forall key, nonce, plain {:trigger aead.seal(key, nonce, plain)} ::
      ValidKey(key) && |nonce| == aead.nonceSize ==>
        aead.open(key, nonce, aead.seal(key, nonce, plain)) == Some(plain)
  }

  /** The private key decrypts what was encrypted under the public key. */
  ghost predicate EciesCorrect(ecies: Ecies)
  {
    forall plain, rnd {:trigger ecies.encrypt(ecies.publicKey, plain, rnd)} ::
      ecies.decrypt(ecies.encrypt(ecies.publicKey, plain, rnd)) == Some(plain)
  }

  /** `encryptMsg` (identical in both programs): a fresh nonce, then the sealed
      message. An invalid key makes `aes.NewCipher` fail and the code panics. */
  function Encrypt(aead: Aead, key: Bytes, nonce: Bytes, msg: Bytes): (r: Outcome<Bytes>)
    requires |nonce| == aead.nonceSize
    ensures r.Ok? <==> ValidKey(key)
    ensures r.Ok? ==> |r.value| >= aead.nonceSize && r.value[..aead.nonceSize] == nonce
  {
    if !ValidKey(key) then Panic else Ok(nonce + aead.seal(key, nonce, msg))
  }

  /** The broker's `decryptMsg`: splits off the nonce and opens the rest. An
      invalid key, a message shorter than a nonce, or an authentication failure
      all panic. */
  function ServerDecrypt(aead: Aead, key: Bytes, msg: Bytes): (r: Outcome<Bytes>)
    ensures r.Ok? ==> ValidKey(key) && |msg| >= aead.nonceSize
    ensures r.Ok? ==> aead.open(key, msg[..aead.nonceSize], msg[aead.nonceSize..]) == Some(r.value)
  {
    if !ValidKey(key) || |msg| < aead.nonceSize then Panic
    else
      match aead.open(key, msg[..aead.nonceSize], msg[aead.nonceSize..])
      case None => Panic
      case Some(plain) => Ok(plain)
  }

  /** The client's `decryptMsg`: returns nil (`None`) instead of panicking when
      the key is invalid or authentication fails. It still panics on a message
      shorter than a nonce (the slice `msg[:nonceSize]`). `gcm.Open` returns a
      nil slice for an empty plaintext, which the caller cannot tell from a
      failure, so an empty plaintext is `None` too. */
  function ClientDecrypt(aead: Aead, key: Bytes, msg: Bytes): (r: Outcome<Option<Bytes>>)
    ensures r.Ok? && r.value.Some? ==>
              |msg| >= aead.nonceSize && r.value.value != [] &&
              aead.open(key, msg[..aead.nonceSize], msg[aead.nonceSize..]) == Some(r.value.value)
    ensures r == Panic <==> ValidKey(key) && |msg| < aead.nonceSize
  {
    if !ValidKey(key) then Ok(None)
    else if |msg| < aead.nonceSize then Panic
    else
      match aead.open(key, msg[..aead.nonceSize], msg[aead.nonceSize..])
      case None => Ok(None)
      case Some(plain) => if plain == [] then Ok(None) else Ok(Some(plain))
  }

  /** The broker's `decryptMsg` undoes `encryptMsg` under the same key. */
  lemma ServerDecryptEncrypt(aead: Aead, key: Bytes, nonce: Bytes, msg: Bytes)
    requires AeadCorrect(aead) && ValidKey(key) && |nonce| == aead.nonceSize
    ensures ServerDecrypt(aead, key, Encrypt(aead, key, nonce, msg).value) == Ok(msg)
  {
    var c := Encrypt(aead, key, nonce, msg).value;
    assert c[..aead.nonceSize] == nonce && c[aead.nonceSize..] == aead.seal(key, nonce, msg);
  }

  /** The client's `decryptMsg` undoes `encryptMsg` under the same key, for a
      non-empty message. */
  lemma ClientDecryptEncrypt(aead: Aead, key: Bytes, nonce: Bytes, msg: Bytes)
    requires AeadCorrect(aead) && ValidKey(key) && |nonce| == aead.nonceSize && msg != []
    ensures ClientDecrypt(aead, key, Encrypt(aead, key, nonce, msg).value) == Ok(Some(msg))
  {
    var c := Encrypt(aead, key, nonce, msg).value;
    assert c[..aead.nonceSize] == nonce && c[aead.nonceSize..] == aead.seal(key, nonce, msg);
  }

  /** A stand-in cipher (no secrecy) that meets `AeadCorrect`. */
  function ToyAead(): Aead
  {
    Aead(12,
         (key: Bytes, nonce: Bytes, plain: Bytes) => key + nonce + plain,
         (key: Bytes, nonce: Bytes, c: Bytes) =>
           if |c| >= |key| + |nonce| && c[..|key| + |nonce|] == key + nonce
           then Some(c[|key| + |nonce|..]) else None)
  }

  lemma ToyAeadCorrect()
    ensures AeadCorrect(ToyAead())
  {
    var aead := ToyAead();
    forall key, nonce, plain | ValidKey(key) && |nonce| == aead.nonceSize
      ensures aead.open(key, nonce, aead.seal(key, nonce, plain)) == Some(plain)
    {
      var c := key + nonce + plain;
      assert c[..|key| + |nonce|] == key + nonce;
      assert c[|key| + |nonce|..] == plain;
    }
  }

  /** A stand-in key pair (no secrecy at all) that meets `EciesCorrect`. */
  function ToyEcies(publicKey: Bytes): Ecies
  {
    Ecies(publicKey, (pk: Bytes, plain: Bytes, rnd: Bytes) => plain, (c: Bytes) => Some(c))
  }

  lemma ToyEciesCorrect(publicKey: Bytes)
    ensures EciesCorrect(ToyEcies(publicKey))
  {
  }
}
