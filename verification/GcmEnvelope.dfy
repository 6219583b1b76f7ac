/**
  The AES-256-GCM message format: the nonce in front, then ciphertext and tag. The cipher itself is a
  parameter; all that is asked of it is that opening undoes sealing and that the tag has 16 bytes
  (section 5.2 of RFC 5116).
 */
module GcmEnvelope {
  import opened Common
  import opened NonceBytes

  const KEY_LEN := 32
  const TAG_LEN := 16

  datatype CryptoError = EncodingFailed | DecodingFailed

  /** Key, nonce and text to text; sealing may refuse a message, opening a forged one. */
  datatype Aead = Aead(
    seal: (seq<byte>, seq<byte>, seq<byte>) -> Option<seq<byte>>,
    open: (seq<byte>, seq<byte>, seq<byte>) -> Option<seq<byte>>)

  ghost predicate Lawful(a: Aead) {
    && (forall key, nonce, msg :: a.seal(key, nonce, msg).Some? ==>
         a.open(key, nonce, a.seal(key, nonce, msg).value) == Some(msg))
    && (forall key, nonce, text :: a.open(key, nonce, text).Some? ==>
         |text| == |a.open(key, nonce, text).value| + TAG_LEN)
  }

  /** `random` is what the system's generator delivers, if it does. */
  method EncodeMessage(a: Aead, secret: seq<byte>, msg: seq<byte>, random: Option<seq<byte>>)
    returns (result: Result<seq<byte>, CryptoError>)
    requires random.Some? ==> |random.value| == NONCE_LEN
    ensures result.Ok? <==> random.Some? && |secret| == 32 && a.seal(secret, random.value, msg).Some?
    ensures result.Err? ==> result.error == EncodingFailed
    ensures result.Ok? ==> |result.value| >= NONCE_LEN && result.value[..NONCE_LEN] == random.value
    ensures result.Ok? ==> a.seal(secret, result.value[..NONCE_LEN], msg) == Some(result.value[NONCE_LEN..])
    ensures result.Ok? && Lawful(a) ==> |result.value| == |msg| + 28
  {
    if random.None? {
      return Err(EncodingFailed);
    }
    var nonceSequence := new NonceSequence.FromNonce(random.value);
    var currentNonce := nonceSequence.Current();
    if |secret| != KEY_LEN {
      return Err(EncodingFailed);
    }
    var nonce := nonceSequence.Advance();
    var sealed := a.seal(secret, nonce, msg);
    if sealed.None? {
      return Err(EncodingFailed);
    }
    var inOut := currentNonce + sealed.value;
    assert inOut[..NONCE_LEN] == currentNonce && inOut[NONCE_LEN..] == sealed.value;
    result := Ok(inOut);
  }

  method DecodeMessage(a: Aead, secret: seq<byte>, msg: seq<byte>) returns (result: Result<seq<byte>, CryptoError>)
    ensures |secret| != 32 || |msg| < 12 ==> result == Err(DecodingFailed)
    ensures |secret| == 32 && |msg| >= NONCE_LEN ==>
      result == match a.open(secret, msg[..NONCE_LEN], msg[NONCE_LEN..])
                case None => Err(DecodingFailed)
                case Some(text) => Ok(text)
    ensures Lawful(a) && |msg| < 28 ==> result == Err(DecodingFailed)
  {
    if |secret| != KEY_LEN || |msg| < NONCE_LEN {
      return Err(DecodingFailed);
    }
    var nonceSequence := new NonceSequence.FromNonce(msg[..NONCE_LEN]);
    var nonce := nonceSequence.Advance();
    var plain := a.open(secret, nonce, msg[NONCE_LEN..]);
    result := match plain case None => Err(DecodingFailed) case Some(text) => Ok(text);
  }

  /** Decoding what was encoded under the same key returns the message, whatever nonce was drawn. */
  method RoundTrip(a: Aead, secret: seq<byte>, msg: seq<byte>, random: seq<byte>)
    returns (encoded: Result<seq<byte>, CryptoError>, decoded: Result<seq<byte>, CryptoError>)
    requires Lawful(a) && |random| == NONCE_LEN
    ensures encoded.Ok? <==> |secret| == 32 && a.seal(secret, random, msg).Some?
    ensures encoded.Ok? ==> decoded == Ok(msg)
  {
    encoded := EncodeMessage(a, secret, msg, Some(random));
    if encoded.Ok? {
      decoded := DecodeMessage(a, secret, encoded.value);
    } else {
      decoded := Err(encoded.error);
    }
  }

  /** Such ciphers exist: one that appends sixteen zero bytes and insists on them. */
  lemma LawfulCiphersExist() returns (a: Aead)
    ensures Lawful(a) && forall key, nonce, msg :: a.seal(key, nonce, msg).Some?
  {
    var tag: seq<byte> := seq(TAG_LEN, _ => 0);
    a := Aead(
      (key, nonce, msg: seq<byte>) => Some(msg + tag),
      (key, nonce, text: seq<byte>) =>
        if |text| >= TAG_LEN && text[|text| - TAG_LEN..] == tag then Some(text[..|text| - TAG_LEN]) else None);
    forall msg: seq<byte> ensures (msg + tag)[|msg|..] == tag && (msg + tag)[..|msg|] == msg {
    }
  }
}
