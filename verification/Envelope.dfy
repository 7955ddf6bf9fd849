/**
 Envelope encryption, symbolically: a sealed value remembers the key and the
 nonce it was sealed with, and opens for those alone. Random bytes come from a
 supply that never repeats.
 */
module Envelope {
  import opened Prelude

  datatype Key = Key(seed: nat)

  datatype Payload = KeyPayload(key: Key) | TextPayload(text: string)

  datatype Sealed = Sealed(key: Key, nonce: nat, payload: Payload)

  /** Authenticated decryption: None is the InvalidTag exception. */
  function Open(key: Key, nonce: nat, s: Sealed): (r: Option<Payload>)
    ensures r.Some? <==> s.key == key && s.nonce == nonce
    ensures r.Some? ==> r.value == s.payload
  {
    if s == Sealed(key, nonce, s.payload) then Some(s.payload) else None
  }

  function OpenKey(key: Key, nonce: nat, s: Sealed): Option<Key> {
    match Open(key, nonce, s)
    case Some(KeyPayload(k)) => Some(k)
    case _ => None
  }

  function OpenText(key: Key, nonce: nat, s: Sealed): Option<string> {
    match Open(key, nonce, s)
    case Some(TextPayload(text)) => Some(text)
    case _ => None
  }

  class EnvelopeVault {
    const kek: Key
    var drawn: nat

    constructor (kek: Key, drawn: nat)
      ensures this.kek == kek && this.drawn == drawn
    {
      this.kek, this.drawn := kek, drawn;
    }

    method Urandom() returns (r: nat)
      modifies this
      ensures r == old(drawn) && drawn == old(drawn) + 1
    {
      r := drawn;
      drawn := drawn + 1;
    }

    method GenerateDek() returns (dek: Key)
      modifies this
      ensures dek == Key(old(drawn)) && drawn == old(drawn) + 1
    {
      var seed := Urandom();
      dek := Key(seed);
    }

    method EncryptDek(dek: Key) returns (s: Sealed, nonce: nat)
      modifies this
      ensures nonce == old(drawn) && drawn == old(drawn) + 1
      ensures OpenKey(kek, nonce, s) == Some(dek)
      ensures s.key == kek && s.nonce == nonce
    {
      nonce := Urandom();
      s := Sealed(kek, nonce, KeyPayload(dek));
    }

    method EncryptValue(dek: Key, text: string) returns (s: Sealed, nonce: nat)
      modifies this
      ensures nonce == old(drawn) && drawn == old(drawn) + 1
      ensures OpenText(dek, nonce, s) == Some(text)
      ensures s.key == dek && s.nonce == nonce
    {
      nonce := Urandom();
      s := Sealed(dek, nonce, TextPayload(text));
    }
  }
}
