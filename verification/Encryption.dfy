/** The nonce and cipher-text framing of the `encryption` package, over an abstract AES-GCM. */
module Encryption {
  import opened Wrappers
  import opened Bytes

  const NONCE_SIZE := 12

  type Nonce = n: seq<byte> | |n| == NONCE_SIZE witness seq(12, _ => 0)

  /** AES-GCM: `seal(key, nonce, plain)` and `open(key, nonce, cipher)`. */
  datatype Aead = Aead(
    seal: (seq<byte>, Nonce, seq<byte>) -> seq<byte>,
    open: (seq<byte>, Nonce, seq<byte>) -> Option<seq<byte>>)
  {
    /** The one law assumed of AES-GCM: opening what was sealed under the same key and nonce gives it back. */
    ghost predicate Lawful() {
      forall k, n, p :: open(k, n, seal(k, n, p)) == Some(p)
    }
  }

  /** The two keys of one end of the channel. */
  datatype Keys = Keys(encryptionKey: seq<byte>, decryptionKey: seq<byte>) {

    /** The agent's end: it reads with the key this end writes with. */
    function Peer(): Keys {
      Keys(decryptionKey, encryptionKey)
    }
  }

  /** Key sizes `aes.NewCipher` accepts. */
  predicate ValidKey(key: seq<byte>) {
    |key| == 16 || |key| == 24 || |key| == 32
  }

  /** `generateEncryptionKey`: the first half of the data key decrypts, the second encrypts. */
  function SplitKey(plainTextKey: seq<byte>): Keys {
    var keySize := |plainTextKey| / 2;
    Keys(plainTextKey[keySize..], plainTextKey[..keySize])
  }

  function Encrypted(aead: Aead, keys: Keys, nonce: Nonce, plainText: seq<byte>): Result<seq<byte>> {
    if !ValidKey(keys.encryptionKey) then Err(BadKey)
    else Ok(nonce + aead.seal(keys.encryptionKey, nonce, plainText))
  }

  function Decrypted(aead: Aead, keys: Keys, cipherText: seq<byte>): Result<seq<byte>> {
    if !ValidKey(keys.decryptionKey) then Err(BadKey)
    else if |cipherText| < NONCE_SIZE then Err(Panic)
    else
      match aead.open(keys.decryptionKey, cipherText[..NONCE_SIZE], cipherText[NONCE_SIZE..])
      case None => Err(OpenFailed)
      case Some(plain) => Ok(plain)
  }

  /** `Encrypt`: appends the nonce, then the sealed text, each time to a re-slice of one buffer. */
  method Encrypt(aead: Aead, keys: Keys, nonce: Nonce, plainText: seq<byte>) returns (r: Result<seq<byte>>)
    ensures r == Encrypted(aead, keys, nonce, plainText)
  {
    if !ValidKey(keys.encryptionKey) {
      return Err(BadKey);
    }
    var cipherText := seq<byte>(NONCE_SIZE + |plainText|, _ => 0);
    var sealed := aead.seal(keys.encryptionKey, nonce, plainText);
    cipherText := cipherText[..NONCE_SIZE] + nonce;
    cipherText := cipherText[NONCE_SIZE..] + sealed;
    return Ok(cipherText);
  }

  /** `Decrypt`; a text shorter than the nonce panics on the slice. */
  method Decrypt(aead: Aead, keys: Keys, cipherText: seq<byte>) returns (r: Result<seq<byte>>)
    ensures r == Decrypted(aead, keys, cipherText)
  {
    if !ValidKey(keys.decryptionKey) {
      return Err(BadKey);
    }
    if |cipherText| < NONCE_SIZE {
      return Err(Panic);
    }
    var plain := aead.open(keys.decryptionKey, cipherText[..NONCE_SIZE], cipherText[NONCE_SIZE..]);
    if plain.None? {
      return Err(OpenFailed);
    }
    return Ok(plain.value);
  }

  /** Whatever this end encrypts, the other end decrypts to the same text, under any nonce. */
  lemma PeerOpens(aead: Aead, keys: Keys, nonce: Nonce, plainText: seq<byte>)
    requires aead.Lawful() && Encrypted(aead, keys, nonce, plainText).Ok?
    ensures Decrypted(aead, keys.Peer(), Encrypted(aead, keys, nonce, plainText).value) == Ok(plainText)
  {
    var sealed := aead.seal(keys.encryptionKey, nonce, plainText);
    var cipherText := Encrypted(aead, keys, nonce, plainText).value;
    assert cipherText[..NONCE_SIZE] == nonce && cipherText[NONCE_SIZE..] == sealed;
  }

  /** Encryption works on both halves exactly for data keys of twice an AES key size. */
  lemma SplitKeyUsable(plainTextKey: seq<byte>)
    ensures var keys := SplitKey(plainTextKey);
            ValidKey(keys.encryptionKey) && ValidKey(keys.decryptionKey) <==>
            |plainTextKey| == 32 || |plainTextKey| == 48 || |plainTextKey| == 64
    ensures var keys := SplitKey(plainTextKey);
            keys.decryptionKey + keys.encryptionKey == plainTextKey
  {
  }
}
