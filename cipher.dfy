/**
 * Field-level encryption of the vault: RSAES-OAEP with SHA-256 as both the hash and the
 * MGF1 hash, no label (section 7.1 of RFC 8017), over a 2048-bit RSA key.
 *
 * The RSA arithmetic and the padding are not modelled. A ciphertext records which key
 * pair produced it, the random seed the padding drew, and the plaintext; decryption
 * succeeds exactly when the private key belongs to that pair. This keeps the three
 * properties the vault relies on: the round trip, rejection of a wrong key, and
 * different ciphertexts for different random seeds.
 */
module Cipher {

  import opened Wrappers
  import opened Strings

  /** Size of the RSA modulus in bytes (2048 bits). */
  const ModulusBytes: nat := 256
  /** Output length of SHA-256 in bytes. */
  const HashBytes: nat := 32
  /** Largest message RSAES-OAEP accepts: k - 2 hLen - 2 (section 7.1.1 of RFC 8017). */
  const MaxPlaintextBytes: nat := ModulusBytes - 2 * HashBytes - 2

  /** Key pairs are told apart by an identifier; a public and a private key match when the identifiers agree. */
  datatype PublicKey = PublicKey(pairId: nat)
  datatype PrivateKey = PrivateKey(pairId: nat)

  predicate Matches(pub: PublicKey, priv: PrivateKey) { pub.pairId == priv.pairId }

  datatype Ciphertext = Ciphertext(pairId: nat, seed: nat, plaintext: string)

  datatype CipherError = PlaintextTooLong | WrongKey

  /** `public_key.encrypt(data.encode('utf-8'), OAEP(...))`, with the padding's random seed as a parameter. */
  function Encrypt(pub: PublicKey, data: string, seed: nat): (r: Result<Ciphertext, CipherError>)
    ensures r.Err? <==> Utf8Length(data) > MaxPlaintextBytes
    ensures r.Err? ==> r.error == PlaintextTooLong
  {
    if Utf8Length(data) > MaxPlaintextBytes then Err(PlaintextTooLong)
    else Ok(Ciphertext(pub.pairId, seed, data))
  }

  /** `private_key.decrypt(data, OAEP(...)).decode('utf-8')`. */
  function Decrypt(priv: PrivateKey, data: Ciphertext): (r: Result<string, CipherError>)
    ensures r.Err? <==> data.pairId != priv.pairId
    ensures r.Err? ==> r.error == WrongKey
  {
    if data.pairId != priv.pairId then Err(WrongKey) else Ok(data.plaintext)
  }

  /** Decrypting with the matching private key returns the encrypted text. */
  lemma RoundTrip(pub: PublicKey, priv: PrivateKey, data: string, seed: nat)
    requires Matches(pub, priv)
    requires Utf8Length(data) <= MaxPlaintextBytes
    ensures Encrypt(pub, data, seed).Ok?
    ensures Decrypt(priv, Encrypt(pub, data, seed).value) == Ok(data)
  {
  }

  /** A private key of another pair cannot decrypt. */
  lemma WrongKeyRejected(pub: PublicKey, priv: PrivateKey, data: string, seed: nat)
    requires !Matches(pub, priv)
    requires Utf8Length(data) <= MaxPlaintextBytes
    ensures Decrypt(priv, Encrypt(pub, data, seed).value) == Err(WrongKey)
  {
  }

  /** Encryption is probabilistic: two different seeds give two different ciphertexts of one text. */
  lemma Probabilistic(pub: PublicKey, data: string, seed1: nat, seed2: nat)
    requires seed1 != seed2
    requires Utf8Length(data) <= MaxPlaintextBytes
    ensures Encrypt(pub, data, seed1) != Encrypt(pub, data, seed2)
  {
  }

  /** Any text of at most 47 characters fits, whatever the characters (4 bytes each at most). */
  lemma ShortTextsFit(data: string)
    requires |data| <= 47
    ensures Utf8Length(data) <= MaxPlaintextBytes
  {
    Utf8LengthBounds(data);
  }

  /** Any text of more than 190 characters is refused (each character takes at least one byte). */
  lemma LongTextsRefused(pub: PublicKey, data: string, seed: nat)
    requires |data| > MaxPlaintextBytes
    ensures Encrypt(pub, data, seed) == Err(PlaintextTooLong)
  {
    Utf8LengthBounds(data);
  }
}
