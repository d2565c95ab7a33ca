/** Key derivation and Fernet encryption of the vault, kept symbolic.

    Both are calls into libraries (PBKDF2-HMAC-SHA256 in hashlib, Fernet in
    the cryptography package). They are modelled as in a symbolic
    ("perfect cryptography") model: a key records what it was derived from,
    and a token records the key, the per-message randomness and the
    plaintext. Equal keys therefore come only from equal inputs, and a token
    opens only under the key that sealed it; these are the properties the
    vault relies on, stated as lemmas below. */
module VaultCrypto {
  import opened Results

  newtype Byte = x: int | 0 <= x < 256

  /** Length in bytes of the vault salt (`os.urandom(16)`). */
  const SaltLength: nat := 16

  /** PBKDF2 iteration count of `derive_key`. */
  const Iterations: nat := 390000

  /** Length in bytes of the derived key before base64url encoding. */
  const KeyLength: nat := 32

  type Salt = s: seq<Byte> | |s| == SaltLength
    witness [0, 0, 0, 0, 0, 0, 0, 0, 0, 0, 0, 0, 0, 0, 0, 0]

  /** A Fernet key: base64url(PBKDF2-HMAC-SHA256(UTF-8(master), salt,
      Iterations, KeyLength)), represented by its inputs. */
  datatype Key = DerivedKey(masterPassword: string, salt: Salt)

  /** A Fernet token; `nonce` stands for the random IV and the timestamp
      that Fernet puts into every token. */
  datatype Token = Sealed(key: Key, nonce: nat, plaintext: string)

  /** Fernet's `InvalidToken`: the token does not authenticate under the key. */
  datatype CryptoError = InvalidToken

  function DeriveKey(masterPassword: string, salt: Salt): Key
  {
    DerivedKey(masterPassword, salt)
  }

  function Encrypt(key: Key, plaintext: string, nonce: nat): Token
  {
    Sealed(key, nonce, plaintext)
  }

  function Decrypt(key: Key, token: Token): (r: Result<string, CryptoError>)
    ensures r.Success? <==> token.key == key
  {
    if token.key == key then Success(token.plaintext) else Failure(InvalidToken)
  }

  /** The same master password and salt always give the same key, and
      different ones give different keys. */
  lemma DeriveKeyInjective(p1: string, s1: Salt, p2: string, s2: Salt)
    ensures DeriveKey(p1, s1) == DeriveKey(p2, s2) <==> p1 == p2 && s1 == s2
  {
  }

  /** Decrypting with the sealing key gives back the plaintext. */
  lemma DecryptEncrypt(key: Key, plaintext: string, nonce: nat)
    ensures Decrypt(key, Encrypt(key, plaintext, nonce)) == Success(plaintext)
  {
  }

  /** Any other key is rejected with InvalidToken. */
  lemma DecryptWrongKey(key: Key, other: Key, plaintext: string, nonce: nat)
    requires other != key
    ensures Decrypt(other, Encrypt(key, plaintext, nonce)) == Failure(InvalidToken)
  {
  }
}
