/**
  The cryptography of the handshake as a free term algebra: two terms are equal only when
  they were built the same way.  What an attacker can still do, HandshakeWorld says.
 */
module SymbolicCrypto {
  import opened Wrappers

  datatype Role = Initiator | Responder {
    function Other(): Role {
      if this == Initiator then Responder else Initiator
    }
  }

  datatype Algorithm = ChaCha20Poly1305 | Aes256Gcm

  /** The six slices `deriveAll` cuts out of the HKDF output. */
  datatype Slice = I2RKey | I2RPrefix | R2IKey | R2IPrefix | SessionIdSlice | SasSlice

  datatype Term =
    | Secret(id: nat)                     // X25519 secret key
    | Public(id: nat)                     // its public key
    | LowOrder                            // a public key that `agree` refuses
    | Shared(a: nat, b: nat)              // shared secret of two key pairs, smaller id first
    | SharedRaw(own: nat, peer: Term)     // a secret applied to bytes that are nobody's public key
    | Nonce(id: nat)
    | SigningKey(id: nat)                 // Ed25519 secret key
    | IdentityKey(id: nat)                // its public key
    | Transcript(version: nat, ephemeralI: Term, nonceI: Term, ephemeralR: Term, nonceR: Term)
    | Derived(secret: Term, salt: Term, slice: Slice)
    | Signature(signer: nat, context: Role, message: Term)
    | Sealed(algorithm: Algorithm, key: Term, prefix: Term, plaintext: Term, associatedData: Term)
    | AuthRecord(identityKey: Term, signature: Term, capabilities: Term)
    | Capabilities(id: nat)
    | Junk(id: nat, length: nat)          // any other byte string

  const KEY_LENGTH := 32
  const NONCE_LENGTH := 16
  const SIGNATURE_LENGTH := 64
  const PREFIX_LENGTH := 4
  const SESSION_ID_LENGTH := 8

  /** Byte length of a term; 0 stands for a length that no check asks for. */
  function Length(t: Term): nat {
    match t
    case Nonce(_) => NONCE_LENGTH
    case Signature(_, _, _) => SIGNATURE_LENGTH
    case Derived(_, _, slice) =>
      if slice == I2RPrefix || slice == R2IPrefix then PREFIX_LENGTH
      else if slice == SessionIdSlice then SESSION_ID_LENGTH
      else KEY_LENGTH
    case Junk(_, n) => n
    case Sealed(_, _, _, _, _) => 0
    case AuthRecord(_, _, _) => 0
    case Capabilities(_) => 0
    case _ => KEY_LENGTH
  }

  /** X25519, refusing low-order points. */
  function Agree(own: nat, peer: Term): Option<Term> {
    match peer
    case LowOrder => None
    case Public(b) => Some(if own <= b then Shared(own, b) else Shared(b, own))
    case _ => Some(SharedRaw(own, peer))
  }

  /** Both ends of an honest exchange compute one secret, and it names both ends. */
  lemma AgreeSymmetric(a: nat, b: nat)
    ensures Agree(a, Public(b)) == Agree(b, Public(a))
    ensures Agree(a, Public(b)).Some?
    ensures var s := Agree(a, Public(b)).value;
            s.Shared? && {s.a, s.b} == {a, b}
  {
    if a <= b {
      assert {a, b} == {Shared(a, b).a, Shared(a, b).b};
    } else {
      assert {a, b} == {Shared(b, a).a, Shared(b, a).b};
    }
  }

  function Open(algorithm: Algorithm, key: Term, prefix: Term, ciphertext: Term, associatedData: Term): Option<Term> {
    if ciphertext.Sealed?
       && ciphertext.algorithm == algorithm && ciphertext.key == key
       && ciphertext.prefix == prefix && ciphertext.associatedData == associatedData
    then Some(ciphertext.plaintext)
    else None
  }

  predicate Verifies(signature: Term, context: Role, message: Term, identityKey: Term) {
    signature.Signature? && signature.context == context && signature.message == message
    && identityKey == IdentityKey(signature.signer)
  }
}
