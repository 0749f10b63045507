/** Signature checking for host keys and user keys: the expected signature
    type is compared with the received one before any cryptography runs. */
module Sign {
  import opened Common
  import opened SshNames
  import opened SigTypes
  import opened Packets

  /** The Ed25519 verification primitive (public key, message, signature). */
  type Ed25519Verifier = (seq<Byte>, seq<Byte>, seq<Byte>) -> bool

  /** The text of a presented name, recognised or not. */
  function NameText(n: PresentedName): string
  {
    match n
    case Known(name) => name
    case Unrecognised(raw) => raw
  }

  /** `SigType::verify`. Only the all-Ed25519 combination reaches the
      primitive; RSA verification is not available and always fails. */
  function Verify(expected: SigType, pubkey: PubKey, message: seq<Byte>, sig: Signature,
                  edVerify: Ed25519Verifier): (r: Outcome)
    ensures sig.UnknownSig? ==> r == Fail(UnknownMethod("signature"))
    ensures !sig.UnknownSig? && SigTypeOf(sig).value != expected ==> r == Fail(BadSignature)
    ensures expected == RSA256 && !sig.UnknownSig? ==> r == Fail(BadSignature)
    ensures expected == SigType.Ed25519 && sig.Ed25519Sig? && !pubkey.Ed25519Key? ==>
      r == Fail(SignatureMismatch(NameText(PubKeyAlgorithmName(pubkey)), "ed25519todo"))
    ensures (expected == SigType.Ed25519 && pubkey.Ed25519Key? && sig.Ed25519Sig?
             && !edVerify(pubkey.key, message, sig.sig)) ==> r == Fail(BadSignature)
    ensures r.Pass? <==> (expected == SigType.Ed25519 && pubkey.Ed25519Key? && sig.Ed25519Sig?
                          && edVerify(pubkey.key, message, sig.sig))
  {
    match SigTypeOf(sig)
    case Err(e) => Fail(e)
    case Ok(sigType) =>
      if sigType != expected then Fail(BadSignature)
      else
        match (expected, pubkey, sig)
        case (Ed25519, Ed25519Key(k), Ed25519Sig(s)) =>
          if edVerify(k, message, s) then Pass else Fail(BadSignature)
        case (RSA256, _, _) => Fail(BadSignature)
        case _ => Fail(SignatureMismatch(NameText(PubKeyAlgorithmName(pubkey)), "ed25519todo"))
  }

  /** The type check comes before the cryptography: when the received
      signature is not of the expected type, the verdict is the same whatever
      the primitive would say. */
  lemma TypeCheckBeforeCrypto(expected: SigType, pubkey: PubKey, message: seq<Byte>, sig: Signature,
                              v1: Ed25519Verifier, v2: Ed25519Verifier)
    requires SigTypeOf(sig).Ok? && SigTypeOf(sig).value != expected
    ensures Verify(expected, pubkey, message, sig, v1) == Verify(expected, pubkey, message, sig, v2)
  {
  }

  /** The primitive is consulted only for an Ed25519 key, an Ed25519
      signature and an expected Ed25519 type. */
  lemma CryptoOnlyForEd25519(expected: SigType, pubkey: PubKey, message: seq<Byte>, sig: Signature,
                             v1: Ed25519Verifier, v2: Ed25519Verifier)
    requires !(expected == SigType.Ed25519 && pubkey.Ed25519Key? && sig.Ed25519Sig?)
    ensures Verify(expected, pubkey, message, sig, v1) == Verify(expected, pubkey, message, sig, v2)
    ensures Verify(expected, pubkey, message, sig, v1).Fail?
  {
  }

  /** A signing key; only Ed25519 key pairs are supported. The private part
      stays with the primitive that derives the public key from it. */
  datatype SignKey = Ed25519SignKey(secret: seq<Byte>)

  /** `SignKey::pubkey`: the public half, as the Ed25519 `PubKey` variant.
      Such a key always has a signature algorithm and can be offered. */
  function SignKeyPubkey(k: SignKey, publicOf: seq<Byte> -> seq<Byte>): (r: PubKey)
    ensures r.Ed25519Key? && r.key == publicOf(k.secret)
    ensures SigNameForPubkey(r) == Ok(SSH_NAME_ED25519)
    ensures FromName(SigNameForPubkey(r).value) == Ok(SigType.Ed25519)
    ensures AuthMethodForKey(r).Ok?
  {
    match k
    case Ed25519SignKey(secret) => Ed25519Key(publicOf(secret))
  }
}
