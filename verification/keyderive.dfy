/** Key derivation of RFC 4253 section 7.2: each key and IV is hashed from
    the shared secret K, the exchange hash H, a letter and the session id,
    extended by a second hash round when one digest is too short. The six
    letters are assigned by role so that what one side encrypts with, the
    other decrypts with. */
module KeyDerive {
  import opened Common
  import opened Encrypt
  import opened Negotiate

  /** SHA-256 over the bytes fed to it. */
  type Hash = f: seq<Byte> -> seq<Byte> | forall m :: |f(m)| == SHA256_OUTPUT
    witness (m: seq<Byte>) => seq(SHA256_OUTPUT, i => 0)

  // the letters of RFC 4253 section 7.2, as the byte that is hashed
  const LETTER_A: Byte := 0x41  // initial IV client to server
  const LETTER_B: Byte := 0x42  // initial IV server to client
  const LETTER_C: Byte := 0x43  // encryption key client to server
  const LETTER_D: Byte := 0x44  // encryption key server to client
  const LETTER_E: Byte := 0x45  // integrity key client to server
  const LETTER_F: Byte := 0x46  // integrity key server to client

  /** The key material of RFC 4253 section 7.2 after `rounds` hashes, for
      the bytes `prefix` (K as an mpint, then H):
      K1 = HASH(prefix || letter || session_id) and
      K(n+1) = HASH(prefix || K1 || ... || Kn). */
  function KeyMaterial(hash: Hash, prefix: seq<Byte>, letter: Byte, sessId: seq<Byte>, rounds: nat): (r: seq<Byte>)
    ensures |r| == SHA256_OUTPUT * rounds
  {
    if rounds == 0 then []
    else if rounds == 1 then hash(prefix + [letter] + sessId)
    else
      var before := KeyMaterial(hash, prefix, letter, sessId, rounds - 1);
      before + hash(prefix + before)
  }

  /** A key of `len` bytes: the start of the key material. Two rounds
      cover every key this engine uses. */
  function DerivedKey(hash: Hash, prefix: seq<Byte>, letter: Byte, sessId: seq<Byte>, len: nat): (r: seq<Byte>)
    requires len <= 2 * SHA256_OUTPUT
    ensures |r| == len
  {
    KeyMaterial(hash, prefix, letter, sessId, 2)[..len]
  }

  /** More rounds only extend the material: a key taken from two rounds
      is the key RFC 4253 section 7.2 defines for any longer run. */
  lemma {:induction false} KeyMaterialExtends(hash: Hash, prefix: seq<Byte>, letter: Byte, sessId: seq<Byte>,
                                              rounds: nat, more: nat)
    requires rounds <= more
    ensures KeyMaterial(hash, prefix, letter, sessId, more)[..SHA256_OUTPUT * rounds]
      == KeyMaterial(hash, prefix, letter, sessId, rounds)
    decreases more
  {
    if rounds < more {
      KeyMaterialExtends(hash, prefix, letter, sessId, rounds, more - 1);
      var before := KeyMaterial(hash, prefix, letter, sessId, more - 1);
      if more > 1 {
        assert KeyMaterial(hash, prefix, letter, sessId, more)[..SHA256_OUTPUT * rounds]
          == before[..SHA256_OUTPUT * rounds];
      }
    }
  }

  /** A key of at most 32 bytes is the start of the first digest; a
      longer one is the first digest followed by the start of the second,
      which hashes the first. */
  lemma DerivedKeyRounds(hash: Hash, prefix: seq<Byte>, letter: Byte, sessId: seq<Byte>, len: nat)
    requires len <= 2 * SHA256_OUTPUT
    ensures var w := hash(prefix + [letter] + sessId);
      (len <= SHA256_OUTPUT ==> DerivedKey(hash, prefix, letter, sessId, len) == w[..len])
      && (len > SHA256_OUTPUT ==> DerivedKey(hash, prefix, letter, sessId, len) == w + hash(prefix + w)[..len - SHA256_OUTPUT])
  {
    var w := hash(prefix + [letter] + sessId);
    assert KeyMaterial(hash, prefix, letter, sessId, 1) == w;
    var m := KeyMaterial(hash, prefix, letter, sessId, 2);
    assert m == w + hash(prefix + w);
    if len > SHA256_OUTPUT {
      assert m[..len] == w + hash(prefix + w)[..len - SHA256_OUTPUT];
    }
  }

  /** `compute_key` with `out` as the caller's buffer and `prefix` as the
      hash state after K and H: the first digest fills up to 32 bytes, and
      a second, over the prefix and the first 32 bytes, fills the rest. A
      request longer than the buffer is an internal error that writes
      nothing. The buffer may hold at most two digests, as the source
      asserts in debug builds. */
  method FillKey(letter: Byte, len: nat, out: array<Byte>, hash: Hash, prefix: seq<Byte>, sessId: seq<Byte>)
    returns (r: Result<seq<Byte>>)
    requires out.Length <= 2 * SHA256_OUTPUT
    modifies out
    ensures len > out.Length ==> r == Err(Bug) && out[..] == old(out[..])
    ensures len <= out.Length ==>
      r == Ok(DerivedKey(hash, prefix, letter, sessId, len)) && out[..len] == r.value && out[len..] == old(out[len..])
  {
    if len > out.Length {
      return Err(Bug);
    }
    var l := if len < SHA256_OUTPUT then len else SHA256_OUTPUT;
    var w := hash(prefix + [letter] + sessId);
    CopyInto(out, 0, w[..l]);
    if len - l > 0 {
      var k1 := out[..l];
      var w2 := hash(prefix + k1);
      ghost var mid := out[..];
      CopyInto(out, l, w2[..len - l]);
      assert out[..len] == w + w2[..len - l] by {
        assert out[..l] == mid[..l] == w;
        assert out[l..len] == w2[..len - l];
        assert out[..len] == out[..l] + out[l..len];
      }
      assert out[len..] == mid[len..];
    }
    DerivedKeyRounds(hash, prefix, letter, sessId, len);
    return Ok(out[..len]);
  }

  /** `Keys::compute_key` (the variant that hashes K and H itself). The
      secret enters as its mpint encoding `kMpint`. */
  method ComputeKey(letter: Byte, len: nat, out: array<Byte>, hash: Hash, kMpint: seq<Byte>, h: seq<Byte>,
                    sessId: seq<Byte>)
    returns (r: Result<seq<Byte>>)
    requires out.Length <= 2 * SHA256_OUTPUT
    modifies out
    ensures len > out.Length ==> r == Err(Bug) && out[..] == old(out[..])
    ensures len <= out.Length ==>
      r == Ok(DerivedKey(hash, kMpint + h, letter, sessId, len)) && out[..len] == r.value
      && out[len..] == old(out[len..])
  {
    r := FillKey(letter, len, out, hash, kMpint + h, sessId);
  }

  /** The result of an exchange: H, and the hash state after K (as an
      mpint) and H, from which every key is continued. */
  datatype KexOutput = KexOutput(h: seq<Byte>, partialHash: seq<Byte>) {

    /** `KexOutput::compute_key`: the same schedule, continued from the
        stored hash state. */
    method ComputeKey(letter: Byte, len: nat, out: array<Byte>, hash: Hash, sessId: seq<Byte>)
      returns (r: Result<seq<Byte>>)
      requires out.Length <= 2 * SHA256_OUTPUT
      modifies out
      ensures len > out.Length ==> r == Err(Bug) && out[..] == old(out[..])
      ensures len <= out.Length ==>
        r == Ok(DerivedKey(hash, partialHash, letter, sessId, len)) && out[..len] == r.value
        && out[len..] == old(out[len..])
    {
      r := FillKey(letter, len, out, hash, partialHash, sessId);
    }
  }

  /** `KexOutput::new`: the hash state holds K as an mpint, then H. */
  function KexOutputNew(kMpint: seq<Byte>, h: seq<Byte>): (o: KexOutput)
    ensures |o.partialHash| == |kMpint| + |h|
    ensures o.h == h && o.partialHash[..|kMpint|] == kMpint && o.partialHash[|kMpint|..] == h
  {
    KexOutput(h, kMpint + h)
  }

  // ---- the letter schedule ----

  /** Which letter each of our six keys is hashed with. */
  datatype Letters = Letters(ivEnc: Byte, ivDec: Byte, keyEnc: Byte, keyDec: Byte, integEnc: Byte, integDec: Byte)

  /** A client transmits client to server; a server the other way. */
  function LettersFor(isClient: bool): (l: Letters)
    ensures isClient ==> l.ivEnc == LETTER_A && l.keyEnc == LETTER_C && l.integEnc == LETTER_E
    ensures !isClient ==> l.ivDec == LETTER_A && l.keyDec == LETTER_C && l.integDec == LETTER_E
  {
    if isClient then Letters(LETTER_A, LETTER_B, LETTER_C, LETTER_D, LETTER_E, LETTER_F)
    else Letters(LETTER_B, LETTER_A, LETTER_D, LETTER_C, LETTER_F, LETTER_E)
  }

  /** The roles mirror each other: our transmit letters are the peer's
      receive letters. */
  lemma LettersMirror()
    ensures var c, s := LettersFor(true), LettersFor(false);
      c.ivEnc == s.ivDec && c.ivDec == s.ivEnc && c.keyEnc == s.keyDec && c.keyDec == s.keyEnc
      && c.integEnc == s.integDec && c.integDec == s.integEnc
  {
  }

  /** `Keys::new_from` as the source has it: the receive MAC key is
      derived with the length of the transmit MAC algorithm. */
  function NewFromAsWritten(hash: Hash, prefix: seq<Byte>, sessId: seq<Byte>, algos: Algos): (r: Result<Keys>)
    ensures r.Err? ==> r.error == Bug
    ensures r.Ok? ==> IntegKeyLen(algos.integEnc) == IntegKeyLen(algos.integDec) || algos.integDec == IntegChaPoly
  {
    var l := LettersFor(algos.isClient);
    var enc :- EncKeyFromCipher(algos.cipherEnc, DerivedKey(hash, prefix, l.keyEnc, sessId, CipherKeyLen(algos.cipherEnc)),
                                DerivedKey(hash, prefix, l.ivEnc, sessId, CipherIvLen(algos.cipherEnc)));
    var dec :- DecKeyFromCipher(algos.cipherDec, DerivedKey(hash, prefix, l.keyDec, sessId, CipherKeyLen(algos.cipherDec)),
                                DerivedKey(hash, prefix, l.ivDec, sessId, CipherIvLen(algos.cipherDec)));
    var integEnc :- IntegKeyFromInteg(algos.integEnc, DerivedKey(hash, prefix, l.integEnc, sessId, IntegKeyLen(algos.integEnc)));
    var integDec :- IntegKeyFromInteg(algos.integDec, DerivedKey(hash, prefix, l.integDec, sessId, IntegKeyLen(algos.integEnc)));
    Ok(Keys(enc, dec, integEnc, integDec))
  }

  /** Sending with chacha20-poly1305 while receiving with aes256-ctr and
      hmac-sha2-256 makes the source derive an empty receive MAC key, which
      the HMAC key constructor refuses. */
  lemma NewFromAsWrittenRejectsMixed(hash: Hash, prefix: seq<Byte>, sessId: seq<Byte>, kex: SharedSecret, isClient: bool)
    ensures NewFromAsWritten(hash, prefix, sessId,
                             Algos(kex, SigTypes.Ed25519, ChaPoly, Aes256Ctr, IntegChaPoly, HmacSha256, false, isClient, false))
      == Err(Bug)
  {
  }

  /** `Keys::new_from` with each key sized by its own algorithm. */
  function NewFromSpec(hash: Hash, prefix: seq<Byte>, sessId: seq<Byte>, algos: Algos): (r: Result<Keys>)
  {
    var l := LettersFor(algos.isClient);
    var enc :- EncKeyFromCipher(algos.cipherEnc, DerivedKey(hash, prefix, l.keyEnc, sessId, CipherKeyLen(algos.cipherEnc)),
                                DerivedKey(hash, prefix, l.ivEnc, sessId, CipherIvLen(algos.cipherEnc)));
    var dec :- DecKeyFromCipher(algos.cipherDec, DerivedKey(hash, prefix, l.keyDec, sessId, CipherKeyLen(algos.cipherDec)),
                                DerivedKey(hash, prefix, l.ivDec, sessId, CipherIvLen(algos.cipherDec)));
    var integEnc :- IntegKeyFromInteg(algos.integEnc, DerivedKey(hash, prefix, l.integEnc, sessId, IntegKeyLen(algos.integEnc)));
    var integDec :- IntegKeyFromInteg(algos.integDec, DerivedKey(hash, prefix, l.integDec, sessId, IntegKeyLen(algos.integDec)));
    Ok(Keys(enc, dec, integEnc, integDec))
  }

  /** Keying never fails once each key is sized by its own algorithm, and
      each key is the material for its letter; counter mode starts at
      stream position 0. */
  lemma NewFromSucceeds(hash: Hash, prefix: seq<Byte>, sessId: seq<Byte>, algos: Algos)
    ensures var r := NewFromSpec(hash, prefix, sessId, algos);
      var l := LettersFor(algos.isClient);
      r.Ok?
      && r.value.enc.key == DerivedKey(hash, prefix, l.keyEnc, sessId, CipherKeyLen(algos.cipherEnc))
      && r.value.dec.key == DerivedKey(hash, prefix, l.keyDec, sessId, CipherKeyLen(algos.cipherDec))
      && (r.value.enc.EncAesCtr? <==> algos.cipherEnc == Aes256Ctr)
      && (r.value.dec.DecAesCtr? <==> algos.cipherDec == Aes256Ctr)
      && (r.value.enc.EncAesCtr? ==>
            r.value.enc.pos == 0 && r.value.enc.iv == DerivedKey(hash, prefix, l.ivEnc, sessId, AES_BLOCK_SIZE))
      && (r.value.dec.DecAesCtr? ==>
            r.value.dec.pos == 0 && r.value.dec.iv == DerivedKey(hash, prefix, l.ivDec, sessId, AES_BLOCK_SIZE))
      && (r.value.integEnc.TagChaPoly? <==> algos.integEnc == IntegChaPoly)
      && (r.value.integDec.TagChaPoly? <==> algos.integDec == IntegChaPoly)
  {
  }

  /** The source and the corrected derivation agree whenever the two MAC
      algorithms need keys of the same length. */
  lemma NewFromAsWrittenAgrees(hash: Hash, prefix: seq<Byte>, sessId: seq<Byte>, algos: Algos)
    requires IntegKeyLen(algos.integEnc) == IntegKeyLen(algos.integDec)
    ensures NewFromAsWritten(hash, prefix, sessId, algos) == NewFromSpec(hash, prefix, sessId, algos)
  {
  }

  /** `Keys::new_from` on the engine's fixed-size buffers (64 bytes for
      keys, 32 for IVs), each key derived into the buffer in turn and copied
      into its cipher. As in the source, the receive MAC key is derived with
      the length of the transmit MAC algorithm; where the two lengths agree
      the result is the corrected derivation. */
  method NewFrom(kMpint: seq<Byte>, h: seq<Byte>, sessId: seq<Byte>, algos: Algos, hash: Hash)
    returns (r: Result<Keys>)
    ensures r == NewFromAsWritten(hash, kMpint + h, sessId, algos)
    ensures IntegKeyLen(algos.integEnc) == IntegKeyLen(algos.integDec) ==>
      r == NewFromSpec(hash, kMpint + h, sessId, algos)
  {
    var key := new Byte[MAX_KEY_LEN];
    var iv := new Byte[MAX_IV_LEN];
    var l := LettersFor(algos.isClient);

    var i :- ComputeKey(l.ivEnc, CipherIvLen(algos.cipherEnc), iv, hash, kMpint, h, sessId);
    var k :- ComputeKey(l.keyEnc, CipherKeyLen(algos.cipherEnc), key, hash, kMpint, h, sessId);
    var enc :- EncKeyFromCipher(algos.cipherEnc, k, i);

    i :- ComputeKey(l.ivDec, CipherIvLen(algos.cipherDec), iv, hash, kMpint, h, sessId);
    k :- ComputeKey(l.keyDec, CipherKeyLen(algos.cipherDec), key, hash, kMpint, h, sessId);
    var dec :- DecKeyFromCipher(algos.cipherDec, k, i);

    k :- ComputeKey(l.integEnc, IntegKeyLen(algos.integEnc), key, hash, kMpint, h, sessId);
    var integEnc :- IntegKeyFromInteg(algos.integEnc, k);

    k :- ComputeKey(l.integDec, IntegKeyLen(algos.integEnc), key, hash, kMpint, h, sessId);
    var integDec :- IntegKeyFromInteg(algos.integDec, k);

    if IntegKeyLen(algos.integEnc) == IntegKeyLen(algos.integDec) {
      NewFromAsWrittenAgrees(hash, kMpint + h, sessId, algos);
    }
    return Ok(Keys(enc, dec, integEnc, integDec));
  }

  // ---- both ends ----

  /** A transmit key and a receive key that undo each other: the same
      cipher, key, IV and stream position. */
  predicate Paired(e: EncKey, d: DecKey)
  {
    match (e, d)
    case (EncChaPoly(k), DecChaPoly(k')) => k == k'
    case (EncAesCtr(k, iv, pos), DecAesCtr(k', iv', pos')) => k == k' && iv == iv' && pos == pos'
    case (EncNone, DecNone) => true
    case _ => false
  }

  /** When both ends negotiated mirrored algorithms and share K, H and the
      session id, what the client transmits with the server receives with,
      and the reverse, MAC keys included. */
  lemma KeysAgree(hash: Hash, prefix: seq<Byte>, sessId: seq<Byte>, client: Algos, server: Algos)
    requires client.isClient && !server.isClient
    requires client.cipherEnc == server.cipherDec && client.cipherDec == server.cipherEnc
    requires client.integEnc == server.integDec && client.integDec == server.integEnc
    ensures NewFromSpec(hash, prefix, sessId, client).Ok? && NewFromSpec(hash, prefix, sessId, server).Ok?
    ensures var c, s := NewFromSpec(hash, prefix, sessId, client).value, NewFromSpec(hash, prefix, sessId, server).value;
      Paired(c.enc, s.dec) && Paired(s.enc, c.dec) && c.integEnc == s.integDec && s.integEnc == c.integDec
  {
    NewFromSucceeds(hash, prefix, sessId, client);
    NewFromSucceeds(hash, prefix, sessId, server);
  }
}
