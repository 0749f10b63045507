/** The binary packet protocol of RFC 4253 section 6: padding, the length
    field, the MAC slot and the cipher applied in place to a caller's buffer,
    and the per-direction sequence numbers that survive rekeying. The cipher,
    MAC and hash primitives are function values; only their output lengths
    are known. */
module Encrypt {
  import opened Common
  import opened SshNames

  // RFC 4253 section 6: sizes including the uint32 length, excluding the MAC
  const SSH_MIN_PACKET_SIZE: nat := 16
  const SSH_MIN_PADLEN: nat := 4
  const SSH_MIN_BLOCK: nat := 8
  const SSH_LENGTH_SIZE: nat := 4
  const SSH_PAYLOAD_START: nat := SSH_LENGTH_SIZE + 1

  /** Largest IV (aes256-ctr) and largest key (chacha20-poly1305, also MAC keys). */
  const MAX_IV_LEN: nat := 32
  const MAX_KEY_LEN: nat := 64

  const AES_BLOCK_SIZE: nat := 16
  const AES256_KEY_SIZE: nat := 32
  const CHAPOLY_KEY_LEN: nat := 64
  const CHAPOLY_TAG_LEN: nat := 16
  const SHA256_OUTPUT: nat := 32

  // ---- primitives ----

  /** The AES-256 counter-mode keystream: the byte at a stream position
      under a key and IV. */
  type Keystream = (seq<Byte>, seq<Byte>, nat) -> Byte

  /** How a keystream byte is combined with a data byte (XOR in the cipher
      library): combining twice with the same keystream byte undoes it. */
  type ByteMask = f: (Byte, Byte) -> Byte | forall d, k :: f(f(d, k), k) == d
    witness (d: Byte, k: Byte) => d

  /** chacha20-poly1305@openssh.com sealing: ciphertext and 16-byte tag. */
  type AeadSeal = f: (seq<Byte>, U32, seq<Byte>) -> (seq<Byte>, seq<Byte>)
    | forall key, n, data :: |f(key, n, data).0| == |data| && |f(key, n, data).1| == CHAPOLY_TAG_LEN
    witness (key: seq<Byte>, n: U32, data: seq<Byte>) => (data, seq(CHAPOLY_TAG_LEN, i => 0))

  /** chacha20-poly1305@openssh.com opening: the plaintext, or nothing when
      the tag does not match. */
  type AeadOpen = f: (seq<Byte>, U32, seq<Byte>, seq<Byte>) -> Option<seq<Byte>>
    | forall key, n, data, tag :: f(key, n, data, tag).Some? ==> |f(key, n, data, tag).value| == |data|
    witness (key: seq<Byte>, n: U32, data: seq<Byte>, tag: seq<Byte>) => None

  /** chacha20-poly1305@openssh.com: the packet length decrypted from the
      first four bytes. */
  type AeadLength = (seq<Byte>, U32, seq<Byte>) -> U32

  /** HMAC-SHA-256 of the data under the key. */
  type Mac = f: (seq<Byte>, seq<Byte>) -> seq<Byte> | forall key, data :: |f(key, data)| == SHA256_OUTPUT
    witness (key: seq<Byte>, data: seq<Byte>) => seq(SHA256_OUTPUT, i => 0)

  datatype Primitives = Primitives(keystream: Keystream, mask: ByteMask, seal: AeadSeal, open: AeadOpen,
                                   aeadLength: AeadLength, hmac: Mac)

  /** AES-256-CTR `apply_keystream`: the keystream from stream position
      `pos` on, combined with the data byte by byte. */
  function Ctr(prim: Primitives, key: seq<Byte>, iv: seq<Byte>, pos: nat, data: seq<Byte>): (r: seq<Byte>)
    ensures |r| == |data|
  {
    seq(|data|, i requires 0 <= i < |data| => prim.mask(data[i], prim.keystream(key, iv, pos + i)))
  }

  /** The keystream continues across pieces: applying it to two consecutive
      pieces is applying it to their concatenation. */
  lemma CtrSplit(prim: Primitives, key: seq<Byte>, iv: seq<Byte>, pos: nat, x: seq<Byte>, y: seq<Byte>)
    ensures Ctr(prim, key, iv, pos, x + y) == Ctr(prim, key, iv, pos, x) + Ctr(prim, key, iv, pos + |x|, y)
  {
    var l := Ctr(prim, key, iv, pos, x + y);
    var r := Ctr(prim, key, iv, pos, x) + Ctr(prim, key, iv, pos + |x|, y);
    forall i | 0 <= i < |l|
      ensures l[i] == r[i]
    {
      if i >= |x| {
        assert (x + y)[i] == y[i - |x|];
      }
    }
  }

  /** Counter mode decrypts what it encrypted from the same position. */
  lemma CtrTwice(prim: Primitives, key: seq<Byte>, iv: seq<Byte>, pos: nat, x: seq<Byte>)
    ensures Ctr(prim, key, iv, pos, Ctr(prim, key, iv, pos, x)) == x
  {
    var r := Ctr(prim, key, iv, pos, Ctr(prim, key, iv, pos, x));
    forall i | 0 <= i < |x|
      ensures r[i] == x[i]
    {
      var k := prim.keystream(key, iv, pos + i);
      assert r[i] == prim.mask(prim.mask(x[i], k), k);
    }
  }

  // ---- algorithms before keying ----

  datatype Cipher = ChaPoly | Aes256Ctr

  /** `Cipher::from_name`: only a known name may be passed. */
  function CipherFromName(name: string): (r: Result<Cipher>)
    ensures r.Ok? <==> name == SSH_NAME_CHAPOLY || name == SSH_NAME_AES256_CTR
    ensures r.Err? ==> r.error == Bug
    ensures r.Ok? ==> (r.value == ChaPoly <==> name == SSH_NAME_CHAPOLY)
  {
    if name == SSH_NAME_CHAPOLY then Ok(ChaPoly)
    else if name == SSH_NAME_AES256_CTR then Ok(Aes256Ctr)
    else Err(Bug)
  }

  /** The `Display` name of a cipher. */
  function CipherName(c: Cipher): (name: string)
    ensures CipherFromName(name) == Ok(c)
  {
    match c
    case ChaPoly => SSH_NAME_CHAPOLY
    case Aes256Ctr => SSH_NAME_AES256_CTR
  }

  function CipherKeyLen(c: Cipher): nat
  {
    match c
    case ChaPoly => CHAPOLY_KEY_LEN
    case Aes256Ctr => AES256_KEY_SIZE
  }

  function CipherIvLen(c: Cipher): nat
  {
    match c
    case ChaPoly => 0
    case Aes256Ctr => AES_BLOCK_SIZE
  }

  datatype Integ = IntegChaPoly | HmacSha256

  /** `Cipher::integ`: the integrity an AEAD cipher brings with it. */
  function CipherInteg(c: Cipher): (r: Option<Integ>)
    ensures r.Some? <==> c == ChaPoly
    ensures r.Some? ==> r.value == IntegChaPoly
  {
    match c
    case ChaPoly => Some(IntegChaPoly)
    case Aes256Ctr => None
  }

  /** `Integ::from_name`: MAC names only; AEAD integrity comes from the cipher. */
  function IntegFromName(name: string): (r: Result<Integ>)
    ensures r.Ok? <==> name == SSH_NAME_HMAC_SHA256
    ensures r.Ok? ==> r.value == HmacSha256
    ensures r.Err? ==> r.error == Bug
  {
    if name == SSH_NAME_HMAC_SHA256 then Ok(HmacSha256) else Err(Bug)
  }

  function IntegName(i: Integ): (name: string)
    ensures i == HmacSha256 ==> IntegFromName(name) == Ok(i)
    ensures i == IntegChaPoly ==> name == SSH_NAME_CHAPOLY && IntegFromName(name).Err?
  {
    match i
    case IntegChaPoly => SSH_NAME_CHAPOLY
    case HmacSha256 => SSH_NAME_HMAC_SHA256
  }

  function IntegKeyLen(i: Integ): nat
  {
    match i
    case IntegChaPoly => 0
    case HmacSha256 => SHA256_OUTPUT
  }

  // ---- keyed state ----

  /** An AES-CTR key carries its stream position: the keystream continues
      from one packet to the next. */
  datatype EncKey = EncChaPoly(key: seq<Byte>) | EncAesCtr(key: seq<Byte>, iv: seq<Byte>, pos: nat) | EncNone

  datatype DecKey = DecChaPoly(key: seq<Byte>) | DecAesCtr(key: seq<Byte>, iv: seq<Byte>, pos: nat) | DecNone

  datatype IntegKey = TagChaPoly | KeyHmacSha256(key: seq<Byte>) | NoInteg

  /** `EncKey::from_cipher`; the cipher objects refuse a key or IV of the
      wrong length, which is an internal error. */
  function EncKeyFromCipher(c: Cipher, key: seq<Byte>, iv: seq<Byte>): (r: Result<EncKey>)
    ensures r.Ok? <==> |key| == CipherKeyLen(c) && (c == Aes256Ctr ==> |iv| == CipherIvLen(c))
    ensures r.Err? ==> r.error == Bug
    ensures r.Ok? ==> (r.value.EncChaPoly? <==> c == ChaPoly) && !r.value.EncNone? && r.value.key == key
    ensures r.Ok? && c == Aes256Ctr ==> r.value.iv == iv && r.value.pos == 0
  {
    match c
    case ChaPoly => if |key| != CHAPOLY_KEY_LEN then Err(Bug) else Ok(EncChaPoly(key))
    case Aes256Ctr =>
      if |key| != AES256_KEY_SIZE || |iv| != AES_BLOCK_SIZE then Err(Bug) else Ok(EncAesCtr(key, iv, 0))
  }

  function DecKeyFromCipher(c: Cipher, key: seq<Byte>, iv: seq<Byte>): (r: Result<DecKey>)
    ensures r.Ok? <==> |key| == CipherKeyLen(c) && (c == Aes256Ctr ==> |iv| == CipherIvLen(c))
    ensures r.Err? ==> r.error == Bug
    ensures r.Ok? ==> (r.value.DecChaPoly? <==> c == ChaPoly) && !r.value.DecNone? && r.value.key == key
    ensures r.Ok? && c == Aes256Ctr ==> r.value.iv == iv && r.value.pos == 0
  {
    match c
    case ChaPoly => if |key| != CHAPOLY_KEY_LEN then Err(Bug) else Ok(DecChaPoly(key))
    case Aes256Ctr =>
      if |key| != AES256_KEY_SIZE || |iv| != AES_BLOCK_SIZE then Err(Bug) else Ok(DecAesCtr(key, iv, 0))
  }

  /** `IntegKey::from_integ`: an HMAC key is exactly 32 bytes. */
  function IntegKeyFromInteg(i: Integ, key: seq<Byte>): (r: Result<IntegKey>)
    ensures r.Ok? <==> (i == HmacSha256 ==> |key| == SHA256_OUTPUT)
    ensures r.Err? ==> r.error == Bug
    ensures r.Ok? ==> (r.value.TagChaPoly? <==> i == IntegChaPoly) && !r.value.NoInteg?
    ensures r.Ok? && i == HmacSha256 ==> r.value.key == key
  {
    match i
    case IntegChaPoly => Ok(TagChaPoly)
    case HmacSha256 => if |key| != SHA256_OUTPUT then Err(Bug) else Ok(KeyHmacSha256(key))
  }

  function EncIsAead(k: EncKey): bool { k.EncChaPoly? }

  function DecIsAead(k: DecKey): bool { k.DecChaPoly? }

  function EncSizeBlock(k: EncKey): (n: nat)
    ensures n == SSH_MIN_BLOCK || n == AES_BLOCK_SIZE
    ensures n == AES_BLOCK_SIZE <==> k.EncAesCtr?
  {
    match k
    case EncChaPoly(_) => SSH_MIN_BLOCK
    case EncAesCtr(_, _, _) => AES_BLOCK_SIZE
    case EncNone => SSH_MIN_BLOCK
  }

  function DecSizeBlock(k: DecKey): (n: nat)
    ensures n == SSH_MIN_BLOCK || n == AES_BLOCK_SIZE
    ensures n == AES_BLOCK_SIZE <==> k.DecAesCtr?
  {
    match k
    case DecChaPoly(_) => SSH_MIN_BLOCK
    case DecAesCtr(_, _, _) => AES_BLOCK_SIZE
    case DecNone => SSH_MIN_BLOCK
  }

  /** `IntegKey::size_out`: the size of the MAC slot after the packet. */
  function SizeOut(k: IntegKey): (n: nat)
    ensures n == 0 <==> k.NoInteg?
    ensures k.TagChaPoly? ==> n == CHAPOLY_TAG_LEN
    ensures k.KeyHmacSha256? ==> n == SHA256_OUTPUT
  {
    match k
    case TagChaPoly => CHAPOLY_TAG_LEN
    case KeyHmacSha256(_) => SHA256_OUTPUT
    case NoInteg => 0
  }

  datatype Keys = Keys(enc: EncKey, dec: DecKey, integEnc: IntegKey, integDec: IntegKey)

  /** `Keys::new_cleartext`: no cipher and no MAC in either direction. */
  function CleartextKeys(): (k: Keys)
    ensures EncSizeBlock(k.enc) == SSH_MIN_BLOCK && DecSizeBlock(k.dec) == SSH_MIN_BLOCK
    ensures !EncIsAead(k.enc) && !DecIsAead(k.dec)
    ensures SizeOut(k.integEnc) == 0 && SizeOut(k.integDec) == 0
  {
    Keys(EncNone, DecNone, NoInteg, NoInteg)
  }

  // ---- padding ----

  /** `Keys::calc_encrypt_pad`: the RFC 4253 section 6 padding rules. AEAD
      ciphers leave the length field out of the encrypted blocks. */
  function CalcEncryptPad(enc: EncKey, payloadLen: nat): (padlen: nat)
    ensures padlen >= SSH_MIN_PADLEN
    ensures (1 + payloadLen + padlen + (if EncIsAead(enc) then 0 else SSH_LENGTH_SIZE)) % EncSizeBlock(enc) == 0
    ensures SSH_LENGTH_SIZE + 1 + payloadLen + padlen >= SSH_MIN_PACKET_SIZE
    ensures padlen <= 2 * EncSizeBlock(enc) + 3 && padlen < 0x100
  {
    var sb := EncSizeBlock(enc);
    var len := 1 + payloadLen + if EncIsAead(enc) then 0 else SSH_LENGTH_SIZE;
    var p0 := sb - len % sb;
    var p1 := if p0 < SSH_MIN_PADLEN then p0 + sb else p0;
    var p2 := if SSH_LENGTH_SIZE + 1 + payloadLen + p1 < SSH_MIN_PACKET_SIZE then p1 + sb else p1;
    PadRounds(len, sb, p0, p1, p2);
    p2
  }

  lemma PadRounds(len: nat, sb: nat, p0: nat, p1: nat, p2: nat)
    requires sb == 8 || sb == 16
    requires p0 == sb - len % sb
    requires p1 == p0 || p1 == p0 + sb
    requires p2 == p1 || p2 == p1 + sb
    ensures (len + p2) % sb == 0
  {
    if sb == 8 {
      assert (len + p0) % 8 == 0;
    } else {
      assert (len + p0) % 16 == 0;
    }
  }

  /** Everything of a packet except the MAC: length field, padding-length
      byte, payload and padding. */
  function PacketLen(enc: EncKey, payloadLen: nat): nat
  {
    SSH_LENGTH_SIZE + 1 + payloadLen + CalcEncryptPad(enc, payloadLen)
  }

  // ---- buffers ----

  /** `buf[start..start + |data|].copy_from_slice(data)`. */
  function Overwrite(b: seq<Byte>, start: nat, data: seq<Byte>): (r: seq<Byte>)
    requires start + |data| <= |b|
    ensures |r| == |b|
    ensures r[start..start + |data|] == data
    ensures r[..start] == b[..start] && r[start + |data|..] == b[start + |data|..]
  {
    b[..start] + data + b[start + |data|..]
  }

  method CopyInto(buf: array<Byte>, start: nat, data: seq<Byte>)
    requires start + |data| <= buf.Length
    modifies buf
    ensures buf[..] == Overwrite(old(buf[..]), start, data)
  {
    var i := 0;
    while i < |data|
      invariant 0 <= i <= |data|
      invariant forall j :: 0 <= j < buf.Length ==>
        buf[j] == if start <= j < start + i then data[j - start] else old(buf[j])
    {
      buf[start + i] := data[i];
      i := i + 1;
    }
    assert buf[..] == Overwrite(old(buf[..]), start, data);
  }

  /** The outcome of an operation on a buffer: its result, the buffer
      afterwards and the keys afterwards (a counter-mode key moves on). */
  datatype Written = Written(result: Result<nat>, buf: seq<Byte>, keys: Keys)

  // ---- encryption ----

  /** The length field and the padding-length byte. The length is written as
      a `u32`; a packet of 4 GiB or more would have it truncated. */
  function Header(len: nat, padlen: Byte): (h: seq<Byte>)
    requires len >= SSH_LENGTH_SIZE
    ensures |h| == SSH_PAYLOAD_START
  {
    BE32((len - SSH_LENGTH_SIZE) % U32_MODULUS) + [padlen]
  }

  /** The buffer once the header and the padding are written. */
  function EncryptFramed(payloadLen: nat, b: seq<Byte>, pad: seq<Byte>): (r: seq<Byte>)
    requires |pad| < 0x100
    requires SSH_PAYLOAD_START + payloadLen + |pad| <= |b|
    ensures |r| == |b|
  {
    var len := SSH_PAYLOAD_START + payloadLen + |pad|;
    Overwrite(Overwrite(b, 0, Header(len, |pad|)), SSH_PAYLOAD_START + payloadLen, pad)
  }

  /** The MAC of a framed packet, written after it (encrypt-and-MAC: the MAC
      covers the sequence number and the plaintext). */
  function EncryptMac(integ: IntegKey, len: nat, b: seq<Byte>, seqNo: U32, prim: Primitives): (r: seq<Byte>)
    requires len + SizeOut(integ) <= |b|
    ensures |r| == |b|
  {
    match integ
    case KeyHmacSha256(k) => Overwrite(b, len, prim.hmac(k, BE32(seqNo) + b[..len]))
    case _ => b
  }

  /** The cipher applied to the first `len` bytes of a framed packet; an
      AEAD cipher writes its tag into the MAC slot. */
  function EncryptCipher(keys: Keys, len: nat, b: seq<Byte>, seqNo: U32, prim: Primitives): (w: Written)
    requires len + SizeOut(keys.integEnc) <= |b|
    ensures |w.buf| == |b|
    ensures w.result.Ok? ==> w.result.value == len + SizeOut(keys.integEnc)
    ensures w.result.Err? ==> w.result.error == Bug
    ensures w.keys.dec == keys.dec && w.keys.integEnc == keys.integEnc && w.keys.integDec == keys.integDec
  {
    var si := SizeOut(keys.integEnc);
    match keys.enc
    case EncChaPoly(k) =>
      if si != CHAPOLY_TAG_LEN then Written(Err(Bug), b, keys)
      else
        var sealed := prim.seal(k, seqNo, b[..len]);
        Written(Ok(len + si), Overwrite(Overwrite(b, 0, sealed.0), len, sealed.1), keys)
    case EncAesCtr(k, iv, pos) =>
      Written(Ok(len + si), Overwrite(b, 0, Ctr(prim, k, iv, pos, b[..len])),
              keys.(enc := EncAesCtr(k, iv, pos + len)))
    case EncNone => Written(Ok(len + si), b, keys)
  }

  /** `Keys::encrypt` on the buffer contents `b`, with `pad` as the random
      padding. */
  function EncryptSpec(keys: Keys, payloadLen: nat, b: seq<Byte>, seqNo: U32, pad: seq<Byte>,
                       prim: Primitives): (w: Written)
    requires |pad| == CalcEncryptPad(keys.enc, payloadLen)
    ensures |w.buf| == |b|
    ensures PacketLen(keys.enc, payloadLen) + SizeOut(keys.integEnc) > |b| ==>
      w == Written(Err(NoRoom), b, keys)
    ensures w.result.Ok? ==> w.result.value == PacketLen(keys.enc, payloadLen) + SizeOut(keys.integEnc) <= |b|
    ensures w.result.Err? ==> w.result.error == NoRoom || w.result.error == Bug
    ensures w.keys.dec == keys.dec && w.keys.integEnc == keys.integEnc && w.keys.integDec == keys.integDec
  {
    var len := SSH_PAYLOAD_START + payloadLen + |pad|;
    if len + SizeOut(keys.integEnc) > |b| then Written(Err(NoRoom), b, keys)
    else
      var framed := EncryptFramed(payloadLen, b, pad);
      EncryptCipher(keys, len, EncryptMac(keys.integEnc, len, framed, seqNo, prim), seqNo, prim)
  }

  /** Random padding bytes (`random::fill_random`). */
  method FillRandom(n: nat) returns (pad: seq<Byte>)
    ensures |pad| == n
  {
    assert |seq(n, i => 0 as Byte)| == n;
    pad :| |pad| == n;
  }

  /** Writes the header and fresh random padding around the payload. */
  method FrameInPlace(payloadLen: nat, padlen: nat, buf: array<Byte>) returns (pad: seq<Byte>)
    requires padlen < 0x100 && SSH_PAYLOAD_START + payloadLen + padlen <= buf.Length
    modifies buf
    ensures |pad| == padlen && buf[..] == EncryptFramed(payloadLen, old(buf[..]), pad)
  {
    CopyInto(buf, 0, Header(SSH_PAYLOAD_START + payloadLen + padlen, padlen));
    pad := FillRandom(padlen);
    CopyInto(buf, SSH_PAYLOAD_START + payloadLen, pad);
  }

  method MacInPlace(integ: IntegKey, len: nat, buf: array<Byte>, seqNo: U32, prim: Primitives)
    requires len + SizeOut(integ) <= buf.Length
    modifies buf
    ensures buf[..] == EncryptMac(integ, len, old(buf[..]), seqNo, prim)
  {
    match integ {
      case KeyHmacSha256(k) =>
        var mac := prim.hmac(k, BE32(seqNo) + buf[..len]);
        CopyInto(buf, len, mac);
      case _ =>
    }
  }

  method CipherInPlace(keys: Keys, len: nat, buf: array<Byte>, seqNo: U32, prim: Primitives)
    returns (r: Result<nat>, keys': Keys)
    requires len + SizeOut(keys.integEnc) <= buf.Length
    modifies buf
    ensures EncryptCipher(keys, len, old(buf[..]), seqNo, prim) == Written(r, buf[..], keys')
  {
    var si := SizeOut(keys.integEnc);
    keys' := keys;
    match keys.enc {
      case EncChaPoly(k) =>
        if si != CHAPOLY_TAG_LEN {
          return Err(Bug), keys;
        }
        var sealed := prim.seal(k, seqNo, buf[..len]);
        CopyInto(buf, 0, sealed.0);
        CopyInto(buf, len, sealed.1);
      case EncAesCtr(k, iv, pos) =>
        var ct := Ctr(prim, k, iv, pos, buf[..len]);
        CopyInto(buf, 0, ct);
        keys' := keys.(enc := EncAesCtr(k, iv, pos + len));
      case EncNone =>
    }
    r := Ok(len + si);
  }

  /** `Keys::encrypt`: writes the packet around the payload already at
      `buf[5..5 + payloadLen]` and returns the number of bytes to send. */
  method EncryptInPlace(keys: Keys, payloadLen: nat, buf: array<Byte>, seqNo: U32, prim: Primitives)
    returns (r: Result<nat>, keys': Keys, ghost pad: seq<Byte>)
    modifies buf
    ensures |pad| == CalcEncryptPad(keys.enc, payloadLen)
    ensures EncryptSpec(keys, payloadLen, old(buf[..]), seqNo, pad, prim) == Written(r, buf[..], keys')
  {
    var padlen := CalcEncryptPad(keys.enc, payloadLen);
    var len := SSH_PAYLOAD_START + payloadLen + padlen;
    if len + SizeOut(keys.integEnc) > buf.Length {
      pad := seq(padlen, i => 0);
      return Err(NoRoom), keys, pad;
    }
    pad := FrameInPlace(payloadLen, padlen, buf);
    MacInPlace(keys.integEnc, len, buf, seqNo, prim);
    r, keys' := CipherInPlace(keys, len, buf, seqNo, prim);
  }

  // ---- decryption ----

  /** The first block through the cipher: the packet length it holds, the
      buffer afterwards (counter mode decrypts the block in place) and the
      keys afterwards. */
  function FirstBlockCipher(keys: Keys, b: seq<Byte>, seqNo: U32, prim: Primitives): (r: (U32, seq<Byte>, Keys))
    requires |b| >= DecSizeBlock(keys.dec)
    ensures |r.1| == |b|
    ensures r.2.enc == keys.enc && r.2.integEnc == keys.integEnc && r.2.integDec == keys.integDec
    ensures keys.dec.DecNone? ==> r == (ReadBE32(b), b, keys)
    ensures keys.dec.DecAesCtr? ==> r.1[AES_BLOCK_SIZE..] == b[AES_BLOCK_SIZE..]
  {
    match keys.dec
    case DecChaPoly(k) => (prim.aeadLength(k, seqNo, b[..SSH_LENGTH_SIZE]), b, keys)
    case DecAesCtr(k, iv, pos) =>
      var b1 := Overwrite(b, 0, Ctr(prim, k, iv, pos, b[..AES_BLOCK_SIZE]));
      (ReadBE32(b1), b1, keys.(dec := DecAesCtr(k, iv, pos + AES_BLOCK_SIZE)))
    case DecNone => (ReadBE32(b), b, keys)
  }

  /** `Keys::decrypt_first_block`: the total length of the packet on the
      wire (length field, packet and MAC), from its first bytes. */
  function DecryptFirstBlockSpec(keys: Keys, b: seq<Byte>, seqNo: U32, prim: Primitives): (w: Written)
    ensures |w.buf| == |b|
    ensures |b| < DecSizeBlock(keys.dec) ==> w == Written(Err(Bug), b, keys)
    ensures keys.dec.DecNone? && |b| >= SSH_MIN_BLOCK ==>
      w.buf == b && (ReadBE32(b) + SSH_LENGTH_SIZE + SizeOut(keys.integDec) < U32_MODULUS <==> w.result.Ok?)
    ensures keys.dec.DecNone? && w.result.Ok? ==>
      w.result.value == ReadBE32(b) + SSH_LENGTH_SIZE + SizeOut(keys.integDec)
    ensures w.result.Err? ==> w.result.error == Bug || w.result.error == BadDecrypt
    ensures w.keys.enc == keys.enc && w.keys.integEnc == keys.integEnc && w.keys.integDec == keys.integDec
  {
    if |b| < DecSizeBlock(keys.dec) then Written(Err(Bug), b, keys)
    else
      var step := FirstBlockCipher(keys, b, seqNo, prim);
      var total := step.0 + SSH_LENGTH_SIZE + SizeOut(keys.integDec);
      if total >= U32_MODULUS then Written(Err(BadDecrypt), step.1, step.2)
      else Written(Ok(total), step.1, step.2)
  }

  method FirstBlockCipherInPlace(keys: Keys, buf: array<Byte>, seqNo: U32, prim: Primitives)
    returns (len: U32, keys': Keys)
    requires buf.Length >= DecSizeBlock(keys.dec)
    modifies buf
    ensures FirstBlockCipher(keys, old(buf[..]), seqNo, prim) == (len, buf[..], keys')
  {
    keys' := keys;
    match keys.dec {
      case DecChaPoly(k) =>
        len := prim.aeadLength(k, seqNo, buf[..SSH_LENGTH_SIZE]);
      case DecAesCtr(k, iv, pos) =>
        var pt := Ctr(prim, k, iv, pos, buf[..AES_BLOCK_SIZE]);
        CopyInto(buf, 0, pt);
        len := ReadBE32(buf[..]);
        keys' := keys.(dec := DecAesCtr(k, iv, pos + AES_BLOCK_SIZE));
      case DecNone =>
        len := ReadBE32(buf[..]);
    }
  }

  method DecryptFirstBlockInPlace(keys: Keys, buf: array<Byte>, seqNo: U32, prim: Primitives)
    returns (r: Result<nat>, keys': Keys)
    modifies buf
    ensures DecryptFirstBlockSpec(keys, old(buf[..]), seqNo, prim) == Written(r, buf[..], keys')
  {
    if buf.Length < DecSizeBlock(keys.dec) {
      return Err(Bug), keys;
    }
    var len;
    len, keys' := FirstBlockCipherInPlace(keys, buf, seqNo, prim);
    var total := len + SSH_LENGTH_SIZE + SizeOut(keys.integDec);
    if total >= U32_MODULUS {
      return Err(BadDecrypt), keys';
    }
    r := Ok(total);
  }

  /** The cipher applied to the packet (everything before the MAC slot) once
      the first block is known: an AEAD cipher checks its tag and leaves the
      buffer as it was when the tag is wrong; counter mode continues after
      the first block, which `decrypt_first_block` already decrypted. */
  function DecryptCipher(keys: Keys, b: seq<Byte>, dataLen: nat, seqNo: U32, prim: Primitives)
    : (r: Option<(seq<Byte>, Keys)>)
    requires AES_BLOCK_SIZE <= dataLen <= |b|
    ensures r.Some? ==> |r.value.0| == |b| && r.value.0[dataLen..] == b[dataLen..]
    ensures r.Some? ==>
      r.value.1.enc == keys.enc && r.value.1.integEnc == keys.integEnc && r.value.1.integDec == keys.integDec
    ensures r.None? <==> keys.dec.DecChaPoly? && prim.open(keys.dec.key, seqNo, b[..dataLen], b[dataLen..]).None?
    ensures keys.dec.DecNone? ==> r == Some((b, keys))
  {
    match keys.dec
    case DecChaPoly(k) =>
      (match prim.open(k, seqNo, b[..dataLen], b[dataLen..])
       case None => None
       case Some(pt) => Some((Overwrite(b, 0, pt), keys)))
    case DecAesCtr(k, iv, pos) =>
      if dataLen > AES_BLOCK_SIZE then
        var pt := Ctr(prim, k, iv, pos, b[AES_BLOCK_SIZE..dataLen]);
        Some((Overwrite(b, AES_BLOCK_SIZE, pt), keys.(dec := DecAesCtr(k, iv, pos + (dataLen - AES_BLOCK_SIZE)))))
      else Some((b, keys))
    case DecNone => Some((b, keys))
  }

  /** The checks after the cipher: the MAC, then the padding length. */
  function CheckMacAndPadding(keys: Keys, b: seq<Byte>, dataLen: nat, seqNo: U32, prim: Primitives): (w: Written)
    requires SSH_MIN_PACKET_SIZE <= dataLen <= |b|
    requires |b| - dataLen == SizeOut(keys.integDec)
    ensures w.buf == b && w.keys == keys
    ensures w.result.Ok? ==>
      b[SSH_LENGTH_SIZE] >= SSH_MIN_PADLEN &&
      w.result.value + SSH_PAYLOAD_START + SizeOut(keys.integDec) + b[SSH_LENGTH_SIZE] == |b|
    ensures w.result.Err? ==> w.result.error == BadDecrypt || w.result.error == SSHProtoError
    ensures keys.integDec.KeyHmacSha256? && prim.hmac(keys.integDec.key, BE32(seqNo) + b[..dataLen]) != b[dataLen..]
      ==> w.result == Err(BadDecrypt)
  {
    var macOk := match keys.integDec
      case KeyHmacSha256(k) => prim.hmac(k, BE32(seqNo) + b[..dataLen]) == b[dataLen..]
      case _ => true;
    if !macOk then Written(Err(BadDecrypt), b, keys)
    else
      var padlen := b[SSH_LENGTH_SIZE];
      if padlen < SSH_MIN_PADLEN then Written(Err(SSHProtoError), b, keys)
      else if |b| < SSH_PAYLOAD_START + SizeOut(keys.integDec) + padlen then Written(Err(SSHProtoError), b, keys)
      else Written(Ok(|b| - (SSH_PAYLOAD_START + SizeOut(keys.integDec) + padlen)), b, keys)
  }

  /** The sizes `decrypt` requires of a whole packet of `n` bytes: at least
      one block and the minimum packet before the MAC, and a whole number of
      blocks (an AEAD cipher leaves the length field out of them). */
  predicate DecryptLengthOk(keys: Keys, n: nat)
  {
    var sb := DecSizeBlock(keys.dec);
    var si := SizeOut(keys.integDec);
    var sublength := if DecIsAead(keys.dec) then SSH_LENGTH_SIZE else 0;
    n >= sb + si && n >= SSH_MIN_PACKET_SIZE + si && (n - si - sublength) % sb == 0
  }

  /** `Keys::decrypt`: checks the sizes RFC 4253 section 6 requires, applies
      the cipher to what `decrypt_first_block` left, checks the MAC and the
      padding, and returns the payload length. */
  function DecryptSpec(keys: Keys, b: seq<Byte>, seqNo: U32, prim: Primitives): (w: Written)
    ensures |w.buf| == |b|
    ensures !DecryptLengthOk(keys, |b|) ==> w == Written(Err(SSHProtoError), b, keys)
    ensures w.result.Ok? ==>
      DecryptLengthOk(keys, |b|) &&
      w.buf[SSH_LENGTH_SIZE] >= SSH_MIN_PADLEN &&
      w.result.value == |b| - SSH_PAYLOAD_START - SizeOut(keys.integDec) - w.buf[SSH_LENGTH_SIZE]
    ensures w.result.Err? ==> w.result.error in {SSHProtoError, BadDecrypt}
    ensures w.keys.enc == keys.enc && w.keys.integEnc == keys.integEnc && w.keys.integDec == keys.integDec
  {
    if !DecryptLengthOk(keys, |b|) then Written(Err(SSHProtoError), b, keys)
    else
      var dataLen := |b| - SizeOut(keys.integDec);
      match DecryptCipher(keys, b, dataLen, seqNo, prim)
      case None => Written(Err(BadDecrypt), b, keys)
      case Some((b1, keys1)) => CheckMacAndPadding(keys1, b1, dataLen, seqNo, prim)
  }

  method DecryptCipherInPlace(keys: Keys, buf: array<Byte>, dataLen: nat, seqNo: U32, prim: Primitives)
    returns (ok: bool, keys': Keys)
    requires AES_BLOCK_SIZE <= dataLen <= buf.Length
    modifies buf
    ensures DecryptCipher(keys, old(buf[..]), dataLen, seqNo, prim) == if ok then Some((buf[..], keys')) else None
    ensures !ok ==> buf[..] == old(buf[..])
  {
    keys' := keys;
    ok := true;
    match keys.dec {
      case DecChaPoly(k) =>
        var plainOpt := prim.open(k, seqNo, buf[..dataLen], buf[dataLen..]);
        if plainOpt.None? {
          return false, keys;
        }
        CopyInto(buf, 0, plainOpt.value);
      case DecAesCtr(k, iv, pos) =>
        if dataLen > AES_BLOCK_SIZE {
          var pt := Ctr(prim, k, iv, pos, buf[AES_BLOCK_SIZE..dataLen]);
          CopyInto(buf, AES_BLOCK_SIZE, pt);
          keys' := keys.(dec := DecAesCtr(k, iv, pos + (dataLen - AES_BLOCK_SIZE)));
        }
      case DecNone =>
    }
  }

  method DecryptInPlace(keys: Keys, buf: array<Byte>, seqNo: U32, prim: Primitives)
    returns (r: Result<nat>, keys': Keys)
    modifies buf
    ensures DecryptSpec(keys, old(buf[..]), seqNo, prim) == Written(r, buf[..], keys')
  {
    if !DecryptLengthOk(keys, buf.Length) {
      return Err(SSHProtoError), keys;
    }
    var dataLen := buf.Length - SizeOut(keys.integDec);
    ghost var b0 := buf[..];
    var ok;
    ok, keys' := DecryptCipherInPlace(keys, buf, dataLen, seqNo, prim);
    if !ok {
      return Err(BadDecrypt), keys;
    }
    var w := CheckMacAndPadding(keys', buf[..], dataLen, seqNo, prim);
    assert DecryptSpec(keys, b0, seqNo, prim) == w;
    r := w.result;
  }

  // ---- properties ----

  /** The bytes a sender without a cipher puts on the wire: the framed
      packet and its MAC. */
  function MacedPacket(integ: IntegKey, payloadLen: nat, b: seq<Byte>, seqNo: U32, pad: seq<Byte>,
                       prim: Primitives): (c: seq<Byte>)
    requires |pad| < 0x100
    requires SSH_PAYLOAD_START + payloadLen + |pad| + SizeOut(integ) <= |b|
    ensures |c| == SSH_PAYLOAD_START + payloadLen + |pad| + SizeOut(integ)
  {
    var len := SSH_PAYLOAD_START + payloadLen + |pad|;
    EncryptMac(integ, len, EncryptFramed(payloadLen, b, pad), seqNo, prim)[..len + SizeOut(integ)]
  }

  /** The framed packet: the padding-length byte, the caller's payload
      untouched, the padding, and nothing after it changed. */
  lemma FramedLayout(payloadLen: nat, b: seq<Byte>, pad: seq<Byte>)
    requires |pad| < 0x100
    requires SSH_PAYLOAD_START + payloadLen + |pad| <= |b|
    ensures var len := SSH_PAYLOAD_START + payloadLen + |pad|;
      var r := EncryptFramed(payloadLen, b, pad);
      r[SSH_LENGTH_SIZE] == |pad|
      && r[SSH_PAYLOAD_START..SSH_PAYLOAD_START + payloadLen] == b[SSH_PAYLOAD_START..SSH_PAYLOAD_START + payloadLen]
      && r[SSH_PAYLOAD_START + payloadLen..len] == pad
      && r[len..] == b[len..]
  {
    var len := SSH_PAYLOAD_START + payloadLen + |pad|;
    var b1 := Overwrite(b, 0, Header(len, |pad|));
    var r := Overwrite(b1, SSH_PAYLOAD_START + payloadLen, pad);
    assert r[..SSH_PAYLOAD_START] == b1[..SSH_PAYLOAD_START] == Header(len, |pad|) by {
      assert r[..SSH_PAYLOAD_START + payloadLen][..SSH_PAYLOAD_START] == r[..SSH_PAYLOAD_START];
      assert b1[..SSH_PAYLOAD_START + payloadLen][..SSH_PAYLOAD_START] == b1[..SSH_PAYLOAD_START];
    }
    assert r[SSH_LENGTH_SIZE] == r[..SSH_PAYLOAD_START][SSH_LENGTH_SIZE];
    assert r[SSH_PAYLOAD_START..SSH_PAYLOAD_START + payloadLen] == b1[SSH_PAYLOAD_START..SSH_PAYLOAD_START + payloadLen] by {
      assert r[..SSH_PAYLOAD_START + payloadLen][SSH_PAYLOAD_START..] == r[SSH_PAYLOAD_START..SSH_PAYLOAD_START + payloadLen];
      assert b1[..SSH_PAYLOAD_START + payloadLen][SSH_PAYLOAD_START..] == b1[SSH_PAYLOAD_START..SSH_PAYLOAD_START + payloadLen];
    }
    assert b1[SSH_PAYLOAD_START..] == b[SSH_PAYLOAD_START..];
    assert b1[SSH_PAYLOAD_START..][..payloadLen] == b1[SSH_PAYLOAD_START..SSH_PAYLOAD_START + payloadLen];
    assert b[SSH_PAYLOAD_START..][..payloadLen] == b[SSH_PAYLOAD_START..SSH_PAYLOAD_START + payloadLen];
  }

  /** The length field of a framed packet counts everything after itself
      (modulo 2^32, as the source writes it from a `u32`). */
  lemma FramedLength(payloadLen: nat, b: seq<Byte>, pad: seq<Byte>)
    requires |pad| < 0x100
    requires SSH_PAYLOAD_START + payloadLen + |pad| <= |b|
    ensures ReadBE32(EncryptFramed(payloadLen, b, pad)) == (payloadLen + |pad| + 1) % U32_MODULUS
    ensures payloadLen + |pad| + 1 < U32_MODULUS ==> ReadBE32(EncryptFramed(payloadLen, b, pad)) == payloadLen + |pad| + 1
  {
    var len := SSH_PAYLOAD_START + payloadLen + |pad|;
    var v := (len - SSH_LENGTH_SIZE) % U32_MODULUS;
    var b1 := Overwrite(b, 0, Header(len, |pad|));
    var r := Overwrite(b1, SSH_PAYLOAD_START + payloadLen, pad);
    assert r[..SSH_LENGTH_SIZE] == b1[..SSH_LENGTH_SIZE] == BE32(v) by {
      assert r[..SSH_PAYLOAD_START + payloadLen][..SSH_LENGTH_SIZE] == r[..SSH_LENGTH_SIZE];
      assert b1[..SSH_PAYLOAD_START + payloadLen][..SSH_LENGTH_SIZE] == b1[..SSH_LENGTH_SIZE];
      assert b1[..SSH_PAYLOAD_START][..SSH_LENGTH_SIZE] == b1[..SSH_LENGTH_SIZE];
    }
    assert r == BE32(v) + r[SSH_LENGTH_SIZE..];
    BE32RoundTrip(v, r[SSH_LENGTH_SIZE..]);
  }

  /** The MAC goes into the slot after the packet and covers the sequence
      number and the whole unencrypted packet. */
  lemma MacLayout(integ: IntegKey, len: nat, framed: seq<Byte>, seqNo: U32, prim: Primitives)
    requires len + SizeOut(integ) <= |framed|
    ensures var r := EncryptMac(integ, len, framed, seqNo, prim);
      r[..len] == framed[..len] && r[len + SizeOut(integ)..] == framed[len + SizeOut(integ)..]
      && (integ.KeyHmacSha256? ==> r[len..len + SizeOut(integ)] == prim.hmac(integ.key, BE32(seqNo) + framed[..len]))
  {
  }

  /** The receiver's checks pass on a packet with a correct MAC and a
      padding length the sender chose, and yield the payload length. */
  lemma MacedPacketAccepted(dkeys: Keys, d: seq<Byte>, len: nat, seqNo: U32, prim: Primitives, payloadLen: nat)
    requires SSH_MIN_PACKET_SIZE <= len <= |d| && |d| - len == SizeOut(dkeys.integDec)
    requires d[SSH_LENGTH_SIZE] >= SSH_MIN_PADLEN && len == SSH_PAYLOAD_START + payloadLen + d[SSH_LENGTH_SIZE]
    requires dkeys.integDec.KeyHmacSha256? ==> d[len..] == prim.hmac(dkeys.integDec.key, BE32(seqNo) + d[..len])
    ensures CheckMacAndPadding(dkeys, d, len, seqNo, prim).result == Ok(payloadLen)
  {
  }

  /** A receiver whose MAC key matches the sender's accepts the packet the
      sender framed and MACed, once its cipher has restored the plaintext,
      and finds the payload length and bytes the sender was given. */
  lemma FramedPacketAccepted(integ: IntegKey, dkeys: Keys, payloadLen: nat, b: seq<Byte>, seqNo: U32,
                             pad: seq<Byte>, prim: Primitives)
    requires SSH_MIN_PADLEN <= |pad| < 0x100
    requires SSH_MIN_PACKET_SIZE <= SSH_PAYLOAD_START + payloadLen + |pad|
    requires SSH_PAYLOAD_START + payloadLen + |pad| + SizeOut(integ) <= |b|
    requires dkeys.integDec == integ
    ensures CheckMacAndPadding(dkeys, MacedPacket(integ, payloadLen, b, seqNo, pad, prim),
                               SSH_PAYLOAD_START + payloadLen + |pad|, seqNo, prim).result == Ok(payloadLen)
    ensures MacedPacket(integ, payloadLen, b, seqNo, pad, prim)[SSH_PAYLOAD_START..SSH_PAYLOAD_START + payloadLen]
      == b[SSH_PAYLOAD_START..SSH_PAYLOAD_START + payloadLen]
  {
    var len := SSH_PAYLOAD_START + payloadLen + |pad|;
    var si := SizeOut(integ);
    var framed := EncryptFramed(payloadLen, b, pad);
    FramedLayout(payloadLen, b, pad);
    MacLayout(integ, len, framed, seqNo, prim);
    var plain := EncryptMac(integ, len, framed, seqNo, prim);
    var d := MacedPacket(integ, payloadLen, b, seqNo, pad, prim);
    assert d == plain[..len + si];
    assert d[..len] == framed[..len];
    assert d[len..] == plain[len..len + si];
    assert d[SSH_LENGTH_SIZE] == |pad| by {
      assert d[SSH_LENGTH_SIZE] == d[..len][SSH_LENGTH_SIZE];
      assert framed[SSH_LENGTH_SIZE] == framed[..len][SSH_LENGTH_SIZE];
    }
    MacedPacketAccepted(dkeys, d, len, seqNo, prim, payloadLen);
    assert d[..len][SSH_PAYLOAD_START..SSH_PAYLOAD_START + payloadLen] == d[SSH_PAYLOAD_START..SSH_PAYLOAD_START + payloadLen];
    assert framed[..len][SSH_PAYLOAD_START..SSH_PAYLOAD_START + payloadLen] == framed[SSH_PAYLOAD_START..SSH_PAYLOAD_START + payloadLen];
  }

  /** Bytes past the first four do not affect the length field. */
  lemma ReadBE32Prefix(x: seq<Byte>, y: seq<Byte>)
    requires |x| >= SSH_LENGTH_SIZE && |y| >= SSH_LENGTH_SIZE && x[..SSH_LENGTH_SIZE] == y[..SSH_LENGTH_SIZE]
    ensures ReadBE32(x) == ReadBE32(y)
  {
    assert x[0] == x[..SSH_LENGTH_SIZE][0] && x[1] == x[..SSH_LENGTH_SIZE][1];
    assert x[2] == x[..SSH_LENGTH_SIZE][2] && x[3] == x[..SSH_LENGTH_SIZE][3];
  }

  /** Without a cipher, a packet whose sizes meet the block rules goes
      straight to the MAC and padding checks. */
  lemma CleartextDecryptChecks(dkeys: Keys, c: seq<Byte>, len: nat, seqNo: U32, prim: Primitives)
    requires dkeys.dec.DecNone?
    requires |c| == len + SizeOut(dkeys.integDec)
    requires len >= SSH_MIN_PACKET_SIZE && len % SSH_MIN_BLOCK == 0
    ensures DecryptSpec(dkeys, c, seqNo, prim) == CheckMacAndPadding(dkeys, c, len, seqNo, prim)
  {
  }

  /** The length field of the framed and MACed packet, read back. */
  lemma SentLengthField(integ: IntegKey, payloadLen: nat, b: seq<Byte>, seqNo: U32, pad: seq<Byte>, prim: Primitives)
    requires |pad| < 0x100
    requires SSH_PAYLOAD_START + payloadLen + |pad| + SizeOut(integ) <= |b|
    requires payloadLen + |pad| + 1 < U32_MODULUS
    ensures ReadBE32(MacedPacket(integ, payloadLen, b, seqNo, pad, prim)) == payloadLen + |pad| + 1
  {
    var len := SSH_PAYLOAD_START + payloadLen + |pad|;
    var framed := EncryptFramed(payloadLen, b, pad);
    var c := MacedPacket(integ, payloadLen, b, seqNo, pad, prim);
    MacLayout(integ, len, framed, seqNo, prim);
    assert c[..SSH_LENGTH_SIZE] == framed[..SSH_LENGTH_SIZE] by {
      assert c[..len][..SSH_LENGTH_SIZE] == c[..SSH_LENGTH_SIZE];
      assert framed[..len][..SSH_LENGTH_SIZE] == framed[..SSH_LENGTH_SIZE];
    }
    ReadBE32Prefix(c, framed);
    FramedLength(payloadLen, b, pad);
  }

  /** Without a cipher, the length field alone sizes the packet. */
  lemma CleartextFirstBlock(dkeys: Keys, c: seq<Byte>, len: nat, seqNo: U32, prim: Primitives)
    requires dkeys.dec.DecNone? && SSH_MIN_BLOCK <= len
    requires |c| == len + SizeOut(dkeys.integDec) < U32_MODULUS
    requires ReadBE32(c) == len - SSH_LENGTH_SIZE
    ensures DecryptFirstBlockSpec(dkeys, c, seqNo, prim).result == Ok(|c|)
  {
  }

  /** Without a cipher, `encrypt` leaves the framed and MACed packet in
      the buffer as it is. */
  lemma CleartextEncrypt(keys: Keys, payloadLen: nat, b: seq<Byte>, seqNo: U32, pad: seq<Byte>, prim: Primitives)
    requires keys.enc.EncNone?
    requires |pad| == CalcEncryptPad(keys.enc, payloadLen)
    requires EncryptSpec(keys, payloadLen, b, seqNo, pad, prim).result.Ok?
    ensures var len := SSH_PAYLOAD_START + payloadLen + |pad|;
      EncryptSpec(keys, payloadLen, b, seqNo, pad, prim)
      == Written(Ok(len + SizeOut(keys.integEnc)), EncryptMac(keys.integEnc, len, EncryptFramed(payloadLen, b, pad), seqNo, prim), keys)
  {
  }

  /** Cleartext transport (before the first key exchange, or with no cipher
      negotiated): what `encrypt` sends, `decrypt_first_block` sizes exactly
      and `decrypt` accepts, returning the payload that was sent. */
  lemma CleartextRoundTrip(keys: Keys, dkeys: Keys, payloadLen: nat, b: seq<Byte>, seqNo: U32,
                           pad: seq<Byte>, prim: Primitives, c: seq<Byte>)
    requires keys.enc.EncNone? && dkeys.dec.DecNone? && dkeys.integDec == keys.integEnc
    requires |pad| == CalcEncryptPad(keys.enc, payloadLen)
    requires EncryptSpec(keys, payloadLen, b, seqNo, pad, prim).result.Ok?
    requires c == EncryptSpec(keys, payloadLen, b, seqNo, pad, prim).buf[..EncryptSpec(keys, payloadLen, b, seqNo, pad, prim).result.value]
    requires |c| < U32_MODULUS
    ensures DecryptFirstBlockSpec(dkeys, c, seqNo, prim).result == Ok(|c|)
    ensures DecryptSpec(dkeys, c, seqNo, prim).result == Ok(payloadLen)
    ensures DecryptSpec(dkeys, c, seqNo, prim).buf[SSH_PAYLOAD_START..SSH_PAYLOAD_START + payloadLen]
      == b[SSH_PAYLOAD_START..SSH_PAYLOAD_START + payloadLen]
  {
    var len := SSH_PAYLOAD_START + payloadLen + |pad|;
    CleartextEncrypt(keys, payloadLen, b, seqNo, pad, prim);
    assert c == MacedPacket(keys.integEnc, payloadLen, b, seqNo, pad, prim);
    assert len % SSH_MIN_BLOCK == 0;
    FramedCleartextRoundTrip(dkeys, payloadLen, b, seqNo, pad, prim);
  }

  /** The cleartext round trip on the framed and MACed packet, for any
      padding that meets the size rules. */
  lemma FramedCleartextRoundTrip(dkeys: Keys, payloadLen: nat, b: seq<Byte>, seqNo: U32, pad: seq<Byte>, prim: Primitives)
    requires dkeys.dec.DecNone?
    requires SSH_MIN_PADLEN <= |pad| < 0x100
    requires SSH_MIN_PACKET_SIZE <= SSH_PAYLOAD_START + payloadLen + |pad|
    requires (SSH_PAYLOAD_START + payloadLen + |pad|) % SSH_MIN_BLOCK == 0
    requires SSH_PAYLOAD_START + payloadLen + |pad| + SizeOut(dkeys.integDec) <= |b|
    requires SSH_PAYLOAD_START + payloadLen + |pad| + SizeOut(dkeys.integDec) < U32_MODULUS
    ensures var c := MacedPacket(dkeys.integDec, payloadLen, b, seqNo, pad, prim);
      DecryptFirstBlockSpec(dkeys, c, seqNo, prim).result == Ok(|c|)
      && DecryptSpec(dkeys, c, seqNo, prim).result == Ok(payloadLen)
      && DecryptSpec(dkeys, c, seqNo, prim).buf[SSH_PAYLOAD_START..SSH_PAYLOAD_START + payloadLen]
         == b[SSH_PAYLOAD_START..SSH_PAYLOAD_START + payloadLen]
  {
    var len := SSH_PAYLOAD_START + payloadLen + |pad|;
    var integ := dkeys.integDec;
    var c := MacedPacket(integ, payloadLen, b, seqNo, pad, prim);
    SentLengthField(integ, payloadLen, b, seqNo, pad, prim);
    CleartextFirstBlock(dkeys, c, len, seqNo, prim);
    CleartextDecryptChecks(dkeys, c, len, seqNo, prim);
    FramedPacketAccepted(integ, dkeys, payloadLen, b, seqNo, pad, prim);
    var d := DecryptSpec(dkeys, c, seqNo, prim);
    assert d == CheckMacAndPadding(dkeys, c, len, seqNo, prim);
    assert d.result == Ok(payloadLen);
    assert d.buf == c;
  }

  /** Decrypting the first block of a counter-mode ciphertext recovers the
      first block of the plaintext, and the rest of the ciphertext is the rest
      of the plaintext under the keystream from the next position. */
  lemma CtrFirstBlock(prim: Primitives, key: seq<Byte>, iv: seq<Byte>, pos: nat, x: seq<Byte>)
    requires |x| >= AES_BLOCK_SIZE
    ensures Ctr(prim, key, iv, pos, Ctr(prim, key, iv, pos, x)[..AES_BLOCK_SIZE]) == x[..AES_BLOCK_SIZE]
    ensures Ctr(prim, key, iv, pos, x)[AES_BLOCK_SIZE..] == Ctr(prim, key, iv, pos + AES_BLOCK_SIZE, x[AES_BLOCK_SIZE..])
  {
    assert x == x[..AES_BLOCK_SIZE] + x[AES_BLOCK_SIZE..];
    CtrSplit(prim, key, iv, pos, x[..AES_BLOCK_SIZE], x[AES_BLOCK_SIZE..]);
    CtrTwice(prim, key, iv, pos, x[..AES_BLOCK_SIZE]);
  }

  /** With counter mode, `encrypt` sends the keystream applied to the framed
      packet, then the MAC, and moves the stream on by the packet length. */
  lemma AesEncrypt(keys: Keys, payloadLen: nat, b: seq<Byte>, seqNo: U32, pad: seq<Byte>, prim: Primitives)
    requires keys.enc.EncAesCtr?
    requires |pad| == CalcEncryptPad(keys.enc, payloadLen)
    requires EncryptSpec(keys, payloadLen, b, seqNo, pad, prim).result.Ok?
    ensures var len := SSH_PAYLOAD_START + payloadLen + |pad|;
      var w := EncryptSpec(keys, payloadLen, b, seqNo, pad, prim);
      var p := MacedPacket(keys.integEnc, payloadLen, b, seqNo, pad, prim);
      w.result.value == |p|
      && w.buf[..|p|] == Ctr(prim, keys.enc.key, keys.enc.iv, keys.enc.pos, p[..len]) + p[len..]
      && w.keys.enc == EncAesCtr(keys.enc.key, keys.enc.iv, keys.enc.pos + len)
  {
    var len := SSH_PAYLOAD_START + payloadLen + |pad|;
    var si := SizeOut(keys.integEnc);
    var plain := EncryptMac(keys.integEnc, len, EncryptFramed(payloadLen, b, pad), seqNo, prim);
    var p := MacedPacket(keys.integEnc, payloadLen, b, seqNo, pad, prim);
    assert p == plain[..len + si];
    assert p[..len] == plain[..len];
    var e := Ctr(prim, keys.enc.key, keys.enc.iv, keys.enc.pos, plain[..len]);
    var out := Overwrite(plain, 0, e);
    assert out[..len + si] == e + p[len..] by {
      assert out[..len + si][..len] == out[..len];
      assert out[..len + si][len..] == out[len..][..si] == plain[len..][..si] == p[len..];
    }
  }

  /** Counter mode, first block, on the bytes: decrypting the first block
      in place leaves the plaintext block followed by the rest still under
      the keystream from the next position. */
  lemma AesFirstBlockBytes(prim: Primitives, k: seq<Byte>, iv: seq<Byte>, pos: nat, p: seq<Byte>, len: nat, c: seq<Byte>)
    requires AES_BLOCK_SIZE <= len <= |p|
    requires c == Ctr(prim, k, iv, pos, p[..len]) + p[len..]
    ensures Overwrite(c, 0, Ctr(prim, k, iv, pos, c[..AES_BLOCK_SIZE]))
      == p[..AES_BLOCK_SIZE] + Ctr(prim, k, iv, pos + AES_BLOCK_SIZE, p[AES_BLOCK_SIZE..len]) + p[len..]
  {
    var e := Ctr(prim, k, iv, pos, p[..len]);
    CtrFirstBlock(prim, k, iv, pos, p[..len]);
    assert c[..AES_BLOCK_SIZE] == e[..AES_BLOCK_SIZE];
    var b1 := Overwrite(c, 0, Ctr(prim, k, iv, pos, c[..AES_BLOCK_SIZE]));
    assert b1[..AES_BLOCK_SIZE] == p[..len][..AES_BLOCK_SIZE] == p[..AES_BLOCK_SIZE];
    assert b1[AES_BLOCK_SIZE..] == c[AES_BLOCK_SIZE..] == e[AES_BLOCK_SIZE..] + p[len..];
    assert p[..len][AES_BLOCK_SIZE..] == p[AES_BLOCK_SIZE..len];
    assert b1 == b1[..AES_BLOCK_SIZE] + b1[AES_BLOCK_SIZE..];
  }

  /** Counter mode, first block: the receiver, at the stream position the
      sender started from, reads the length the sender wrote. */
  lemma AesFirstBlock(dkeys: Keys, c: seq<Byte>, p: seq<Byte>, len: nat, seqNo: U32, prim: Primitives)
    requires dkeys.dec.DecAesCtr?
    requires AES_BLOCK_SIZE <= len <= |p| && |p| == len + SizeOut(dkeys.integDec) < U32_MODULUS
    requires ReadBE32(p) == len - SSH_LENGTH_SIZE
    requires c == Ctr(prim, dkeys.dec.key, dkeys.dec.iv, dkeys.dec.pos, p[..len]) + p[len..]
    ensures DecryptFirstBlockSpec(dkeys, c, seqNo, prim) == Written(Ok(|c|),
      p[..AES_BLOCK_SIZE] + Ctr(prim, dkeys.dec.key, dkeys.dec.iv, dkeys.dec.pos + AES_BLOCK_SIZE, p[AES_BLOCK_SIZE..len]) + p[len..],
      dkeys.(dec := DecAesCtr(dkeys.dec.key, dkeys.dec.iv, dkeys.dec.pos + AES_BLOCK_SIZE)))
  {
    var k, iv, pos := dkeys.dec.key, dkeys.dec.iv, dkeys.dec.pos;
    var b1 := p[..AES_BLOCK_SIZE] + Ctr(prim, k, iv, pos + AES_BLOCK_SIZE, p[AES_BLOCK_SIZE..len]) + p[len..];
    assert FirstBlockCipher(dkeys, c, seqNo, prim) == (ReadBE32(b1), b1, dkeys.(dec := DecAesCtr(k, iv, pos + AES_BLOCK_SIZE))) by {
      AesFirstBlockBytes(prim, k, iv, pos, p, len, c);
    }
    assert ReadBE32(b1) == len - SSH_LENGTH_SIZE by {
      assert b1[..SSH_LENGTH_SIZE] == p[..SSH_LENGTH_SIZE];
      ReadBE32Prefix(b1, p);
    }
    assert ReadBE32(b1) + SSH_LENGTH_SIZE + SizeOut(dkeys.integDec) == |c| < U32_MODULUS;
  }

  /** Counter mode, rest of the packet: continuing the stream after the
      first block restores the whole plaintext and leaves the receiver's
      stream where the sender's is. */
  lemma AesDecryptRest(dkeys: Keys, p: seq<Byte>, len: nat, seqNo: U32, prim: Primitives)
    requires dkeys.dec.DecAesCtr?
    requires SSH_MIN_PACKET_SIZE <= len && len % AES_BLOCK_SIZE == 0 && |p| == len + SizeOut(dkeys.integDec)
    ensures DecryptSpec(dkeys.(dec := DecAesCtr(dkeys.dec.key, dkeys.dec.iv, dkeys.dec.pos + AES_BLOCK_SIZE)),
                        p[..AES_BLOCK_SIZE] + Ctr(prim, dkeys.dec.key, dkeys.dec.iv, dkeys.dec.pos + AES_BLOCK_SIZE, p[AES_BLOCK_SIZE..len]) + p[len..],
                        seqNo, prim)
      == CheckMacAndPadding(dkeys.(dec := dkeys.dec.(pos := dkeys.dec.pos + len)), p, len, seqNo, prim)
  {
    var k, iv, pos := dkeys.dec.key, dkeys.dec.iv, dkeys.dec.pos + AES_BLOCK_SIZE;
    var dkeys1 := dkeys.(dec := DecAesCtr(k, iv, pos));
    var mid := p[AES_BLOCK_SIZE..len];
    var b1 := p[..AES_BLOCK_SIZE] + Ctr(prim, k, iv, pos, mid) + p[len..];
    assert DecryptLengthOk(dkeys1, |b1|);
    assert b1[AES_BLOCK_SIZE..len] == Ctr(prim, k, iv, pos, mid);
    CtrTwice(prim, k, iv, pos, mid);
    assert b1[len..] == p[len..];
    if len > AES_BLOCK_SIZE {
      var b2 := Overwrite(b1, AES_BLOCK_SIZE, Ctr(prim, k, iv, pos, b1[AES_BLOCK_SIZE..len]));
      assert b2 == p by {
        assert b2[..AES_BLOCK_SIZE] == b1[..AES_BLOCK_SIZE] == p[..AES_BLOCK_SIZE];
        assert b2[AES_BLOCK_SIZE..len] == mid;
        assert b2 == b2[..AES_BLOCK_SIZE] + b2[AES_BLOCK_SIZE..len] + b2[len..];
        assert p == p[..AES_BLOCK_SIZE] + mid + p[len..];
      }
    } else {
      assert |Ctr(prim, k, iv, pos, mid)| == 0;
      assert b1 == p by {
        assert p == p[..AES_BLOCK_SIZE] + p[len..];
      }
    }
    assert dkeys1.(dec := DecAesCtr(k, iv, pos + (len - AES_BLOCK_SIZE))) == dkeys.(dec := dkeys.dec.(pos := dkeys.dec.pos + len));
  }

  /** Counter mode is transparent to the receiver: for any packet `p`
      whose length field is right, receiving `p` under the keystream at the
      receiver's stream position comes to the same checks as receiving `p`
      in the clear, with the stream moved on by the packet length. */
  lemma AesReceive(dkeys: Keys, p: seq<Byte>, len: nat, seqNo: U32, prim: Primitives, c: seq<Byte>)
    requires dkeys.dec.DecAesCtr?
    requires SSH_MIN_PACKET_SIZE <= len && len % AES_BLOCK_SIZE == 0
    requires |p| == len + SizeOut(dkeys.integDec) < U32_MODULUS
    requires ReadBE32(p) == len - SSH_LENGTH_SIZE
    requires c == Ctr(prim, dkeys.dec.key, dkeys.dec.iv, dkeys.dec.pos, p[..len]) + p[len..]
    ensures var f := DecryptFirstBlockSpec(dkeys, c, seqNo, prim);
      f.result == Ok(|c|)
      && DecryptSpec(f.keys, f.buf, seqNo, prim)
         == CheckMacAndPadding(dkeys.(dec := dkeys.dec.(pos := dkeys.dec.pos + len)), p, len, seqNo, prim)
  {
    AesFirstBlock(dkeys, c, p, len, seqNo, prim);
    AesDecryptRest(dkeys, p, len, seqNo, prim);
  }

  /** Counter mode on the framed and MACed packet: a receiver at the
      sender's stream position decrypts to the payload that was framed and
      ends at the position after the packet. */
  lemma AesFramedRoundTrip(dkeys: Keys, payloadLen: nat, b: seq<Byte>, seqNo: U32, pad: seq<Byte>, prim: Primitives,
                           c: seq<Byte>)
    requires dkeys.dec.DecAesCtr?
    requires SSH_MIN_PADLEN <= |pad| < 0x100
    requires SSH_MIN_PACKET_SIZE <= SSH_PAYLOAD_START + payloadLen + |pad|
    requires (SSH_PAYLOAD_START + payloadLen + |pad|) % AES_BLOCK_SIZE == 0
    requires SSH_PAYLOAD_START + payloadLen + |pad| + SizeOut(dkeys.integDec) <= |b|
    requires SSH_PAYLOAD_START + payloadLen + |pad| + SizeOut(dkeys.integDec) < U32_MODULUS
    requires var p := MacedPacket(dkeys.integDec, payloadLen, b, seqNo, pad, prim);
      var len := SSH_PAYLOAD_START + payloadLen + |pad|;
      c == Ctr(prim, dkeys.dec.key, dkeys.dec.iv, dkeys.dec.pos, p[..len]) + p[len..]
    ensures |c| == SSH_PAYLOAD_START + payloadLen + |pad| + SizeOut(dkeys.integDec)
    ensures DecryptFirstBlockSpec(dkeys, c, seqNo, prim).result == Ok(|c|)
    ensures var f := DecryptFirstBlockSpec(dkeys, c, seqNo, prim);
      var d := DecryptSpec(f.keys, f.buf, seqNo, prim);
      d.result == Ok(payloadLen)
      && d.buf[SSH_PAYLOAD_START..SSH_PAYLOAD_START + payloadLen] == b[SSH_PAYLOAD_START..SSH_PAYLOAD_START + payloadLen]
      && d.keys.dec.pos == dkeys.dec.pos + SSH_PAYLOAD_START + payloadLen + |pad|
  {
    var len := SSH_PAYLOAD_START + payloadLen + |pad|;
    var p := MacedPacket(dkeys.integDec, payloadLen, b, seqNo, pad, prim);
    SentLengthField(dkeys.integDec, payloadLen, b, seqNo, pad, prim);
    var dk := dkeys.(dec := dkeys.dec.(pos := dkeys.dec.pos + len));
    var f := DecryptFirstBlockSpec(dkeys, c, seqNo, prim);
    AesReceive(dkeys, p, len, seqNo, prim, c);
    FramedPacketAccepted(dkeys.integDec, dk, payloadLen, b, seqNo, pad, prim);
    var d := DecryptSpec(f.keys, f.buf, seqNo, prim);
    assert d == CheckMacAndPadding(dk, p, len, seqNo, prim);
    assert d.result == Ok(payloadLen);
    assert d.buf == p;
    assert d.keys == dk;
  }

  /** Counter mode end to end: what `encrypt` sends, a receiver whose
      keystream and MAC key match decrypts to the payload that was sent,
      and afterwards both streams stand at the same position. */
  lemma AesCtrRoundTrip(keys: Keys, dkeys: Keys, payloadLen: nat, b: seq<Byte>, seqNo: U32,
                        pad: seq<Byte>, prim: Primitives, c: seq<Byte>)
    requires keys.enc.EncAesCtr? && dkeys.dec == DecAesCtr(keys.enc.key, keys.enc.iv, keys.enc.pos)
    requires dkeys.integDec == keys.integEnc
    requires |pad| == CalcEncryptPad(keys.enc, payloadLen)
    requires EncryptSpec(keys, payloadLen, b, seqNo, pad, prim).result.Ok?
    requires c == EncryptSpec(keys, payloadLen, b, seqNo, pad, prim).buf[..EncryptSpec(keys, payloadLen, b, seqNo, pad, prim).result.value]
    requires |c| < U32_MODULUS
    ensures DecryptFirstBlockSpec(dkeys, c, seqNo, prim).result == Ok(|c|)
    ensures var f := DecryptFirstBlockSpec(dkeys, c, seqNo, prim);
      var d := DecryptSpec(f.keys, f.buf, seqNo, prim);
      d.result == Ok(payloadLen)
      && d.buf[SSH_PAYLOAD_START..SSH_PAYLOAD_START + payloadLen] == b[SSH_PAYLOAD_START..SSH_PAYLOAD_START + payloadLen]
      && d.keys.dec.pos == EncryptSpec(keys, payloadLen, b, seqNo, pad, prim).keys.enc.pos
  {
    var len := SSH_PAYLOAD_START + payloadLen + |pad|;
    AesEncrypt(keys, payloadLen, b, seqNo, pad, prim);
    assert len % AES_BLOCK_SIZE == 0;
    AesFramedRoundTrip(dkeys, payloadLen, b, seqNo, pad, prim, c);
  }


  // ---- session key state ----

  /** `KeyState`: the current keys and the packet sequence numbers, which
      count every packet in each direction and are never reset by rekeying. */
  class KeyState {
    var keys: Keys
    var seqEncrypt: U32
    var seqDecrypt: U32

    /** `KeyState::new_cleartext`. */
    constructor NewCleartext()
      ensures keys == CleartextKeys() && seqEncrypt == 0 && seqDecrypt == 0
    {
      keys := CleartextKeys();
      seqEncrypt := 0;
      seqDecrypt := 0;
    }

    method Rekey(k: Keys)
      modifies this
      ensures keys == k
      ensures seqEncrypt == old(seqEncrypt) && seqDecrypt == old(seqDecrypt)
    {
      keys := k;
    }

    function SizeBlockDec(): nat
      reads this
    {
      DecSizeBlock(keys.dec)
    }

    method DecryptFirstBlock(buf: array<Byte>, prim: Primitives) returns (r: Result<nat>)
      modifies this, buf
      ensures DecryptFirstBlockSpec(old(keys), old(buf[..]), old(seqDecrypt), prim) == Written(r, buf[..], keys)
      ensures seqEncrypt == old(seqEncrypt) && seqDecrypt == old(seqDecrypt)
    {
      var k;
      r, k := DecryptFirstBlockInPlace(keys, buf, seqDecrypt, prim);
      keys := k;
    }

    /** Advances the receive sequence number whether or not the packet is
        accepted. */
    method Decrypt(buf: array<Byte>, prim: Primitives) returns (r: Result<nat>)
      modifies this, buf
      ensures DecryptSpec(old(keys), old(buf[..]), old(seqDecrypt), prim) == Written(r, buf[..], keys)
      ensures seqDecrypt == WrapIncrement(old(seqDecrypt)) && seqEncrypt == old(seqEncrypt)
    {
      var k;
      r, k := DecryptInPlace(keys, buf, seqDecrypt, prim);
      keys := k;
      seqDecrypt := WrapIncrement(seqDecrypt);
    }

    /** Advances the send sequence number whether or not the packet fits. */
    method Encrypt(payloadLen: nat, buf: array<Byte>, prim: Primitives) returns (r: Result<nat>, ghost pad: seq<Byte>)
      modifies this, buf
      ensures |pad| == CalcEncryptPad(old(keys).enc, payloadLen)
      ensures EncryptSpec(old(keys), payloadLen, old(buf[..]), old(seqEncrypt), pad, prim) == Written(r, buf[..], keys)
      ensures seqEncrypt == WrapIncrement(old(seqEncrypt)) && seqDecrypt == old(seqDecrypt)
    {
      var k;
      r, k, pad := EncryptInPlace(keys, payloadLen, buf, seqEncrypt, prim);
      keys := k;
      seqEncrypt := WrapIncrement(seqEncrypt);
    }
  }
}
