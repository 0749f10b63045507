/** The key-exchange state machine of the transport layer: the KEXINIT
    exchange, the curve25519 Diffie-Hellman messages with the exchange hash
    of section 8 of RFC 4253, and taking new keys into use after NEWKEYS.
    Each handler is a method of `Kex` proved against a step function on the
    state; the properties of the protocol are lemmas about the step
    functions. */
module Kex {
  import opened Common
  import opened SigTypes
  import opened Packets
  import opened Encrypt
  import opened Sign
  import opened Negotiate
  import opened KeyDerive
  import opened Outbox

  /** Length of a curve25519 public value. */
  const CURVE25519_LEN: nat := 32

  // ---- the exchange hash ----

  /** One field fed to the exchange hash, each with its own encoding. */
  datatype HashItem =
    | HashString(bytes: seq<Byte>)   // u32 length, then the bytes
    | HashKexInit(msg: KexInitMsg)   // a KEXINIT packet serialised after its length
    | HashHostKey(key: PubKey)       // the host key blob after its length
    | HashMpint(k: seq<Byte>)        // the shared secret as an mpint

  /** `KexHash`: the fields hashed so far, in order. */
  datatype KexHash = KexHash(items: seq<HashItem>)

  /** The leading fields of H in the order of section 8 of RFC 4253:
      V_C, V_S, I_C, I_S. */
  function TranscriptHead(vc: seq<Byte>, vs: seq<Byte>, clientInit: KexInitMsg, serverInit: KexInitMsg): seq<HashItem>
  {
    [HashString(vc), HashString(vs), HashKexInit(clientInit), HashKexInit(serverInit)]
  }

  /** `KexHash::new`: the version strings and both KEXINIT messages, our own
      rebuilt from our cookie, placed by role. A missing remote version is
      an internal error. */
  function KexHashNew(algos: Algos, conf: AlgoConfig, ourCookie: seq<Byte>, remoteVersion: Option<seq<Byte>>,
                      ourVersion: seq<Byte>, remote: KexInitMsg): (r: Result<KexHash>)
    ensures r.Err? <==> remoteVersion.None?
    ensures r.Err? ==> r.error == Bug
    ensures r.Ok? && algos.isClient ==>
      r.value.items == TranscriptHead(ourVersion, remoteVersion.value, MakeKexInit(ourCookie, conf), remote)
    ensures r.Ok? && !algos.isClient ==>
      r.value.items == TranscriptHead(remoteVersion.value, ourVersion, remote, MakeKexInit(ourCookie, conf))
  {
    match remoteVersion
    case None => Err(Bug)
    case Some(rv) =>
      var own := MakeKexInit(ourCookie, conf);
      if algos.isClient then
        Ok(KexHash([HashString(ourVersion), HashString(rv), HashKexInit(own), HashKexInit(remote)]))
      else
        Ok(KexHash([HashString(rv), HashString(ourVersion), HashKexInit(remote), HashKexInit(own)]))
  }

  /** `KexHash::prefinish`: K_S, then the client's and the server's public values. */
  function Prefinish(kh: KexHash, hostKey: PubKey, qc: seq<Byte>, qs: seq<Byte>): KexHash
  {
    KexHash(kh.items + [HashHostKey(hostKey), HashString(qc), HashString(qs)])
  }

  /** The primitives of the exchange: X25519 agreement (our secret, their
      public value), the mpint encoding of K, and SHA-256 over the encoded
      hash fields. */
  datatype KexCrypto = KexCrypto(
    agree: (seq<Byte>, seq<Byte>) -> seq<Byte>,
    mpint: seq<Byte> -> seq<Byte>,
    exchangeHash: seq<HashItem> -> seq<Byte>)

  /** `KexHash::finish`: H, the hash of every field and finally K. */
  function Finish(kh: KexHash, k: seq<Byte>, crypto: KexCrypto): seq<Byte>
  {
    crypto.exchangeHash(kh.items + [HashMpint(k)])
  }

  // ---- the shared secret ----

  /** `KexCurve25519::secret`: agrees on K with the peer's public value and
      consumes our private key. */
  function Secret(algos: Algos, theirs: seq<Byte>, kh: KexHash, crypto: KexCrypto): (r: Result<(KexOutput, Algos)>)
    ensures algos.kex.ours.None? ==> r == Err(Bug)
    ensures algos.kex.ours.Some? && |theirs| != CURVE25519_LEN ==> r == Err(BadKex)
    ensures r.Ok? <==> algos.kex.ours.Some? && |theirs| == CURVE25519_LEN
    ensures r.Ok? ==> r.value.1 == algos.(kex := KexCurve25519(None, algos.kex.pubkey))
    ensures r.Ok? ==> var k := crypto.agree(algos.kex.ours.value, theirs);
      r.value.0.h == Finish(kh, k, crypto) && r.value.0.partialHash == crypto.mpint(k) + r.value.0.h
  {
    match algos.kex.ours
    case None => Err(Bug)
    case Some(ours) =>
      if |theirs| != CURVE25519_LEN then Err(BadKex)
      else
        var k := crypto.agree(ours, theirs);
        Ok((KexOutputNew(crypto.mpint(k), Finish(kh, k, crypto)), algos.(kex := algos.kex.(ours := None))))
  }

  /** The private key serves one agreement only: once it has been used,
      a second agreement is refused as an internal error. */
  lemma SecretSingleUse(algos: Algos, theirs: seq<Byte>, kh: KexHash, crypto: KexCrypto,
                        theirs': seq<Byte>, kh': KexHash)
    requires Secret(algos, theirs, kh, crypto).Ok?
    ensures Secret(Secret(algos, theirs, kh, crypto).value.1, theirs', kh', crypto) == Err(Bug)
  {
  }

  // ---- the server's half ----

  /** What the server needs from its application and key store. */
  datatype HostKeys = HostKeys(
    keys: Result<seq<SignKey>>,                        // ServBehaviour::hostkeys
    canSign: (SignKey, SigType) -> bool,               // SignKey::can_sign
    publicOf: seq<Byte> -> seq<Byte>,                  // public half of a private key
    sign: (SignKey, seq<Byte>) -> Result<Signature>)   // SignKey::sign

  /** The first host key able to sign with the negotiated type. */
  function FindSigner(keys: seq<SignKey>, t: SigType, canSign: (SignKey, SigType) -> bool): (r: Option<SignKey>)
    ensures r.Some? ==> r.value in keys && canSign(r.value, t)
    ensures r.Some? ==> exists i :: 0 <= i < |keys| && keys[i] == r.value
                                    && forall j :: 0 <= j < i ==> !canSign(keys[j], t)
    ensures r.None? <==> forall i :: 0 <= i < |keys| ==> !canSign(keys[i], t)
  {
    if |keys| == 0 then None
    else if canSign(keys[0], t) then Some(keys[0])
    else
      var rest := FindSigner(keys[1..], t, canSign);
      assert forall i :: 1 <= i < |keys| ==> keys[i] == keys[1..][i - 1];
      if rest.Some? then
        var i :| 0 <= i < |keys[1..]| && keys[1..][i] == rest.value
                 && forall j :: 0 <= j < i ==> !canSign(keys[1..][j], t);
        assert keys[i + 1] == rest.value;
        rest
      else rest
  }

  /** `SharedSecret::handle_kexdhinit` with `send_kexdhreply`: the output of
      the exchange, the algorithms with the private key consumed, and the
      KEXDH_REPLY to send. */
  function ServerExchange(algos: Algos, kh: KexHash, qc: seq<Byte>, hk: HostKeys, crypto: KexCrypto)
    : (r: Result<(KexOutput, Algos, Packet)>)
    ensures hk.keys.Err? ==> r == Err(hk.keys.error)
    ensures hk.keys.Ok? && FindSigner(hk.keys.value, algos.hostsig, hk.canSign).None? ==> r == Err(Bug)
    ensures (algos.kex.ours.Some? && |qc| != CURVE25519_LEN && hk.keys.Ok?
             && FindSigner(hk.keys.value, algos.hostsig, hk.canSign).Some?) ==> r == Err(BadKex)
    ensures r.Ok? ==> hk.keys.Ok? && FindSigner(hk.keys.value, algos.hostsig, hk.canSign).Some?
                      && algos.kex.ours.Some? && r.value.2.KexDHReply?
    ensures r.Ok? ==>
      var signer := FindSigner(hk.keys.value, algos.hostsig, hk.canSign).value;
      var reply := r.value.2;
      var k := crypto.agree(algos.kex.ours.value, qc);
      hk.canSign(signer, algos.hostsig)
      && reply == KexDHReply(SignKeyPubkey(signer, hk.publicOf), algos.kex.pubkey, reply.hostSig)
      && hk.sign(signer, r.value.0.h) == Ok(reply.hostSig)
      && r.value.0.h == Finish(Prefinish(kh, reply.ks, qc, reply.qs), k, crypto)
      && r.value.0.partialHash == crypto.mpint(k) + r.value.0.h
      && r.value.1 == algos.(kex := KexCurve25519(None, algos.kex.pubkey))
  {
    match hk.keys
    case Err(e) => Err(e)
    case Ok(keys) =>
      match FindSigner(keys, algos.hostsig, hk.canSign)
      case None => Err(Bug)
      case Some(signer) =>
        var ks := SignKeyPubkey(signer, hk.publicOf);
        var kh' := Prefinish(kh, ks, qc, algos.kex.pubkey);
        match Secret(algos, qc, kh', crypto)
        case Err(e) => Err(e)
        case Ok((out, algos')) =>
          match hk.sign(signer, out.h)
          case Err(e) => Err(e)
          case Ok(sig) => Ok((out, algos', KexDHReply(ks, algos'.kex.pubkey, sig)))
  }

  // ---- the client's half ----

  /** What the client needs to accept a host: the Ed25519 verifier and the
      application's verdict on the host key. */
  datatype HostCheck = HostCheck(
    edVerify: Ed25519Verifier,
    validHostkey: PubKey -> Result<bool>)   // CliBehaviour::valid_hostkey

  /** `SharedSecret::handle_kexdhreply`: agrees on K, then checks the
      host's signature over H, then asks the application about the key. */
  function ClientExchange(algos: Algos, kh: KexHash, ks: PubKey, qs: seq<Byte>, sig: Signature,
                          hc: HostCheck, crypto: KexCrypto): (r: Result<(KexOutput, Algos)>)
    ensures var sec := Secret(algos, qs, Prefinish(kh, ks, algos.kex.pubkey, qs), crypto);
      r.Ok? <==> sec.Ok? && Verify(algos.hostsig, ks, sec.value.0.h, sig, hc.edVerify).Pass?
                 && hc.validHostkey(ks) == Ok(true)
    ensures Secret(algos, qs, Prefinish(kh, ks, algos.kex.pubkey, qs), crypto).Err? ==>
      r == Secret(algos, qs, Prefinish(kh, ks, algos.kex.pubkey, qs), crypto)
    ensures r.Ok? ==> r == Secret(algos, qs, Prefinish(kh, ks, algos.kex.pubkey, qs), crypto)
  {
    match Secret(algos, qs, Prefinish(kh, ks, algos.kex.pubkey, qs), crypto)
    case Err(e) => Err(e)
    case Ok((out, algos')) =>
      match Verify(algos'.hostsig, ks, out.h, sig, hc.edVerify)
      case Fail(e) => Err(e)
      case Pass =>
        if hc.validHostkey(ks) == Ok(true) then Ok((out, algos'))
        else Err(BehaviourError("Host key rejected"))
  }

  /** A rejected signature or host key ends the exchange with its own error,
      whatever the peer's public value agreed on. */
  lemma ClientRejects(algos: Algos, kh: KexHash, ks: PubKey, qs: seq<Byte>, sig: Signature,
                      hc: HostCheck, crypto: KexCrypto)
    requires Secret(algos, qs, Prefinish(kh, ks, algos.kex.pubkey, qs), crypto).Ok?
    ensures var h := Secret(algos, qs, Prefinish(kh, ks, algos.kex.pubkey, qs), crypto).value.0.h;
      var r := ClientExchange(algos, kh, ks, qs, sig, hc, crypto);
      (Verify(algos.hostsig, ks, h, sig, hc.edVerify).Fail? ==>
         r == Err(Verify(algos.hostsig, ks, h, sig, hc.edVerify).error))
      && (Verify(algos.hostsig, ks, h, sig, hc.edVerify).Pass? && hc.validHostkey(ks) != Ok(true) ==>
         r == Err(BehaviourError("Host key rejected")))
  {
  }

  // ---- the state machine ----

  /** `Kex`: where the exchange stands. */
  datatype KexState =
    | Idle                                                // Kex::Idle
    | SentKexInit(ourCookie: seq<Byte>)                   // Kex::KexInit
    | ExchangingDH(algos: Algos, kexHash: KexHash)        // Kex::KexDH
    | AwaitingNewKeys(output: KexOutput, algos: Algos)    // Kex::NewKeys
    | Taken                                               // Kex::Taken, left behind by an error

  /** What one handler does: the new state, the packets it queues, and its result. */
  datatype Step = Step(state: KexState, sent: seq<Packet>, result: Outcome)

  /** `Kex::send_kexinit`: only from `Idle`. */
  function SendKexinitStep(st: KexState, conf: AlgoConfig, cookie: seq<Byte>): (r: Step)
    ensures r.result.Pass? <==> st.Idle?
    ensures !st.Idle? ==> r == Step(st, [], Fail(Bug))
    ensures st.Idle? ==> r.state == SentKexInit(cookie) && r.sent == [KexInit(MakeKexInit(cookie, conf))]
  {
    if !st.Idle? then Step(st, [], Fail(Bug))
    else Step(SentKexInit(cookie), [KexInit(MakeKexInit(cookie, conf))], Pass)
  }

  /** The part of `Kex::handle_kexinit` after our KEXINIT is out, given
      the outcome of negotiation: the client's KEXDH_INIT and the start of
      the exchange hash. A failure leaves the state as it was. */
  function ExchangeStart(ourCookie: seq<Byte>, negotiated: Result<Algos>, remote: KexInitMsg, conf: AlgoConfig,
                         remoteVersion: Option<seq<Byte>>, ourVersion: seq<Byte>): (r: Step)
    ensures r.result.Pass? <==> negotiated.Ok? && remoteVersion.Some?
    ensures r.result.Fail? ==> r.state == SentKexInit(ourCookie)
    ensures negotiated.Err? ==> r.sent == [] && r.result == Fail(negotiated.error)
    ensures negotiated.Ok? ==> r.sent == (if negotiated.value.isClient then [KexDHInit(negotiated.value.kex.pubkey)] else [])
    ensures r.result.Pass? ==>
      r.state == ExchangingDH(negotiated.value,
                              KexHashNew(negotiated.value, conf, ourCookie, remoteVersion, ourVersion, remote).value)
  {
    match negotiated
    case Err(e) => Step(SentKexInit(ourCookie), [], Fail(e))
    case Ok(algos) =>
      var sent := if algos.isClient then [KexDHInit(algos.kex.pubkey)] else [];
      match KexHashNew(algos, conf, ourCookie, remoteVersion, ourVersion, remote)
      case Err(e) => Step(SentKexInit(ourCookie), sent, Fail(e))
      case Ok(kh) => Step(ExchangingDH(algos, kh), sent, Pass)
  }

  /** `Kex::handle_kexinit`: replies with our own KEXINIT first when we had
      not sent one; a KEXINIT in the middle of an exchange is refused and
      changes nothing. */
  function KexinitStep(st: KexState, remote: KexInitMsg, isClient: bool, conf: AlgoConfig,
                       remoteVersion: Option<seq<Byte>>, ourVersion: seq<Byte>, cookie: seq<Byte>,
                       generated: SharedSecret): (r: Step)
    ensures !st.Idle? && !st.SentKexInit? ==> r == Step(st, [], Fail(PacketWrong))
    ensures st.SentKexInit? ==>
      r == ExchangeStart(st.ourCookie, AlgoNegotiation(isClient, remote, conf, generated), remote, conf,
                         remoteVersion, ourVersion)
    ensures st.Idle? ==>
      var rest := ExchangeStart(cookie, AlgoNegotiation(isClient, remote, conf, generated), remote, conf,
                                remoteVersion, ourVersion);
      r.sent == [KexInit(MakeKexInit(cookie, conf))] + rest.sent && r.state == rest.state && r.result == rest.result
  {
    var pre := if st.Idle? then SendKexinitStep(st, conf, cookie) else Step(st, [], Pass);
    if !pre.state.SentKexInit? then Step(pre.state, pre.sent, Fail(PacketWrong))
    else
      var rest := ExchangeStart(pre.state.ourCookie, AlgoNegotiation(isClient, remote, conf, generated), remote, conf,
                                remoteVersion, ourVersion);
      Step(rest.state, pre.sent + rest.sent, rest.result)
  }

  /** `Kex::handle_kexdhinit` (server): a guessed packet to discard is
      dropped and clears the flag; otherwise the exchange runs, the reply
      and NEWKEYS are queued, and an error leaves the machine `Taken`. */
  function KexdhinitStep(st: KexState, qc: seq<Byte>, hk: HostKeys, crypto: KexCrypto): (r: Step)
    ensures st.ExchangingDH? && st.algos.isClient ==> r == Step(st, [], Fail(Bug))
    ensures !st.ExchangingDH? ==> r == Step(Taken, [], Fail(PacketWrong))
    ensures r.result.Fail? && st.ExchangingDH? && !st.algos.isClient ==> r.state == Taken && r.sent == []
    ensures r.result.Pass? && r.sent == [] ==>
      st.ExchangingDH? && st.algos.discardNext && r.state == ExchangingDH(st.algos.(discardNext := false), st.kexHash)
    ensures r.result.Pass? && r.sent != [] ==>
      st.ExchangingDH? && !st.algos.discardNext
      && var ex := ServerExchange(st.algos, st.kexHash, qc, hk, crypto);
      ex.Ok? && r.state == AwaitingNewKeys(ex.value.0, ex.value.1) && r.sent == [ex.value.2, NewKeys]
  {
    if st.ExchangingDH? && st.algos.isClient then Step(st, [], Fail(Bug))
    else if st.ExchangingDH? && st.algos.discardNext then
      Step(ExchangingDH(st.algos.(discardNext := false), st.kexHash), [], Pass)
    else if !st.ExchangingDH? then Step(Taken, [], Fail(PacketWrong))
    else
      match ServerExchange(st.algos, st.kexHash, qc, hk, crypto)
      case Err(e) => Step(Taken, [], Fail(e))
      case Ok((out, algos, reply)) => Step(AwaitingNewKeys(out, algos), [reply, NewKeys], Pass)
  }

  /** `Kex::handle_kexdhreply` (client), the mirror of `KexdhinitStep`. */
  function KexdhreplyStep(st: KexState, ks: PubKey, qs: seq<Byte>, sig: Signature,
                          hc: HostCheck, crypto: KexCrypto): (r: Step)
    ensures st.ExchangingDH? && !st.algos.isClient ==> r == Step(st, [], Fail(Bug))
    ensures !st.ExchangingDH? ==> r == Step(Taken, [], Fail(PacketWrong))
    ensures r.result.Fail? && st.ExchangingDH? && st.algos.isClient ==> r.state == Taken && r.sent == []
    ensures r.result.Pass? && r.sent == [] ==>
      st.ExchangingDH? && st.algos.discardNext && r.state == ExchangingDH(st.algos.(discardNext := false), st.kexHash)
    ensures r.result.Pass? && r.sent != [] ==>
      st.ExchangingDH? && !st.algos.discardNext
      && var ex := ClientExchange(st.algos, st.kexHash, ks, qs, sig, hc, crypto);
      ex.Ok? && r.state == AwaitingNewKeys(ex.value.0, ex.value.1) && r.sent == [NewKeys]
  {
    if st.ExchangingDH? && !st.algos.isClient then Step(st, [], Fail(Bug))
    else if st.ExchangingDH? && st.algos.discardNext then
      Step(ExchangingDH(st.algos.(discardNext := false), st.kexHash), [], Pass)
    else if !st.ExchangingDH? then Step(Taken, [], Fail(PacketWrong))
    else
      match ClientExchange(st.algos, st.kexHash, ks, qs, sig, hc, crypto)
      case Err(e) => Step(Taken, [], Fail(e))
      case Ok((out, algos)) => Step(AwaitingNewKeys(out, algos), [NewKeys], Pass)
  }

  /** What `Kex::handle_newkeys` does: the new state, the session id, the
      keys handed to the sender, and the result. */
  datatype NewkeysOutcome = NewkeysOutcome(state: KexState, sessId: Option<seq<Byte>>,
                                           rekey: Option<Keys>, result: Outcome)

  /** `Kex::handle_newkeys`: the first exchange's H becomes the session id,
      the keys are derived from this exchange's output, and the machine is
      idle again. */
  function NewkeysStep(st: KexState, sessId: Option<seq<Byte>>, keyHash: Hash): (r: NewkeysOutcome)
    ensures sessId.Some? ==> r.sessId == sessId
    ensures sessId.None? && st.AwaitingNewKeys? ==> r.sessId == Some(st.output.h)
    ensures !st.AwaitingNewKeys? ==> r == NewkeysOutcome(Taken, sessId, None, Fail(PacketWrong))
    ensures st.AwaitingNewKeys? ==>
      r.state == Idle && r.result == Pass
      && r.rekey == Some(NewFromSpec(keyHash, st.output.partialHash, r.sessId.value, st.algos).value)
  {
    if !st.AwaitingNewKeys? then NewkeysOutcome(Taken, sessId, None, Fail(PacketWrong))
    else
      var sid := if sessId.Some? then sessId.value else st.output.h;
      NewFromSucceeds(keyHash, st.output.partialHash, sid, st.algos);
      match NewFromSpec(keyHash, st.output.partialHash, sid, st.algos)
      case Err(e) => NewkeysOutcome(Taken, Some(sid), None, Fail(e))
      case Ok(keys) => NewkeysOutcome(Idle, Some(sid), Some(keys), Pass)
  }

  /** The class of states a handler may leave behind between calls: during
      the exchange our private key is unused, and once it has been used it
      is gone. */
  predicate KeyDiscipline(st: KexState)
  {
    (st.ExchangingDH? ==> st.algos.kex.ours.Some?)
    && (st.AwaitingNewKeys? ==> st.algos.kex.ours.None?)
  }

  /** Starting an exchange keeps the key discipline, given a fresh key
      pair for each exchange. */
  lemma KexinitKeepsKeyDiscipline(st: KexState, remote: KexInitMsg, isClient: bool, conf: AlgoConfig,
                                  remoteVersion: Option<seq<Byte>>, ourVersion: seq<Byte>, cookie: seq<Byte>,
                                  generated: SharedSecret)
    requires KeyDiscipline(st) && generated.ours.Some?
    ensures KeyDiscipline(SendKexinitStep(st, conf, cookie).state)
    ensures KeyDiscipline(KexinitStep(st, remote, isClient, conf, remoteVersion, ourVersion, cookie, generated).state)
  {
  }

  /** The Diffie-Hellman handlers and NEWKEYS keep the key discipline: the
      key is used up exactly when the exchange output exists. */
  lemma ExchangeKeepsKeyDiscipline(st: KexState, qc: seq<Byte>, hk: HostKeys, ks: PubKey, qs: seq<Byte>,
                                   sig: Signature, hc: HostCheck, crypto: KexCrypto,
                                   sessId: Option<seq<Byte>>, keyHash: Hash)
    requires KeyDiscipline(st)
    ensures KeyDiscipline(KexdhinitStep(st, qc, hk, crypto).state)
    ensures KeyDiscipline(KexdhreplyStep(st, ks, qs, sig, hc, crypto).state)
    ensures KeyDiscipline(NewkeysStep(st, sessId, keyHash).state)
  {
  }

  /** An error leaves the machine `Taken`, and from there every handler
      fails: an exchange that went wrong cannot be resumed. */
  lemma TakenIsFinal(remote: KexInitMsg, isClient: bool, conf: AlgoConfig,
                     remoteVersion: Option<seq<Byte>>, ourVersion: seq<Byte>, cookie: seq<Byte>,
                     generated: SharedSecret, qc: seq<Byte>, hk: HostKeys, ks: PubKey, qs: seq<Byte>,
                     sig: Signature, hc: HostCheck, crypto: KexCrypto,
                     sessId: Option<seq<Byte>>, keyHash: Hash)
    ensures SendKexinitStep(Taken, conf, cookie) == Step(Taken, [], Fail(Bug))
    ensures KexinitStep(Taken, remote, isClient, conf, remoteVersion, ourVersion, cookie, generated)
            == Step(Taken, [], Fail(PacketWrong))
    ensures KexdhinitStep(Taken, qc, hk, crypto) == Step(Taken, [], Fail(PacketWrong))
    ensures KexdhreplyStep(Taken, ks, qs, sig, hc, crypto) == Step(Taken, [], Fail(PacketWrong))
    ensures NewkeysStep(Taken, sessId, keyHash) == NewkeysOutcome(Taken, sessId, None, Fail(PacketWrong))
  {
  }

  /** A guessed packet is discarded exactly once: the next DH message is
      processed, whatever it holds. */
  lemma DiscardOnce(st: KexState, qc1: seq<Byte>, qc2: seq<Byte>, hk: HostKeys, crypto: KexCrypto)
    requires st.ExchangingDH? && !st.algos.isClient && st.algos.discardNext
    ensures var first := KexdhinitStep(st, qc1, hk, crypto);
      first.result == Pass && first.sent == [] && first.state.ExchangingDH?
      && first.state.kexHash == st.kexHash
      && var second := KexdhinitStep(first.state, qc2, hk, crypto);
      second.state.Taken? || second.state.AwaitingNewKeys?
  {
  }

  /** The session id is the H of the first exchange: later exchanges
      derive their keys with it and leave it as it was. */
  lemma SessionIdFixedByFirstExchange(st1: KexState, st2: KexState, keyHash: Hash)
    requires st1.AwaitingNewKeys?
    ensures var first := NewkeysStep(st1, None, keyHash);
      var second := NewkeysStep(st2, first.sessId, keyHash);
      first.sessId == Some(st1.output.h) && second.sessId == Some(st1.output.h)
  {
  }

  // ---- both ends ----

  /** Both ends start the exchange hash with the same four fields when each
      uses the other's version string and KEXINIT. */
  lemma TranscriptAgrees(cc: AlgoConfig, sc: AlgoConfig, cookieC: seq<Byte>, cookieS: seq<Byte>,
                         vc: seq<Byte>, vs: seq<Byte>, client: Algos, server: Algos)
    requires client.isClient && !server.isClient
    ensures var c := KexHashNew(client, cc, cookieC, Some(vs), vc, MakeKexInit(cookieS, sc));
      var s := KexHashNew(server, sc, cookieS, Some(vc), vs, MakeKexInit(cookieC, cc));
      c.Ok? && s.Ok? && c.value == s.value
  {
    var c := KexHashNew(client, cc, cookieC, Some(vs), vc, MakeKexInit(cookieS, sc));
    var s := KexHashNew(server, sc, cookieS, Some(vc), vs, MakeKexInit(cookieC, cc));
    assert c.value.items == s.value.items;
  }

  /** When the two Diffie-Hellman computations agree on K, the server's
      exchange and the client's exchange over the same transcript and the
      server's reply produce the same output: the same H and the same hash
      state for the keys. */
  lemma ExchangeOutputsAgree(client: Algos, server: Algos, kh: KexHash, qc: seq<Byte>,
                             hk: HostKeys, hc: HostCheck, crypto: KexCrypto)
    requires client.kex.ours.Some? && server.kex.ours.Some?
    requires client.kex.pubkey == qc && |qc| == CURVE25519_LEN && |server.kex.pubkey| == CURVE25519_LEN
    requires crypto.agree(client.kex.ours.value, server.kex.pubkey) == crypto.agree(server.kex.ours.value, qc)
    requires ServerExchange(server, kh, qc, hk, crypto).Ok?
    requires var reply := ServerExchange(server, kh, qc, hk, crypto).value.2;
      ClientExchange(client, kh, reply.ks, reply.qs, reply.hostSig, hc, crypto).Ok?
    ensures var srv := ServerExchange(server, kh, qc, hk, crypto).value;
      var cli := ClientExchange(client, kh, srv.2.ks, srv.2.qs, srv.2.hostSig, hc, crypto).value;
      cli.0 == srv.0
  {
    var srv := ServerExchange(server, kh, qc, hk, crypto).value;
    var reply := srv.2;
    var k := crypto.agree(server.kex.ours.value, qc);
    var khc := Prefinish(kh, reply.ks, client.kex.pubkey, reply.qs);
    assert reply.qs == server.kex.pubkey;
    var sec := Secret(client, reply.qs, khc, crypto);
    assert sec.value.0.h == Finish(khc, k, crypto);
    assert srv.0.h == Finish(Prefinish(kh, reply.ks, qc, reply.qs), k, crypto);
  }

  /** After the KEXINIT messages, both ends hold the same transcript,
      their own fresh key pair, no packet to discard, and mirrored
      algorithms. */
  lemma KexinitAgrees(cc: AlgoConfig, sc: AlgoConfig, cookieC: seq<Byte>, cookieS: seq<Byte>,
                      vc: seq<Byte>, vs: seq<Byte>, gc: SharedSecret, gs: SharedSecret)
    requires KexinitStep(SentKexInit(cookieC), MakeKexInit(cookieS, sc), true, cc, Some(vs), vc, cookieC, gc).result.Pass?
    ensures var c1 := KexinitStep(SentKexInit(cookieC), MakeKexInit(cookieS, sc), true, cc, Some(vs), vc, cookieC, gc);
      var s1 := KexinitStep(SentKexInit(cookieS), MakeKexInit(cookieC, cc), false, sc, Some(vc), vs, cookieS, gs);
      s1.result.Pass? && c1.state.ExchangingDH? && s1.state.ExchangingDH?
      && c1.state.kexHash == s1.state.kexHash
      && var ac, aS := c1.state.algos, s1.state.algos;
      ac.kex == gc && aS.kex == gs && ac.isClient && !aS.isClient
      && !ac.discardNext && !aS.discardNext
      && ac.cipherEnc == aS.cipherDec && ac.cipherDec == aS.cipherEnc
      && ac.integEnc == aS.integDec && ac.integDec == aS.integEnc
  {
    var ci, si := MakeKexInit(cookieC, cc), MakeKexInit(cookieS, sc);
    NegotiationAgrees(cc, sc, cookieC, cookieS, gc, gs);
    var ac := AlgoNegotiation(true, si, cc, gc).value;
    var aS := AlgoNegotiation(false, ci, sc, gs).value;
    TranscriptAgrees(cc, sc, cookieC, cookieS, vc, vs, ac, aS);
  }

  /** The whole exchange from both ends, message by message: when each side
      has sent its KEXINIT, the server answers the client's KEXDH_INIT, the
      client accepts the reply, and the two Diffie-Hellman computations
      agree on K, then both hold the same exchange output, and the keys each
      takes into use after NEWKEYS undo the other's. */
  lemma ExchangeAgrees(cc: AlgoConfig, sc: AlgoConfig, cookieC: seq<Byte>, cookieS: seq<Byte>,
                       vc: seq<Byte>, vs: seq<Byte>, gc: SharedSecret, gs: SharedSecret,
                       hk: HostKeys, hc: HostCheck, crypto: KexCrypto, keyHash: Hash)
    requires gc.ours.Some? && gs.ours.Some?
    requires |gc.pubkey| == CURVE25519_LEN && |gs.pubkey| == CURVE25519_LEN
    requires crypto.agree(gc.ours.value, gs.pubkey) == crypto.agree(gs.ours.value, gc.pubkey)
    requires KexinitStep(SentKexInit(cookieC), MakeKexInit(cookieS, sc), true, cc, Some(vs), vc, cookieC, gc).result.Pass?
    requires KexinitStep(SentKexInit(cookieS), MakeKexInit(cookieC, cc), false, sc, Some(vc), vs, cookieS, gs).result.Pass?
    requires var s1 := KexinitStep(SentKexInit(cookieS), MakeKexInit(cookieC, cc), false, sc, Some(vc), vs, cookieS, gs);
      var s2 := KexdhinitStep(s1.state, gc.pubkey, hk, crypto);
      s2.result.Pass? && s2.sent != [] && s2.sent[0].KexDHReply?
    requires var c1 := KexinitStep(SentKexInit(cookieC), MakeKexInit(cookieS, sc), true, cc, Some(vs), vc, cookieC, gc);
      var s1 := KexinitStep(SentKexInit(cookieS), MakeKexInit(cookieC, cc), false, sc, Some(vc), vs, cookieS, gs);
      var reply := KexdhinitStep(s1.state, gc.pubkey, hk, crypto).sent[0];
      KexdhreplyStep(c1.state, reply.ks, reply.qs, reply.hostSig, hc, crypto).result.Pass?
    ensures var c1 := KexinitStep(SentKexInit(cookieC), MakeKexInit(cookieS, sc), true, cc, Some(vs), vc, cookieC, gc);
      var s1 := KexinitStep(SentKexInit(cookieS), MakeKexInit(cookieC, cc), false, sc, Some(vc), vs, cookieS, gs);
      var s2 := KexdhinitStep(s1.state, gc.pubkey, hk, crypto);
      var reply := s2.sent[0];
      var c2 := KexdhreplyStep(c1.state, reply.ks, reply.qs, reply.hostSig, hc, crypto);
      c2.state.AwaitingNewKeys? && s2.state.AwaitingNewKeys? && c2.state.output == s2.state.output
      && var cn := NewkeysStep(c2.state, None, keyHash);
      var sn := NewkeysStep(s2.state, None, keyHash);
      cn.sessId == sn.sessId && cn.rekey.Some? && sn.rekey.Some?
      && Paired(cn.rekey.value.enc, sn.rekey.value.dec) && Paired(sn.rekey.value.enc, cn.rekey.value.dec)
      && cn.rekey.value.integEnc == sn.rekey.value.integDec && sn.rekey.value.integEnc == cn.rekey.value.integDec
  {
    var ci, si := MakeKexInit(cookieC, cc), MakeKexInit(cookieS, sc);
    var c1 := KexinitStep(SentKexInit(cookieC), si, true, cc, Some(vs), vc, cookieC, gc);
    var s1 := KexinitStep(SentKexInit(cookieS), ci, false, sc, Some(vc), vs, cookieS, gs);
    KexinitAgrees(cc, sc, cookieC, cookieS, vc, vs, gc, gs);
    var ac, aS, kh := c1.state.algos, s1.state.algos, s1.state.kexHash;
    var s2 := KexdhinitStep(s1.state, gc.pubkey, hk, crypto);
    var srv := ServerExchange(aS, kh, gc.pubkey, hk, crypto);
    assert s2.state == AwaitingNewKeys(srv.value.0, srv.value.1) && s2.sent[0] == srv.value.2;
    var reply := srv.value.2;
    var c2 := KexdhreplyStep(c1.state, reply.ks, reply.qs, reply.hostSig, hc, crypto);
    var cli := ClientExchange(ac, kh, reply.ks, reply.qs, reply.hostSig, hc, crypto);
    assert c2.state == AwaitingNewKeys(cli.value.0, cli.value.1);
    ExchangeOutputsAgree(ac, aS, kh, gc.pubkey, hk, hc, crypto);
    var out := srv.value.0;
    KeysAgree(keyHash, out.partialHash, out.h, cli.value.1, srv.value.1);
  }

  // ---- the machine itself ----

  class Kex {
    var state: KexState

    /** `Kex::new`. */
    constructor ()
      ensures state == Idle
    {
      state := Idle;
    }

    /** `Kex::take`: hands out the state and leaves `Taken` behind. */
    method Take() returns (st: KexState)
      modifies this
      ensures st == old(state) && state == Taken
    {
      st := state;
      state := Taken;
    }

    /** `Kex::send_kexinit`, with the random cookie as a parameter. */
    method SendKexinit(conf: AlgoConfig, cookie: seq<Byte>, s: Outbox) returns (r: Outcome)
      modifies this, s
      ensures var step := SendKexinitStep(old(state), conf, cookie);
        state == step.state && s.sent == old(s.sent) + step.sent && r == step.result
      ensures s.rekeys == old(s.rekeys)
    {
      if !state.Idle? {
        return Fail(Bug);
      }
      s.Send(KexInit(MakeKexInit(cookie, conf)));
      state := SentKexInit(cookie);
      r := Pass;
    }

    /** `Kex::handle_kexinit`, with our cookie and key pair as parameters. */
    method HandleKexinit(remote: KexInitMsg, isClient: bool, conf: AlgoConfig,
                         remoteVersion: Option<seq<Byte>>, ourVersion: seq<Byte>,
                         cookie: seq<Byte>, generated: SharedSecret, s: Outbox) returns (r: Outcome)
      modifies this, s
      ensures var step := KexinitStep(old(state), remote, isClient, conf, remoteVersion, ourVersion, cookie, generated);
        state == step.state && s.sent == old(s.sent) + step.sent && r == step.result
      ensures s.rekeys == old(s.rekeys)
    {
      if state.Idle? {
        r := SendKexinit(conf, cookie, s);
        if r.Fail? {
          return;
        }
      }
      if !state.SentKexInit? {
        return Fail(PacketWrong);
      }
      var negotiated := AlgoNegotiation(isClient, remote, conf, generated);
      r := StartExchange(negotiated, remote, conf, remoteVersion, ourVersion, s);
    }

    /** The part of `Kex::handle_kexinit` once our KEXINIT is out. */
    method StartExchange(negotiated: Result<Algos>, remote: KexInitMsg, conf: AlgoConfig,
                         remoteVersion: Option<seq<Byte>>, ourVersion: seq<Byte>, s: Outbox) returns (r: Outcome)
      requires state.SentKexInit?
      modifies this, s
      ensures var step := ExchangeStart(old(state).ourCookie, negotiated, remote, conf, remoteVersion, ourVersion);
        state == step.state && s.sent == old(s.sent) + step.sent && r == step.result
      ensures s.rekeys == old(s.rekeys)
    {
      var ourCookie := state.ourCookie;
      if negotiated.Err? {
        assert s.sent == old(s.sent) + [];
        return Fail(negotiated.error);
      }
      var algos := negotiated.value;
      if algos.isClient {
        s.Send(KexDHInit(algos.kex.pubkey));
      } else {
        assert s.sent == old(s.sent) + [];
      }
      var kexHash := KexHashNew(algos, conf, ourCookie, remoteVersion, ourVersion, remote);
      if kexHash.Err? {
        return Fail(kexHash.error);
      }
      state := ExchangingDH(algos, kexHash.value);
      r := Pass;
    }

    /** `Kex::handle_kexdhinit` (server). */
    method HandleKexdhinit(qc: seq<Byte>, s: Outbox, hk: HostKeys, crypto: KexCrypto) returns (r: Outcome)
      modifies this, s
      ensures var step := KexdhinitStep(old(state), qc, hk, crypto);
        state == step.state && s.sent == old(s.sent) + step.sent && r == step.result
      ensures s.rekeys == old(s.rekeys)
    {
      if state.ExchangingDH? {
        if state.algos.isClient {
          return Fail(Bug);
        }
        if state.algos.discardNext {
          state := ExchangingDH(state.algos.(discardNext := false), state.kexHash);
          return Pass;
        }
      }
      var st := Take();
      if !st.ExchangingDH? {
        return Fail(PacketWrong);
      }
      var ex := ServerExchange(st.algos, st.kexHash, qc, hk, crypto);
      if ex.Err? {
        return Fail(ex.error);
      }
      var (output, algos, reply) := ex.value;
      s.Send(reply);
      state := AwaitingNewKeys(output, algos);
      s.Send(NewKeys);
      r := Pass;
    }

    /** `Kex::handle_kexdhreply` (client). */
    method HandleKexdhreply(ks: PubKey, qs: seq<Byte>, sig: Signature, s: Outbox, hc: HostCheck,
                            crypto: KexCrypto) returns (r: Outcome)
      modifies this, s
      ensures var step := KexdhreplyStep(old(state), ks, qs, sig, hc, crypto);
        state == step.state && s.sent == old(s.sent) + step.sent && r == step.result
      ensures s.rekeys == old(s.rekeys)
    {
      if state.ExchangingDH? {
        if !state.algos.isClient {
          return Fail(Bug);
        }
        if state.algos.discardNext {
          state := ExchangingDH(state.algos.(discardNext := false), state.kexHash);
          return Pass;
        }
      }
      var st := Take();
      if !st.ExchangingDH? {
        return Fail(PacketWrong);
      }
      var ex := ClientExchange(st.algos, st.kexHash, ks, qs, sig, hc, crypto);
      if ex.Err? {
        return Fail(ex.error);
      }
      var (output, algos) := ex.value;
      state := AwaitingNewKeys(output, algos);
      s.Send(NewKeys);
      r := Pass;
    }

    /** `Kex::handle_newkeys`: `sessId` is the connection's session id,
        passed in and handed back. */
    method HandleNewkeys(sessId: Option<seq<Byte>>, s: Outbox, keyHash: Hash)
      returns (r: Outcome, sessId': Option<seq<Byte>>)
      modifies this, s
      ensures var step := NewkeysStep(old(state), sessId, keyHash);
        state == step.state && sessId' == step.sessId && r == step.result
        && s.rekeys == old(s.rekeys) + (if step.rekey.Some? then [step.rekey.value] else [])
      ensures s.sent == old(s.sent)
    {
      var st := Take();
      sessId' := sessId;
      if !st.AwaitingNewKeys? {
        return Fail(PacketWrong), sessId';
      }
      var sid := if sessId.Some? then sessId.value else st.output.h;
      sessId' := Some(sid);
      var keys := NewFromSpec(keyHash, st.output.partialHash, sid, st.algos);
      if keys.Err? {
        return Fail(keys.error), sessId';
      }
      s.Rekey(keys.value);
      state := Idle;
      r := Pass;
    }
  }
}
