/** Algorithm negotiation of RFC 4253 section 7.1: for each category the
    first name on the client's list that the server also lists, the
    transmit and receive directions chosen by role, the MAC taken from an
    AEAD cipher, and the guess check that decides whether the peer's
    guessed first key-exchange packet must be thrown away. */
module Negotiate {
  import opened Common
  import opened SshNames
  import opened SigTypes
  import opened Packets
  import opened Encrypt

  /** The names the engine offers, most preferred first. */
  datatype AlgoConfig = AlgoConfig(
    kexs: seq<string>,
    hostsig: seq<string>,
    ciphers: seq<string>,
    macs: seq<string>,
    comps: seq<string>)

  /** Names in the key-exchange list that only announce a capability. */
  const MARKER_ONLY_KEXS: seq<string> := [KEX_EXTINFO_C, KEX_EXTINFO_S, KEX_KEXGUESS2]

  /** `AlgoConfig::new`. `rsa` stands for the build feature that adds
      rsa-sha2-256 host keys. Only a client announces ext-info-c; both
      sides announce kexguess2, last. */
  function AlgoConfigNew(isClient: bool, rsa: bool): (c: AlgoConfig)
    ensures |c.kexs| >= 3 && |c.hostsig| >= 1
    ensures c.kexs[0] == KEX_CURVE25519 && c.kexs[|c.kexs| - 1] == KEX_KEXGUESS2
    ensures KEX_EXTINFO_C in c.kexs <==> isClient
    ensures KEX_EXTINFO_S !in c.kexs
    ensures c.hostsig[0] == SSH_NAME_ED25519 && (SSH_NAME_RSA_SHA256 in c.hostsig <==> rsa)
    ensures c.ciphers == [SSH_NAME_CHAPOLY, SSH_NAME_AES256_CTR]
    ensures c.macs == [SSH_NAME_HMAC_SHA256] && c.comps == [SSH_NAME_NONE]
  {
    var kexs := [KEX_CURVE25519, KEX_CURVE25519_LIBSSH] + (if isClient then [KEX_EXTINFO_C] else []);
    AlgoConfig(
      kexs + [KEX_KEXGUESS2],
      [SSH_NAME_ED25519] + (if rsa then [SSH_NAME_RSA_SHA256] else []),
      [SSH_NAME_CHAPOLY, SSH_NAME_AES256_CTR],
      [SSH_NAME_HMAC_SHA256],
      [SSH_NAME_NONE])
  }

  /** `Kex::make_kexinit`: our KEXINIT offers the configuration's lists in
      both directions, no languages and no guessed packet. */
  function MakeKexInit(cookie: seq<Byte>, conf: AlgoConfig): (m: KexInitMsg)
    ensures m.cipherC2s == m.cipherS2c == conf.ciphers && m.macC2s == m.macS2c == conf.macs
    ensures m.kex == conf.kexs && m.hostsig == conf.hostsig && m.compC2s == m.compS2c == conf.comps
    ensures m.langC2s == [] && m.langS2c == [] && !m.firstFollows
  {
    KexInitMsg(cookie, conf.kexs, conf.hostsig, conf.ciphers, conf.ciphers, conf.macs, conf.macs,
               conf.comps, conf.comps, [], [], false, 0)
  }

  // ---- name-list matching ----

  /** The first name of `client` that `server` also holds. */
  function FirstIn(client: seq<string>, server: seq<string>): (r: Option<string>)
    ensures r.Some? ==> r.value in client && r.value in server
    ensures r.Some? ==> exists i :: 0 <= i < |client| && client[i] == r.value
                                    && forall j :: 0 <= j < i ==> client[j] !in server
    ensures r.None? <==> forall i :: 0 <= i < |client| ==> client[i] !in server
  {
    if |client| == 0 then None
    else if client[0] in server then Some(client[0])
    else
      var rest := FirstIn(client[1..], server);
      assert forall i :: 1 <= i < |client| ==> client[i] == client[1..][i - 1];
      if rest.Some? then
        var i :| 0 <= i < |client[1..]| && client[1..][i] == rest.value
                 && forall j :: 0 <= j < i ==> client[1..][j] !in server;
        assert client[i + 1] == rest.value;
        rest
      else rest
  }

  /** `NameList::first_match` on a received list: the client's list
      decides the order, so which of the two lists leads depends on our
      role. */
  function FirstMatch(isClient: bool, remote: seq<string>, local: seq<string>): Option<string>
  {
    if isClient then FirstIn(local, remote) else FirstIn(remote, local)
  }

  /** Both sides arrive at the same name: the client matching the
      server's list against its own, and the server matching the client's
      list against its own. */
  lemma FirstMatchAgrees(clientList: seq<string>, serverList: seq<string>)
    ensures FirstMatch(true, serverList, clientList) == FirstMatch(false, clientList, serverList)
    ensures FirstMatch(true, serverList, clientList).Some? <==>
      exists n :: n in clientList && n in serverList
  {
    var r := FirstIn(clientList, serverList);
    if r.None? {
      forall n | n in clientList
        ensures n !in serverList
      {
        var i :| 0 <= i < |clientList| && clientList[i] == n;
      }
    }
  }

  /** A match in one category, or `AlgoNoMatch` naming the category. */
  function Pick(isClient: bool, remote: seq<string>, local: seq<string>, algo: string): (r: Result<string>)
    ensures r.Ok? <==> FirstMatch(isClient, remote, local).Some?
    ensures r.Ok? ==> r.value in remote && r.value in local
    ensures r.Err? ==> r.error == AlgoNoMatch(algo)
  {
    match FirstMatch(isClient, remote, local)
    case None => Err(AlgoNoMatch(algo))
    case Some(n) => Ok(n)
  }

  // ---- the negotiated algorithms ----

  /** The curve25519 key agreement in progress: our secret until it has
      been used, and our public value. */
  datatype SharedSecret = KexCurve25519(ours: Option<seq<Byte>>, pubkey: seq<Byte>)

  /** `SharedSecret::from_name`; `generated` is the newly generated key pair
      (random generation is outside the model). */
  function SharedSecretFromName(name: string, generated: SharedSecret): (r: Result<SharedSecret>)
    ensures r.Ok? <==> name == KEX_CURVE25519 || name == KEX_CURVE25519_LIBSSH
    ensures r.Ok? ==> r.value == generated
    ensures r.Err? ==> r.error == Bug
  {
    if name == KEX_CURVE25519 || name == KEX_CURVE25519_LIBSSH then Ok(generated) else Err(Bug)
  }

  /** `Algos`: the outcome of negotiation, kept while the exchange runs. */
  datatype Algos = Algos(
    kex: SharedSecret,
    hostsig: SigType,
    cipherEnc: Cipher,
    cipherDec: Cipher,
    integEnc: Integ,
    integDec: Integ,
    discardNext: bool,
    isClient: bool,
    sendExtInfo: bool)

  /** The cipher lists for our transmit and receive directions. */
  function TxCiphers(isClient: bool, p: KexInitMsg): seq<string> { if isClient then p.cipherC2s else p.cipherS2c }
  function RxCiphers(isClient: bool, p: KexInitMsg): seq<string> { if isClient then p.cipherS2c else p.cipherC2s }
  function TxMacs(isClient: bool, p: KexInitMsg): seq<string> { if isClient then p.macC2s else p.macS2c }
  function RxMacs(isClient: bool, p: KexInitMsg): seq<string> { if isClient then p.macS2c else p.macC2s }
  function TxComps(isClient: bool, p: KexInitMsg): seq<string> { if isClient then p.compC2s else p.compS2c }
  function RxComps(isClient: bool, p: KexInitMsg): seq<string> { if isClient then p.compS2c else p.compC2s }

  /** The cipher for one direction. */
  function PickCipher(isClient: bool, remote: seq<string>, local: seq<string>): (r: Result<Cipher>)
    ensures r.Ok? ==> FirstMatch(isClient, remote, local) == Some(CipherName(r.value))
    ensures r.Err? ==> r.error == AlgoNoMatch("encryption") || r.error == Bug
  {
    var n :- Pick(isClient, remote, local, "encryption");
    CipherFromName(n)
  }

  /** The integrity algorithm for one direction: the AEAD cipher's own, or
      else the MAC matched from the lists. */
  function PickInteg(cipher: Cipher, isClient: bool, remote: seq<string>, local: seq<string>): (r: Result<Integ>)
    ensures CipherInteg(cipher).Some? ==> r == Ok(CipherInteg(cipher).value)
    ensures CipherInteg(cipher).None? && r.Ok? ==> FirstMatch(isClient, remote, local) == Some(IntegName(r.value))
    ensures r.Err? ==> r.error == AlgoNoMatch("mac") || r.error == Bug
  {
    match CipherInteg(cipher)
    case Some(integ) => Ok(integ)
    case None =>
      var n :- Pick(isClient, remote, local, "mac");
      IntegFromName(n)
  }

  /** Whether the peer guessed right: its first name is the negotiated one
      when it offers kexguess2, and otherwise the two first names agree. */
  function GoodGuess(kexguess2: bool, remote: seq<string>, local: seq<string>, negotiated: string): bool
    requires |remote| > 0 && |local| > 0
  {
    if kexguess2 then remote[0] == negotiated else remote[0] == local[0]
  }

  /** The key-exchange method and whether the peer guessed it. */
  function KexPart(isClient: bool, p: KexInitMsg, conf: AlgoConfig, generated: SharedSecret): (r: Result<(SharedSecret, bool)>)
    ensures r.Ok? ==> r.value.0 == generated
    ensures r.Ok? ==> var k := FirstMatch(isClient, p.kex, conf.kexs);
      k.Some? && k.value !in MARKER_ONLY_KEXS && (k.value == KEX_CURVE25519 || k.value == KEX_CURVE25519_LIBSSH)
    ensures r.Err? ==> r.error == AlgoNoMatch("kex") || r.error == Bug
  {
    var kexguess2 := KEX_KEXGUESS2 in p.kex;
    var kexMethod :- Pick(isClient, p.kex, conf.kexs, "kex");
    if kexMethod in MARKER_ONLY_KEXS then Err(AlgoNoMatch("kex"))
    else
      var kex :- SharedSecretFromName(kexMethod, generated);
      Ok((kex, GoodGuess(kexguess2, p.kex, conf.kexs, kexMethod)))
  }

  /** The host key algorithm and whether the peer guessed it. */
  function HostsigPart(isClient: bool, p: KexInitMsg, conf: AlgoConfig): (r: Result<(SigType, bool)>)
    ensures r.Ok? ==> FirstMatch(isClient, p.hostsig, conf.hostsig) == Some(AlgorithmName(r.value.0))
    ensures r.Err? ==> r.error == AlgoNoMatch("hostkey") || r.error == Bug
  {
    var hostsigMethod :- Pick(isClient, p.hostsig, conf.hostsig, "hostkey");
    var hostsig :- FromName(hostsigMethod);
    Ok((hostsig, GoodGuess(KEX_KEXGUESS2 in p.kex, p.hostsig, conf.hostsig, hostsigMethod)))
  }

  /** The ciphers and integrity algorithms of both directions, after which
      compression must match too. */
  function DirectionsPart(isClient: bool, p: KexInitMsg, conf: AlgoConfig): (r: Result<(Cipher, Cipher, Integ, Integ)>)
    ensures r.Ok? ==> FirstMatch(isClient, TxCiphers(isClient, p), conf.ciphers) == Some(CipherName(r.value.0))
    ensures r.Ok? ==> FirstMatch(isClient, RxCiphers(isClient, p), conf.ciphers) == Some(CipherName(r.value.1))
    ensures r.Ok? ==> FirstMatch(isClient, TxComps(isClient, p), conf.comps).Some?
                      && FirstMatch(isClient, RxComps(isClient, p), conf.comps).Some?
    ensures r.Err? ==> r.error in {AlgoNoMatch("encryption"), AlgoNoMatch("mac"), AlgoNoMatch("compression"), Bug}
  {
    var cipherEnc :- PickCipher(isClient, TxCiphers(isClient, p), conf.ciphers);
    var cipherDec :- PickCipher(isClient, RxCiphers(isClient, p), conf.ciphers);
    var integEnc :- PickInteg(cipherEnc, isClient, TxMacs(isClient, p), conf.macs);
    var integDec :- PickInteg(cipherDec, isClient, RxMacs(isClient, p), conf.macs);
    var compTx :- Pick(isClient, TxComps(isClient, p), conf.comps, "compression");
    var compRx :- Pick(isClient, RxComps(isClient, p), conf.comps, "compression");
    Ok((cipherEnc, cipherDec, integEnc, integDec))
  }

  /** `Kex::algo_negotiation`: key exchange, host key, then the two
      directions; only a server looks for ext-info-c, and a wrongly
      guessed first packet is marked for discarding. */
  function AlgoNegotiation(isClient: bool, p: KexInitMsg, conf: AlgoConfig, generated: SharedSecret): (r: Result<Algos>)
    ensures r.Ok? ==> r.value.isClient == isClient && r.value.kex == generated
    ensures r.Ok? ==> (r.value.sendExtInfo <==> !isClient && KEX_EXTINFO_C in p.kex)
    ensures r.Ok? ==> FirstMatch(isClient, TxCiphers(isClient, p), conf.ciphers) == Some(CipherName(r.value.cipherEnc))
    ensures r.Ok? ==> FirstMatch(isClient, RxCiphers(isClient, p), conf.ciphers) == Some(CipherName(r.value.cipherDec))
    ensures r.Ok? ==> FirstMatch(isClient, p.hostsig, conf.hostsig) == Some(AlgorithmName(r.value.hostsig))
    ensures r.Ok? ==> var k := FirstMatch(isClient, p.kex, conf.kexs);
      k.Some? && k.value !in MARKER_ONLY_KEXS
    ensures r.Ok? ==> FirstMatch(isClient, TxComps(isClient, p), conf.comps).Some?
                      && FirstMatch(isClient, RxComps(isClient, p), conf.comps).Some?
    ensures r.Ok? && !p.firstFollows ==> !r.value.discardNext
    ensures r.Err? ==> r.error.AlgoNoMatch? || r.error == Bug
  {
    var k :- KexPart(isClient, p, conf, generated);
    var sendExtInfo := if isClient then false else KEX_EXTINFO_C in p.kex;
    var h :- HostsigPart(isClient, p, conf);
    var d :- DirectionsPart(isClient, p, conf);
    var discardNext := p.firstFollows && !(k.1 && h.1);
    Ok(Algos(k.0, h.0, d.0, d.1, d.2, d.3, discardNext, isClient, sendExtInfo))
  }

  // ---- properties of negotiation ----

  /** A marker name that wins the key-exchange match means no real method
      matched. */
  lemma MarkerNeverNegotiated(isClient: bool, p: KexInitMsg, conf: AlgoConfig, generated: SharedSecret)
    requires FirstMatch(isClient, p.kex, conf.kexs).Some?
    requires FirstMatch(isClient, p.kex, conf.kexs).value in MARKER_ONLY_KEXS
    ensures AlgoNegotiation(isClient, p, conf, generated) == Err(AlgoNoMatch("kex"))
  {
  }

  /** The guessed first packet is dropped exactly when the peer announced
      one and guessed wrong: with kexguess2 its first names must be the
      negotiated ones, without it they must equal our first names. */
  lemma DiscardNextRule(isClient: bool, p: KexInitMsg, conf: AlgoConfig, generated: SharedSecret)
    requires AlgoNegotiation(isClient, p, conf, generated).Ok?
    ensures var a := AlgoNegotiation(isClient, p, conf, generated).value;
      var kexName := FirstMatch(isClient, p.kex, conf.kexs).value;
      var hostName := AlgorithmName(a.hostsig);
      |p.kex| > 0 && |p.hostsig| > 0 &&
      (KEX_KEXGUESS2 in p.kex ==>
        (a.discardNext <==> p.firstFollows && (p.kex[0] != kexName || p.hostsig[0] != hostName))) &&
      (KEX_KEXGUESS2 !in p.kex ==>
        (a.discardNext <==> p.firstFollows && (p.kex[0] != conf.kexs[0] || p.hostsig[0] != conf.hostsig[0])))
  {
    var h := HostsigPart(isClient, p, conf).value;
    var hostsigMethod := Pick(isClient, p.hostsig, conf.hostsig, "hostkey").value;
    assert FromName(hostsigMethod) == Ok(h.0);
    assert hostsigMethod == AlgorithmName(h.0);
  }

  /** An AEAD cipher in both directions makes the MAC lists irrelevant:
      whatever MAC names the peer offers, negotiation comes out the same. */
  lemma AeadIgnoresMacs(isClient: bool, p: KexInitMsg, conf: AlgoConfig, generated: SharedSecret,
                        macC2s: seq<string>, macS2c: seq<string>)
    requires AlgoNegotiation(isClient, p, conf, generated).Ok?
    requires AlgoNegotiation(isClient, p, conf, generated).value.cipherEnc == ChaPoly
    requires AlgoNegotiation(isClient, p, conf, generated).value.cipherDec == ChaPoly
    ensures AlgoNegotiation(isClient, p.(macC2s := macC2s, macS2c := macS2c), conf, generated)
      == AlgoNegotiation(isClient, p, conf, generated)
    ensures AlgoNegotiation(isClient, p, conf, generated).value.integEnc == IntegChaPoly
    ensures AlgoNegotiation(isClient, p, conf, generated).value.integDec == IntegChaPoly
  {
    var p' := p.(macC2s := macC2s, macS2c := macS2c);
    assert TxCiphers(isClient, p') == TxCiphers(isClient, p) && RxCiphers(isClient, p') == RxCiphers(isClient, p);
    assert TxComps(isClient, p') == TxComps(isClient, p) && RxComps(isClient, p') == RxComps(isClient, p);
  }

  /** The key-exchange stage, run by the client on the server's KEXINIT
      and by the server on the client's, fails or succeeds on both. */
  lemma KexPartAgrees(cc: AlgoConfig, sc: AlgoConfig, si: KexInitMsg, ci: KexInitMsg, gc: SharedSecret, gs: SharedSecret)
    requires si == MakeKexInit(si.cookie, sc) && ci == MakeKexInit(ci.cookie, cc)
    ensures var kc, ks := KexPart(true, si, cc, gc), KexPart(false, ci, sc, gs);
      (kc.Ok? <==> ks.Ok?) && (kc.Err? ==> kc.error == ks.error)
  {
    FirstMatchAgrees(cc.kexs, sc.kexs);
  }

  /** The host key stage picks the same algorithm on both ends. */
  lemma HostsigPartAgrees(cc: AlgoConfig, sc: AlgoConfig, si: KexInitMsg, ci: KexInitMsg)
    requires si == MakeKexInit(si.cookie, sc) && ci == MakeKexInit(ci.cookie, cc)
    ensures var hc, hs := HostsigPart(true, si, cc), HostsigPart(false, ci, sc);
      (hc.Ok? <==> hs.Ok?) && (hc.Err? ==> hc.error == hs.error) && (hc.Ok? ==> hc.value.0 == hs.value.0)
  {
    FirstMatchAgrees(cc.hostsig, sc.hostsig);
  }

  /** The client's transmit direction is the server's receive direction
      and the reverse. */
  lemma DirectionsPartAgrees(cc: AlgoConfig, sc: AlgoConfig, si: KexInitMsg, ci: KexInitMsg)
    requires si == MakeKexInit(si.cookie, sc) && ci == MakeKexInit(ci.cookie, cc)
    ensures var dc, ds := DirectionsPart(true, si, cc), DirectionsPart(false, ci, sc);
      (dc.Ok? <==> ds.Ok?) && (dc.Err? ==> dc.error == ds.error)
      && (dc.Ok? ==> dc.value.0 == ds.value.1 && dc.value.1 == ds.value.0
                     && dc.value.2 == ds.value.3 && dc.value.3 == ds.value.2)
  {
    FirstMatchAgrees(cc.ciphers, sc.ciphers);
    FirstMatchAgrees(cc.macs, sc.macs);
    FirstMatchAgrees(cc.comps, sc.comps);
    var ce := PickCipher(true, si.cipherC2s, cc.ciphers);
    var cd := PickCipher(true, si.cipherS2c, cc.ciphers);
    assert ce == PickCipher(false, ci.cipherC2s, sc.ciphers);
    assert cd == PickCipher(false, ci.cipherS2c, sc.ciphers);
    if ce.Ok? && cd.Ok? {
      assert PickInteg(ce.value, true, si.macC2s, cc.macs) == PickInteg(ce.value, false, ci.macC2s, sc.macs);
      assert PickInteg(cd.value, true, si.macS2c, cc.macs) == PickInteg(cd.value, false, ci.macS2c, sc.macs);
    }
  }

  /** Both ends of a connection negotiate the same algorithms from the two
      KEXINIT messages: what the client transmits with, the server receives
      with, and the reverse; they fail together, with the same error. */
  lemma NegotiationAgrees(cc: AlgoConfig, sc: AlgoConfig, cookieC: seq<Byte>, cookieS: seq<Byte>,
                          gc: SharedSecret, gs: SharedSecret)
    ensures var client := AlgoNegotiation(true, MakeKexInit(cookieS, sc), cc, gc);
      var server := AlgoNegotiation(false, MakeKexInit(cookieC, cc), sc, gs);
      (client.Ok? <==> server.Ok?)
      && (client.Err? ==> server.error == client.error)
      && (client.Ok? ==>
            client.value.cipherEnc == server.value.cipherDec && client.value.cipherDec == server.value.cipherEnc
            && client.value.integEnc == server.value.integDec && client.value.integDec == server.value.integEnc
            && client.value.hostsig == server.value.hostsig
            && !client.value.discardNext && !server.value.discardNext
            && !client.value.sendExtInfo && (server.value.sendExtInfo <==> KEX_EXTINFO_C in cc.kexs))
  {
    var si, ci := MakeKexInit(cookieS, sc), MakeKexInit(cookieC, cc);
    KexPartAgrees(cc, sc, si, ci, gc, gs);
    HostsigPartAgrees(cc, sc, si, ci);
    DirectionsPartAgrees(cc, sc, si, ci);
  }

  /** With the engine's own configurations on both ends, negotiation
      succeeds: chacha20-poly1305 both ways, Ed25519 host keys, and the
      server learns that the client accepts extension negotiation. */
  lemma DefaultConfigsAgree(rsa: bool, cookieC: seq<Byte>, cookieS: seq<Byte>, gc: SharedSecret, gs: SharedSecret)
    ensures var client := AlgoNegotiation(true, MakeKexInit(cookieS, AlgoConfigNew(false, rsa)), AlgoConfigNew(true, rsa), gc);
      var server := AlgoNegotiation(false, MakeKexInit(cookieC, AlgoConfigNew(true, rsa)), AlgoConfigNew(false, rsa), gs);
      client.Ok? && server.Ok?
      && client.value.cipherEnc == ChaPoly && client.value.cipherDec == ChaPoly
      && client.value.hostsig == SigType.Ed25519
      && server.value.sendExtInfo
  {
    var cc, sc := AlgoConfigNew(true, rsa), AlgoConfigNew(false, rsa);
    NegotiationAgrees(cc, sc, cookieC, cookieS, gc, gs);
    assert FirstIn(cc.kexs, sc.kexs) == Some(KEX_CURVE25519);
    assert FirstIn(cc.hostsig, sc.hostsig) == Some(SSH_NAME_ED25519);
    assert FirstIn(cc.ciphers, sc.ciphers) == Some(SSH_NAME_CHAPOLY);
    assert FirstIn(cc.comps, sc.comps) == Some(SSH_NAME_NONE);
  }
}
