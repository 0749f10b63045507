/** Wire encoding of `Packets.Packet`: the message number byte, then the
    message's fields in declaration order. Enums that carry their variant name
    write the name first; `ChannelOpen` and `ChannelRequest` write the name of
    their type field at a fixed position instead; `Userauth60` writes no name
    and is read according to the parse context. Unknown variants are only ever
    received: writing one is an internal error. */
module PacketCodec {
  import opened Common
  import opened SshNames
  import opened Packets
  import opened Wire

  // ================= encoding =================

  function PubKeyFields(k: PubKey): Result<seq<Field>>
  {
    match k
    case Ed25519Key(key) => Ok([FText(SSH_NAME_ED25519), FBin(key)])
    case RsaKey(e, n) => Ok([FText(SSH_NAME_RSA), FBin(e), FBin(n)])
    case UnknownKey(_) => Err(Bug)
  }

  function SigFields(s: Signature): Result<seq<Field>>
  {
    match s
    case Ed25519Sig(sig) => Ok([FText(SSH_NAME_ED25519), FBin(sig)])
    case Rsa256Sig(sig) => Ok([FText(SSH_NAME_RSA_SHA256), FBin(sig)])
    case UnknownSig(_) => Err(Bug)
  }

  /** A `Blob<T>`: the encoding of `T` as one length-prefixed string. */
  function PubKeyBlob(k: PubKey): Result<Field>
  {
    var fs :- PubKeyFields(k);
    var b :- EncFields(fs);
    Ok(FBin(b))
  }

  function SigBlob(s: Signature): Result<Field>
  {
    var fs :- SigFields(s);
    var b :- EncFields(fs);
    Ok(FBin(b))
  }

  /** The hand-written `MethodPubKey` encoding: the boolean says a signature
      follows, and is forced true when building the data to be signed. */
  function MethodPubKeyFields(m: MethodPubKey, forceSigBool: bool): Result<seq<Field>>
  {
    var key :- PubKeyBlob(m.pubkey);
    var sigPart :- match m.sig {
      case None => Ok([])
      case Some(s) => var f :- SigBlob(s); Ok([f])
    };
    Ok([FBool(m.sig.Some? || forceSigBool), FText(m.sigAlgo), key] + sigPart)
  }

  function AuthMethodName(m: AuthMethod): Result<string>
  {
    match m
    case AuthPassword(_, _) => Ok(SSH_AUTHMETHOD_PASSWORD)
    case AuthPubKey(_) => Ok(SSH_AUTHMETHOD_PUBLICKEY)
    case AuthNone => Ok(SSH_NAME_NONE)
    case AuthUnknown(_) => Err(Bug)
  }

  function AuthMethodBody(m: AuthMethod, ctx: ParseContext): Result<seq<Field>>
  {
    match m
    case AuthPassword(change, password) => Ok([FBool(change), FText(password)])
    case AuthPubKey(pk) => MethodPubKeyFields(pk, ctx.methodPubkeyForceSigBool)
    case _ => Ok([])
  }

  function Userauth60Fields(u: Userauth60Msg): Result<seq<Field>>
  {
    match u
    case PkOk(algo, key) => var kb :- PubKeyBlob(key); Ok([FText(algo), kb])
    case PwChangeReq(prompt, lang) => Ok([FText(prompt), FText(lang)])
  }

  const OPEN_SESSION: string := "session"
  const OPEN_FORWARDED_TCPIP: string := "forwarded-tcpip"
  const OPEN_DIRECT_TCPIP: string := "direct-tcpip"

  function ChannelOpenName(ty: ChannelOpenType): Result<string>
  {
    match ty
    case Session => Ok(OPEN_SESSION)
    case ForwardedTcpip(_, _, _, _) => Ok(OPEN_FORWARDED_TCPIP)
    case DirectTcpip(_, _, _, _) => Ok(OPEN_DIRECT_TCPIP)
    case UnknownOpen(_) => Err(Bug)
  }

  function ChannelOpenBody(ty: ChannelOpenType): seq<Field>
  {
    match ty
    case ForwardedTcpip(a, p, o, op) => [FText(a), FU32(p), FText(o), FU32(op)]
    case DirectTcpip(a, p, o, op) => [FText(a), FU32(p), FText(o), FU32(op)]
    case _ => []
  }

  const REQ_SHELL: string := "shell"
  const REQ_EXEC: string := "exec"
  const REQ_PTY: string := "pty-req"
  const REQ_SUBSYSTEM: string := "subsystem"
  const REQ_WINDOW_CHANGE: string := "window-change"
  const REQ_SIGNAL: string := "signal"
  const REQ_EXIT_STATUS: string := "exit-status"
  const REQ_EXIT_SIGNAL: string := "exit-signal"
  const REQ_BREAK: string := "break"

  function ChannelReqName(r: ChannelReqType): Result<string>
  {
    match r
    case Shell => Ok(REQ_SHELL)
    case Exec(_) => Ok(REQ_EXEC)
    case Pty(_, _, _, _, _, _) => Ok(REQ_PTY)
    case Subsystem(_) => Ok(REQ_SUBSYSTEM)
    case WinChange(_, _, _, _) => Ok(REQ_WINDOW_CHANGE)
    case Signal(_) => Ok(REQ_SIGNAL)
    case ExitStatus(_) => Ok(REQ_EXIT_STATUS)
    case ExitSignal(_, _, _, _) => Ok(REQ_EXIT_SIGNAL)
    case Break(_) => Ok(REQ_BREAK)
    case UnknownReq(_) => Err(Bug)
  }

  function ChannelReqBody(r: ChannelReqType): seq<Field>
  {
    match r
    case Exec(c) => [FText(c)]
    case Pty(t, c, r, w, h, m) => [FText(t), FU32(c), FU32(r), FU32(w), FU32(h), FBin(m)]
    case Subsystem(s) => [FText(s)]
    case WinChange(c, r, w, h) => [FU32(c), FU32(r), FU32(w), FU32(h)]
    case Signal(s) => [FText(s)]
    case ExitStatus(s) => [FU32(s)]
    case ExitSignal(s, c, e, l) => [FText(s), FBool(c), FText(e), FText(l)]
    case Break(l) => [FU32(l)]
    case _ => []
  }

  function KexInitFields(k: KexInitMsg): seq<Field>
  {
    [FCookie(k.cookie), FNames(k.kex), FNames(k.hostsig),
     FNames(k.cipherC2s), FNames(k.cipherS2c), FNames(k.macC2s), FNames(k.macS2c),
     FNames(k.compC2s), FNames(k.compS2c), FNames(k.langC2s), FNames(k.langS2c),
     FBool(k.firstFollows), FU32(k.reserved)]
  }

  /** The fields of a message body, in the order they are written. */
  function BodyFields(p: Packet, ctx: ParseContext): Result<seq<Field>>
  {
    match p
    case Disconnect(reason, desc, lang) => Ok([FU32(reason), FText(desc), FText(lang)])
    case Ignore => Ok([])
    case Unimplemented(n) => Ok([FU32(n)])
    case DebugPacket(a, m, l) => Ok([FBool(a), FText(m), FText(l)])
    case ServiceRequest(name) => Ok([FText(name)])
    case ServiceAccept(name) => Ok([FText(name)])
    case KexInit(k) => Ok(KexInitFields(k))
    case NewKeys => Ok([])
    case KexDHInit(qc) => Ok([FBin(qc)])
    case KexDHReply(ks, qs, sig) =>
      var kb :- PubKeyBlob(ks);
      var sb :- SigBlob(sig);
      Ok([kb, FBin(qs), sb])
    case UserauthRequest(user, service, m) =>
      var name :- AuthMethodName(m);
      var body :- AuthMethodBody(m, ctx);
      Ok([FText(user), FText(service), FText(name)] + body)
    case UserauthFailure(methods, partial) => Ok([FNames(methods), FBool(partial)])
    case UserauthSuccess => Ok([])
    case UserauthBanner(m, l) => Ok([FText(m), FText(l)])
    case Userauth60(u) => Userauth60Fields(u)
    case ChannelOpen(num, iw, mp, ty) =>
      var name :- ChannelOpenName(ty);
      Ok([FText(name), FU32(num), FU32(iw), FU32(mp)] + ChannelOpenBody(ty))
    case ChannelOpenConfirmation(num, sn, iw, mp) => Ok([FU32(num), FU32(sn), FU32(iw), FU32(mp)])
    case ChannelOpenFailure(num, reason, desc, lang) => Ok([FU32(num), FU32(reason), FText(desc), FText(lang)])
    case ChannelWindowAdjust(num, adjust) => Ok([FU32(num), FU32(adjust)])
    case ChannelData(num, data) => Ok([FU32(num), FBin(data)])
    case ChannelDataExt(num, code, data) => Ok([FU32(num), FU32(code), FBin(data)])
    case ChannelEof(num) => Ok([FU32(num)])
    case ChannelClose(num) => Ok([FU32(num)])
    case ChannelRequest(num, want, req) =>
      var name :- ChannelReqName(req);
      Ok([FU32(num), FText(name), FBool(want)] + ChannelReqBody(req))
    case ChannelSuccess(num) => Ok([FU32(num)])
    case ChannelFailure(num) => Ok([FU32(num)])
  }

  /** `Packet::enc`: the message number, then the body. */
  function Encode(p: Packet, ctx: ParseContext): (r: Result<seq<Byte>>)
    ensures r.Ok? ==> |r.value| >= 1 && MessageNumberFrom(r.value[0]) == Ok(MessageNum(p))
  {
    NumberByteRoundTrip(MessageNum(p));
    var fs :- BodyFields(p, ctx);
    var b :- EncFields(fs);
    Ok([NumberByte(MessageNum(p))] + b)
  }

  // ================= decoding =================

  function DecPubKey(s: seq<Byte>): (r: Result<(PubKey, seq<Byte>)>)
    ensures r.Ok? ==> |r.value.1| < |s|
  {
    var n :- DecField(KText, s);
    var name := n.0.text;
    if name == SSH_NAME_ED25519 then
      var d :- DecFields([KBin], n.1);
      Ok((Ed25519Key(d.0[0].bin), d.1))
    else if name == SSH_NAME_RSA then
      var d :- DecFields([KBin, KBin], n.1);
      Ok((RsaKey(d.0[0].bin, d.0[1].bin), d.1))
    else
      Ok((UnknownKey(name), n.1))
  }

  function DecSignature(s: seq<Byte>): (r: Result<(Signature, seq<Byte>)>)
    ensures r.Ok? ==> |r.value.1| < |s|
  {
    var n :- DecField(KText, s);
    var name := n.0.text;
    if name == SSH_NAME_ED25519 then
      var d :- DecFields([KBin], n.1);
      Ok((Ed25519Sig(d.0[0].bin), d.1))
    else if name == SSH_NAME_RSA_SHA256 then
      var d :- DecFields([KBin], n.1);
      Ok((Rsa256Sig(d.0[0].bin), d.1))
    else
      Ok((UnknownSig(name), n.1))
  }

  /** Reads a blob and decodes the value inside it; bytes of the blob after
      that value are not looked at. */
  function DecPubKeyBlob(s: seq<Byte>): (r: Result<(PubKey, seq<Byte>)>)
    ensures r.Ok? ==> |r.value.1| < |s|
  {
    var b :- DecField(KBin, s);
    var k :- DecPubKey(b.0.bin);
    Ok((k.0, b.1))
  }

  function DecSigBlob(s: seq<Byte>): (r: Result<(Signature, seq<Byte>)>)
    ensures r.Ok? ==> |r.value.1| < |s|
  {
    var b :- DecField(KBin, s);
    var g :- DecSignature(b.0.bin);
    Ok((g.0, b.1))
  }

  /** `MethodPubKey::dec`: a signature is read exactly when the leading
      boolean is true. */
  function DecMethodPubKey(s: seq<Byte>): (r: Result<(MethodPubKey, seq<Byte>)>)
    ensures r.Ok? ==> |s| > 0 && (r.value.0.sig.Some? <==> s[0] != 0)
  {
    var d :- DecFields([KBool, KText], s);
    var k :- DecPubKeyBlob(d.1);
    if d.0[0].flag then
      var g :- DecSigBlob(k.1);
      Ok((MethodPubKey(d.0[1].text, k.0, Some(g.0)), g.1))
    else
      Ok((MethodPubKey(d.0[1].text, k.0, None), k.1))
  }

  function DecAuthMethod(name: string, s: seq<Byte>): Result<(AuthMethod, seq<Byte>)>
  {
    if name == SSH_AUTHMETHOD_PASSWORD then
      var d :- DecFields([KBool, KText], s);
      Ok((AuthPassword(d.0[0].flag, d.0[1].text), d.1))
    else if name == SSH_AUTHMETHOD_PUBLICKEY then
      var d :- DecMethodPubKey(s);
      Ok((AuthPubKey(d.0), d.1))
    else if name == SSH_NAME_NONE then Ok((AuthNone, s))
    else Ok((AuthUnknown(name), s))
  }

  /** `Userauth60::dec`: which message number 60 is depends on the method of
      the request the client has outstanding. */
  function DecUserauth60(ctx: ParseContext, s: seq<Byte>): (r: Result<(Userauth60Msg, seq<Byte>)>)
    ensures ctx.cliAuthType.None? ==> r == Err(PacketWrong)
    ensures r.Ok? && ctx.cliAuthType == Some(PasswordAuth) ==> r.value.0.PwChangeReq?
    ensures r.Ok? && ctx.cliAuthType == Some(PubKeyAuth) ==> r.value.0.PkOk?
  {
    match ctx.cliAuthType
    case Some(PasswordAuth) =>
      var d :- DecFields([KText, KText], s);
      Ok((PwChangeReq(d.0[0].text, d.0[1].text), d.1))
    case Some(PubKeyAuth) =>
      var a :- DecField(KText, s);
      var k :- DecPubKeyBlob(a.1);
      Ok((PkOk(a.0.text, k.0), k.1))
    case None => Err(PacketWrong)
  }

  function DecChannelOpenType(name: string, s: seq<Byte>): Result<(ChannelOpenType, seq<Byte>)>
  {
    if name == OPEN_SESSION then Ok((Session, s))
    else if name == OPEN_FORWARDED_TCPIP then
      var d :- DecFields([KText, KU32, KText, KU32], s);
      Ok((ForwardedTcpip(d.0[0].text, d.0[1].u, d.0[2].text, d.0[3].u), d.1))
    else if name == OPEN_DIRECT_TCPIP then
      var d :- DecFields([KText, KU32, KText, KU32], s);
      Ok((DirectTcpip(d.0[0].text, d.0[1].u, d.0[2].text, d.0[3].u), d.1))
    else Ok((UnknownOpen(name), s))
  }

  function DecChannelReq(name: string, s: seq<Byte>): Result<(ChannelReqType, seq<Byte>)>
  {
    if name == REQ_SHELL then Ok((Shell, s))
    else if name == REQ_EXEC then
      var d :- DecFields([KText], s);
      Ok((Exec(d.0[0].text), d.1))
    else if name == REQ_PTY then
      var d :- DecFields([KText, KU32, KU32, KU32, KU32, KBin], s);
      Ok((Pty(d.0[0].text, d.0[1].u, d.0[2].u, d.0[3].u, d.0[4].u, d.0[5].bin), d.1))
    else if name == REQ_SUBSYSTEM then
      var d :- DecFields([KText], s);
      Ok((Subsystem(d.0[0].text), d.1))
    else if name == REQ_WINDOW_CHANGE then
      var d :- DecFields([KU32, KU32, KU32, KU32], s);
      Ok((WinChange(d.0[0].u, d.0[1].u, d.0[2].u, d.0[3].u), d.1))
    else if name == REQ_SIGNAL then
      var d :- DecFields([KText], s);
      Ok((Signal(d.0[0].text), d.1))
    else if name == REQ_EXIT_STATUS then
      var d :- DecFields([KU32], s);
      Ok((ExitStatus(d.0[0].u), d.1))
    else if name == REQ_EXIT_SIGNAL then
      var d :- DecFields([KText, KBool, KText, KText], s);
      Ok((ExitSignal(d.0[0].text, d.0[1].flag, d.0[2].text, d.0[3].text), d.1))
    else if name == REQ_BREAK then
      var d :- DecFields([KU32], s);
      Ok((Break(d.0[0].u), d.1))
    else Ok((UnknownReq(name), s))
  }

  function DecKexInitMsg(s: seq<Byte>): Result<(KexInitMsg, seq<Byte>)>
  {
    var d :- DecFields(KEXINIT_KINDS, s);
    var f := d.0;
    Ok((KexInitMsg(f[0].cookie, f[1].names, f[2].names, f[3].names, f[4].names,
      f[5].names, f[6].names, f[7].names, f[8].names, f[9].names, f[10].names,
      f[11].flag, f[12].u), d.1))
  }

  const KEXINIT_KINDS: seq<Kind> :=
    [KCookie, KNames, KNames, KNames, KNames, KNames, KNames, KNames, KNames, KNames, KNames, KBool, KU32]

  // ---- one decoder per message body ----

  function DecDisconnectBody(s: seq<Byte>): (r: Result<(Packet, seq<Byte>)>)
    ensures r.Ok? ==> r.value.0.Disconnect? && MessageNum(r.value.0) == SSH_MSG_DISCONNECT
  {
    var d :- DecFields([KU32, KText, KText], s);
    var f := d.0;
    Ok((Disconnect(f[0].u, f[1].text, f[2].text), d.1))
  }

  function DecUnimplementedBody(s: seq<Byte>): (r: Result<(Packet, seq<Byte>)>)
    ensures r.Ok? ==> r.value.0.Unimplemented? && MessageNum(r.value.0) == SSH_MSG_UNIMPLEMENTED
  {
    var d :- DecFields([KU32], s);
    var f := d.0;
    Ok((Unimplemented(f[0].u), d.1))
  }

  function DecDebugPacketBody(s: seq<Byte>): (r: Result<(Packet, seq<Byte>)>)
    ensures r.Ok? ==> r.value.0.DebugPacket? && MessageNum(r.value.0) == SSH_MSG_DEBUG
  {
    var d :- DecFields([KBool, KText, KText], s);
    var f := d.0;
    Ok((DebugPacket(f[0].flag, f[1].text, f[2].text), d.1))
  }

  function DecServiceRequestBody(s: seq<Byte>): (r: Result<(Packet, seq<Byte>)>)
    ensures r.Ok? ==> r.value.0.ServiceRequest? && MessageNum(r.value.0) == SSH_MSG_SERVICE_REQUEST
  {
    var d :- DecFields([KText], s);
    var f := d.0;
    Ok((ServiceRequest(f[0].text), d.1))
  }

  function DecServiceAcceptBody(s: seq<Byte>): (r: Result<(Packet, seq<Byte>)>)
    ensures r.Ok? ==> r.value.0.ServiceAccept? && MessageNum(r.value.0) == SSH_MSG_SERVICE_ACCEPT
  {
    var d :- DecFields([KText], s);
    var f := d.0;
    Ok((ServiceAccept(f[0].text), d.1))
  }

  function DecKexInitBody(s: seq<Byte>): (r: Result<(Packet, seq<Byte>)>)
    ensures r.Ok? ==> r.value.0.KexInit? && MessageNum(r.value.0) == SSH_MSG_KEXINIT
  {
    var d :- DecKexInitMsg(s);
    Ok((KexInit(d.0), d.1))
  }

  function DecKexDHInitBody(s: seq<Byte>): (r: Result<(Packet, seq<Byte>)>)
    ensures r.Ok? ==> r.value.0.KexDHInit? && MessageNum(r.value.0) == SSH_MSG_KEXDH_INIT
  {
    var d :- DecFields([KBin], s);
    var f := d.0;
    Ok((KexDHInit(f[0].bin), d.1))
  }

  function DecKexDHReplyBody(s: seq<Byte>): (r: Result<(Packet, seq<Byte>)>)
    ensures r.Ok? ==> r.value.0.KexDHReply? && MessageNum(r.value.0) == SSH_MSG_KEXDH_REPLY
  {
    var k :- DecPubKeyBlob(s);
    var q :- DecField(KBin, k.1);
    var g :- DecSigBlob(q.1);
    Ok((KexDHReply(k.0, q.0.bin, g.0), g.1))
  }

  function DecUserauthRequestBody(s: seq<Byte>): (r: Result<(Packet, seq<Byte>)>)
    ensures r.Ok? ==> r.value.0.UserauthRequest? && MessageNum(r.value.0) == SSH_MSG_USERAUTH_REQUEST
  {
    var d :- DecFields([KText, KText, KText], s);
    var am :- DecAuthMethod(d.0[2].text, d.1);
    Ok((UserauthRequest(d.0[0].text, d.0[1].text, am.0), am.1))
  }

  function DecUserauthFailureBody(s: seq<Byte>): (r: Result<(Packet, seq<Byte>)>)
    ensures r.Ok? ==> r.value.0.UserauthFailure? && MessageNum(r.value.0) == SSH_MSG_USERAUTH_FAILURE
  {
    var d :- DecFields([KNames, KBool], s);
    var f := d.0;
    Ok((UserauthFailure(f[0].names, f[1].flag), d.1))
  }

  function DecUserauthBannerBody(s: seq<Byte>): (r: Result<(Packet, seq<Byte>)>)
    ensures r.Ok? ==> r.value.0.UserauthBanner? && MessageNum(r.value.0) == SSH_MSG_USERAUTH_BANNER
  {
    var d :- DecFields([KText, KText], s);
    var f := d.0;
    Ok((UserauthBanner(f[0].text, f[1].text), d.1))
  }

  function DecUserauth60Body(s: seq<Byte>, ctx: ParseContext): (r: Result<(Packet, seq<Byte>)>)
    ensures r.Ok? ==> r.value.0.Userauth60? && MessageNum(r.value.0) == SSH_MSG_USERAUTH_60
  {
    var u :- DecUserauth60(ctx, s);
    Ok((Userauth60(u.0), u.1))
  }

  function DecChannelOpenBody(s: seq<Byte>): (r: Result<(Packet, seq<Byte>)>)
    ensures r.Ok? ==> r.value.0.ChannelOpen? && MessageNum(r.value.0) == SSH_MSG_CHANNEL_OPEN
  {
    var d :- DecFields([KText, KU32, KU32, KU32], s);
    var ty :- DecChannelOpenType(d.0[0].text, d.1);
    Ok((ChannelOpen(d.0[1].u, d.0[2].u, d.0[3].u, ty.0), ty.1))
  }

  function DecChannelOpenConfirmationBody(s: seq<Byte>): (r: Result<(Packet, seq<Byte>)>)
    ensures r.Ok? ==> r.value.0.ChannelOpenConfirmation? && MessageNum(r.value.0) == SSH_MSG_CHANNEL_OPEN_CONFIRMATION
  {
    var d :- DecFields([KU32, KU32, KU32, KU32], s);
    var f := d.0;
    Ok((ChannelOpenConfirmation(f[0].u, f[1].u, f[2].u, f[3].u), d.1))
  }

  function DecChannelOpenFailureBody(s: seq<Byte>): (r: Result<(Packet, seq<Byte>)>)
    ensures r.Ok? ==> r.value.0.ChannelOpenFailure? && MessageNum(r.value.0) == SSH_MSG_CHANNEL_OPEN_FAILURE
  {
    var d :- DecFields([KU32, KU32, KText, KText], s);
    var f := d.0;
    Ok((ChannelOpenFailure(f[0].u, f[1].u, f[2].text, f[3].text), d.1))
  }

  function DecChannelWindowAdjustBody(s: seq<Byte>): (r: Result<(Packet, seq<Byte>)>)
    ensures r.Ok? ==> r.value.0.ChannelWindowAdjust? && MessageNum(r.value.0) == SSH_MSG_CHANNEL_WINDOW_ADJUST
  {
    var d :- DecFields([KU32, KU32], s);
    var f := d.0;
    Ok((ChannelWindowAdjust(f[0].u, f[1].u), d.1))
  }

  function DecChannelDataBody(s: seq<Byte>): (r: Result<(Packet, seq<Byte>)>)
    ensures r.Ok? ==> r.value.0.ChannelData? && MessageNum(r.value.0) == SSH_MSG_CHANNEL_DATA
  {
    var d :- DecFields([KU32, KBin], s);
    var f := d.0;
    Ok((ChannelData(f[0].u, f[1].bin), d.1))
  }

  function DecChannelDataExtBody(s: seq<Byte>): (r: Result<(Packet, seq<Byte>)>)
    ensures r.Ok? ==> r.value.0.ChannelDataExt? && MessageNum(r.value.0) == SSH_MSG_CHANNEL_EXTENDED_DATA
  {
    var d :- DecFields([KU32, KU32, KBin], s);
    var f := d.0;
    Ok((ChannelDataExt(f[0].u, f[1].u, f[2].bin), d.1))
  }

  function DecChannelEofBody(s: seq<Byte>): (r: Result<(Packet, seq<Byte>)>)
    ensures r.Ok? ==> r.value.0.ChannelEof? && MessageNum(r.value.0) == SSH_MSG_CHANNEL_EOF
  {
    var d :- DecFields([KU32], s);
    var f := d.0;
    Ok((ChannelEof(f[0].u), d.1))
  }

  function DecChannelCloseBody(s: seq<Byte>): (r: Result<(Packet, seq<Byte>)>)
    ensures r.Ok? ==> r.value.0.ChannelClose? && MessageNum(r.value.0) == SSH_MSG_CHANNEL_CLOSE
  {
    var d :- DecFields([KU32], s);
    var f := d.0;
    Ok((ChannelClose(f[0].u), d.1))
  }

  function DecChannelRequestBody(s: seq<Byte>): (r: Result<(Packet, seq<Byte>)>)
    ensures r.Ok? ==> r.value.0.ChannelRequest? && MessageNum(r.value.0) == SSH_MSG_CHANNEL_REQUEST
  {
    var d :- DecFields([KU32, KText, KBool], s);
    var rq :- DecChannelReq(d.0[1].text, d.1);
    Ok((ChannelRequest(d.0[0].u, d.0[2].flag, rq.0), rq.1))
  }

  function DecChannelSuccessBody(s: seq<Byte>): (r: Result<(Packet, seq<Byte>)>)
    ensures r.Ok? ==> r.value.0.ChannelSuccess? && MessageNum(r.value.0) == SSH_MSG_CHANNEL_SUCCESS
  {
    var d :- DecFields([KU32], s);
    var f := d.0;
    Ok((ChannelSuccess(f[0].u), d.1))
  }

  function DecChannelFailureBody(s: seq<Byte>): (r: Result<(Packet, seq<Byte>)>)
    ensures r.Ok? ==> r.value.0.ChannelFailure? && MessageNum(r.value.0) == SSH_MSG_CHANNEL_FAILURE
  {
    var d :- DecFields([KU32], s);
    var f := d.0;
    Ok((ChannelFailure(f[0].u), d.1))
  }

  /** The body decoder the message number selects. */
  function DecBody(m: MessageNumber, ctx: ParseContext, s: seq<Byte>): (r: Result<(Packet, seq<Byte>)>)
    ensures r.Ok? ==> MessageNum(r.value.0) == m
  {
    match m
    case SSH_MSG_DISCONNECT => DecDisconnectBody(s)
    case SSH_MSG_IGNORE => Ok((Ignore, s))
    case SSH_MSG_UNIMPLEMENTED => DecUnimplementedBody(s)
    case SSH_MSG_DEBUG => DecDebugPacketBody(s)
    case SSH_MSG_SERVICE_REQUEST => DecServiceRequestBody(s)
    case SSH_MSG_SERVICE_ACCEPT => DecServiceAcceptBody(s)
    case SSH_MSG_KEXINIT => DecKexInitBody(s)
    case SSH_MSG_NEWKEYS => Ok((NewKeys, s))
    case SSH_MSG_KEXDH_INIT => DecKexDHInitBody(s)
    case SSH_MSG_KEXDH_REPLY => DecKexDHReplyBody(s)
    case SSH_MSG_USERAUTH_REQUEST => DecUserauthRequestBody(s)
    case SSH_MSG_USERAUTH_FAILURE => DecUserauthFailureBody(s)
    case SSH_MSG_USERAUTH_SUCCESS => Ok((UserauthSuccess, s))
    case SSH_MSG_USERAUTH_BANNER => DecUserauthBannerBody(s)
    case SSH_MSG_USERAUTH_60 => DecUserauth60Body(s, ctx)
    case SSH_MSG_CHANNEL_OPEN => DecChannelOpenBody(s)
    case SSH_MSG_CHANNEL_OPEN_CONFIRMATION => DecChannelOpenConfirmationBody(s)
    case SSH_MSG_CHANNEL_OPEN_FAILURE => DecChannelOpenFailureBody(s)
    case SSH_MSG_CHANNEL_WINDOW_ADJUST => DecChannelWindowAdjustBody(s)
    case SSH_MSG_CHANNEL_DATA => DecChannelDataBody(s)
    case SSH_MSG_CHANNEL_EXTENDED_DATA => DecChannelDataExtBody(s)
    case SSH_MSG_CHANNEL_EOF => DecChannelEofBody(s)
    case SSH_MSG_CHANNEL_CLOSE => DecChannelCloseBody(s)
    case SSH_MSG_CHANNEL_REQUEST => DecChannelRequestBody(s)
    case SSH_MSG_CHANNEL_SUCCESS => DecChannelSuccessBody(s)
    case SSH_MSG_CHANNEL_FAILURE => DecChannelFailureBody(s)
  }

  /** `Packet::dec`: reads the message number first and rejects an unknown one
      before looking at the body. */
  function Decode(s: seq<Byte>, ctx: ParseContext): (r: Result<(Packet, seq<Byte>)>)
    ensures |s| == 0 ==> r == Err(RanOut)
    ensures |s| > 0 && !IsKnownNumber(s[0]) ==> r == Err(UnknownPacket(s[0]))
    ensures r.Ok? ==> |s| > 0 && NumberByte(MessageNum(r.value.0)) == s[0]
  {
    if |s| == 0 then Err(RanOut)
    else
      var m :- MessageNumberFrom(s[0]);
      DecBody(m, ctx, s[1..])
  }

  // ================= round trips =================

  /** Splitting a run of fields: its head decodes by its own kinds and leaves
      the encoding of the tail. */
  lemma DecPrefix(a: seq<Field>, b: seq<Field>, rest: seq<Byte>)
    requires EncFields(a + b).Ok?
    ensures EncFields(a).Ok? && EncFields(b).Ok?
    ensures EncFields(a + b).value + rest == EncFields(a).value + (EncFields(b).value + rest)
    ensures DecFields(KindsOf(a), EncFields(a + b).value + rest) == Ok((a, EncFields(b).value + rest))
  {
    EncFieldsAppend(a, b);
    var ea, eb := EncFields(a).value, EncFields(b).value;
    assert (ea + eb) + rest == ea + (eb + rest);
    FieldsRoundTrip(a, eb + rest);
  }

  lemma OneField(f: Field)
    ensures EncFields([f]).Ok? <==> EncField(f).Ok?
    ensures EncFields([f]).Ok? ==> EncFields([f]).value == EncField(f).value
  {
    assert [f][1..] == [];
  }

  lemma PubKeyRoundTrip(k: PubKey, rest: seq<Byte>)
    requires PubKeyFields(k).Ok? && EncFields(PubKeyFields(k).value).Ok?
    ensures DecPubKey(EncFields(PubKeyFields(k).value).value + rest) == Ok((k, rest))
  {
    var fs := PubKeyFields(k).value;
    var body := fs[1..];
    assert fs == [fs[0]] + body;
    DecPrefix([fs[0]], body, rest);
    FieldsRoundTrip(body, rest);
    match k
    case Ed25519Key(_) => assert KindsOf(body) == [KBin];
    case RsaKey(_, _) =>
      assert KindsOf(body) == [KBin, KBin];
      assert SSH_NAME_RSA != SSH_NAME_ED25519;
  }

  lemma SignatureRoundTrip(g: Signature, rest: seq<Byte>)
    requires SigFields(g).Ok? && EncFields(SigFields(g).value).Ok?
    ensures DecSignature(EncFields(SigFields(g).value).value + rest) == Ok((g, rest))
  {
    var fs := SigFields(g).value;
    var body := fs[1..];
    assert fs == [fs[0]] + body;
    DecPrefix([fs[0]], body, rest);
    FieldsRoundTrip(body, rest);
    assert KindsOf(body) == [KBin];
    assert SSH_NAME_RSA_SHA256 != SSH_NAME_ED25519;
  }

  /** A key blob reads back as the key, whatever follows it. */
  lemma PubKeyBlobRoundTrip(k: PubKey, rest: seq<Byte>)
    requires PubKeyBlob(k).Ok? && EncField(PubKeyBlob(k).value).Ok?
    ensures DecPubKeyBlob(EncField(PubKeyBlob(k).value).value + rest) == Ok((k, rest))
  {
    var b := PubKeyBlob(k).value.bin;
    FieldRoundTrip(FBin(b), rest);
    PubKeyRoundTrip(k, []);
    assert b + [] == b;
  }

  lemma SigBlobRoundTrip(g: Signature, rest: seq<Byte>)
    requires SigBlob(g).Ok? && EncField(SigBlob(g).value).Ok?
    ensures DecSigBlob(EncField(SigBlob(g).value).value + rest) == Ok((g, rest))
  {
    var b := SigBlob(g).value.bin;
    FieldRoundTrip(FBin(b), rest);
    SignatureRoundTrip(g, []);
    assert b + [] == b;
  }

  /** RFC 4252 section 7: the `publickey` method body reads back as written,
      with or without a signature, as long as the boolean was not forced. */
  lemma MethodPubKeyRoundTrip(m: MethodPubKey, force: bool, rest: seq<Byte>)
    requires MethodPubKeyFields(m, force).Ok? && EncFields(MethodPubKeyFields(m, force).value).Ok?
    requires m.sig.Some? || !force
    ensures DecMethodPubKey(EncFields(MethodPubKeyFields(m, force).value).value + rest) == Ok((m, rest))
  {
    var fs := MethodPubKeyFields(m, force).value;
    var head, key, sigPart := fs[..2], fs[2], fs[3..];
    assert fs == head + ([key] + sigPart);
    DecPrefix(head, [key] + sigPart, rest);
    DecPrefix([key], sigPart, rest);
    OneField(key);
    var tail := EncFields(sigPart).value + rest;
    assert KindsOf(head) == [KBool, KText];
    var d := DecFields([KBool, KText], EncFields(fs).value + rest);
    assert d == Ok((head, EncField(key).value + tail));
    PubKeyBlobRoundTrip(m.pubkey, tail);
    MethodPubKeySigTail(m, sigPart, rest);
  }

  lemma MethodPubKeySigTail(m: MethodPubKey, sigPart: seq<Field>, rest: seq<Byte>)
    requires m.sig.None? ==> sigPart == []
    requires m.sig.Some? ==> SigBlob(m.sig.value).Ok? && sigPart == [SigBlob(m.sig.value).value]
    requires EncFields(sigPart).Ok?
    ensures m.sig.None? ==> EncFields(sigPart).value + rest == rest
    ensures m.sig.Some? ==> DecSigBlob(EncFields(sigPart).value + rest) == Ok((m.sig.value, rest))
  {
    if m.sig.Some? {
      OneField(sigPart[0]);
      SigBlobRoundTrip(m.sig.value, rest);
    }
  }

  /** The boolean of the `publickey` method is its first byte: 1 exactly when
      a signature follows or the caller forces it. */
  lemma MethodPubKeyFlag(m: MethodPubKey, force: bool)
    requires MethodPubKeyFields(m, force).Ok? && EncFields(MethodPubKeyFields(m, force).value).Ok?
    ensures var b := EncFields(MethodPubKeyFields(m, force).value).value;
      |b| > 0 && (b[0] == 1 <==> m.sig.Some? || force) && (b[0] == 0 <==> !(m.sig.Some? || force))
  {
    var fs := MethodPubKeyFields(m, force).value;
    DecPrefix([fs[0]], fs[1..], []);
    assert fs == [fs[0]] + fs[1..];
  }

  /** The data a client signs (RFC 4252 section 7) is the unsigned request with
      the boolean forced true; appending the signature blob to it gives exactly
      the signed request that is sent. */
  lemma ForcedBoolIsSignedPrefix(algo: string, key: PubKey, sig: Signature, force: bool)
    requires MethodPubKeyFields(MethodPubKey(algo, key, Some(sig)), force).Ok?
    ensures MethodPubKeyFields(MethodPubKey(algo, key, None), true).Ok?
    ensures var signed := MethodPubKeyFields(MethodPubKey(algo, key, Some(sig)), force).value;
      var unsigned := MethodPubKeyFields(MethodPubKey(algo, key, None), true).value;
      signed == unsigned + [SigBlob(sig).value]
  {
  }

  lemma AuthMethodRoundTrip(m: AuthMethod, ctx: ParseContext, rest: seq<Byte>)
    requires AuthMethodName(m).Ok? && AuthMethodBody(m, ctx).Ok?
    requires EncFields(AuthMethodBody(m, ctx).value).Ok?
    requires m.AuthPubKey? && m.pk.sig.None? ==> !ctx.methodPubkeyForceSigBool
    ensures DecAuthMethod(AuthMethodName(m).value, EncFields(AuthMethodBody(m, ctx).value).value + rest)
      == Ok((m, rest))
  {
    var body := AuthMethodBody(m, ctx).value;
    match m
    case AuthPassword(_, _) =>
      FieldsRoundTrip(body, rest);
      assert KindsOf(body) == [KBool, KText];
    case AuthPubKey(pk) =>
      MethodPubKeyRoundTrip(pk, ctx.methodPubkeyForceSigBool, rest);
    case AuthNone =>
      assert body == [];
      assert EncFields(body).value == [];
      assert EncFields(body).value + rest == rest;
  }

  lemma ChannelOpenTypeRoundTrip(ty: ChannelOpenType, rest: seq<Byte>)
    requires ChannelOpenName(ty).Ok? && EncFields(ChannelOpenBody(ty)).Ok?
    ensures DecChannelOpenType(ChannelOpenName(ty).value, EncFields(ChannelOpenBody(ty)).value + rest)
      == Ok((ty, rest))
  {
    var body := ChannelOpenBody(ty);
    FieldsRoundTrip(body, rest);
    match ty
    case Session => assert EncFields(body).value == [];
    case ForwardedTcpip(_, _, _, _) => assert KindsOf(body) == [KText, KU32, KText, KU32];
    case DirectTcpip(_, _, _, _) => assert KindsOf(body) == [KText, KU32, KText, KU32];
  }

  lemma ChannelReqRoundTrip(rq: ChannelReqType, rest: seq<Byte>)
    requires ChannelReqName(rq).Ok? && EncFields(ChannelReqBody(rq)).Ok?
    ensures DecChannelReq(ChannelReqName(rq).value, EncFields(ChannelReqBody(rq)).value + rest)
      == Ok((rq, rest))
  {
    var body := ChannelReqBody(rq);
    FieldsRoundTrip(body, rest);
    if rq.Shell? {
      assert EncFields(body).value == [];
    } else if rq.Exec? || rq.Subsystem? || rq.Signal? {
      assert KindsOf(body) == [KText];
    } else if rq.ExitStatus? || rq.Break? {
      assert KindsOf(body) == [KU32];
    } else {
      ChannelReqWideRoundTrip(rq, rest);
    }
  }

  lemma ChannelReqWideRoundTrip(rq: ChannelReqType, rest: seq<Byte>)
    requires rq.Pty? || rq.WinChange? || rq.ExitSignal?
    requires ChannelReqName(rq).Ok? && EncFields(ChannelReqBody(rq)).Ok?
    ensures DecChannelReq(ChannelReqName(rq).value, EncFields(ChannelReqBody(rq)).value + rest)
      == Ok((rq, rest))
  {
    if rq.Pty? {
      PtyRoundTrip(rq, rest);
    } else if rq.WinChange? {
      WinChangeRoundTrip(rq, rest);
    } else {
      ExitSignalRoundTrip(rq, rest);
    }
  }

  lemma PtyRoundTrip(rq: ChannelReqType, rest: seq<Byte>)
    requires rq.Pty? && EncFields(ChannelReqBody(rq)).Ok?
    ensures DecChannelReq(ChannelReqName(rq).value, EncFields(ChannelReqBody(rq)).value + rest)
      == Ok((rq, rest))
  {
    var body := ChannelReqBody(rq);
    FieldsRoundTrip(body, rest);
    assert KindsOf(body) == [KText, KU32, KU32, KU32, KU32, KBin];
  }

  lemma WinChangeRoundTrip(rq: ChannelReqType, rest: seq<Byte>)
    requires rq.WinChange? && EncFields(ChannelReqBody(rq)).Ok?
    ensures DecChannelReq(ChannelReqName(rq).value, EncFields(ChannelReqBody(rq)).value + rest)
      == Ok((rq, rest))
  {
    var body := ChannelReqBody(rq);
    FieldsRoundTrip(body, rest);
    assert KindsOf(body) == [KU32, KU32, KU32, KU32];
  }

  lemma ExitSignalRoundTrip(rq: ChannelReqType, rest: seq<Byte>)
    requires rq.ExitSignal? && EncFields(ChannelReqBody(rq)).Ok?
    ensures DecChannelReq(ChannelReqName(rq).value, EncFields(ChannelReqBody(rq)).value + rest)
      == Ok((rq, rest))
  {
    var body := ChannelReqBody(rq);
    FieldsRoundTrip(body, rest);
    assert KindsOf(body) == [KText, KBool, KText, KText];
  }

  /** The first field of a run reads back by its own kind. */
  lemma HeadField(f: Field, fs: seq<Field>, rest: seq<Byte>)
    requires EncFields([f] + fs).Ok?
    ensures EncField(f).Ok? && EncFields(fs).Ok?
    ensures EncFields([f] + fs).value + rest == EncField(f).value + (EncFields(fs).value + rest)
    ensures DecField(KindOf(f), EncFields([f] + fs).value + rest) == Ok((f, EncFields(fs).value + rest))
  {
    assert ([f] + fs)[0] == f && ([f] + fs)[1..] == fs;
    var ea, eb := EncField(f).value, EncFields(fs).value;
    assert (ea + eb) + rest == ea + (eb + rest);
    FieldRoundTrip(f, eb + rest);
  }

  lemma KexInitRoundTrip(k: KexInitMsg, rest: seq<Byte>)
    requires EncFields(KexInitFields(k)).Ok?
    ensures DecKexInitMsg(EncFields(KexInitFields(k)).value + rest) == Ok((k, rest))
  {
    var fs := KexInitFields(k);
    FieldsRoundTrip(fs, rest);
    assert KindsOf(fs) == KEXINIT_KINDS;
  }

  /** The `Userauth60` reply reads back as written when the parse context
      names the authentication method whose reply it is. */
  lemma Userauth60RoundTrip(u: Userauth60Msg, ctx: ParseContext, rest: seq<Byte>)
    requires Userauth60Fields(u).Ok? && EncFields(Userauth60Fields(u).value).Ok?
    requires u.PkOk? ==> ctx.cliAuthType == Some(PubKeyAuth)
    requires u.PwChangeReq? ==> ctx.cliAuthType == Some(PasswordAuth)
    ensures DecUserauth60(ctx, EncFields(Userauth60Fields(u).value).value + rest) == Ok((u, rest))
  {
    var fs := Userauth60Fields(u).value;
    match u
    case PkOk(algo, key) =>
      var kb := fs[1];
      assert fs == [FText(algo)] + [kb];
      HeadField(FText(algo), [kb], rest);
      OneField(kb);
      PubKeyBlobRoundTrip(key, rest);
    case PwChangeReq(_, _) =>
      FieldsRoundTrip(fs, rest);
      assert KindsOf(fs) == [KText, KText];
  }

  /** What the decoder has to be told to read a packet back: the pending
      authentication method for a `Userauth60` reply, and that a signature
      boolean was not forced on an unsigned `publickey` request. */
  predicate ContextFits(p: Packet, ctx: ParseContext)
  {
    match p
    case Userauth60(PkOk(_, _)) => ctx.cliAuthType == Some(PubKeyAuth)
    case Userauth60(PwChangeReq(_, _)) => ctx.cliAuthType == Some(PasswordAuth)
    case UserauthRequest(_, _, AuthPubKey(pk)) => pk.sig.Some? || !ctx.methodPubkeyForceSigBool
    case _ => true
  }

  /** Round trip of one message whose body is a plain run of fields. */
  lemma DisconnectRoundTrip(p: Packet, ctx: ParseContext, rest: seq<Byte>)
    requires p.Disconnect? && EncFields(BodyFields(p, ctx).value).Ok?
    ensures DecBody(MessageNum(p), ctx, EncFields(BodyFields(p, ctx).value).value + rest) == Ok((p, rest))
  {
    var fs := [FU32(p.reason), FText(p.desc), FText(p.lang)];
    assert BodyFields(p, ctx) == Ok(fs);
    FieldsRoundTrip(fs, rest);
    assert KindsOf(fs) == [KU32, KText, KText];
  }

  lemma IgnoreRoundTrip(p: Packet, ctx: ParseContext, rest: seq<Byte>)
    requires p.Ignore? && EncFields(BodyFields(p, ctx).value).Ok?
    ensures DecBody(MessageNum(p), ctx, EncFields(BodyFields(p, ctx).value).value + rest) == Ok((p, rest))
  {
    assert BodyFields(p, ctx) == Ok([]);
    assert EncFields([]).value + rest == rest;
  }

  lemma UnimplementedRoundTrip(p: Packet, ctx: ParseContext, rest: seq<Byte>)
    requires p.Unimplemented? && EncFields(BodyFields(p, ctx).value).Ok?
    ensures DecBody(MessageNum(p), ctx, EncFields(BodyFields(p, ctx).value).value + rest) == Ok((p, rest))
  {
    var fs := [FU32(p.seqNo)];
    assert BodyFields(p, ctx) == Ok(fs);
    FieldsRoundTrip(fs, rest);
    assert KindsOf(fs) == [KU32];
  }

  lemma DebugPacketRoundTrip(p: Packet, ctx: ParseContext, rest: seq<Byte>)
    requires p.DebugPacket? && EncFields(BodyFields(p, ctx).value).Ok?
    ensures DecBody(MessageNum(p), ctx, EncFields(BodyFields(p, ctx).value).value + rest) == Ok((p, rest))
  {
    var fs := [FBool(p.alwaysDisplay), FText(p.message), FText(p.lang)];
    assert BodyFields(p, ctx) == Ok(fs);
    FieldsRoundTrip(fs, rest);
    assert KindsOf(fs) == [KBool, KText, KText];
  }

  lemma ServiceRequestRoundTrip(p: Packet, ctx: ParseContext, rest: seq<Byte>)
    requires p.ServiceRequest? && EncFields(BodyFields(p, ctx).value).Ok?
    ensures DecBody(MessageNum(p), ctx, EncFields(BodyFields(p, ctx).value).value + rest) == Ok((p, rest))
  {
    var fs := [FText(p.name)];
    assert BodyFields(p, ctx) == Ok(fs);
    FieldsRoundTrip(fs, rest);
    assert KindsOf(fs) == [KText];
  }

  lemma ServiceAcceptRoundTrip(p: Packet, ctx: ParseContext, rest: seq<Byte>)
    requires p.ServiceAccept? && EncFields(BodyFields(p, ctx).value).Ok?
    ensures DecBody(MessageNum(p), ctx, EncFields(BodyFields(p, ctx).value).value + rest) == Ok((p, rest))
  {
    var fs := [FText(p.name)];
    assert BodyFields(p, ctx) == Ok(fs);
    FieldsRoundTrip(fs, rest);
    assert KindsOf(fs) == [KText];
  }

  lemma NewKeysRoundTrip(p: Packet, ctx: ParseContext, rest: seq<Byte>)
    requires p.NewKeys? && EncFields(BodyFields(p, ctx).value).Ok?
    ensures DecBody(MessageNum(p), ctx, EncFields(BodyFields(p, ctx).value).value + rest) == Ok((p, rest))
  {
    assert BodyFields(p, ctx) == Ok([]);
    assert EncFields([]).value + rest == rest;
  }

  lemma KexDHInitRoundTrip(p: Packet, ctx: ParseContext, rest: seq<Byte>)
    requires p.KexDHInit? && EncFields(BodyFields(p, ctx).value).Ok?
    ensures DecBody(MessageNum(p), ctx, EncFields(BodyFields(p, ctx).value).value + rest) == Ok((p, rest))
  {
    var fs := [FBin(p.qc)];
    assert BodyFields(p, ctx) == Ok(fs);
    FieldsRoundTrip(fs, rest);
    assert KindsOf(fs) == [KBin];
  }

  lemma UserauthFailureRoundTrip(p: Packet, ctx: ParseContext, rest: seq<Byte>)
    requires p.UserauthFailure? && EncFields(BodyFields(p, ctx).value).Ok?
    ensures DecBody(MessageNum(p), ctx, EncFields(BodyFields(p, ctx).value).value + rest) == Ok((p, rest))
  {
    var fs := [FNames(p.methods), FBool(p.partial)];
    assert BodyFields(p, ctx) == Ok(fs);
    FieldsRoundTrip(fs, rest);
    assert KindsOf(fs) == [KNames, KBool];
  }

  lemma UserauthSuccessRoundTrip(p: Packet, ctx: ParseContext, rest: seq<Byte>)
    requires p.UserauthSuccess? && EncFields(BodyFields(p, ctx).value).Ok?
    ensures DecBody(MessageNum(p), ctx, EncFields(BodyFields(p, ctx).value).value + rest) == Ok((p, rest))
  {
    assert BodyFields(p, ctx) == Ok([]);
    assert EncFields([]).value + rest == rest;
  }

  lemma UserauthBannerRoundTrip(p: Packet, ctx: ParseContext, rest: seq<Byte>)
    requires p.UserauthBanner? && EncFields(BodyFields(p, ctx).value).Ok?
    ensures DecBody(MessageNum(p), ctx, EncFields(BodyFields(p, ctx).value).value + rest) == Ok((p, rest))
  {
    var fs := [FText(p.message), FText(p.lang)];
    assert BodyFields(p, ctx) == Ok(fs);
    FieldsRoundTrip(fs, rest);
    assert KindsOf(fs) == [KText, KText];
  }

  lemma ChannelOpenConfirmationRoundTrip(p: Packet, ctx: ParseContext, rest: seq<Byte>)
    requires p.ChannelOpenConfirmation? && EncFields(BodyFields(p, ctx).value).Ok?
    ensures DecBody(MessageNum(p), ctx, EncFields(BodyFields(p, ctx).value).value + rest) == Ok((p, rest))
  {
    var fs := [FU32(p.num), FU32(p.senderNum), FU32(p.initialWindow), FU32(p.maxPacket)];
    assert BodyFields(p, ctx) == Ok(fs);
    FieldsRoundTrip(fs, rest);
    assert KindsOf(fs) == [KU32, KU32, KU32, KU32];
  }

  lemma ChannelOpenFailureRoundTrip(p: Packet, ctx: ParseContext, rest: seq<Byte>)
    requires p.ChannelOpenFailure? && EncFields(BodyFields(p, ctx).value).Ok?
    ensures DecBody(MessageNum(p), ctx, EncFields(BodyFields(p, ctx).value).value + rest) == Ok((p, rest))
  {
    var fs := [FU32(p.num), FU32(p.reason), FText(p.desc), FText(p.lang)];
    assert BodyFields(p, ctx) == Ok(fs);
    FieldsRoundTrip(fs, rest);
    assert KindsOf(fs) == [KU32, KU32, KText, KText];
  }

  lemma ChannelWindowAdjustRoundTrip(p: Packet, ctx: ParseContext, rest: seq<Byte>)
    requires p.ChannelWindowAdjust? && EncFields(BodyFields(p, ctx).value).Ok?
    ensures DecBody(MessageNum(p), ctx, EncFields(BodyFields(p, ctx).value).value + rest) == Ok((p, rest))
  {
    var fs := [FU32(p.num), FU32(p.adjust)];
    assert BodyFields(p, ctx) == Ok(fs);
    FieldsRoundTrip(fs, rest);
    assert KindsOf(fs) == [KU32, KU32];
  }

  lemma ChannelDataRoundTrip(p: Packet, ctx: ParseContext, rest: seq<Byte>)
    requires p.ChannelData? && EncFields(BodyFields(p, ctx).value).Ok?
    ensures DecBody(MessageNum(p), ctx, EncFields(BodyFields(p, ctx).value).value + rest) == Ok((p, rest))
  {
    var fs := [FU32(p.num), FBin(p.data)];
    assert BodyFields(p, ctx) == Ok(fs);
    FieldsRoundTrip(fs, rest);
    assert KindsOf(fs) == [KU32, KBin];
  }

  lemma ChannelDataExtRoundTrip(p: Packet, ctx: ParseContext, rest: seq<Byte>)
    requires p.ChannelDataExt? && EncFields(BodyFields(p, ctx).value).Ok?
    ensures DecBody(MessageNum(p), ctx, EncFields(BodyFields(p, ctx).value).value + rest) == Ok((p, rest))
  {
    var fs := [FU32(p.num), FU32(p.code), FBin(p.data)];
    assert BodyFields(p, ctx) == Ok(fs);
    FieldsRoundTrip(fs, rest);
    assert KindsOf(fs) == [KU32, KU32, KBin];
  }

  lemma ChannelEofRoundTrip(p: Packet, ctx: ParseContext, rest: seq<Byte>)
    requires p.ChannelEof? && EncFields(BodyFields(p, ctx).value).Ok?
    ensures DecBody(MessageNum(p), ctx, EncFields(BodyFields(p, ctx).value).value + rest) == Ok((p, rest))
  {
    var fs := [FU32(p.num)];
    assert BodyFields(p, ctx) == Ok(fs);
    FieldsRoundTrip(fs, rest);
    assert KindsOf(fs) == [KU32];
  }

  lemma ChannelCloseRoundTrip(p: Packet, ctx: ParseContext, rest: seq<Byte>)
    requires p.ChannelClose? && EncFields(BodyFields(p, ctx).value).Ok?
    ensures DecBody(MessageNum(p), ctx, EncFields(BodyFields(p, ctx).value).value + rest) == Ok((p, rest))
  {
    var fs := [FU32(p.num)];
    assert BodyFields(p, ctx) == Ok(fs);
    FieldsRoundTrip(fs, rest);
    assert KindsOf(fs) == [KU32];
  }

  lemma ChannelSuccessRoundTrip(p: Packet, ctx: ParseContext, rest: seq<Byte>)
    requires p.ChannelSuccess? && EncFields(BodyFields(p, ctx).value).Ok?
    ensures DecBody(MessageNum(p), ctx, EncFields(BodyFields(p, ctx).value).value + rest) == Ok((p, rest))
  {
    var fs := [FU32(p.num)];
    assert BodyFields(p, ctx) == Ok(fs);
    FieldsRoundTrip(fs, rest);
    assert KindsOf(fs) == [KU32];
  }

  lemma ChannelFailureRoundTrip(p: Packet, ctx: ParseContext, rest: seq<Byte>)
    requires p.ChannelFailure? && EncFields(BodyFields(p, ctx).value).Ok?
    ensures DecBody(MessageNum(p), ctx, EncFields(BodyFields(p, ctx).value).value + rest) == Ok((p, rest))
  {
    var fs := [FU32(p.num)];
    assert BodyFields(p, ctx) == Ok(fs);
    FieldsRoundTrip(fs, rest);
    assert KindsOf(fs) == [KU32];
  }

  lemma KexDHReplyRoundTrip(ks: PubKey, qs: seq<Byte>, sig: Signature, ctx: ParseContext, rest: seq<Byte>)
    requires BodyFields(KexDHReply(ks, qs, sig), ctx).Ok?
    requires EncFields(BodyFields(KexDHReply(ks, qs, sig), ctx).value).Ok?
    ensures DecKexDHReplyBody(EncFields(BodyFields(KexDHReply(ks, qs, sig), ctx).value).value + rest)
      == Ok((KexDHReply(ks, qs, sig), rest))
  {
    var fs := BodyFields(KexDHReply(ks, qs, sig), ctx).value;
    var kb, sb := fs[0], fs[2];
    assert fs == [kb] + ([FBin(qs)] + [sb]);
    HeadField(kb, [FBin(qs)] + [sb], rest);
    HeadField(FBin(qs), [sb], rest);
    OneField(kb);
    OneField(sb);
    var tail := EncFields([sb]).value + rest;
    PubKeyBlobRoundTrip(ks, EncFields([FBin(qs)] + [sb]).value + rest);
    SigBlobRoundTrip(sig, rest);
  }

  lemma UserauthRequestRoundTrip(user: string, service: string, m: AuthMethod, ctx: ParseContext,
                                 rest: seq<Byte>)
    requires BodyFields(UserauthRequest(user, service, m), ctx).Ok?
    requires EncFields(BodyFields(UserauthRequest(user, service, m), ctx).value).Ok?
    requires ContextFits(UserauthRequest(user, service, m), ctx)
    ensures DecUserauthRequestBody(EncFields(BodyFields(UserauthRequest(user, service, m), ctx).value).value + rest)
      == Ok((UserauthRequest(user, service, m), rest))
  {
    var name := AuthMethodName(m).value;
    var body := AuthMethodBody(m, ctx).value;
    var head := [FText(user), FText(service), FText(name)];
    DecPrefix(head, body, rest);
    assert KindsOf(head) == [KText, KText, KText];
    AuthMethodRoundTrip(m, ctx, rest);
  }

  lemma ChannelOpenRoundTrip(num: U32, iw: U32, mp: U32, ty: ChannelOpenType, ctx: ParseContext,
                             rest: seq<Byte>)
    requires BodyFields(ChannelOpen(num, iw, mp, ty), ctx).Ok?
    requires EncFields(BodyFields(ChannelOpen(num, iw, mp, ty), ctx).value).Ok?
    ensures DecChannelOpenBody(EncFields(BodyFields(ChannelOpen(num, iw, mp, ty), ctx).value).value + rest)
      == Ok((ChannelOpen(num, iw, mp, ty), rest))
  {
    var name := ChannelOpenName(ty).value;
    var head := [FText(name), FU32(num), FU32(iw), FU32(mp)];
    DecPrefix(head, ChannelOpenBody(ty), rest);
    assert KindsOf(head) == [KText, KU32, KU32, KU32];
    ChannelOpenTypeRoundTrip(ty, rest);
  }

  lemma ChannelRequestRoundTrip(num: U32, want: bool, rq: ChannelReqType, ctx: ParseContext,
                                rest: seq<Byte>)
    requires BodyFields(ChannelRequest(num, want, rq), ctx).Ok?
    requires EncFields(BodyFields(ChannelRequest(num, want, rq), ctx).value).Ok?
    ensures DecChannelRequestBody(EncFields(BodyFields(ChannelRequest(num, want, rq), ctx).value).value + rest)
      == Ok((ChannelRequest(num, want, rq), rest))
  {
    var name := ChannelReqName(rq).value;
    var head := [FU32(num), FText(name), FBool(want)];
    DecPrefix(head, ChannelReqBody(rq), rest);
    assert KindsOf(head) == [KU32, KText, KBool];
    ChannelReqRoundTrip(rq, rest);
  }

  /** The structured messages, restated for the body dispatcher. */
  lemma KexInitBodyRoundTrip(p: Packet, ctx: ParseContext, rest: seq<Byte>)
    requires p.KexInit? && BodyFields(p, ctx).Ok? && EncFields(BodyFields(p, ctx).value).Ok?
    requires ContextFits(p, ctx)
    ensures DecBody(MessageNum(p), ctx, EncFields(BodyFields(p, ctx).value).value + rest) == Ok((p, rest))
  {
    KexInitRoundTrip(p.kexinit, rest);
  }

  lemma KexDHReplyBodyRoundTrip(p: Packet, ctx: ParseContext, rest: seq<Byte>)
    requires p.KexDHReply? && BodyFields(p, ctx).Ok? && EncFields(BodyFields(p, ctx).value).Ok?
    requires ContextFits(p, ctx)
    ensures DecBody(MessageNum(p), ctx, EncFields(BodyFields(p, ctx).value).value + rest) == Ok((p, rest))
  {
    KexDHReplyRoundTrip(p.ks, p.qs, p.hostSig, ctx, rest);
  }

  lemma UserauthRequestBodyRoundTrip(p: Packet, ctx: ParseContext, rest: seq<Byte>)
    requires p.UserauthRequest? && BodyFields(p, ctx).Ok? && EncFields(BodyFields(p, ctx).value).Ok?
    requires ContextFits(p, ctx)
    ensures DecBody(MessageNum(p), ctx, EncFields(BodyFields(p, ctx).value).value + rest) == Ok((p, rest))
  {
    UserauthRequestRoundTrip(p.username, p.service, p.authMethod, ctx, rest);
  }

  lemma Userauth60BodyRoundTrip(p: Packet, ctx: ParseContext, rest: seq<Byte>)
    requires p.Userauth60? && BodyFields(p, ctx).Ok? && EncFields(BodyFields(p, ctx).value).Ok?
    requires ContextFits(p, ctx)
    ensures DecBody(MessageNum(p), ctx, EncFields(BodyFields(p, ctx).value).value + rest) == Ok((p, rest))
  {
    Userauth60RoundTrip(p.u60, ctx, rest);
  }

  lemma ChannelOpenBodyRoundTrip(p: Packet, ctx: ParseContext, rest: seq<Byte>)
    requires p.ChannelOpen? && BodyFields(p, ctx).Ok? && EncFields(BodyFields(p, ctx).value).Ok?
    requires ContextFits(p, ctx)
    ensures DecBody(MessageNum(p), ctx, EncFields(BodyFields(p, ctx).value).value + rest) == Ok((p, rest))
  {
    ChannelOpenRoundTrip(p.num, p.initialWindow, p.maxPacket, p.ty, ctx, rest);
  }

  lemma ChannelRequestBodyRoundTrip(p: Packet, ctx: ParseContext, rest: seq<Byte>)
    requires p.ChannelRequest? && BodyFields(p, ctx).Ok? && EncFields(BodyFields(p, ctx).value).Ok?
    requires ContextFits(p, ctx)
    ensures DecBody(MessageNum(p), ctx, EncFields(BodyFields(p, ctx).value).value + rest) == Ok((p, rest))
  {
    ChannelRequestRoundTrip(p.num, p.wantReply, p.req, ctx, rest);
  }

  /** Every packet body reads back as written, whatever bytes follow it. */
  lemma BodyRoundTrip(p: Packet, ctx: ParseContext, rest: seq<Byte>)
    requires BodyFields(p, ctx).Ok? && EncFields(BodyFields(p, ctx).value).Ok?
    requires ContextFits(p, ctx)
    ensures DecBody(MessageNum(p), ctx, EncFields(BodyFields(p, ctx).value).value + rest) == Ok((p, rest))
  {
    match p
    case KexInit(_) => KexInitBodyRoundTrip(p, ctx, rest);
    case KexDHReply(_, _, _) => KexDHReplyBodyRoundTrip(p, ctx, rest);
    case UserauthRequest(_, _, _) => UserauthRequestBodyRoundTrip(p, ctx, rest);
    case Userauth60(_) => Userauth60BodyRoundTrip(p, ctx, rest);
    case ChannelOpen(_, _, _, _) => ChannelOpenBodyRoundTrip(p, ctx, rest);
    case ChannelRequest(_, _, _) => ChannelRequestBodyRoundTrip(p, ctx, rest);
    case Disconnect(_, _, _) => DisconnectRoundTrip(p, ctx, rest);
    case Ignore => IgnoreRoundTrip(p, ctx, rest);
    case Unimplemented(_) => UnimplementedRoundTrip(p, ctx, rest);
    case DebugPacket(_, _, _) => DebugPacketRoundTrip(p, ctx, rest);
    case ServiceRequest(_) => ServiceRequestRoundTrip(p, ctx, rest);
    case ServiceAccept(_) => ServiceAcceptRoundTrip(p, ctx, rest);
    case NewKeys => NewKeysRoundTrip(p, ctx, rest);
    case KexDHInit(_) => KexDHInitRoundTrip(p, ctx, rest);
    case UserauthFailure(_, _) => UserauthFailureRoundTrip(p, ctx, rest);
    case UserauthSuccess => UserauthSuccessRoundTrip(p, ctx, rest);
    case UserauthBanner(_, _) => UserauthBannerRoundTrip(p, ctx, rest);
    case ChannelOpenConfirmation(_, _, _, _) => ChannelOpenConfirmationRoundTrip(p, ctx, rest);
    case ChannelOpenFailure(_, _, _, _) => ChannelOpenFailureRoundTrip(p, ctx, rest);
    case ChannelWindowAdjust(_, _) => ChannelWindowAdjustRoundTrip(p, ctx, rest);
    case ChannelData(_, _) => ChannelDataRoundTrip(p, ctx, rest);
    case ChannelDataExt(_, _, _) => ChannelDataExtRoundTrip(p, ctx, rest);
    case ChannelEof(_) => ChannelEofRoundTrip(p, ctx, rest);
    case ChannelClose(_) => ChannelCloseRoundTrip(p, ctx, rest);
    case ChannelSuccess(_) => ChannelSuccessRoundTrip(p, ctx, rest);
    case ChannelFailure(_) => ChannelFailureRoundTrip(p, ctx, rest);
  }

  /** `Packet::dec` inverts `Packet::enc`: a packet that could be written reads
      back as the same packet, and the bytes after it are left untouched. */
  lemma EncodeDecode(p: Packet, ctx: ParseContext, rest: seq<Byte>)
    requires Encode(p, ctx).Ok? && ContextFits(p, ctx)
    ensures Decode(Encode(p, ctx).value + rest, ctx) == Ok((p, rest))
  {
    var b := Encode(p, ctx).value + rest;
    var body := EncFields(BodyFields(p, ctx).value).value;
    assert b == [NumberByte(MessageNum(p))] + (body + rest);
    NumberByteRoundTrip(MessageNum(p));
    BodyRoundTrip(p, ctx, rest);
    assert b[1..] == body + rest;
  }

  // ================= raw data position =================

  /** `ChannelData::data_offset` and `ChannelDataExt::data_offset`: where the
      raw channel data starts in an encoded payload, so that it can be copied
      in and out without a second encoding pass. */
  function DataOffset(p: Packet): nat
    requires p.ChannelData? || p.ChannelDataExt?
  {
    if p.ChannelData? then 9 else 13
  }

  /** The offset is right: after it comes exactly the channel data. */
  lemma DataOffsetLocatesData(p: Packet, ctx: ParseContext)
    requires p.ChannelData? || p.ChannelDataExt?
    requires Encode(p, ctx).Ok?
    ensures |Encode(p, ctx).value| == DataOffset(p) + |p.data|
    ensures Encode(p, ctx).value[DataOffset(p)..] == p.data
  {
    var fs := BodyFields(p, ctx).value;
    var body := EncFields(fs).value;
    assert Encode(p, ctx).value == [NumberByte(MessageNum(p))] + body;
    if p.ChannelData? {
      DataBodyLayout(p.num, p.data);
    } else {
      DataExtBodyLayout(p.num, p.code, p.data);
    }
  }

  lemma DataBodyLayout(num: U32, d: seq<Byte>)
    requires EncFields([FU32(num), FBin(d)]).Ok?
    ensures var b := EncFields([FU32(num), FBin(d)]).value; |b| == 8 + |d| && b[8..] == d
  {
    assert [FU32(num), FBin(d)] == [FU32(num)] + [FBin(d)];
    HeadField(FU32(num), [FBin(d)], []);
    OneField(FBin(d));
    assert EncFields([FU32(num), FBin(d)]).value == BE32(num) + (BE32(|d|) + d);
  }

  lemma DataExtBodyLayout(num: U32, code: U32, d: seq<Byte>)
    requires EncFields([FU32(num), FU32(code), FBin(d)]).Ok?
    ensures var b := EncFields([FU32(num), FU32(code), FBin(d)]).value; |b| == 12 + |d| && b[12..] == d
  {
    assert [FU32(num), FU32(code), FBin(d)] == [FU32(num)] + [FU32(code), FBin(d)];
    HeadField(FU32(num), [FU32(code), FBin(d)], []);
    DataBodyLayout(code, d);
    assert EncFields([FU32(num), FU32(code), FBin(d)]).value
      == BE32(num) + EncFields([FU32(code), FBin(d)]).value;
  }
}
