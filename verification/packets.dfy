/** The SSH messages the engine understands, their message numbers and the
    phase category each one belongs to, plus the key and signature name
    mappings. The wire encoding of these values is in module `Wire`. */
module Packets {
  import opened Common
  import opened SshNames
  import opened SigTypes

  /** A public key blob. `UnknownKey` keeps the algorithm name of a key type
      the engine does not know; it can be received but never sent. */
  datatype PubKey =
    | Ed25519Key(key: seq<Byte>)
    | RsaKey(e: seq<Byte>, n: seq<Byte>)
    | UnknownKey(keyName: string)

  datatype Signature =
    | Ed25519Sig(sig: seq<Byte>)
    | Rsa256Sig(sig: seq<Byte>)
    | UnknownSig(sigName: string)

  /** The `publickey` method body of RFC 4252 section 7. */
  datatype MethodPubKey = MethodPubKey(sigAlgo: string, pubkey: PubKey, sig: Option<Signature>)

  /** The method-specific part of a USERAUTH_REQUEST, selected by the method name. */
  datatype AuthMethod =
    | AuthPassword(change: bool, password: string)
    | AuthPubKey(pk: MethodPubKey)
    | AuthNone
    | AuthUnknown(methodName: string)

  /** The method a client last asked for; selects how message 60 is parsed. */
  datatype AuthType = PasswordAuth | PubKeyAuth

  /** Message number 60 means PK_OK or PASSWD_CHANGEREQ depending on the
      method of the pending request. */
  datatype Userauth60Msg =
    | PkOk(algo: string, key: PubKey)
    | PwChangeReq(prompt: string, lang: string)

  datatype KexInitMsg = KexInitMsg(
    cookie: seq<Byte>,
    kex: seq<string>,
    hostsig: seq<string>,
    cipherC2s: seq<string>,
    cipherS2c: seq<string>,
    macC2s: seq<string>,
    macS2c: seq<string>,
    compC2s: seq<string>,
    compS2c: seq<string>,
    langC2s: seq<string>,
    langS2c: seq<string>,
    firstFollows: bool,
    reserved: U32)

  datatype ChannelOpenType =
    | Session
    | ForwardedTcpip(address: string, port: U32, origin: string, originPort: U32)
    | DirectTcpip(address: string, port: U32, origin: string, originPort: U32)
    | UnknownOpen(openName: string)

  datatype ChannelReqType =
    | Shell
    | Exec(command: string)
    | Pty(term: string, cols: U32, rows: U32, width: U32, height: U32, modes: seq<Byte>)
    | Subsystem(subsystem: string)
    | WinChange(cols: U32, rows: U32, width: U32, height: U32)
    | Signal(signal: string)
    | ExitStatus(status: U32)
    | ExitSignal(signal: string, core: bool, error: string, lang: string)
    | Break(length: U32)
    | UnknownReq(reqName: string)

  /** Top-level SSH message. */
  datatype Packet =
    | Disconnect(reason: U32, desc: string, lang: string)
    | Ignore
    | Unimplemented(seqNo: U32)
    | DebugPacket(alwaysDisplay: bool, message: string, lang: string)
    | ServiceRequest(name: string)
    | ServiceAccept(name: string)
    | KexInit(kexinit: KexInitMsg)
    | NewKeys
    | KexDHInit(qc: seq<Byte>)
    | KexDHReply(ks: PubKey, qs: seq<Byte>, hostSig: Signature)
    | UserauthRequest(username: string, service: string, authMethod: AuthMethod)
    | UserauthFailure(methods: seq<string>, partial: bool)
    | UserauthSuccess
    | UserauthBanner(message: string, lang: string)
    | Userauth60(u60: Userauth60Msg)
    | ChannelOpen(num: U32, initialWindow: U32, maxPacket: U32, ty: ChannelOpenType)
    | ChannelOpenConfirmation(num: U32, senderNum: U32, initialWindow: U32, maxPacket: U32)
    | ChannelOpenFailure(num: U32, reason: U32, desc: string, lang: string)
    | ChannelWindowAdjust(num: U32, adjust: U32)
    | ChannelData(num: U32, data: seq<Byte>)
    | ChannelDataExt(num: U32, code: U32, data: seq<Byte>)
    | ChannelEof(num: U32)
    | ChannelClose(num: U32)
    | ChannelRequest(num: U32, wantReply: bool, req: ChannelReqType)
    | ChannelSuccess(num: U32)
    | ChannelFailure(num: U32)

  datatype MessageNumber =
    | SSH_MSG_DISCONNECT | SSH_MSG_IGNORE | SSH_MSG_UNIMPLEMENTED | SSH_MSG_DEBUG
    | SSH_MSG_SERVICE_REQUEST | SSH_MSG_SERVICE_ACCEPT
    | SSH_MSG_KEXINIT | SSH_MSG_NEWKEYS | SSH_MSG_KEXDH_INIT | SSH_MSG_KEXDH_REPLY
    | SSH_MSG_USERAUTH_REQUEST | SSH_MSG_USERAUTH_FAILURE | SSH_MSG_USERAUTH_SUCCESS
    | SSH_MSG_USERAUTH_BANNER | SSH_MSG_USERAUTH_60
    | SSH_MSG_CHANNEL_OPEN | SSH_MSG_CHANNEL_OPEN_CONFIRMATION | SSH_MSG_CHANNEL_OPEN_FAILURE
    | SSH_MSG_CHANNEL_WINDOW_ADJUST | SSH_MSG_CHANNEL_DATA | SSH_MSG_CHANNEL_EXTENDED_DATA
    | SSH_MSG_CHANNEL_EOF | SSH_MSG_CHANNEL_CLOSE | SSH_MSG_CHANNEL_REQUEST
    | SSH_MSG_CHANNEL_SUCCESS | SSH_MSG_CHANNEL_FAILURE

  /** When a message may be handled: at any time, during key exchange, during
      user authentication, or once a session is up. */
  datatype Category = All | Kex | Auth | Sess

  /** `MessageNumber as u8`. */
  function NumberByte(m: MessageNumber): Byte
  {
    match m
    case SSH_MSG_DISCONNECT => 1
    case SSH_MSG_IGNORE => 2
    case SSH_MSG_UNIMPLEMENTED => 3
    case SSH_MSG_DEBUG => 4
    case SSH_MSG_SERVICE_REQUEST => 5
    case SSH_MSG_SERVICE_ACCEPT => 6
    case SSH_MSG_KEXINIT => 20
    case SSH_MSG_NEWKEYS => 21
    case SSH_MSG_KEXDH_INIT => 30
    case SSH_MSG_KEXDH_REPLY => 31
    case SSH_MSG_USERAUTH_REQUEST => 50
    case SSH_MSG_USERAUTH_FAILURE => 51
    case SSH_MSG_USERAUTH_SUCCESS => 52
    case SSH_MSG_USERAUTH_BANNER => 53
    case SSH_MSG_USERAUTH_60 => 60
    case SSH_MSG_CHANNEL_OPEN => 90
    case SSH_MSG_CHANNEL_OPEN_CONFIRMATION => 91
    case SSH_MSG_CHANNEL_OPEN_FAILURE => 92
    case SSH_MSG_CHANNEL_WINDOW_ADJUST => 93
    case SSH_MSG_CHANNEL_DATA => 94
    case SSH_MSG_CHANNEL_EXTENDED_DATA => 95
    case SSH_MSG_CHANNEL_EOF => 96
    case SSH_MSG_CHANNEL_CLOSE => 97
    case SSH_MSG_CHANNEL_REQUEST => 98
    case SSH_MSG_CHANNEL_SUCCESS => 99
    case SSH_MSG_CHANNEL_FAILURE => 100
  }

  /** The numbers that name a known message. */
  predicate IsKnownNumber(v: int)
  {
    (1 <= v <= 6) || (20 <= v <= 21) || (30 <= v <= 31) || (50 <= v <= 53) || v == 60 || (90 <= v <= 100)
  }

  /** `MessageNumber::try_from(u8)`: a known number maps to the message whose
      number it is, any other number is rejected with `UnknownPacket`. */
  function MessageNumberFrom(v: Byte): (r: Result<MessageNumber>)
    ensures r.Ok? <==> IsKnownNumber(v)
    ensures r.Ok? ==> NumberByte(r.value) == v
    ensures r.Err? ==> r.error == UnknownPacket(v)
  {
    if v < 50 then TransportNumberFrom(v) else ServiceNumberFrom(v)
  }

  /** The transport-layer half of the table (numbers below 50). */
  function TransportNumberFrom(v: Byte): (r: Result<MessageNumber>)
    requires v < 50
    ensures r.Ok? <==> IsKnownNumber(v)
    ensures r.Ok? ==> NumberByte(r.value) == v
    ensures r.Err? ==> r.error == UnknownPacket(v)
  {
    match v
    case 1 => Ok(SSH_MSG_DISCONNECT)
    case 2 => Ok(SSH_MSG_IGNORE)
    case 3 => Ok(SSH_MSG_UNIMPLEMENTED)
    case 4 => Ok(SSH_MSG_DEBUG)
    case 5 => Ok(SSH_MSG_SERVICE_REQUEST)
    case 6 => Ok(SSH_MSG_SERVICE_ACCEPT)
    case 20 => Ok(SSH_MSG_KEXINIT)
    case 21 => Ok(SSH_MSG_NEWKEYS)
    case 30 => Ok(SSH_MSG_KEXDH_INIT)
    case 31 => Ok(SSH_MSG_KEXDH_REPLY)
    case _ => Err(UnknownPacket(v))
  }

  /** The authentication and connection half of the table (50 and above). */
  function ServiceNumberFrom(v: Byte): (r: Result<MessageNumber>)
    requires v >= 50
    ensures r.Ok? <==> IsKnownNumber(v)
    ensures r.Ok? ==> NumberByte(r.value) == v
    ensures r.Err? ==> r.error == UnknownPacket(v)
  {
    match v
    case 50 => Ok(SSH_MSG_USERAUTH_REQUEST)
    case 51 => Ok(SSH_MSG_USERAUTH_FAILURE)
    case 52 => Ok(SSH_MSG_USERAUTH_SUCCESS)
    case 53 => Ok(SSH_MSG_USERAUTH_BANNER)
    case 60 => Ok(SSH_MSG_USERAUTH_60)
    case _ => if v < 90 then Err(UnknownPacket(v)) else ChannelNumberFrom(v)
  }

  /** The connection-protocol numbers (90 and above). */
  function ChannelNumberFrom(v: Byte): (r: Result<MessageNumber>)
    requires v >= 90
    ensures r.Ok? <==> IsKnownNumber(v)
    ensures r.Ok? ==> NumberByte(r.value) == v
    ensures r.Err? ==> r.error == UnknownPacket(v)
  {
    match v
    case 90 => Ok(SSH_MSG_CHANNEL_OPEN)
    case 91 => Ok(SSH_MSG_CHANNEL_OPEN_CONFIRMATION)
    case 92 => Ok(SSH_MSG_CHANNEL_OPEN_FAILURE)
    case 93 => Ok(SSH_MSG_CHANNEL_WINDOW_ADJUST)
    case 94 => Ok(SSH_MSG_CHANNEL_DATA)
    case 95 => Ok(SSH_MSG_CHANNEL_EXTENDED_DATA)
    case 96 => Ok(SSH_MSG_CHANNEL_EOF)
    case 97 => Ok(SSH_MSG_CHANNEL_CLOSE)
    case 98 => Ok(SSH_MSG_CHANNEL_REQUEST)
    case 99 => Ok(SSH_MSG_CHANNEL_SUCCESS)
    case 100 => Ok(SSH_MSG_CHANNEL_FAILURE)
    case _ => Err(UnknownPacket(v))
  }

  /** Every message number converts back from its byte: the table is a
      bijection between `MessageNumber` and the known bytes. */
  lemma NumberByteRoundTrip(m: MessageNumber)
    ensures IsKnownNumber(NumberByte(m))
    ensures MessageNumberFrom(NumberByte(m)) == Ok(m)
  {
  }

  function MessageNum(p: Packet): MessageNumber
  {
    match p
    case Disconnect(_, _, _) => SSH_MSG_DISCONNECT
    case Ignore => SSH_MSG_IGNORE
    case Unimplemented(_) => SSH_MSG_UNIMPLEMENTED
    case DebugPacket(_, _, _) => SSH_MSG_DEBUG
    case ServiceRequest(_) => SSH_MSG_SERVICE_REQUEST
    case ServiceAccept(_) => SSH_MSG_SERVICE_ACCEPT
    case KexInit(_) => SSH_MSG_KEXINIT
    case NewKeys => SSH_MSG_NEWKEYS
    case KexDHInit(_) => SSH_MSG_KEXDH_INIT
    case KexDHReply(_, _, _) => SSH_MSG_KEXDH_REPLY
    case UserauthRequest(_, _, _) => SSH_MSG_USERAUTH_REQUEST
    case UserauthFailure(_, _) => SSH_MSG_USERAUTH_FAILURE
    case UserauthSuccess => SSH_MSG_USERAUTH_SUCCESS
    case UserauthBanner(_, _) => SSH_MSG_USERAUTH_BANNER
    case Userauth60(_) => SSH_MSG_USERAUTH_60
    case ChannelOpen(_, _, _, _) => SSH_MSG_CHANNEL_OPEN
    case ChannelOpenConfirmation(_, _, _, _) => SSH_MSG_CHANNEL_OPEN_CONFIRMATION
    case ChannelOpenFailure(_, _, _, _) => SSH_MSG_CHANNEL_OPEN_FAILURE
    case ChannelWindowAdjust(_, _) => SSH_MSG_CHANNEL_WINDOW_ADJUST
    case ChannelData(_, _) => SSH_MSG_CHANNEL_DATA
    case ChannelDataExt(_, _, _) => SSH_MSG_CHANNEL_EXTENDED_DATA
    case ChannelEof(_) => SSH_MSG_CHANNEL_EOF
    case ChannelClose(_) => SSH_MSG_CHANNEL_CLOSE
    case ChannelRequest(_, _, _) => SSH_MSG_CHANNEL_REQUEST
    case ChannelSuccess(_) => SSH_MSG_CHANNEL_SUCCESS
    case ChannelFailure(_) => SSH_MSG_CHANNEL_FAILURE
  }

  /** The phase column of the message table, stated by number: 1-4 and
      KEXINIT may come at any time, NEWKEYS and the KEXDH pair only during key
      exchange, the service and user-authentication messages (5, 6, 50-60)
      only during authentication, and the channel messages (90-100) only in a
      session. */
  function NumberCategory(m: MessageNumber): (c: Category)
    ensures var n := NumberByte(m);
      && (c == All <==> (1 <= n <= 4 || n == 20))
      && (c == Kex <==> (n == 21 || n == 30 || n == 31))
      && (c == Auth <==> (n == 5 || n == 6 || 50 <= n <= 60))
      && (c == Sess <==> 90 <= n <= 100)
  {
    match m
    case SSH_MSG_DISCONNECT => All
    case SSH_MSG_IGNORE => All
    case SSH_MSG_UNIMPLEMENTED => All
    case SSH_MSG_DEBUG => All
    case SSH_MSG_SERVICE_REQUEST => Auth
    case SSH_MSG_SERVICE_ACCEPT => Auth
    case SSH_MSG_KEXINIT => All
    case SSH_MSG_NEWKEYS => Kex
    case SSH_MSG_KEXDH_INIT => Kex
    case SSH_MSG_KEXDH_REPLY => Kex
    case SSH_MSG_USERAUTH_REQUEST => Auth
    case SSH_MSG_USERAUTH_FAILURE => Auth
    case SSH_MSG_USERAUTH_SUCCESS => Auth
    case SSH_MSG_USERAUTH_BANNER => Auth
    case SSH_MSG_USERAUTH_60 => Auth
    case SSH_MSG_CHANNEL_OPEN => Sess
    case SSH_MSG_CHANNEL_OPEN_CONFIRMATION => Sess
    case SSH_MSG_CHANNEL_OPEN_FAILURE => Sess
    case SSH_MSG_CHANNEL_WINDOW_ADJUST => Sess
    case SSH_MSG_CHANNEL_DATA => Sess
    case SSH_MSG_CHANNEL_EXTENDED_DATA => Sess
    case SSH_MSG_CHANNEL_EOF => Sess
    case SSH_MSG_CHANNEL_CLOSE => Sess
    case SSH_MSG_CHANNEL_REQUEST => Sess
    case SSH_MSG_CHANNEL_SUCCESS => Sess
    case SSH_MSG_CHANNEL_FAILURE => Sess
  }

  /** `Packet::category`: each message's row of the table. */
  function CategoryOf(p: Packet): Category
  {
    NumberCategory(MessageNum(p))
  }

  /** The name a key or signature presents: a known algorithm, or the raw
      name of an unknown one. */
  datatype PresentedName = Known(name: string) | Unrecognised(raw: string)

  /** `PubKey::algorithm_name`: the key-type name that prefixes the key blob. */
  function PubKeyAlgorithmName(k: PubKey): (r: PresentedName)
    ensures r.Known? <==> !k.UnknownKey?
    ensures k.UnknownKey? ==> r.raw == k.keyName
    ensures k.Ed25519Key? ==> r.name == SSH_NAME_ED25519
    ensures k.RsaKey? ==> r.name == SSH_NAME_RSA
  {
    match k
    case Ed25519Key(_) => Known(SSH_NAME_ED25519)
    case RsaKey(_, _) => Known(SSH_NAME_RSA)
    case UnknownKey(u) => Unrecognised(u)
  }

  /** `Signature::algorithm_name`: the signature-type name that prefixes the
      signature blob. */
  function SignatureAlgorithmName(s: Signature): (r: PresentedName)
    ensures r.Known? <==> !s.UnknownSig?
    ensures s.UnknownSig? ==> r.raw == s.sigName
    ensures r.Known? ==> FromName(r.name).Ok?
  {
    match s
    case Ed25519Sig(_) => Known(SSH_NAME_ED25519)
    case Rsa256Sig(_) => Known(SSH_NAME_RSA_SHA256)
    case UnknownSig(u) => Unrecognised(u)
  }

  /** `Signature::sig_name_for_pubkey`: the signature algorithm used with a
      key. Ed25519 keys sign with ssh-ed25519; RSA keys with rsa-sha2-256,
      never the SHA-1 ssh-rsa; an unknown key type is rejected. */
  function SigNameForPubkey(k: PubKey): (r: Result<string>)
    ensures r.Ok? <==> !k.UnknownKey?
    ensures r.Err? ==> r.error == UnknownMethod("key")
    ensures k.Ed25519Key? ==> r == Ok(SSH_NAME_ED25519)
    ensures k.RsaKey? ==> r == Ok(SSH_NAME_RSA_SHA256)
    ensures r.Ok? ==> FromName(r.value).Ok?
  {
    match k
    case Ed25519Key(_) => Ok(SSH_NAME_ED25519)
    case RsaKey(_, _) => Ok(SSH_NAME_RSA_SHA256)
    case UnknownKey(_) => Err(UnknownMethod("key"))
  }

  /** `Signature::sig_type`: the type of a received signature, whose name is
      the name the signature presents; unknown signatures are rejected. */
  function SigTypeOf(s: Signature): (r: Result<SigType>)
    ensures r.Ok? <==> !s.UnknownSig?
    ensures r.Err? ==> r.error == UnknownMethod("signature")
    ensures r.Ok? ==> AlgorithmName(r.value) == SignatureAlgorithmName(s).name
  {
    match s
    case Ed25519Sig(_) => Ok(SigType.Ed25519)
    case Rsa256Sig(_) => Ok(SigType.RSA256)
    case UnknownSig(_) => Err(UnknownMethod("signature"))
  }

  /** `AuthMethod::try_from(PubKey)`: the unsigned public-key query for a key,
      naming the signature algorithm that goes with the key. */
  function AuthMethodForKey(k: PubKey): (r: Result<AuthMethod>)
    ensures r.Ok? <==> !k.UnknownKey?
    ensures r.Err? ==> r.error == Bug
    ensures r.Ok? ==> (r.value.AuthPubKey? && r.value.pk.pubkey == k && r.value.pk.sig.None?
                       && r.value.pk.sigAlgo == SigNameForPubkey(k).value)
  {
    match SigNameForPubkey(k)
    case Err(_) => Err(Bug)
    case Ok(sigAlgo) => Ok(AuthPubKey(MethodPubKey(sigAlgo, k, None)))
  }

  /** Context the parser needs to pick an enum variant. */
  datatype ParseContext = ParseContext(
    cliAuthType: Option<AuthType>,
    methodPubkeyForceSigBool: bool)

  function NewParseContext(): ParseContext
  {
    ParseContext(None, false)
  }
}
