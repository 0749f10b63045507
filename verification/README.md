# sunset SSH core in Dafny

This project models the core of the sunset SSH library: a small Rust implementation of the
SSH transport, user authentication and connection protocols (RFC 4251 to RFC 4254), written for
`no_std` targets. The model follows the engine's own structure:

- `common.dfy` (`Common`): bytes, 32-bit words, the engine's error kinds and the `Result` wrappers.
- `names.dfy` (`SshNames`): the algorithm, method and service names.
- `sigtypes.dfy` (`SigTypes`): signature types and their names.
- `packets.dfy` (`Packets`): message numbers, categories and the packet datatypes.
- `wire.dfy` (`Wire`): RFC 4251 strings, name-lists and the field-by-field struct encoding that the derive macros produce.
- `codec.dfy` (`PacketCodec`): encoding and decoding of every packet, including the context-dependent message 60 and the publickey method with its forced signature flag.
- `sign.dfy` (`Sign`): signature verification and the signing key's public key.
- `encrypt.dfy` (`Encrypt`): the binary packet protocol. It covers padding, MAC and the cleartext, AES-CTR and chacha20-poly1305 ciphers, worked in place on arrays. It also holds the `KeyState` class with its sequence numbers.
- `keyderive.dfy` (`KeyDerive`): the key schedule of RFC 4253 section 7.2 and `Keys::new_from`.
- `negotiate.dfy` (`Negotiate`): the algorithm configuration, our KEXINIT and algorithm negotiation.
- `kex.dfy` (`Kex`): the key exchange state machine, both as step functions and as the `Kex` class whose handlers follow them.
- `outbox.dfy` (`Outbox`): the packets a handler sends and the keys it hands over for rekeying.
- `cliauth.dfy` (`CliAuth`): the client authentication state machine and a scripted client behaviour.
- `door_cliauth.dfy` (`DoorCliAuth`) and `door_client.dfy` (`DoorClient`): the client authenticator and client of the older `door-sshproto` crate.

Cryptographic primitives are parameters of the model: AES keystream, chacha20-poly1305, HMAC-SHA256, SHA-256, X25519 and Ed25519.
The host keys, the client behaviour's answers and the random padding and cookies are parameters too.
Each stateful operation is a method whose postcondition ties its new state and its output to a step
function. The lemmas then prove the protocol's properties about those step functions. The main ones are:

- every packet decodes back to itself;
- a packet encrypted by one side is decrypted by the other;
- client and server negotiate mirrored algorithms and derive matching keys;
- the key exchange takes each ephemeral key only once;
- client authentication tries public keys before a password and answers PK_OK only for the key it offered.

## Model

| member | source | states |
|---|---|---|
| Common.WrapIncrement | sshproto/src/encrypt.rs:70-86 | a sequence number that is the largest u32 wraps to 0; any other number goes up by one |
| Common.BE32RoundTrip | sshproto/src/encrypt.rs:242-265 | reading a big-endian packet length back from the front of a buffer gives the length written |
| SigTypes.FromName | sshproto/src/sign.rs:31-37 | a name is accepted exactly when it is ssh-ed25519 or rsa-sha2-256, ed25519 maps to Ed25519, and any other name is an internal error |
| SigTypes.AlgorithmName | sshproto/src/sign.rs:40-45 | the name a signature type gives is one that from_name maps back to the same type |
| Packets.MessageNumberFrom | src/packets.rs:650-663 | a byte converts exactly when it is a known message number, the result's byte is that byte, and an unknown byte gives UnknownPacket of it |
| Packets.TransportNumberFrom | src/packets.rs:765-813 | the table's transport rows (numbers below 50) give the same answer as the whole conversion |
| Packets.ServiceNumberFrom | src/packets.rs:765-813 | the table's authentication rows give the same answer as the whole conversion |
| Packets.ChannelNumberFrom | src/packets.rs:765-813 | the table's channel rows (numbers from 90) give the same answer as the whole conversion |
| Packets.NumberByteRoundTrip | src/packets.rs:650-663 | every message number's byte is known and converts back to the same message number |
| Packets.NumberCategory | src/packets.rs:730-738 | All covers messages 1-4 and 20, Kex covers 21, 30 and 31, Auth covers 5, 6 and 50-60, and Sess covers 90-100, in both directions |
| Packets.PubKeyAlgorithmName | src/packets.rs:248-254 | a public key's name is known unless the key is of an unknown kind, in which case the raw name is given back; ed25519 and rsa keys give their names |
| Packets.SignatureAlgorithmName | src/packets.rs:313-319 | a signature's name is known unless the signature is of an unknown kind, and every known name is one SigType accepts |
| Packets.SigNameForPubkey | src/packets.rs:325-334 | an ed25519 key gives ssh-ed25519, an rsa key gives rsa-sha2-256, an unknown key gives UnknownMethod, and every name given is a SigType name |
| Packets.SigTypeOf | src/packets.rs:336-345 | the signature type is found exactly for known signatures, its name is the signature's own name, and an unknown signature gives UnknownMethod |
| Packets.AuthMethodForKey | src/packets.rs:121-131 | a known key becomes an unsigned publickey method carrying that key and the signature name for it; an unknown key is an error |
| Sign.Verify | sshproto/src/sign.rs:47-84 | an unknown signature is UnknownMethod, a type other than the one expected is BadSignature, rsa is refused, an ed25519 signature with a non-ed25519 key is SignatureMismatch, a failed ed25519 check is BadSignature, and the result passes exactly when the ed25519 check of key, message and signature passes |
| Sign.TypeCheckBeforeCrypto | sshproto/src/sign.rs:47-84 | when the signature type differs from the one expected, the outcome does not depend on the cryptographic check at all |
| Sign.CryptoOnlyForEd25519 | sshproto/src/sign.rs:47-84 | unless type, key and signature are all ed25519, the cryptographic check is never consulted and verification fails |
| Sign.SignKeyPubkey | sshproto/src/sign.rs:95-101 | the public key of a signing key is the ed25519 key computed from its secret, its signature name is ssh-ed25519, and it forms a publickey method |
| Wire.SplitJoin | src/packets.rs:32-50 | a name-list of valid names written with commas reads back as the same names |
| Wire.SplitPartsJoin | src/packets.rs:32-50 | a non-empty name-list joined with commas splits back into the same names |
| Wire.JoinIsByteText | src/packets.rs:32-50 | a name-list of valid names is text every character of which fits in one byte |
| Wire.TextBytesRoundTrip | src/packets.rs:32-50 | text made of byte-sized characters survives conversion to bytes and back |
| Wire.StringRoundTrip | sshwire_derive/src/lib.rs:412-470 | a length-prefixed string reads back as the bytes written and leaves the rest of the buffer |
| Wire.DecField | sshwire_derive/src/lib.rs:412-470 | a field read has the kind asked for and consumes at least one byte |
| Wire.FieldRoundTrip | sshwire_derive/src/lib.rs:412-470 | any field that can be written reads back as itself and leaves the rest |
| Wire.DecFields | sshwire_derive/src/lib.rs:412-470 | the fields read match the kinds asked for, in order |
| Wire.FieldsRoundTrip | sshwire_derive/src/lib.rs:227-270 | a struct written field by field reads back field by field as the same fields, leaving the rest |
| Wire.EncFieldsAppend | sshwire_derive/src/lib.rs:227-270 | writing two runs of fields succeeds exactly when both succeed and gives their concatenation |
| PacketCodec.Encode | src/packets.rs:666-683 | a packet that encodes starts with the byte of its own message number |
| PacketCodec.Decode | src/packets.rs:685-705 | an empty buffer is RanOut, an unknown first byte is UnknownPacket of it, and a decoded packet's message number is the first byte |
| PacketCodec.DecBody | src/packets.rs:685-705 | the body decoder for a message number yields a packet of that number |
| PacketCodec.DecPubKey | src/packets.rs:237-244 | decoding a public key consumes input |
| PacketCodec.DecSignature | src/packets.rs:302-309 | decoding a signature consumes input |
| PacketCodec.DecPubKeyBlob | src/packets.rs:237-244 | decoding a public key blob consumes input |
| PacketCodec.DecSigBlob | src/packets.rs:302-309 | decoding a signature blob consumes input |
| PacketCodec.DecMethodPubKey | src/packets.rs:205-217 | a signature is read exactly when the leading boolean is non-zero |
| PacketCodec.DecUserauth60 | src/packets.rs:143-154 | without a recorded auth type the packet is PacketWrong; with password auth it is a PwChangeReq; with publickey auth it is a PkOk |
| PacketCodec.PubKeyRoundTrip | src/packets.rs:237-244 | a public key written reads back as the same key |
| PacketCodec.SignatureRoundTrip | src/packets.rs:302-309 | a signature written reads back as the same signature |
| PacketCodec.PubKeyBlobRoundTrip | src/packets.rs:237-244 | a public key written as a nested blob reads back as the same key |
| PacketCodec.SigBlobRoundTrip | src/packets.rs:302-309 | a signature written as a nested blob reads back as the same signature |
| PacketCodec.MethodPubKeyRoundTrip | src/packets.rs:192-217 | a publickey method reads back as itself, signed or not, as long as an unsigned one was not forced to claim a signature |
| PacketCodec.MethodPubKeyFlag | src/packets.rs:192-202 | the leading boolean is 1 exactly when a signature is present or the flag is forced, and 0 otherwise |
| PacketCodec.ForcedBoolIsSignedPrefix | src/packets.rs:192-202 | the unsigned method written with the forced flag is a prefix of the signed method, so the bytes signed are those of the request without its signature |
| PacketCodec.AuthMethodRoundTrip | src/packets.rs:110-119 | every authentication method reads back under its own name as itself |
| PacketCodec.ChannelOpenTypeRoundTrip | src/packets.rs:391-404 | every channel open type reads back under its own name |
| PacketCodec.ChannelReqRoundTrip | src/packets.rs:488-514 | every channel request type reads back under its own name |
| PacketCodec.ChannelReqWideRoundTrip | src/packets.rs:488-514 | the pty, window-change and exit-signal requests read back under their own names |
| PacketCodec.PtyRoundTrip | src/packets.rs:524-531 | a pty request reads back as itself |
| PacketCodec.WinChangeRoundTrip | src/packets.rs:539-544 | a window-change request reads back as itself |
| PacketCodec.ExitSignalRoundTrip | src/packets.rs:557-562 | an exit-signal request reads back as itself |
| PacketCodec.KexInitRoundTrip | src/packets.rs:32-50 | a KEXINIT message reads back as itself |
| PacketCodec.Userauth60RoundTrip | src/packets.rs:137-154 | a message 60 reads back as itself under the auth type that produced it |
| PacketCodec.DisconnectRoundTrip | src/packets.rs:67-71 | the body of a Disconnect packet reads back as the same packet and leaves the rest |
| PacketCodec.IgnoreRoundTrip | src/packets.rs:56 | the body of a Ignore packet reads back as the same packet and leaves the rest |
| PacketCodec.UnimplementedRoundTrip | src/packets.rs:74-76 | the body of a Unimplemented packet reads back as the same packet and leaves the rest |
| PacketCodec.DebugPacketRoundTrip | src/packets.rs:60-64 | the body of a DebugPacket packet reads back as the same packet and leaves the rest |
| PacketCodec.ServiceRequestRoundTrip | src/packets.rs:91-93 | the body of a ServiceRequest packet reads back as the same packet and leaves the rest |
| PacketCodec.ServiceAcceptRoundTrip | src/packets.rs:96-98 | the body of a ServiceAccept packet reads back as the same packet and leaves the rest |
| PacketCodec.NewKeysRoundTrip | src/packets.rs:53 | the body of a NewKeys packet reads back as the same packet and leaves the rest |
| PacketCodec.KexDHInitRoundTrip | src/packets.rs:79-81 | the body of a KexDHInit packet reads back as the same packet and leaves the rest |
| PacketCodec.UserauthFailureRoundTrip | src/packets.rs:221-224 | the body of a UserauthFailure packet reads back as the same packet and leaves the rest |
| PacketCodec.UserauthSuccessRoundTrip | src/packets.rs:227 | the body of a UserauthSuccess packet reads back as the same packet and leaves the rest |
| PacketCodec.UserauthBannerRoundTrip | src/packets.rs:230-233 | the body of a UserauthBanner packet reads back as the same packet and leaves the rest |
| PacketCodec.ChannelOpenConfirmationRoundTrip | src/packets.rs:407-412 | the body of a ChannelOpenConfirmation packet reads back as the same packet and leaves the rest |
| PacketCodec.ChannelOpenFailureRoundTrip | src/packets.rs:415-420 | the body of a ChannelOpenFailure packet reads back as the same packet and leaves the rest |
| PacketCodec.ChannelWindowAdjustRoundTrip | src/packets.rs:423-426 | the body of a ChannelWindowAdjust packet reads back as the same packet and leaves the rest |
| PacketCodec.ChannelDataRoundTrip | src/packets.rs:429-432 | the body of a ChannelData packet reads back as the same packet and leaves the rest |
| PacketCodec.ChannelDataExtRoundTrip | src/packets.rs:442-446 | the body of a ChannelDataExt packet reads back as the same packet and leaves the rest |
| PacketCodec.ChannelEofRoundTrip | src/packets.rs:457-459 | the body of a ChannelEof packet reads back as the same packet and leaves the rest |
| PacketCodec.ChannelCloseRoundTrip | src/packets.rs:462-464 | the body of a ChannelClose packet reads back as the same packet and leaves the rest |
| PacketCodec.ChannelSuccessRoundTrip | src/packets.rs:467-469 | the body of a ChannelSuccess packet reads back as the same packet and leaves the rest |
| PacketCodec.ChannelFailureRoundTrip | src/packets.rs:472-474 | the body of a ChannelFailure packet reads back as the same packet and leaves the rest |
| PacketCodec.KexDHReplyRoundTrip | src/packets.rs:84-88 | the body of a KexDHReply packet reads back as the same packet and leaves the rest |
| PacketCodec.UserauthRequestRoundTrip | src/packets.rs:101-105 | the body of a UserauthRequest packet reads back as the same packet and leaves the rest |
| PacketCodec.ChannelOpenRoundTrip | src/packets.rs:381-388 | the body of a ChannelOpen packet reads back as the same packet and leaves the rest |
| PacketCodec.ChannelRequestRoundTrip | src/packets.rs:477-485 | the body of a ChannelRequest packet reads back as the same packet and leaves the rest |
| PacketCodec.KexInitBodyRoundTrip | src/packets.rs:32-50 | decoding by message number gives back a KexInit packet that was encoded |
| PacketCodec.KexDHReplyBodyRoundTrip | src/packets.rs:84-88 | decoding by message number gives back a KexDHReply packet that was encoded |
| PacketCodec.UserauthRequestBodyRoundTrip | src/packets.rs:101-105 | decoding by message number gives back a UserauthRequest packet that was encoded |
| PacketCodec.Userauth60BodyRoundTrip | src/packets.rs:137-141 | decoding by message number gives back a Userauth60 packet that was encoded |
| PacketCodec.ChannelOpenBodyRoundTrip | src/packets.rs:381-388 | decoding by message number gives back a ChannelOpen packet that was encoded |
| PacketCodec.ChannelRequestBodyRoundTrip | src/packets.rs:477-485 | decoding by message number gives back a ChannelRequest packet that was encoded |
| PacketCodec.DecDisconnectBody | src/packets.rs:67-71 | a decoded body is a Disconnect packet carrying that message number |
| PacketCodec.DecUnimplementedBody | src/packets.rs:74-76 | a decoded body is a Unimplemented packet carrying that message number |
| PacketCodec.DecDebugPacketBody | src/packets.rs:60-64 | a decoded body is a DebugPacket packet carrying that message number |
| PacketCodec.DecServiceRequestBody | src/packets.rs:91-93 | a decoded body is a ServiceRequest packet carrying that message number |
| PacketCodec.DecServiceAcceptBody | src/packets.rs:96-98 | a decoded body is a ServiceAccept packet carrying that message number |
| PacketCodec.DecKexInitBody | src/packets.rs:32-50 | a decoded body is a KexInit packet carrying that message number |
| PacketCodec.DecKexDHInitBody | src/packets.rs:79-81 | a decoded body is a KexDHInit packet carrying that message number |
| PacketCodec.DecKexDHReplyBody | src/packets.rs:84-88 | a decoded body is a KexDHReply packet carrying that message number |
| PacketCodec.DecUserauthRequestBody | src/packets.rs:101-105 | a decoded body is a UserauthRequest packet carrying that message number |
| PacketCodec.DecUserauthFailureBody | src/packets.rs:221-224 | a decoded body is a UserauthFailure packet carrying that message number |
| PacketCodec.DecUserauthBannerBody | src/packets.rs:230-233 | a decoded body is a UserauthBanner packet carrying that message number |
| PacketCodec.DecUserauth60Body | src/packets.rs:137-141 | a decoded body is a Userauth60 packet carrying that message number |
| PacketCodec.DecChannelOpenBody | src/packets.rs:381-388 | a decoded body is a ChannelOpen packet carrying that message number |
| PacketCodec.DecChannelOpenConfirmationBody | src/packets.rs:407-412 | a decoded body is a ChannelOpenConfirmation packet carrying that message number |
| PacketCodec.DecChannelOpenFailureBody | src/packets.rs:415-420 | a decoded body is a ChannelOpenFailure packet carrying that message number |
| PacketCodec.DecChannelWindowAdjustBody | src/packets.rs:423-426 | a decoded body is a ChannelWindowAdjust packet carrying that message number |
| PacketCodec.DecChannelDataBody | src/packets.rs:429-432 | a decoded body is a ChannelData packet carrying that message number |
| PacketCodec.DecChannelDataExtBody | src/packets.rs:442-446 | a decoded body is a ChannelDataExt packet carrying that message number |
| PacketCodec.DecChannelEofBody | src/packets.rs:457-459 | a decoded body is a ChannelEof packet carrying that message number |
| PacketCodec.DecChannelCloseBody | src/packets.rs:462-464 | a decoded body is a ChannelClose packet carrying that message number |
| PacketCodec.DecChannelRequestBody | src/packets.rs:477-485 | a decoded body is a ChannelRequest packet carrying that message number |
| PacketCodec.DecChannelSuccessBody | src/packets.rs:467-469 | a decoded body is a ChannelSuccess packet carrying that message number |
| PacketCodec.DecChannelFailureBody | src/packets.rs:472-474 | a decoded body is a ChannelFailure packet carrying that message number |
| PacketCodec.BodyRoundTrip | src/packets.rs:685-705 | every packet body, decoded under the message number and context of its encoding, reads back as the same packet |
| PacketCodec.EncodeDecode | src/packets.rs:666-705 | every packet that encodes decodes back to itself, leaving the bytes after it, when the parse context fits the packet |
| PacketCodec.DataOffsetLocatesData | src/packets.rs:436-453 | the data offset of a channel data packet is where its data starts in the encoding and the data runs to the end |
| PacketCodec.DataBodyLayout | src/packets.rs:436-438 | a channel data body is the channel number, the length and then the data, eight bytes in |
| PacketCodec.DataExtBodyLayout | src/packets.rs:450-453 | an extended data body is the channel number, the code, the length and then the data, twelve bytes in |
| Encrypt.CtrSplit | sshproto/src/encrypt.rs:242-342 | the AES-CTR keystream applied to a concatenation is the keystream applied to each part at its position |
| Encrypt.CtrTwice | sshproto/src/encrypt.rs:272-342 | applying the same keystream twice gives back the input |
| Encrypt.CipherFromName | sshproto/src/encrypt.rs:454-460 | a cipher name is accepted exactly when it is chacha20-poly1305 or aes256-ctr; anything else is an internal error |
| Encrypt.CipherName | sshproto/src/encrypt.rs:454-460 | the name of each cipher maps back to it |
| Encrypt.CipherInteg | sshproto/src/encrypt.rs:479-484 | only chacha20-poly1305 brings its own integrity |
| Encrypt.IntegFromName | sshproto/src/encrypt.rs:576-581 | only hmac-sha2-256 is accepted as a MAC name |
| Encrypt.IntegName | sshproto/src/encrypt.rs:576-581 | hmac-sha2-256 round-trips by name; the chacha20-poly1305 integrity has no MAC name |
| Encrypt.EncKeyFromCipher | sshproto/src/encrypt.rs:500-511 | an encryption key is built exactly when key and IV have the cipher's lengths, keeping the key and, for AES-CTR, the IV at stream position 0 |
| Encrypt.DecKeyFromCipher | sshproto/src/encrypt.rs:538-549 | a decryption key is built exactly when key and IV have the cipher's lengths, keeping the key and, for AES-CTR, the IV at stream position 0 |
| Encrypt.IntegKeyFromInteg | sshproto/src/encrypt.rs:610-617 | an HMAC key must be 32 bytes; the chacha20-poly1305 tag needs no key |
| Encrypt.EncSizeBlock | sshproto/src/encrypt.rs:519-525 | the encryption block size is 16 for AES-CTR and 8 otherwise |
| Encrypt.DecSizeBlock | sshproto/src/encrypt.rs:557-563 | the decryption block size is 16 for AES-CTR and 8 otherwise |
| Encrypt.SizeOut | sshproto/src/encrypt.rs:618-624 | the MAC length is 0 with no integrity, 16 for the chacha20-poly1305 tag and 32 for HMAC-SHA256 |
| Encrypt.CleartextKeys | sshproto/src/encrypt.rs:102-109 | the initial keys have block size 8, are not AEAD and add no MAC |
| Encrypt.CalcEncryptPad | sshproto/src/encrypt.rs:348-368 | padding is at least 4 bytes, makes the packet (without the length field for AEAD) a multiple of the block size, makes the packet at least 16 bytes, and stays under 256 |
| Encrypt.EncryptSpec | sshproto/src/encrypt.rs:373-430 | a packet too large for the buffer is NoRoom with nothing changed; a written packet is the framed packet, its MAC and the cipher applied, and its length is the padded packet plus the MAC |
| Encrypt.EncryptInPlace | sshproto/src/encrypt.rs:373-430 | encrypting in place leaves the buffer and keys that EncryptSpec describes, with padding of the required length |
| Encrypt.FrameInPlace | sshproto/src/encrypt.rs:373-430 | the length, padding length, payload and random padding are written into the buffer as EncryptFramed describes |
| Encrypt.MacInPlace | sshproto/src/encrypt.rs:373-430 | the MAC is written after the packet as EncryptMac describes |
| Encrypt.CipherInPlace | sshproto/src/encrypt.rs:373-430 | the cipher is applied in place as EncryptCipher describes |
| Encrypt.EncryptCipher | sshproto/src/encrypt.rs:410-430 | the cipher step keeps the buffer length, leaves the other keys alone and reports the packet plus MAC length |
| Encrypt.DecryptFirstBlockSpec | sshproto/src/encrypt.rs:242-265 | a buffer shorter than a block is an internal error; in cleartext the buffer is unchanged and the length is read from the first four bytes, accepted exactly when the whole packet length fits in 32 bits |
| Encrypt.DecryptFirstBlockInPlace | sshproto/src/encrypt.rs:242-265 | decrypting the first block in place leaves the buffer and keys that DecryptFirstBlockSpec describes |
| Encrypt.FirstBlockCipher | sshproto/src/encrypt.rs:242-265 | only the first block is touched and the length is read from it |
| Encrypt.FirstBlockCipherInPlace | sshproto/src/encrypt.rs:242-265 | the first block is decrypted in place as FirstBlockCipher describes |
| Encrypt.DecryptSpec | sshproto/src/encrypt.rs:272-342 | a buffer of the wrong length is SSHProtoError with nothing changed; an accepted packet has padding of at least 4 and the payload length is the rest after header, padding and MAC |
| Encrypt.DecryptInPlace | sshproto/src/encrypt.rs:272-342 | decrypting in place leaves the buffer and keys that DecryptSpec describes |
| Encrypt.DecryptCipher | sshproto/src/encrypt.rs:272-342 | the cipher step changes only the packet, not the MAC, and fails only when the chacha20-poly1305 tag does not open |
| Encrypt.DecryptCipherInPlace | sshproto/src/encrypt.rs:272-342 | the cipher step in place matches DecryptCipher and leaves the buffer unchanged on failure |
| Encrypt.CheckMacAndPadding | sshproto/src/encrypt.rs:272-342 | a packet passes exactly when its MAC matches and its padding is at least 4 bytes and fits; the payload length is what remains |
| Encrypt.FramedLayout | sshproto/src/encrypt.rs:373-430 | the framed packet holds the padding length, the payload unchanged and the padding after it |
| Encrypt.FramedLength | sshproto/src/encrypt.rs:373-430 | the length field holds payload plus padding plus one, truncated to 32 bits |
| Encrypt.MacLayout | sshproto/src/encrypt.rs:373-430 | HMAC covers the sequence number and the framed packet, and the packet itself is unchanged |
| Encrypt.MacedPacketAccepted | sshproto/src/encrypt.rs:272-342 | a packet carrying the correct HMAC and a valid padding length is accepted with its payload length |
| Encrypt.FramedPacketAccepted | sshproto/src/encrypt.rs:272-342 | a packet framed and MACed by the sender is accepted by the receiver's MAC and padding check |
| Encrypt.SentLengthField | sshproto/src/encrypt.rs:373-430 | the length the receiver reads from a sent packet is payload plus padding plus one |
| Encrypt.CleartextDecryptChecks | sshproto/src/encrypt.rs:272-342 | in cleartext, decryption is just the MAC and padding check |
| Encrypt.CleartextFirstBlock | sshproto/src/encrypt.rs:242-265 | in cleartext, the first block of a sent packet gives its full length |
| Encrypt.CleartextEncrypt | sshproto/src/encrypt.rs:373-430 | in cleartext, encryption is just framing and MAC |
| Encrypt.CleartextRoundTrip | sshproto/src/encrypt.rs:637-681 | a packet encrypted without a cipher is decrypted back to the same payload length and bytes |
| Encrypt.FramedCleartextRoundTrip | sshproto/src/encrypt.rs:637-681 | any framed cleartext packet is accepted with its payload length |
| Encrypt.CtrFirstBlock | sshproto/src/encrypt.rs:242-265 | decrypting the first block, then the rest from the next stream position, gives back the whole plaintext |
| Encrypt.AesEncrypt | sshproto/src/encrypt.rs:373-430 | with AES-CTR the sent bytes are the keystream over the framed packet followed by the MAC of the plaintext |
| Encrypt.AesFirstBlock | sshproto/src/encrypt.rs:242-265 | with AES-CTR the receiver's first block gives the full length and advances the stream one block |
| Encrypt.AesDecryptRest | sshproto/src/encrypt.rs:272-342 | with AES-CTR the rest of the packet is decrypted from the advanced stream position and then checked |
| Encrypt.AesReceive | sshproto/src/encrypt.rs:242-342 | the two AES-CTR decryption steps together recover and accept the framed packet |
| Encrypt.AesFramedRoundTrip | sshproto/src/encrypt.rs:683-728 | any framed packet sent with AES-CTR is accepted with its payload length |
| Encrypt.AesCtrRoundTrip | sshproto/src/encrypt.rs:683-728 | a packet encrypted with AES-CTR and HMAC is decrypted back by matching keys to the same payload length and bytes |
| Encrypt.KeyState.NewCleartext | sshproto/src/encrypt.rs:50-56 | a new key state uses the cleartext keys and both sequence numbers start at 0 |
| Encrypt.KeyState.Rekey | sshproto/src/encrypt.rs:59-61 | new keys replace the old ones and the sequence numbers are kept |
| Encrypt.KeyState.DecryptFirstBlock | sshproto/src/encrypt.rs:64-66 | decrypting a first block follows DecryptFirstBlockSpec and leaves the sequence numbers unchanged |
| Encrypt.KeyState.Decrypt | sshproto/src/encrypt.rs:70-74 | decrypting follows DecryptSpec at the receive sequence number, which then goes up by one with 32-bit wrap-around |
| Encrypt.KeyState.Encrypt | sshproto/src/encrypt.rs:79-86 | encrypting follows EncryptSpec at the send sequence number, which then goes up by one with 32-bit wrap-around |
| KeyDerive.KeyMaterialExtends | sshproto/src/encrypt.rs:199-235 | running the key schedule for more rounds only extends the key material already produced |
| KeyDerive.DerivedKeyRounds | sshproto/src/encrypt.rs:199-235 | a key is the first hash of K, H, the letter and the session id, extended by one more hash of K, H and that first hash when longer than 32 bytes |
| KeyDerive.FillKey | sshproto/src/encrypt.rs:199-235 | a key longer than the buffer is an internal error that changes nothing; otherwise the buffer starts with the derived key and the rest is unchanged |
| KeyDerive.ComputeKey | sshproto/src/encrypt.rs:199-235 | Keys::compute_key writes the key derived from K and H and reports it, with the same error case |
| KeyDerive.KexOutput.ComputeKey | src/kex.rs:627-665 | KexOutput::compute_key writes the key derived from the stored hash state and reports it, with the same error case |
| KeyDerive.KexOutputNew | src/kex.rs:606-614 | the stored hash state holds K as an mpint followed by H, and H is kept |
| KeyDerive.LettersFor | sshproto/src/encrypt.rs:111-196 | the client encrypts with letters A, C and E and the server decrypts with them |
| KeyDerive.LettersMirror | sshproto/src/encrypt.rs:111-196 | each key the client uses for sending is the one the server uses for receiving, and the other way round |
| KeyDerive.NewFromAsWritten | sshproto/src/encrypt.rs:111-196 | as written, integ_dec is sized by integ_enc, so success needs equal MAC key lengths or a chacha20-poly1305 receive side |
| KeyDerive.NewFromAsWrittenRejectsMixed | sshproto/src/encrypt.rs:181-192 | chacha20-poly1305 for sending with AES-CTR and HMAC for receiving fails as written |
| KeyDerive.NewFromSucceeds | sshproto/src/encrypt.rs:111-196 | new_from always succeeds and each key is derived with its letter and the cipher's own lengths |
| KeyDerive.NewFromAsWrittenAgrees | sshproto/src/encrypt.rs:111-196 | where both MAC keys have the same length, the code as written agrees with the corrected derivation |
| KeyDerive.NewFrom | sshproto/src/encrypt.rs:111-196 | deriving into the fixed 64-byte and 32-byte buffers gives what NewFromAsWritten describes, receive MAC key sized by the transmit MAC algorithm included, and the corrected keys of NewFromSpec whenever both MAC keys have the same length |
| KeyDerive.KeysAgree | sshproto/src/encrypt.rs:111-196 | a client and a server with mirrored algorithms derive matching keys: each side's sending key is the other's receiving key |
| Negotiate.AlgoConfigNew | src/kex.rs:63-85 | curve25519 comes first and the kex-strict guess marker last, ext-info-c is offered only by a client, ed25519 leads the host key list and rsa-sha2-256 is there exactly when enabled, and the cipher, MAC and compression lists are fixed |
| Negotiate.MakeKexInit | src/kex.rs:292-308 | our KEXINIT carries our configured lists in both directions, empty languages and no guessed packet |
| Negotiate.FirstIn | src/kex.rs:385-390 | the match is the first client name also on the server's list, and there is none exactly when no client name is on the server's list |
| Negotiate.FirstMatchAgrees | src/kex.rs:385-390 | client and server pick the same name from the same two lists, and a match exists exactly when the lists share a name |
| Negotiate.Pick | src/kex.rs:431-437 | a pick succeeds exactly when the lists share a name, the name is on both lists, and failure is AlgoNoMatch for that algorithm |
| Negotiate.SharedSecretFromName | src/kex.rs:502-509 | only curve25519-sha256 and its libssh name give a key exchange; anything else is an internal error |
| Negotiate.PickCipher | src/kex.rs:431-438 | the cipher chosen is the first match by name; failure is AlgoNoMatch for encryption |
| Negotiate.PickInteg | src/kex.rs:440-456 | an AEAD cipher brings its own integrity; otherwise the MAC is the first match by name and failure is AlgoNoMatch for mac |
| Negotiate.KexPart | src/kex.rs:383-403 | the kex chosen is the first match, is not a marker, and is a curve25519 name |
| Negotiate.HostsigPart | src/kex.rs:413-423 | the host signature type chosen is the first match by name; failure is AlgoNoMatch for hostkey |
| Negotiate.DirectionsPart | src/kex.rs:425-465 | send and receive ciphers are picked from the lists for their own direction, and compression must match in both directions |
| Negotiate.AlgoNegotiation | src/kex.rs:380-483 | the result keeps our role and key pair, sends ext-info only as a server to a client that asks, and picks each algorithm as the first match in its direction |
| Negotiate.MarkerNeverNegotiated | src/kex.rs:392-396 | a marker-only kex name that matches is refused with AlgoNoMatch for kex |
| Negotiate.DiscardNextRule | src/kex.rs:399-470 | the next packet is discarded exactly when the peer sent a guess and the guess of kex or host key was wrong, by the kex-strict rule or the default rule |
| Negotiate.AeadIgnoresMacs | src/kex.rs:440-456 | with chacha20-poly1305 both ways, the MAC lists do not affect the outcome |
| Negotiate.KexPartAgrees | src/kex.rs:380-403 | client and server succeed or fail together on the kex choice |
| Negotiate.HostsigPartAgrees | src/kex.rs:413-423 | client and server pick the same host signature type or fail with the same error |
| Negotiate.DirectionsPartAgrees | src/kex.rs:425-465 | the client's sending choices are the server's receiving choices and the other way round |
| Negotiate.NegotiationAgrees | src/kex.rs:380-483 | client and server negotiating from each other's KEXINIT succeed or fail together and choose mirrored ciphers and MACs, the same host key type and the same discard decision |
| Negotiate.DefaultConfigsAgree | src/kex.rs:63-85 | two default configurations negotiate chacha20-poly1305 both ways with an ed25519 host key |
| Kex.KexHashNew | src/kex.rs:131-167 | without a remote version string it is an internal error; otherwise the transcript starts with the client's version, the server's version, the client's KEXINIT and the server's KEXINIT |
| Kex.Secret | src/kex.rs:702-715 | a used key pair is an internal error, a peer key of the wrong length is BadKex, and otherwise the shared secret is agreed, the key pair is dropped and H finishes the transcript |
| Kex.SecretSingleUse | src/kex.rs:702-715 | an ephemeral key pair yields a secret once; a second use is an internal error |
| Kex.FindSigner | src/kex.rs:549-568 | the host key used is the first one able to sign with the negotiated type, and there is none exactly when no key can |
| Kex.ServerExchange | src/kex.rs:549-568 | a host key error is passed on, no usable host key is an internal error, a wrong-length client key is BadKex, and a success signs H with the first usable key |
| Kex.ClientExchange | src/kex.rs:524-546 | the client succeeds exactly when the secret is agreed, the host signature over H verifies and the host key is accepted |
| Kex.ClientRejects | src/kex.rs:524-546 | a bad host signature gives that verify error, and any host key answer other than acceptance gives BehaviourError("Host key rejected") |
| Kex.SendKexinitStep | src/kex.rs:250-259 | a KEXINIT is sent only when idle, moving to SentKexInit with our cookie; otherwise it is an internal error |
| Kex.ExchangeStart | src/kex.rs:278-289 | a negotiation failure is passed on with nothing sent; on success a client sends its KEXDH_INIT and both move to the DH exchange |
| Kex.KexinitStep | src/kex.rs:261-290 | a KEXINIT answers with our own when idle, is refused as PacketWrong once an exchange is running, and starts the exchange otherwise |
| Kex.KexdhinitStep | src/kex.rs:310-334 | only a server in the DH exchange accepts KEXDH_INIT, a wrong guess is discarded once, and the state is taken on every other path |
| Kex.KexdhreplyStep | src/kex.rs:336-361 | only a client in the DH exchange accepts KEXDH_REPLY, a wrong guess is discarded once, and the state is taken on every other path |
| Kex.NewkeysStep | src/kex.rs:363-377 | NEWKEYS is accepted only while awaiting it, fixes the session id at the first H, installs keys derived from the output and returns to idle |
| Kex.KexinitKeepsKeyDiscipline | src/kex.rs:250-290 | sending and handling KEXINIT keep the rule that an unused key pair exists exactly while the exchange is running |
| Kex.ExchangeKeepsKeyDiscipline | src/kex.rs:310-377 | the DH and NEWKEYS handlers keep the same key pair rule |
| Kex.TakenIsFinal | src/kex.rs:244-247 | once taken, every handler fails and the state stays taken |
| Kex.DiscardOnce | src/kex.rs:310-334 | a wrongly guessed KEXDH_INIT is ignored once and the next one is handled |
| Kex.SessionIdFixedByFirstExchange | src/kex.rs:363-377 | the session id is the H of the first exchange and a later exchange keeps it |
| Kex.TranscriptAgrees | src/kex.rs:131-167 | a client and a server that exchanged versions and KEXINITs start the same transcript |
| Kex.ExchangeOutputsAgree | src/kex.rs:524-568 | when the server's reply verifies at the client, both sides hold the same H and shared secret |
| Kex.KexinitAgrees | src/kex.rs:261-290 | a client and a server handling each other's KEXINIT move to matching exchanges |
| Kex.ExchangeAgrees | src/kex.rs:827-880 | a full exchange between a client and a server ends with both awaiting NEWKEYS with the same output and session id, and each side's sending keys pair with the other's receiving keys |
| Kex.Kex.constructor | src/kex.rs:240-242 | a new exchange is idle |
| Kex.Kex.Take | src/kex.rs:244-247 | taking returns the state and leaves it taken |
| Kex.Kex.SendKexinit | src/kex.rs:250-259 | the state, packets sent and outcome are those of SendKexinitStep |
| Kex.Kex.HandleKexinit | src/kex.rs:261-290 | the state, packets sent and outcome are those of KexinitStep |
| Kex.Kex.StartExchange | src/kex.rs:278-289 | the state, packets sent and outcome are those of ExchangeStart |
| Kex.Kex.HandleKexdhinit | src/kex.rs:310-334 | the state, packets sent and outcome are those of KexdhinitStep |
| Kex.Kex.HandleKexdhreply | src/kex.rs:336-361 | the state, packets sent and outcome are those of KexdhreplyStep |
| Kex.Kex.HandleNewkeys | src/kex.rs:363-377 | the state, session id, rekey and outcome are those of NewkeysStep |
| CliAuth.CliBehaviour.Username | src/behaviour.rs:121 | the user name answer is the one the behaviour holds |
| CliAuth.CliBehaviour.AuthPassword | src/behaviour.rs:127-134 | each call gives the next scripted password answer, and no password once the script runs out |
| CliAuth.CliBehaviour.NextAuthkey | src/behaviour.rs:136-142 | each call gives the next scripted key answer, and no key once the script runs out |
| CliAuth.CliBehaviour.Authenticated | src/behaviour.rs:154-156 | the authenticated notification is counted once per call |
| CliAuth.ReqPacket | src/cliauth.rs:42-74 | the request carries the user name, the ssh-connection service and the method of the request: the password unchanged, or the ed25519 public key of the signing key with the signature given |
| CliAuth.AuthSignature | src/cliauth.rs:164-197 | only a publickey request can be signed; the message signed is the session id with the request stripped of its signature |
| CliAuth.ProgressStep | src/cliauth.rs:106-126 | only the first call acts: it asks for the user name, sends the service request and the none request, and moves on even when the user name fails |
| CliAuth.ProgressOnce | src/cliauth.rs:106-126 | a second progress call does nothing, so at most two packets are ever sent |
| CliAuth.PubkeyPhase | src/cliauth.rs:143-162 | a key offered becomes the pending publickey request; an exhausted or failing key source turns publickey off |
| CliAuth.FailureSend | src/cliauth.rs:270-288 | a pending request is sent unsigned and records the auth type; no pending request fails |
| CliAuth.FailureSendsOneRequestOrGivesUp | src/cliauth.rs:246-288 | a failure sends at most one request, succeeds exactly when it sends one, and keeps the user name |
| CliAuth.PubkeyBeforePassword | src/cliauth.rs:256-267 | while keys are offered the next key is tried and no password is asked for |
| CliAuth.PasswordAskedOnlyAsFallback | src/cliauth.rs:256-267 | a password is asked for exactly when no key was offered, passwords are still tried and the server allows them |
| CliAuth.PubkeyExhaustion | src/cliauth.rs:143-162 | publickey stays on exactly while keys keep coming or the server does not offer publickey |
| CliAuth.PasswordExhaustion | src/cliauth.rs:128-138 | password stays on unless it was asked for and no password came |
| CliAuth.PkOkStep | src/cliauth.rs:215-244 | a PK_OK for the key just offered is answered with the signed request and records publickey; any other PK_OK is SSHProtoError |
| CliAuth.Auth60Step | src/cliauth.rs:199-213 | a password change request is not handled; a PK_OK goes to the publickey answer, with the recorded auth type cleared first |
| CliAuth.PkOkAnswersLastKey | src/cliauth.rs:199-244 | a successful message 60 answer is the last key's request, signed over the session id and the unsigned request |
| CliAuth.CliAuth.constructor | src/cliauth.rs:95-103 | a new client authenticator is unstarted with no user name and tries both password and publickey |
| CliAuth.CliAuth.Progress | src/cliauth.rs:106-126 | the new state, packets sent and outcome are those of ProgressStep |
| CliAuth.CliAuth.MakePasswordReq | src/cliauth.rs:128-138 | a behaviour error becomes BehaviourError, no password means no request, and a password becomes a password request |
| CliAuth.CliAuth.MakePubkeyReq | src/cliauth.rs:143-162 | a key becomes a publickey request; no key or an error turns publickey off |
| CliAuth.CliAuth.PubkeyLoop | src/cliauth.rs:256-260 | the publickey phase ends with the state, key source and flag PubkeyPhase describes |
| CliAuth.CliAuth.SendChosen | src/cliauth.rs:270-288 | the packets sent, auth type and outcome are those of FailureSend |
| CliAuth.CliAuth.Choose | src/cliauth.rs:246-269 | the choice made and the answers consumed are those of ChooseStep |
| CliAuth.CliAuth.Failure | src/cliauth.rs:246-288 | the new state, packets sent, auth type, answers consumed and outcome are those of FailureStep |
| CliAuth.CliAuth.AuthPkOk | src/cliauth.rs:215-244 | the packets sent, auth type and outcome are those of PkOkStep |
| CliAuth.CliAuth.Auth60 | src/cliauth.rs:199-213 | the packets sent, auth type and outcome are those of Auth60Step |
| CliAuth.CliAuth.Success | src/cliauth.rs:290-296 | success moves to idle, tells the behaviour once and passes |
| CliAuth.CliAuth.HandleExtInfo | src/cliauth.rs:298-304 | rsa-sha2-256 is allowed exactly when the server's list names it; no list changes nothing |
| DoorCliAuth.RespPackets.constructor | door-sshproto/src/cliauth.rs:27-40 | a response queue starts empty with the given capacity |
| DoorCliAuth.RespPackets.Push | door-sshproto/src/cliauth.rs:27-40 | the outcome and new queue are those of PushStep |
| DoorCliAuth.PushStep | door-sshproto/src/cliauth.rs:27-40 | a push succeeds exactly when there is room and appends the packet; a full queue is an internal error that changes nothing |
| DoorCliAuth.OpeningPackets | door-sshproto/src/cliauth.rs:30-37 | the opening is a service request followed by a user auth request |
| DoorCliAuth.StartQueuesOpening | door-sshproto/src/cliauth.rs:27-40 | the first start marks the authenticator started and queues the two opening packets, or fails with an internal error when they do not fit |
| DoorCliAuth.StartOnce | door-sshproto/src/cliauth.rs:27-40 | after a start, a later start queues nothing and passes |
| DoorCliAuth.CliAuth.constructor | door-sshproto/src/cliauth.rs:20-25 | a new authenticator is not started and uses the fixed user name |
| DoorCliAuth.CliAuth.Start | door-sshproto/src/cliauth.rs:27-40 | the started flag, queue and outcome are those of StartStep |
| DoorCliAuth.CliAuth.Failure | door-sshproto/src/cliauth.rs:42-44 | a failure message is accepted with nothing done |
| DoorCliAuth.CliAuth.Success | door-sshproto/src/cliauth.rs:46-48 | a success message is accepted with nothing done |
| DoorClient.OneSessionPerCallback | door-sshproto/src/client.rs:81-88 | the first session request is recorded with its pty flag; a second one fails and changes nothing |
| DoorClient.OpenSessionRefusesAgain | door-sshproto/src/client.rs:81-88 | once a session was requested, every further request fails and leaves the handle as it was |
| DoorClient.ClientHandle.constructor | door-sshproto/src/client.rs:74-79 | a new handle has no session and no pty |
| DoorClient.ClientHandle.OpenSession | door-sshproto/src/client.rs:81-88 | the new handle and outcome are those of OpenSessionStep |
| DoorClient.Client.constructor | door-sshproto/src/client.rs:23-28 | a new client owns a fresh, unstarted authenticator |
| DoorClient.Client.AuthSuccess | door-sshproto/src/client.rs:32-43 | after authentication the ssh-connection service request is queued, as PushStep describes |

## Left out

- Cryptographic primitives (AES, chacha20-poly1305, HMAC, SHA-256, X25519, Ed25519) are function-typed parameters. Their types state only lengths and that the keystream mask undoes itself. A lemma that needs the Diffie-Hellman agreement takes it as a precondition.
- Random generation (KEXINIT cookies, ephemeral key pairs, packet padding) is a parameter or an arbitrary value, and it never fails.
- Encrypt.EncryptInPlace: the padding fill (Encrypt.FillRandom) always succeeds, so the error return of `fill_random` at sshproto/src/encrypt.rs:400 is not modelled.
- Kex.SendKexinitStep: the cookie is a parameter, so the `fill_random` failure at src/kex.rs:255 is not modelled.
- Kex.KexinitStep: the ephemeral key pair is a parameter, so the `fill_random` failure when it is generated (src/kex.rs:690) is not modelled.
- Wire.TextBytes: text fields (names, user names, passwords, messages, languages) are treated as bytes, one character per byte. Non-ASCII characters are not UTF-8 encoded, and decoding does not validate UTF-8 as the source's `&str` decoding does.
- `ParseContext::seen_unknown` is set only by the decoder in `sshwire.rs`, which is not part of this model, so the model's parse context leaves it out.
- `sshwire.rs`, `namelist.rs`, `conn.rs`, `traffic.rs` and `ident.rs` are not part of this model. Strings, name-lists and mpints follow RFC 4251 section 5. The RFC 4251 mpint encoding of K is taken as given bytes, and our version string is a parameter.
- `Keys::derive`, which `handle_newkeys` calls, is not part of this model; the model derives the keys with `NewFromSpec` over the exchange output's hash state.
- Signing (`SignKey::sign`, `can_sign`, agent signing) is a parameter; only ed25519 signing keys are modelled, with no agent key variant.
- `MethodPubKey::new` is not part of this model; a request is built from `AuthMethodForKey` plus a signature.
- CliAuth.Auth60Step: a password change request reaches `todo!()` in the source, a panic; the model returns an internal error instead.
- The 100-byte `ResponseString` limit on user names and passwords is not modelled.
- Conversion of behaviour errors into engine errors is abstracted to `BehaviourError` with the message the source uses.
- Encrypt.DecryptSpec: no round-trip lemma is proved for chacha20-poly1305; its seal and open are parameters, and only the AES-CTR and cleartext round trips are proved.
- Serialization errors inside the exchange hash (`hash_ser_length`) are not modelled; the transcript is a sequence of items.
- `usize` overflow is not modelled; lengths are unbounded naturals, except the 32-bit packet length and sequence numbers, which are modelled.
- The `force_sig_bool` context that `auth_sig_msg` sets is modelled by writing the unsigned method with the flag forced; the AuthSigMsg struct is a datatype, not its byte encoding.
- Sending a packet never fails in the model; the source's `s.send(p)?` error path is left out.
- DoorClient.Client.AuthSuccess: the client hooks, the banner display and the unfinished `open_session` branch of `door-sshproto` are not modelled.
- `RespPackets` in `door-sshproto` comes from `conn.rs`, which is not part of this model; its capacity is a parameter.
- The async runners, socket I/O, logging and the demo programs are left out.

## Findings

| source | as written | input that shows it | evidently intended | confidence | as-written member | corrected member |
|---|---|---|---|---|---|---|
| sshproto/src/encrypt.rs:181-192 | the receive MAC key is sized with `algos.integ_enc.key_len()` | chacha20-poly1305 for sending and aes256-ctr with hmac-sha2-256 for receiving: the HMAC key is derived with length 0 and `IntegKey::from_integ` refuses it as an internal error | size the receive MAC key with `algos.integ_dec.key_len()` | not executed | KeyDerive.NewFromAsWrittenRejectsMixed | KeyDerive.NewFromSucceeds |
