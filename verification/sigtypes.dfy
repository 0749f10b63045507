/** The signature algorithms the engine can verify or produce, and their
    wire names. */
module SigTypes {
  import opened Common
  import opened SshNames

  datatype SigType = Ed25519 | RSA256

  /** The wire name of a signature type; always a name `FromName` accepts. */
  function AlgorithmName(t: SigType): (name: string)
    ensures FromName(name) == Ok(t)
  {
    match t
    case Ed25519 => SSH_NAME_ED25519
    case RSA256 => SSH_NAME_RSA_SHA256
  }

  /** The caller must pass a name that was negotiated from our own list;
      anything else is an internal error. */
  function FromName(name: string): (r: Result<SigType>)
    ensures r.Ok? <==> name == SSH_NAME_ED25519 || name == SSH_NAME_RSA_SHA256
    ensures r.Err? ==> r.error == Bug
    ensures r.Ok? ==> (r.value == Ed25519 <==> name == SSH_NAME_ED25519)
  {
    if name == SSH_NAME_ED25519 then Ok(Ed25519)
    else if name == SSH_NAME_RSA_SHA256 then Ok(RSA256)
    else Err(Bug)
  }
}
