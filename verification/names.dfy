/** Algorithm, method and service names as they appear on the wire. */
module SshNames {
  // key exchange (RFC 8731)
  const KEX_CURVE25519: string := "curve25519-sha256"
  const KEX_CURVE25519_LIBSSH: string := "curve25519-sha256@libssh.org"
  // names that only signal a capability and are never negotiated
  const KEX_EXTINFO_C: string := "ext-info-c"        // RFC 8308 section 2.1
  const KEX_EXTINFO_S: string := "ext-info-s"
  const KEX_KEXGUESS2: string := "kexguess2@matt.ucc.asn.au"
  // host key / signature algorithms
  const SSH_NAME_ED25519: string := "ssh-ed25519"
  const SSH_NAME_RSA: string := "ssh-rsa"
  const SSH_NAME_RSA_SHA256: string := "rsa-sha2-256"
  // ciphers, MACs, compression
  const SSH_NAME_CHAPOLY: string := "chacha20-poly1305@openssh.com"
  const SSH_NAME_AES256_CTR: string := "aes256-ctr"
  const SSH_NAME_HMAC_SHA256: string := "hmac-sha2-256"
  const SSH_NAME_NONE: string := "none"
  // user authentication methods (RFC 4252)
  const SSH_AUTHMETHOD_PASSWORD: string := "password"
  const SSH_AUTHMETHOD_PUBLICKEY: string := "publickey"
  // services (RFC 4253 section 10)
  const SSH_SERVICE_USERAUTH: string := "ssh-userauth"
  const SSH_SERVICE_CONNECTION: string := "ssh-connection"
}
