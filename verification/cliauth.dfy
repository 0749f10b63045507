/** The client side of user authentication (RFC 4252): the opening
    "none" request, public keys before passwords when the server lists
    both, PK_OK answered by a signed request for the same key, and the
    exhaustion flags that stop asking the application once it has nothing
    left to offer. */
module CliAuth {
  import opened Common
  import opened SshNames
  import opened Packets
  import opened Sign
  import opened Outbox

  // ---- the application ----

  /** An answer of `CliBehaviour::next_authkey`. */
  type KeyAnswer = Result<Option<SignKey>>

  /** An answer of `CliBehaviour::auth_password`: a password, or none to skip. */
  type PasswordAnswer = Result<Option<string>>

  /** The next answer of a script; the trait's default (nothing to offer)
      once the script is used up. */
  function NextAnswer<T>(script: seq<Result<Option<T>>>): Result<Option<T>>
  {
    if |script| == 0 then Ok(None) else script[0]
  }

  /** What remains of a script after one answer. */
  function Rest<T>(script: seq<T>): seq<T>
  {
    if |script| == 0 then [] else script[1..]
  }

  /** The application behind the client (`CliBehaviour`), as the answers it
      will give, in order. */
  class CliBehaviour {
    var user: Result<string>
    var passwords: seq<PasswordAnswer>
    var authkeys: seq<KeyAnswer>
    var authenticatedCalls: nat

    constructor (user: Result<string>, passwords: seq<PasswordAnswer>, authkeys: seq<KeyAnswer>)
      ensures this.user == user && this.passwords == passwords && this.authkeys == authkeys
      ensures authenticatedCalls == 0
    {
      this.user := user;
      this.passwords := passwords;
      this.authkeys := authkeys;
      authenticatedCalls := 0;
    }

    /** `CliBehaviour::username`. */
    method Username() returns (r: Result<string>)
      ensures r == user
    {
      r := user;
    }

    /** `CliBehaviour::auth_password`. */
    method AuthPassword() returns (r: PasswordAnswer)
      modifies this
      ensures r == NextAnswer(old(passwords)) && passwords == Rest(old(passwords))
      ensures user == old(user) && authkeys == old(authkeys) && authenticatedCalls == old(authenticatedCalls)
    {
      r := NextAnswer(passwords);
      passwords := Rest(passwords);
    }

    /** `CliBehaviour::next_authkey`. */
    method NextAuthkey() returns (r: KeyAnswer)
      modifies this
      ensures r == NextAnswer(old(authkeys)) && authkeys == Rest(old(authkeys))
      ensures user == old(user) && passwords == old(passwords) && authenticatedCalls == old(authenticatedCalls)
    {
      r := NextAnswer(authkeys);
      authkeys := Rest(authkeys);
    }

    /** `CliBehaviour::authenticated`. */
    method Authenticated()
      modifies this
      ensures authenticatedCalls == old(authenticatedCalls) + 1
      ensures user == old(user) && passwords == old(passwords) && authkeys == old(authkeys)
    {
      authenticatedCalls := authenticatedCalls + 1;
    }
  }

  // ---- requests ----

  /** `Req`: what the client last asked the server to accept. */
  datatype Req = PasswordReq(password: string) | PubKeyReq(key: SignKey)

  /** `AuthState`. */
  datatype AuthState = Unstarted | MethodQuery | Request(lastReq: Req) | Idle

  /** The method a request uses, as the parser needs it for message 60. */
  function ReqAuthType(req: Req): AuthType
  {
    match req
    case PasswordReq(_) => PasswordAuth
    case PubKeyReq(_) => PubKeyAuth
  }

  /** The method of a request body, when it is one that message 60 answers. */
  function MethodAuthType(m: AuthMethod): Option<AuthType>
  {
    match m
    case AuthPassword(_, _) => Some(PasswordAuth)
    case AuthPubKey(_) => Some(PubKeyAuth)
    case _ => None
  }

  /** `Req::req_packet`: the USERAUTH_REQUEST for the connection service,
      with a signature attached for a public key when one is given. */
  function ReqPacket(req: Req, username: string, sig: Option<Signature>,
                     publicOf: seq<Byte> -> seq<Byte>): (r: Result<Packet>)
    ensures r.Ok? && r.value.UserauthRequest?
    ensures r.value.username == username && r.value.service == SSH_SERVICE_CONNECTION
    ensures MethodAuthType(r.value.authMethod) == Some(ReqAuthType(req))
    ensures req.PasswordReq? ==> r.value.authMethod == AuthPassword(false, req.password)
    ensures req.PubKeyReq? ==>
      r.value.authMethod == AuthPubKey(MethodPubKey(SSH_NAME_ED25519, SignKeyPubkey(req.key, publicOf), sig))
  {
    match req
    case PubKeyReq(key) =>
      (match AuthMethodForKey(SignKeyPubkey(key, publicOf))
       case Err(e) => Err(e)
       case Ok(m) => Ok(UserauthRequest(username, SSH_SERVICE_CONNECTION, AuthPubKey(m.pk.(sig := sig)))))
    case PasswordReq(pw) =>
      Ok(UserauthRequest(username, SSH_SERVICE_CONNECTION, AuthPassword(false, pw)))
  }

  /** The data a public-key signature covers (section 7 of RFC 4252): the
      session id and the request without its signature. */
  datatype AuthSigMsg = AuthSigMsg(sessId: seq<Byte>, request: Packet)

  /** Signing with one of our keys. */
  type AuthSigner = (SignKey, AuthSigMsg) -> Result<Signature>

  /** `CliAuth::auth_sig_msg`: signs a public-key request with its
      signature removed; any other packet is an internal error. */
  function AuthSignature(key: SignKey, sessId: seq<Byte>, p: Packet, signer: AuthSigner): (r: Result<Signature>)
    ensures !(p.UserauthRequest? && p.authMethod.AuthPubKey?) ==> r == Err(Bug)
    ensures p.UserauthRequest? && p.authMethod.AuthPubKey? ==>
      r == signer(key, AuthSigMsg(sessId, p.(authMethod := AuthPubKey(p.authMethod.pk.(sig := None)))))
  {
    match p
    case UserauthRequest(username, service, AuthPubKey(MethodPubKey(sigAlgo, pubkey, _))) =>
      signer(key, AuthSigMsg(sessId, UserauthRequest(username, service, AuthPubKey(MethodPubKey(sigAlgo, pubkey, None)))))
    case _ => Err(Bug)
  }

  // ---- the state machine, as values ----

  /** The fields of `CliAuth`. */
  datatype AuthView = AuthView(state: AuthState, username: string, tryPassword: bool, tryPubkey: bool,
                               allowRsaSha2: bool)

  /** What `progress` does: the new fields, the packets queued, the result. */
  datatype ProgressOutcome = ProgressOutcome(view: AuthView, sent: seq<Packet>, result: Outcome)

  /** `CliAuth::progress`: the first call moves to `MethodQuery`, asks the
      application for the user name and queues the service request and the
      "none" request; later calls do nothing. */
  function ProgressStep(v: AuthView, user: Result<string>): (r: ProgressOutcome)
    ensures !v.state.Unstarted? ==> r == ProgressOutcome(v, [], Pass)
    ensures v.state.Unstarted? ==> r.view.state == MethodQuery
    ensures v.state.Unstarted? && user.Err? ==> r.sent == [] && r.result == Fail(user.error)
    ensures v.state.Unstarted? && user.Ok? ==>
      r.result == Pass && r.view.username == user.value
      && r.sent == [ServiceRequest(SSH_SERVICE_USERAUTH), UserauthRequest(user.value, SSH_SERVICE_CONNECTION, AuthNone)]
    ensures r.view.tryPassword == v.tryPassword && r.view.tryPubkey == v.tryPubkey
  {
    if !v.state.Unstarted? then ProgressOutcome(v, [], Pass)
    else
      match user
      case Err(e) => ProgressOutcome(v.(state := MethodQuery), [], Fail(e))
      case Ok(u) =>
        ProgressOutcome(v.(state := MethodQuery, username := u),
                        [ServiceRequest(SSH_SERVICE_USERAUTH), UserauthRequest(u, SSH_SERVICE_CONNECTION, AuthNone)], Pass)
  }

  /** The opening requests go out once: a second `progress` sends nothing
      and changes nothing, whatever the application would answer. */
  lemma ProgressOnce(v: AuthView, user1: Result<string>, user2: Result<string>)
    ensures var first := ProgressStep(v, user1);
      var second := ProgressStep(first.view, user2);
      second == ProgressOutcome(first.view, [], Pass)
      && |first.sent| + |second.sent| <= 2
  {
  }

  /** The public-key part of `failure`: the `while try_pubkey` loop, which
      asks for one key and stops there, with a request if one came and
      with `try_pubkey` cleared if none did. */
  function PubkeyPhase(tryPubkey: bool, keys: seq<KeyAnswer>): (r: (bool, AuthState, seq<KeyAnswer>))
    ensures !tryPubkey ==> r == (false, Idle, keys)
    ensures tryPubkey ==> r.2 == Rest(keys)
    ensures r.1.Request? <==> tryPubkey && NextAnswer(keys).Ok? && NextAnswer(keys).value.Some?
    ensures r.1.Request? ==> r.1 == Request(PubKeyReq(NextAnswer(keys).value.value)) && r.0
    ensures !r.1.Request? ==> r.1 == Idle && !r.0
  {
    if !tryPubkey then (false, Idle, keys)
    else
      match NextAnswer(keys)
      case Ok(Some(k)) => (true, Request(PubKeyReq(k)), Rest(keys))
      case _ => (false, Idle, Rest(keys))
  }

  /** What `failure` does: the new fields, the packets queued, the parse
      context, what is left of the application's answers, the result. */
  datatype FailureOutcome = FailureOutcome(view: AuthView, sent: seq<Packet>, ctx: ParseContext,
                                           keys: seq<KeyAnswer>, passwords: seq<PasswordAnswer>,
                                           result: Outcome)

  /** The last part of `failure`: the request of the new state goes out, or
      there is nothing left to try. */
  function FailureSend(v: AuthView, ctx: ParseContext, keys: seq<KeyAnswer>, passwords: seq<PasswordAnswer>,
                       publicOf: seq<Byte> -> seq<Byte>): (r: FailureOutcome)
    requires ctx.cliAuthType.None?
    ensures r.view == v && r.keys == keys && r.passwords == passwords
    ensures r.result.Pass? <==> v.state.Request?
    ensures v.state.Request? ==>
      r.sent == [ReqPacket(v.state.lastReq, v.username, None, publicOf).value]
      && r.ctx == ctx.(cliAuthType := Some(ReqAuthType(v.state.lastReq)))
    ensures !v.state.Request? ==>
      r.sent == [] && r.ctx == ctx && r.result == Fail(BehaviourError("No authentication methods left"))
  {
    if v.state.Request? then
      var req := v.state.lastReq;
      FailureOutcome(v, [ReqPacket(req, v.username, None, publicOf).value],
                     ctx.(cliAuthType := Some(ReqAuthType(req))), keys, passwords, Pass)
    else FailureOutcome(v, [], ctx, keys, passwords, Fail(BehaviourError("No authentication methods left")))
  }

  /** `CliAuth::failure`: public keys first when the server accepts them,
      then a password if no key came, then the request for whatever was
      chosen. */
  function FailureStep(v: AuthView, methods: seq<string>, ctx: ParseContext, keys: seq<KeyAnswer>,
                       passwords: seq<PasswordAnswer>, publicOf: seq<Byte> -> seq<Byte>): FailureOutcome
  {
    var c := ChooseStep(v, methods, keys, passwords);
    var ctx0 := ctx.(cliAuthType := None);
    if c.error.Some? then FailureOutcome(c.view, [], ctx0, c.keys, c.passwords, Fail(c.error.value))
    else FailureSend(c.view, ctx0, c.keys, c.passwords, publicOf)
  }

  /** The choice `failure` makes before sending: the new fields, what is
      left of the application's answers, and the error that ends `failure`
      early, if any. */
  datatype Choice = Choice(view: AuthView, keys: seq<KeyAnswer>, passwords: seq<PasswordAnswer>,
                           error: Option<Error>)

  /** The first part of `failure`: a key if the server accepts keys and we
      have one; otherwise a password if the server accepts passwords and
      the application gives one. */
  function ChooseStep(v: AuthView, methods: seq<string>, keys: seq<KeyAnswer>,
                      passwords: seq<PasswordAnswer>): Choice
  {
    var phase := if SSH_AUTHMETHOD_PUBLICKEY in methods then PubkeyPhase(v.tryPubkey, keys)
                 else (v.tryPubkey, Idle, keys);
    var v1 := v.(state := phase.1, tryPubkey := phase.0);
    if phase.1.Idle? && v.tryPassword && SSH_AUTHMETHOD_PASSWORD in methods then
      PasswordPhase(v1, phase.2, passwords)
    else Choice(v1, phase.2, passwords, None)
  }

  /** The password part of `failure`, once no key was offered: one
      password is asked for; none clears `try_password`; an error from the
      application ends `failure`. */
  function PasswordPhase(v: AuthView, keys: seq<KeyAnswer>, passwords: seq<PasswordAnswer>): Choice
  {
    match NextAnswer(passwords)
    case Err(_) => Choice(v, keys, Rest(passwords), Some(BehaviourError("No password returned")))
    case Ok(None) => Choice(v.(tryPassword := false), keys, Rest(passwords), None)
    case Ok(Some(pw)) => Choice(v.(state := Request(PasswordReq(pw))), keys, Rest(passwords), None)
  }

  /** `failure` either queues exactly one request, built from the new
      `Request` state and announced to the parser, or fails without
      sending; with nothing left to try the state is `Idle`. */
  lemma FailureSendsOneRequestOrGivesUp(v: AuthView, methods: seq<string>, ctx: ParseContext,
                                        keys: seq<KeyAnswer>, passwords: seq<PasswordAnswer>,
                                        publicOf: seq<Byte> -> seq<Byte>)
    ensures var r := FailureStep(v, methods, ctx, keys, passwords, publicOf);
      r.view.username == v.username && r.view.allowRsaSha2 == v.allowRsaSha2
      && |r.sent| <= 1 && (r.result.Pass? <==> |r.sent| == 1)
      && (r.result.Pass? ==>
            r.view.state.Request? && r.sent == [ReqPacket(r.view.state.lastReq, v.username, None, publicOf).value]
            && r.ctx == ctx.(cliAuthType := Some(ReqAuthType(r.view.state.lastReq))))
      && (r.result.Fail? ==> r.ctx == ctx.(cliAuthType := None) && !r.view.state.Request?)
      && (r.result.Fail? ==>
            r.result.error == BehaviourError("No authentication methods left")
            || r.result.error == BehaviourError("No password returned"))
      && (r.result == Fail(BehaviourError("No authentication methods left")) ==> r.view.state == Idle)
  {
  }

  /** Whether `failure` obtains a public-key request: the server accepts
      public keys, we have not run out, and the application offers one. */
  predicate KeyOffered(v: AuthView, methods: seq<string>, keys: seq<KeyAnswer>)
  {
    SSH_AUTHMETHOD_PUBLICKEY in methods && v.tryPubkey && NextAnswer(keys).Ok? && NextAnswer(keys).value.Some?
  }

  /** Public keys come first: when a key is offered, its request is the one
      sent and the application is not asked for a password. */
  lemma PubkeyBeforePassword(v: AuthView, methods: seq<string>, ctx: ParseContext, keys: seq<KeyAnswer>,
                             passwords: seq<PasswordAnswer>, publicOf: seq<Byte> -> seq<Byte>)
    requires KeyOffered(v, methods, keys)
    ensures var r := FailureStep(v, methods, ctx, keys, passwords, publicOf);
      r.result.Pass? && r.view.state == Request(PubKeyReq(NextAnswer(keys).value.value))
      && r.passwords == passwords && r.keys == Rest(keys) && r.view.tryPubkey
  {
  }

  /** The application is asked for a password exactly when no key was
      offered, we still try passwords, and the server accepts them. */
  lemma PasswordAskedOnlyAsFallback(v: AuthView, methods: seq<string>, ctx: ParseContext, keys: seq<KeyAnswer>,
                                    passwords: seq<PasswordAnswer>, publicOf: seq<Byte> -> seq<Byte>)
    requires |passwords| > 0
    ensures var r := FailureStep(v, methods, ctx, keys, passwords, publicOf);
      (r.passwords != passwords) <==>
        !KeyOffered(v, methods, keys) && v.tryPassword && SSH_AUTHMETHOD_PASSWORD in methods
  {
    var r := FailureStep(v, methods, ctx, keys, passwords, publicOf);
    assert |Rest(passwords)| < |passwords|;
  }

  /** `try_pubkey` is cleared exactly when the application was asked for a
      key and had none, and once cleared, keys are never asked for again. */
  lemma PubkeyExhaustion(v: AuthView, methods: seq<string>, ctx: ParseContext, keys: seq<KeyAnswer>,
                         passwords: seq<PasswordAnswer>, publicOf: seq<Byte> -> seq<Byte>)
    ensures var r := FailureStep(v, methods, ctx, keys, passwords, publicOf);
      (r.view.tryPubkey <==> v.tryPubkey && (SSH_AUTHMETHOD_PUBLICKEY !in methods || KeyOffered(v, methods, keys)))
      && (!v.tryPubkey ==> r.keys == keys && !r.view.tryPubkey)
  {
  }

  /** `try_password` is cleared exactly when the application was asked for a
      password and declined; an error from the application leaves it set. */
  lemma PasswordExhaustion(v: AuthView, methods: seq<string>, ctx: ParseContext, keys: seq<KeyAnswer>,
                           passwords: seq<PasswordAnswer>, publicOf: seq<Byte> -> seq<Byte>)
    ensures var r := FailureStep(v, methods, ctx, keys, passwords, publicOf);
      var asked := !KeyOffered(v, methods, keys) && v.tryPassword && SSH_AUTHMETHOD_PASSWORD in methods;
      (r.view.tryPassword <==> v.tryPassword && !(asked && NextAnswer(passwords) == Ok(None)))
      && (asked && NextAnswer(passwords).Err? ==> r.result == Fail(BehaviourError("No password returned")))
  {
  }

  /** What message 60 does: packets queued, parse context, result. */
  datatype Auth60Outcome = Auth60Outcome(sent: seq<Packet>, ctx: ParseContext, result: Outcome)

  /** `CliAuth::auth_pkok`: a PK_OK for the key of the pending public-key
      request is answered by that request signed over the session id;
      anything else is a protocol error. */
  function PkOkStep(v: AuthView, key: PubKey, sessId: seq<Byte>, ctx: ParseContext,
                    signer: AuthSigner, publicOf: seq<Byte> -> seq<Byte>): (r: Auth60Outcome)
    ensures |r.sent| <= 1 && (r.result.Pass? <==> |r.sent| == 1)
    ensures r.result.Pass? ==> r.ctx == ctx.(cliAuthType := Some(PubKeyAuth))
    ensures !(v.state.Request? && v.state.lastReq.PubKeyReq?) ==> r == Auth60Outcome([], ctx, Fail(SSHProtoError))
    ensures v.state.Request? && v.state.lastReq.PubKeyReq? && SignKeyPubkey(v.state.lastReq.key, publicOf) != key ==>
      r == Auth60Outcome([], ctx, Fail(SSHProtoError))
  {
    if v.state.Request? && v.state.lastReq.PubKeyReq? then
      var req := v.state.lastReq;
      if SignKeyPubkey(req.key, publicOf) != key then Auth60Outcome([], ctx, Fail(SSHProtoError))
      else
        var ctx' := ctx.(cliAuthType := Some(ReqAuthType(req)));
        var p := ReqPacket(req, v.username, None, publicOf).value;
        match AuthSignature(req.key, sessId, p, signer)
        case Err(e) => Auth60Outcome([], ctx', Fail(e))
        case Ok(sig) => Auth60Outcome([ReqPacket(req, v.username, Some(sig), publicOf).value], ctx', Pass)
    else Auth60Outcome([], ctx, Fail(SSHProtoError))
  }

  /** `CliAuth::auth60`: the parse context forgets the request method, then
      a PK_OK goes to `auth_pkok`; a password change request is not
      supported. */
  function Auth60Step(v: AuthView, msg: Userauth60Msg, sessId: seq<Byte>, ctx: ParseContext,
                      signer: AuthSigner, publicOf: seq<Byte> -> seq<Byte>): (r: Auth60Outcome)
    ensures msg.PwChangeReq? ==> r == Auth60Outcome([], ctx.(cliAuthType := None), Fail(Bug))
    ensures msg.PkOk? ==> r == PkOkStep(v, msg.key, sessId, ctx.(cliAuthType := None), signer, publicOf)
  {
    var ctx0 := ctx.(cliAuthType := None);
    match msg
    case PwChangeReq(_, _) => Auth60Outcome([], ctx0, Fail(Bug))
    case PkOk(_, key) => PkOkStep(v, key, sessId, ctx0, signer, publicOf)
  }

  /** A PK_OK is answered only for the key last offered, and the answer is
      that key's request carrying a signature over the session id and the
      same request unsigned (section 7 of RFC 4252). */
  lemma PkOkAnswersLastKey(v: AuthView, msg: Userauth60Msg, sessId: seq<Byte>, ctx: ParseContext,
                           signer: AuthSigner, publicOf: seq<Byte> -> seq<Byte>)
    requires Auth60Step(v, msg, sessId, ctx, signer, publicOf).result.Pass?
    ensures msg.PkOk? && v.state.Request? && v.state.lastReq.PubKeyReq?
    ensures var key := v.state.lastReq.key;
      var pk := SignKeyPubkey(key, publicOf);
      var unsigned := UserauthRequest(v.username, SSH_SERVICE_CONNECTION, AuthPubKey(MethodPubKey(SSH_NAME_ED25519, pk, None)));
      var sent := Auth60Step(v, msg, sessId, ctx, signer, publicOf).sent[0];
      pk == msg.key
      && signer(key, AuthSigMsg(sessId, unsigned)).Ok?
      && sent == unsigned.(authMethod := AuthPubKey(MethodPubKey(SSH_NAME_ED25519, pk,
                                                                 Some(signer(key, AuthSigMsg(sessId, unsigned)).value))))
  {
    var key := v.state.lastReq.key;
    var p := ReqPacket(v.state.lastReq, v.username, None, publicOf).value;
    assert AuthSignature(key, sessId, p, signer) == signer(key, AuthSigMsg(sessId, p));
  }

  // ---- the state machine itself ----

  class CliAuth {
    var state: AuthState
    var username: string
    /** Cleared when the application declines to give a password. */
    var tryPassword: bool
    /** Cleared when the application has no further key. */
    var tryPubkey: bool
    /** Set from the server's EXT_INFO. */
    var allowRsaSha2: bool

    function View(): AuthView
      reads this
    {
      AuthView(state, username, tryPassword, tryPubkey, allowRsaSha2)
    }

    /** `CliAuth::new`. */
    constructor ()
      ensures View() == AuthView(Unstarted, "", true, true, false)
    {
      state := Unstarted;
      username := "";
      tryPassword := true;
      tryPubkey := true;
      allowRsaSha2 := false;
    }

    /** `CliAuth::progress`; may be called any number of times. */
    method Progress(s: Outbox, b: CliBehaviour) returns (r: Outcome)
      modifies this, s
      ensures var step := ProgressStep(old(View()), b.user);
        View() == step.view && s.sent == old(s.sent) + step.sent && r == step.result
      ensures s.rekeys == old(s.rekeys)
    {
      if state.Unstarted? {
        state := MethodQuery;
        var user := b.Username();
        if user.Err? {
          return Fail(user.error);
        }
        username := user.value;
        s.Send(ServiceRequest(SSH_SERVICE_USERAUTH));
        s.Send(UserauthRequest(username, SSH_SERVICE_CONNECTION, AuthNone));
      } else {
        assert s.sent == old(s.sent) + [];
      }
      r := Pass;
    }

    /** `CliAuth::make_password_req`. */
    method MakePasswordReq(b: CliBehaviour) returns (r: Result<Option<Req>>)
      modifies b
      ensures var a := NextAnswer(old(b.passwords));
        (a.Err? ==> r == Err(BehaviourError("No password returned")))
        && (a == Ok(None) ==> r == Ok(None))
        && (a.Ok? && a.value.Some? ==> r == Ok(Some(PasswordReq(a.value.value))))
      ensures b.passwords == Rest(old(b.passwords)) && b.authkeys == old(b.authkeys)
      ensures b.user == old(b.user) && b.authenticatedCalls == old(b.authenticatedCalls)
    {
      var a := b.AuthPassword();
      match a
      case Err(_) => r := Err(BehaviourError("No password returned"));
      case Ok(Some(pw)) => r := Ok(Some(PasswordReq(pw)));
      case Ok(None) => r := Ok(None);
    }

    /** `CliAuth::make_pubkey_req`: an error from the application counts as
        having no key; with no key `try_pubkey` is cleared. */
    method MakePubkeyReq(b: CliBehaviour) returns (req: Option<Req>)
      modifies this, b
      ensures var a := NextAnswer(old(b.authkeys));
        (a.Ok? && a.value.Some? ==> req == Some(PubKeyReq(a.value.value)) && tryPubkey == old(tryPubkey))
        && (!(a.Ok? && a.value.Some?) ==> req == None && !tryPubkey)
      ensures state == old(state) && username == old(username) && tryPassword == old(tryPassword)
      ensures allowRsaSha2 == old(allowRsaSha2)
      ensures b.authkeys == Rest(old(b.authkeys)) && b.passwords == old(b.passwords)
      ensures b.user == old(b.user) && b.authenticatedCalls == old(b.authenticatedCalls)
    {
      var k := b.NextAuthkey();
      if k.Ok? && k.value.Some? {
        req := Some(PubKeyReq(k.value.value));
      } else {
        tryPubkey := false;
        req := None;
      }
    }

    /** The `while try_pubkey` loop of `failure`. */
    method PubkeyLoop(b: CliBehaviour)
      modifies this, b
      ensures (tryPubkey, state, b.authkeys) == PubkeyPhase(old(tryPubkey), old(b.authkeys))
      ensures username == old(username) && tryPassword == old(tryPassword) && allowRsaSha2 == old(allowRsaSha2)
      ensures b.passwords == old(b.passwords) && b.user == old(b.user)
      ensures b.authenticatedCalls == old(b.authenticatedCalls)
    {
      state := Idle;
      while tryPubkey
        invariant (tryPubkey, state, b.authkeys) == (old(tryPubkey), Idle, old(b.authkeys))
                  || (!tryPubkey && (tryPubkey, state, b.authkeys) == PubkeyPhase(old(tryPubkey), old(b.authkeys)))
        invariant username == old(username) && tryPassword == old(tryPassword) && allowRsaSha2 == old(allowRsaSha2)
        invariant b.passwords == old(b.passwords) && b.user == old(b.user)
        invariant b.authenticatedCalls == old(b.authenticatedCalls)
        decreases if tryPubkey then 1 else 0
      {
        var req := MakePubkeyReq(b);
        if req.Some? {
          state := Request(req.value);
          break;
        }
      }
    }

    /** The end of `failure`: the chosen request goes out, or there is
        nothing left to try. */
    method SendChosen(ctx: ParseContext, s: Outbox, publicOf: seq<Byte> -> seq<Byte>)
      returns (r: Outcome, ctx': ParseContext)
      requires ctx.cliAuthType.None?
      modifies s
      ensures var step := FailureSend(View(), ctx, [], [], publicOf);
        s.sent == old(s.sent) + step.sent && ctx' == step.ctx && r == step.result
      ensures s.rekeys == old(s.rekeys)
    {
      if state.Request? {
        var req := state.lastReq;
        ctx' := ctx.(cliAuthType := Some(ReqAuthType(req)));
        s.Send(ReqPacket(req, username, None, publicOf).value);
        r := Pass;
      } else {
        assert s.sent == old(s.sent) + [];
        r, ctx' := Fail(BehaviourError("No authentication methods left")), ctx;
      }
    }

    /** The key and password choice of `failure`. */
    method Choose(methods: seq<string>, b: CliBehaviour) returns (err: Option<Error>)
      modifies this, b
      ensures Choice(View(), b.authkeys, b.passwords, err)
           == ChooseStep(old(View()), methods, old(b.authkeys), old(b.passwords))
      ensures b.user == old(b.user) && b.authenticatedCalls == old(b.authenticatedCalls)
    {
      state := Idle;
      if SSH_AUTHMETHOD_PUBLICKEY in methods {
        PubkeyLoop(b);
      }
      err := None;
      if state.Idle? && tryPassword && SSH_AUTHMETHOD_PASSWORD in methods {
        var req := MakePasswordReq(b);
        if req.Err? {
          err := Some(req.error);
        } else if req.value.Some? {
          state := Request(req.value.value);
        } else {
          tryPassword := false;
        }
      }
    }

    /** `CliAuth::failure`, on the method names of a USERAUTH_FAILURE;
        `ctx` is the connection's parse context, passed in and handed back. */
    method Failure(methods: seq<string>, ctx: ParseContext, s: Outbox, b: CliBehaviour,
                   publicOf: seq<Byte> -> seq<Byte>) returns (r: Outcome, ctx': ParseContext)
      modifies this, s, b
      ensures var step := FailureStep(old(View()), methods, ctx, old(b.authkeys), old(b.passwords), publicOf);
        View() == step.view && s.sent == old(s.sent) + step.sent && ctx' == step.ctx
        && b.authkeys == step.keys && b.passwords == step.passwords && r == step.result
      ensures s.rekeys == old(s.rekeys) && b.user == old(b.user) && b.authenticatedCalls == old(b.authenticatedCalls)
    {
      ctx' := ctx.(cliAuthType := None);
      var err := Choose(methods, b);
      if err.Some? {
        assert s.sent == old(s.sent) + [];
        return Fail(err.value), ctx';
      }
      r, ctx' := SendChosen(ctx', s, publicOf);
    }

    /** `CliAuth::auth_pkok`. */
    method AuthPkOk(key: PubKey, sessId: seq<Byte>, ctx: ParseContext, s: Outbox, signer: AuthSigner,
                    publicOf: seq<Byte> -> seq<Byte>) returns (r: Outcome, ctx': ParseContext)
      modifies s
      ensures var step := PkOkStep(View(), key, sessId, ctx, signer, publicOf);
        s.sent == old(s.sent) + step.sent && ctx' == step.ctx && r == step.result
      ensures s.rekeys == old(s.rekeys)
    {
      ctx' := ctx;
      if state.Request? && state.lastReq.PubKeyReq? {
        var req := state.lastReq;
        if SignKeyPubkey(req.key, publicOf) != key {
          return Fail(SSHProtoError), ctx';
        }
        ctx' := ctx'.(cliAuthType := Some(ReqAuthType(req)));
        var p := ReqPacket(req, username, None, publicOf).value;
        var sig := AuthSignature(req.key, sessId, p, signer);
        if sig.Err? {
          assert s.sent == old(s.sent) + [];
          return Fail(sig.error), ctx';
        }
        s.Send(ReqPacket(req, username, Some(sig.value), publicOf).value);
        return Pass, ctx';
      }
      assert s.sent == old(s.sent) + [];
      r := Fail(SSHProtoError);
    }

    /** `CliAuth::auth60`: the parse context's method is reset, then PK_OK
        is handled; a password change request is not supported. */
    method Auth60(msg: Userauth60Msg, sessId: seq<Byte>, ctx: ParseContext, s: Outbox, signer: AuthSigner,
                  publicOf: seq<Byte> -> seq<Byte>) returns (r: Outcome, ctx': ParseContext)
      modifies s
      ensures var step := Auth60Step(View(), msg, sessId, ctx, signer, publicOf);
        s.sent == old(s.sent) + step.sent && ctx' == step.ctx && r == step.result
      ensures s.rekeys == old(s.rekeys)
    {
      var ctx0 := ctx.(cliAuthType := None);
      match msg
      case PwChangeReq(_, _) =>
        assert s.sent == old(s.sent) + [];
        return Fail(Bug), ctx0;
      case PkOk(_, key) =>
        r, ctx' := AuthPkOk(key, sessId, ctx0, s, signer, publicOf);
    }

    /** `CliAuth::success`: back to `Idle`, and the application is told once. */
    method Success(b: CliBehaviour) returns (r: Outcome)
      modifies this, b
      ensures View() == old(View()).(state := Idle) && r == Pass
      ensures b.authenticatedCalls == old(b.authenticatedCalls) + 1
      ensures b.user == old(b.user) && b.passwords == old(b.passwords) && b.authkeys == old(b.authkeys)
    {
      state := Idle;
      b.Authenticated();
      r := Pass;
    }

    /** `CliAuth::handle_ext_info`: a server-sig-algs list decides whether
        rsa-sha2-256 may be used; without one nothing changes. */
    method HandleExtInfo(serverSigAlgs: Option<seq<string>>)
      modifies this
      ensures serverSigAlgs.Some? ==>
        View() == old(View()).(allowRsaSha2 := SSH_NAME_RSA_SHA256 in serverSigAlgs.value)
      ensures serverSigAlgs.None? ==> View() == old(View())
    {
      if serverSigAlgs.Some? {
        allowRsaSha2 := SSH_NAME_RSA_SHA256 in serverSigAlgs.value;
      }
    }
  }
}
