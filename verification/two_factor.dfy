/** The TOTP-authenticator handlers of the two-factor API. Each handler runs a
    fixed chain of checks, each of which can abort the request, and saves its
    copy of the user at most once, only after every check passes. Activation
    puts the upper-cased candidate key on its copy before the TOTP check
    (`Provisional`); that copy is dropped if the check fails. A `Reply`
    carries the response and the user record the handler saved, if any; a
    `Failure` saves nothing. */
module TwoFactor {
  import opened Wrappers
  import opened Primitives

  /** The part of the user record the handlers read or write. */
  datatype User = User(
    email: string,
    passwordHash: string,
    totpSecret: Option<string>,
    totpRecover: Option<string>)

  /** The pairing invariant: the secret and the recovery code are present
      together or absent together. */
  predicate TotpPaired(u: User) {
    u.totpSecret.Some? == u.totpRecover.Some?
  }

  /** Provider type of the authenticator in the API's provider list. */
  const AUTHENTICATOR_TYPE: int := 0

  /** One error a handler can abort with (an `err!` message). Several
      abort points may share an error: `recover` reports a failed lookup and a
      wrong password alike, and four handlers report a bad password alike. */
  datatype Error =
    | InvalidPassword
    | BadCredentials
    | BadRecoveryCode
    | MalformedToken
    | InvalidTotpSecret
    | InvalidKeyLength
    | InvalidTotpCode

  /** The message each error kind reports. */
  function Message(e: Error): string {
    match e
    case InvalidPassword => "Invalid password"
    case BadCredentials => "Username or password is incorrect. Try again."
    case BadRecoveryCode => "Recovery code is incorrect. Try again."
    case MalformedToken => "Malformed token"
    case InvalidTotpSecret => "Invalid totp secret"
    case InvalidKeyLength => "Invalid key length"
    case InvalidTotpCode => "Invalid totp code"
  }

  /** Different error kinds report different messages, so a caller can tell
      them apart from the message alone. */
  lemma MessageInjective(a: Error, b: Error)
    ensures Message(a) == Message(b) <==> a == b
  {
  }

  /** One entry of the two-factor provider list. */
  datatype Provider = Provider(enabled: bool, providerType: int)

  /** The JSON bodies the handlers answer with. */
  datatype Response =
    | ProviderList(data: Option<seq<Provider>>)
    | RecoverCode(code: Option<string>)
    | Empty
    | Authenticator(enabled: bool, key: string)
    | ProviderState(provider: Provider)

  datatype Reply = Reply(response: Response, saved: Option<User>)

  /** The collaborators whose code is not part of this model: the credential
      checks of the user record (the password check reads the stored hash and
      the supplied one), the token conversion, and the base32 codec of
      section 6 of RFC 4648. */
  datatype Oracles = Oracles(
    validPassword: (string, string) -> bool,
    validTotp: (User, u64) -> bool,
    validRecovery: (User, string) -> bool,
    intoI32: NumberOrString -> Option<i32>,
    encode: seq<byte> -> string,
    decode: string -> Option<seq<byte>>)

  /** The saved copy differs from the user only in the two TOTP fields. */
  predicate OnlyTotpChanged(before: User, after: User) {
    after.email == before.email && after.passwordHash == before.passwordHash
  }

  // ---------------------------------------------------------------------
  // GET /two-factor

  /** Status: a one-entry provider list when a secret is stored, else null. */
  function GetTwoFactor(user: User): (r: Result<Reply, Error>)
    ensures r.Success? && r.value.saved.None? && r.value.response.ProviderList?
    ensures r.value.response.data.None? <==> user.totpSecret.None?
    ensures r.value.response.data.Some? ==>
      r.value.response.data.value == [Provider(true, AUTHENTICATOR_TYPE)]
  {
    var data := if user.totpSecret.None? then None
                else Some([Provider(true, AUTHENTICATOR_TYPE)]);
    Success(Reply(ProviderList(data), None))
  }

  // ---------------------------------------------------------------------
  // POST /two-factor/get-recover

  /** Recovery-code disclosure: the stored code, verbatim, behind the
      password. */
  function GetRecover(o: Oracles, user: User, passwordHash: string): (r: Result<Reply, Error>)
    ensures r.Failure? <==> !o.validPassword(user.passwordHash, passwordHash)
    ensures r.Success? ==> r.value == Reply(RecoverCode(user.totpRecover), None)
  {
    if !o.validPassword(user.passwordHash, passwordHash) then Failure(InvalidPassword)
    else Success(Reply(RecoverCode(user.totpRecover), None))
  }

  // ---------------------------------------------------------------------
  // POST /two-factor/recover

  /** Unauthenticated recovery. `found` is the result of looking the account
      up by e-mail. Success turns the authenticator off. */
  function Recover(o: Oracles, found: Option<User>, passwordHash: string, code: string): (r: Result<Reply, Error>)
    ensures r.Success? <==>
      found.Some? && o.validPassword(found.value.passwordHash, passwordHash) && o.validRecovery(found.value, code)
    ensures r.Failure? ==>
      (r.error == BadCredentials <==> found.None? || !o.validPassword(found.value.passwordHash, passwordHash))
    ensures r.Failure? ==> r.error == BadCredentials || r.error == BadRecoveryCode
    ensures r.Success? ==>
      r.value.response == Empty && r.value.saved.Some? &&
      OnlyTotpChanged(found.value, r.value.saved.value) &&
      r.value.saved.value.totpSecret.None? && r.value.saved.value.totpRecover.None?
  {
    match found
    case None => Failure(BadCredentials)
    case Some(user) =>
      if !o.validPassword(user.passwordHash, passwordHash) then Failure(BadCredentials)
      else if !o.validRecovery(user, code) then Failure(BadRecoveryCode)
      else Success(Reply(Empty, Some(user.(totpSecret := None, totpRecover := None))))
  }

  // ---------------------------------------------------------------------
  // POST /two-factor/get-authenticator

  /** Enrolment step 1: the stored secret if there is one, otherwise a fresh
      candidate key that is not stored. */
  function GenerateAuthenticator(o: Oracles, user: User, passwordHash: string, rnd: Random20): (r: Result<Reply, Error>)
    ensures r.Failure? <==> !o.validPassword(user.passwordHash, passwordHash)
    ensures r.Success? ==> r.value.saved.None?
    ensures r.Success? && user.totpSecret.Some? ==>
      r.value.response == Authenticator(true, user.totpSecret.value)
    ensures r.Success? && user.totpSecret.None? ==>
      r.value.response == Authenticator(false, o.encode(rnd))
  {
    if !o.validPassword(user.passwordHash, passwordHash) then Failure(InvalidPassword)
    else
      var (enabled, key) := match user.totpSecret
        case Some(secret) => (true, secret)
        case None => (false, o.encode(rnd));
      Success(Reply(Authenticator(enabled, key), None))
  }

  // ---------------------------------------------------------------------
  // POST /two-factor/authenticator

  /** The user record against which the TOTP code is checked: the candidate
      key, upper-cased, in place of the stored secret. */
  function Provisional(user: User, key: string): User {
    user.(totpSecret := Some(Uppercase(key)))
  }

  /** Enrolment step 2: checks the token against the candidate key and, when
      it matches, stores the upper-cased key with a fresh recovery code. */
  function ActivateAuthenticator(o: Oracles, user: User, passwordHash: string, key: string,
                                 token: NumberOrString, rnd: Random20): (r: Result<Reply, Error>)
    ensures r.Success? ==>
      r.value.response == Authenticator(true, key) &&
      r.value.saved.Some? && OnlyTotpChanged(user, r.value.saved.value) &&
      r.value.saved.value.totpSecret == Some(Uppercase(key)) &&
      r.value.saved.value.totpRecover == Some(o.encode(rnd))
  {
    match o.intoI32(token)
    case None => Failure(MalformedToken)
    case Some(n) =>
      if !o.validPassword(user.passwordHash, passwordHash) then Failure(InvalidPassword)
      else
        match o.decode(key)
        case None => Failure(InvalidTotpSecret)
        case Some(decoded) =>
          if |decoded| != KEY_BYTES then Failure(InvalidKeyLength)
          else
            var candidate := Provisional(user, key);
            if !o.validTotp(candidate, AsU64(n)) then Failure(InvalidTotpCode)
            else
              var saved := candidate.(totpRecover := Some(o.encode(rnd)));
              Success(Reply(Authenticator(true, key), Some(saved)))
  }

  // ---------------------------------------------------------------------
  // POST /two-factor/disable

  /** Disable: clears both fields and saves, whatever the provider type and
      whatever was stored before. */
  function DisableAuthenticator(o: Oracles, user: User, passwordHash: string, providerType: NumberOrString): (r: Result<Reply, Error>)
    ensures r.Failure? <==> !o.validPassword(user.passwordHash, passwordHash)
    ensures r.Success? ==>
      r.value.response == ProviderState(Provider(false, AUTHENTICATOR_TYPE)) &&
      r.value.saved.Some? && OnlyTotpChanged(user, r.value.saved.value) &&
      r.value.saved.value.totpSecret.None? && r.value.saved.value.totpRecover.None?
  {
    if !o.validPassword(user.passwordHash, passwordHash) then Failure(InvalidPassword)
    else Success(Reply(ProviderState(Provider(false, AUTHENTICATOR_TYPE)),
                       Some(user.(totpSecret := None, totpRecover := None))))
  }
}
