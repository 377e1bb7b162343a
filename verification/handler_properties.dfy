/** Properties of single handler calls that relate several calls, or a call
    and its collaborators. */
module HandlerProperties {
  import opened Wrappers
  import opened Primitives
  import opened TwoFactor

  /** Every record a handler saves keeps the secret and the recovery code
      paired, whatever the record looked like before. */
  lemma SavedUserIsPaired(o: Oracles, user: User, found: Option<User>, passwordHash: string,
                          key: string, code: string, token: NumberOrString,
                          providerType: NumberOrString, rnd: Random20)
    ensures GetTwoFactor(user).value.saved.None?
    ensures GetRecover(o, user, passwordHash).Success? ==>
      GetRecover(o, user, passwordHash).value.saved.None?
    ensures GenerateAuthenticator(o, user, passwordHash, rnd).Success? ==>
      GenerateAuthenticator(o, user, passwordHash, rnd).value.saved.None?
    ensures Recover(o, found, passwordHash, code).Success? ==>
      TotpPaired(Recover(o, found, passwordHash, code).value.saved.value)
    ensures ActivateAuthenticator(o, user, passwordHash, key, token, rnd).Success? ==>
      TotpPaired(ActivateAuthenticator(o, user, passwordHash, key, token, rnd).value.saved.value)
    ensures DisableAuthenticator(o, user, passwordHash, providerType).Success? ==>
      TotpPaired(DisableAuthenticator(o, user, passwordHash, providerType).value.saved.value)
  {
  }

  /** Enrolment step 1 draws no randomness when a secret is already stored:
      the answer does not depend on the random bytes. */
  lemma GenerateIgnoresRandomWhenEnabled(o: Oracles, user: User, passwordHash: string,
                                         rnd1: Random20, rnd2: Random20)
    requires user.totpSecret.Some?
    ensures GenerateAuthenticator(o, user, passwordHash, rnd1) ==
            GenerateAuthenticator(o, user, passwordHash, rnd2)
  {
  }

  /** A failure of activation before the TOTP check is reported whatever the
      TOTP engine would have said: the engine is not consulted. */
  lemma ActivateFailsBeforeTotp(o: Oracles, user: User, passwordHash: string, key: string,
                                token: NumberOrString, rnd: Random20,
                                totp: (User, u64) -> bool)
    requires ActivateAuthenticator(o, user, passwordHash, key, token, rnd).Failure?
    requires ActivateAuthenticator(o, user, passwordHash, key, token, rnd).error != InvalidTotpCode
    ensures ActivateAuthenticator(o.(validTotp := totp), user, passwordHash, key, token, rnd) ==
            ActivateAuthenticator(o, user, passwordHash, key, token, rnd)
  {
  }

  /** The TOTP engine sees the token through the `as u64` cast, so a negative
      token arrives wrapped modulo 2^64. */
  lemma ActivateChecksWrappedToken(o: Oracles, user: User, passwordHash: string, key: string,
                                   token: NumberOrString, rnd: Random20)
    requires o.intoI32(token).Some? && o.validPassword(user.passwordHash, passwordHash)
    requires o.decode(key).Some? && |o.decode(key).value| == KEY_BYTES
    ensures ActivateAuthenticator(o, user, passwordHash, key, token, rnd).Success? <==>
            o.validTotp(Provisional(user, key), o.intoI32(token).value % TWO_64)
  {
  }

  /** The activation response echoes the key as supplied while the record
      stores its upper-cased form; the two agree exactly when the key holds
      no lower-case letter. */
  lemma ActivateEchoesSuppliedKey(o: Oracles, user: User, passwordHash: string, key: string,
                                  token: NumberOrString, rnd: Random20)
    requires ActivateAuthenticator(o, user, passwordHash, key, token, rnd).Success?
    ensures var reply := ActivateAuthenticator(o, user, passwordHash, key, token, rnd).value;
      reply.response.key == key &&
      (Some(reply.response.key) == reply.saved.value.totpSecret <==> !HasLowerAscii(key))
  {
    UppercaseFixedIff(key);
  }

  /** Disable ignores the provider type it is given. */
  lemma DisableIgnoresType(o: Oracles, user: User, passwordHash: string,
                           t1: NumberOrString, t2: NumberOrString)
    ensures DisableAuthenticator(o, user, passwordHash, t1) ==
            DisableAuthenticator(o, user, passwordHash, t2)
  {
  }

  /** Disable forgets the prior state: two records that differ only in their
      TOTP fields are saved identically. */
  lemma DisableForgetsPriorState(o: Oracles, u1: User, u2: User, passwordHash: string,
                                 t: NumberOrString)
    requires u1.email == u2.email && u1.passwordHash == u2.passwordHash
    requires DisableAuthenticator(o, u1, passwordHash, t).Success?
    requires DisableAuthenticator(o, u2, passwordHash, t).Success?
    ensures DisableAuthenticator(o, u1, passwordHash, t) ==
            DisableAuthenticator(o, u2, passwordHash, t)
  {
  }

  /** The base32 codec decodes what it encodes (section 6 of RFC 4648). */
  ghost predicate Base32RoundTrip(o: Oracles) {
    forall b: seq<byte> :: o.decode(o.encode(b)) == Some(b)
  }

  /** A candidate key from enrolment step 1 always passes the key checks of
      enrolment step 2 with the same password: when that step fails, the cause
      is the token or the TOTP code. */
  lemma GeneratedKeyPassesKeyChecks(o: Oracles, user: User, passwordHash: string, rnd: Random20,
                                    token: NumberOrString, rnd2: Random20)
    requires Base32RoundTrip(o)
    requires GenerateAuthenticator(o, user, passwordHash, rnd).Success?
    requires !GenerateAuthenticator(o, user, passwordHash, rnd).value.response.enabled
    ensures var key := GenerateAuthenticator(o, user, passwordHash, rnd).value.response.key;
      var r := ActivateAuthenticator(o, user, passwordHash, key, token, rnd2);
      r.Failure? ==> r.error in {MalformedToken, InvalidTotpCode}
  {
    assert o.decode(o.encode(rnd)) == Some(rnd);
  }
}
