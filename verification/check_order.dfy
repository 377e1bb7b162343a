/** The order in which each handler runs its checks, written as a table of
    guards, and the proof that each handler reports exactly the error of the
    first guard that fails. */
module CheckOrder {
  import opened Wrappers
  import opened Primitives
  import opened Guards
  import opened TwoFactor

  /** Success exactly when no guard fails; otherwise the first failing guard's
      error. */
  predicate Follows(r: Result<Reply, Error>, gs: seq<Guard<Error>>) {
    match FirstFailure(gs)
    case None => r.Success?
    case Some(e) => r == Failure(e)
  }

  /** get-recover, get-authenticator and disable: the password check alone. */
  function PasswordGuards(o: Oracles, user: User, passwordHash: string): seq<Guard<Error>> {
    [Guard(o.validPassword(user.passwordHash, passwordHash), InvalidPassword)]
  }

  /** recover: account lookup, password, recovery code. */
  function RecoverGuards(o: Oracles, found: Option<User>, passwordHash: string, code: string): seq<Guard<Error>> {
    [ Guard(found.Some?, BadCredentials),
      Guard(found.Some? && o.validPassword(found.value.passwordHash, passwordHash), BadCredentials),
      Guard(found.Some? && o.validRecovery(found.value, code), BadRecoveryCode) ]
  }

  /** activate: token parse, password, base32 decoding, decoded length, TOTP
      code against the upper-cased candidate key. */
  function ActivateGuards(o: Oracles, user: User, passwordHash: string, key: string,
                          token: NumberOrString): seq<Guard<Error>> {
    var n := o.intoI32(token);
    var decoded := o.decode(key);
    [ Guard(n.Some?, MalformedToken),
      Guard(o.validPassword(user.passwordHash, passwordHash), InvalidPassword),
      Guard(decoded.Some?, InvalidTotpSecret),
      Guard(decoded.Some? && |decoded.value| == KEY_BYTES, InvalidKeyLength),
      Guard(n.Some? && o.validTotp(Provisional(user, key), AsU64(n.value)), InvalidTotpCode) ]
  }

  lemma GetRecoverCheckOrder(o: Oracles, user: User, passwordHash: string)
    ensures Follows(GetRecover(o, user, passwordHash), PasswordGuards(o, user, passwordHash))
  {
  }

  lemma GenerateCheckOrder(o: Oracles, user: User, passwordHash: string, rnd: Random20)
    ensures Follows(GenerateAuthenticator(o, user, passwordHash, rnd), PasswordGuards(o, user, passwordHash))
  {
  }

  lemma DisableCheckOrder(o: Oracles, user: User, passwordHash: string, providerType: NumberOrString)
    ensures Follows(DisableAuthenticator(o, user, passwordHash, providerType), PasswordGuards(o, user, passwordHash))
  {
  }

  lemma RecoverCheckOrder(o: Oracles, found: Option<User>, passwordHash: string, code: string)
    ensures Follows(Recover(o, found, passwordHash, code), RecoverGuards(o, found, passwordHash, code))
  {
    var gs := RecoverGuards(o, found, passwordHash, code);
    var r := Recover(o, found, passwordHash, code);
    if FirstFailure(gs).Some? {
      var k :| 0 <= k < |gs| && !gs[k].passes && gs[k].error == FirstFailure(gs).value && AllPass(gs[..k]);
      assert forall i :: 0 <= i < k ==> gs[..k][i] == gs[i];
      if k == 0 {
        assert r == Failure(BadCredentials);
      } else if k == 1 {
        assert gs[0].passes;
        assert r == Failure(BadCredentials);
      } else {
        assert gs[0].passes && gs[1].passes;
        assert r == Failure(BadRecoveryCode);
      }
    } else {
      assert gs[0].passes && gs[1].passes && gs[2].passes;
    }
  }

  lemma ActivateCheckOrder(o: Oracles, user: User, passwordHash: string, key: string,
                           token: NumberOrString, rnd: Random20)
    ensures Follows(ActivateAuthenticator(o, user, passwordHash, key, token, rnd),
                    ActivateGuards(o, user, passwordHash, key, token))
  {
    var gs := ActivateGuards(o, user, passwordHash, key, token);
    var r := ActivateAuthenticator(o, user, passwordHash, key, token, rnd);
    if FirstFailure(gs).Some? {
      var k :| 0 <= k < |gs| && !gs[k].passes && gs[k].error == FirstFailure(gs).value && AllPass(gs[..k]);
      assert forall i :: 0 <= i < k ==> gs[..k][i] == gs[i];
      if k == 0 {
        assert r == Failure(MalformedToken);
      } else if k == 1 {
        assert gs[0].passes;
        assert r == Failure(InvalidPassword);
      } else if k == 2 {
        assert gs[0].passes && gs[1].passes;
        assert r == Failure(InvalidTotpSecret);
      } else if k == 3 {
        assert gs[0].passes && gs[1].passes && gs[2].passes;
        assert r == Failure(InvalidKeyLength);
      } else {
        assert gs[0].passes && gs[1].passes && gs[2].passes && gs[3].passes;
        assert r == Failure(InvalidTotpCode);
      }
    } else {
      assert gs[0].passes && gs[1].passes && gs[2].passes && gs[3].passes && gs[4].passes;
      assert r.Success?;
    }
  }
}
