# Two-factor authenticator lifecycle of bitwarden_rs, in Dafny

This project models the TOTP-authenticator endpoints of the bitwarden_rs
server (`src/api/core/two_factor.rs`). A user record carries two optional
fields, `totp_secret` and `totp_recover`. Six handlers act on them:

- status (`get_twofactor`);
- recovery-code disclosure (`get_recover`);
- unauthenticated recovery (`recover`);
- enrolment step 1, which returns a candidate key (`generate_authenticator`);
- enrolment step 2, activation (`activate_authenticator`);
- disable (`disable_authenticator`).

Each handler runs a fixed chain of checks, any of which aborts the request.
No handler saves until every check passes, and each saves at most once.
Activation puts the upper-cased candidate key on its copy of the user before
the TOTP check (two_factor.rs:134-138); that copy is dropped if the check
fails.

In the model each handler is a pure function. It returns
`Result<Reply, Error>`. A `Reply` holds the response body and the user record
saved, if any. A `Failure` saves nothing by construction.

The collaborators whose code is outside this model are fields of an `Oracles` value:

- `User::check_valid_password`, as a verdict on the stored and the supplied password hash;
- `User::check_totp_code`;
- `User::check_valid_recovery_code`;
- `NumberOrString::into_i32`;
- `BASE32.encode` / `BASE32.decode`, the padded base32 of section 6 of RFC 4648.

The 20 random bytes from `crypto::get_random` are a parameter of type `Random20`.
The result of `User::find_by_mail` is passed to `Recover` as `found`.
At the store level, `Lifecycle`, that lookup is a map lookup.

Files and modules:

- `wrappers.dfy` (`Wrappers`): `Option` and `Result`.
- `primitives.dfy` (`Primitives`): the byte and integer widths, the
  `i32 as u64` cast applied to the token, and upper-casing of the key.
- `guards.dfy` (`Guards`): a check chain as a list of guards, and
  `FirstFailure`, the error of its earliest failing guard. This is the
  reference definition the handlers are compared against.
- `two_factor.dfy` (`TwoFactor`): the user record, the errors and their
  messages, the responses, and the six handlers.
- `check_order.dfy` (`CheckOrder`): each handler's checks in source order, and
  the proofs that each handler reports exactly the first failing check.
- `handler_properties.dfy` (`HandlerProperties`): properties that relate
  several calls, or a call and its collaborators.
- `lifecycle.dfy` (`Lifecycle`): a store of users keyed by e-mail address,
  requests, one step, and runs of many steps. It also holds the state-machine
  lemmas: pairing is invariant, a recovery code works once, and disable is
  idempotent.

Points where the code's behaviour is easy to misread, and which the model follows:

- `activate_authenticator` converts the token before it checks the password
  (two_factor.rs:114-121). So a malformed token is reported even when the
  password is wrong.
- `recover` uses one message for a failed lookup or a wrong password. It uses
  a different message for a wrong recovery code (two_factor.rs:61,66,71). The
  three causes can therefore not all be told apart, but the code failure can.
- Activation answers with the key as supplied (two_factor.rs:150). The stored
  secret is the upper-cased key (two_factor.rs:135).
- A key that does not decode and a key of the wrong length give two different
  messages: "Invalid totp secret" and "Invalid key length".
- The recovery code is checked by `check_valid_recovery_code`. Its body is not
  part of this model, so the model does not assume an exact string comparison.

## Model

| member | source | states |
|---|---|---|
| Primitives.AsU64 | src/api/core/two_factor.rs:114-116 | the token `n as u64` equals n modulo 2^64; it is at least 2^64 - 2^31 exactly when n is negative |
| Primitives.AsU64Injective | src/api/core/two_factor.rs:114-116 | two tokens give the same `u64` exactly when they are equal |
| Primitives.Uppercase | src/api/core/two_factor.rs:135 | the upper-cased key has the key's length and upper-cases it character by character |
| Primitives.UppercaseIdempotent | src/api/core/two_factor.rs:135 | the stored key holds no lower-case letter, and upper-casing it again changes nothing |
| Primitives.UppercaseFixedIff | src/api/core/two_factor.rs:135 | a key equals its upper-cased form exactly when it holds no lower-case letter |
| Guards.FirstFailure | src/api/core/two_factor.rs:114-140 | a chain of checks gives no error exactly when every check passes; otherwise it gives the error of a failing check that only passing checks precede |
| Guards.FirstFailureOrder | src/api/core/two_factor.rs:114-140 | a failing check hides every later one: the chain reports its error |
| TwoFactor.MessageInjective | src/api/core/two_factor.rs:35-139 | different error kinds report different messages; recover's lookup and password failures (61, 66) share one kind, and so do the four bad-password aborts (35, 86, 120, 169) |
| TwoFactor.GetTwoFactor | src/api/core/two_factor.rs:13-28 | status always succeeds and saves nothing; its data is null exactly when no secret is stored, and otherwise one enabled entry of type 0 |
| TwoFactor.GetRecover | src/api/core/two_factor.rs:31-42 | fails exactly on a bad password; otherwise returns the stored recovery code verbatim, possibly absent, and saves nothing |
| TwoFactor.Recover | src/api/core/two_factor.rs:53-79 | succeeds exactly when the account exists, the password is valid and the recovery code is valid; lookup and password failures share one error, a code failure has another; success saves the account once with both fields cleared and nothing else changed |
| TwoFactor.GenerateAuthenticator | src/api/core/two_factor.rs:82-99 | fails exactly on a bad password; never saves; returns the stored secret with `Enabled` true, or an encoding of the random bytes with `Enabled` false |
| TwoFactor.ActivateAuthenticator | src/api/core/two_factor.rs:110-153 | on success answers `Enabled` true with the key as supplied, and saves once the upper-cased key and the encoding of fresh random bytes as recovery code, nothing else changed |
| TwoFactor.DisableAuthenticator | src/api/core/two_factor.rs:163-183 | fails exactly on a bad password; otherwise saves the account with both fields cleared and answers `Enabled` false, type 0 |
| CheckOrder.GetRecoverCheckOrder | src/api/core/two_factor.rs:34-36 | get-recover's only check is the password |
| CheckOrder.GenerateCheckOrder | src/api/core/two_factor.rs:85-87 | enrolment step 1's only check is the password |
| CheckOrder.DisableCheckOrder | src/api/core/two_factor.rs:168-170 | disable's only check is the password |
| CheckOrder.RecoverCheckOrder | src/api/core/two_factor.rs:59-72 | recovery reports the first failure among lookup, password and recovery code, in that order, and succeeds when none fails |
| CheckOrder.ActivateCheckOrder | src/api/core/two_factor.rs:114-140 | activation reports the first failure among token conversion, password, base32 decoding, decoded length 20 and the TOTP code against the upper-cased key, in that order, and succeeds when none fails |
| HandlerProperties.SavedUserIsPaired | src/api/core/two_factor.rs:74-76 | whatever the record was before, every record a handler saves has secret and recovery code both present or both absent, and the read-only handlers save nothing |
| HandlerProperties.GenerateIgnoresRandomWhenEnabled | src/api/core/two_factor.rs:89-92 | with a secret stored, enrolment step 1 does not depend on the random bytes |
| HandlerProperties.ActivateFailsBeforeTotp | src/api/core/two_factor.rs:114-138 | a failure before the TOTP check is reported whatever the TOTP engine would answer |
| HandlerProperties.ActivateChecksWrappedToken | src/api/core/two_factor.rs:114-140 | once the earlier checks pass, activation succeeds exactly when the TOTP engine accepts the token modulo 2^64 against the upper-cased key |
| HandlerProperties.ActivateEchoesSuppliedKey | src/api/core/two_factor.rs:135-150 | the response carries the key as supplied; it equals the stored secret exactly when the key has no lower-case letter |
| HandlerProperties.DisableIgnoresType | src/api/core/two_factor.rs:166 | disable gives the same result whatever provider type it is given |
| HandlerProperties.DisableForgetsPriorState | src/api/core/two_factor.rs:172-176 | two records that differ only in their TOTP fields are disabled to the same saved record |
| HandlerProperties.GeneratedKeyPassesKeyChecks | src/api/core/two_factor.rs:91-131 | if base32 decodes what it encodes, a candidate key from step 1, activated with the same password, fails step 2 only on the token or the TOTP code |
| Lifecycle.Step | src/api/core/two_factor.rs:13-183 | one request touches only its own account; a failed request leaves the store unchanged; a saving request leaves that account paired; pairing of the whole store is preserved |
| Lifecycle.Run | src/api/core/two_factor.rs:13-183 | after any sequence of requests the store has the same accounts, and a paired store stays paired |
| Lifecycle.StepTransitions | src/api/core/two_factor.rs:13-183 | queries and step 1 change nothing; a successful activation makes status report the authenticator; a successful disable or recovery makes status report null; a failure changes nothing |
| Lifecycle.ActivateThenRecoveryCodeShown | src/api/core/two_factor.rs:38-41 | after activation, get-recover shows the recovery code just stored, and the activating password is accepted by it |
| Lifecycle.RecoveryIsSingleUse | src/api/core/two_factor.rs:70-76 | replaying a successful recovery fails and changes nothing |
| Lifecycle.DisableIdempotent | src/api/core/two_factor.rs:172-176 | disabling twice leaves the store as disabling once |
| Lifecycle.DisableThenNoRecoveryCode | src/api/core/two_factor.rs:34-41 | after a successful disable or recovery, the same password opens get-recover, which shows no code |

## Left out

- Rocket routing, the `JsonUpcase` wrapper and the JSON bodies are not modelled. Responses are a small datatype, and the constant `"Object"` strings are dropped.
- `Headers` authentication is not modelled. The user is a parameter. At the store level, an authenticated request for an unknown account never reaches its handler.
- `DbConn` and `User::save` are not modelled as I/O. Saving is the `saved` part of a reply, and `Lifecycle.Step` writes it back. Save errors are ignored, as in the source.
- `User::find_by_mail` is exact key lookup in the store. Any normalisation of the address it performs is not part of this model.
- The password check is a verdict on the stored hash and the supplied one; any other field it reads, such as a salt, is not part of this model and is taken to be unchanged by these handlers.
- The bodies of `check_valid_password`, `check_totp_code` and `check_valid_recovery_code` are not modelled: they involve hashing and time-based HMAC. They are uninterpreted oracles.
- `crypto::get_random` is not modelled, because it is OS randomness. That two successive candidate keys differ depends on it and is not stated.
- The internals of `BASE32` and `NumberOrString::into_i32` are library code and stay abstract.
- Rate limiting and lockout are not modelled, because the code has none.
- Concurrency is not modelled. Requests are applied one at a time.
- Primitives.Uppercase: maps only the ASCII letters a-z. Rust's `to_uppercase` also maps other Unicode letters, and can change the length. Non-ASCII input is left unchanged here. The gap does not arise with the real decoder: data_encoding's `BASE32` accepts only the upper-case alphabet of section 6 of RFC 4648, so a key with a lower-case or non-ASCII letter already fails at two_factor.rs:124, and upper-casing at two_factor.rs:135 changes nothing for any key that reaches it. The lower-case case of `HandlerProperties.ActivateEchoesSuppliedKey` exists only because decoding is abstract here.
- Lifecycle.RecoveryIsSingleUse: holds only under the stated assumption that the recovery-code check rejects every code for a record with no stored recovery code. That check's body is not part of this model.
- HandlerProperties.GeneratedKeyPassesKeyChecks: holds only under the stated assumption that base32 decoding inverts encoding.
