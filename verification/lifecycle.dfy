/** The handlers run against a store of user records, one request at a time.
    A request either reaches its handler and, on success, writes back the one
    record the handler saved, or leaves the store as it was. */
module Lifecycle {
  import opened Wrappers
  import opened Primitives
  import opened TwoFactor

  /** The user store, keyed by e-mail address. */
  type Db = map<string, User>

  /** One inbound request. Authenticated requests name the account the
      session resolved to; recovery names the e-mail address it claims. */
  datatype Request =
    | Status(account: string)
    | ShowRecoveryCode(account: string, passwordHash: string)
    | RecoverAccount(account: string, passwordHash: string, code: string)
    | BeginEnrolment(account: string, passwordHash: string, rnd: Random20)
    | Activate(account: string, passwordHash: string, key: string, token: NumberOrString, rnd: Random20)
    | Disable(account: string, passwordHash: string, providerType: NumberOrString)

  /** What a request yields: `None` when an authenticated request names no
      stored account and so never reaches its handler. */
  function Handle(o: Oracles, db: Db, req: Request): Option<Result<Reply, Error>> {
    if req.RecoverAccount? then
      var found := if req.account in db then Some(db[req.account]) else None;
      Some(Recover(o, found, req.passwordHash, req.code))
    else if req.account !in db then None
    else
      var user := db[req.account];
      match req
      case Status(_) => Some(GetTwoFactor(user))
      case ShowRecoveryCode(_, pw) => Some(GetRecover(o, user, pw))
      case BeginEnrolment(_, pw, rnd) => Some(GenerateAuthenticator(o, user, pw, rnd))
      case Activate(_, pw, key, token, rnd) => Some(ActivateAuthenticator(o, user, pw, key, token, rnd))
      case Disable(_, pw, t) => Some(DisableAuthenticator(o, user, pw, t))
  }

  predicate Succeeds(o: Oracles, db: Db, req: Request) {
    Handle(o, db, req).Some? && Handle(o, db, req).value.Success?
  }

  /** Every stored record keeps its secret and recovery code paired. */
  predicate AllPaired(db: Db) {
    forall a :: a in db ==> TotpPaired(db[a])
  }

  /** The store after one request: the saved record, if any, replaces the
      record of the request's account. */
  function Step(o: Oracles, db: Db, req: Request): (db': Db)
    ensures db'.Keys == db.Keys
    ensures forall a :: a in db && a != req.account ==> db'[a] == db[a]
    ensures !Succeeds(o, db, req) ==> db' == db
    ensures Succeeds(o, db, req) && !(req.Status? || req.ShowRecoveryCode? || req.BeginEnrolment?) ==>
      req.account in db' && TotpPaired(db'[req.account])
    ensures AllPaired(db) ==> AllPaired(db')
  {
    match Handle(o, db, req)
    case Some(Success(Reply(_, Some(saved)))) => db[req.account := saved]
    case _ => db
  }

  /** The store after a sequence of requests. Pairing is an invariant of
      every reachable store. */
  function Run(o: Oracles, db: Db, reqs: seq<Request>): (db': Db)
    ensures db'.Keys == db.Keys
    ensures AllPaired(db) ==> AllPaired(db')
    decreases |reqs|
  {
    if reqs == [] then db
    else Run(o, Step(o, db, reqs[0]), reqs[1..])
  }

  /** Whether the status query of an account reports the authenticator. */
  predicate StatusShowsEnabled(db: Db, account: string)
    requires account in db
  {
    GetTwoFactor(db[account]).value.response.data.Some?
  }

  /** The state machine of one account: queries and enrolment step 1 change
      nothing, successful activation enables, successful disable or recovery
      disables, and a failed request leaves the store as it was. */
  lemma StepTransitions(o: Oracles, db: Db, req: Request)
    ensures !Succeeds(o, db, req) ==> Step(o, db, req) == db
    ensures req.Status? || req.ShowRecoveryCode? || req.BeginEnrolment? ==> Step(o, db, req) == db
    ensures Succeeds(o, db, req) && req.Activate? ==>
      StatusShowsEnabled(Step(o, db, req), req.account)
    ensures Succeeds(o, db, req) && (req.Disable? || req.RecoverAccount?) ==>
      !StatusShowsEnabled(Step(o, db, req), req.account)
  {
  }

  /** After a successful activation the recovery code shown to the account
      holder is the one just stored, and the activating password shows it. */
  lemma ActivateThenRecoveryCodeShown(o: Oracles, db: Db, req: Request, passwordHash: string)
    requires req.Activate? && Succeeds(o, db, req)
    ensures var db' := Step(o, db, req);
      var shown := GetRecover(o, db'[req.account], passwordHash);
      (shown.Success? ==> shown.value.response == RecoverCode(Some(o.encode(req.rnd)))) &&
      (passwordHash == req.passwordHash ==> shown.Success?)
  {
  }

  /** The recovery check accepts no code for a record without a stored
      recovery code. */
  ghost predicate RecoveryNeedsStoredCode(o: Oracles) {
    forall u: User, c: string :: u.totpRecover.None? ==> !o.validRecovery(u, c)
  }

  /** A recovery code works once: replaying a successful recovery fails and
      changes nothing. */
  lemma RecoveryIsSingleUse(o: Oracles, db: Db, req: Request)
    requires RecoveryNeedsStoredCode(o)
    requires req.RecoverAccount? && Succeeds(o, db, req)
    ensures !Succeeds(o, Step(o, db, req), req)
    ensures Step(o, Step(o, db, req), req) == Step(o, db, req)
  {
  }

  /** Disabling twice leaves the store as disabling once. */
  lemma DisableIdempotent(o: Oracles, db: Db, req: Request)
    requires req.Disable?
    ensures Step(o, Step(o, db, req), req) == Step(o, db, req)
  {
  }

  /** Neither disabling nor recovery touches the stored password hash, so the
      password that passed them still opens the recovery-code disclosure,
      which then shows no code. */
  lemma DisableThenNoRecoveryCode(o: Oracles, db: Db, req: Request)
    requires (req.Disable? || req.RecoverAccount?) && Succeeds(o, db, req)
    ensures var db' := Step(o, db, req);
      GetRecover(o, db'[req.account], req.passwordHash) ==
        Success(Reply(RecoverCode(None), None))
  {
  }
}
