/** What each operation asks for, in order, and what it makes of the answers: the operation as seen
    from outside, one predicate over its requests and answers for each. A transcript `t` that
    satisfies an operation's predicate is the whole exchange of one call with the result `r`. */
module Transcripts {
  import opened Wrappers
  import opened Tables
  import opened Challenges
  import opened Setups
  import opened Program

  datatype Exchange = Exchange(op: Op, reply: Reply)

  type Transcript = seq<Exchange>

  datatype SessionResult = SessionResult(rawToken: string, expiresAt: Time, user: UserRow, previous: Option<Time>)

  datatype TotpError = Session(e: SessionError) | AlreadyEnabled | NotEnabled | SetupNotFound | SetupExpired
                     | InvalidTotp | InvalidCredentials | OtherTotpError

  datatype AuthError = UserAlreadyExists | InvalidUsername | InvalidPassword | PasswordMismatch
                     | BadCredentials | AccountLocked | BadCode | ChallengeNotFound | ChallengeExpired
                     | TwoFactorNotEnabled | OtherAuthError

  datatype LoginResult = Authenticated(session: SessionResult) | TotpRequired(challengeId: string, expiresAt: Time)

  predicate Starts(t: Transcript, op: Op) {
    t != [] && t[0].op == op
  }

  /** The first request is the clock, which answers `at`. */
  predicate StartsAt(t: Transcript, at: Time) {
    t != [] && t[0] == Exchange(Clock, Now(at))
  }

  // ---- Sessions ----

  /** The session of `raw` is looked up, then the clock is read, then the session's user. */
  predicate Validation(cfg: Config, raw: string, t: Transcript, r: Result<UserRow, SessionError>) {
    if raw == "" then t == [] && r == Err(NotAuthorized)
    else
      && Starts(t, FindSession(cfg.hash(raw)))
      && match t[0].reply
         case Session(row) =>
           if row.revokedAt.Some? then |t| == 1 && r == Err(WasRevoked) else ExpiryChecked(row, t[1..], r)
         case NoRow => |t| == 1 && r == Err(NotAuthorized)
         case _ => |t| == 1 && r == Err(SystemError)
  }

  predicate ExpiryChecked(row: SessionRow, t: Transcript, r: Result<UserRow, SessionError>) {
    && Starts(t, Clock) && t[0].reply.Now?
    && if row.expiresAt <= t[0].reply.t then |t| == 1 && r == Err(HasExpired)
       else
         && |t| == 2 && t[1].op == FindById(row.userId)
         && match t[1].reply
            case User(user) => r == Ok(user)
            case NoRow => r == Err(NotAuthorized)
            case _ => r == Err(SystemError)
  }

  /** A logout that is told Done has revoked the row found for this very token. */
  predicate Revocation(cfg: Config, raw: string, t: Transcript, r: Result<(), SessionError>) {
    if raw == "" then t == [] && r == Err(NotAuthorized)
    else
      && Starts(t, FindSession(cfg.hash(raw)))
      && match t[0].reply
         case Session(row) =>
           if row.revokedAt.Some? then |t| == 1 && r == Err(WasRevoked) else OpenRevocation(row, t[1..], r)
         case NoRow => |t| == 1 && r == Err(NotAuthorized)
         case _ => |t| == 1 && r == Err(SystemError)
  }

  predicate OpenRevocation(row: SessionRow, t: Transcript, r: Result<(), SessionError>) {
    && Starts(t, Clock) && t[0].reply.Now?
    && if row.expiresAt <= t[0].reply.t then |t| == 1 && r == Err(HasExpired)
       else Revoking(row, t[1..], r)
  }

  predicate Revoking(row: SessionRow, t: Transcript, r: Result<(), SessionError>) {
    && |t| == 2 && t[0].op == Clock && t[0].reply.Now?
    && t[1].op == RevokeSession(row.id, t[0].reply.t)
    && match t[1].reply
       case Done => r == Ok(())
       case NoRow => r == Err(WasRevoked)
       case _ => r == Err(SystemError)
  }

  /** A token, the time and an identifier are drawn, and a session made of exactly these is
      committed; what is reported is the token, its expiry and the user as read before. */
  predicate SessionMade(cfg: Config, userId: string, t: Transcript, r: Option<SessionResult>) {
    && Starts(t, NewToken)
    && if t[0].reply.Fresh? then SessionStamped(cfg, userId, t[0].reply.text, t[1..], r)
       else |t| == 1 && r == None
  }

  predicate SessionStamped(
      cfg: Config, userId: string, token: string, t: Transcript, r: Option<SessionResult>) {
    && |t| >= 2 && t[0].op == Clock && t[0].reply.Now? && t[1].op == NewId
    && if t[1].reply.Fresh? then LoginRecorded(cfg, userId, token, t[0].reply.t, t[1].reply.text, t[2..], r)
       else |t| == 2 && r == None
  }

  predicate LoginRecorded(
      cfg: Config, userId: string, token: string, at: Time, id: string, t: Transcript, r: Option<SessionResult>) {
    && Starts(t, FindById(userId))
    && if !t[0].reply.User? then |t| == 1 && r == None
       else
         var user, expiresAt := t[0].reply.user, at + cfg.sessionTimeout;
         && |t| == 2
         && t[1].op == CommitSession(userId, at, SessionRow(id, userId, cfg.hash(token), expiresAt, None))
         && r == if t[1].reply.Done? then Some(SessionResult(token, expiresAt, user, user.lastLogin)) else None
  }

  lemma LoginRecordedFrom(
      cfg: Config, userId: string, token: string, at: Time, id: string, user: UserRow, committed: Reply)
    ensures var expiresAt := at + cfg.sessionTimeout;
            var op := CommitSession(userId, at, SessionRow(id, userId, cfg.hash(token), expiresAt, None));
            LoginRecorded(
              cfg, userId, token, at, id, [Exchange(FindById(userId), User(user)), Exchange(op, committed)],
              if committed.Done? then Some(SessionResult(token, expiresAt, user, user.lastLogin)) else None)
  {
  }

  /** How a validation is put together from its first exchange and the rest. */
  lemma ValidationFrom(cfg: Config, raw: string, found: Reply, rest: Transcript, r: Result<UserRow, SessionError>)
    requires raw != ""
    requires match found
             case Session(row) =>
               if row.revokedAt.Some? then rest == [] && r == Err(WasRevoked) else ExpiryChecked(row, rest, r)
             case NoRow => rest == [] && r == Err(NotAuthorized)
             case _ => rest == [] && r == Err(SystemError)
    ensures Validation(cfg, raw, [Exchange(FindSession(cfg.hash(raw)), found)] + rest, r)
    ensures r.Ok? ==> |rest| == 2 && rest[1].reply == User(r.value)
  {
    assert ([Exchange(FindSession(cfg.hash(raw)), found)] + rest)[1..] == rest;
  }

  lemma SessionStampedFrom(
      cfg: Config, userId: string, token: string, at: Time, id: Reply, rest: Transcript, r: Option<SessionResult>)
    requires if id.Fresh? then LoginRecorded(cfg, userId, token, at, id.text, rest, r) else rest == [] && r == None
    ensures SessionStamped(cfg, userId, token, [Exchange(Clock, Now(at)), Exchange(NewId, id)] + rest, r)
  {
    assert ([Exchange(Clock, Now(at)), Exchange(NewId, id)] + rest)[2..] == rest;
  }

  // ---- Logging in ----

  /** A wrong credential is recorded against the user, and the answer decides what is reported. */
  predicate FailureRecorded(userId: string, failure: AuthError, t: Transcript, e: AuthError) {
    && |t| == 1 && t[0].op == RecordFailure(userId)
    && match t[0].reply
       case Flag(on) => e == if on then AccountLocked else failure
       case _ => e == OtherAuthError
  }

  /** A right credential clears the failures, then makes the session. */
  predicate LoginFinished(cfg: Config, userId: string, t: Transcript, r: Result<LoginResult, AuthError>) {
    && Starts(t, ResetFailures(userId))
    && if !t[0].reply.Done? then |t| == 1 && r == Err(OtherAuthError)
       else
         match r
         case Ok(Authenticated(session)) => SessionMade(cfg, userId, t[1..], Some(session))
         case Ok(_) => false
         case Err(e) => e == OtherAuthError && SessionMade(cfg, userId, t[1..], None)
  }

  lemma LoginFinishedFrom(
      cfg: Config, userId: string, cleared: Reply, rest: Transcript, made: Option<SessionResult>,
      r: Result<LoginResult, AuthError>)
    requires if cleared.Done? then SessionMade(cfg, userId, rest, made) else rest == [] && made == None
    requires r == if made.None? then Err(OtherAuthError) else Ok(Authenticated(made.value))
    ensures LoginFinished(cfg, userId, [Exchange(ResetFailures(userId), cleared)] + rest, r)
  {
    assert ([Exchange(ResetFailures(userId), cleared)] + rest)[1..] == rest;
  }

  /** A right password of a user with two-factor leads to a challenge. */
  predicate ChallengeMade(
      cfg: Config, was: ChallengeMap, userId: string, t: Transcript, r: Result<LoginResult, AuthError>) {
    && Starts(t, NewToken)
    && if !t[0].reply.Fresh? then |t| == 1 && r == Err(OtherAuthError)
       else
         var id := t[0].reply.text;
         && |t| == 2 && t[1].op == Clock && t[1].reply.Now?
         && r == if id in was && t[1].reply.t < was[id].expiresAt then Err(OtherAuthError)
                 else Ok(TotpRequired(id, t[1].reply.t + cfg.challengeTimeout))
  }

  predicate PasswordLogin(
      cfg: Config, was: ChallengeMap, username: string, password: string, t: Transcript,
      r: Result<LoginResult, AuthError>) {
    && Starts(t, FindByName(cfg.normalize(username)))
    && match t[0].reply
       case User(row) => PasswordChecked(cfg, was, row, password, t[1..], r)
       case NoRow => |t| == 1 && r == Err(BadCredentials)
       case _ => |t| == 1 && r == Err(OtherAuthError)
  }

  predicate PasswordChecked(
      cfg: Config, was: ChallengeMap, row: UserRow, password: string, t: Transcript,
      r: Result<LoginResult, AuthError>) {
    && Starts(t, CheckBlocked(row.id))
    && match t[0].reply
       case Flag(true) => |t| == 1 && r == Err(AccountLocked)
       case Flag(false) => PasswordDecides(cfg, was, row, password, t[1..], r)
       case _ => |t| == 1 && r == Err(OtherAuthError)
  }

  predicate PasswordDecides(
      cfg: Config, was: ChallengeMap, row: UserRow, password: string, t: Transcript,
      r: Result<LoginResult, AuthError>) {
    if !cfg.passwordOk(row.passwordHash, password) then r.Err? && FailureRecorded(row.id, BadCredentials, t, r.error)
    else if row.totpEnabled then ChallengeMade(cfg, was, row.id, t, r)
    else LoginFinished(cfg, row.id, t, r)
  }

  predicate CodeLogin(
      cfg: Config, challenge: Option<Challenge>, code: string, t: Transcript, r: Result<LoginResult, AuthError>) {
    match challenge
    case None => t == [] && r == Err(ChallengeNotFound)
    case Some(c) =>
      && Starts(t, Clock) && t[0].reply.Now?
      && if c.expiresAt <= t[0].reply.t then |t| == 1 && r == Err(ChallengeExpired)
         else OwnerChecked(cfg, c.userId, code, t[1..], r)
  }

  predicate OwnerChecked(
      cfg: Config, userId: string, code: string, t: Transcript, r: Result<LoginResult, AuthError>) {
    && Starts(t, FindById(userId))
    && match t[0].reply
       case User(row) => CodeGated(cfg, row, code, t[1..], r)
       case NoRow => |t| == 1 && r == Err(ChallengeNotFound)
       case _ => |t| == 1 && r == Err(OtherAuthError)
  }

  predicate CodeGated(cfg: Config, row: UserRow, code: string, t: Transcript, r: Result<LoginResult, AuthError>) {
    && Starts(t, CheckBlocked(row.id))
    && match t[0].reply
       case Flag(true) => |t| == 1 && r == Err(AccountLocked)
       case Flag(false) =>
         if !row.totpEnabled || row.secret.None? then |t| == 1 && r == Err(TwoFactorNotEnabled)
         else CodeDecides(cfg, row.id, row.secret.value, code, t[1..], r)
       case _ => |t| == 1 && r == Err(OtherAuthError)
  }

  predicate CodeDecides(
      cfg: Config, userId: string, encrypted: string, code: string, t: Transcript, r: Result<LoginResult, AuthError>) {
    match cfg.decrypt(encrypted)
    case None => t == [] && r == Err(OtherAuthError)
    case Some(secret) =>
      && Starts(t, Clock) && t[0].reply.Now?
      && CodeJudged(cfg, cfg.checkCode(secret, code, t[0].reply.t), userId, t[1..], r)
  }

  predicate CodeJudged(
      cfg: Config, verdict: Verdict, userId: string, t: Transcript, r: Result<LoginResult, AuthError>) {
    match verdict
    case Broken => t == [] && r == Err(OtherAuthError)
    case NoMatch => r.Err? && FailureRecorded(userId, BadCode, t, r.error)
    case Match => LoginFinished(cfg, userId, t, r)
  }

  lemma PasswordCheckedFrom(
      cfg: Config, was: ChallengeMap, row: UserRow, password: string, blocked: Reply, rest: Transcript,
      r: Result<LoginResult, AuthError>)
    requires match blocked
             case Flag(true) => rest == [] && r == Err(AccountLocked)
             case Flag(false) => PasswordDecides(cfg, was, row, password, rest, r)
             case _ => rest == [] && r == Err(OtherAuthError)
    ensures PasswordChecked(cfg, was, row, password, [Exchange(CheckBlocked(row.id), blocked)] + rest, r)
  {
    assert ([Exchange(CheckBlocked(row.id), blocked)] + rest)[1..] == rest;
  }

  lemma CodeGatedFrom(
      cfg: Config, row: UserRow, code: string, blocked: Reply, rest: Transcript, r: Result<LoginResult, AuthError>)
    requires match blocked
             case Flag(true) => rest == [] && r == Err(AccountLocked)
             case Flag(false) =>
               if !row.totpEnabled || row.secret.None? then rest == [] && r == Err(TwoFactorNotEnabled)
               else CodeDecides(cfg, row.id, row.secret.value, code, rest, r)
             case _ => rest == [] && r == Err(OtherAuthError)
    ensures CodeGated(cfg, row, code, [Exchange(CheckBlocked(row.id), blocked)] + rest, r)
  {
    assert ([Exchange(CheckBlocked(row.id), blocked)] + rest)[1..] == rest;
  }

  // ---- Registering ----

  predicate Registration(
      cfg: Config, username: string, password: string, confirmation: string, t: Transcript,
      r: Result<UserRow, AuthError>) {
    var name := cfg.normalize(username);
    if !cfg.validUsername(name) then t == [] && r == Err(InvalidUsername)
    else if !cfg.validPassword(password) then t == [] && r == Err(InvalidPassword)
    else if password != confirmation then t == [] && r == Err(PasswordMismatch)
    else NameTried(name, password, t, r)
  }

  predicate NameTried(name: string, password: string, t: Transcript, r: Result<UserRow, AuthError>) {
    && Starts(t, FindByName(name))
    && match t[0].reply
       case User(_) => |t| == 1 && r == Err(UserAlreadyExists)
       case NoRow => PasswordHashed(name, password, t[1..], r)
       case _ => |t| == 1 && r == Err(OtherAuthError)
  }

  predicate PasswordHashed(name: string, password: string, t: Transcript, r: Result<UserRow, AuthError>) {
    && Starts(t, HashPassword(password))
    && if !t[0].reply.Fresh? then |t| == 1 && r == Err(OtherAuthError)
       else UserInserted(name, t[0].reply.text, t[1..], r)
  }

  predicate UserInserted(name: string, hash: string, t: Transcript, r: Result<UserRow, AuthError>) {
    && Starts(t, NewId)
    && if !t[0].reply.Fresh? then |t| == 1 && r == Err(OtherAuthError)
       else
         var row := UserRow(t[0].reply.text, name, hash, false, None, None);
         && |t| == 2 && t[1].op == InsertUser(row)
         && match t[1].reply
            case Done => r == Ok(row)
            case Clash => r == Err(UserAlreadyExists)
            case _ => r == Err(OtherAuthError)
  }

  // ---- Two-factor ----

  predicate SetupBegun(cfg: Config, raw: string, t: Transcript, r: Result<Pending, TotpError>) {
    match r
    case Err(Session(e)) => Validation(cfg, raw, t, Err(e))
    case _ =>
      && |t| >= 3 && t[2].reply.User? && Validation(cfg, raw, t[..3], Ok(t[2].reply.user))
      && SetupMade(cfg, raw, t[2].reply.user, t[3..], r)
  }

  predicate SetupMade(cfg: Config, raw: string, user: UserRow, t: Transcript, r: Result<Pending, TotpError>) {
    if user.totpEnabled then t == [] && r == Err(AlreadyEnabled)
    else SecretDrawn(cfg, raw, user.id, t, r)
  }

  predicate SecretDrawn(cfg: Config, raw: string, userId: string, t: Transcript, r: Result<Pending, TotpError>) {
    && Starts(t, NewSecret)
    && if !t[0].reply.Fresh? then |t| == 1 && r == Err(OtherTotpError)
       else
         && |t| == 2 && t[1].op == Clock && t[1].reply.Now?
         && r == Ok(Pending(userId, t[0].reply.text, t[1].reply.t + cfg.setupTimeout, cfg.hash(raw)))
  }

  predicate SetupConfirmed(
      cfg: Config, byUser: map<string, Pending>, raw: string, code: string, t: Transcript, r: Result<(), TotpError>) {
    match r
    case Err(Session(e)) => Validation(cfg, raw, t, Err(e))
    case _ =>
      && |t| >= 3 && t[2].reply.User? && Validation(cfg, raw, t[..3], Ok(t[2].reply.user))
      && var user := t[2].reply.user;
      if user.id !in byUser then |t| == 3 && r == Err(SetupNotFound)
      else CodeConfirmed(cfg, byUser[user.id], user, code, t[3..], r)
  }

  predicate CodeConfirmed(
      cfg: Config, value: Pending, user: UserRow, code: string, t: Transcript, r: Result<(), TotpError>) {
    && Starts(t, Clock) && t[0].reply.Now?
    && if value.expiresAt <= t[0].reply.t then |t| == 1 && r == Err(SetupExpired)
       else if user.totpEnabled then |t| == 1 && r == Err(AlreadyEnabled)
       else SecretChecked(cfg, value, code, t[1..], r)
  }

  predicate SecretChecked(cfg: Config, value: Pending, code: string, t: Transcript, r: Result<(), TotpError>) {
    && Starts(t, Clock) && t[0].reply.Now?
    && match cfg.checkCode(value.secret, code, t[0].reply.t)
       case Broken => |t| == 1 && r == Err(OtherTotpError)
       case NoMatch => |t| == 1 && r == Err(InvalidTotp)
       case Match => SecretStored(cfg, value, t[1..], r)
  }

  predicate SecretStored(cfg: Config, value: Pending, t: Transcript, r: Result<(), TotpError>) {
    && Starts(t, NewNonce)
    && if !t[0].reply.Fresh? then |t| == 1 && r == Err(OtherTotpError)
       else
         && |t| == 2 && t[1].op == SetTotp(value.userId, cfg.encrypt(value.secret, t[0].reply.text))
         && match t[1].reply
            case Done => r == Ok(())
            case Clash => r == Err(AlreadyEnabled)
            case _ => r == Err(OtherTotpError)
  }

  lemma SecretCheckedFrom(
      cfg: Config, value: Pending, code: string, at: Time, rest: Transcript, r: Result<(), TotpError>)
    requires match cfg.checkCode(value.secret, code, at)
             case Broken => rest == [] && r == Err(OtherTotpError)
             case NoMatch => rest == [] && r == Err(InvalidTotp)
             case Match => SecretStored(cfg, value, rest, r)
    ensures SecretChecked(cfg, value, code, [Exchange(Clock, Now(at))] + rest, r)
  {
    assert ([Exchange(Clock, Now(at))] + rest)[1..] == rest;
  }

  /** The secret goes out encrypted under the nonce drawn for it, for the user the setup is for. */
  lemma SecretStoredFrom(cfg: Config, value: Pending, nonce: string, stored: Reply)
    ensures SecretStored(cfg, value, [Exchange(NewNonce, Fresh(nonce)),
              Exchange(SetTotp(value.userId, cfg.encrypt(value.secret, nonce)), stored)],
              if stored.Done? then Ok(()) else if stored.Clash? then Err(AlreadyEnabled) else Err(OtherTotpError))
  {
  }

  /** Two-factor is turned off only after the session's user has been read again, the password
      fits the row read and the code matches the secret in it. */
  predicate TurningOff(
      cfg: Config, raw: string, password: string, code: string, t: Transcript, r: Result<(), TotpError>) {
    || (r.Err? && r.error.Session? && Validation(cfg, raw, t, Err(r.error.e)))
    || (&& |t| > 3 && t[2].reply.User? && Validation(cfg, raw, t[..3], Ok(t[2].reply.user))
        && OwnerTurnsOff(cfg, t[2].reply.user.id, password, code, t[3..], r))
  }

  predicate OwnerTurnsOff(
      cfg: Config, userId: string, password: string, code: string, t: Transcript, r: Result<(), TotpError>) {
    && Starts(t, FindById(userId))
    && match t[0].reply
       case User(row) =>
         if !row.totpEnabled || row.secret.None? then |t| == 1 && r == Err(NotEnabled)
         else if !cfg.passwordOk(row.passwordHash, password) then |t| == 1 && r == Err(InvalidCredentials)
         else CodeTurnsOff(cfg, row.id, row.secret.value, code, t[1..], r)
       case NoRow => |t| == 1 && r == Err(TotpError.Session(NotAuthorized))
       case _ => |t| == 1 && r == Err(OtherTotpError)
  }

  predicate CodeTurnsOff(
      cfg: Config, userId: string, encrypted: string, code: string, t: Transcript, r: Result<(), TotpError>) {
    match cfg.decrypt(encrypted)
    case None => t == [] && r == Err(OtherTotpError)
    case Some(secret) =>
      && Starts(t, Clock) && t[0].reply.Now?
      && match cfg.checkCode(secret, code, t[0].reply.t)
         case Broken => |t| == 1 && r == Err(OtherTotpError)
         case NoMatch => |t| == 1 && r == Err(InvalidTotp)
         case Match =>
           && |t| == 2 && t[1].op == UnsetTotp(userId)
           && match t[1].reply
              case Done => r == Ok(())
              case Clash => r == Err(NotEnabled)
              case _ => r == Err(OtherTotpError)
  }

  /** Whether an error says that the session is no longer any good. */
  predicate Lost(e: SessionError) {
    !e.SystemError?
  }

  predicate SessionLost<T>(r: Result<T, TotpError>) {
    r.Err? && r.error.Session? && Lost(r.error.e)
  }

  // ---- Commands ----

  /** The token a command leaves, and the answer that kept it from reading, if there was one. */
  datatype Outcome = Outcome(token: string, unread: Option<Reply>)

  /** The user is asked for lines and gives none. */
  predicate Unanswered(t: Transcript, token: string, out: Outcome) {
    |t| == 1 && t[0].op == ReadLines && !t[0].reply.Lines? && out == Outcome(token, Some(t[0].reply))
  }

  predicate Answered(t: Transcript) {
    Starts(t, ReadLines) && t[0].reply.Lines?
  }

  ghost predicate RegisterDialogue(cfg: Config, token: string, t: Transcript, out: Outcome) {
    || Unanswered(t, token, out)
    || (&& Answered(t) && out == Outcome(token, None)
        && exists r :: Registration(cfg, t[0].reply.first, t[0].reply.second, t[0].reply.third, t[1..], r))
  }

  ghost predicate LoginDialogue(cfg: Config, token: string, t: Transcript, out: Outcome) {
    || Unanswered(t, token, out)
    || (&& Answered(t)
        && exists a: Transcript, b: Transcript, r ::
             && t[1..] == a + b
             && PasswordLogin(cfg, map[], t[0].reply.first, t[0].reply.second, a, r)
             && AfterPassword(cfg, token, a, r, b, out))
  }

  lemma LoginDialogueFrom(
      cfg: Config, token: string, form: Reply, a: Transcript, r: Result<LoginResult, AuthError>, b: Transcript,
      out: Outcome)
    requires form.Lines? && PasswordLogin(cfg, map[], form.first, form.second, a, r)
    requires AfterPassword(cfg, token, a, r, b, out)
    ensures LoginDialogue(cfg, token, [Exchange(ReadLines, form)] + a + b, out)
  {
    hide PasswordLogin, AfterPassword;
    var t := [Exchange(ReadLines, form)] + a + b;
    assert t[1..] == a + b && t[0].reply == form;
  }

  /** What follows the password: nothing, or codes for the challenge of the user whose row was read. */
  ghost predicate AfterPassword(
      cfg: Config, token: string, a: Transcript, r: Result<LoginResult, AuthError>, b: Transcript, out: Outcome) {
    match r
    case Err(_) => b == [] && out == Outcome(token, None)
    case Ok(Authenticated(session)) => b == [] && out == Outcome(session.rawToken, None)
    case Ok(TotpRequired(_, expiresAt)) =>
      a != [] && a[0].reply.User? && CodeDialogue(cfg, Challenge(a[0].reply.user.id, expiresAt), token, b, out)
  }

  /** Wrong codes, as many as it takes, and then the attempt that ends it. */
  ghost predicate CodeDialogue(cfg: Config, c: Challenge, token: string, t: Transcript, out: Outcome) {
    exists a: Transcript, b: Transcript :: t == a + b && WrongCodes(cfg, c, a) && LastCode(cfg, c, token, b, out)
  }

  ghost predicate WrongCodes(cfg: Config, c: Challenge, t: Transcript)
    decreases |t|
  {
    || t == []
    || exists a: Transcript, b: Transcript | t == a + b && |a| < |t| :: WrongCodes(cfg, c, a) && WrongCode(cfg, c, b)
  }

  predicate WrongCode(cfg: Config, c: Challenge, t: Transcript) {
    Answered(t) && !cfg.blank(t[0].reply.first) && CodeLogin(cfg, Some(c), t[0].reply.first, t[1..], Err(BadCode))
  }

  ghost predicate LastCode(cfg: Config, c: Challenge, token: string, t: Transcript, out: Outcome) {
    || Unanswered(t, token, out)
    || (Answered(t) && cfg.blank(t[0].reply.first) && |t| == 1 && out == Outcome(token, None))
    || (&& Answered(t) && !cfg.blank(t[0].reply.first)
        && exists r ::
             && CodeLogin(cfg, Some(c), t[0].reply.first, t[1..], r) && r != Err(BadCode)
             && out == Outcome(if r.Ok? && r.value.Authenticated? then r.value.session.rawToken else token, None))
  }

  ghost predicate WhoAmIDialogue(cfg: Config, token: string, t: Transcript, out: Outcome) {
    exists r :: Validation(cfg, token, t, r) && out == Outcome(if r.Err? && Lost(r.error) then "" else token, None)
  }

  ghost predicate LogoutDialogue(cfg: Config, token: string, t: Transcript, out: Outcome) {
    out == Outcome("", None) && exists r :: Revocation(cfg, token, t, r)
  }

  ghost predicate DisableDialogue(cfg: Config, token: string, t: Transcript, out: Outcome) {
    || Unanswered(t, token, out)
    || (&& Answered(t) && (t[0].reply.first == "" || cfg.blank(t[0].reply.second)) && |t| == 1
        && out == Outcome(token, None))
    || (&& Answered(t) && t[0].reply.first != "" && !cfg.blank(t[0].reply.second)
        && exists r ::
             && TurningOff(cfg, token, t[0].reply.first, t[0].reply.second, t[1..], r)
             && out == Outcome(if SessionLost(r) then "" else token, None))
  }

  ghost predicate EnableDialogue(
      cfg: Config, byUser: map<string, Pending>, token: string, t: Transcript, out: Outcome) {
    exists a: Transcript, b: Transcript, r ::
      && t == a + b && SetupBegun(cfg, token, a, r)
      && match r
         case Ok(value) => ConfirmDialogue(cfg, byUser[value.userId := value], token, b, out)
         case Err(_) => b == [] && out == Outcome(if SessionLost(r) then "" else token, None)
  }

  ghost predicate ConfirmDialogue(
      cfg: Config, byUser: map<string, Pending>, token: string, t: Transcript, out: Outcome) {
    exists a: Transcript, b: Transcript ::
      t == a + b && WrongSetupCodes(cfg, byUser, token, a) && LastSetupCode(cfg, byUser, token, b, out)
  }

  ghost predicate WrongSetupCodes(cfg: Config, byUser: map<string, Pending>, token: string, t: Transcript)
    decreases |t|
  {
    || t == []
    || exists a: Transcript, b: Transcript | t == a + b && |a| < |t| ::
         WrongSetupCodes(cfg, byUser, token, a) && WrongSetupCode(cfg, byUser, token, b)
  }

  predicate WrongSetupCode(cfg: Config, byUser: map<string, Pending>, token: string, t: Transcript) {
    && Answered(t) && !cfg.blank(t[0].reply.first)
    && SetupConfirmed(cfg, byUser, token, t[0].reply.first, t[1..], Err(InvalidTotp))
  }

  ghost predicate LastSetupCode(
      cfg: Config, byUser: map<string, Pending>, token: string, t: Transcript, out: Outcome) {
    || Unanswered(t, token, out)
    || (Answered(t) && cfg.blank(t[0].reply.first) && |t| == 1 && out == Outcome(token, None))
    || (&& Answered(t) && !cfg.blank(t[0].reply.first)
        && exists r ::
             && SetupConfirmed(cfg, byUser, token, t[0].reply.first, t[1..], r) && r != Err(InvalidTotp)
             && out == Outcome(if SessionLost(r) then "" else token, None))
  }

  /** One command of a process that holds `token`, from the command read to the next prompt. */
  ghost predicate Dialogue(
      cfg: Config, byUser: map<string, Pending>, token: string, c: Command, t: Transcript, out: Outcome) {
    match c
    case Register => RegisterDialogue(cfg, token, t, out)
    case Login => LoginDialogue(cfg, token, t, out)
    case WhoAmI => WhoAmIDialogue(cfg, token, t, out)
    case Logout => LogoutDialogue(cfg, token, t, out)
    case EnableTwoFactor => EnableDialogue(cfg, byUser, token, t, out)
    case DisableTwoFactor => DisableDialogue(cfg, token, t, out)
    case _ => t == [] && out == Outcome(token, None)
  }

  // ---- A whole process ----

  /** What ends the shell: input that could be read neither as lines nor as a cancellation. */
  predicate Fatal(err: Option<Reply>) {
    err.Some? && !err.value.Interrupt? && !err.value.Eof?
  }

  /** Which commands a process that holds `token` takes. */
  predicate MayUse(token: string, c: Command) {
    match c
    case Help | Exit => true
    case Register | Login => token == ""
    case WhoAmI | Logout | EnableTwoFactor | DisableTwoFactor => token != ""
    case Unknown => false
  }

  /** What a line read at the prompt leads to, when it leads back to the prompt: a command that may
      be used is carried out, anything else is passed over. */
  ghost predicate Returns(
      cfg: Config, byUser: map<string, Pending>, token: string, line: Reply, t: Transcript, after: string) {
    match line
    case Cmd(c) =>
      if MayUse(token, c)
      then c != Exit && exists err :: Dialogue(cfg, byUser, token, c, t, Outcome(after, err)) && !Fatal(err)
      else t == [] && after == token
    case Interrupt => t == [] && after == token
    case _ => false
  }

  /** What a line read at the prompt leads to when it ends the shell. */
  ghost predicate Ends(cfg: Config, byUser: map<string, Pending>, token: string, line: Reply, t: Transcript) {
    match line
    case Cmd(Exit) => t == []
    case Cmd(c) =>
      MayUse(token, c) && exists after, err :: Dialogue(cfg, byUser, token, c, t, Outcome(after, err)) && Fatal(err)
    case Interrupt => false
    case _ => t == []
  }

  /** Lines read one after the other, each with what it leads to, from a process that is logged out
      to one that holds `token`. */
  ghost predicate Commands(cfg: Config, t: Transcript, token: string)
    decreases |t|
  {
    || (t == [] && token == "")
    || exists a: Transcript, line, b: Transcript, was, byUser |
         t == a + [Exchange(ReadCommand, line)] + b && |a| < |t| ::
         Commands(cfg, a, was) && Returns(cfg, byUser, was, line, b, token)
  }

  ghost predicate ShellSession(cfg: Config, t: Transcript) {
    exists a: Transcript, line, b: Transcript, token, byUser ::
      && t == a + [Exchange(ReadCommand, line)] + b
      && Commands(cfg, a, token) && Ends(cfg, byUser, token, line, b)
  }

  /** From start to exit: expired sessions are removed as of now, then the shell runs. */
  ghost predicate Application(cfg: Config, t: Transcript) {
    && |t| >= 2 && t[0].op == Clock && t[0].reply.Now? && t[1].op == CleanSessions(t[0].reply.t)
    && if t[1].reply.Done? then ShellSession(cfg, t[2..]) else |t| == 2
  }
}
