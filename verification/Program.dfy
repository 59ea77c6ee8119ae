/** One CLI process as a conversation with its surroundings: at every point it waits for the
    answer to exactly one request, and the answer alone decides how it goes on. */
module Program {
  import opened Wrappers
  import opened Tables
  import opened Challenges
  import opened Setups

  datatype Verdict = Match | NoMatch | Broken

  /** Limits and timeouts, the text rules, and the foreign code the program calls: hashing,
      bcrypt, the OTP library and the cipher are functions about which nothing is known but
      `Lawful`. */
  datatype Config = Config(
    maxAttempts: nat, lockoutMs: nat, sessionTimeout: nat, setupTimeout: nat, challengeTimeout: nat,
    normalize: string -> string,
    validUsername: string -> bool,
    validPassword: string -> bool,
    blank: string -> bool,
    hash: string -> string,
    passwordOk: (string, string) -> bool,
    checkCode: (string, string, Time) -> Verdict,
    encrypt: (string, string) -> string,
    decrypt: string -> Option<string>)
  {
    ghost predicate Lawful() {
      && maxAttempts >= 1
      && lockoutMs >= 1
      && forall secret, nonce :: decrypt(encrypt(secret, nonce)) == Some(secret)
    }
  }

  datatype Command = Help | Exit | Register | Login | WhoAmI | Logout | EnableTwoFactor | DisableTwoFactor | Unknown

  // ---- Where a process can be waiting ----

  datatype RegisterPc = RegForm | RegFind(name: string, password: string) | RegHash(name: string, password: string)
                      | RegId(name: string, passwordHash: string) | RegCreate(row: UserRow)

  datatype LoginPc = LoginForm | LoginFind(name: string, password: string) | LoginGate(row: UserRow, password: string)
                   | LoginFail(u: string) | NewChallenge(u: string) | StampChallenge(u: string, id: string)

  datatype CodePc = AskLogin | StampLookup(code: string) | FindOwner(code: string, u: string)
                  | CodeGate(code: string, row: UserRow) | CheckLogin(u: string, secret: string, code: string)
                  | CodeFail(u: string)

  datatype FinishPc = ClearCounter | MakeToken | StampSession(token: string) | MakeId(token: string, at: Time)
                    | ReadUser(token: string, at: Time, id: string)
                    | CommitRow(token: string, at: Time, id: string, row: UserRow)

  datatype Purpose = ForWhoAmI | ForSetup | ForConfirm(code: string) | ForDisable(password: string, code: string)

  datatype ValidatePc = FindRow | StampExpiry(row: SessionRow) | FindUser(row: SessionRow)

  datatype SetupPc = MakeSecret(u: string) | StampSetup(u: string, secret: string) | AskSetup
                   | StampConfirm(code: string, user: UserRow, pending: Pending)
                   | CheckSetup(code: string, pending: Pending)
                   | MakeNonce(pending: Pending) | StoreSecret(pending: Pending, encrypted: string)

  datatype DisablePc = OffForm | OffFind(u: string, password: string, code: string)
                     | OffCheck(u: string, secret: string, code: string) | OffStore(u: string)

  datatype LogoutPc = OutFind | OutExpiry(row: SessionRow) | OutStamp(row: SessionRow)
                    | OutRevoke(row: SessionRow, at: Time)

  datatype Pc =
    | Boot | BootClean(at: Time) | Shell | Exited
    | Registering(r: RegisterPc)
    | LoggingIn(l: LoginPc)
    | Code(ch: string, c: CodePc)
    | Finish(u: string, via: Option<string>, f: FinishPc)
    | Validating(raw: string, why: Purpose, v: ValidatePc)
    | Setup(raw: string, s: SetupPc)
    | Disabling(d: DisablePc)
    | LoggingOut(raw: string, o: LogoutPc)

  /** What one process holds: the session token cell ("" when logged out), the pending logins,
      the pending enrolments, and where it is. */
  datatype Proc = Proc(token: string, challenges: ChallengeMap, setups: Setups, pc: Pc)

  const STARTED := Proc("", map[], NO_SETUPS, Boot)

  // ---- Requests and answers ----

  datatype Op =
    | ReadCommand | ReadLines | Clock | NewToken | NewId | NewSecret | NewNonce | HashPassword(password: string)
    | FindByName(name: string) | FindById(id: string) | InsertUser(user: UserRow)
    | CheckBlocked(u: string) | RecordFailure(u: string) | ResetFailures(u: string)
    | CommitSession(u: string, at: Time, row: SessionRow)
    | FindSession(hash: string) | RevokeSession(id: string, at: Time) | CleanSessions(before: Time)
    | SetTotp(u: string, encrypted: string) | UnsetTotp(u: string)

  datatype Reply =
    | Failed | Cmd(command: Command) | Lines(first: string, second: string, third: string) | Interrupt | Eof
    | Now(t: Time) | Fresh(text: string) | NoRow | User(user: UserRow) | Session(session: SessionRow)
    | Flag(on: bool) | Done | Clash

  function RegisterOp(r: RegisterPc): Op {
    match r
    case RegForm => ReadLines
    case RegFind(name, _) => FindByName(name)
    case RegHash(_, password) => HashPassword(password)
    case RegId(_, _) => NewId
    case RegCreate(row) => InsertUser(row)
  }

  function LoginOp(l: LoginPc): Op {
    match l
    case LoginForm => ReadLines
    case LoginFind(name, _) => FindByName(name)
    case LoginGate(row, _) => CheckBlocked(row.id)
    case LoginFail(u) => RecordFailure(u)
    case NewChallenge(_) => NewToken
    case StampChallenge(_, _) => Clock
  }

  function CodeOp(c: CodePc): Op {
    match c
    case AskLogin => ReadLines
    case StampLookup(_) => Clock
    case FindOwner(_, u) => FindById(u)
    case CodeGate(_, row) => CheckBlocked(row.id)
    case CheckLogin(_, _, _) => Clock
    case CodeFail(u) => RecordFailure(u)
  }

  function FinishOp(cfg: Config, u: string, f: FinishPc): Op {
    match f
    case ClearCounter => ResetFailures(u)
    case MakeToken => NewToken
    case StampSession(_) => Clock
    case MakeId(_, _) => NewId
    case ReadUser(_, _, _) => FindById(u)
    case CommitRow(token, at, id, _) =>
      CommitSession(u, at, SessionRow(id, u, cfg.hash(token), at + cfg.sessionTimeout, None))
  }

  function ValidateOp(cfg: Config, raw: string, v: ValidatePc): Op {
    match v
    case FindRow => FindSession(cfg.hash(raw))
    case StampExpiry(_) => Clock
    case FindUser(row) => FindById(row.userId)
  }

  function SetupOp(s: SetupPc): Op {
    match s
    case MakeSecret(_) => NewSecret
    case StampSetup(_, _) => Clock
    case AskSetup => ReadLines
    case StampConfirm(_, _, _) => Clock
    case CheckSetup(_, _) => Clock
    case MakeNonce(_) => NewNonce
    case StoreSecret(pending, encrypted) => SetTotp(pending.userId, encrypted)
  }

  function DisableOp(d: DisablePc): Op {
    match d
    case OffForm => ReadLines
    case OffFind(u, _, _) => FindById(u)
    case OffCheck(_, _, _) => Clock
    case OffStore(u) => UnsetTotp(u)
  }

  function LogoutOp(cfg: Config, raw: string, o: LogoutPc): Op {
    match o
    case OutFind => FindSession(cfg.hash(raw))
    case OutExpiry(_) => Clock
    case OutStamp(_) => Clock
    case OutRevoke(row, at) => RevokeSession(row.id, at)
  }

  /** The request a process at `pc` is waiting on. */
  function OpOf(cfg: Config, pc: Pc): Op
    requires pc != Exited
  {
    match pc
    case Boot => Clock
    case BootClean(at) => CleanSessions(at)
    case Shell => ReadCommand
    case Registering(r) => RegisterOp(r)
    case LoggingIn(l) => LoginOp(l)
    case Code(_, c) => CodeOp(c)
    case Finish(u, _, f) => FinishOp(cfg, u, f)
    case Validating(raw, _, v) => ValidateOp(cfg, raw, v)
    case Setup(_, s) => SetupOp(s)
    case Disabling(d) => DisableOp(d)
    case LoggingOut(raw, o) => LogoutOp(cfg, raw, o)
  }

  // ---- How it goes on ----

  /** Back to the command prompt. */
  function Prompt(p: Proc): Proc {
    p.(pc := Shell)
  }

  /** The session is gone: forget the token and go back to the prompt. */
  function Forget(p: Proc): Proc {
    p.(token := "", pc := Shell)
  }

  /** Shell.Close. */
  function Close(p: Proc): Proc {
    Proc("", map[], NO_SETUPS, Exited)
  }

  /** A form that could not be read: an interrupt or end of input cancels the command, anything
      else ends the shell. */
  function Unread(p: Proc, reply: Reply): Proc {
    if reply.Interrupt? || reply.Eof? then Prompt(p) else Close(p)
  }

  function DropChallenge(p: Proc, ch: string): Proc {
    p.(challenges := p.challenges - {ch})
  }

  /** Which commands the current state offers. */
  predicate Offered(authenticated: bool, c: Command) {
    match c
    case Help | Exit => true
    case Register | Login => !authenticated
    case WhoAmI | Logout | EnableTwoFactor | DisableTwoFactor => authenticated
    case Unknown => false
  }

  function Dispatch(p: Proc, c: Command): Proc {
    if !Offered(p.token != "", c) then Prompt(p)
    else
      match c
      case Help => Prompt(p)
      case Exit => Close(p)
      case Register => p.(pc := Registering(RegForm))
      case Login => p.(pc := LoggingIn(LoginForm))
      case WhoAmI => Validate(p, p.token, ForWhoAmI)
      case Logout => if p.token == "" then Forget(p) else p.(pc := LoggingOut(p.token, OutFind))
      case EnableTwoFactor => Validate(p, p.token, ForSetup)
      case DisableTwoFactor => p.(pc := Disabling(OffForm))
      case Unknown => Prompt(p)
  }

  function ResumeShell(p: Proc, reply: Reply): Proc {
    match reply
    case Cmd(c) => Dispatch(p, c)
    case Interrupt => Prompt(p)
    case _ => Close(p)
  }

  function ResumeRegister(cfg: Config, p: Proc, r: RegisterPc, reply: Reply): Proc {
    match r
    case RegForm =>
      if !reply.Lines? then Unread(p, reply)
      else
        var name := cfg.normalize(reply.first);
        if !cfg.validUsername(name) then Prompt(p)
        else if !cfg.validPassword(reply.second) then Prompt(p)
        else if reply.second != reply.third then Prompt(p)
        else p.(pc := Registering(RegFind(name, reply.second)))
    case RegFind(name, password) => if reply.NoRow? then p.(pc := Registering(RegHash(name, password))) else Prompt(p)
    case RegHash(name, _) => if reply.Fresh? then p.(pc := Registering(RegId(name, reply.text))) else Prompt(p)
    case RegId(name, hash) =>
      if reply.Fresh? then p.(pc := Registering(RegCreate(UserRow(reply.text, name, hash, false, None, None))))
        else Prompt(p)
    case RegCreate(_) => Prompt(p)
  }

  function ResumeLogin(cfg: Config, p: Proc, l: LoginPc, reply: Reply): Proc {
    match l
    case LoginForm =>
      if reply.Lines?
      then p.(pc := LoggingIn(LoginFind(cfg.normalize(reply.first), reply.second)))
      else Unread(p, reply)
    case LoginFind(_, password) => if reply.User? then p.(pc := LoggingIn(LoginGate(reply.user, password)))
      else Prompt(p)
    case LoginGate(row, password) =>
      if reply != Flag(false) then Prompt(p)
      else if !cfg.passwordOk(row.passwordHash, password) then p.(pc := LoggingIn(LoginFail(row.id)))
      else if row.totpEnabled then p.(pc := LoggingIn(NewChallenge(row.id)))
      else p.(pc := Finish(row.id, None, ClearCounter))
    case LoginFail(_) => Prompt(p)
    case NewChallenge(u) => if reply.Fresh? then p.(pc := LoggingIn(StampChallenge(u, reply.text))) else Prompt(p)
    case StampChallenge(u, id) =>
      if !reply.Now? then Prompt(p)
      else
        var live := Prune(p.challenges, reply.t);
        if id in live then Prompt(p.(challenges := live))
        else
          var q := p.(challenges := live[id := Challenge(u, reply.t + cfg.challengeTimeout)]);
          if id == "" then Prompt(q) else q.(pc := Code(id, AskLogin))
  }

  function ResumeCode(cfg: Config, p: Proc, ch: string, c: CodePc, reply: Reply): Proc {
    match c
    case AskLogin =>
      if !reply.Lines? then Unread(DropChallenge(p, ch), reply)
      else if cfg.blank(reply.first) then Prompt(DropChallenge(p, ch))
      else if ch !in p.challenges then Prompt(p)
      else p.(pc := Code(ch, StampLookup(reply.first)))
    case StampLookup(code) =>
      if ch !in p.challenges then Prompt(p)
      else if reply.Now? && reply.t < p.challenges[ch].expiresAt
      then p.(pc := Code(ch, FindOwner(code, p.challenges[ch].userId)))
      else Prompt(DropChallenge(p, ch))
    case FindOwner(code, _) =>
      if reply.User? then p.(pc := Code(ch, CodeGate(code, reply.user))) else Prompt(DropChallenge(p, ch))
    case CodeGate(code, row) =>
      if reply != Flag(false) then Prompt(DropChallenge(p, ch))
      else if !row.totpEnabled || row.secret.None? then Prompt(DropChallenge(p, ch))
      else
        (match cfg.decrypt(row.secret.value)
         case None => Prompt(DropChallenge(p, ch))
         case Some(secret) => p.(pc := Code(ch, CheckLogin(row.id, secret, code))))
    case CheckLogin(u, secret, code) =>
      if !reply.Now? then Prompt(DropChallenge(p, ch))
      else
        (match cfg.checkCode(secret, code, reply.t)
         case Broken => Prompt(DropChallenge(p, ch))
         case NoMatch => p.(pc := Code(ch, CodeFail(u)))
         case Match => p.(pc := Finish(u, Some(ch), ClearCounter)))
    case CodeFail(_) => if reply == Flag(false) then p.(pc := Code(ch, AskLogin)) else Prompt(DropChallenge(p, ch))
  }

  /** However finishing ends, the challenge that led to it is spent. */
  function Spend(p: Proc, ch: Option<string>): Proc {
    match ch
    case None => p
    case Some(id) => DropChallenge(p, id)
  }

  function ResumeFinish(p: Proc, u: string, ch: Option<string>, f: FinishPc, reply: Reply): Proc {
    match f
    case ClearCounter => if reply.Done? then p.(pc := Finish(u, ch, MakeToken)) else Prompt(Spend(p, ch))
    case MakeToken => if reply.Fresh? then p.(pc := Finish(u, ch, StampSession(reply.text))) else Prompt(Spend(p, ch))
    case StampSession(token) => if reply.Now? then p.(pc := Finish(u, ch, MakeId(token, reply.t)))
      else Prompt(Spend(p, ch))
    case MakeId(token, at) => if reply.Fresh? then p.(pc := Finish(u, ch, ReadUser(token, at, reply.text)))
      else Prompt(Spend(p, ch))
    case ReadUser(token, at, id) =>
      if reply.User? then p.(pc := Finish(u, ch, CommitRow(token, at, id, reply.user))) else Prompt(Spend(p, ch))
    case CommitRow(token, _, _, _) =>
      if reply.Done? then Prompt(Spend(p, ch)).(token := token) else Prompt(Spend(p, ch))
  }

  datatype SessionError = NotAuthorized | WasRevoked | HasExpired | SystemError

  /** ValidateSession begins by looking the token's hash up; no token is refused at once. */
  function Validate(p: Proc, raw: string, why: Purpose): Proc {
    if raw == "" then Refused(p, why, NotAuthorized) else p.(pc := Validating(raw, why, FindRow))
  }

  /** Every command that validates a session answers a refusal in the same way. */
  function Refused(p: Proc, why: Purpose, e: SessionError): Proc {
    if e.SystemError? then Prompt(p) else Forget(p)
  }

  function Accepted(p: Proc, raw: string, why: Purpose, user: UserRow): Proc {
    match why
    case ForWhoAmI => Prompt(p)
    case ForSetup => if user.totpEnabled then Prompt(p) else p.(pc := Setup(raw, MakeSecret(user.id)))
    case ForConfirm(code) =>
      if user.id !in p.setups.byUser then Prompt(p)
      else p.(pc := Setup(raw, StampConfirm(code, user, p.setups.byUser[user.id])))
    case ForDisable(password, code) => p.(pc := Disabling(OffFind(user.id, password, code)))
  }

  function ResumeValidate(p: Proc, raw: string, why: Purpose, v: ValidatePc, reply: Reply): Proc {
    match v
    case FindRow =>
      if reply.NoRow? then Refused(p, why, NotAuthorized)
      else if !reply.Session? then Refused(p, why, SystemError)
      else if reply.session.revokedAt.Some? then Refused(p, why, WasRevoked)
      else p.(pc := Validating(raw, why, StampExpiry(reply.session)))
    case StampExpiry(row) =>
      if reply.Now? && reply.t < row.expiresAt then p.(pc := Validating(raw, why, FindUser(row)))
      else Refused(p, why, HasExpired)
    case FindUser(_) =>
      if reply.User? then Accepted(p, raw, why, reply.user)
      else if reply.NoRow? then Refused(p, why, NotAuthorized)
      else Refused(p, why, SystemError)
  }

  function DropSetup(p: Proc, pending: Pending): Proc {
    p.(setups := Remove(p.setups, pending))
  }

  function CancelSetup(cfg: Config, p: Proc, raw: string): Proc {
    p.(setups := Cancel(p.setups, cfg.hash(raw)))
  }

  function ResumeSetup(cfg: Config, p: Proc, raw: string, s: SetupPc, reply: Reply): Proc {
    match s
    case MakeSecret(u) => if reply.Fresh? then p.(pc := Setup(raw, StampSetup(u, reply.text))) else Prompt(p)
    case StampSetup(u, secret) =>
      if !reply.Now? then Prompt(p)
      else
        var pending := Pending(u, secret, reply.t + cfg.setupTimeout, cfg.hash(raw));
        p.(setups := Begin(p.setups, pending), pc := Setup(raw, AskSetup))
    case AskSetup =>
      if !reply.Lines? then Unread(CancelSetup(cfg, p, raw), reply)
      else if cfg.blank(reply.first) then Prompt(CancelSetup(cfg, p, raw))
      else Validate(p, raw, ForConfirm(reply.first))
    case StampConfirm(code, user, pending) =>
      if !(reply.Now? && reply.t < pending.expiresAt) then Prompt(DropSetup(p, pending))
      else if user.totpEnabled then Prompt(DropSetup(p, pending))
      else p.(pc := Setup(raw, CheckSetup(code, pending)))
    case CheckSetup(code, pending) =>
      if !reply.Now? then Prompt(p)
      else
        (match cfg.checkCode(pending.secret, code, reply.t)
         case Broken => Prompt(p)
         case NoMatch => p.(pc := Setup(raw, AskSetup))
         case Match => p.(pc := Setup(raw, MakeNonce(pending))))
    case MakeNonce(pending) =>
      if reply.Fresh? then p.(pc := Setup(raw, StoreSecret(pending, cfg.encrypt(pending.secret, reply.text))))
        else Prompt(p)
    case StoreSecret(pending, _) => if reply.Done? || reply.Clash? then Prompt(DropSetup(p, pending)) else Prompt(p)
  }

  function ResumeDisable(cfg: Config, p: Proc, d: DisablePc, reply: Reply): Proc {
    match d
    case OffForm =>
      if !reply.Lines? then Unread(p, reply)
      else if reply.first == "" || cfg.blank(reply.second) then Prompt(p)
      else Validate(p, p.token, ForDisable(reply.first, reply.second))
    case OffFind(u, password, code) =>
      if reply.NoRow? then Forget(p)
      else if !reply.User? || !reply.user.totpEnabled || reply.user.secret.None? then Prompt(p)
      else if !cfg.passwordOk(reply.user.passwordHash, password) then Prompt(p)
      else
        (match cfg.decrypt(reply.user.secret.value)
         case None => Prompt(p)
         case Some(secret) => p.(pc := Disabling(OffCheck(reply.user.id, secret, code))))
    case OffCheck(u, secret, code) =>
      if reply.Now? && cfg.checkCode(secret, code, reply.t).Match? then p.(pc := Disabling(OffStore(u))) else Prompt(p)
    case OffStore(_) => Prompt(p)
  }

  /** Logout clears the local token whatever the server says. */
  function ResumeLogout(p: Proc, raw: string, o: LogoutPc, reply: Reply): Proc {
    match o
    case OutFind =>
      if reply.Session? && reply.session.revokedAt.None? then p.(pc := LoggingOut(raw, OutExpiry(reply.session)))
        else Forget(p)
    case OutExpiry(row) => if reply.Now? && reply.t < row.expiresAt then p.(pc := LoggingOut(raw, OutStamp(row)))
      else Forget(p)
    case OutStamp(row) => if reply.Now? then p.(pc := LoggingOut(raw, OutRevoke(row, reply.t))) else Forget(p)
    case OutRevoke(_, _) => Forget(p)
  }

  /** What a process does with the answer it was waiting for, up to its next request. */
  function Resume(cfg: Config, p: Proc, reply: Reply): Proc
    requires p.pc != Exited
  {
    match p.pc
    case Boot => if reply.Now? then p.(pc := BootClean(reply.t)) else Close(p)
    case BootClean(_) => if reply.Done? then Prompt(p) else Close(p)
    case Shell => ResumeShell(p, reply)
    case Registering(r) => ResumeRegister(cfg, p, r, reply)
    case LoggingIn(l) => ResumeLogin(cfg, p, l, reply)
    case Code(ch, c) => ResumeCode(cfg, p, ch, c, reply)
    case Finish(u, ch, f) => ResumeFinish(p, u, ch, f, reply)
    case Validating(raw, why, v) => ResumeValidate(p, raw, why, v, reply)
    case Setup(raw, s) => ResumeSetup(cfg, p, raw, s, reply)
    case Disabling(d) => ResumeDisable(cfg, p, d, reply)
    case LoggingOut(raw, o) => ResumeLogout(p, raw, o, reply)
  }
}
