/** The session, TOTP and authentication services as they run: they keep the pending logins and
    enrolments in maps they update in place, and reach the databases, the clock and the random
    source through a port. Each operation is shown to move the process exactly as `Program` says
    under every answer it may get. */
module Services {
  import opened Wrappers
  import opened Tables
  import opened Challenges
  import opened Setups
  import opened Program
  import opened Transcripts
  import opened Ports

  class SessionService {
    const port: Port
    const cfg: Config

    constructor (port: Port)
      ensures this.port == port && cfg == port.cfg
    {
      this.port, this.cfg := port, port.cfg;
    }

    method FinalizeLogin(userId: string, ghost via: Option<string>)
      returns (r: Option<SessionResult>, ghost t: Transcript)
      requires port.Valid() && cfg == port.cfg && port.proc.pc == Finish(userId, via, MakeToken)
      modifies port
      ensures port.Valid() && |port.script| <= |old(port.script)|
      ensures r.Some? ==> port.proc == Prompt(Spend(old(port.proc), via)).(token := r.value.rawToken)
      ensures r.None? ==> port.proc == Prompt(Spend(old(port.proc), via))
      ensures port.log == old(port.log) + t && SessionMade(cfg, userId, t, r)
    {
      FinishPhase(cfg);
      hide Converse, Resume, OpOf, SessionStamped;
      var generated := port.Ask(NewToken);
      t := [Exchange(NewToken, generated)];
      if generated.Failed? {
        return None, t;
      }
      ghost var rest;
      r, rest := StampLogin(userId, generated.text, via);
      t := t + rest;
      assert t[1..] == rest;
    }

    method StampLogin(userId: string, rawToken: string, ghost via: Option<string>)
      returns (r: Option<SessionResult>, ghost t: Transcript)
      requires port.Valid() && cfg == port.cfg && port.proc.pc == Finish(userId, via, StampSession(rawToken))
      modifies port
      ensures port.Valid() && |port.script| <= |old(port.script)|
      ensures r.Some? ==> r.value.rawToken == rawToken
      ensures port.proc == if r.Some? then Prompt(Spend(old(port.proc), via)).(token := rawToken)
              else Prompt(Spend(old(port.proc), via))
      ensures port.log == old(port.log) + t && SessionStamped(cfg, userId, rawToken, t, r)
    {
      FinishPhase(cfg);
      hide Converse, Resume, OpOf, LoginRecorded, SessionStamped;
      var now := port.Ask(Clock);
      assert port.proc == old(port.proc).(pc := Finish(userId, via, MakeId(rawToken, now.t)));
      var id := port.Ask(NewId);
      ghost var rest := [];
      if id.Failed? {
        r := None;
      } else {
        r, rest := RecordLogin(userId, rawToken, now.t, id.text, via);
      }
      SessionStampedFrom(cfg, userId, rawToken, now.t, id, rest, r);
      t := [Exchange(Clock, now), Exchange(NewId, id)] + rest;
    }

    /** The transaction: read the user, move the last login, add the session. */
    method RecordLogin(userId: string, rawToken: string, now: Time, id: string, ghost via: Option<string>)
      returns (r: Option<SessionResult>, ghost t: Transcript)
      requires port.Valid() && cfg == port.cfg && port.proc.pc == Finish(userId, via, ReadUser(rawToken, now, id))
      modifies port
      ensures port.Valid() && |port.script| <= |old(port.script)|
      ensures r.Some? ==> r.value.rawToken == rawToken
      ensures port.proc == if r.Some? then Prompt(Spend(old(port.proc), via)).(token := rawToken)
              else Prompt(Spend(old(port.proc), via))
      ensures port.log == old(port.log) + t && LoginRecorded(cfg, userId, rawToken, now, id, t, r)
    {
      FinishPhase(cfg);
      hide Converse, Resume, OpOf;
      var found := port.Ask(FindById(userId));
      t := [Exchange(FindById(userId), found)];
      if !found.User? {
        return None, t;
      }
      hide LoginRecorded;
      var row := SessionRow(id, userId, cfg.hash(rawToken), now + cfg.sessionTimeout, None);
      var committed := port.Ask(CommitSession(userId, now, row));
      t := [Exchange(FindById(userId), found), Exchange(CommitSession(userId, now, row), committed)];
      LoginRecordedFrom(cfg, userId, rawToken, now, id, found.user, committed);
      if committed.Failed? {
        return None, t;
      }
      r := Some(SessionResult(rawToken, row.expiresAt, found.user, found.user.lastLogin));
    }

    method ValidateSession(rawToken: string, ghost before: Proc, ghost why: Purpose)
      returns (r: Result<UserRow, SessionError>, ghost t: Transcript)
      requires port.Valid() && cfg == port.cfg && port.proc == Validate(before, rawToken, why)
      modifies port
      ensures port.Valid() && |port.script| <= |old(port.script)|
      ensures r.Ok? ==> port.proc == Accepted(before, rawToken, why, r.value)
      ensures r.Err? ==> port.proc == Refused(before, why, r.error)
      ensures port.log == old(port.log) + t && Validation(cfg, rawToken, t, r)
      ensures r.Ok? ==> |t| == 3 && t[2].reply == User(r.value)
    {
      ValidatePhase(cfg);
      hide Converse, Resume, OpOf, ExpiryChecked, Accepted;
      if rawToken == "" {
        return Err(NotAuthorized), [];
      }
      hide Validation;
      var found := port.Ask(FindSession(cfg.hash(rawToken)));
      ghost var rest := [];
      if found.NoRow? {
        r := Err(NotAuthorized);
      } else if found.Failed? {
        r := Err(SystemError);
      } else if found.session.revokedAt.Some? {
        r := Err(WasRevoked);
      } else {
        r, rest := CheckExpiry(rawToken, found.session, before, why);
      }
      ValidationFrom(cfg, rawToken, found, rest, r);
      t := [Exchange(FindSession(cfg.hash(rawToken)), found)] + rest;
    }

    method CheckExpiry(ghost rawToken: string, value: SessionRow, ghost before: Proc, ghost why: Purpose)
      returns (r: Result<UserRow, SessionError>, ghost t: Transcript)
      requires port.Valid() && cfg == port.cfg
               && port.proc == before.(pc := Validating(rawToken, why, StampExpiry(value)))
      modifies port
      ensures port.Valid() && |port.script| <= |old(port.script)|
      ensures r.Ok? ==> port.proc == Accepted(before, rawToken, why, r.value)
      ensures r.Err? ==> port.proc == Refused(before, why, r.error)
      ensures port.log == old(port.log) + t && ExpiryChecked(value, t, r)
    {
      ValidatePhase(cfg);
      hide Converse, Resume, OpOf;
      var now := port.Ask(Clock);
      t := [Exchange(Clock, now)];
      if !(now.t < value.expiresAt) {
        return Err(HasExpired), t;
      }
      var user := port.Ask(FindById(value.userId));
      t := [Exchange(Clock, now), Exchange(FindById(value.userId), user)];
      if user.NoRow? {
        return Err(NotAuthorized), t;
      }
      r := if user.Failed? then Err(SystemError) else Ok(user.user);
    }

    method Logout(rawToken: string, ghost before: Proc) returns (r: Result<(), SessionError>, ghost t: Transcript)
      requires port.Valid() && cfg == port.cfg
      requires port.proc == if rawToken == "" then Forget(before) else before.(pc := LoggingOut(rawToken, OutFind))
      modifies port
      ensures port.Valid() && |port.script| <= |old(port.script)|
      ensures port.proc == Forget(before)
      ensures port.log == old(port.log) + t && Revocation(cfg, rawToken, t, r)
    {
      LogoutPhase(cfg);
      hide Converse, Resume, OpOf, OpenRevocation;
      if rawToken == "" {
        return Err(NotAuthorized), [];
      }
      var found := port.Ask(FindSession(cfg.hash(rawToken)));
      t := [Exchange(FindSession(cfg.hash(rawToken)), found)];
      if found.NoRow? {
        return Err(NotAuthorized), t;
      }
      if found.Failed? {
        return Err(SystemError), t;
      }
      if found.session.revokedAt.Some? {
        return Err(WasRevoked), t;
      }
      ghost var rest;
      r, rest := LogoutOpen(rawToken, found.session);
      t := t + rest;
      assert t[1..] == rest;
    }

    method LogoutOpen(ghost rawToken: string, row: SessionRow)
      returns (r: Result<(), SessionError>, ghost t: Transcript)
      requires port.Valid() && cfg == port.cfg && port.proc.pc == LoggingOut(rawToken, OutExpiry(row))
      modifies port
      ensures port.Valid() && |port.script| <= |old(port.script)| && port.proc == Forget(old(port.proc))
      ensures port.log == old(port.log) + t && OpenRevocation(row, t, r)
    {
      LogoutPhase(cfg);
      hide Converse, Resume, OpOf, Revoking;
      var now := port.Ask(Clock);
      t := [Exchange(Clock, now)];
      if !(now.t < row.expiresAt) {
        return Err(HasExpired), t;
      }
      ghost var rest;
      r, rest := Revoke(rawToken, row);
      t := t + rest;
      assert t[1..] == rest;
    }

    method Revoke(ghost rawToken: string, row: SessionRow) returns (r: Result<(), SessionError>, ghost t: Transcript)
      requires port.Valid() && cfg == port.cfg && port.proc.pc == LoggingOut(rawToken, OutStamp(row))
      modifies port
      ensures port.Valid() && |port.script| <= |old(port.script)| && port.proc == Forget(old(port.proc))
      ensures port.log == old(port.log) + t && Revoking(row, t, r)
    {
      LogoutPhase(cfg);
      hide Converse, Resume, OpOf;
      var now := port.Ask(Clock);
      var revoked := port.Ask(RevokeSession(row.id, now.t));
      t := [Exchange(Clock, now), Exchange(RevokeSession(row.id, now.t), revoked)];
      if revoked.NoRow? {
        return Err(WasRevoked), t;
      }
      r := if revoked.Failed? then Err(SystemError) else Ok(());
    }
  }

  class TotpService {
    const port: Port
    const cfg: Config
    const sessions: SessionService
    var byUser: map<string, Pending>
    var bySession: map<string, string>

    constructor (port: Port, sessions: SessionService)
      requires sessions.port == port && sessions.cfg == port.cfg
      ensures this.port == port && cfg == port.cfg && this.sessions == sessions && Maps() == NO_SETUPS
    {
      this.port, this.cfg, this.sessions := port, port.cfg, sessions;
      byUser, bySession := map[], map[];
    }

    ghost predicate Valid()
      reads this, port
    {
      port.Valid() && cfg == port.cfg && sessions.port == port && sessions.cfg == cfg
    }

    function Maps(): Setups
      reads this
    {
      Setups(byUser, bySession)
    }

    /** Reads the clock and checks the code for the moment read. */
    method ValidateCode(secret: string, code: string) returns (verdict: Verdict, ghost at: Time)
      requires Valid() && port.proc.pc != Exited && OpOf(cfg, port.proc.pc) == Clock
      modifies port
      ensures Valid() && |port.script| <= |old(port.script)|
      ensures port.proc == Resume(cfg, old(port.proc), Now(at)) && verdict == cfg.checkCode(secret, code, at)
      ensures port.log == old(port.log) + [Exchange(Clock, Now(at))]
    {
      hide Converse, Resume, OpOf;
      var now := port.Ask(Clock);
      return cfg.checkCode(secret, code, now.t), now.t;
    }

    method ValidateEncryptedCode(encrypted: string, code: string) returns (verdict: Verdict, ghost at: Time)
      requires Valid() && (cfg.decrypt(encrypted).Some? ==> port.proc.pc != Exited && OpOf(cfg, port.proc.pc) == Clock)
      modifies port
      ensures Valid() && |port.script| <= |old(port.script)|
      ensures match cfg.decrypt(encrypted)
              case None => port.proc == old(port.proc) && verdict == Broken && port.log == old(port.log)
              case Some(secret) =>
                && port.proc == Resume(cfg, old(port.proc), Now(at)) && verdict == cfg.checkCode(secret, code, at)
                && port.log == old(port.log) + [Exchange(Clock, Now(at))]
    {
      hide Converse, Resume, OpOf;
      var secret := cfg.decrypt(encrypted);
      if secret.None? {
        return Broken, 0;
      }
      verdict, at := ValidateCode(secret.value, code);
    }

    method RemoveSetup(value: Pending)
      modifies this`byUser, this`bySession
      ensures Maps() == Remove(old(Maps()), value)
    {
      byUser := byUser - {value.userId};
      bySession := bySession - {value.sessionHash};
    }

    method BeginSetup(rawToken: string, ghost before: Proc)
      returns (r: Result<Pending, TotpError>, ghost t: Transcript)
      requires Valid() && before.setups == Maps()
      requires port.proc == Validate(before, rawToken, ForSetup)
      modifies port, this`byUser, this`bySession
      ensures Valid() && |port.script| <= |old(port.script)|
      ensures r.Ok? ==> Maps() == Begin(old(Maps()), r.value)
                        && port.proc == before.(setups := Maps(), pc := Setup(rawToken, AskSetup))
      ensures r.Err? ==> Maps() == old(Maps())
      ensures r.Err? ==> port.proc == if SessionLost(r) then Forget(before) else Prompt(before)
      ensures port.log == old(port.log) + t && SetupBegun(cfg, rawToken, t, r)
    {
      hide Converse, Resume, OpOf, Validation, SecretDrawn;
      var authenticated;
      authenticated, t := sessions.ValidateSession(rawToken, before, ForSetup);
      if authenticated.Err? {
        return Err(TotpError.Session(authenticated.error)), t;
      }
      var user := authenticated.value;
      assert t[..3] == t && t[3..] == [];
      if user.totpEnabled {
        return Err(AlreadyEnabled), t;
      }
      ghost var first, rest := t, [];
      r, rest := Generate(rawToken, user.id);
      t := first + rest;
      assert t[..3] == first && t[3..] == rest && t[2] == first[2];
    }

    /** A new secret, filed under the user and the session. */
    method Generate(rawToken: string, userId: string) returns (r: Result<Pending, TotpError>, ghost t: Transcript)
      requires Valid() && port.proc.setups == Maps() && port.proc.pc == Setup(rawToken, MakeSecret(userId))
      modifies port, this`byUser, this`bySession
      ensures Valid() && |port.script| <= |old(port.script)|
      ensures Maps() == if r.Ok? then Begin(old(Maps()), r.value) else old(Maps())
      ensures r.Err? ==> r.error == OtherTotpError
      ensures port.proc == old(port.proc).(setups := Maps(), pc := if r.Ok? then Setup(rawToken, AskSetup) else Shell)
      ensures port.log == old(port.log) + t && SecretDrawn(cfg, rawToken, userId, t, r)
    {
      SetupPhase(cfg);
      hide Converse, Resume, OpOf, Begin, Validate, Unread, Program.CancelSetup, DropSetup;
      var key := port.Ask(NewSecret);
      t := [Exchange(NewSecret, key)];
      if key.Failed? {
        return Err(OtherTotpError), t;
      }
      var now := port.Ask(Clock);
      t := [Exchange(NewSecret, key), Exchange(Clock, now)];
      var value := Pending(userId, key.text, now.t + cfg.setupTimeout, cfg.hash(rawToken));
      assert port.proc == old(port.proc).(setups := Begin(old(Maps()), value), pc := Setup(rawToken, AskSetup));
      hide ResumeSetup;
      File(value);
      r := Ok(value);
    }

    /** A newer setup replaces the user's older one, whichever session began it. */
    method File(value: Pending)
      modifies this`byUser, this`bySession
      ensures Maps() == Begin(old(Maps()), value)
    {
      if value.userId in byUser {
        bySession := bySession - {byUser[value.userId].sessionHash};
      }
      byUser := byUser[value.userId := value];
      bySession := bySession[value.sessionHash := value.userId];
    }

    method ConfirmSetup(rawToken: string, code: string, ghost before: Proc)
      returns (r: Result<(), TotpError>, ghost t: Transcript)
      requires Valid() && before.setups == Maps()
      requires port.proc == Validate(before, rawToken, ForConfirm(code))
      modifies port, this`byUser, this`bySession
      ensures Valid() && |port.script| <= |old(port.script)|
      ensures match r
              case Err(InvalidTotp) => port.proc == before.(pc := Setup(rawToken, AskSetup))
              case Err(Session(e)) => port.proc == Refused(before, ForConfirm(code), e)
              case _ => port.proc == Prompt(before).(setups := Maps())
      ensures if Keeps(r) then Maps() == old(Maps())
              else
                |t| >= 3 && t[2].reply.User? && t[2].reply.user.id in old(byUser)
                && Maps() == Remove(old(Maps()), old(byUser)[t[2].reply.user.id])
      ensures port.log == old(port.log) + t && SetupConfirmed(cfg, old(byUser), rawToken, code, t, r)
    {
      hide Converse, Resume, OpOf, Validation, CodeConfirmed;
      var authenticated;
      authenticated, t := sessions.ValidateSession(rawToken, before, ForConfirm(code));
      if authenticated.Err? {
        return Err(TotpError.Session(authenticated.error)), t;
      }
      var user := authenticated.value;
      assert t[..3] == t && t[3..] == [];
      if user.id !in byUser {
        return Err(SetupNotFound), t;
      }
      ghost var first, rest := t, [];
      r, rest := Confirm(rawToken, code, user, byUser[user.id]);
      t := first + rest;
      assert t[..3] == first && t[3..] == rest && t[2] == first[2];
    }

    /** The setup survives a wrong code and a failure to validate, encrypt or store; everything
        else that ends the attempt removes it. */
    static predicate Keeps(r: Result<(), TotpError>) {
      r.Err? && !r.error.SetupExpired? && !r.error.AlreadyEnabled?
    }

    method Confirm(rawToken: string, code: string, user: UserRow, value: Pending)
      returns (r: Result<(), TotpError>, ghost t: Transcript)
      requires Valid() && port.proc.setups == Maps() && port.proc.pc == Setup(rawToken, StampConfirm(code, user, value))
      modifies port, this`byUser, this`bySession
      ensures Valid() && |port.script| <= |old(port.script)|
      ensures Maps() == if Keeps(r) then old(Maps()) else Remove(old(Maps()), value)
      ensures r.Err? ==> !r.error.Session? && !r.error.SetupNotFound?
      ensures port.proc == old(port.proc).(
                setups := Maps(), pc := if r == Err(InvalidTotp) then Setup(rawToken, AskSetup) else Shell)
      ensures port.log == old(port.log) + t && CodeConfirmed(cfg, value, user, code, t, r)
    {
      SetupPhase(cfg);
      hide Converse, Resume, OpOf, Remove, Validate, Unread, Program.CancelSetup, Begin, SecretChecked;
      var now := port.Ask(Clock);
      ghost var rest := [];
      if !(now.t < value.expiresAt) {
        RemoveSetup(value);
        r := Err(SetupExpired);
      } else if user.totpEnabled {
        RemoveSetup(value);
        r := Err(AlreadyEnabled);
      } else {
        r, rest := ConfirmCode(rawToken, code, value);
      }
      t := [Exchange(Clock, now)] + rest;
      assert t[1..] == rest;
    }

    method ConfirmCode(ghost rawToken: string, code: string, value: Pending)
      returns (r: Result<(), TotpError>, ghost t: Transcript)
      requires Valid() && port.proc.setups == Maps() && port.proc.pc == Setup(rawToken, CheckSetup(code, value))
      modifies port, this`byUser, this`bySession
      ensures Valid() && |port.script| <= |old(port.script)|
      ensures Maps() == if Keeps(r) then old(Maps()) else Remove(old(Maps()), value)
      ensures r.Err? ==> !r.error.Session? && !r.error.SetupNotFound?
      ensures port.proc == old(port.proc).(
                setups := Maps(), pc := if r == Err(InvalidTotp) then Setup(rawToken, AskSetup) else Shell)
      ensures port.log == old(port.log) + t && SecretChecked(cfg, value, code, t, r)
    {
      hide Converse, Resume, OpOf, Remove, Begin, Validate, Unread, Program.CancelSetup, DropSetup, SecretStored;
      hide SecretChecked;
      assert OpOf(cfg, port.proc.pc) == Clock by { SetupPhase(cfg); }
      var verdict, at := ValidateCode(value.secret, code);
      assert port.proc == old(port.proc).(
          pc := if verdict.Match? then Setup(rawToken, MakeNonce(value))
                else if verdict.NoMatch? then Setup(rawToken, AskSetup) else Shell) by { SetupPhase(cfg); }
      hide ResumeSetup;
      ghost var rest := [];
      if verdict.Match? {
        r, rest := Persist(value);
      } else {
        r := if verdict.NoMatch? then Err(InvalidTotp) else Err(OtherTotpError);
      }
      SecretCheckedFrom(cfg, value, code, at, rest, r);
      t := [Exchange(Clock, Now(at))] + rest;
    }

    /** Encrypts and stores the confirmed secret. */
    method Persist(value: Pending) returns (r: Result<(), TotpError>, ghost t: Transcript)
      requires Valid() && port.proc.setups == Maps()
      requires port.proc.pc.Setup? && port.proc.pc.s == MakeNonce(value)
      modifies port, this`byUser, this`bySession
      ensures Valid() && |port.script| <= |old(port.script)|
      ensures r.Err? ==> r.error == AlreadyEnabled || r.error == OtherTotpError
      ensures Maps() == if r == Err(OtherTotpError) then old(Maps()) else Remove(old(Maps()), value)
      ensures port.proc == Prompt(old(port.proc)).(setups := Maps())
      ensures port.log == old(port.log) + t && SecretStored(cfg, value, t, r)
    {
      SetupPhase(cfg);
      hide Converse, Resume, OpOf, Remove, Validate, Unread, Program.CancelSetup, Begin;
      var nonce := port.Ask(NewNonce);
      if nonce.Failed? {
        return Err(OtherTotpError), [Exchange(NewNonce, nonce)];
      }
      hide SecretStored;
      var encrypted := cfg.encrypt(value.secret, nonce.text);
      assert port.proc == old(port.proc).(pc := Setup(old(port.proc).pc.raw, StoreSecret(value, encrypted)));
      var stored := port.Ask(SetTotp(value.userId, encrypted));
      t := [Exchange(NewNonce, nonce), Exchange(SetTotp(value.userId, encrypted), stored)];
      SecretStoredFrom(cfg, value, nonce.text, stored);
      if stored.Failed? {
        return Err(OtherTotpError), t;
      }
      assert port.proc == Prompt(old(port.proc)).(setups := Remove(old(Maps()), value));
      hide ResumeSetup;
      RemoveSetup(value);
      r := if stored.Clash? then Err(AlreadyEnabled) else Ok(());
    }

    method CancelSetup(rawToken: string)
      modifies this`byUser, this`bySession
      ensures Maps() == Cancel(old(Maps()), cfg.hash(rawToken))
    {
      var hash := cfg.hash(rawToken);
      if hash !in bySession {
        return;
      }
      var userId := bySession[hash];
      if userId in byUser && byUser[userId].sessionHash == hash {
        RemoveSetup(byUser[userId]);
      }
    }

    method ClearPendingSetups()
      modifies this`byUser, this`bySession
      ensures Maps() == NO_SETUPS
    {
      byUser, bySession := map[], map[];
    }

    method Disable(rawToken: string, password: string, code: string, ghost before: Proc)
      returns (r: Result<(), TotpError>, ghost t: Transcript)
      requires Valid() && port.proc == Validate(before, rawToken, ForDisable(password, code))
      modifies port
      ensures Valid() && |port.script| <= |old(port.script)|
      ensures port.proc == if SessionLost(r) then Forget(before) else Prompt(before)
      ensures port.log == old(port.log) + t && TurningOff(cfg, rawToken, password, code, t, r)
    {
      hide Converse, Resume, OpOf, Validation, OwnerTurnsOff;
      var authenticated;
      authenticated, t := sessions.ValidateSession(rawToken, before, ForDisable(password, code));
      if authenticated.Err? {
        return Err(TotpError.Session(authenticated.error)), t;
      }
      ghost var first, rest := t, [];
      r, rest := DisableFor(authenticated.value.id, password, code, before);
      t := first + rest;
      assert t[..3] == first && t[3..] == rest && t[2] == first[2];
    }

    method DisableFor(userId: string, password: string, code: string, ghost before: Proc)
      returns (r: Result<(), TotpError>, ghost t: Transcript)
      requires Valid() && port.proc == before.(pc := Disabling(OffFind(userId, password, code)))
      modifies port
      ensures Valid() && |port.script| <= |old(port.script)|
      ensures port.proc == if SessionLost(r) then Forget(before) else Prompt(before)
      ensures port.log == old(port.log) + t && t != [] && OwnerTurnsOff(cfg, userId, password, code, t, r)
    {
      DisablePhase(cfg);
      hide Converse, Resume, OpOf, Validate, Unread, CodeTurnsOff;
      var found := port.Ask(FindById(userId));
      t := [Exchange(FindById(userId), found)];
      if found.NoRow? {
        return Err(TotpError.Session(NotAuthorized)), t;
      }
      if found.Failed? {
        return Err(OtherTotpError), t;
      }
      var user := found.user;
      if !user.totpEnabled || user.secret.None? {
        return Err(NotEnabled), t;
      }
      if !cfg.passwordOk(user.passwordHash, password) {
        return Err(InvalidCredentials), t;
      }
      ghost var rest;
      r, rest := TurnOff(user.id, user.secret.value, code, before);
      t := t + rest;
      assert t[1..] == rest;
    }

    method TurnOff(userId: string, encrypted: string, code: string, ghost before: Proc)
      returns (r: Result<(), TotpError>, ghost t: Transcript)
      requires Valid()
      requires match cfg.decrypt(encrypted)
               case None => port.proc == Prompt(before)
               case Some(secret) => port.proc == before.(pc := Disabling(OffCheck(userId, secret, code)))
      modifies port
      ensures Valid() && |port.script| <= |old(port.script)|
      ensures port.proc == Prompt(before) && (r.Err? ==> !r.error.Session?)
      ensures port.log == old(port.log) + t && CodeTurnsOff(cfg, userId, encrypted, code, t, r)
    {
      DisablePhase(cfg);
      hide Converse, Resume, OpOf, Validate, Unread;
      var verdict, at := ValidateEncryptedCode(encrypted, code);
      t := if cfg.decrypt(encrypted).None? then [] else [Exchange(Clock, Now(at))];
      if verdict.Broken? {
        return Err(OtherTotpError), t;
      }
      if verdict.NoMatch? {
        return Err(InvalidTotp), t;
      }
      var stored := port.Ask(UnsetTotp(userId));
      t := [Exchange(Clock, Now(at)), Exchange(UnsetTotp(userId), stored)];
      r := if stored.Clash? then Err(NotEnabled) else if stored.Failed? then Err(OtherTotpError) else Ok(());
    }
  }

  class AuthService {
    const port: Port
    const cfg: Config
    const sessions: SessionService
    const totp: TotpService
    var challenges: ChallengeMap

    constructor (port: Port, sessions: SessionService, totp: TotpService)
      ensures this.port == port && cfg == port.cfg && this.sessions == sessions && this.totp == totp
              && challenges == map[]
    {
      this.port, this.cfg, this.sessions, this.totp := port, port.cfg, sessions, totp;
      challenges := map[];
    }

    ghost predicate Valid()
      reads this, port, totp
    {
      && port.Valid() && cfg == port.cfg
      && sessions.port == port && sessions.cfg == cfg
      && totp.port == port && totp.Valid()
    }

    method Register(username: string, password: string, confirmation: string, ghost before: Proc)
      returns (r: Result<UserRow, AuthError>, ghost t: Transcript)
      requires Valid() && before.pc == Registering(RegForm)
      requires port.proc == ResumeRegister(cfg, before, RegForm, Lines(username, password, confirmation))
      modifies port
      ensures Valid() && |port.script| <= |old(port.script)|
      ensures port.proc == Prompt(before)
      ensures port.log == old(port.log) + t && Registration(cfg, username, password, confirmation, t, r)
    {
      RegisterPhase(cfg);
      hide Converse, Resume, OpOf, NameTried;
      var name := cfg.normalize(username);
      if !cfg.validUsername(name) {
        return Err(InvalidUsername), [];
      }
      if !cfg.validPassword(password) {
        return Err(InvalidPassword), [];
      }
      if password != confirmation {
        return Err(PasswordMismatch), [];
      }
      r, t := CreateUser(name, password, before);
    }

    method CreateUser(name: string, password: string, ghost before: Proc)
      returns (r: Result<UserRow, AuthError>, ghost t: Transcript)
      requires Valid() && port.proc == before.(pc := Registering(RegFind(name, password)))
      modifies port
      ensures Valid() && |port.script| <= |old(port.script)|
      ensures port.proc == Prompt(before)
      ensures port.log == old(port.log) + t && NameTried(name, password, t, r)
    {
      RegisterPhase(cfg);
      hide Converse, Resume, OpOf, Unread, PasswordHashed;
      var existing := port.Ask(FindByName(name));
      t := [Exchange(FindByName(name), existing)];
      if existing.User? {
        return Err(UserAlreadyExists), t;
      }
      if existing.Failed? {
        return Err(OtherAuthError), t;
      }
      ghost var rest;
      r, rest := HashAndInsert(name, password, before);
      t := t + rest;
      assert t[1..] == rest;
    }

    method HashAndInsert(name: string, password: string, ghost before: Proc)
      returns (r: Result<UserRow, AuthError>, ghost t: Transcript)
      requires Valid() && port.proc == before.(pc := Registering(RegHash(name, password)))
      modifies port
      ensures Valid() && |port.script| <= |old(port.script)|
      ensures port.proc == Prompt(before)
      ensures port.log == old(port.log) + t && PasswordHashed(name, password, t, r)
    {
      RegisterPhase(cfg);
      hide Converse, Resume, OpOf, Unread, UserInserted;
      var hash := port.Ask(HashPassword(password));
      t := [Exchange(HashPassword(password), hash)];
      if hash.Failed? {
        return Err(OtherAuthError), t;
      }
      ghost var rest;
      r, rest := InsertNew(name, hash.text, before);
      t := t + rest;
      assert t[1..] == rest;
    }

    method InsertNew(name: string, hash: string, ghost before: Proc)
      returns (r: Result<UserRow, AuthError>, ghost t: Transcript)
      requires Valid() && port.proc == before.(pc := Registering(RegId(name, hash)))
      modifies port
      ensures Valid() && |port.script| <= |old(port.script)|
      ensures port.proc == Prompt(before)
      ensures port.log == old(port.log) + t && UserInserted(name, hash, t, r)
    {
      RegisterPhase(cfg);
      hide Converse, Resume, OpOf, Unread;
      var id := port.Ask(NewId);
      t := [Exchange(NewId, id)];
      if id.Failed? {
        return Err(OtherAuthError), t;
      }
      var value := UserRow(id.text, name, hash, false, None, None);
      var created := port.Ask(InsertUser(value));
      t := [Exchange(NewId, id), Exchange(InsertUser(value), created)];
      if created.Clash? {
        return Err(UserAlreadyExists), t;
      }
      r := if created.Failed? then Err(OtherAuthError) else Ok(value);
    }

    method FailedLogin(userId: string, failure: AuthError) returns (e: AuthError, ghost t: Transcript)
      requires Valid() && failure != AccountLocked && failure != OtherAuthError
      requires port.proc.pc == LoggingIn(LoginFail(userId))
               || (port.proc.pc.Code? && port.proc.pc.c == CodeFail(userId))
      modifies port
      ensures Valid() && |port.script| <= |old(port.script)|
      ensures port.log == old(port.log) + t && FailureRecorded(userId, failure, t, e)
      ensures t[0].reply == if e == AccountLocked then Flag(true) else if e == failure then Flag(false) else Failed
      ensures port.proc == Resume(cfg, old(port.proc), t[0].reply)
    {
      LoginPhase(cfg);
      CodePhase(cfg);
      hide Converse, Resume, OpOf;
      var blocked := port.Ask(RecordFailure(userId));
      t := [Exchange(RecordFailure(userId), blocked)];
      if blocked.Failed? {
        return OtherAuthError, t;
      }
      e := if blocked.on then AccountLocked else failure;
    }

    method FinishLogin(userId: string, ghost via: Option<string>)
      returns (r: Result<LoginResult, AuthError>, ghost t: Transcript)
      requires Valid() && port.proc.pc == Finish(userId, via, ClearCounter)
      modifies port
      ensures Valid() && |port.script| <= |old(port.script)|
      ensures r.Ok? ==> r.value.Authenticated?
                        && port.proc == Prompt(Spend(old(port.proc), via)).(token := r.value.session.rawToken)
      ensures r.Err? ==> r.error == OtherAuthError && port.proc == Prompt(Spend(old(port.proc), via))
      ensures port.log == old(port.log) + t && LoginFinished(cfg, userId, t, r)
    {
      FinishPhase(cfg);
      hide Converse, Resume, OpOf, SessionMade, LoginFinished;
      var cleared := port.Ask(ResetFailures(userId));
      var result := None;
      ghost var rest := [];
      if cleared.Done? {
        result, rest := sessions.FinalizeLogin(userId, via);
      }
      r := if result.None? then Err(OtherAuthError) else Ok(Authenticated(result.value));
      LoginFinishedFrom(cfg, userId, cleared, rest, result, r);
      t := [Exchange(ResetFailures(userId), cleared)] + rest;
    }

    /** Drops every expired challenge, one by one. */
    method PruneChallenges(now: Time)
      modifies this`challenges
      ensures challenges == Prune(old(challenges), now)
      ensures forall id :: id in challenges <==> id in old(challenges) && now < old(challenges)[id].expiresAt
      ensures forall id | id in challenges :: challenges[id] == old(challenges)[id]
    {
      var todo := challenges.Keys;
      while todo != {}
        invariant todo <= old(challenges).Keys
        invariant forall id :: id in challenges <==>
                  id in old(challenges) && (id in todo || now < old(challenges)[id].expiresAt)
        invariant forall id | id in challenges :: challenges[id] == old(challenges)[id]
        decreases todo
      {
        var id :| id in todo;
        if !(now < challenges[id].expiresAt) {
          challenges := challenges - {id};
        }
        todo := todo - {id};
      }
      assert challenges == Prune(old(challenges), now);
    }

    /** Every challenge was there before, except the one handed out. */
    ghost predicate OnlyAdds(was: ChallengeMap, r: Result<LoginResult, AuthError>)
      reads this
    {
      forall id | id in challenges ::
        (id in was && challenges[id] == was[id]) || r == Ok(TotpRequired(id, challenges[id].expiresAt))
    }

    method BeginTOTPLogin(userId: string) returns (r: Result<LoginResult, AuthError>, ghost t: Transcript)
      requires Valid() && port.proc.pc == LoggingIn(NewChallenge(userId)) && port.proc.challenges == challenges
      modifies port, this`challenges
      ensures Valid() && |port.script| <= |old(port.script)|
      ensures port.proc.challenges == challenges
      ensures r.Ok? ==> r.value.TotpRequired? && r.value.challengeId != "" && t != [] && t[|t| - 1].reply.Now?
                        && challenges == Prune(old(challenges), t[|t| - 1].reply.t)
                                         [r.value.challengeId := Challenge(userId, r.value.expiresAt)]
                        && port.proc == old(port.proc).(
                             challenges := challenges, pc := Code(r.value.challengeId, AskLogin))
      ensures OnlyAdds(old(challenges), r)
      ensures r.Err? ==> r.error == OtherAuthError && port.proc == Prompt(old(port.proc)).(challenges := challenges)
      ensures r.Err? ==>
                t != [] && challenges == if t[|t| - 1].reply.Now? then Prune(old(challenges), t[|t| - 1].reply.t)
                                         else old(challenges)
      ensures port.log == old(port.log) + t && ChallengeMade(cfg, old(challenges), userId, t, r)
    {
      LoginPhase(cfg);
      hide Converse, Resume, OpOf, Unread;
      var generated := port.Ask(NewToken);
      t := [Exchange(NewToken, generated)];
      if generated.Failed? {
        return Err(OtherAuthError), t;
      }
      var now := port.Ask(Clock);
      t := [Exchange(NewToken, generated), Exchange(Clock, now)];
      var expiresAt := now.t + cfg.challengeTimeout;
      PruneChallenges(now.t);
      if generated.text in challenges {
        return Err(OtherAuthError), t;
      }
      challenges := challenges[generated.text := Challenge(userId, expiresAt)];
      r := Ok(TotpRequired(generated.text, expiresAt));
    }

    method LoginWithPassword(username: string, password: string, ghost before: Proc)
      returns (r: Result<LoginResult, AuthError>, ghost t: Transcript)
      requires Valid() && before.challenges == challenges
      requires port.proc == before.(pc := LoggingIn(LoginFind(cfg.normalize(username), password)))
      modifies port, this`challenges
      ensures Valid() && |port.script| <= |old(port.script)|
      ensures port.proc.challenges == challenges
      ensures Placed(r, before)
      ensures r.Ok? && r.value.TotpRequired? ==>
                t != [] && t[0].reply.User? && challenges[r.value.challengeId].userId == t[0].reply.user.id
      ensures OnlyAdds(old(challenges), r)
      ensures port.log == old(port.log) + t && PasswordLogin(cfg, old(challenges), username, password, t, r)
    {
      LoginPhase(cfg);
      hide Converse, Resume, OpOf, Unread, Prune, PasswordChecked;
      var name := cfg.normalize(username);
      var found := port.Ask(FindByName(name));
      ghost var rest := [];
      if found.NoRow? {
        r := Err(BadCredentials);
      } else if found.Failed? {
        r := Err(OtherAuthError);
      } else {
        r, rest := CheckPassword(found.user, password, before);
      }
      t := [Exchange(FindByName(name), found)] + rest;
      assert t[1..] == rest;
    }

    /** Where a password login leaves the process. */
    ghost predicate Placed(r: Result<LoginResult, AuthError>, before: Proc)
      reads this, port
    {
      match r
      case Ok(Authenticated(s)) => port.proc == Prompt(before).(token := s.rawToken) && challenges == before.challenges
      case Ok(TotpRequired(id, expiresAt)) =>
        && id != "" && id in challenges && challenges[id].expiresAt == expiresAt
        && port.proc == before.(challenges := challenges, pc := Code(id, AskLogin))
      case Err(_) => port.proc == Prompt(before).(challenges := challenges)
    }

    method CheckPassword(user: UserRow, password: string, ghost before: Proc)
      returns (r: Result<LoginResult, AuthError>, ghost t: Transcript)
      requires Valid() && before.challenges == challenges
      requires port.proc == before.(pc := LoggingIn(LoginGate(user, password)))
      modifies port, this`challenges
      ensures Valid() && |port.script| <= |old(port.script)|
      ensures port.proc.challenges == challenges
      ensures Placed(r, before)
      ensures r.Ok? && r.value.TotpRequired? ==> challenges[r.value.challengeId].userId == user.id
      ensures OnlyAdds(old(challenges), r)
      ensures port.log == old(port.log) + t && PasswordChecked(cfg, old(challenges), user, password, t, r)
    {
      hide Converse, Resume, OpOf, Unread, Prune, PasswordDecides, PasswordChecked;
      ghost var rest := [];
      assert OpOf(cfg, port.proc.pc) == CheckBlocked(user.id) by { LoginPhase(cfg); }
      var blocked := port.Ask(CheckBlocked(user.id));
      assert port.proc == ResumeLogin(cfg, old(port.proc), LoginGate(user, password), blocked) by { LoginPhase(cfg); }
      if blocked.Failed? {
        r := Err(OtherAuthError);
      } else if blocked.on {
        r := Err(AccountLocked);
      } else {
        r, rest := DecidePassword(user, password, before);
      }
      PasswordCheckedFrom(cfg, old(challenges), user, password, blocked, rest, r);
      t := [Exchange(CheckBlocked(user.id), blocked)] + rest;
    }

    method DecidePassword(user: UserRow, password: string, ghost before: Proc)
      returns (r: Result<LoginResult, AuthError>, ghost t: Transcript)
      requires Valid() && before.challenges == challenges
      requires port.proc == before.(pc :=
                 if !cfg.passwordOk(user.passwordHash, password) then LoggingIn(LoginFail(user.id))
                 else if user.totpEnabled then LoggingIn(NewChallenge(user.id))
                 else Finish(user.id, None, ClearCounter))
      modifies port, this`challenges
      ensures Valid() && |port.script| <= |old(port.script)|
      ensures port.proc.challenges == challenges
      ensures Placed(r, before)
      ensures r.Ok? && r.value.TotpRequired? ==> challenges[r.value.challengeId].userId == user.id
      ensures OnlyAdds(old(challenges), r)
      ensures port.log == old(port.log) + t && PasswordDecides(cfg, old(challenges), user, password, t, r)
    {
      LoginPhase(cfg);
      hide Converse, Resume, OpOf, Unread, Prune, LoginFinished, ChallengeMade, FailureRecorded;
      if !cfg.passwordOk(user.passwordHash, password) {
        var e;
        e, t := FailedLogin(user.id, BadCredentials);
        r := Err(e);
      } else if user.totpEnabled {
        r, t := BeginTOTPLogin(user.id);
      } else {
        r, t := FinishLogin(user.id, None);
      }
    }

    /** The challenge stays only when the caller may try again or is left to cancel it. */
    method CompleteTOTPLogin(challengeId: string, code: string, ghost before: Proc)
      returns (r: Result<LoginResult, AuthError>, ghost t: Transcript)
      requires Valid() && before.pc == Code(challengeId, AskLogin) && before.challenges == challenges
      requires port.proc == if challengeId in challenges then before.(pc := Code(challengeId, StampLookup(code)))
               else Prompt(before)
      modifies port, this`challenges
      ensures Valid() && |port.script| <= |old(port.script)|
      ensures Completed(r, challengeId, before, old(challenges))
      ensures var challenge := if challengeId in old(challenges) then Some(old(challenges)[challengeId]) else None;
              port.log == old(port.log) + t && CodeLogin(cfg, challenge, code, t, r)
    {
      CodePhase(cfg);
      hide Converse, Resume, OpOf, Unread, OwnerChecked;
      if challengeId !in challenges {
        assert challenges - {challengeId} == challenges;
        return Err(ChallengeNotFound), [];
      }
      var challenge := challenges[challengeId];
      var now := port.Ask(Clock);
      ghost var rest := [];
      if now.t < challenge.expiresAt {
        r, rest := Resolve(challengeId, challenge.userId, code, before);
      } else {
        challenges := challenges - {challengeId};
        r := Err(ChallengeExpired);
      }
      t := [Exchange(Clock, now)] + rest;
      assert t[1..] == rest;
    }

    ghost predicate Completed(r: Result<LoginResult, AuthError>, challengeId: string, before: Proc, was: ChallengeMap)
      reads this, port
    {
      && challenges == (if r == Err(BadCode) || r == Err(OtherAuthError) then was else was - {challengeId})
      && (r.Ok? ==> r.value.Authenticated?)
      && port.proc == (if r == Err(BadCode) then before
                       else before.(pc := Shell, challenges := was - {challengeId},
                                    token := if r.Ok? then r.value.session.rawToken else before.token))
    }

    method Resolve(challengeId: string, userId: string, code: string, ghost before: Proc)
      returns (r: Result<LoginResult, AuthError>, ghost t: Transcript)
      requires Valid() && before.pc == Code(challengeId, AskLogin) && before.challenges == challenges
      requires port.proc == before.(pc := Code(challengeId, FindOwner(code, userId)))
      modifies port, this`challenges
      ensures Valid() && |port.script| <= |old(port.script)|
      ensures Completed(r, challengeId, before, old(challenges))
      ensures port.log == old(port.log) + t && OwnerChecked(cfg, userId, code, t, r)
    {
      CodePhase(cfg);
      hide Converse, Resume, OpOf, Unread, CodeGated;
      var found := port.Ask(FindById(userId));
      ghost var rest := [];
      if found.NoRow? {
        challenges := challenges - {challengeId};
        r := Err(ChallengeNotFound);
      } else if found.Failed? {
        r := Err(OtherAuthError);
      } else {
        r, rest := Redeem(challengeId, code, found.user, before);
      }
      t := [Exchange(FindById(userId), found)] + rest;
      assert t[1..] == rest;
    }

    method Redeem(challengeId: string, code: string, user: UserRow, ghost before: Proc)
      returns (r: Result<LoginResult, AuthError>, ghost t: Transcript)
      requires Valid() && before.pc == Code(challengeId, AskLogin) && before.challenges == challenges
      requires port.proc == before.(pc := Code(challengeId, CodeGate(code, user)))
      modifies port, this`challenges
      ensures Valid() && |port.script| <= |old(port.script)|
      ensures Completed(r, challengeId, before, old(challenges))
      ensures port.log == old(port.log) + t && CodeGated(cfg, user, code, t, r)
    {
      hide Converse, Resume, OpOf, Unread, CodeDecides, CodeGated;
      assert OpOf(cfg, port.proc.pc) == CheckBlocked(user.id) by { CodePhase(cfg); }
      var blocked := port.Ask(CheckBlocked(user.id));
      assert port.proc == ResumeCode(cfg, old(port.proc), challengeId, CodeGate(code, user), blocked) by {
        CodePhase(cfg);
      }
      ghost var rest := [];
      if blocked.Failed? {
        r := Err(OtherAuthError);
      } else if blocked.on {
        challenges := challenges - {challengeId};
        r := Err(AccountLocked);
      } else if !user.totpEnabled || user.secret.None? {
        challenges := challenges - {challengeId};
        r := Err(TwoFactorNotEnabled);
      } else {
        r, rest := Settle(challengeId, user.secret.value, code, user.id, before);
      }
      CodeGatedFrom(cfg, user, code, blocked, rest, r);
      t := [Exchange(CheckBlocked(user.id), blocked)] + rest;
    }

    method Settle(challengeId: string, encrypted: string, code: string, userId: string, ghost before: Proc)
      returns (r: Result<LoginResult, AuthError>, ghost t: Transcript)
      requires Valid() && before.pc == Code(challengeId, AskLogin) && before.challenges == challenges
      requires match cfg.decrypt(encrypted)
               case None => port.proc == Prompt(DropChallenge(before, challengeId))
               case Some(secret) => port.proc == before.(pc := Code(challengeId, CheckLogin(userId, secret, code)))
      modifies port, this`challenges
      ensures Valid() && |port.script| <= |old(port.script)|
      ensures Completed(r, challengeId, before, old(challenges))
      ensures port.log == old(port.log) + t && CodeDecides(cfg, userId, encrypted, code, t, r)
    {
      CodePhase(cfg);
      hide Converse, Resume, OpOf, Unread, CodeJudged;
      var verdict, at := totp.ValidateEncryptedCode(encrypted, code);
      if cfg.decrypt(encrypted).None? {
        return Err(OtherAuthError), [];
      }
      ghost var rest;
      r, rest := Judge(verdict, challengeId, userId, before);
      t := [Exchange(Clock, Now(at))] + rest;
      assert t[1..] == rest;
    }

    method Judge(verdict: Verdict, challengeId: string, userId: string, ghost before: Proc)
      returns (r: Result<LoginResult, AuthError>, ghost t: Transcript)
      requires Valid() && before.pc == Code(challengeId, AskLogin) && before.challenges == challenges
      requires match verdict
               case Broken => port.proc == Prompt(DropChallenge(before, challengeId))
               case NoMatch => port.proc == before.(pc := Code(challengeId, CodeFail(userId)))
               case Match => port.proc == before.(pc := Finish(userId, Some(challengeId), ClearCounter))
      modifies port, this`challenges
      ensures Valid() && |port.script| <= |old(port.script)|
      ensures Completed(r, challengeId, before, old(challenges))
      ensures port.log == old(port.log) + t && CodeJudged(cfg, verdict, userId, t, r)
    {
      hide Converse, Resume, OpOf, LoginFinished, FailureRecorded;
      match verdict {
        case Broken => return Err(OtherAuthError), [];
        case NoMatch => r, t := RejectCode(challengeId, userId, before);
        case Match =>
          r, t := FinishLogin(userId, Some(challengeId));
          if r.Ok? {
            challenges := challenges - {challengeId};
          }
      }
    }

    method RejectCode(challengeId: string, userId: string, ghost before: Proc)
      returns (r: Result<LoginResult, AuthError>, ghost t: Transcript)
      requires Valid() && before.pc == Code(challengeId, AskLogin) && before.challenges == challenges
      requires port.proc == before.(pc := Code(challengeId, CodeFail(userId)))
      modifies port, this`challenges
      ensures Valid() && |port.script| <= |old(port.script)|
      ensures Completed(r, challengeId, before, old(challenges)) && r.Err?
      ensures port.log == old(port.log) + t && FailureRecorded(userId, BadCode, t, r.error)
    {
      CodePhase(cfg);
      hide Converse, Resume, OpOf, Unread;
      var e;
      e, t := FailedLogin(userId, BadCode);
      if e == AccountLocked {
        challenges := challenges - {challengeId};
      }
      r := Err(e);
    }

    method CancelTOTPLogin(challengeId: string)
      modifies this`challenges
      ensures challenges == old(challenges) - {challengeId}
    {
      challenges := challenges - {challengeId};
    }

    method ClearTOTPLoginChallenges()
      modifies this`challenges
      ensures challenges == map[]
    {
      challenges := map[];
    }
  }
}
