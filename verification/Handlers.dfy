/** The command handlers: they read what the user types, call a service, and keep the one cell
    that holds the local session token. A handler returns the answer that kept it from reading,
    or nothing. */
module Handlers {
  import opened Wrappers
  import opened Challenges
  import opened Setups
  import opened Program
  import opened Transcripts
  import opened Ports
  import opened Services

  /** The token cell of one process; the empty token means logged out. */
  class SessionState {
    var token: string

    constructor ()
      ensures token == ""
    {
      token := "";
    }

    predicate IsAuthenticated()
      reads this
    {
      token != ""
    }

    method SetSession(rawToken: string)
      modifies this
      ensures token == rawToken
    {
      token := rawToken;
    }

    method ClearSession()
      modifies this
      ensures token == ""
    {
      token := "";
    }
  }

  class AuthHandler {
    const auth: AuthService
    const state: SessionState
    const port: Port
    const cfg: Config

    constructor (auth: AuthService, state: SessionState)
      ensures this.auth == auth && this.state == state && port == auth.port && cfg == auth.cfg
    {
      this.auth, this.state, port, cfg := auth, state, auth.port, auth.cfg;
    }

    ghost predicate Valid()
      reads auth, auth.port, auth.totp
    {
      auth.Valid() && port == auth.port && cfg == auth.cfg
    }

    method Register(ghost before: Proc) returns (err: Option<Reply>, ghost t: Transcript)
      requires Valid() && port.proc == before.(pc := Registering(RegForm))
      modifies port
      ensures Valid() && |port.script| <= |old(port.script)|
      ensures port.proc == if Fatal(err) then Close(before) else Prompt(before)
      ensures port.log == old(port.log) + t && RegisterDialogue(cfg, before.token, t, Outcome(before.token, err))
    {
      RegisterPhase(cfg);
      hide Converse, Resume, OpOf, Registration;
      var form := port.Read(ReadLines);
      t := [Exchange(ReadLines, form)];
      if !form.Lines? {
        return Some(form), t;
      }
      ghost var rest;
      var r;
      r, rest := auth.Register(form.first, form.second, form.third, before.(pc := Registering(RegForm)));
      t := t + rest;
      assert t[1..] == rest;
      err := None;
    }

    /** However a login ends, no challenge is left behind. */
    method Login(ghost before: Proc) returns (err: Option<Reply>, ghost t: Transcript)
      requires Valid() && before.token == state.token && before.challenges == auth.challenges == map[]
      requires port.proc == before.(pc := LoggingIn(LoginForm))
      modifies port, auth`challenges, state
      ensures Valid() && |port.script| <= |old(port.script)| && auth.challenges == map[]
      ensures port.proc == if Fatal(err) then Close(before) else before.(token := state.token, pc := Shell)
      ensures port.log == old(port.log) + t && LoginDialogue(cfg, before.token, t, Outcome(state.token, err))
    {
      LoginPhase(cfg);
      hide Converse, Resume, OpOf, PasswordLogin, AfterPassword;
      var form := port.Read(ReadLines);
      t := [Exchange(ReadLines, form)];
      if !form.Lines? {
        return Some(form), t;
      }
      assert port.proc == before.(pc := LoggingIn(LoginFind(cfg.normalize(form.first), form.second)));
      hide LoginDialogue, ResumeLogin;
      var result;
      ghost var a, b: Transcript := [], [];
      result, a := auth.LoginWithPassword(form.first, form.second, before);
      err, b := FollowUp(result, a, before);
      t := t + a + b;
      LoginDialogueFrom(cfg, before.token, form, a, result, b, Outcome(state.token, err));
    }

    method FollowUp(result: Result<LoginResult, AuthError>, ghost a: Transcript, ghost before: Proc)
      returns (err: Option<Reply>, ghost b: Transcript)
      requires Valid() && before.token == state.token && before.challenges == map[]
      requires auth.Placed(result, before) && port.proc.challenges == auth.challenges
      requires match result
               case Ok(TotpRequired(id, _)) =>
                 && auth.challenges.Keys == {id}
                 && a != [] && a[0].reply.User? && auth.challenges[id].userId == a[0].reply.user.id
               case _ => auth.challenges == map[]
      modifies port, auth`challenges, state
      ensures Valid() && |port.script| <= |old(port.script)| && auth.challenges == map[]
      ensures port.proc == if Fatal(err) then Close(before) else before.(token := state.token, pc := Shell)
      ensures port.log == old(port.log) + b
              && AfterPassword(cfg, before.token, a, result, b, Outcome(state.token, err))
    {
      hide Converse, Resume, OpOf, CodeDialogue;
      match result {
        case Err(_) => return None, [];
        case Ok(TotpRequired(id, _)) => err, b := CompleteTOTPLogin(id, before);
        case Ok(Authenticated(session)) =>
          state.SetSession(session.rawToken);
          return None, [];
      }
    }

    /** Asks for codes until one is accepted, the login fails for good or the user gives up. The
        challenge is there whenever a code is asked for and gone afterwards. */
    method CompleteTOTPLogin(id: string, ghost before: Proc) returns (err: Option<Reply>, ghost t: Transcript)
      requires Valid() && before.token == state.token && auth.challenges.Keys == {id}
      requires port.proc == before.(challenges := auth.challenges, pc := Code(id, AskLogin))
      modifies port, auth`challenges, state
      ensures Valid() && |port.script| <= |old(port.script)| && auth.challenges == map[]
      ensures port.proc == if Fatal(err) then Close(before)
              else before.(challenges := map[], token := state.token, pc := Shell)
      ensures port.log == old(port.log) + t
              && CodeDialogue(cfg, old(auth.challenges)[id], before.token, t, Outcome(state.token, err))
    {
      hide Converse, Resume, OpOf, WrongCode, LastCode, WrongCodes;
      ghost var c, wrong: Transcript, last: Transcript := auth.challenges[id], [], [];
      assert WrongCodes(cfg, c, wrong) by { NoWrongCodes(cfg, c); }
      while true
        invariant Valid() && state.token == before.token && auth.challenges == old(auth.challenges)
        invariant port.proc == before.(challenges := auth.challenges, pc := Code(id, AskLogin))
        invariant |port.script| <= |old(port.script)|
        invariant port.log == old(port.log) + wrong && WrongCodes(cfg, c, wrong)
        decreases |port.script|
      {
        var again;
        again, err, last := TryCode(id, before);
        t := wrong + last;
        if !again {
          return;
        }
        OneMoreWrongCode(cfg, c, wrong, last);
        wrong := t;
      }
    }

    /** One code asked for; `again` when it was wrong. */
    method TryCode(id: string, ghost before: Proc) returns (again: bool, err: Option<Reply>, ghost t: Transcript)
      requires Valid() && before.token == state.token && auth.challenges.Keys == {id}
      requires port.proc == before.(challenges := auth.challenges, pc := Code(id, AskLogin))
      modifies port, auth`challenges, state
      ensures Valid()
      ensures if again
              then
                && auth.challenges == old(auth.challenges) && state.token == before.token
                && port.proc == before.(challenges := auth.challenges, pc := Code(id, AskLogin))
                && |port.script| < |old(port.script)| && WrongCode(cfg, old(auth.challenges)[id], t)
              else
                && auth.challenges == map[] && |port.script| <= |old(port.script)|
                && port.proc == (if Fatal(err) then Close(before)
                                 else before.(challenges := map[], token := state.token, pc := Shell))
                && LastCode(cfg, old(auth.challenges)[id], before.token, t, Outcome(state.token, err))
      ensures port.log == old(port.log) + t
    {
      CodePhase(cfg);
      hide Converse, Resume, OpOf, CodeLogin;
      again, err := false, None;
      var form := port.Read(ReadLines);
      t := [Exchange(ReadLines, form)];
      if !form.Lines? {
        auth.CancelTOTPLogin(id);
        err := Some(form);
        return;
      }
      if cfg.blank(form.first) {
        auth.CancelTOTPLogin(id);
        return;
      }
      var result;
      ghost var rest;
      result, rest := Attempt(id, form.first, before);
      again := result == Err(BadCode);
      t := t + rest;
      assert t[1..] == rest;
    }

    method Attempt(id: string, code: string, ghost before: Proc)
      returns (result: Result<LoginResult, AuthError>, ghost t: Transcript)
      requires Valid() && before.token == state.token && auth.challenges.Keys == {id}
      requires port.proc == before.(challenges := auth.challenges, pc := Code(id, StampLookup(code)))
      modifies port, auth`challenges, state
      ensures Valid() && |port.script| <= |old(port.script)|
      ensures auth.challenges == if result == Err(BadCode) then old(auth.challenges) else map[]
      ensures state.token == if result.Ok? && result.value.Authenticated? then result.value.session.rawToken
                             else before.token
      ensures port.proc == before.(challenges := auth.challenges, token := state.token,
                                   pc := if result == Err(BadCode) then Code(id, AskLogin) else Shell)
      ensures port.log == old(port.log) + t && CodeLogin(cfg, Some(old(auth.challenges)[id]), code, t, result)
    {
      hide Converse, Resume, OpOf, CodeLogin;
      result, t := auth.CompleteTOTPLogin(id, code,
        before.(challenges := auth.challenges, pc := Code(id, AskLogin)));
      if result.Ok? {
        state.SetSession(result.value.session.rawToken);
      } else if result.error == OtherAuthError {
        auth.CancelTOTPLogin(id);
      }
    }
  }

  lemma NoWrongCodes(cfg: Config, c: Challenge)
    ensures WrongCodes(cfg, c, [])
  {
  }

  lemma OneMoreWrongCode(cfg: Config, c: Challenge, t: Transcript, next: Transcript)
    requires WrongCodes(cfg, c, t) && WrongCode(cfg, c, next)
    ensures WrongCodes(cfg, c, t + next)
  {
    assert next != [];
  }

  class TotpHandler {
    const totp: TotpService
    const state: SessionState
    const port: Port
    const cfg: Config

    constructor (totp: TotpService, state: SessionState)
      ensures this.totp == totp && this.state == state && port == totp.port && cfg == totp.cfg
    {
      this.totp, this.state, port, cfg := totp, state, totp.port, totp.cfg;
    }

    ghost predicate Valid()
      reads totp, totp.port
    {
      totp.Valid() && port == totp.port && cfg == totp.cfg
    }

    method Enable(ghost before: Proc) returns (err: Option<Reply>, ghost t: Transcript)
      requires Valid() && before.token == state.token && before.setups == totp.Maps()
      requires port.proc == Validate(before, before.token, ForSetup)
      modifies port, totp`byUser, totp`bySession, state
      ensures Valid() && |port.script| <= |old(port.script)|
      ensures port.proc == if Fatal(err) then Close(before)
              else before.(token := state.token, setups := totp.Maps(), pc := Shell)
      ensures port.log == old(port.log) + t
              && EnableDialogue(cfg, old(totp.byUser), before.token, t, Outcome(state.token, err))
    {
      hide Converse, Resume, OpOf, SetupBegun, ConfirmDialogue;
      var rawToken := state.token;
      var setup;
      ghost var a, b: Transcript := [], [];
      setup, a := totp.BeginSetup(rawToken, before);
      err := None;
      if setup.Err? {
        HandleSetupError(setup.error);
      } else {
        err, b := Confirm(rawToken, before);
      }
      t := a + b;
    }

    /** Asks for codes until one is accepted, the enrolment fails for good or the user gives up. */
    method Confirm(rawToken: string, ghost before: Proc) returns (err: Option<Reply>, ghost t: Transcript)
      requires Valid() && before.token == state.token == rawToken
      requires port.proc == before.(setups := totp.Maps(), pc := Setup(rawToken, AskSetup))
      modifies port, totp`byUser, totp`bySession, state
      ensures Valid() && |port.script| <= |old(port.script)|
      ensures port.proc == if Fatal(err) then Close(before)
              else before.(token := state.token, setups := totp.Maps(), pc := Shell)
      ensures port.log == old(port.log) + t
              && ConfirmDialogue(cfg, old(totp.byUser), rawToken, t, Outcome(state.token, err))
    {
      hide Converse, Resume, OpOf, WrongSetupCode, LastSetupCode, WrongSetupCodes;
      ghost var byUser, wrong: Transcript, last: Transcript := totp.byUser, [], [];
      assert WrongSetupCodes(cfg, byUser, rawToken, wrong) by { NoWrongSetupCodes(cfg, byUser, rawToken); }
      while true
        invariant Valid() && state.token == before.token == rawToken && totp.Maps() == old(totp.Maps())
        invariant port.proc == before.(setups := totp.Maps(), pc := Setup(rawToken, AskSetup))
        invariant |port.script| <= |old(port.script)|
        invariant port.log == old(port.log) + wrong && WrongSetupCodes(cfg, byUser, rawToken, wrong)
        decreases |port.script|
      {
        var again;
        again, err, last := TryCode(rawToken, before);
        t := wrong + last;
        if !again {
          return;
        }
        OneMoreWrongSetupCode(cfg, byUser, rawToken, wrong, last);
        wrong := t;
      }
    }

    /** One code asked for; `again` when it was wrong. */
    method TryCode(rawToken: string, ghost before: Proc)
      returns (again: bool, err: Option<Reply>, ghost t: Transcript)
      requires Valid() && before.token == state.token == rawToken
      requires port.proc == before.(setups := totp.Maps(), pc := Setup(rawToken, AskSetup))
      modifies port, totp`byUser, totp`bySession, state
      ensures Valid()
      ensures if again
              then
                && totp.Maps() == old(totp.Maps()) && state.token == rawToken
                && port.proc == before.(setups := totp.Maps(), pc := Setup(rawToken, AskSetup))
                && |port.script| < |old(port.script)| && WrongSetupCode(cfg, old(totp.byUser), rawToken, t)
              else
                && |port.script| <= |old(port.script)|
                && port.proc == (if Fatal(err) then Close(before)
                                 else before.(token := state.token, setups := totp.Maps(), pc := Shell))
                && LastSetupCode(cfg, old(totp.byUser), rawToken, t, Outcome(state.token, err))
      ensures port.log == old(port.log) + t
    {
      SetupPhase(cfg);
      hide Converse, Resume, OpOf, SetupConfirmed, Cancel;
      again, err := false, None;
      ghost var here := port.proc;
      var form := port.Read(ReadLines);
      t := [Exchange(ReadLines, form)];
      assert form.Lines? && !cfg.blank(form.first) ==> port.proc == Validate(here, rawToken, ForConfirm(form.first));
      if !form.Lines? {
        totp.CancelSetup(rawToken);
        err := Some(form);
        return;
      }
      if cfg.blank(form.first) {
        totp.CancelSetup(rawToken);
        return;
      }
      var confirmed;
      ghost var rest;
      confirmed, rest := Attempt(rawToken, form.first, here);
      again := confirmed == Err(InvalidTotp);
      t := t + rest;
      assert t[1..] == rest;
    }

    method Attempt(rawToken: string, code: string, ghost here: Proc)
      returns (confirmed: Result<(), TotpError>, ghost t: Transcript)
      requires Valid() && here.token == state.token == rawToken && here.setups == totp.Maps()
      requires port.proc == Validate(here, rawToken, ForConfirm(code))
      modifies port, totp`byUser, totp`bySession, state
      ensures Valid() && |port.script| <= |old(port.script)|
      ensures confirmed == Err(InvalidTotp) ==> totp.Maps() == old(totp.Maps())
      ensures state.token == if SessionLost(confirmed) then "" else rawToken
      ensures port.proc == here.(setups := totp.Maps(), token := state.token,
                                 pc := if confirmed == Err(InvalidTotp) then Setup(rawToken, AskSetup) else Shell)
      ensures port.log == old(port.log) + t && SetupConfirmed(cfg, old(totp.byUser), rawToken, code, t, confirmed)
    {
      hide Converse, Resume, OpOf, SetupConfirmed;
      confirmed, t := totp.ConfirmSetup(rawToken, code, here);
      if confirmed.Err? && confirmed.error != InvalidTotp && confirmed.error != SetupExpired
         && confirmed.error != SetupNotFound {
        HandleSetupError(confirmed.error);
      }
    }

    method HandleSetupError(e: TotpError)
      modifies state
      ensures state.token == if e.Session? && !e.e.SystemError? then "" else old(state.token)
    {
      if e.Session? && !e.e.SystemError? {
        state.ClearSession();
      }
    }

    method Disable(ghost before: Proc) returns (err: Option<Reply>, ghost t: Transcript)
      requires Valid() && before.token == state.token && port.proc == before.(pc := Disabling(OffForm))
      modifies port, state
      ensures Valid() && |port.script| <= |old(port.script)|
      ensures port.proc == if Fatal(err) then Close(before) else before.(token := state.token, pc := Shell)
      ensures port.log == old(port.log) + t && DisableDialogue(cfg, before.token, t, Outcome(state.token, err))
    {
      DisablePhase(cfg);
      hide Converse, Resume, OpOf, TurningOff;
      var form := port.Read(ReadLines);
      t := [Exchange(ReadLines, form)];
      if !form.Lines? {
        return Some(form), t;
      }
      err := None;
      if form.first == "" || cfg.blank(form.second) {
        return;
      }
      var disabled;
      ghost var rest;
      disabled, rest := totp.Disable(state.token, form.first, form.second, before.(pc := Disabling(OffForm)));
      t := t + rest;
      assert t[1..] == rest;
      if SessionLost(disabled) {
        state.ClearSession();
      }
    }
  }

  lemma NoWrongSetupCodes(cfg: Config, byUser: map<string, Pending>, raw: string)
    ensures WrongSetupCodes(cfg, byUser, raw, [])
  {
  }

  lemma OneMoreWrongSetupCode(cfg: Config, byUser: map<string, Pending>, raw: string, t: Transcript, next: Transcript)
    requires WrongSetupCodes(cfg, byUser, raw, t) && WrongSetupCode(cfg, byUser, raw, next)
    ensures WrongSetupCodes(cfg, byUser, raw, t + next)
  {
    assert next != [];
  }

  class SessionHandler {
    const sessions: SessionService
    const state: SessionState
    const port: Port

    constructor (sessions: SessionService, state: SessionState)
      ensures this.sessions == sessions && this.state == state && port == sessions.port
    {
      this.sessions, this.state, port := sessions, state, sessions.port;
    }

    ghost predicate Valid()
      reads sessions.port
    {
      sessions.port.Valid() && sessions.cfg == sessions.port.cfg && port == sessions.port
    }

    method WhoAmI(ghost before: Proc) returns (ghost t: Transcript)
      requires Valid() && before.token == state.token && port.proc == Validate(before, before.token, ForWhoAmI)
      modifies port, state
      ensures Valid() && |port.script| <= |old(port.script)|
      ensures port.proc == before.(token := state.token, pc := Shell)
      ensures port.log == old(port.log) + t
              && WhoAmIDialogue(port.cfg, before.token, t, Outcome(state.token, None))
    {
      hide Converse, Resume, OpOf, Validation;
      var user;
      user, t := sessions.ValidateSession(state.token, before, ForWhoAmI);
      if user.Err? && Lost(user.error) {
        state.ClearSession();
      }
    }

    /** The local token goes whatever the server answers. */
    method Logout(ghost before: Proc) returns (ghost t: Transcript)
      requires Valid() && before.token == state.token
      requires port.proc == if before.token == "" then Forget(before)
               else before.(pc := LoggingOut(before.token, OutFind))
      modifies port, state
      ensures Valid() && |port.script| <= |old(port.script)| && state.token == ""
      ensures port.proc == before.(token := "", pc := Shell)
      ensures port.log == old(port.log) + t && LogoutDialogue(port.cfg, before.token, t, Outcome(state.token, None))
    {
      hide Converse, Resume, OpOf, Revocation;
      var r;
      r, t := sessions.Logout(state.token, before);
      state.ClearSession();
    }
  }
}
