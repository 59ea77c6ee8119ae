/** The command loop that drives one process, from its start to its end. */
module CommandShell {
  import opened Wrappers
  import opened Setups
  import opened Program
  import opened Transcripts
  import opened Ports
  import opened Services
  import opened Handlers

  class Shell {
    const port: Port
    const state: SessionState
    const auth: AuthHandler
    const sessions: SessionHandler
    const totp: TotpHandler
    const authSvc: AuthService
    const totpSvc: TotpService

    constructor (authSvc: AuthService, sessionSvc: SessionService, totpSvc: TotpService)
      ensures port == authSvc.port && this.authSvc == authSvc && this.totpSvc == totpSvc
      ensures auth.auth == authSvc && auth.port == authSvc.port && auth.cfg == authSvc.cfg
      ensures totp.totp == totpSvc && totp.port == totpSvc.port && totp.cfg == totpSvc.cfg
      ensures sessions.sessions == sessionSvc && sessions.port == sessionSvc.port
      ensures auth.state == totp.state == sessions.state == state
      ensures fresh(state) && state.token == ""
    {
      var cell := new SessionState();
      port, state, this.authSvc, this.totpSvc := authSvc.port, cell, authSvc, totpSvc;
      auth := new AuthHandler(authSvc, cell);
      totp := new TotpHandler(totpSvc, cell);
      sessions := new SessionHandler(sessionSvc, cell);
    }

    ghost predicate Valid()
      reads port, authSvc, totpSvc, auth.auth, auth.auth.port, auth.auth.totp, totp.totp, totp.totp.port,
        sessions.sessions.port
    {
      && auth.Valid() && totp.Valid() && sessions.Valid()
      && auth.auth == authSvc && totp.totp == totpSvc
      && auth.port == port && totp.port == port && sessions.port == port
      && auth.state == totp.state == sessions.state == state
    }

    /** What this process holds in memory, at `pc`. */
    ghost function Held(pc: Pc): Proc
      reads state, authSvc, totpSvc
    {
      Proc(state.token, authSvc.challenges, totpSvc.Maps(), pc)
    }

    /** Reads and runs commands until the input ends or cannot be read. Whenever a command is
        read, the token cell and the services' maps are what the answers so far say they are,
        and no login challenge is pending. */
    method Run() returns (ghost t: Transcript)
      requires Valid() && port.proc == Held(Pc.Shell) && authSvc.challenges == map[] && state.token == ""
      modifies port, state, authSvc`challenges, totpSvc`byUser, totpSvc`bySession
      ensures Valid() && port.proc == Proc("", map[], NO_SETUPS, Exited)
      ensures port.log == old(port.log) + t && ShellSession(port.cfg, t)
    {
      hide Converse, Resume, OpOf, Commands, Returns, Ends;
      ghost var cfg, done: Transcript := port.cfg, [];
      NoCommands(cfg);
      while true
        invariant Valid() && port.proc == Held(Pc.Shell) && authSvc.challenges == map[]
        invariant port.log == old(port.log) + done && Commands(cfg, done, state.token)
        decreases |port.script|
      {
        ghost var was, byUser := state.token, totpSvc.byUser;
        var stop, line;
        ghost var rest;
        stop, line, rest := Step();
        t := done + [Exchange(ReadCommand, line)] + rest;
        assert port.log == old(port.log) + t;
        if stop {
          return;
        }
        OneMoreCommand(cfg, done, line, rest, was, byUser, state.token);
        done := t;
      }
    }

    /** One line read at the prompt and what it leads to. */
    method Step() returns (stop: bool, line: Reply, ghost t: Transcript)
      requires Valid() && port.proc == Held(Pc.Shell) && authSvc.challenges == map[]
      modifies port, state, authSvc`challenges, totpSvc`byUser, totpSvc`bySession
      ensures Valid()
      ensures if stop then port.proc == Proc("", map[], NO_SETUPS, Exited)
              else
                && port.proc == Held(Pc.Shell) && authSvc.challenges == map[]
                && |port.script| < |old(port.script)|
      ensures if stop then Ends(port.cfg, old(totpSvc.byUser), old(state.token), line, t)
              else Returns(port.cfg, old(totpSvc.byUser), old(state.token), line, t, state.token)
      ensures port.log == old(port.log) + [Exchange(ReadCommand, line)] + t
    {
      ShellPhase(port.cfg);
      hide Converse, Resume, OpOf, Dialogue;
      ghost var before := port.proc;
      line := port.Read(ReadCommand);
      t := [];
      if line.Interrupt? {
        return false, line, t;
      }
      if !line.Cmd? {
        return true, line, t;
      }
      if !Offered(state.IsAuthenticated(), line.command) {
        return false, line, t;
      }
      ghost var err;
      stop, err, t := Execute(line.command, before);
    }

    method Execute(command: Command, ghost before: Proc)
      returns (stop: bool, ghost err: Option<Reply>, ghost t: Transcript)
      requires Valid() && before == Held(Pc.Shell) && authSvc.challenges == map[]
      requires Offered(state.token != "", command) && port.proc == Dispatch(before, command)
      modifies port, state, authSvc`challenges, totpSvc`byUser, totpSvc`bySession
      ensures Valid() && |port.script| <= |old(port.script)|
      ensures if stop then port.proc == Proc("", map[], NO_SETUPS, Exited)
              else port.proc == Held(Pc.Shell) && authSvc.challenges == map[]
      ensures stop == (command == Command.Exit || Fatal(err))
      ensures port.log == old(port.log) + t
              && Dialogue(port.cfg, old(totpSvc.byUser), old(state.token), command, t, Outcome(state.token, err))
    {
      hide Converse, Resume, OpOf, RegisterDialogue, LoginDialogue, WhoAmIDialogue, LogoutDialogue;
      hide EnableDialogue, DisableDialogue;
      var e := None;
      t := [];
      match command {
        case Help =>
        case Exit => return true, None, [];
        case Register => e, t := auth.Register(before);
        case Login => e, t := auth.Login(before);
        case WhoAmI => t := sessions.WhoAmI(before);
        case Logout => t := sessions.Logout(before);
        case EnableTwoFactor => e, t := totp.Enable(before);
        case DisableTwoFactor => e, t := totp.Disable(before);
        case Unknown => assert false;
      }
      return Fatal(e), e, t;
    }

    method Close()
      modifies state, authSvc`challenges, totpSvc`byUser, totpSvc`bySession
      ensures state.token == "" && authSvc.challenges == map[] && totpSvc.Maps() == NO_SETUPS
    {
      state.ClearSession();
      totpSvc.ClearPendingSetups();
      authSvc.ClearTOTPLoginChallenges();
    }
  }

  lemma NoCommands(cfg: Config)
    ensures Commands(cfg, [], "")
  {
  }

  lemma OneMoreCommand(
      cfg: Config, t: Transcript, line: Reply, rest: Transcript, was: string, byUser: map<string, Pending>,
      token: string)
    requires Commands(cfg, t, was) && Returns(cfg, byUser, was, line, rest, token)
    ensures Commands(cfg, t + [Exchange(ReadCommand, line)] + rest, token)
  {
    hide Returns;
  }

  /** A process from start to finish, whatever it is answered: it removes expired sessions, runs
      the shell and leaves nothing behind. */
  method RunApplication(port: Port)
    requires port.Valid() && port.log == []
    modifies port
    ensures port.Valid() && port.proc == Proc("", map[], NO_SETUPS, Exited)
    ensures Application(port.cfg, port.log)
  {
    hide Converse, Resume, OpOf, ShellSession;
    assert port.proc == STARTED by { StartsAtTheStart(port); }
    assert OpOf(port.cfg, STARTED.pc) == Clock by { BootPhase(port.cfg); }
    var now := port.Ask(Clock);
    assert port.proc == STARTED.(pc := BootClean(now.t)) && OpOf(port.cfg, port.proc.pc) == CleanSessions(now.t) by {
      BootPhase(port.cfg);
    }
    var cleaned := port.Ask(CleanSessions(now.t));
    assert port.proc == (if cleaned.Done? then Prompt(STARTED) else STARTED.(pc := Exited)) by { BootPhase(port.cfg); }
    ghost var t := [Exchange(Clock, now), Exchange(CleanSessions(now.t), cleaned)];
    assert port.log == t;
    if cleaned.Done? {
      ghost var rest := RunShell(port);
      assert port.log == t + rest && (t + rest)[2..] == rest;
    }
  }

  lemma StartsAtTheStart(port: Port)
    requires port.Valid() && port.log == []
    ensures port.proc == STARTED
  {
  }

  method RunShell(port: Port) returns (ghost t: Transcript)
    requires port.Valid() && port.proc == Prompt(STARTED)
    modifies port
    ensures port.Valid() && port.proc == Proc("", map[], NO_SETUPS, Exited)
    ensures port.log == old(port.log) + t && ShellSession(port.cfg, t)
  {
    hide Converse, ShellSession;
    var sessionService := new SessionService(port);
    var totpService := new TotpService(port, sessionService);
    var authService := new AuthService(port, sessionService, totpService);
    var shell := new Shell(authService, sessionService, totpService);
    t := shell.Run();
    shell.Close();
    assert port.proc == shell.Held(Exited);
  }
}
