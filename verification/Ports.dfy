/** The seam between one process and everything outside it, for code that runs step by step: each
    call hands over a request and gets an answer that nothing here restricts beyond its kind, so
    whatever the other processes, the servers and the user do in between is covered. */
module Ports {
  import opened Program
  import opened Transcripts

  /** Where a process is after a series of exchanges: the answers alone decide. */
  ghost function Converse(cfg: Config, log: Transcript): Proc
    decreases |log|
  {
    if log == [] then STARTED
    else
      var p := Converse(cfg, log[..|log| - 1]);
      if p.pc == Exited then p else Resume(cfg, p, log[|log| - 1].reply)
  }

  /** The kind of answer each request gets when it gets one. */
  predicate Fits(op: Op, reply: Reply) {
    match op
    case ReadCommand => reply.Cmd? || reply.Interrupt? || reply.Eof?
    case ReadLines => reply.Lines? || reply.Interrupt? || reply.Eof?
    case Clock => reply.Now?
    case NewToken => reply.Fresh? && reply.text != ""
    case NewId | NewSecret | NewNonce | HashPassword(_) => reply.Fresh?
    case FindByName(_) | FindById(_) => reply.User? || reply.NoRow?
    case InsertUser(_) | SetTotp(_, _) | UnsetTotp(_) => reply.Done? || reply.Clash?
    case CheckBlocked(_) | RecordFailure(_) => reply.Flag?
    case ResetFailures(_) | CommitSession(_, _, _) | CleanSessions(_) => reply.Done?
    case FindSession(_) => reply.Session? || reply.NoRow?
    case RevokeSession(_, _) => reply.Done? || reply.NoRow?
  }

  /** What a request may be answered: an answer of its kind or, except by the clock, none. */
  predicate MayAnswer(op: Op, reply: Reply) {
    if op.Clock? then reply.Now? else reply.Failed? || Fits(op, reply)
  }

  // ---- The request and the continuation within one phase ----

  lemma BootPhase(cfg: Config)
    ensures forall p: Proc | p.pc.Boot? :: OpOf(cfg, p.pc) == Clock
    ensures forall p: Proc | p.pc.BootClean? :: OpOf(cfg, p.pc) == CleanSessions(p.pc.at)
    ensures forall p: Proc, t | p.pc.Boot? :: Resume(cfg, p, Now(t)) == p.(pc := BootClean(t))
    ensures forall p: Proc, reply | p.pc.BootClean? ::
            Resume(cfg, p, reply) == if reply.Done? then Prompt(p) else Close(p)
  {
    hide ResumeShell, ResumeRegister, ResumeLogin, ResumeCode, ResumeFinish, ResumeValidate, ResumeSetup;
    hide ResumeDisable, ResumeLogout, RegisterOp, LoginOp, CodeOp, FinishOp, ValidateOp, SetupOp, DisableOp;
    hide LogoutOp;
  }

  lemma ShellPhase(cfg: Config)
    ensures forall p: Proc | p.pc.Shell? :: OpOf(cfg, p.pc) == ReadCommand
    ensures forall p: Proc, reply | p.pc.Shell? :: Resume(cfg, p, reply) == ResumeShell(p, reply)
  {
    hide ResumeShell, ResumeRegister, ResumeLogin, ResumeCode, ResumeFinish, ResumeValidate, ResumeSetup;
    hide ResumeDisable, ResumeLogout, RegisterOp, LoginOp, CodeOp, FinishOp, ValidateOp, SetupOp, DisableOp;
    hide LogoutOp;
  }

  lemma RegisterPhase(cfg: Config)
    ensures forall p: Proc | p.pc.Registering? :: OpOf(cfg, p.pc) == RegisterOp(p.pc.r)
    ensures forall p: Proc, reply | p.pc.Registering? :: Resume(cfg, p, reply) == ResumeRegister(cfg, p, p.pc.r, reply)
  {
    hide ResumeRegister, ResumeLogin, ResumeCode, ResumeFinish, ResumeValidate, ResumeSetup, ResumeDisable;
    hide ResumeLogout, ResumeShell, RegisterOp, LoginOp, CodeOp, FinishOp, ValidateOp, SetupOp, DisableOp;
    hide LogoutOp;
  }

  lemma LoginPhase(cfg: Config)
    ensures forall p: Proc | p.pc.LoggingIn? :: OpOf(cfg, p.pc) == LoginOp(p.pc.l)
    ensures forall p: Proc, reply | p.pc.LoggingIn? :: Resume(cfg, p, reply) == ResumeLogin(cfg, p, p.pc.l, reply)
  {
    hide ResumeRegister, ResumeLogin, ResumeCode, ResumeFinish, ResumeValidate, ResumeSetup, ResumeDisable;
    hide ResumeLogout, ResumeShell, RegisterOp, LoginOp, CodeOp, FinishOp, ValidateOp, SetupOp, DisableOp;
    hide LogoutOp;
  }

  lemma CodePhase(cfg: Config)
    ensures forall p: Proc | p.pc.Code? :: OpOf(cfg, p.pc) == CodeOp(p.pc.c)
    ensures forall p: Proc, reply | p.pc.Code? :: Resume(cfg, p, reply) == ResumeCode(cfg, p, p.pc.ch, p.pc.c, reply)
  {
    hide ResumeRegister, ResumeLogin, ResumeCode, ResumeFinish, ResumeValidate, ResumeSetup, ResumeDisable;
    hide ResumeLogout, ResumeShell, RegisterOp, LoginOp, CodeOp, FinishOp, ValidateOp, SetupOp, DisableOp;
    hide LogoutOp;
  }

  lemma FinishPhase(cfg: Config)
    ensures forall p: Proc | p.pc.Finish? :: OpOf(cfg, p.pc) == FinishOp(cfg, p.pc.u, p.pc.f)
    ensures forall p: Proc, reply | p.pc.Finish? ::
            Resume(cfg, p, reply) == ResumeFinish(p, p.pc.u, p.pc.via, p.pc.f, reply)
  {
    hide ResumeRegister, ResumeLogin, ResumeCode, ResumeFinish, ResumeValidate, ResumeSetup, ResumeDisable;
    hide ResumeLogout, ResumeShell, RegisterOp, LoginOp, CodeOp, FinishOp, ValidateOp, SetupOp, DisableOp;
    hide LogoutOp;
  }

  lemma ValidatePhase(cfg: Config)
    ensures forall p: Proc | p.pc.Validating? :: OpOf(cfg, p.pc) == ValidateOp(cfg, p.pc.raw, p.pc.v)
    ensures forall p: Proc, reply | p.pc.Validating? ::
            Resume(cfg, p, reply) == ResumeValidate(p, p.pc.raw, p.pc.why, p.pc.v, reply)
  {
    hide ResumeRegister, ResumeLogin, ResumeCode, ResumeFinish, ResumeValidate, ResumeSetup, ResumeDisable;
    hide ResumeLogout, ResumeShell, RegisterOp, LoginOp, CodeOp, FinishOp, ValidateOp, SetupOp, DisableOp;
    hide LogoutOp;
  }

  lemma SetupPhase(cfg: Config)
    ensures forall p: Proc | p.pc.Setup? :: OpOf(cfg, p.pc) == SetupOp(p.pc.s)
    ensures forall p: Proc, reply | p.pc.Setup? :: Resume(cfg, p, reply) == ResumeSetup(cfg, p, p.pc.raw, p.pc.s, reply)
  {
    hide ResumeRegister, ResumeLogin, ResumeCode, ResumeFinish, ResumeValidate, ResumeSetup, ResumeDisable;
    hide ResumeLogout, ResumeShell, RegisterOp, LoginOp, CodeOp, FinishOp, ValidateOp, SetupOp, DisableOp;
    hide LogoutOp;
  }

  lemma DisablePhase(cfg: Config)
    ensures forall p: Proc | p.pc.Disabling? :: OpOf(cfg, p.pc) == DisableOp(p.pc.d)
    ensures forall p: Proc, reply | p.pc.Disabling? :: Resume(cfg, p, reply) == ResumeDisable(cfg, p, p.pc.d, reply)
  {
    hide ResumeRegister, ResumeLogin, ResumeCode, ResumeFinish, ResumeValidate, ResumeSetup, ResumeDisable;
    hide ResumeLogout, ResumeShell, RegisterOp, LoginOp, CodeOp, FinishOp, ValidateOp, SetupOp, DisableOp;
    hide LogoutOp;
  }

  lemma LogoutPhase(cfg: Config)
    ensures forall p: Proc | p.pc.LoggingOut? :: OpOf(cfg, p.pc) == LogoutOp(cfg, p.pc.raw, p.pc.o)
    ensures forall p: Proc, reply | p.pc.LoggingOut? ::
            Resume(cfg, p, reply) == ResumeLogout(p, p.pc.raw, p.pc.o, reply)
  {
    hide ResumeRegister, ResumeLogin, ResumeCode, ResumeFinish, ResumeValidate, ResumeSetup, ResumeDisable;
    hide ResumeLogout, ResumeShell, RegisterOp, LoginOp, CodeOp, FinishOp, ValidateOp, SetupOp, DisableOp;
    hide LogoutOp;
  }

  class Port {
    const cfg: Config
    /** The answers still to come; when they run out the input has ended. */
    var script: seq<Reply>
    /** Everything asked and answered so far. */
    ghost var log: Transcript
    ghost var proc: Proc

    constructor (cfg: Config, script: seq<Reply>)
      ensures this.cfg == cfg && this.script == script && Valid() && proc == STARTED && log == []
    {
      this.cfg, this.script := cfg, script;
      log, proc := [], STARTED;
    }

    ghost predicate Valid()
      reads this
    {
      proc == Converse(cfg, log)
    }

    /** Wait for the user, who when there is nothing left to type has ended the input. */
    method Read(op: Op) returns (reply: Reply)
      requires Valid() && proc.pc != Exited && op == OpOf(cfg, proc.pc) && (op == ReadCommand || op == ReadLines)
      modifies this
      ensures Valid() && log == old(log) + [Exchange(op, reply)]
      ensures proc == Resume(cfg, old(proc), reply)
      ensures MayAnswer(op, reply)
      ensures |script| < |old(script)| || (script == old(script) && reply == Eof)
    {
      hide Resume, OpOf;
      reply := Eof;
      if script != [] {
        reply := if Fits(op, script[0]) then script[0] else Failed;
        script := script[1..];
      }
      proc := Resume(cfg, proc, reply);
      log := log + [Exchange(op, reply)];
      assert log[..|log| - 1] == old(log);
    }

    /** Make the request this process is due to make, and get an answer to it. Only the clock
        cannot fail. */
    method Ask(op: Op) returns (reply: Reply)
      requires Valid() && proc.pc != Exited && op == OpOf(cfg, proc.pc)
      modifies this
      ensures Valid() && log == old(log) + [Exchange(op, reply)]
      ensures proc == Resume(cfg, old(proc), reply)
      ensures MayAnswer(op, reply)
      ensures |script| <= |old(script)|
    {
      hide Resume, OpOf;
      reply := if op == Clock then Now(0) else Failed;
      if script != [] {
        if Fits(op, script[0]) {
          reply := script[0];
        }
        script := script[1..];
      }
      proc := Resume(cfg, proc, reply);
      log := log + [Exchange(op, reply)];
      assert log[..|log| - 1] == old(log);
    }
  }
}
