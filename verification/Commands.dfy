/** Which command is at work: every request that changes anything is made by the command that is
    there for it, and by no other. */
module Commands {
  import opened Wrappers
  import opened Tables
  import opened Program
  import opened World
  import opened Provenance
  import opened Transcripts

  /** The command `p` was given last. */
  function LastCommand(es: seq<Event>, p: Pid): Option<Command> {
    if es == [] then None
    else if Last(es).Act? && Last(es).p == p && Last(es).pc == Shell && Last(es).reply.Cmd?
    then Some(Last(es).reply.command)
    else LastCommand(Before(es), p)
  }

  /** The command a process at `pc` is carrying out. */
  predicate Serves(pc: Pc, c: Option<Command>) {
    match pc
    case Registering(_) => c == Some(Register)
    case LoggingIn(_) => c == Some(Login)
    case Code(_, _) => c == Some(Login)
    case Finish(_, _, _) => c == Some(Login)
    case Validating(_, why, _) =>
      c == Some(match why
                case ForWhoAmI => WhoAmI
                case ForSetup => EnableTwoFactor
                case ForConfirm(_) => EnableTwoFactor
                case ForDisable(_, _) => DisableTwoFactor)
    case Setup(_, _) => c == Some(EnableTwoFactor)
    case Disabling(_) => c == Some(DisableTwoFactor)
    case LoggingOut(_, _) => c == Some(Logout)
    case _ => true
  }

  lemma ShellServes(q: Proc, reply: Reply)
    ensures var pc := ResumeShell(q, reply).pc;
            if reply.Cmd? then Serves(pc, Some(reply.command)) else pc == Shell || pc == Exited
  {
  }

  lemma LoginServes(cfg: Config, q: Proc, reply: Reply, c: Option<Command>)
    requires c == Some(Login)
    ensures forall l :: Serves(ResumeLogin(cfg, q, l, reply).pc, c)
    ensures forall ch, k :: Serves(ResumeCode(cfg, q, ch, k, reply).pc, c)
    ensures forall u, via, f :: Serves(ResumeFinish(q, u, via, f, reply).pc, c)
  {
  }

  lemma RegisterServes(cfg: Config, q: Proc, reply: Reply)
    ensures forall r :: Serves(ResumeRegister(cfg, q, r, reply).pc, Some(Register))
    ensures forall raw, o :: Serves(ResumeLogout(q, raw, o, reply).pc, Some(Logout))
    ensures forall d :: Serves(ResumeDisable(cfg, q, d, reply).pc, Some(DisableTwoFactor))
  {
  }

  lemma EnableServes(cfg: Config, q: Proc, reply: Reply)
    ensures forall raw, s :: Serves(ResumeSetup(cfg, q, raw, s, reply).pc, Some(EnableTwoFactor))
  {
  }

  lemma ValidatingServes(q: Proc, reply: Reply, c: Option<Command>)
    ensures forall raw, why, v :: Serves(Validating(raw, why, v), c) ==>
            Serves(ResumeValidate(q, raw, why, v, reply).pc, c)
  {
  }

  lemma StepServes(cfg: Config, q: Proc, reply: Reply, c: Option<Command>)
    requires q.pc != Exited && Serves(q.pc, c)
    ensures Serves(Resume(cfg, q, reply).pc, if q.pc == Shell && reply.Cmd? then Some(reply.command) else c)
  {
    ShellServes(q, reply);
    if c == Some(Login) {
      LoginServes(cfg, q, reply, c);
    }
    RegisterServes(cfg, q, reply);
    EnableServes(cfg, q, reply);
    ValidatingServes(q, reply, c);
    hide ResumeShell, ResumeRegister, ResumeValidate, ResumeLogout, ResumeSetup, ResumeDisable;
    hide ResumeLogin, ResumeCode, ResumeFinish;
  }

  lemma {:induction false} CommandsAreServed(cfg: Config, pids: set<Pid>, es: seq<Event>, p: Pid)
    requires Ran(cfg, pids, es) && p in pids
    ensures Serves(ProcAfter(cfg, pids, es, p).pc, LastCommand(es, p))
    decreases |es|
  {
    hide Resume, Effect, Answers, OpOf, Serves;
    ProcessesStay(cfg, pids, es);
    if es == [] {
      StartServes();
    } else {
      var prior, e := Before(es), Last(es);
      ProcessesStay(cfg, pids, prior);
      CommandsAreServed(cfg, pids, prior, p);
      if e.Act? && e.p == p {
        StepServes(cfg, ProcAfter(cfg, pids, prior, p), e.reply, LastCommand(prior, p));
      }
    }
  }

  lemma StartServes()
    ensures Serves(STARTED.pc, None)
  {
  }

  /** The command a request that changes something belongs to. */
  function CommandOf(op: Op): Option<Command> {
    match op
    case InsertUser(_) => Some(Register)
    case RecordFailure(_) => Some(Login)
    case ResetFailures(_) => Some(Login)
    case CommitSession(_, _, _) => Some(Login)
    case RevokeSession(_, _) => Some(Logout)
    case SetTotp(_, _) => Some(EnableTwoFactor)
    case UnsetTotp(_) => Some(DisableTwoFactor)
    case _ => None
  }

  lemma RequestsServe(cfg: Config, pc: Pc, c: Option<Command>)
    requires pc != Exited && Serves(pc, c)
    ensures CommandOf(OpOf(cfg, pc)).Some? ==> CommandOf(OpOf(cfg, pc)) == c
  {
  }

  /** In every run, an account is created only by `register`, failures are recorded and cleared and
      sessions created only by `login`, sessions revoked only by `logout`, and two-factor turned on
      and off only by the commands for that: always the one the process was given last. */
  lemma ChangesFollowCommands(cfg: Config, pids: set<Pid>, es: seq<Event>, n: nat)
    requires Ran(cfg, pids, es) && n < |es| && es[n].Act? && es[n].p in pids && CommandOf(es[n].op).Some?
    ensures LastCommand(es[..n], es[n].p) == CommandOf(es[n].op)
  {
    hide Replay, Resume, Effect, Answers, OpOf, Serves;
    PrefixRan(cfg, pids, es, n);
    AtItsPc(cfg, pids, es, n);
    CommandsAreServed(cfg, pids, es[..n], es[n].p);
    RequestsServe(cfg, es[n].pc, LastCommand(es[..n], es[n].p));
  }

  /** In every run, a command that may not be used in the present state changes nothing, and one
      that may be used begins with its own question. */
  lemma CommandsBegin(cfg: Config, pids: set<Pid>, es: seq<Event>, n: nat, p: Pid, c: Command)
    requires Ran(cfg, pids, es) && n < |es| && p in pids
    requires es[n].Act? && es[n].p == p && es[n].pc == Shell && es[n].reply == Cmd(c)
    ensures Ran(cfg, pids, es[..n]) && Ran(cfg, pids, es[..n + 1])
    ensures var q, r := ProcAfter(cfg, pids, es[..n], p), ProcAfter(cfg, pids, es[..n + 1], p);
            if c == Help || !MayUse(q.token, c) then r == q
            else if c == Exit then r.pc == Exited
            else
              && r == q.(pc := r.pc) && r.pc != Exited
              && OpOf(cfg, r.pc) == if c == WhoAmI || c == Logout || c == EnableTwoFactor
                                    then FindSession(cfg.hash(q.token)) else ReadLines
  {
    hide Replay, Effect, Answers;
    PrefixRan(cfg, pids, es, n);
    AtItsPc(cfg, pids, es, n);
    ShellDispatches(cfg, ProcAfter(cfg, pids, es[..n], p), c);
  }

  lemma ShellDispatches(cfg: Config, q: Proc, c: Command)
    requires q.pc == Shell
    ensures var r := Resume(cfg, q, Cmd(c));
            if c == Help || !MayUse(q.token, c) then r == q
            else if c == Exit then r.pc == Exited
            else
              && r == q.(pc := r.pc) && r.pc != Exited
              && OpOf(cfg, r.pc) == if c == WhoAmI || c == Logout || c == EnableTwoFactor
                                    then FindSession(cfg.hash(q.token)) else ReadLines
  {
    hide ResumeRegister, ResumeLogin, ResumeCode, ResumeFinish, ResumeValidate, ResumeSetup, ResumeDisable;
    hide ResumeLogout;
  }
}
