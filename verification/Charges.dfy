/** Every wrong credential is charged to its account, and nothing else is. */
module Charges {
  import opened Wrappers
  import opened Tables
  import opened Program
  import opened World
  import opened Provenance

  /** At event `e` a process that had been told that `u` is not blocked found the password given not
      to fit the row of `u`, or the code given not to match the secret in it. */
  predicate WrongCredential(cfg: Config, e: Event, u: string) {
    e.Act? && (WrongPassword(cfg, e.pc, e.reply, u) || WrongCode(cfg, e.pc, e.reply, u))
  }

  predicate WrongPassword(cfg: Config, pc: Pc, reply: Reply, u: string) {
    && pc.LoggingIn? && pc.l.LoginGate? && pc.l.row.id == u && reply == Flag(false)
    && !cfg.passwordOk(pc.l.row.passwordHash, pc.l.password)
  }

  predicate WrongCode(cfg: Config, pc: Pc, reply: Reply, u: string) {
    && pc.Code? && pc.c.CheckLogin? && pc.c.u == u && reply.Now?
    && cfg.checkCode(pc.c.secret, pc.c.code, reply.t) == NoMatch
  }

  /** The next request of a process at `pc` records a failure of `u`. */
  predicate Owes(cfg: Config, pc: Pc, u: string) {
    pc != Exited && OpOf(cfg, pc) == RecordFailure(u)
  }

  lemma OwingPcs(cfg: Config, pc: Pc, u: string)
    ensures Owes(cfg, pc, u) <==> pc == LoggingIn(LoginFail(u)) || (pc.Code? && pc.c == CodeFail(u))
  {
  }

  lemma PasswordsOwe(cfg: Config, q: Proc, reply: Reply, u: string)
    ensures forall l :: var pc := ResumeLogin(cfg, q, l, reply).pc;
              (pc == LoggingIn(LoginFail(u)) <==> WrongPassword(cfg, LoggingIn(l), reply, u))
              && !(pc.Code? && pc.c == CodeFail(u))
  {
  }

  lemma CodesOwe(cfg: Config, q: Proc, reply: Reply, u: string)
    ensures forall ch, c :: var pc := ResumeCode(cfg, q, ch, c, reply).pc;
              (pc.Code? && pc.c == CodeFail(u) <==> WrongCode(cfg, Code(ch, c), reply, u))
              && pc != LoggingIn(LoginFail(u))
  {
  }

  lemma FinishingOwesNothing(q: Proc, reply: Reply)
    ensures forall u, via, f :: var pc := ResumeFinish(q, u, via, f, reply).pc; !pc.LoggingIn? && !pc.Code?
  {
  }

  /** A process comes to owe a failure of `u` exactly when it finds a wrong credential of `u`. */
  lemma OwesExactly(cfg: Config, q: Proc, reply: Reply, u: string)
    requires q.pc != Exited
    ensures Owes(cfg, Resume(cfg, q, reply).pc, u)
            <==> WrongPassword(cfg, q.pc, reply, u) || WrongCode(cfg, q.pc, reply, u)
  {
    OwingPcs(cfg, Resume(cfg, q, reply).pc, u);
    PasswordsOwe(cfg, q, reply, u);
    CodesOwe(cfg, q, reply, u);
    FinishingOwesNothing(q, reply);
    OthersStayOut(cfg, q, reply);
    ValidatingStaysOut(cfg, q, reply);
    EnrollingStaysOut(cfg, q, reply);
    hide ResumeShell, ResumeRegister, ResumeValidate, ResumeLogout, ResumeSetup, ResumeDisable;
    hide ResumeLogin, ResumeCode, ResumeFinish, OpOf;
  }

  // ---- Over a run ----

  ghost function WrongCredentials(cfg: Config, es: seq<Event>, u: string): nat
    decreases |es|
  {
    if es == [] then 0 else WrongCredentials(cfg, Before(es), u) + if WrongCredential(cfg, Last(es), u) then 1 else 0
  }

  /** The failures of `u` recorded, or at least sent off. */
  function Recordings(es: seq<Event>, u: string): nat {
    if es == [] then 0
    else Recordings(Before(es), u) + if Last(es).Act? && Last(es).op == RecordFailure(u) then 1 else 0
  }

  ghost function Owing(cfg: Config, w: World, u: string): set<Pid> {
    set p | p in w.procs && Owes(cfg, w.procs[p].pc, u)
  }

  lemma OwingMoves(cfg: Config, w: World, e: Event, u: string)
    requires Enabled(cfg, w, e)
    ensures |Owing(cfg, Next(cfg, w, e), u)| + (if e.Act? && e.op == RecordFailure(u) then 1 else 0)
            == |Owing(cfg, w, u)| + if WrongCredential(cfg, e, u) then 1 else 0
  {
    hide Resume, Answers, Effect, OpOf;
    var before, after := Owing(cfg, w, u), Owing(cfg, Next(cfg, w, e), u);
    if e.Act? {
      OwesExactly(cfg, w.procs[e.p], e.reply, u);
      assert before - {e.p} == after - {e.p};
      assert e.p in before <==> e.op == RecordFailure(u);
      assert e.p in after <==> WrongCredential(cfg, e, u);
      Without(before, e.p);
      Without(after, e.p);
    } else {
      assert before == after;
    }
  }

  lemma Without(s: set<Pid>, p: Pid)
    ensures |s| == |s - {p}| + if p in s then 1 else 0
  {
    if p in s {
      assert s == (s - {p}) + {p};
    } else {
      assert s == s - {p};
    }
  }

  /** Over every run and for every user, the wrong credentials found are exactly the failures
      recorded and those that some process is just about to record. */
  lemma {:induction false} EveryWrongCredentialIsRecorded(cfg: Config, pids: set<Pid>, es: seq<Event>, u: string)
    requires Ran(cfg, pids, es)
    ensures WrongCredentials(cfg, es, u) == Recordings(es, u) + |Owing(cfg, After(cfg, pids, es), u)|
    decreases |es|
  {
    hide Enabled, Next, Owing, WrongCredential;
    if es == [] {
      NobodyOwesAtFirst(cfg, pids, u);
    } else {
      EveryWrongCredentialIsRecorded(cfg, pids, Before(es), u);
      OwingMoves(cfg, After(cfg, pids, Before(es)), Last(es), u);
    }
  }

  lemma NobodyOwesAtFirst(cfg: Config, pids: set<Pid>, u: string)
    ensures Owing(cfg, Start(pids), u) == {}
  {
  }

  // ---- What a credential decides ----

  /** In every run, once the block has been checked, the password decides what is asked next: a
      failure of that user recorded, a challenge drawn, or the failures cleared. */
  lemma PasswordDecides(cfg: Config, pids: set<Pid>, es: seq<Event>, n: nat, p: Pid, row: UserRow, password: string)
    requires Ran(cfg, pids, es) && n < |es| && p in pids
    requires es[n].Act? && es[n].p == p && es[n].pc == LoggingIn(LoginGate(row, password)) && es[n].reply == Flag(false)
    ensures exists i: nat, j: nat :: i < j < n && Identified(cfg, es, i, j, p, row, password)
    ensures Ran(cfg, pids, es[..n + 1])
    ensures var next := ProcAfter(cfg, pids, es[..n + 1], p).pc;
            && next != Exited
            && OpOf(cfg, next) == if !cfg.passwordOk(row.passwordHash, password) then RecordFailure(row.id)
                                  else if row.totpEnabled then NewToken else ResetFailures(row.id)
  {
    hide Replay, Effect, Answers;
    PrefixRan(cfg, pids, es, n);
    AtItsPc(cfg, pids, es, n);
    var i, j := IdentifiedAt(cfg, pids, es[..n], p, row, password);
    assert Identified(cfg, es, i, j, p, row, password);
    AfterPassword(cfg, ProcAfter(cfg, pids, es[..n], p), row, password);
  }

  lemma AfterPassword(cfg: Config, q: Proc, row: UserRow, password: string)
    requires q.pc == LoggingIn(LoginGate(row, password))
    ensures var next := Resume(cfg, q, Flag(false)).pc;
            && next != Exited
            && OpOf(cfg, next) == if !cfg.passwordOk(row.passwordHash, password) then RecordFailure(row.id)
                                  else if row.totpEnabled then NewToken else ResetFailures(row.id)
  {
  }

  /** So does the code: a wrong one is recorded, a right one clears the failures on the way to the
      session. */
  lemma CodeDecides(
      cfg: Config, pids: set<Pid>, es: seq<Event>, n: nat, p: Pid, ch: string, u: string, secret: string, code: string)
    requires Ran(cfg, pids, es) && n < |es| && p in pids
    requires es[n].Act? && es[n].p == p && es[n].pc == Code(ch, CheckLogin(u, secret, code)) && es[n].reply.Now?
    ensures Ran(cfg, pids, es[..n + 1])
    ensures var next := ProcAfter(cfg, pids, es[..n + 1], p).pc;
            match cfg.checkCode(secret, code, es[n].reply.t)
            case Match => next != Exited && OpOf(cfg, next) == ResetFailures(u)
            case NoMatch => next != Exited && OpOf(cfg, next) == RecordFailure(u)
            case Broken => next == Shell
  {
    hide Replay, Effect, Answers;
    PrefixRan(cfg, pids, es, n);
    AtItsPc(cfg, pids, es, n);
    AfterCode(cfg, ProcAfter(cfg, pids, es[..n], p), ch, u, secret, code, es[n].reply.t);
  }

  lemma AfterCode(cfg: Config, q: Proc, ch: string, u: string, secret: string, code: string, at: Time)
    requires q.pc == Code(ch, CheckLogin(u, secret, code))
    ensures var next := Resume(cfg, q, Now(at)).pc;
            match cfg.checkCode(secret, code, at)
            case Match => next != Exited && OpOf(cfg, next) == ResetFailures(u)
            case NoMatch => next != Exited && OpOf(cfg, next) == RecordFailure(u)
            case Broken => next == Shell
  {
  }
}
