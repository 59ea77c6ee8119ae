/** The lockout over whole runs: any number of processes, each checking the block, checking the
    credential and recording the failure in three separate requests. */
module LockoutRuns {
  import opened Program
  import opened World
  import opened Invariants
  import opened Tables
  import Lockout

  /** What one event does to the two keys of user `u`. */
  function AccountEvent(e: Event, u: string): seq<Lockout.Event> {
    match e
    case Tick(ms) => [Lockout.Elapse(ms)]
    case Act(_, _, op, _, took) =>
      if took && op == RecordFailure(u) then [Lockout.Fail]
      else if took && op == ResetFailures(u) then [Lockout.Clear]
      else []
  }

  function AccountEvents(es: seq<Event>, u: string): seq<Lockout.Event> {
    if es == [] then [] else AccountEvents(Before(es), u) + AccountEvent(Last(es), u)
  }

  lemma OneEvent(s: Lockout.State, e: Lockout.Event, limit: nat, ms: nat)
    ensures Lockout.Run(s, [e], limit, ms) == Lockout.Step(s, e, limit, ms)
    ensures Lockout.OpenReplies(s, [e], limit, ms)
            == if e.Fail? && Lockout.Record(s.cell, s.now, limit, ms).1.Open? then 1 else 0
  {
    assert [e][1..] == [];
  }

  lemma EffectOnAccount(cfg: Config, w: World, p: Pid, op: Op, reply: Reply, token: string, u: string)
    ensures Account(Effect(cfg, w, p, op, reply, token), u)
            == if op == RecordFailure(u) then Lockout.Step(Account(w, u), Lockout.Fail, cfg.maxAttempts, cfg.lockoutMs)
               else if op == ResetFailures(u)
                 then Lockout.Step(Account(w, u), Lockout.Clear, cfg.maxAttempts, cfg.lockoutMs)
               else Account(w, u)
  {
    hide CommitLogin, CreateUser, EnableTotp, DisableTotp, Revoke, DeleteExpired, Lockout.Record;
  }

  lemma AccountStep(cfg: Config, w: World, e: Event, u: string)
    requires Enabled(cfg, w, e)
    ensures Account(Next(cfg, w, e), u)
            == Lockout.Run(Account(w, u), AccountEvent(e, u), cfg.maxAttempts, cfg.lockoutMs)
  {
    hide Answers, Resume, OpOf, Effect, Lockout.Record, Lockout.Run;
    var s := Account(w, u);
    OneEvent(s, Lockout.Fail, cfg.maxAttempts, cfg.lockoutMs);
    OneEvent(s, Lockout.Clear, cfg.maxAttempts, cfg.lockoutMs);
    NoEvent(s, cfg.maxAttempts, cfg.lockoutMs);
    if e.Tick? {
      OneEvent(s, Lockout.Elapse(e.ms), cfg.maxAttempts, cfg.lockoutMs);
    } else {
      EffectOnAccount(cfg, w, e.p, e.op, e.reply, TokenAt(e.pc), u);
    }
  }

  lemma NoEvent(s: Lockout.State, limit: nat, ms: nat)
    ensures Lockout.Run(s, [], limit, ms) == s
  {
  }

  lemma {:induction false} RunConcat(s: Lockout.State, a: seq<Lockout.Event>, b: seq<Lockout.Event>, limit: nat,
    ms: nat)
    ensures Lockout.Run(s, a + b, limit, ms) == Lockout.Run(Lockout.Run(s, a, limit, ms), b, limit, ms)
    decreases |a|
  {
    if a == [] {
      assert a + b == b;
    } else {
      assert (a + b)[0] == a[0] && (a + b)[1..] == a[1..] + b;
      RunConcat(Lockout.Step(s, a[0], limit, ms), a[1..], b, limit, ms);
    }
  }

  /** The events of a run since its first `n`. */
  function Since(es: seq<Event>, n: nat): seq<Event>
    requires n <= |es|
  {
    es[n..]
  }

  lemma SinceSnoc(es: seq<Event>, n: nat)
    requires n < |es|
    ensures n <= |Before(es)| && Since(es, n) != []
    ensures Before(Since(es, n)) == Since(Before(es), n) && Last(Since(es, n)) == Last(es)
    ensures Before(es)[..n] == es[..n]
  {
  }

  /** One user's account in a run behaves as the automaton does on that user's events alone. */
  lemma {:induction false} AccountFollows(cfg: Config, pids: set<Pid>, es: seq<Event>, n: nat, u: string)
    requires Ran(cfg, pids, es) && n <= |es|
    ensures Ran(cfg, pids, es[..n])
    ensures Account(After(cfg, pids, es), u)
            == Lockout.Run(Account(After(cfg, pids, es[..n]), u), AccountEvents(Since(es, n), u), cfg.maxAttempts,
              cfg.lockoutMs)
    decreases |es|
  {
    hide Next, Enabled, Lockout.Step;
    PrefixRan(cfg, pids, es, n);
    if n == |es| {
      assert es[..n] == es && Since(es, n) == [];
    } else {
      SinceSnoc(es, n);
      AccountFollows(cfg, pids, Before(es), n, u);
      AccountStep(cfg, After(cfg, pids, Before(es)), Last(es), u);
      RunConcat(Account(After(cfg, pids, es[..n]), u), AccountEvents(Since(Before(es), n), u),
        AccountEvent(Last(es), u), cfg.maxAttempts, cfg.lockoutMs);
    }
  }

  lemma AccountInvariant(cfg: Config, pids: set<Pid>, es: seq<Event>, u: string)
    requires cfg.Lawful() && Ran(cfg, pids, es)
    ensures Lockout.Invariant(Account(After(cfg, pids, es), u), cfg.maxAttempts, cfg.lockoutMs)
  {
    hide Replay, Sound, Minting, Issuing, Recorded, ProcInv;
    RunsAreConsistent(cfg, pids, es);
  }

  /** In any window of any run, whatever the processes do, user `u` is charged with at most
      limit * (T / D + 1 + r) failures: T the time it takes, D the lockout, r its Resets. */
  lemma AccountRateBound(cfg: Config, pids: set<Pid>, es: seq<Event>, n: nat, u: string)
    requires cfg.Lawful() && Ran(cfg, pids, es) && n <= |es|
    ensures Ran(cfg, pids, es[..n])
    ensures var start, window := After(cfg, pids, es[..n]), AccountEvents(Since(es, n), u);
            var took := After(cfg, pids, es).now - start.now;
            took >= 0 &&
            Lockout.Counted(Account(start, u), window, cfg.maxAttempts, cfg.lockoutMs)
            <= cfg.maxAttempts * (took / cfg.lockoutMs + 1 + Lockout.Resets(window))
  {
    hide Next, Enabled;
    PrefixRan(cfg, pids, es, n);
    AccountFollows(cfg, pids, es, n, u);
    AccountInvariant(cfg, pids, es[..n], u);
    var start, window := After(cfg, pids, es[..n]), AccountEvents(Since(es, n), u);
    Lockout.RunTakes(Account(start, u), window, cfg.maxAttempts, cfg.lockoutMs);
    Lockout.RateBound(Account(start, u), window, cfg.maxAttempts, cfg.lockoutMs);
  }

  /** Over every run: failures charged to `u` = counter + limit * blocks set + counters erased,
      the counter is below the limit, and there is none while a block is in place. */
  lemma AccountConservation(cfg: Config, pids: set<Pid>, es: seq<Event>, u: string)
    requires cfg.Lawful() && Ran(cfg, pids, es)
    ensures var s, all := Account(Start(pids), u), AccountEvents(es, u);
            var cell := CellOf(After(cfg, pids, es), u);
            && Lockout.Counted(s, all, cfg.maxAttempts, cfg.lockoutMs)
               == cell.count
                  + cfg.maxAttempts * Lockout.BlocksSet(s, all, cfg.maxAttempts, cfg.lockoutMs)
                  + Lockout.Erased(s, all, cfg.maxAttempts, cfg.lockoutMs)
            && cell.count < cfg.maxAttempts
            && (Locked(After(cfg, pids, es), u) ==> cell.count == 0)
  {
    hide Next, Enabled;
    AccountFollows(cfg, pids, es, 0, u);
    assert es[..0] == [] && Since(es, 0) == es;
    Lockout.FailuresAreConserved(Account(Start(pids), u), AccountEvents(es, u), cfg.maxAttempts, cfg.lockoutMs);
  }

  // ---- Failures that arrive while the block is already there ----

  /** The process has been told that `u` is not blocked and may still record a failure. */
  predicate Armed(pc: Pc, u: string) {
    || pc == LoggingIn(LoginFail(u))
    || (pc.Code? && pc.c.CheckLogin? && pc.c.u == u)
    || (pc.Code? && pc.c == CodeFail(u))
  }

  function ArmedPids(w: World, u: string): set<Pid> {
    set p | p in w.procs && Armed(w.procs[p].pc, u)
  }

  /** A failure recorded while `u` was blocked: the script's first branch. */
  predicate LateFailure(w: World, e: Event, u: string) {
    e.Act? && e.took && e.op == RecordFailure(u) && Locked(w, u)
  }

  ghost function LateFailures(cfg: Config, pids: set<Pid>, es: seq<Event>, n: nat, u: string): nat
    requires Ran(cfg, pids, es)
    decreases |es|
  {
    if |es| <= n then 0
    else
      LateFailures(cfg, pids, Before(es), n, u)
      + if LateFailure(After(cfg, pids, Before(es)), Last(es), u) then 1 else 0
  }

  /** At every event from the `n`th on, `u` is blocked. */
  ghost predicate LockedSince(cfg: Config, pids: set<Pid>, es: seq<Event>, n: nat, u: string) {
    forall i | n <= i < |es| :: Ran(cfg, pids, es[..i]) && Locked(After(cfg, pids, es[..i]), u)
  }

  /** While the account is blocked nobody becomes armed, and recording a failure disarms. */
  lemma ArmedShrinks(cfg: Config, w: World, e: Event, u: string)
    requires Enabled(cfg, w, e) && Locked(w, u) && e.Act?
    ensures Armed(Resume(cfg, w.procs[e.p], e.reply).pc, u) ==> Armed(w.procs[e.p].pc, u)
    ensures LateFailure(w, e, u) ==> Armed(w.procs[e.p].pc, u) && !Armed(Resume(cfg, w.procs[e.p], e.reply).pc, u)
  {
    var q := w.procs[e.p];
    if Armed(Resume(cfg, q, e.reply).pc, u) {
      OnlyGatesArm(cfg, q, e.reply, u);
    }
    RecordingTakesTheShot(cfg, q, e.reply, u);
    GatesAnswerTruly(cfg, w, e);
    hide Resume, OpOf, Effect, Answers;
  }

  /** The check of the block that stands before a credential is used. */
  predicate AtGate(pc: Pc, u: string) {
    (pc.LoggingIn? && pc.l.LoginGate? && pc.l.row.id == u) || (pc.Code? && pc.c.CodeGate? && pc.c.row.id == u)
  }

  lemma GatesAnswerTruly(cfg: Config, w: World, e: Event)
    requires e.Act? && Enabled(cfg, w, e)
    ensures forall u :: AtGate(e.pc, u) && Locked(w, u) ==> e.reply != Flag(false)
    ensures forall u :: e.op == RecordFailure(u) ==> e.op == OpOf(cfg, w.procs[e.p].pc)
  {
    hide Resume;
  }

  lemma PasswordsArm(cfg: Config, q: Proc, reply: Reply, u: string)
    ensures forall l :: Armed(ResumeLogin(cfg, q, l, reply).pc, u) ==> AtGate(LoggingIn(l), u) && reply == Flag(false)
  {
  }

  lemma CodesArm(cfg: Config, q: Proc, reply: Reply, u: string)
    ensures forall ch, c :: Armed(ResumeCode(cfg, q, ch, c, reply).pc, u) ==>
              (c.CheckLogin? && c.u == u) || (AtGate(Code(ch, c), u) && reply == Flag(false))
  {
  }

  lemma OthersNeverArm(cfg: Config, q: Proc, reply: Reply, u: string)
    ensures forall v, via, f :: !Armed(ResumeFinish(q, v, via, f, reply).pc, u)
    ensures forall raw, o :: !Armed(ResumeLogout(q, raw, o, reply).pc, u)
  {
  }

  lemma SessionsNeverArm(cfg: Config, q: Proc, reply: Reply, u: string)
    ensures forall raw, why, v :: !Armed(ResumeValidate(q, raw, why, v, reply).pc, u)
    ensures !Armed(ResumeShell(q, reply).pc, u)
  {
  }

  lemma FormsNeverArm(cfg: Config, q: Proc, reply: Reply, u: string)
    ensures forall r :: !Armed(ResumeRegister(cfg, q, r, reply).pc, u)
    ensures forall d :: !Armed(ResumeDisable(cfg, q, d, reply).pc, u)
  {
  }

  lemma SetupNeverArms(cfg: Config, q: Proc, reply: Reply, u: string)
    ensures forall raw, s :: !Armed(ResumeSetup(cfg, q, raw, s, reply).pc, u)
  {
  }

  lemma OnlyGatesArm(cfg: Config, q: Proc, reply: Reply, u: string)
    requires q.pc != Exited && Armed(Resume(cfg, q, reply).pc, u)
    ensures Armed(q.pc, u) || (AtGate(q.pc, u) && reply == Flag(false))
  {
    PasswordsArm(cfg, q, reply, u);
    CodesArm(cfg, q, reply, u);
    OthersNeverArm(cfg, q, reply, u);
    SessionsNeverArm(cfg, q, reply, u);
    FormsNeverArm(cfg, q, reply, u);
    SetupNeverArms(cfg, q, reply, u);
    hide ResumeShell, ResumeRegister, ResumeValidate, ResumeLogout, ResumeSetup, ResumeDisable;
    hide ResumeLogin, ResumeCode, ResumeFinish;
  }

  lemma RecordingTakesTheShot(cfg: Config, q: Proc, reply: Reply, u: string)
    requires q.pc != Exited
    ensures OpOf(cfg, q.pc) == RecordFailure(u) ==> Armed(q.pc, u) && !Armed(Resume(cfg, q, reply).pc, u)
  {
    PasswordsArm(cfg, q, reply, u);
    CodesArm(cfg, q, reply, u);
    hide ResumeShell, ResumeRegister, ResumeValidate, ResumeLogout, ResumeSetup, ResumeDisable;
    hide ResumeLogin, ResumeCode, ResumeFinish;
  }

  lemma SubsetCard(a: set<Pid>, b: set<Pid>)
    requires a <= b
    ensures |a| <= |b|
  {
    if a != {} {
      var x :| x in a;
      SubsetCard(a - {x}, b - {x});
    }
  }

  /** From the moment a block is in place until it ends, the failures recorded in vain plus the
      processes still able to record one never exceed the processes armed at the start. */
  lemma {:induction false} LateFailuresAreInFlight(cfg: Config, pids: set<Pid>, es: seq<Event>, n: nat, u: string)
    requires Ran(cfg, pids, es) && n <= |es|
    requires LockedSince(cfg, pids, es, n, u)
    ensures Ran(cfg, pids, es[..n])
    ensures LateFailures(cfg, pids, es, n, u) + |ArmedPids(After(cfg, pids, es), u)|
            <= |ArmedPids(After(cfg, pids, es[..n]), u)|
    decreases |es|
  {
    hide Answers, Resume, Effect, OpOf, Armed, Locked;
    PrefixRan(cfg, pids, es, n);
    if n == |es| {
      assert es[..n] == es;
    } else {
      SinceSnoc(es, n);
      forall i | n <= i < |Before(es)| ensures Ran(cfg, pids, Before(es)[..i])
        && Locked(After(cfg, pids, Before(es)[..i]), u) {
        assert Before(es)[..i] == es[..i];
      }
      LateFailuresAreInFlight(cfg, pids, Before(es), n, u);
      var w, e := After(cfg, pids, Before(es)), Last(es);
      assert Before(es) == es[..|es| - 1];
      var a, b := ArmedPids(w, u), ArmedPids(After(cfg, pids, es), u);
      match e
      case Tick(_) =>
        assert a == b;
      case Act(p, _, _, _, _) =>
        ArmedShrinks(cfg, w, e, u);
        assert b <= a;
        if LateFailure(w, e, u) {
          assert b <= a - {p};
          SubsetCard(b, a - {p});
        } else {
          SubsetCard(b, a);
        }
    }
  }

  /** With P processes, one block is met by at most P - 1 failures that were already under way
      when it was set: the process that set it is not among them. */
  lemma InFlightBound(cfg: Config, pids: set<Pid>, es: seq<Event>, n: nat, u: string)
    requires Ran(cfg, pids, es) && 0 < n <= |es|
    requires es[n - 1].Act? && es[n - 1].op == RecordFailure(u)
    requires LockedSince(cfg, pids, es, n, u)
    ensures LateFailures(cfg, pids, es, n, u) <= |pids| - 1
  {
    hide Answers, Effect, Locked, LateFailure;
    LateFailuresAreInFlight(cfg, pids, es, n, u);
    PrefixRan(cfg, pids, es, n - 1);
    ProcessesStay(cfg, pids, es[..n - 1]);
    ProcessesStay(cfg, pids, es[..n]);
    var w, e := After(cfg, pids, es[..n - 1]), es[n - 1];
    RecordingDisarms(cfg, w, e, u);
    assert ArmedPids(After(cfg, pids, es[..n]), u) <= pids - {e.p};
    SubsetCard(ArmedPids(After(cfg, pids, es[..n]), u), pids - {e.p});
  }

  lemma RecordingDisarms(cfg: Config, w: World, e: Event, u: string)
    requires Enabled(cfg, w, e) && e.Act? && e.op == RecordFailure(u)
    ensures e.p in w.procs && !Armed(Next(cfg, w, e).procs[e.p].pc, u)
  {
    hide Answers, Effect;
  }

  // ---- The code loop ----

  /** At every event from the `n`th on, and after the last, `p` is in the code loop of the
      challenge `ch`. */
  ghost predicate InCodeLoop(cfg: Config, pids: set<Pid>, es: seq<Event>, n: nat, p: Pid, ch: string) {
    forall i | n <= i <= |es| ::
      Ran(cfg, pids, es[..i]) && p in After(cfg, pids, es[..i]).procs
      && After(cfg, pids, es[..i]).procs[p].pc.Code? && After(cfg, pids, es[..i]).procs[p].pc.ch == ch
  }

  predicate Asks(e: Event, p: Pid) {
    e.Act? && e.p == p && e.pc.Code? && e.pc.c.AskLogin?
  }

  /** How often `p` prompted for a code. */
  function Prompts(es: seq<Event>, p: Pid): nat {
    if es == [] then 0 else Prompts(Before(es), p) + if Asks(Last(es), p) then 1 else 0
  }

  /** The loop's own step: a prompt leaves the prompt, and only an open failure leads back. */
  lemma LoopReply(cfg: Config, q: Proc, ch: string, c: CodePc, reply: Reply)
    requires var r := ResumeCode(cfg, q, ch, c, reply); r.pc.Code? && r.pc.ch == ch
    ensures var r := ResumeCode(cfg, q, ch, c, reply);
            && r.challenges == q.challenges
            && (if r.pc.c.AskLogin? then 1 else 0) <= (if c.CodeFail? && reply == Flag(false) then 1 else 0)
  {
  }

  lemma LoopStep(cfg: Config, w: World, e: Event, p: Pid, ch: string, u: string)
    requires cfg.Lawful() && Consistent(cfg, w) && Enabled(cfg, w, e)
    requires p in w.procs && w.procs[p].pc.Code? && w.procs[p].pc.ch == ch
    requires ch in w.procs[p].challenges && w.procs[p].challenges[ch].userId == u
    requires var q := Next(cfg, w, e).procs[p]; q.pc.Code? && q.pc.ch == ch
    ensures var q, s := Next(cfg, w, e).procs[p], Account(w, u);
            && ch in q.challenges && q.challenges[ch].userId == u
            && (if Asks(e, p) then 1 else 0) + (if q.pc.c.AskLogin? then 1 else 0)
               <= (if w.procs[p].pc.c.AskLogin? then 1 else 0)
                  + Lockout.OpenReplies(s, AccountEvent(e, u), cfg.maxAttempts, cfg.lockoutMs)
  {
    hide Effect, Shared, SetupsInv, TokenInv, ResumeCode, ResumeLogin, ResumeFinish, ResumeSetup, ResumeValidate;
    hide ResumeDisable, ResumeLogout, ResumeRegister, ResumeShell, Lockout.OpenReplies, Lockout.Run;
    assert ProcInv(cfg, w, p, w.procs[p]);
    if e.Act? && e.p == p {
      LoopReply(cfg, w.procs[p], ch, e.pc.c, e.reply);
      if e.pc.c.CodeFail? && e.reply == Flag(false) {
        assert AccountEvent(e, u) == [Lockout.Fail];
        OneEvent(Account(w, u), Lockout.Fail, cfg.maxAttempts, cfg.lockoutMs);
      }
    }
  }

  lemma {:induction false} OpenRepliesConcat(s: Lockout.State, a: seq<Lockout.Event>, b: seq<Lockout.Event>,
    limit: nat, ms: nat)
    ensures Lockout.OpenReplies(s, a + b, limit, ms)
            == Lockout.OpenReplies(s, a, limit, ms) + Lockout.OpenReplies(Lockout.Run(s, a, limit, ms), b, limit, ms)
    decreases |a|
  {
    if a == [] {
      assert a + b == b;
    } else {
      assert (a + b)[0] == a[0] && (a + b)[1..] == a[1..] + b;
      OpenRepliesConcat(Lockout.Step(s, a[0], limit, ms), a[1..], b, limit, ms);
    }
  }

  lemma {:induction false} PromptsFollowOpenReplies(cfg: Config, pids: set<Pid>, es: seq<Event>, n: nat, p: Pid,
    ch: string, u: string)
    requires cfg.Lawful() && Ran(cfg, pids, es) && n <= |es| && InCodeLoop(cfg, pids, es, n, p, ch)
    requires var q := After(cfg, pids, es[..n]).procs[p]; ch in q.challenges && q.challenges[ch].userId == u
    ensures p in After(cfg, pids, es).procs
    ensures var s, q := Account(After(cfg, pids, es[..n]), u), After(cfg, pids, es).procs[p];
            && q.pc.Code? && q.pc.ch == ch
            && ch in q.challenges && q.challenges[ch].userId == u
            && Prompts(Since(es, n), p) + (if q.pc.c.AskLogin? then 1 else 0)
               <= 1 + Lockout.OpenReplies(s, AccountEvents(Since(es, n), u), cfg.maxAttempts, cfg.lockoutMs)
    decreases |es|
  {
    hide Next, Enabled, Lockout.Step, Consistent;
    PrefixRan(cfg, pids, es, n);
    assert es[..|es|] == es;
    if n < |es| {
      SinceSnoc(es, n);
      var prior := Before(es);
      forall i | n <= i <= |prior|
        ensures Ran(cfg, pids, prior[..i]) && p in After(cfg, pids, prior[..i]).procs
                && After(cfg, pids, prior[..i]).procs[p].pc.Code? && After(cfg, pids, prior[..i]).procs[p].pc.ch == ch
      {
        assert prior[..i] == es[..i];
      }
      PromptsFollowOpenReplies(cfg, pids, prior, n, p, ch, u);
      var w, s := After(cfg, pids, prior), Account(After(cfg, pids, es[..n]), u);
      RunsAreConsistent(cfg, pids, prior);
      LoopStep(cfg, w, Last(es), p, ch, u);
      AccountFollows(cfg, pids, prior, n, u);
      OpenRepliesConcat(s, AccountEvents(Since(prior, n), u), AccountEvent(Last(es), u), cfg.maxAttempts,
        cfg.lockoutMs);
    } else {
      assert Since(es, n) == [] && es[..n] == es;
    }
  }

  /** While `p` stays in the code loop of one challenge it prompts at most
      1 + (limit - 1) * (1 + r + e) - c times, where c is the counter when it started and r and e
      are the Resets and block expiries meanwhile; with none of either, at most limit - c times.
      Other processes' failures only use the allowance up faster. */
  lemma CodeLoopPrompts(cfg: Config, pids: set<Pid>, es: seq<Event>, n: nat, p: Pid, ch: string)
    requires cfg.Lawful() && Ran(cfg, pids, es) && n <= |es| && InCodeLoop(cfg, pids, es, n, p, ch)
    ensures ch in After(cfg, pids, es[..n]).procs[p].challenges
    ensures var w := After(cfg, pids, es[..n]);
            var u := w.procs[p].challenges[ch].userId;
            var window := AccountEvents(Since(es, n), u);
            Prompts(Since(es, n), p) + CellOf(w, u).count
            <= 1 + (cfg.maxAttempts - 1)
                   * (1 + Lockout.Resets(window)
                      + Lockout.Expiries(Account(w, u), window, cfg.maxAttempts, cfg.lockoutMs))
  {
    hide Replay, Lockout.Step, Lockout.Run, Lockout.OpenReplies, Lockout.Resets, Lockout.Expiries, Shared, PcInv;
    assert Ran(cfg, pids, es[..n]);
    LoopHasChallenge(cfg, pids, es[..n], p, ch);
    var w := After(cfg, pids, es[..n]);
    var u := w.procs[p].challenges[ch].userId;
    var window := AccountEvents(Since(es, n), u);
    PromptsFollowOpenReplies(cfg, pids, es, n, p, ch, u);
    AccountInvariant(cfg, pids, es[..n], u);
    Lockout.OpenRepliesBound(Account(w, u), window, cfg.maxAttempts, cfg.lockoutMs);
    var q := Lockout.Resets(window) + Lockout.Expiries(Account(w, u), window, cfg.maxAttempts, cfg.lockoutMs);
    Lockout.MulMonotone(cfg.maxAttempts - 1, (if Locked(w, u) then 0 else 1) + q, 1 + q);
  }

  lemma LoopHasChallenge(cfg: Config, pids: set<Pid>, es: seq<Event>, p: Pid, ch: string)
    requires cfg.Lawful() && Ran(cfg, pids, es) && p in After(cfg, pids, es).procs
    requires var pc := After(cfg, pids, es).procs[p].pc; pc.Code? && pc.ch == ch
    ensures ch in After(cfg, pids, es).procs[p].challenges
  {
    hide Replay, Shared, SetupsInv, TokenInv;
    RunsAreConsistent(cfg, pids, es);
    assert ProcInv(cfg, After(cfg, pids, es), p, After(cfg, pids, es).procs[p]);
  }
}
