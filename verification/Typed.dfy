/** What the user typed: the password and the codes that two-factor is turned on and off with are
    the ones given at the prompts for them, in that order. */
module Typed {
  import opened Wrappers
  import opened Tables
  import opened Setups
  import opened Program
  import opened World
  import opened Invariants
  import opened Provenance
  import opened HeldTokens
  import opened Enrolment

  /** The command that validates a session begins with what `why` says. */
  predicate Begins(cfg: Config, pc: Pc, reply: Reply, raw: string, why: Purpose) {
    match why
    case ForWhoAmI => pc == Shell && reply == Cmd(WhoAmI)
    case ForSetup => pc == Shell && reply == Cmd(EnableTwoFactor)
    case ForConfirm(code) => pc == Setup(raw, AskSetup) && reply.Lines? && reply.first == code && !cfg.blank(code)
    case ForDisable(password, code) =>
      && pc == Disabling(OffForm) && reply.Lines? && reply.first == password && reply.second == code
      && password != "" && !cfg.blank(code)
  }

  lemma ShellBegins(cfg: Config, q: Proc, reply: Reply)
    ensures var pc := ResumeShell(q, reply).pc; pc.Validating? ==> Begins(cfg, Shell, reply, pc.raw, pc.why)
  {
  }

  lemma SetupBegins(cfg: Config, q: Proc, reply: Reply)
    ensures forall raw, s :: var pc := ResumeSetup(cfg, q, raw, s, reply).pc;
              pc.Validating? ==> Begins(cfg, Setup(raw, s), reply, pc.raw, pc.why)
  {
  }

  lemma DisableBegins(cfg: Config, q: Proc, reply: Reply)
    ensures forall d :: var pc := ResumeDisable(cfg, q, d, reply).pc;
              pc.Validating? ==> Begins(cfg, Disabling(d), reply, pc.raw, pc.why)
  {
  }

  lemma ValidatingGoesOn(q: Proc, reply: Reply)
    ensures forall raw, why, v :: var pc := ResumeValidate(q, raw, why, v, reply).pc;
              pc.Validating? ==> pc.raw == raw && pc.why == why
  {
  }

  lemma BackToBeginning(cfg: Config, q: Proc, reply: Reply)
    requires q.pc != Exited && Resume(cfg, q, reply).pc.Validating?
    ensures var pc := Resume(cfg, q, reply).pc;
            if q.pc.Validating? then q.pc.raw == pc.raw && q.pc.why == pc.why
            else Begins(cfg, q.pc, reply, pc.raw, pc.why)
  {
    ShellBegins(cfg, q, reply);
    SetupBegins(cfg, q, reply);
    DisableBegins(cfg, q, reply);
    ValidatingGoesOn(q, reply);
    CodesNeverValidate(cfg, q, reply);
    LoginsNeverValidate(cfg, q, reply);
    hide ResumeShell, ResumeRegister, ResumeValidate, ResumeLogout, ResumeSetup, ResumeDisable;
    hide ResumeLogin, ResumeCode, ResumeFinish, Begins;
  }

  lemma {:induction false} ValidationBegan(cfg: Config, pids: set<Pid>, es: seq<Event>, p: Pid) returns (a: nat)
    requires Ran(cfg, pids, es) && p in pids && ProcAfter(cfg, pids, es, p).pc.Validating?
    ensures a < |es| && es[a].Act? && es[a].p == p
    ensures var pc := ProcAfter(cfg, pids, es, p).pc; Begins(cfg, es[a].pc, es[a].reply, pc.raw, pc.why)
    decreases |es|
  {
    hide Resume, Enabled, Replay, Begins;
    var before;
    a, before := Came(cfg, pids, es, p);
    BackToBeginning(cfg, before, es[a].reply);
    if before.pc.Validating? {
      a := ValidationBegan(cfg, pids, es[..a], p);
    }
  }

  /** Every request to turn two-factor off rests on one form: its first line is the password that
      fits the row read, its second the code that matches the secret in it. */
  lemma DisablingWasTyped(cfg: Config, pids: set<Pid>, es: seq<Event>, n: nat, p: Pid)
    returns (o: nat, v: nat, f: nat, c: nat, raw: string, row: UserRow, secret: string)
    requires cfg.Lawful() && Ran(cfg, pids, es) && n < |es|
    requires es[n].Act? && es[n].p == p && p in pids && es[n].op.UnsetTotp?
    ensures o < v < |es| && c < n && es[o].Act? && es[o].p == p && es[o].pc == Disabling(OffForm) && es[o].reply.Lines?
    ensures DisableTrail(cfg, pids, es, v, f, c, p, es[n].op.u, raw, row, es[o].reply.first, es[o].reply.second, secret)
  {
    hide Replay, Resume, Enabled;
    var password, code;
    v, f, c, raw, row, password, code, secret := DisableProvenance(cfg, pids, es, n, p);
    AtItsPc(cfg, pids, es, v);
    o := ValidationBegan(cfg, pids, es[..v], p);
  }

  lemma BackToStamp(cfg: Config, q: Proc, reply: Reply, raw: string, code: string, pending: Pending)
    requires q.pc != Exited && Resume(cfg, q, reply).pc == Setup(raw, CheckSetup(code, pending))
    ensures q.pc.Setup? && q.pc.raw == raw && q.pc.s.StampConfirm? && q.pc.s.code == code && q.pc.s.pending == pending
    ensures reply.Now? && reply.t < pending.expiresAt && !q.pc.s.user.totpEnabled
  {
    LoginsNeverStore(cfg, q, reply);
    OthersNeverStore(cfg, q, reply);
    hide ResumeLogin, ResumeCode, ResumeFinish, ResumeRegister, ResumeLogout, ResumeShell, ResumeDisable;
    DisablingNeverEnrols(cfg, q, reply);
  }

  lemma DisablingNeverEnrols(cfg: Config, q: Proc, reply: Reply)
    ensures forall d :: !ResumeDisable(cfg, q, d, reply).pc.Setup?
  {
  }

  lemma BackToConfirmed(cfg: Config, q: Proc, reply: Reply, raw: string, code: string, user: UserRow, pending: Pending)
    requires q.pc != Exited && Resume(cfg, q, reply).pc == Setup(raw, StampConfirm(code, user, pending))
    ensures q.pc.Validating? && q.pc.raw == raw && q.pc.why == ForConfirm(code) && q.pc.v.FindUser?
    ensures reply == User(user)
  {
    LoginsNeverStore(cfg, q, reply);
    OthersNeverStore(cfg, q, reply);
    DisablingNeverEnrols(cfg, q, reply);
    hide ResumeLogin, ResumeCode, ResumeFinish, ResumeRegister, ResumeLogout, ResumeShell, ResumeDisable;
  }

  /** The code checked during an enrolment is the one typed last. */
  lemma SetupCodeWasTyped(cfg: Config, pids: set<Pid>, es: seq<Event>, d: nat, p: Pid) returns (o: nat)
    requires Ran(cfg, pids, es) && d < |es| && es[d].Act? && es[d].p == p && p in pids
    requires es[d].pc.Setup? && es[d].pc.s.CheckSetup?
    ensures o < d && es[o].Act? && es[o].p == p && es[o].pc == Setup(es[d].pc.raw, AskSetup)
    ensures es[o].reply.Lines? && es[o].reply.first == es[d].pc.s.code
  {
    hide Replay, Resume, Enabled;
    var raw, code, pending := es[d].pc.raw, es[d].pc.s.code, es[d].pc.s.pending;
    AtItsPc(cfg, pids, es, d);
    var a, stamp := Came(cfg, pids, es[..d], p);
    BackToStamp(cfg, stamp, es[..d][a].reply, raw, code, pending);
    assert es[..d][..a] == es[..a];
    var b, accepted := Came(cfg, pids, es[..a], p);
    BackToConfirmed(cfg, accepted, es[..a][b].reply, raw, code, stamp.pc.s.user, pending);
    assert es[..a][..b] == es[..b];
    o := ValidationBegan(cfg, pids, es[..b], p);
  }

  /** While two-factor is on, the stored secret decrypts to the one of the setup that the user
      confirmed by typing a code that matches it. */
  lemma StoredSecretWasTypedFor(cfg: Config, pids: set<Pid>, es: seq<Event>, u: string)
    returns (i: nat, d: nat, o: nat, p: Pid, raw: string, pending: Pending)
    requires cfg.Lawful() && Ran(cfg, pids, es) && IsOn(After(cfg, pids, es), u)
    ensures o < d < i < |es| && LastTurnedOn(cfg, pids, es, i, u) && es[i].p == p
            && Confirms(cfg, es[d], p, raw, pending)
    ensures es[o].Act? && es[o].p == p && es[o].pc == Setup(raw, AskSetup)
    ensures es[o].reply.Lines? && es[o].reply.first == es[d].pc.s.code && pending.userId == u
    ensures var stored := After(cfg, pids, es).tables.users[u].secret;
            stored.Some? && cfg.decrypt(stored.value) == Some(pending.secret)
  {
    hide Replay, TurnsOff;
    i, d, p, raw, pending := StoredSecretWasConfirmed(cfg, pids, es, u);
    ItsProcess(cfg, pids, es, i);
    o := SetupCodeWasTyped(cfg, pids, es, d, p);
  }

  lemma ItsProcess(cfg: Config, pids: set<Pid>, es: seq<Event>, i: nat)
    requires Ran(cfg, pids, es) && i < |es| && es[i].Act?
    ensures es[i].p in pids
  {
    hide Replay, Resume, Effect, Answers, OpOf;
    PrefixRan(cfg, pids, es, i);
    ProcessesStay(cfg, pids, es[..i]);
  }
}
