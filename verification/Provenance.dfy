/** Where an authenticated login comes from: every step a process takes is the answer to its
    previous request, so what it must have been shown can be traced back through the run. */
module Provenance {
  import opened Wrappers
  import opened Tables
  import opened Challenges
  import opened Program
  import opened World
  import opened Invariants
  import Lockout

  /** The state of `p` after a run. */
  ghost function ProcAfter(cfg: Config, pids: set<Pid>, es: seq<Event>, p: Pid): Proc
    requires Ran(cfg, pids, es) && p in pids
  {
    ProcessesStay(cfg, pids, es);
    After(cfg, pids, es).procs[p]
  }

  /** Event `r` is the last of `p` in `es`, and `before` is where it found `p`. */
  ghost predicate LastOf(cfg: Config, pids: set<Pid>, es: seq<Event>, p: Pid, r: nat, before: Proc)
    requires Ran(cfg, pids, es) && p in pids
  {
    && r < |es| && es[r].Act? && es[r].p == p
    && Ran(cfg, pids, es[..r]) && ProcAfter(cfg, pids, es[..r], p) == before
    && Enabled(cfg, After(cfg, pids, es[..r]), es[r])
    && before.pc == es[r].pc && before.pc != Exited
    && ProcAfter(cfg, pids, es, p) == Resume(cfg, before, es[r].reply)
  }

  /** A process that is not where it started has a last event, and that event put it there. */
  lemma {:induction false} Came(cfg: Config, pids: set<Pid>, es: seq<Event>, p: Pid) returns (r: nat, before: Proc)
    requires Ran(cfg, pids, es) && p in pids && ProcAfter(cfg, pids, es, p) != STARTED
    ensures LastOf(cfg, pids, es, p, r, before)
    decreases |es|
  {
    hide Resume, Effect, Answers, OpOf;
    ProcessesStay(cfg, pids, es);
    var prior, e := Before(es), Last(es);
    ProcessesStay(cfg, pids, prior);
    if e.Act? && e.p == p {
      r, before := |es| - 1, ProcAfter(cfg, pids, prior, p);
      assert es[..r] == prior;
    } else {
      r, before := Came(cfg, pids, prior, p);
      assert prior[..r] == es[..r];
    }
  }

  // ---- One step back ----

  /** Inside a login, past its form. */
  predicate InLogin(pc: Pc) {
    (pc.LoggingIn? && !pc.l.LoginForm?) || pc.Code? || pc.Finish?
  }

  lemma OthersStayOut(cfg: Config, q: Proc, reply: Reply)
    ensures !InLogin(ResumeShell(q, reply).pc)
    ensures forall r :: !InLogin(ResumeRegister(cfg, q, r, reply).pc)
    ensures forall raw, o :: !InLogin(ResumeLogout(q, raw, o, reply).pc)
  {
  }

  lemma ValidatingStaysOut(cfg: Config, q: Proc, reply: Reply)
    ensures forall raw, why, v :: !InLogin(ResumeValidate(q, raw, why, v, reply).pc)
    ensures forall d :: !InLogin(ResumeDisable(cfg, q, d, reply).pc)
  {
  }

  lemma EnrollingStaysOut(cfg: Config, q: Proc, reply: Reply)
    ensures forall raw, s :: !InLogin(ResumeSetup(cfg, q, raw, s, reply).pc)
  {
  }

  /** Only a login leads into a login, one part into the next. */
  lemma LoginsComeFromLogins(cfg: Config, q: Proc, reply: Reply)
    requires q.pc != Exited && InLogin(Resume(cfg, q, reply).pc)
    ensures q.pc.LoggingIn? || q.pc.Code? || q.pc.Finish?
  {
    hide ResumeShell, ResumeRegister, ResumeValidate, ResumeLogout, ResumeSetup, ResumeDisable;
    hide ResumeLogin, ResumeCode, ResumeFinish;
    OthersStayOut(cfg, q, reply);
    ValidatingStaysOut(cfg, q, reply);
    EnrollingStaysOut(cfg, q, reply);
  }

  lemma PasswordsLead(cfg: Config, q: Proc, reply: Reply)
    ensures forall l :: var r := ResumeLogin(cfg, q, l, reply);
              (r.pc.Code? ==> r.pc.c.AskLogin?) && (r.pc.Finish? ==> r.pc.f.ClearCounter?)
  {
  }

  lemma CodesLead(cfg: Config, q: Proc, reply: Reply)
    ensures forall ch, c :: var r := ResumeCode(cfg, q, ch, c, reply);
              !r.pc.LoggingIn? && (r.pc.Finish? ==> r.pc.f.ClearCounter?)
  {
  }

  lemma FinishingLeads(q: Proc, reply: Reply)
    ensures forall u, via, f :: var r := ResumeFinish(q, u, via, f, reply);
              !r.pc.LoggingIn? && !r.pc.Code? && (r.pc.Finish? ==> !r.pc.f.ClearCounter?)
  {
  }

  /** What one part of a login cannot lead to. */
  lemma LoginsLead(cfg: Config, q: Proc, reply: Reply)
    requires q.pc != Exited && InLogin(Resume(cfg, q, reply).pc)
    ensures q.pc.LoggingIn? || q.pc.Code? || q.pc.Finish?
    ensures q.pc.Finish? ==> Resume(cfg, q, reply).pc.Finish? && !Resume(cfg, q, reply).pc.f.ClearCounter?
    ensures q.pc.Code? ==>
              !Resume(cfg, q, reply).pc.LoggingIn?
              && (Resume(cfg, q, reply).pc.Finish? ==> Resume(cfg, q, reply).pc.f.ClearCounter?)
    ensures q.pc.LoggingIn? ==>
              && (Resume(cfg, q, reply).pc.Code? ==> Resume(cfg, q, reply).pc.c.AskLogin?)
              && (Resume(cfg, q, reply).pc.Finish? ==> Resume(cfg, q, reply).pc.f.ClearCounter?)
  {
    hide ResumeShell, ResumeRegister, ResumeValidate, ResumeLogout, ResumeSetup, ResumeDisable;
    hide ResumeLogin, ResumeCode, ResumeFinish;
    LoginsComeFromLogins(cfg, q, reply);
    PasswordsLead(cfg, q, reply);
    CodesLead(cfg, q, reply);
    FinishingLeads(q, reply);
  }

  lemma BackToForm(cfg: Config, q: Proc, reply: Reply, name: string, password: string)
    requires q.pc != Exited && Resume(cfg, q, reply).pc == LoggingIn(LoginFind(name, password))
    ensures q.pc == LoggingIn(LoginForm) && reply.Lines? && cfg.normalize(reply.first) == name
            && reply.second == password
  {
    hide ResumeShell, ResumeRegister, ResumeValidate, ResumeLogout, ResumeSetup, ResumeDisable;
    hide ResumeCode, ResumeFinish;
    LoginsLead(cfg, q, reply);
  }

  lemma BackToFind(cfg: Config, q: Proc, reply: Reply, row: UserRow, password: string)
    requires q.pc != Exited && Resume(cfg, q, reply).pc == LoggingIn(LoginGate(row, password))
    ensures q.pc.LoggingIn? && q.pc.l.LoginFind? && q.pc.l.password == password && reply == User(row)
  {
    hide ResumeShell, ResumeRegister, ResumeValidate, ResumeLogout, ResumeSetup, ResumeDisable;
    hide ResumeCode, ResumeFinish;
    LoginsLead(cfg, q, reply);
  }

  lemma BackToGate(cfg: Config, q: Proc, reply: Reply, u: string)
    requires q.pc != Exited && Resume(cfg, q, reply).pc == LoggingIn(NewChallenge(u))
    ensures q.pc.LoggingIn? && q.pc.l.LoginGate? && reply == Flag(false)
    ensures q.pc.l.row.id == u && q.pc.l.row.totpEnabled && cfg.passwordOk(q.pc.l.row.passwordHash, q.pc.l.password)
  {
    hide ResumeShell, ResumeRegister, ResumeValidate, ResumeLogout, ResumeSetup, ResumeDisable;
    hide ResumeCode, ResumeFinish;
    LoginsLead(cfg, q, reply);
  }

  lemma BackToNewChallenge(cfg: Config, q: Proc, reply: Reply, u: string, id: string)
    requires q.pc != Exited && Resume(cfg, q, reply).pc == LoggingIn(StampChallenge(u, id))
    ensures q.pc == LoggingIn(NewChallenge(u)) && reply == Fresh(id)
  {
    hide ResumeShell, ResumeRegister, ResumeValidate, ResumeLogout, ResumeSetup, ResumeDisable;
    hide ResumeCode, ResumeFinish;
    LoginsLead(cfg, q, reply);
  }

  /** Into the code loop from outside, or around it. */
  lemma BackFromCode(cfg: Config, q: Proc, reply: Reply, ch: string)
    requires q.pc != Exited && Resume(cfg, q, reply).pc.Code? && Resume(cfg, q, reply).pc.ch == ch
    ensures || (q.pc.Code? && q.pc.ch == ch && Resume(cfg, q, reply).challenges == q.challenges)
            || (&& q.pc.LoggingIn? && q.pc.l.StampChallenge? && q.pc.l.id == ch && reply.Now?
                && ch in Resume(cfg, q, reply).challenges
                && Resume(cfg, q, reply).challenges[ch] == Challenge(q.pc.l.u, reply.t + cfg.challengeTimeout))
  {
    hide ResumeShell, ResumeRegister, ResumeValidate, ResumeLogout, ResumeSetup, ResumeDisable;
    hide ResumeFinish;
    LoginsLead(cfg, q, reply);
  }

  lemma BackToAsk(cfg: Config, q: Proc, reply: Reply, ch: string, code: string)
    requires q.pc != Exited && Resume(cfg, q, reply).pc == Code(ch, StampLookup(code))
    ensures q.pc == Code(ch, AskLogin) && reply.Lines? && reply.first == code
  {
    hide ResumeShell, ResumeRegister, ResumeValidate, ResumeLogout, ResumeSetup, ResumeDisable;
    hide ResumeLogin, ResumeFinish;
    LoginsLead(cfg, q, reply);
  }

  lemma BackToLookup(cfg: Config, q: Proc, reply: Reply, ch: string, code: string, u: string)
    requires q.pc != Exited && Resume(cfg, q, reply).pc == Code(ch, FindOwner(code, u))
    ensures q.pc == Code(ch, StampLookup(code)) && ch in q.challenges && q.challenges[ch].userId == u
    ensures reply.Now? && reply.t < q.challenges[ch].expiresAt
  {
    hide ResumeShell, ResumeRegister, ResumeValidate, ResumeLogout, ResumeSetup, ResumeDisable;
    hide ResumeLogin, ResumeFinish;
    LoginsLead(cfg, q, reply);
  }

  lemma BackToOwner(cfg: Config, q: Proc, reply: Reply, ch: string, code: string, row: UserRow)
    requires q.pc != Exited && Resume(cfg, q, reply).pc == Code(ch, CodeGate(code, row))
    ensures q.pc.Code? && q.pc.ch == ch && q.pc.c.FindOwner? && q.pc.c.code == code && reply == User(row)
  {
    hide ResumeShell, ResumeRegister, ResumeValidate, ResumeLogout, ResumeSetup, ResumeDisable;
    hide ResumeLogin, ResumeFinish;
    LoginsLead(cfg, q, reply);
  }

  lemma BackToCodeGate(cfg: Config, q: Proc, reply: Reply, ch: string, u: string, secret: string, code: string)
    requires q.pc != Exited && Resume(cfg, q, reply).pc == Code(ch, CheckLogin(u, secret, code))
    ensures q.pc.Code? && q.pc.ch == ch && q.pc.c.CodeGate? && q.pc.c.code == code && reply == Flag(false)
    ensures q.pc.c.row.id == u && q.pc.c.row.totpEnabled && q.pc.c.row.secret.Some?
    ensures cfg.decrypt(q.pc.c.row.secret.value) == Some(secret)
  {
    hide ResumeShell, ResumeRegister, ResumeValidate, ResumeLogout, ResumeSetup, ResumeDisable;
    hide ResumeLogin, ResumeFinish;
    LoginsLead(cfg, q, reply);
  }

  /** A login begins to finish for one of two reasons. */
  lemma BackFromClearCounter(cfg: Config, q: Proc, reply: Reply, u: string, via: Option<string>)
    requires q.pc != Exited && Resume(cfg, q, reply).pc == Finish(u, via, ClearCounter)
    ensures match via
            case None =>
              && q.pc.LoggingIn? && q.pc.l.LoginGate? && reply == Flag(false)
              && q.pc.l.row.id == u && !q.pc.l.row.totpEnabled
                 && cfg.passwordOk(q.pc.l.row.passwordHash, q.pc.l.password)
            case Some(ch) =>
              && q.pc.Code? && q.pc.ch == ch && q.pc.c.CheckLogin? && q.pc.c.u == u && reply.Now?
              && cfg.checkCode(q.pc.c.secret, q.pc.c.code, reply.t) == Match
  {
    hide ResumeShell, ResumeRegister, ResumeValidate, ResumeLogout, ResumeSetup, ResumeDisable;
    hide ResumeFinish;
    LoginsLead(cfg, q, reply);
  }

  lemma BackFromFinish(cfg: Config, q: Proc, reply: Reply, u: string, via: Option<string>)
    requires q.pc != Exited
    requires var pc := Resume(cfg, q, reply).pc; pc.Finish? && pc.u == u && pc.via == via && !pc.f.ClearCounter?
    ensures q.pc.Finish? && q.pc.u == u && q.pc.via == via && Resume(cfg, q, reply).challenges == q.challenges
  {
    hide ResumeShell, ResumeRegister, ResumeValidate, ResumeLogout, ResumeSetup, ResumeDisable;
    hide ResumeLogin, ResumeCode;
    LoginsLead(cfg, q, reply);
  }

  // ---- What a login must have been shown ----

  /** Event `e` is `p` getting `reply` while waiting at `pc`. */
  predicate Heard(e: Event, p: Pid, pc: Pc, reply: Reply) {
    e.Act? && e.p == p && e.pc == pc && e.reply == reply
  }

  /** `p` was given a name and a password at `i` and then, at `j`, the row of that name. */
  ghost predicate Identified(cfg: Config, es: seq<Event>, i: nat, j: nat, p: Pid, row: UserRow, password: string) {
    && i < j < |es|
    && es[i].Act? && es[i].p == p && es[i].pc == LoggingIn(LoginForm) && es[i].reply.Lines?
       && es[i].reply.second == password
    && Heard(es[j], p, LoggingIn(LoginFind(cfg.normalize(es[i].reply.first), password)), User(row))
  }

  /** At `k`, `p` had a password that fits the row of `u`, with two-factor as `twoFactor` says,
      and was told that `u` is not blocked. */
  ghost predicate PasswordShown(cfg: Config, es: seq<Event>, k: nat, p: Pid, u: string, twoFactor: bool) {
    exists i: nat, j: nat, row: UserRow, password: string ::
      && Identified(cfg, es, i, j, p, row, password)
      && j < k < |es| && Heard(es[k], p, LoggingIn(LoginGate(row, password)), Flag(false))
      && row.id == u && row.totpEnabled == twoFactor && cfg.passwordOk(row.passwordHash, password)
  }

  /** At `m`, `p` issued the challenge `ch` to `u`, good until `until`, after a password match. */
  ghost predicate ChallengeIssued(cfg: Config, es: seq<Event>, m: nat, p: Pid, ch: string, u: string, until: Time) {
    && m < |es| && es[m].Act? && es[m].p == p && es[m].pc == LoggingIn(StampChallenge(u, ch))
    && es[m].reply.Now? && until == es[m].reply.t + cfg.challengeTimeout
    && exists k: nat :: k < m && PasswordShown(cfg, es, k, p, u, true)
  }

  /** A code comes in at `a`, the challenge is still good at `b`, the owner's row is read at `c`,
      the owner is not blocked at `g`, and the code matches the row's secret at `d`. */
  ghost predicate CodeTrail(cfg: Config, es: seq<Event>, a: nat, b: nat, c: nat, g: nat, d: nat,
                            p: Pid, ch: string, u: string, until: Time, code: string, row: UserRow, secret: string)
  {
    && a < b < c < g < d < |es|
    && es[a].Act? && es[a].p == p && es[a].pc == Code(ch, AskLogin) && es[a].reply.Lines? && es[a].reply.first == code
    && es[b].Act? && es[b].p == p && es[b].pc == Code(ch, StampLookup(code)) && es[b].reply.Now?
       && es[b].reply.t < until
    && Heard(es[c], p, Code(ch, FindOwner(code, u)), User(row))
    && Heard(es[g], p, Code(ch, CodeGate(code, row)), Flag(false))
    && row.totpEnabled && row.secret.Some? && cfg.decrypt(row.secret.value) == Some(secret)
    && es[d].Act? && es[d].p == p && es[d].pc == Code(ch, CheckLogin(u, secret, code)) && es[d].reply.Now?
    && cfg.checkCode(secret, code, es[d].reply.t) == Match
  }

  /** At `d`, `p` had a code that matches the secret in the row of `u` it had just read, for a
      challenge that had not expired when the code came in. */
  ghost predicate CodeShown(cfg: Config, es: seq<Event>, d: nat, p: Pid, ch: string, u: string, until: Time) {
    exists a: nat, b: nat, c: nat, g: nat, code: string, row: UserRow, secret: string ::
      CodeTrail(cfg, es, a, b, c, g, d, p, ch, u, until, code, row, secret)
  }

  lemma PasswordShownLater(cfg: Config, es: seq<Event>, n: nat, k: nat, p: Pid, u: string, twoFactor: bool)
    requires n <= |es| && PasswordShown(cfg, es[..n], k, p, u, twoFactor)
    ensures PasswordShown(cfg, es, k, p, u, twoFactor)
  {
    var i: nat, j: nat, row, password :|
      && Identified(cfg, es[..n], i, j, p, row, password)
      && j < k < n && Heard(es[..n][k], p, LoggingIn(LoginGate(row, password)), Flag(false))
      && row.id == u && row.totpEnabled == twoFactor && cfg.passwordOk(row.passwordHash, password);
    assert Identified(cfg, es, i, j, p, row, password);
  }

  lemma ChallengeIssuedLater(cfg: Config, es: seq<Event>, n: nat, m: nat, p: Pid, ch: string, u: string, until: Time)
    requires n <= |es| && ChallengeIssued(cfg, es[..n], m, p, ch, u, until)
    ensures ChallengeIssued(cfg, es, m, p, ch, u, until)
  {
    var k: nat :| k < m && PasswordShown(cfg, es[..n], k, p, u, true);
    PasswordShownLater(cfg, es, n, k, p, u, true);
  }

  lemma IdentifiedAt(cfg: Config, pids: set<Pid>, es: seq<Event>, p: Pid, row: UserRow, password: string)
    returns (i: nat, j: nat)
    requires Ran(cfg, pids, es) && p in pids && ProcAfter(cfg, pids, es, p).pc == LoggingIn(LoginGate(row, password))
    ensures Identified(cfg, es, i, j, p, row, password)
  {
    hide Resume, Enabled, Replay;
    var before;
    j, before := Came(cfg, pids, es, p);
    BackToFind(cfg, before, es[j].reply, row, password);
    var mid;
    i, mid := Came(cfg, pids, es[..j], p);
    BackToForm(cfg, mid, es[..j][i].reply, before.pc.l.name, password);
  }

  lemma PasswordShownAt(cfg: Config, pids: set<Pid>, es: seq<Event>, p: Pid, r: nat, before: Proc, u: string,
    twoFactor: bool)
    requires Ran(cfg, pids, es) && p in pids && LastOf(cfg, pids, es, p, r, before)
    requires before.pc.LoggingIn? && before.pc.l.LoginGate? && es[r].reply == Flag(false)
    requires before.pc.l.row.id == u && before.pc.l.row.totpEnabled == twoFactor
    requires cfg.passwordOk(before.pc.l.row.passwordHash, before.pc.l.password)
    ensures PasswordShown(cfg, es, r, p, u, twoFactor)
  {
    hide Resume, Enabled, Replay;
    var row, password := before.pc.l.row, before.pc.l.password;
    var i, j := IdentifiedAt(cfg, pids, es[..r], p, row, password);
    assert Identified(cfg, es, i, j, p, row, password);
  }

  /** A process in the code loop has issued the challenge it is working on. */
  lemma {:induction false} ChallengeIssuedAt(cfg: Config, pids: set<Pid>, es: seq<Event>, p: Pid, ch: string)
    returns (m: nat)
    requires Ran(cfg, pids, es) && p in pids
    requires var q := ProcAfter(cfg, pids, es, p); q.pc.Code? && q.pc.ch == ch && ch in q.challenges
    ensures var c := ProcAfter(cfg, pids, es, p).challenges[ch];
            m < |es| && ChallengeIssued(cfg, es, m, p, ch, c.userId, c.expiresAt)
    decreases |es|
  {
    hide Resume, Enabled, Replay, PasswordShown;
    var r, before := Came(cfg, pids, es, p);
    BackFromCode(cfg, before, es[r].reply, ch);
    var c := ProcAfter(cfg, pids, es, p).challenges[ch];
    if before.pc.Code? {
      m := ChallengeIssuedAt(cfg, pids, es[..r], p, ch);
      ChallengeIssuedLater(cfg, es, r, m, p, ch, c.userId, c.expiresAt);
    } else {
      m := r;
      var u := before.pc.l.u;
      var g, atNew := Came(cfg, pids, es[..r], p);
      BackToNewChallenge(cfg, atNew, es[..r][g].reply, u, ch);
      var k, atGate := Came(cfg, pids, es[..r][..g], p);
      BackToGate(cfg, atGate, es[..r][..g][k].reply, u);
      PasswordShownAt(cfg, pids, es[..r][..g], p, k, atGate, u, true);
      PasswordShownLater(cfg, es[..r], g, k, p, u, true);
      PasswordShownLater(cfg, es, r, k, p, u, true);
    }
  }

  lemma CodeShownAt(cfg: Config, pids: set<Pid>, es: seq<Event>, p: Pid, d: nat, q: Proc, ch: string, u: string)
    requires cfg.Lawful() && Ran(cfg, pids, es) && p in pids && LastOf(cfg, pids, es, p, d, q)
    requires q.pc.Code? && q.pc.ch == ch && q.pc.c.CheckLogin? && q.pc.c.u == u && es[d].reply.Now?
    requires cfg.checkCode(q.pc.c.secret, q.pc.c.code, es[d].reply.t) == Match
    requires ch in q.challenges && q.challenges[ch].userId == u
    ensures CodeShown(cfg, es, d, p, ch, u, q.challenges[ch].expiresAt)
  {
    hide Resume, Enabled, Replay;
    var secret, code := q.pc.c.secret, q.pc.c.code;
    var g, atGate := Came(cfg, pids, es[..d], p);
    BackToCodeGate(cfg, atGate, es[..d][g].reply, ch, u, secret, code);
    BackFromCode(cfg, atGate, es[..d][g].reply, ch);
    var row := atGate.pc.c.row;
    var c, atFind := Came(cfg, pids, es[..d][..g], p);
    BackToOwner(cfg, atFind, es[..d][..g][c].reply, ch, code, row);
    BackFromCode(cfg, atFind, es[..d][..g][c].reply, ch);
    var b, atLookup := Came(cfg, pids, es[..d][..g][..c], p);
    BackToLookup(cfg, atLookup, es[..d][..g][..c][b].reply, ch, code, atFind.pc.c.u);
    BackFromCode(cfg, atLookup, es[..d][..g][..c][b].reply, ch);
    var a, atAsk := Came(cfg, pids, es[..d][..g][..c][..b], p);
    BackToAsk(cfg, atAsk, es[..d][..g][..c][..b][a].reply, ch, code);
    assert es[..d][..g][..c][..b][a] == es[a] && es[..d][..g][..c][b] == es[b] && es[..d][..g][c] == es[c]
           && es[..d][g] == es[g];
    assert CodeTrail(cfg, es, a, b, c, g, d, p, ch, u, q.challenges[ch].expiresAt, code, row, secret);
  }

  /** Walking back from the end of a login to where it began to finish. */
  lemma {:induction false} FinishBegan(cfg: Config, pids: set<Pid>, es: seq<Event>, p: Pid, u: string,
    via: Option<string>)
    returns (d: nat, before: Proc)
    requires Ran(cfg, pids, es) && p in pids
    requires var q := ProcAfter(cfg, pids, es, p); q.pc.Finish? && q.pc.u == u && q.pc.via == via
    ensures d < |es| && Ran(cfg, pids, es[..d + 1]) && LastOf(cfg, pids, es[..d + 1], p, d, before)
    ensures ProcAfter(cfg, pids, es[..d + 1], p).pc == Finish(u, via, ClearCounter)
    decreases |es|
  {
    hide Resume, Enabled, Replay;
    var r, q := Came(cfg, pids, es, p);
    if ProcAfter(cfg, pids, es, p).pc.f.ClearCounter? {
      d, before := r, q;
      PrefixRan(cfg, pids, es, r);
      assert es[..r + 1][..r] == es[..r];
      EndsAt(cfg, pids, es, p, r, q);
    } else {
      BackFromFinish(cfg, q, es[r].reply, u, via);
      d, before := FinishBegan(cfg, pids, es[..r], p, u, via);
      assert es[..r][..d + 1] == es[..d + 1];
    }
  }

  /** The last event of `p` already puts it where it is in the end. */
  lemma EndsAt(cfg: Config, pids: set<Pid>, es: seq<Event>, p: Pid, r: nat, q: Proc)
    requires Ran(cfg, pids, es) && p in pids && LastOf(cfg, pids, es, p, r, q)
    ensures Ran(cfg, pids, es[..r + 1]) && LastOf(cfg, pids, es[..r + 1], p, r, q)
    ensures ProcAfter(cfg, pids, es[..r + 1], p) == ProcAfter(cfg, pids, es, p)
  {
    hide Resume, Enabled, Effect, Replay;
    PrefixRan(cfg, pids, es, r);
    ProcessesStay(cfg, pids, es[..r]);
    assert es[..r + 1][..r] == es[..r];
    assert After(cfg, pids, es[..r + 1]) == Next(cfg, After(cfg, pids, es[..r]), es[r]);
  }

  /** Login provenance. A login that `p` completes for `u` was preceded, in the events of `p`
      alone, by a password match for `u` and then either by nothing else, when the row read had
      two-factor off, or by a challenge issued after that match, not yet expired when a code came
      in that matches the secret in the row of `u` read for it. */
  lemma LoginProvenance(cfg: Config, pids: set<Pid>, es: seq<Event>, n: nat, p: Pid, u: string, via: Option<string>)
    requires cfg.Lawful() && Ran(cfg, pids, es) && n < |es|
    requires es[n].Act? && es[n].p == p && p in pids && es[n].reply == Done
    requires es[n].pc.Finish? && es[n].pc.f.CommitRow? && es[n].pc.u == u && es[n].pc.via == via
    ensures match via
            case None => exists k: nat :: k < n && PasswordShown(cfg, es, k, p, u, false)
            case Some(ch) =>
              exists m: nat, d: nat, until: Time ::
                m < d < n && ChallengeIssued(cfg, es, m, p, ch, u, until) && CodeShown(cfg, es, d, p, ch, u, until)
  {
    hide Resume, Enabled, Replay, PasswordShown, ChallengeIssued, CodeShown;
    PrefixRan(cfg, pids, es, n);
    AtItsPc(cfg, pids, es, n);
    var d, before := FinishBegan(cfg, pids, es[..n], p, u, via);
    assert es[..n][..d + 1] == es[..d + 1] && es[..d + 1][d] == es[d] && es[..d + 1][..d] == es[..d];
    BackFromClearCounter(cfg, before, es[d].reply, u, via);
    match via
    case None =>
      PasswordShownAt(cfg, pids, es[..d + 1], p, d, before, u, false);
      PasswordShownLater(cfg, es, d + 1, d, p, u, false);
    case Some(ch) =>
      ChallengeOwner(cfg, pids, es[..d], p);
      var m := ChallengeIssuedAt(cfg, pids, es[..d], p, ch);
      var until := before.challenges[ch].expiresAt;
      CodeShownAt(cfg, pids, es[..d + 1], p, d, before, ch, u);
      ChallengeIssuedLater(cfg, es, d, m, p, ch, u, until);
      CodeShownLater(cfg, es, d + 1, d, p, ch, u, until);
  }

  lemma AtItsPc(cfg: Config, pids: set<Pid>, es: seq<Event>, n: nat)
    requires Ran(cfg, pids, es) && n < |es| && es[n].Act? && es[n].p in pids
    ensures Ran(cfg, pids, es[..n]) && ProcAfter(cfg, pids, es[..n], es[n].p).pc == es[n].pc
  {
    hide Resume, Effect, Answers, OpOf, Replay;
    PrefixRan(cfg, pids, es, n);
    ProcessesStay(cfg, pids, es[..n]);
  }

  lemma ChallengeOwner(cfg: Config, pids: set<Pid>, es: seq<Event>, p: Pid)
    requires cfg.Lawful() && Ran(cfg, pids, es) && p in pids
    requires ProcAfter(cfg, pids, es, p).pc.Code?
    ensures var q := ProcAfter(cfg, pids, es, p);
            q.pc.ch in q.challenges && (q.pc.c.CheckLogin? ==> q.challenges[q.pc.ch].userId == q.pc.c.u)
  {
    hide Replay, Shared, SetupsInv, TokenInv;
    RunsAreConsistent(cfg, pids, es);
    ProcessesStay(cfg, pids, es);
    assert ProcInv(cfg, After(cfg, pids, es), p, After(cfg, pids, es).procs[p]);
  }

  lemma TrailLater(cfg: Config, es: seq<Event>, n: nat, a: nat, b: nat, c: nat, g: nat, d: nat,
                   p: Pid, ch: string, u: string, until: Time, code: string, row: UserRow, secret: string)
    requires n <= |es| && CodeTrail(cfg, es[..n], a, b, c, g, d, p, ch, u, until, code, row, secret)
    ensures CodeTrail(cfg, es, a, b, c, g, d, p, ch, u, until, code, row, secret)
  {
    assert es[..n][a] == es[a] && es[..n][b] == es[b] && es[..n][c] == es[c];
    assert es[..n][g] == es[g] && es[..n][d] == es[d];
  }

  lemma CodeShownLater(cfg: Config, es: seq<Event>, n: nat, d: nat, p: Pid, ch: string, u: string, until: Time)
    requires n <= |es| && CodeShown(cfg, es[..n], d, p, ch, u, until)
    ensures CodeShown(cfg, es, d, p, ch, u, until)
  {
    hide CodeTrail;
    var a: nat, b: nat, c: nat, g: nat, code, row, secret :|
      CodeTrail(cfg, es[..n], a, b, c, g, d, p, ch, u, until, code, row, secret);
    TrailLater(cfg, es, n, a, b, c, g, d, p, ch, u, until, code, row, secret);
  }

  // ---- A challenge is good for one login ----

  /** Event `e` completes a login through the challenge `ch`. */
  predicate Redeems(e: Event, ch: string) {
    e.Act? && e.pc.Finish? && e.pc.via == Some(ch) && e.pc.f.CommitRow? && e.reply.Done?
  }

  /** The challenge is nowhere, and can never be issued again. */
  ghost predicate Gone(w: World, ch: string) {
    && ch in w.minted
    && forall p | p in w.procs ::
         ch !in w.procs[p].challenges
           && !(w.procs[p].pc.LoggingIn? && w.procs[p].pc.l.StampChallenge? && w.procs[p].pc.l.id == ch)
  }

  lemma ChallengesComeFromTokens(cfg: Config, q: Proc, reply: Reply, ch: string)
    requires q.pc != Exited
    ensures var r := Resume(cfg, q, reply);
            && (ch in r.challenges ==>
                  ch in q.challenges || (q.pc.LoggingIn? && q.pc.l.StampChallenge? && q.pc.l.id == ch))
            && (r.pc.LoggingIn? && r.pc.l.StampChallenge? && r.pc.l.id == ch ==>
                  q.pc.LoggingIn? && q.pc.l.NewChallenge? && reply == Fresh(ch))
  {
    OthersKeepChallenges(cfg, q, reply);
    TwoFactorKeepsChallenges(cfg, q, reply);
    LoginsKeepChallenges(cfg, q, reply);
    PasswordsAddOne(cfg, q, reply);
    hide ResumeShell, ResumeRegister, ResumeValidate, ResumeLogout, ResumeSetup, ResumeDisable;
    hide ResumeLogin, ResumeCode, ResumeFinish;
    var r := Resume(cfg, q, reply);
    if r.pc.LoggingIn? && r.pc.l.StampChallenge? {
      BackToNewChallenge(cfg, q, reply, r.pc.l.u, r.pc.l.id);
    }
  }

  lemma PasswordsAddOne(cfg: Config, q: Proc, reply: Reply)
    ensures forall l :: ResumeLogin(cfg, q, l, reply).challenges.Keys
                        <= q.challenges.Keys + if l.StampChallenge? then {l.id} else {}
  {
  }

  lemma LoginsKeepChallenges(cfg: Config, q: Proc, reply: Reply)
    ensures forall ch, c :: ResumeCode(cfg, q, ch, c, reply).challenges.Keys <= q.challenges.Keys
    ensures forall u, via, f :: ResumeFinish(q, u, via, f, reply).challenges.Keys <= q.challenges.Keys
  {
  }

  lemma OthersKeepChallenges(cfg: Config, q: Proc, reply: Reply)
    ensures ResumeShell(q, reply).challenges.Keys <= q.challenges.Keys
    ensures forall r :: ResumeRegister(cfg, q, r, reply).challenges.Keys <= q.challenges.Keys
    ensures forall raw, o :: ResumeLogout(q, raw, o, reply).challenges.Keys <= q.challenges.Keys
  {
  }

  lemma TwoFactorKeepsChallenges(cfg: Config, q: Proc, reply: Reply)
    ensures forall raw, s :: ResumeSetup(cfg, q, raw, s, reply).challenges.Keys <= q.challenges.Keys
    ensures forall d :: ResumeDisable(cfg, q, d, reply).challenges.Keys <= q.challenges.Keys
    ensures forall raw, why, v :: ResumeValidate(q, raw, why, v, reply).challenges.Keys <= q.challenges.Keys
  {
  }

  lemma GoneStays(cfg: Config, w: World, e: Event, ch: string)
    requires Enabled(cfg, w, e) && Gone(w, ch)
    ensures Gone(Next(cfg, w, e), ch)
  {
    hide Resume;
    if e.Act? {
      ChallengesComeFromTokens(cfg, w.procs[e.p], e.reply, ch);
      MintedStays(cfg, w, e, ch);
    }
  }

  lemma MintedStays(cfg: Config, w: World, e: Event, t: string)
    requires Enabled(cfg, w, e) && t in w.minted
    ensures t in Next(cfg, w, e).minted
    ensures e.Act? && e.op.NewToken? ==> e.reply != Fresh(t)
  {
    hide Resume, Answers, OpOf, CommitLogin, EnableTotp, DisableTotp, CreateUser, Revoke, DeleteExpired, Lockout.Record;
    if e.Act? && e.op.NewToken? && e.reply.Fresh? {
      TokensAreNew(cfg, w, e);
    }
  }

  lemma TokensAreNew(cfg: Config, w: World, e: Event)
    requires e.Act? && Enabled(cfg, w, e) && e.op.NewToken? && e.reply.Fresh?
    ensures e.reply.text !in w.minted
  {
    hide Resume, OpOf;
  }

  lemma RedeemedIsGone(cfg: Config, w: World, e: Event, ch: string)
    requires Consistent(cfg, w) && Enabled(cfg, w, e) && Redeems(e, ch)
    ensures Gone(Next(cfg, w, e), ch)
  {
    hide Answers, Shared, SetupsInv, TokenInv, PcInv;
    assert ProcInv(cfg, w, e.p, w.procs[e.p]);
    forall p | p in w.procs && p != e.p
      ensures ch !in w.procs[p].challenges
              && !(w.procs[p].pc.LoggingIn? && w.procs[p].pc.l.StampChallenge? && w.procs[p].pc.l.id == ch)
    {
      assert ProcInv(cfg, w, p, w.procs[p]);
      if w.procs[p].pc.LoggingIn? && w.procs[p].pc.l.StampChallenge? {
        StampedIsOwn(cfg, w, p, w.procs[p]);
      }
    }
  }

  lemma StampedIsOwn(cfg: Config, w: World, p: Pid, q: Proc)
    requires PcInv(cfg, w, p, q) && q.pc.LoggingIn? && q.pc.l.StampChallenge?
    ensures q.pc.l.id in w.minted && w.minted[q.pc.l.id] == p
  {
  }

  lemma {:induction false} GoneSince(cfg: Config, pids: set<Pid>, es: seq<Event>, i: nat, ch: string)
    requires cfg.Lawful() && Ran(cfg, pids, es) && i < |es| && Redeems(es[i], ch)
    ensures Gone(After(cfg, pids, es), ch)
    decreases |es|
  {
    hide Next, Enabled, Consistent, Gone;
    var w := After(cfg, pids, Before(es));
    if i == |es| - 1 {
      RunsAreConsistent(cfg, pids, Before(es));
      RedeemedIsGone(cfg, w, Last(es), ch);
    } else {
      GoneSince(cfg, pids, Before(es), i, ch);
      GoneStays(cfg, w, Last(es), ch);
    }
  }

  /** Each challenge gives at most one authenticated login, over all processes. */
  lemma RedeemedOnce(cfg: Config, pids: set<Pid>, es: seq<Event>, i: nat, j: nat, ch: string)
    requires cfg.Lawful() && Ran(cfg, pids, es) && i < j < |es|
    requires Redeems(es[i], ch)
    ensures !Redeems(es[j], ch)
  {
    hide Resume, Effect, Answers, OpOf, Replay, Shared;
    PrefixRan(cfg, pids, es, j);
    GoneSince(cfg, pids, es[..j], i, ch);
    RunsAreConsistent(cfg, pids, es[..j]);
    var w := After(cfg, pids, es[..j]);
    if es[j].Act? {
      assert ProcInv(cfg, w, es[j].p, w.procs[es[j].p]);
    }
  }
}
