/** Two-factor enrolment over whole runs: who turned it on, with which secret, and what is left
    in memory afterwards. */
module Enrolment {
  import opened Wrappers
  import opened Tables
  import opened Setups
  import opened Program
  import opened World
  import opened Invariants
  import opened Provenance
  import opened HeldTokens

  /** Event `e` turns two-factor on for `u`. */
  predicate TurnsOn(w: World, e: Event, u: string) {
    e.Act? && e.took && e.op.SetTotp? && e.op.u == u && EnableTotp(w.tables.users, u, e.op.encrypted).Some?
  }

  /** Event `e` turns two-factor off for `u`. */
  predicate TurnsOff(w: World, e: Event, u: string) {
    e.Act? && e.took && e.op.UnsetTotp? && e.op.u == u && DisableTotp(w.tables.users, u).Some?
  }

  ghost function TimesOn(cfg: Config, pids: set<Pid>, es: seq<Event>, u: string): nat
    requires Ran(cfg, pids, es)
    decreases |es|
  {
    if es == [] then 0
    else TimesOn(cfg, pids, Before(es), u) + if TurnsOn(After(cfg, pids, Before(es)), Last(es), u) then 1 else 0
  }

  ghost function TimesOff(cfg: Config, pids: set<Pid>, es: seq<Event>, u: string): nat
    requires Ran(cfg, pids, es)
    decreases |es|
  {
    if es == [] then 0
    else TimesOff(cfg, pids, Before(es), u) + if TurnsOff(After(cfg, pids, Before(es)), Last(es), u) then 1 else 0
  }

  /** What one event does to the two TOTP columns of `u`. */
  lemma TotpStep(cfg: Config, w: World, e: Event, u: string)
    requires Consistent(cfg, w) && Enabled(cfg, w, e)
    ensures TotpMoves(w.tables.users, Next(cfg, w, e).tables.users, w, e, u)
  {
    hide Answers, Next, Effect, Resume, Shared, OpOf, TotpMoves, UsersAfter, TurnsOn, TurnsOff, ProcInv;
    NextUsers(cfg, w, e);
    if Commits(w, e) {
      CommitMovesTotp(w, e, u);
    } else {
      if e.Act? {
        assert ProcInv(cfg, w, e.p, w.procs[e.p]);
        RequestsAreSane(cfg, w, e.p, w.procs[e.p]);
      }
      ServedMovesTotp(w, e, u);
    }
  }

  ghost predicate TotpMoves(users: map<string, UserRow>, after: map<string, UserRow>, w: World, e: Event, u: string) {
    && (TurnsOn(w, e, u) ==>
          && u in users && !users[u].totpEnabled
          && u in after && after[u].totpEnabled && after[u].secret == Some(e.op.encrypted))
    && (TurnsOff(w, e, u) ==>
          && u in users && users[u].totpEnabled
          && u in after && !after[u].totpEnabled && after[u].secret == None)
    && (!TurnsOn(w, e, u) && !TurnsOff(w, e, u) ==>
          if u in users
          then u in after && after[u].totpEnabled == users[u].totpEnabled && after[u].secret == users[u].secret
          else u in after ==> !after[u].totpEnabled && after[u].secret == None)
  }

  lemma CommitMovesTotp(w: World, e: Event, u: string)
    requires Commits(w, e)
    ensures TotpMoves(w.tables.users, UsersAfter(w, e), w, e, u)
  {
    CommitOnUsers(w.tables, e.op.u, e.op.at, e.op.row);
  }

  lemma ServedMovesTotp(w: World, e: Event, u: string)
    requires !Commits(w, e)
    requires e.Act? && e.op.InsertUser? ==> !e.op.user.totpEnabled && e.op.user.secret.None?
    ensures TotpMoves(w.tables.users, UsersAfter(w, e), w, e, u)
  {
    hide CommitLogin;
  }

  predicate IsOn(w: World, u: string) {
    u in w.tables.users && w.tables.users[u].totpEnabled
  }

  /** Over every run and at every moment, two-factor has been turned on exactly once more often
      than off while it is on and exactly as often while it is off, so successful enables and
      disables strictly alternate, whichever processes make them; and the flag is on exactly
      when a secret is stored. */
  lemma {:induction false} EnablesAndDisablesAlternate(cfg: Config, pids: set<Pid>, es: seq<Event>, u: string)
    requires cfg.Lawful() && Ran(cfg, pids, es)
    ensures TimesOn(cfg, pids, es, u) == TimesOff(cfg, pids, es, u) + if IsOn(After(cfg, pids, es), u) then 1 else 0
    ensures var users := After(cfg, pids, es).tables.users;
            u in users ==> (users[u].totpEnabled <==> users[u].secret.Some?)
    decreases |es|
  {
    hide Next, Enabled, ProcInv, Minting, Issuing, Recorded, Accounts;
    RunsAreConsistent(cfg, pids, es);
    if es != [] {
      EnablesAndDisablesAlternate(cfg, pids, Before(es), u);
      RunsAreConsistent(cfg, pids, Before(es));
      TotpStep(cfg, After(cfg, pids, Before(es)), Last(es), u);
    }
  }

  // ---- Where the stored secret comes from ----

  /** Event `i` turned two-factor on for `u`, and nothing has turned it off since. */
  ghost predicate LastTurnedOn(cfg: Config, pids: set<Pid>, es: seq<Event>, i: nat, u: string) {
    && i < |es| && Ran(cfg, pids, es[..i]) && TurnsOn(After(cfg, pids, es[..i]), es[i], u)
    && forall k | i < k < |es| ::
         && Ran(cfg, pids, es[..k]) && !TurnsOn(After(cfg, pids, es[..k]), es[k], u)
         && !TurnsOff(After(cfg, pids, es[..k]), es[k], u)
  }

  lemma {:induction false} StoredSinceTurnedOn(cfg: Config, pids: set<Pid>, es: seq<Event>, u: string) returns (i: nat)
    requires cfg.Lawful() && Ran(cfg, pids, es) && IsOn(After(cfg, pids, es), u)
    ensures LastTurnedOn(cfg, pids, es, i, u)
    ensures es[i].op.SetTotp? && After(cfg, pids, es).tables.users[u].secret == Some(es[i].op.encrypted)
    decreases |es|
  {
    hide Next, Enabled, Consistent;
    var prior := Before(es);
    var w := After(cfg, pids, prior);
    RunsAreConsistent(cfg, pids, prior);
    TotpStep(cfg, w, Last(es), u);
    assert es[..|es| - 1] == prior;
    if TurnsOn(w, Last(es), u) {
      i := |es| - 1;
    } else {
      i := StoredSinceTurnedOn(cfg, pids, prior, u);
      assert prior[..i] == es[..i];
      forall k | i < k < |es|
        ensures Ran(cfg, pids, es[..k]) && !TurnsOn(After(cfg, pids, es[..k]), es[k], u)
                && !TurnsOff(After(cfg, pids, es[..k]), es[k], u)
      {
        if k < |prior| {
          assert prior[..k] == es[..k];
        }
      }
    }
  }

  lemma {:induction false} OnSinceTurnedOn(cfg: Config, pids: set<Pid>, es: seq<Event>, i: nat, n: nat, u: string)
    requires cfg.Lawful() && Ran(cfg, pids, es) && LastTurnedOn(cfg, pids, es, i, u) && i < n <= |es|
    ensures Ran(cfg, pids, es[..n]) && IsOn(After(cfg, pids, es[..n]), u)
    decreases n
  {
    hide Replay, Enabled, Next, Consistent, TurnsOn, TurnsOff;
    PrefixRan(cfg, pids, es, n - 1);
    RunsAreConsistent(cfg, pids, es[..n - 1]);
    TotpStep(cfg, After(cfg, pids, es[..n - 1]), es[n - 1], u);
    if i < n - 1 {
      OnSinceTurnedOn(cfg, pids, es, i, n - 1, u);
    }
  }

  /** A login without a code rests on a row that had two-factor off, read at event `j`. When it
      commits two-factor may be on all the same: exactly if it was turned on after that read and
      not off again. */
  lemma CodelessLoginWhileOn(cfg: Config, pids: set<Pid>, es: seq<Event>, n: nat, p: Pid, u: string) returns (j: nat)
    requires cfg.Lawful() && Ran(cfg, pids, es) && n < |es|
    requires es[n].Act? && es[n].p == p && p in pids && es[n].reply == Done
    requires es[n].pc.Finish? && es[n].pc.f.CommitRow? && es[n].pc.u == u && es[n].pc.via == None
    ensures j < n && es[j].Act? && es[j].p == p && es[j].op.FindByName?
    ensures es[j].reply.User? && es[j].reply.user.id == u && !es[j].reply.user.totpEnabled
    ensures Ran(cfg, pids, es[..n])
    ensures IsOn(After(cfg, pids, es[..n]), u)
            <==> exists i: nat :: j < i < n && LastTurnedOn(cfg, pids, es[..n], i, u)
  {
    hide Replay, PasswordShown, LastTurnedOn, IsOn;
    PrefixRan(cfg, pids, es, n);
    LoginProvenance(cfg, pids, es, n, p, u, None);
    j := RowRead(cfg, es, n, p, u);
    OffWhenRead(cfg, pids, es, j, u);
    assert es[..n][..j] == es[..j] && es[..n][..n] == es[..n];
    if IsOn(After(cfg, pids, es[..n]), u) {
      var i := StoredSinceTurnedOn(cfg, pids, es[..n], u);
      TurnedOnAfterRead(cfg, pids, es[..n], i, j, u);
    }
    if i: nat :| j < i < n && LastTurnedOn(cfg, pids, es[..n], i, u) {
      OnSinceTurnedOn(cfg, pids, es[..n], i, n, u);
    }
  }

  lemma TurnedOnAfterRead(cfg: Config, pids: set<Pid>, es: seq<Event>, i: nat, j: nat, u: string)
    requires cfg.Lawful() && Ran(cfg, pids, es) && LastTurnedOn(cfg, pids, es, i, u)
    requires j < |es| && es[j].Act? && es[j].op.FindByName?
    requires Ran(cfg, pids, es[..j]) && !IsOn(After(cfg, pids, es[..j]), u)
    ensures j < i < |es|
  {
    hide Replay;
    if i < j {
      OnSinceTurnedOn(cfg, pids, es, i, j, u);
    }
  }

  lemma RowRead(cfg: Config, es: seq<Event>, n: nat, p: Pid, u: string) returns (j: nat)
    requires exists k: nat :: k < n && PasswordShown(cfg, es, k, p, u, false)
    ensures j < n && j < |es| && es[j].Act? && es[j].p == p && es[j].pc.LoggingIn? && es[j].pc.l.LoginFind?
    ensures es[j].reply.User? && es[j].reply.user.id == u && !es[j].reply.user.totpEnabled
  {
    var k: nat :| k < n && PasswordShown(cfg, es, k, p, u, false);
    var i: nat, at: nat, found, password :|
      && Identified(cfg, es, i, at, p, found, password)
      && at < k < |es| && Heard(es[k], p, LoggingIn(LoginGate(found, password)), Flag(false))
      && found.id == u && found.totpEnabled == false && cfg.passwordOk(found.passwordHash, password);
    j := at;
  }

  lemma OffWhenRead(cfg: Config, pids: set<Pid>, es: seq<Event>, j: nat, u: string)
    requires cfg.Lawful() && Ran(cfg, pids, es) && j < |es|
    requires es[j].Act? && es[j].pc.LoggingIn? && es[j].pc.l.LoginFind?
    requires es[j].reply.User? && es[j].reply.user.id == u && !es[j].reply.user.totpEnabled
    ensures Ran(cfg, pids, es[..j]) && !IsOn(After(cfg, pids, es[..j]), u) && es[j].op.FindByName?
  {
    hide Replay, Resume, Effect, ProcInv, Minting, Issuing, Recorded, Accounts;
    PrefixRan(cfg, pids, es, j);
    RunsAreConsistent(cfg, pids, es[..j]);
  }

  lemma BackToNonce(cfg: Config, q: Proc, reply: Reply, raw: string, pending: Pending, encrypted: string)
    requires q.pc != Exited && Resume(cfg, q, reply).pc == Setup(raw, StoreSecret(pending, encrypted))
    ensures q.pc == Setup(raw, MakeNonce(pending)) && reply.Fresh?
            && encrypted == cfg.encrypt(pending.secret, reply.text)
  {
    hide ResumeLogin, ResumeCode, ResumeFinish, ResumeRegister, ResumeLogout, ResumeShell;
    LoginsNeverStore(cfg, q, reply);
    OthersNeverStore(cfg, q, reply);
  }

  lemma BackToCheck(cfg: Config, q: Proc, reply: Reply, raw: string, pending: Pending)
    requires q.pc != Exited && Resume(cfg, q, reply).pc == Setup(raw, MakeNonce(pending))
    ensures q.pc.Setup? && q.pc.raw == raw && q.pc.s.CheckSetup? && q.pc.s.pending == pending
    ensures reply.Now? && cfg.checkCode(pending.secret, q.pc.s.code, reply.t) == Match
  {
    hide ResumeLogin, ResumeCode, ResumeFinish, ResumeRegister, ResumeLogout, ResumeShell;
    LoginsNeverStore(cfg, q, reply);
    OthersNeverStore(cfg, q, reply);
  }

  lemma LoginsNeverStore(cfg: Config, q: Proc, reply: Reply)
    ensures forall l :: !ResumeLogin(cfg, q, l, reply).pc.Setup?
    ensures forall ch, c :: !ResumeCode(cfg, q, ch, c, reply).pc.Setup?
    ensures forall u, via, f :: !ResumeFinish(q, u, via, f, reply).pc.Setup?
  {
  }

  lemma OthersNeverStore(cfg: Config, q: Proc, reply: Reply)
    ensures !ResumeShell(q, reply).pc.Setup?
    ensures forall r :: !ResumeRegister(cfg, q, r, reply).pc.Setup?
    ensures forall raw, o :: !ResumeLogout(q, raw, o, reply).pc.Setup?
  {
  }

  /** Event `d` is a code matching the pending secret, given in the session `raw`. */
  predicate Confirms(cfg: Config, e: Event, p: Pid, raw: string, pending: Pending) {
    && e.Act? && e.p == p && e.pc.Setup? && e.pc.raw == raw && e.pc.s.CheckSetup? && e.pc.s.pending == pending
    && e.reply.Now? && cfg.checkCode(pending.secret, e.pc.s.code, e.reply.t) == Match
  }

  lemma StoringFollowsConfirming(cfg: Config, pids: set<Pid>, es: seq<Event>, p: Pid, raw: string, pending: Pending,
    encrypted: string)
    returns (d: nat)
    requires cfg.Lawful() && Ran(cfg, pids, es) && p in pids
    requires ProcAfter(cfg, pids, es, p).pc == Setup(raw, StoreSecret(pending, encrypted))
    ensures d < |es| && Confirms(cfg, es[d], p, raw, pending)
    ensures cfg.decrypt(encrypted) == Some(pending.secret)
  {
    hide Resume, Enabled, Replay;
    var r, atNonce := Came(cfg, pids, es, p);
    BackToNonce(cfg, atNonce, es[r].reply, raw, pending, encrypted);
    var before;
    d, before := Came(cfg, pids, es[..r], p);
    BackToCheck(cfg, before, es[..r][d].reply, raw, pending);
  }

  lemma StoresForOwner(cfg: Config, pids: set<Pid>, es: seq<Event>, p: Pid)
    requires cfg.Lawful() && Ran(cfg, pids, es) && p in pids
    requires var pc := ProcAfter(cfg, pids, es, p).pc; pc.Setup? && pc.s.StoreSecret?
    ensures var pc, w := ProcAfter(cfg, pids, es, p).pc, After(cfg, pids, es);
            && pc.s.pending.sessionHash == cfg.hash(pc.raw)
            && cfg.hash(pc.raw) in w.issued && w.issued[cfg.hash(pc.raw)].user == pc.s.pending.userId
            && w.issued[cfg.hash(pc.raw)].holder == p
  {
    hide Replay, Shared;
    RunsAreConsistent(cfg, pids, es);
    ProcessesStay(cfg, pids, es);
    assert ProcInv(cfg, After(cfg, pids, es), p, After(cfg, pids, es).procs[p]);
  }

  lemma OnlySetupStores(cfg: Config, pc: Pc)
    requires pc != Exited && OpOf(cfg, pc).SetTotp?
    ensures pc.Setup? && pc.s.StoreSecret? && OpOf(cfg, pc) == SetTotp(pc.s.pending.userId, pc.s.encrypted)
  {
  }

  /** Secret provenance. While two-factor is on for `u`, what is stored was put there by the last
      event that turned it on (`i`), it decrypts to the secret of a setup that the same process
      had pending for `u`, begun in a session issued to `u`, and at an earlier event (`d`) that
      process was given a code matching exactly that secret. */
  lemma StoredSecretWasConfirmed(cfg: Config, pids: set<Pid>, es: seq<Event>, u: string)
    returns (i: nat, d: nat, p: Pid, raw: string, pending: Pending)
    requires cfg.Lawful() && Ran(cfg, pids, es) && IsOn(After(cfg, pids, es), u)
    ensures LastTurnedOn(cfg, pids, es, i, u) && d < i && es[i].p == p && Confirms(cfg, es[d], p, raw, pending)
    ensures pending.userId == u && pending.sessionHash == cfg.hash(raw)
    ensures var w := After(cfg, pids, es[..i]);
            cfg.hash(raw) in w.issued && w.issued[cfg.hash(raw)].user == u && w.issued[cfg.hash(raw)].holder == p
    ensures var stored := After(cfg, pids, es).tables.users[u].secret;
            stored.Some? && cfg.decrypt(stored.value) == Some(pending.secret)
  {
    hide Replay, Resume, Effect, Answers;
    i := StoredSinceTurnedOn(cfg, pids, es, u);
    p := es[i].p;
    PrefixRan(cfg, pids, es, i);
    ProcessesStay(cfg, pids, es[..i]);
    AtItsPc(cfg, pids, es, i);
    OnlySetupStores(cfg, es[i].pc);
    raw, pending := es[i].pc.raw, es[i].pc.s.pending;
    d := StoringFollowsConfirming(cfg, pids, es[..i], p, raw, pending, es[i].pc.s.encrypted);
    StoresForOwner(cfg, pids, es[..i], p);
  }

  // ---- What enrolling leaves in memory ----

  /** The command is being left with the setup still pending: the session was refused, the code
      could not be validated, or the secret could not be encrypted or stored. */
  predicate LeavesPending(e: Event) {
    e.Act?
    && (e.pc.Validating?
        || (e.pc.Setup? && (e.pc.s.CheckSetup? || e.pc.s.MakeNonce? || (e.pc.s.StoreSecret? && e.reply.Failed?))))
  }

  /** `pc` is past BeginSetup of the enrolment begun from the session `raw`. */
  predicate Enrolling(pc: Pc) {
    || (pc.Setup? && !pc.s.MakeSecret? && !pc.s.StampSetup?)
    || (pc.Validating? && pc.why.ForConfirm?)
  }

  lemma EnrollingIsFiled(cfg: Config, w: World, p: Pid, q: Proc)
    requires ProcInv(cfg, w, p, q) && Enrolling(q.pc)
    ensures var h := cfg.hash(q.pc.raw);
            h in w.issued && var u := w.issued[h].user;
            u in q.setups.byUser && q.setups.byUser[u].sessionHash == h && h in q.setups.bySession
              && q.setups.bySession[h] == u
  {
  }

  lemma AskLeaving(cfg: Config, w: World, p: Pid, q: Proc, raw: string, reply: Reply)
    requires ProcInv(cfg, w, p, q) && q.pc == Setup(raw, AskSetup)
    ensures var r := ResumeSetup(cfg, q, raw, AskSetup, reply);
            cfg.hash(raw) in w.issued && (r.pc == Shell ==> w.issued[cfg.hash(raw)].user !in r.setups.byUser)
  {
    EnrollingIsFiled(cfg, w, p, q);
    AskingHoldsToken(cfg, w, p, q, raw);
    hide ProcInv;
    LeavingCancels(cfg, q, raw, reply);
    CancelIsExact(q.setups, cfg.hash(raw));
    hide Cancel, ResumeSetup;
  }

  lemma AskingHoldsToken(cfg: Config, w: World, p: Pid, q: Proc, raw: string)
    requires ProcInv(cfg, w, p, q) && q.pc == Setup(raw, AskSetup)
    ensures raw != "" && Inverse(q.setups)
  {
  }

  lemma LeavingCancels(cfg: Config, q: Proc, raw: string, reply: Reply)
    requires raw != ""
    ensures var r := ResumeSetup(cfg, q, raw, AskSetup, reply);
            r.pc == Shell ==> r.setups == Cancel(q.setups, cfg.hash(raw))
  {
    hide Cancel;
  }

  lemma SetupLeaving(cfg: Config, w: World, p: Pid, q: Proc, raw: string, s: SetupPc, reply: Reply)
    requires ProcInv(cfg, w, p, q) && q.pc == Setup(raw, s) && Enrolling(q.pc)
    requires reply.Failed? || reply.Done? || reply.Clash? || !s.StoreSecret?
    requires s.StampConfirm? || s.CheckSetup? ==> reply.Now?
    ensures var r := ResumeSetup(cfg, q, raw, s, reply);
            cfg.hash(raw) in w.issued && var u := w.issued[cfg.hash(raw)].user;
            r.pc == Shell ==>
              (u in r.setups.byUser <==> s.CheckSetup? || s.MakeNonce? || (s.StoreSecret? && reply.Failed?))
  {
    EnrollingIsFiled(cfg, w, p, q);
    if s.AskSetup? {
      AskLeaving(cfg, w, p, q, raw, reply);
    } else {
      PendingLeaving(cfg, q, raw, s, reply);
    }
  }

  lemma PendingLeaving(cfg: Config, q: Proc, raw: string, s: SetupPc, reply: Reply)
    requires !s.MakeSecret? && !s.StampSetup? && !s.AskSetup?
    requires reply.Failed? || reply.Done? || reply.Clash? || !s.StoreSecret?
    requires s.StampConfirm? || s.CheckSetup? ==> reply.Now?
    requires s.pending.userId in q.setups.byUser
    ensures var r := ResumeSetup(cfg, q, raw, s, reply);
            r.pc == Shell ==>
              (s.pending.userId in r.setups.byUser <==>
               s.CheckSetup? || s.MakeNonce? || (s.StoreSecret? && reply.Failed?))
  {
  }

  lemma SetupAnswers(cfg: Config, w: World, e: Event)
    requires e.Act? && Enabled(cfg, w, e) && e.pc.Setup?
    ensures e.pc.s.StoreSecret? ==> e.reply.Failed? || e.reply.Done? || e.reply.Clash?
    ensures e.pc.s.StampConfirm? || e.pc.s.CheckSetup? ==> e.reply.Now?
  {
    hide Resume;
  }

  lemma ValidateLeaving(q: Proc, raw: string, code: string, v: ValidatePc, reply: Reply)
    ensures ResumeValidate(q, raw, ForConfirm(code), v, reply).setups == q.setups
  {
  }

  lemma EnrolmentLeaves(cfg: Config, w: World, e: Event)
    requires cfg.Lawful() && Consistent(cfg, w) && Enabled(cfg, w, e) && e.Act? && Enrolling(e.pc)
    requires Next(cfg, w, e).procs[e.p].pc == Shell
    ensures cfg.hash(e.pc.raw) in w.issued
    ensures w.issued[cfg.hash(e.pc.raw)].user in Next(cfg, w, e).procs[e.p].setups.byUser <==> LeavesPending(e)
  {
    hide Answers, Effect, ResumeSetup, ResumeValidate, ProcInv, Shared, OpOf;
    var q := w.procs[e.p];
    assert ProcInv(cfg, w, e.p, q);
    EnrollingIsFiled(cfg, w, e.p, q);
    if e.pc.Setup? {
      SetupAnswers(cfg, w, e);
      SetupLeaving(cfg, w, e.p, q, e.pc.raw, e.pc.s, e.reply);
    } else {
      ValidateLeaving(q, e.pc.raw, e.pc.why.code, e.pc.v, e.reply);
    }
  }

  /** In every run, once BeginSetup has succeeded, the command returns to the prompt with a setup
      of the session's user still pending exactly when it leaves by one of the paths above. */
  lemma EnrolmentCleansUp(cfg: Config, pids: set<Pid>, es: seq<Event>, n: nat)
    requires cfg.Lawful() && Ran(cfg, pids, es) && n < |es| && es[n].Act? && es[n].p in pids && Enrolling(es[n].pc)
    ensures Ran(cfg, pids, es[..n]) && Ran(cfg, pids, es[..n + 1])
    ensures var w, after := After(cfg, pids, es[..n]), ProcAfter(cfg, pids, es[..n + 1], es[n].p);
            after.pc == Shell ==>
              && cfg.hash(es[n].pc.raw) in w.issued
              && (w.issued[cfg.hash(es[n].pc.raw)].user in after.setups.byUser <==> LeavesPending(es[n]))
  {
    hide Replay, Consistent, Enrolling, LeavesPending, Resume, Effect, Answers, OpOf;
    PrefixRan(cfg, pids, es, n);
    RunsAreConsistent(cfg, pids, es[..n]);
    if ProcAfter(cfg, pids, es[..n + 1], es[n].p).pc == Shell {
      EnrolmentLeaves(cfg, After(cfg, pids, es[..n]), es[n]);
    }
  }

  // ---- Turning two-factor off ----

  lemma ShellOnlyStartsDisabling(cfg: Config, q: Proc, reply: Reply)
    ensures var r := ResumeShell(q, reply).pc; r.Disabling? ==> r.d.OffForm?
    ensures forall l :: !ResumeLogin(cfg, q, l, reply).pc.Disabling?
    ensures forall r :: !ResumeRegister(cfg, q, r, reply).pc.Disabling?
    ensures forall raw, o :: !ResumeLogout(q, raw, o, reply).pc.Disabling?
  {
  }

  lemma OthersNeverDisable(cfg: Config, q: Proc, reply: Reply)
    ensures forall ch, c :: !ResumeCode(cfg, q, ch, c, reply).pc.Disabling?
    ensures forall u, via, f :: !ResumeFinish(q, u, via, f, reply).pc.Disabling?
    ensures forall raw, s :: !ResumeSetup(cfg, q, raw, s, reply).pc.Disabling?
  {
  }

  lemma BackToOffCheck(cfg: Config, q: Proc, reply: Reply, u: string)
    requires q.pc != Exited && Resume(cfg, q, reply).pc == Disabling(OffStore(u))
    ensures q.pc.Disabling? && q.pc.d.OffCheck? && q.pc.d.u == u
    ensures reply.Now? && cfg.checkCode(q.pc.d.secret, q.pc.d.code, reply.t) == Match
  {
    ShellOnlyStartsDisabling(cfg, q, reply);
    OthersNeverDisable(cfg, q, reply);
    hide ResumeShell, ResumeLogin, ResumeCode, ResumeFinish, ResumeRegister, ResumeLogout, ResumeSetup;
  }

  lemma BackToOffFind(cfg: Config, q: Proc, reply: Reply, u: string, secret: string, code: string)
    requires q.pc != Exited && Resume(cfg, q, reply).pc == Disabling(OffCheck(u, secret, code))
    ensures q.pc.Disabling? && q.pc.d.OffFind? && q.pc.d.code == code && reply.User? && reply.user.id == u
    ensures reply.user.totpEnabled && cfg.passwordOk(reply.user.passwordHash, q.pc.d.password)
    ensures reply.user.secret.Some? && cfg.decrypt(reply.user.secret.value) == Some(secret)
  {
    ShellOnlyStartsDisabling(cfg, q, reply);
    OthersNeverDisable(cfg, q, reply);
    hide ResumeShell, ResumeLogin, ResumeCode, ResumeFinish, ResumeRegister, ResumeLogout, ResumeSetup;
  }

  lemma BackToAccepted(cfg: Config, q: Proc, reply: Reply, u: string, password: string, code: string)
    requires q.pc != Exited && Resume(cfg, q, reply).pc == Disabling(OffFind(u, password, code))
    ensures q.pc.Validating? && q.pc.why == ForDisable(password, code) && q.pc.v.FindUser?
    ensures reply.User? && reply.user.id == u
  {
    ShellOnlyStartsDisabling(cfg, q, reply);
    OthersNeverDisable(cfg, q, reply);
    hide ResumeShell, ResumeLogin, ResumeCode, ResumeFinish, ResumeRegister, ResumeLogout, ResumeSetup;
  }

  /** At `v` the session `raw` of `u` was accepted, at `f` the row of `u` was read and the password
      given fits it, and at `c` the code given matches the secret in that row. */
  ghost predicate DisableTrail(
      cfg: Config, pids: set<Pid>, es: seq<Event>, v: nat, f: nat, c: nat, p: Pid, u: string, raw: string,
      row: UserRow, password: string, code: string, secret: string)
  {
    && v < f < c < |es| && Ran(cfg, pids, es[..v])
    && es[v].Act? && es[v].p == p && es[v].pc.Validating? && es[v].pc.raw == raw
    && es[v].pc.why == ForDisable(password, code) && es[v].reply.User? && es[v].reply.user.id == u
    && cfg.hash(raw) in After(cfg, pids, es[..v]).issued
    && After(cfg, pids, es[..v]).issued[cfg.hash(raw)].user == u
    && After(cfg, pids, es[..v]).issued[cfg.hash(raw)].holder == p
    && Heard(es[f], p, Disabling(OffFind(u, password, code)), User(row))
    && row.id == u && row.totpEnabled && cfg.passwordOk(row.passwordHash, password)
    && row.secret.Some? && cfg.decrypt(row.secret.value) == Some(secret)
    && es[c].Act? && es[c].p == p && es[c].pc == Disabling(OffCheck(u, secret, code)) && es[c].reply.Now?
    && cfg.checkCode(secret, code, es[c].reply.t) == Match
  }

  /** Every request to turn two-factor off that a process sends was preceded, in its own events,
      by its session being accepted, a row of the session's user being read, a password that fits
      that row and a code that matches that row's secret. */
  lemma DisableProvenance(cfg: Config, pids: set<Pid>, es: seq<Event>, n: nat, p: Pid)
    returns (v: nat, f: nat, c: nat, raw: string, row: UserRow, password: string, code: string, secret: string)
    requires cfg.Lawful() && Ran(cfg, pids, es) && n < |es|
    requires es[n].Act? && es[n].p == p && p in pids && es[n].op.UnsetTotp?
    ensures c < n && DisableTrail(cfg, pids, es, v, f, c, p, es[n].op.u, raw, row, password, code, secret)
  {
    hide Replay, Resume, Enabled, OpOf;
    AtItsPc(cfg, pids, es, n);
    PrefixRan(cfg, pids, es, n);
    OnlyDisablingTurnsOff(cfg, After(cfg, pids, es[..n]), es[n]);
    var u, atCheck, atFind := es[n].op.u, STARTED, STARTED;
    c, atCheck := Came(cfg, pids, es[..n], p);
    BackToOffCheck(cfg, atCheck, es[..n][c].reply, u);
    assert es[..n][..c] == es[..c];
    secret, code := atCheck.pc.d.secret, atCheck.pc.d.code;
    f, atFind := Came(cfg, pids, es[..c], p);
    BackToOffFind(cfg, atFind, es[..c][f].reply, u, secret, code);
    assert es[..c][..f] == es[..f];
    row, password := es[f].reply.user, atFind.pc.d.password;
    RowsAreTheirs(cfg, pids, es[..c], f);
    v, raw := AcceptedBefore(cfg, pids, es[..f], p, u, password, code);
    assert es[..f][..v] == es[..v];
  }

  lemma OnlyDisablingTurnsOff(cfg: Config, w: World, e: Event)
    requires e.Act? && Enabled(cfg, w, e) && e.op.UnsetTotp?
    ensures e.pc == Disabling(OffStore(e.op.u))
  {
    hide Answers, Resume;
  }

  /** A user found by key has that key. */
  lemma RowsAreTheirs(cfg: Config, pids: set<Pid>, es: seq<Event>, f: nat)
    requires cfg.Lawful() && Ran(cfg, pids, es) && f < |es| && es[f].Act? && es[f].reply.User?
    ensures es[f].pc.Disabling? && es[f].pc.d.OffFind? ==> es[f].reply.user.id == es[f].pc.d.u
    ensures es[f].pc.Validating? && es[f].pc.v.FindUser? ==> es[f].reply.user.id == es[f].pc.v.row.userId
  {
    hide Replay, Resume, Effect, ProcInv, Minting, Issuing, Recorded, Accounts;
    PrefixRan(cfg, pids, es, f);
    RunsAreConsistent(cfg, pids, es[..f]);
  }

  lemma AcceptedBefore(cfg: Config, pids: set<Pid>, es: seq<Event>, p: Pid, u: string, password: string, code: string)
    returns (v: nat, raw: string)
    requires cfg.Lawful() && Ran(cfg, pids, es) && p in pids
    requires ProcAfter(cfg, pids, es, p).pc == Disabling(OffFind(u, password, code))
    ensures v < |es| && Ran(cfg, pids, es[..v])
    ensures es[v].Act? && es[v].p == p && es[v].pc.Validating? && es[v].pc.raw == raw
    ensures es[v].pc.why == ForDisable(password, code) && es[v].reply.User? && es[v].reply.user.id == u
    ensures var w, h := After(cfg, pids, es[..v]), cfg.hash(raw);
            h in w.issued && w.issued[h].user == u && w.issued[h].holder == p
  {
    hide Replay, Resume, Enabled, OpOf;
    var before;
    v, before := Came(cfg, pids, es, p);
    BackToAccepted(cfg, before, es[v].reply, u, password, code);
    raw := before.pc.raw;
    RowsAreTheirs(cfg, pids, es, v);
    ValidatesOwnToken(cfg, pids, es[..v], p);
    HeldTokenIsOwnAndOpen(cfg, pids, es[..v], p);
  }
}
