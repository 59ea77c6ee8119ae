/** How long a process keeps its session token, and what validating it decides. */
module TokenLife {
  import opened Wrappers
  import opened Tables
  import opened Program
  import opened World
  import opened Invariants
  import opened SessionHistory
  import opened Provenance
  import opened HeldTokens
  import opened Enrolment

  lemma CommandsKeepToken(cfg: Config, q: Proc, reply: Reply)
    requires q.token != ""
    ensures var r := ResumeShell(q, reply); r.token == q.token || (r.token == "" && r.pc == Exited)
    ensures forall s ::
              var r := ResumeSetup(cfg, q, q.token, s, reply); r.token == q.token || (r.token == "" && r.pc == Exited)
  {
  }

  lemma DisablingKeepsToken(cfg: Config, q: Proc, d: DisablePc, reply: Reply)
    requires q.token != ""
    ensures var r := ResumeDisable(cfg, q, d, reply);
            r.token == q.token || (r.token == "" && r.pc == Exited) || (d.OffFind? && reply.NoRow?)
  {
  }

  lemma ValidatingKeepsToken(q: Proc, v: ValidatePc, reply: Reply)
    requires q.token != "" && q.pc.Validating?
    ensures var r := ResumeValidate(q, q.pc.raw, q.pc.why, v, reply); r.token == q.token || r.token == ""
  {
  }

  /** Commands that need no session are run without one. */
  lemma HoldersAre(cfg: Config, pids: set<Pid>, es: seq<Event>, p: Pid)
    requires cfg.Lawful() && Ran(cfg, pids, es) && p in pids && ProcAfter(cfg, pids, es, p).token != ""
    ensures var q := ProcAfter(cfg, pids, es, p);
            && (q.pc.Shell? || q.pc.Validating? || q.pc.Setup? || q.pc.Disabling? || q.pc.LoggingOut?)
            && (q.pc.Setup? || q.pc.Validating? ==> q.pc.raw == q.token)
  {
    hide Replay, Shared, TokenInv, SetupsInv;
    RunsAreConsistent(cfg, pids, es);
    ProcessesStay(cfg, pids, es);
    assert ProcInv(cfg, After(cfg, pids, es), p, After(cfg, pids, es).procs[p]);
  }

  lemma {:induction false} UsersStay(cfg: Config, pids: set<Pid>, es: seq<Event>, n: nat, u: string)
    requires Ran(cfg, pids, es) && n <= |es|
    ensures Ran(cfg, pids, es[..n])
    ensures u in After(cfg, pids, es[..n]).tables.users ==> u in After(cfg, pids, es).tables.users
    decreases |es|
  {
    hide Enabled, Next;
    PrefixRan(cfg, pids, es, n);
    if n == |es| {
      assert es[..n] == es;
    } else {
      assert Before(es)[..n] == es[..n];
      UsersStay(cfg, pids, Before(es), n, u);
      UserStays(cfg, After(cfg, pids, Before(es)), Last(es), u);
    }
  }

  lemma UserStays(cfg: Config, w: World, e: Event, u: string)
    requires Enabled(cfg, w, e)
    ensures u in w.tables.users ==> u in Next(cfg, w, e).tables.users
  {
    hide Enabled, Next;
    NextUsers(cfg, w, e);
  }

  /** The user a process is disabling two-factor for is always found. */
  lemma DisablersAreFound(cfg: Config, pids: set<Pid>, es: seq<Event>, n: nat)
    requires cfg.Lawful() && Ran(cfg, pids, es) && n < |es| && es[n].Act? && es[n].p in pids
    requires es[n].pc.Disabling? && es[n].pc.d.OffFind?
    ensures !es[n].reply.NoRow?
  {
    hide Replay, Resume, Effect;
    AtItsPc(cfg, pids, es, n);
    PrefixRan(cfg, pids, es, n);
    var d := es[n].pc.d;
    var v, raw := AcceptedBefore(cfg, pids, es[..n], es[n].p, d.u, d.password, d.code);
    PrefixRan(cfg, pids, es[..n], v);
    UsersStay(cfg, pids, es[..n], v, d.u);
    OwnersAreUsers(cfg, pids, es[..n][..v], cfg.hash(raw));
  }

  lemma OwnersAreUsers(cfg: Config, pids: set<Pid>, es: seq<Event>, h: string)
    requires cfg.Lawful() && Ran(cfg, pids, es) && h in After(cfg, pids, es).issued
    ensures After(cfg, pids, es).issued[h].user in After(cfg, pids, es).tables.users
  {
    hide Replay, ProcInv, Sound, Minting, Recorded, Accounts;
    RunsAreConsistent(cfg, pids, es);
  }

  /** A process that holds a token keeps it until it logs out, exits, or the session expires. */
  lemma TokenIsKeptWhileGood(cfg: Config, pids: set<Pid>, es: seq<Event>, n: nat, p: Pid)
    requires cfg.Lawful() && Ran(cfg, pids, es) && n < |es| && p in pids
    ensures Ran(cfg, pids, es[..n]) && Ran(cfg, pids, es[..n + 1])
    ensures var w, q, r := After(cfg, pids, es[..n]), ProcAfter(cfg, pids, es[..n], p),
            ProcAfter(cfg, pids, es[..n + 1], p);
            q.token != "" && r.token != q.token ==>
              r.token == "" && (q.pc.LoggingOut? || r.pc == Exited || Expired(cfg, w, q.token))
  {
    hide Replay, Effect, Answers, Expired, OpOf, Resume;
    PrefixRan(cfg, pids, es, n);
    ProcessesStay(cfg, pids, es[..n]);
    var q := ProcAfter(cfg, pids, es[..n], p);
    if q.token != "" && es[n].Act? && es[n].p == p {
      HoldersAre(cfg, pids, es[..n], p);
      if q.pc.Validating? {
        RefusalMeansExpiry(cfg, pids, es, n);
      }
      if q.pc.Disabling? && q.pc.d.OffFind? {
        DisablersAreFound(cfg, pids, es, n);
      }
      StepKeepsToken(cfg, q, es[n].reply);
    }
  }

  lemma StepKeepsToken(cfg: Config, q: Proc, reply: Reply)
    requires q.token != "" && (q.pc.Setup? || q.pc.Validating? ==> q.pc.raw == q.token)
    requires q.pc.Shell? || q.pc.Validating? || q.pc.Setup? || q.pc.Disabling? || q.pc.LoggingOut?
    requires q.pc.Disabling? && q.pc.d.OffFind? ==> !reply.NoRow?
    ensures var r := Resume(cfg, q, reply);
            r.token == q.token || (r.token == "" && (q.pc.LoggingOut? || q.pc.Validating? || r.pc == Exited))
  {
    CommandsKeepToken(cfg, q, reply);
    if q.pc.Validating? {
      ValidatingKeepsToken(q, q.pc.v, reply);
    }
    if q.pc.Disabling? {
      DisablingKeepsToken(cfg, q, q.pc.d, reply);
    }
    LogoutKeepsOrClears(q, reply);
    hide ResumeShell, ResumeRegister, ResumeLogin, ResumeCode, ResumeFinish, ResumeSetup, ResumeDisable, ResumeValidate;
    hide ResumeLogout;
  }

  lemma LogoutKeepsOrClears(q: Proc, reply: Reply)
    ensures forall raw, o :: var r := ResumeLogout(q, raw, o, reply); r.token == q.token || r.token == ""
  {
  }

  /** Validating a token comes down to its reading of the clock: it goes on from there, to a user
      who is always found, if and only if at that moment the run holds a committed login that
      issued the token, its expiry is still to come and no revocation of it took effect. */
  lemma ValidationDecides(cfg: Config, pids: set<Pid>, es: seq<Event>, n: nat)
    requires cfg.Lawful() && Ran(cfg, pids, es) && n < |es| && es[n].Act? && es[n].p in pids
    requires es[n].pc.Validating? && es[n].pc.v.StampExpiry?
    ensures Ran(cfg, pids, es[..n]) && Ran(cfg, pids, es[..n + 1])
    ensures var w, h := After(cfg, pids, es[..n]), cfg.hash(es[n].pc.raw);
            ProcAfter(cfg, pids, es[..n + 1], es[n].p).pc
              == Validating(es[n].pc.raw, es[n].pc.why, FindUser(es[n].pc.v.row))
            <==> exists i: nat ::
                   && IssuedAt(cfg, pids, es[..n], i, h) && w.now < es[i].op.row.expiresAt
                   && !RevokedAfter(es[..n], i, es[i].op.row.id)
  {
    hide Replay, Effect, StandingOf, RevokedAfter;
    PrefixRan(cfg, pids, es, n);
    AtItsPc(cfg, pids, es, n);
    ProcessesStay(cfg, pids, es[..n]);
    var w, q := After(cfg, pids, es[..n]), ProcAfter(cfg, pids, es[..n], es[n].p);
    ValidatesOwnToken(cfg, pids, es[..n], es[n].p);
    HeldTokenIsOwnAndOpen(cfg, pids, es[..n], es[n].p);
    ValidIffHistory(cfg, pids, es[..n], cfg.hash(q.token));
    if w.now < q.pc.v.row.expiresAt {
      OpenRowIsValid(cfg, pids, es[..n], q.token, q.pc.v.row);
    } else {
      LateRowIsInvalid(cfg, pids, es[..n], q.token, q.pc.v.row);
    }
    ClockDecides(cfg, w, q, es[n]);
  }

  lemma LateRowIsInvalid(cfg: Config, pids: set<Pid>, es: seq<Event>, raw: string, row: SessionRow)
    requires cfg.Lawful() && Ran(cfg, pids, es)
    requires RowOf(cfg, After(cfg, pids, es), raw, row) && row.expiresAt <= After(cfg, pids, es).now
    ensures var w := After(cfg, pids, es); !StandingOf(w.tables, cfg.hash(raw), w.now).Valid?
  {
    hide Replay, Minting, Accounts, ProcInv, Issuing, Sound;
    RunsAreConsistent(cfg, pids, es);
  }

  lemma ClockDecides(cfg: Config, w: World, q: Proc, e: Event)
    requires e.Act? && Enabled(cfg, w, e) && e.p in w.procs && w.procs[e.p] == q
    requires q.pc.Validating? && q.pc.v.StampExpiry?
    ensures Resume(cfg, q, e.reply).pc == Validating(q.pc.raw, q.pc.why, FindUser(q.pc.v.row))
            <==> w.now < q.pc.v.row.expiresAt
  {
    hide ResumeShell, ResumeRegister, ResumeLogin, ResumeCode, ResumeFinish, ResumeSetup, ResumeDisable, ResumeLogout;
  }

  // ---- A logout that is told it succeeded ----

  lemma OpenRowIsItsOwn(cfg: Config, pids: set<Pid>, es: seq<Event>, raw: string, row: SessionRow)
    requires cfg.Lawful() && Ran(cfg, pids, es) && RowOf(cfg, After(cfg, pids, es), raw, row)
    ensures var ss := After(cfg, pids, es).tables.sessions;
            Revocable(ss, row.id) ==> cfg.hash(raw) in ss && ss[cfg.hash(raw)].id == row.id
  {
    hide Replay, ProcInv, Sound, Minting, Accounts;
    RunsAreConsistent(cfg, pids, es);
    var w := After(cfg, pids, es);
    if h :| h in w.tables.sessions && w.tables.sessions[h].id == row.id && w.tables.sessions[h].revokedAt.None? {
      assert w.issued[h].id == w.issued[cfg.hash(raw)].id;
    }
  }

  lemma RevokingAsks(cfg: Config, w: World, e: Event)
    requires e.Act? && Enabled(cfg, w, e) && e.pc.LoggingOut? && e.pc.o.OutRevoke? && e.reply == Done
    ensures e.took && e.op == RevokeSession(e.pc.o.row.id, e.pc.o.at) && Revocable(w.tables.sessions, e.pc.o.row.id)
  {
    hide Resume;
  }

  /** In every run, when the last request of a logout succeeds, the session of the token that was
      held is revoked, and no later moment of the run finds it valid. */
  lemma LogoutRevokes(cfg: Config, pids: set<Pid>, es: seq<Event>, n: nat, m: nat)
    requires cfg.Lawful() && Ran(cfg, pids, es) && n < m <= |es|
    requires es[n].Act? && es[n].p in pids && es[n].reply == Done
    requires es[n].pc.LoggingOut? && es[n].pc.o.OutRevoke?
    ensures Ran(cfg, pids, es[..n]) && ProcAfter(cfg, pids, es[..n], es[n].p).token == es[n].pc.raw
    ensures Ran(cfg, pids, es[..n + 1]) && Ran(cfg, pids, es[..m])
    ensures var v, h := After(cfg, pids, es[..n + 1]), cfg.hash(es[n].pc.raw);
            StandingOf(v.tables, h, v.now) == RevokedSession
    ensures var v, h := After(cfg, pids, es[..m]), cfg.hash(es[n].pc.raw); !StandingOf(v.tables, h, v.now).Valid?
  {
    hide Replay, Resume, Effect, StandingOf, Enabled, Next;
    PrefixRan(cfg, pids, es, n);
    PrefixRan(cfg, pids, es, m);
    AtItsPc(cfg, pids, es, n);
    LogsOutOwnToken(cfg, pids, es[..n], es[n].p);
    RevokingAsks(cfg, After(cfg, pids, es[..n]), es[n]);
    OpenRowIsItsOwn(cfg, pids, es[..n], es[n].pc.raw, es[n].pc.o.row);
    LogoutIsLocal(cfg, pids, es, n, cfg.hash(es[n].pc.raw));
    assert es[..m][..n + 1] == es[..n + 1];
    RevokedIsIssued(cfg, pids, es[..n + 1], cfg.hash(es[n].pc.raw));
    DeadStaysDead(cfg, pids, es[..m], n + 1, cfg.hash(es[n].pc.raw));
  }

  lemma RevokedIsIssued(cfg: Config, pids: set<Pid>, es: seq<Event>, h: string)
    requires cfg.Lawful() && Ran(cfg, pids, es)
    ensures var w := After(cfg, pids, es);
            StandingOf(w.tables, h, w.now) == RevokedSession ==>
              h in w.issued && !StandingOf(w.tables, h, w.now).Valid?
  {
    hide Replay, ProcInv, Sound, Minting, Accounts, Issuing;
    RunsAreConsistent(cfg, pids, es);
  }
}
