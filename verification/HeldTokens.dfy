/** What a process may conclude from the session token it holds. */
module HeldTokens {
  import opened Wrappers
  import opened Tables
  import opened Program
  import opened World
  import opened Invariants
  import opened SessionHistory
  import opened Provenance

  /** At every moment, a token a process holds is its own: it generated it, a login it committed
      issued the session, and the row of that session is open or was removed after it expired. */
  lemma HeldTokenIsOwnAndOpen(cfg: Config, pids: set<Pid>, es: seq<Event>, p: Pid)
    requires cfg.Lawful() && Ran(cfg, pids, es) && p in pids && ProcAfter(cfg, pids, es, p).token != ""
    ensures var w, token := After(cfg, pids, es), ProcAfter(cfg, pids, es, p).token;
            var h := cfg.hash(token);
            && token in w.minted && w.minted[token] == p
            && h in w.issued && w.issued[h].holder == p
            && (h in w.tables.sessions ==> w.tables.sessions[h].revokedAt.None?)
            && (h !in w.tables.sessions ==> w.issued[h].expiresAt <= w.now)
    ensures exists i: nat :: IssuedAt(cfg, pids, es, i, cfg.hash(ProcAfter(cfg, pids, es, p).token))
  {
    hide Replay, Sound, Minting, Accounts, PlaceInv, SetupsInv;
    RunsAreConsistent(cfg, pids, es);
    ProcessesStay(cfg, pids, es);
    var w := After(cfg, pids, es);
    assert ProcInv(cfg, w, p, w.procs[p]);
    var i := IssuesHaveEvents(cfg, pids, es, cfg.hash(w.procs[p].token));
  }

  /** No two processes hold the same token. */
  lemma NoSharedTokens(cfg: Config, pids: set<Pid>, es: seq<Event>, p: Pid, q: Pid)
    requires cfg.Lawful() && Ran(cfg, pids, es) && p in pids && q in pids && p != q
    requires ProcAfter(cfg, pids, es, p).token != ""
    ensures ProcAfter(cfg, pids, es, p).token != ProcAfter(cfg, pids, es, q).token
  {
    hide Replay;
    HeldTokenIsOwnAndOpen(cfg, pids, es, p);
    if ProcAfter(cfg, pids, es, q).token != "" {
      HeldTokenIsOwnAndOpen(cfg, pids, es, q);
    }
  }

  lemma ValidatesOwnToken(cfg: Config, pids: set<Pid>, es: seq<Event>, p: Pid)
    requires cfg.Lawful() && Ran(cfg, pids, es) && p in pids
    requires ProcAfter(cfg, pids, es, p).pc.Validating?
    ensures var q := ProcAfter(cfg, pids, es, p);
            && q.pc.raw == q.token != ""
            && (!q.pc.v.FindRow? ==> RowOf(cfg, After(cfg, pids, es), q.token, q.pc.v.row))
  {
    hide Replay, Shared, TokenInv, SetupsInv;
    RunsAreConsistent(cfg, pids, es);
    ProcessesStay(cfg, pids, es);
    assert ProcInv(cfg, After(cfg, pids, es), p, After(cfg, pids, es).procs[p]);
  }

  lemma LogsOutOwnToken(cfg: Config, pids: set<Pid>, es: seq<Event>, p: Pid)
    requires cfg.Lawful() && Ran(cfg, pids, es) && p in pids
    requires ProcAfter(cfg, pids, es, p).pc.LoggingOut?
    ensures var q := ProcAfter(cfg, pids, es, p);
            && q.pc.raw == q.token != ""
            && (!q.pc.o.OutFind? ==> RowOf(cfg, After(cfg, pids, es), q.token, q.pc.o.row))
  {
    hide Replay, Shared, TokenInv, SetupsInv;
    RunsAreConsistent(cfg, pids, es);
    ProcessesStay(cfg, pids, es);
    assert ProcInv(cfg, After(cfg, pids, es), p, After(cfg, pids, es).procs[p]);
  }

  /** The session of the token `raw` was issued and has expired. */
  ghost predicate Expired(cfg: Config, w: World, raw: string) {
    cfg.hash(raw) in w.issued && w.issued[cfg.hash(raw)].expiresAt <= w.now
  }

  /** When a command looks the local token up, to validate it or to log out, the row it finds is
      never revoked, and finding none means that the session has expired: the "revoked" refusal
      is unreachable. */
  lemma LookupNeverFindsRevoked(cfg: Config, pids: set<Pid>, es: seq<Event>, n: nat)
    requires cfg.Lawful() && Ran(cfg, pids, es) && n < |es| && es[n].Act? && es[n].p in pids
    requires (es[n].pc.Validating? && es[n].pc.v.FindRow?) || (es[n].pc.LoggingOut? && es[n].pc.o.OutFind?)
    ensures Ran(cfg, pids, es[..n])
    ensures es[n].reply.Session? ==> es[n].reply.session.revokedAt.None?
    ensures es[n].reply.NoRow? ==> Expired(cfg, After(cfg, pids, es[..n]), es[n].pc.raw)
  {
    hide Replay, Resume, Effect, Expired;
    PrefixRan(cfg, pids, es, n);
    AtItsPc(cfg, pids, es, n);
    if es[n].pc.Validating? {
      ValidatesOwnToken(cfg, pids, es[..n], es[n].p);
    } else {
      LogsOutOwnToken(cfg, pids, es[..n], es[n].p);
    }
    OpenOrExpired(cfg, pids, es[..n], es[n].p);
    LookupsAnswer(cfg, After(cfg, pids, es[..n]), es[n]);
  }

  lemma OpenOrExpired(cfg: Config, pids: set<Pid>, es: seq<Event>, p: Pid)
    requires cfg.Lawful() && Ran(cfg, pids, es) && p in pids && ProcAfter(cfg, pids, es, p).token != ""
    ensures var w, raw := After(cfg, pids, es), ProcAfter(cfg, pids, es, p).token;
            if cfg.hash(raw) in w.tables.sessions then w.tables.sessions[cfg.hash(raw)].revokedAt.None?
            else Expired(cfg, w, raw)
  {
    hide Replay;
    HeldTokenIsOwnAndOpen(cfg, pids, es, p);
  }

  lemma LookupsAnswer(cfg: Config, w: World, e: Event)
    requires e.Act? && Enabled(cfg, w, e)
    requires (e.pc.Validating? && e.pc.v.FindRow?) || (e.pc.LoggingOut? && e.pc.o.OutFind?)
    ensures var h := cfg.hash(e.pc.raw);
            && (e.reply.Session? ==> h in w.tables.sessions && e.reply.session == w.tables.sessions[h])
            && (e.reply.NoRow? ==> h !in w.tables.sessions)
  {
    hide Resume, RegisterOp, LoginOp, CodeOp, FinishOp, SetupOp, DisableOp;
  }

  /** The user of a session that is being validated is always found. */
  lemma SessionsHaveUsers(cfg: Config, pids: set<Pid>, es: seq<Event>, n: nat)
    requires cfg.Lawful() && Ran(cfg, pids, es) && n < |es| && es[n].Act? && es[n].p in pids
    requires es[n].pc.Validating? && es[n].pc.v.FindUser?
    ensures !es[n].reply.NoRow?
  {
    hide Replay, Resume, Effect, ProcInv, Sound, Minting, Recorded, Accounts;
    PrefixRan(cfg, pids, es, n);
    AtItsPc(cfg, pids, es, n);
    ValidatesOwnToken(cfg, pids, es[..n], es[n].p);
    RunsAreConsistent(cfg, pids, es[..n]);
  }

  /** At whatever stage a validation refuses the local token, its session has expired. */
  lemma RefusalMeansExpiry(cfg: Config, pids: set<Pid>, es: seq<Event>, n: nat)
    requires cfg.Lawful() && Ran(cfg, pids, es) && n < |es| && es[n].Act? && es[n].p in pids && es[n].pc.Validating?
    ensures Ran(cfg, pids, es[..n]) && Ran(cfg, pids, es[..n + 1])
    ensures ProcAfter(cfg, pids, es[..n + 1], es[n].p).token == "" ==>
              Expired(cfg, After(cfg, pids, es[..n]), es[n].pc.raw)
  {
    hide Replay, Effect;
    PrefixRan(cfg, pids, es, n);
    AtItsPc(cfg, pids, es, n);
    ValidatesOwnToken(cfg, pids, es[..n], es[n].p);
    var q := ProcAfter(cfg, pids, es[..n], es[n].p);
    match q.pc.v
    case FindRow =>
      LookupNeverFindsRevoked(cfg, pids, es, n);
      RefusedOnlyWithoutRow(cfg, q, es[n].reply);
    case StampExpiry(row) =>
      RefusedOnlyWhenLate(cfg, After(cfg, pids, es[..n]), q, es[n]);
    case FindUser(_) =>
      SessionsHaveUsers(cfg, pids, es, n);
      RefusedOnlyWithoutRow(cfg, q, es[n].reply);
  }

  /** A logout that is answered reports a session that is no longer good only after it expired. */
  lemma LogoutFailsOnlyAfterExpiry(cfg: Config, pids: set<Pid>, es: seq<Event>, n: nat)
    requires cfg.Lawful() && Ran(cfg, pids, es) && n < |es| && es[n].Act? && es[n].p in pids && es[n].pc.LoggingOut?
    requires !es[n].reply.Failed? && es[n].reply != Done
    ensures Ran(cfg, pids, es[..n]) && Ran(cfg, pids, es[..n + 1])
    ensures ProcAfter(cfg, pids, es[..n + 1], es[n].p).pc == Shell ==>
              Expired(cfg, After(cfg, pids, es[..n]), es[n].pc.raw)
  {
    hide Replay, Effect;
    PrefixRan(cfg, pids, es, n);
    AtItsPc(cfg, pids, es, n);
    LogsOutOwnToken(cfg, pids, es[..n], es[n].p);
    HeldTokenIsOwnAndOpen(cfg, pids, es[..n], es[n].p);
    var w, q := After(cfg, pids, es[..n]), ProcAfter(cfg, pids, es[..n], es[n].p);
    if q.pc.o.OutFind? {
      LookupNeverFindsRevoked(cfg, pids, es, n);
    }
    RowsAgree(cfg, pids, es[..n], q.token);
    LogoutStops(cfg, w, q, es[n]);
  }

  lemma RowsAgree(cfg: Config, pids: set<Pid>, es: seq<Event>, raw: string)
    requires cfg.Lawful() && Ran(cfg, pids, es)
    ensures var w, h := After(cfg, pids, es), cfg.hash(raw);
            h in w.tables.sessions ==> h in w.issued && w.tables.sessions[h].id == w.issued[h].id
  {
    hide Replay, ProcInv, Sound, Minting, Issuing, Accounts;
    RunsAreConsistent(cfg, pids, es);
  }

  lemma LogoutStops(cfg: Config, w: World, q: Proc, e: Event)
    requires e.Act? && Enabled(cfg, w, e) && e.p in w.procs && w.procs[e.p] == q
    requires q.pc.LoggingOut? && q.pc.raw == q.token && !e.reply.Failed? && e.reply != Done
    requires q.pc.o.OutFind? ==>
               (e.reply.Session? ==> e.reply.session.revokedAt.None?) && (e.reply.NoRow? ==> Expired(cfg, w, q.token))
    requires !q.pc.o.OutFind? ==> RowOf(cfg, w, q.token, q.pc.o.row)
    requires var h := cfg.hash(q.token);
             if h in w.tables.sessions
             then h in w.issued && w.tables.sessions[h].id == w.issued[h].id && w.tables.sessions[h].revokedAt.None?
             else Expired(cfg, w, q.token)
    ensures Resume(cfg, q, e.reply).pc == Shell ==> Expired(cfg, w, q.token)
  {
    hide ResumeShell, ResumeRegister, ResumeLogin, ResumeCode, ResumeFinish, ResumeSetup, ResumeDisable, ResumeValidate;
    LogoutPcs(cfg, q);
  }

  lemma LogoutPcs(cfg: Config, q: Proc)
    requires q.pc.LoggingOut?
    ensures OpOf(cfg, q.pc) == LogoutOp(cfg, q.pc.raw, q.pc.o)
  {
  }

  lemma RefusedOnlyWithoutRow(cfg: Config, q: Proc, reply: Reply)
    requires q.pc.Validating? && q.pc.raw == q.token != "" && !q.pc.v.StampExpiry?
    requires !(reply.Session? && reply.session.revokedAt.Some?)
    ensures Resume(cfg, q, reply).token == "" ==> reply.NoRow?
  {
    hide ResumeShell, ResumeRegister, ResumeLogin, ResumeCode, ResumeFinish, ResumeSetup, ResumeDisable, ResumeLogout;
  }

  lemma RefusedOnlyWhenLate(cfg: Config, w: World, q: Proc, e: Event)
    requires Enabled(cfg, w, e) && e.Act? && e.p in w.procs && w.procs[e.p] == q
    requires q.pc.Validating? && q.pc.raw == q.token != "" && q.pc.v.StampExpiry? && RowOf(cfg, w, q.token, q.pc.v.row)
    ensures Resume(cfg, q, e.reply).token == "" ==> Expired(cfg, w, q.token)
  {
    hide ResumeShell, ResumeRegister, ResumeLogin, ResumeCode, ResumeFinish, ResumeSetup, ResumeDisable, ResumeLogout;
  }

  /** A validation that gets as far as reading the user passed its expiry check at a moment when
      the session was valid, for the user it was issued to; so a success can be trusted although
      the answer is put together from three requests. */
  lemma ValidationIsSound(cfg: Config, pids: set<Pid>, es: seq<Event>, p: Pid) returns (r: nat)
    requires cfg.Lawful() && Ran(cfg, pids, es) && p in pids
    requires ProcAfter(cfg, pids, es, p).pc.Validating? && ProcAfter(cfg, pids, es, p).pc.v.FindUser?
    ensures r < |es| && es[r].Act? && es[r].p == p && Ran(cfg, pids, es[..r])
    ensures var w, q := After(cfg, pids, es[..r]), ProcAfter(cfg, pids, es, p);
            var s := StandingOf(w.tables, cfg.hash(q.pc.raw), w.now);
            s.Valid? && s.user.id == q.pc.v.row.userId && s.expiresAt == q.pc.v.row.expiresAt
  {
    hide Replay, Resume, Effect;
    var before;
    r, before := Came(cfg, pids, es, p);
    BackToExpiry(cfg, before, es[r].reply, ProcAfter(cfg, pids, es, p).pc.raw, ProcAfter(cfg, pids, es, p).pc.why,
      ProcAfter(cfg, pids, es, p).pc.v.row);
    ValidatesOwnToken(cfg, pids, es[..r], p);
    HeldTokenIsOwnAndOpen(cfg, pids, es[..r], p);
    OpenRowIsValid(cfg, pids, es[..r], before.pc.raw, before.pc.v.row);
  }

  lemma BackToExpiry(cfg: Config, q: Proc, reply: Reply, raw: string, why: Purpose, row: SessionRow)
    requires q.pc != Exited && Resume(cfg, q, reply).pc == Validating(raw, why, FindUser(row))
    ensures q.pc == Validating(raw, why, StampExpiry(row)) && reply.Now? && reply.t < row.expiresAt
  {
    CodesNeverValidate(cfg, q, reply);
    LoginsNeverValidate(cfg, q, reply);
    OnlyStartsValidating(cfg, q, reply);
    hide ResumeLogin, ResumeCode, ResumeFinish, ResumeRegister, ResumeLogout, ResumeShell, ResumeSetup, ResumeDisable;
  }

  lemma OnlyStartsValidating(cfg: Config, q: Proc, reply: Reply)
    ensures var r := ResumeShell(q, reply); r.pc.Validating? ==> r.pc.v.FindRow?
    ensures forall raw, s :: var r := ResumeSetup(cfg, q, raw, s, reply); r.pc.Validating? ==> r.pc.v.FindRow?
    ensures forall d :: var r := ResumeDisable(cfg, q, d, reply); r.pc.Validating? ==> r.pc.v.FindRow?
  {
  }

  lemma CodesNeverValidate(cfg: Config, q: Proc, reply: Reply)
    ensures forall ch, c :: !ResumeCode(cfg, q, ch, c, reply).pc.Validating?
    ensures forall l :: !ResumeLogin(cfg, q, l, reply).pc.Validating?
  {
  }

  lemma LoginsNeverValidate(cfg: Config, q: Proc, reply: Reply)
    ensures forall u, via, f :: !ResumeFinish(q, u, via, f, reply).pc.Validating?
    ensures forall r :: !ResumeRegister(cfg, q, r, reply).pc.Validating?
    ensures forall raw, o :: !ResumeLogout(q, raw, o, reply).pc.Validating?
  {
  }

  lemma OpenRowIsValid(cfg: Config, pids: set<Pid>, es: seq<Event>, raw: string, row: SessionRow)
    requires cfg.Lawful() && Ran(cfg, pids, es)
    requires var w, h := After(cfg, pids, es), cfg.hash(raw);
             && RowOf(cfg, w, raw, row) && w.now < row.expiresAt
             && (h in w.tables.sessions ==> w.tables.sessions[h].revokedAt.None?)
    ensures var w := After(cfg, pids, es);
            var s := StandingOf(w.tables, cfg.hash(raw), w.now);
            s.Valid? && s.user.id == row.userId && s.expiresAt == row.expiresAt
  {
    hide Replay, Minting, Accounts, ProcInv;
    RunsAreConsistent(cfg, pids, es);
  }
}
