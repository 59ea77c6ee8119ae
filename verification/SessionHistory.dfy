/** The sessions table read as history: which sessions are valid, and what a login reports, can
    be told from the events of the run alone. */
module SessionHistory {
  import opened Wrappers
  import opened Tables
  import opened Program
  import opened World
  import opened Invariants

  // ---- Two kinds of events that make history ----

  /** Event `i` committed the login that issued the token hash `h`. */
  ghost predicate IssuedAt(cfg: Config, pids: set<Pid>, es: seq<Event>, i: nat, h: string)
    requires Ran(cfg, pids, es)
  {
    && i < |es| && es[i].Act? && es[i].took
    && es[i].op.CommitSession? && es[i].op.row.tokenHash == h
    && Ran(cfg, pids, es[..i])
    && CommitLogin(After(cfg, pids, es[..i]).tables, es[i].op.u, es[i].op.at, es[i].op.row).Some?
  }

  /** Event `j` revoked the session `id`. */
  predicate RevokedAt(es: seq<Event>, j: nat, id: string) {
    j < |es| && es[j].Act? && es[j].took && es[j].op.RevokeSession? && es[j].op.id == id
  }

  predicate RevokedAfter(es: seq<Event>, i: nat, id: string) {
    exists j | i < j < |es| :: RevokedAt(es, j, id)
  }

  lemma IssuedAtSnoc(cfg: Config, pids: set<Pid>, es: seq<Event>, i: nat, h: string)
    requires es != [] && Ran(cfg, pids, es)
    ensures Ran(cfg, pids, Before(es))
    ensures i < |es| - 1 ==> (IssuedAt(cfg, pids, es, i, h) <==> IssuedAt(cfg, pids, Before(es), i, h))
  {
    hide Next, Enabled, CommitLogin;
    if i < |es| - 1 {
      assert Before(es)[..i] == es[..i] && Before(es)[i] == es[i];
    }
  }

  lemma RevokedAfterSnoc(es: seq<Event>, i: nat, id: string)
    requires es != [] && i < |es| - 1
    ensures RevokedAfter(es, i, id) <==> RevokedAfter(Before(es), i, id) || RevokedAt(es, |es| - 1, id)
  {
    if RevokedAfter(Before(es), i, id) {
      var j :| i < j < |Before(es)| && RevokedAt(Before(es), j, id);
      assert RevokedAt(es, j, id);
    }
    if RevokedAfter(es, i, id) && !RevokedAt(es, |es| - 1, id) {
      var j :| i < j < |es| && RevokedAt(es, j, id);
      assert RevokedAt(Before(es), j, id);
    }
  }

  /** The world remembers event `i` exactly as it happened. */
  ghost predicate Remembers(es: seq<Event>, w: World, i: nat, h: string)
    requires i < |es| && es[i].Act? && es[i].op.CommitSession?
  {
    var row := es[i].op.row;
    && h in w.issued
    && w.issued[h].id == row.id && w.issued[h].user == row.userId && w.issued[h].expiresAt == row.expiresAt
    && (h in w.tables.sessions ==> (w.tables.sessions[h].revokedAt.Some? <==> RevokedAfter(es, i, row.id)))
  }

  lemma RevokeAt(ss: map<string, SessionRow>, id: string, at: Time, h: string)
    requires h in ss
    ensures h in Revoke(ss, id, at)
    ensures Revoke(ss, id, at)[h].revokedAt.Some? <==> ss[h].revokedAt.Some? || ss[h].id == id
  {
  }

  /** One event later: what it does to the session `h` that is already there. */
  lemma SessionStep(cfg: Config, w: World, e: Event, h: string)
    requires Consistent(cfg, w) && Enabled(cfg, w, e) && h in w.issued
    ensures var v := Next(cfg, w, e);
            && h in v.issued && v.issued[h] == w.issued[h]
            && (h in v.tables.sessions ==>
                  h in w.tables.sessions
                  && (v.tables.sessions[h].revokedAt.Some?
                      <==> (w.tables.sessions[h].revokedAt.Some?
                            || (e.Act? && e.took && e.op.RevokeSession? && e.op.id == w.issued[h].id))))
  {
    hide Answers, Resume, Effect, Next, OpOf, Accounts, Minting, Sound, Issuing, CommitLogin, Revoke, ProcInv;
    NextSessions(cfg, w, e);
    if Commits(w, e) {
      CommitIsNew(cfg, w, e);
    }
    if e.Act? && e.took && e.op.RevokeSession? && h in w.tables.sessions {
      RevokeAt(w.tables.sessions, e.op.id, e.op.at, h);
    }
    if e.Act? && e.took && e.op.RevokeSession? && h !in w.tables.sessions {
      RevokeKeys(w.tables.sessions, e.op.id, e.op.at);
    }
  }

  lemma RevokeKeys(ss: map<string, SessionRow>, id: string, at: Time)
    ensures Revoke(ss, id, at).Keys == ss.Keys
  {
  }

  lemma CommitIsNew(cfg: Config, w: World, e: Event)
    requires Consistent(cfg, w) && Enabled(cfg, w, e) && Commits(w, e)
    ensures e.op.row.tokenHash !in w.issued && e.op.row.revokedAt.None? && e.op.row.userId == e.op.u
  {
    hide Answers, Resume, Effect, Next, Shared, CommitLogin, PcInv;
    assert ProcInv(cfg, w, e.p, w.procs[e.p]);
    RequestsAreSane(cfg, w, e.p, w.procs[e.p]);
  }

  /** A newly issued session is there, open. */
  lemma IssueStep(cfg: Config, w: World, e: Event)
    requires Consistent(cfg, w) && Enabled(cfg, w, e)
    requires e.Act? && e.took && e.op.CommitSession? && CommitLogin(w.tables, e.op.u, e.op.at, e.op.row).Some?
    ensures var v, h := Next(cfg, w, e), e.op.row.tokenHash;
            && h !in w.issued
            && h in v.issued && v.issued[h].id == e.op.row.id && v.issued[h].user == e.op.row.userId
            && v.issued[h].expiresAt == e.op.row.expiresAt
            && h in v.tables.sessions && v.tables.sessions[h].revokedAt.None?
  {
    hide Answers, Resume, Effect, Next, Consistent, OpOf, CommitLogin;
    CommitIsNew(cfg, w, e);
    NextSessions(cfg, w, e);
  }

  /** Only committing a login issues a session. */
  lemma OnlyCommitsIssue(cfg: Config, w: World, e: Event, h: string)
    requires Enabled(cfg, w, e)
    requires h in Next(cfg, w, e).issued && h !in w.issued
    ensures e.Act? && e.took && e.op.CommitSession? && e.op.row.tokenHash == h
    ensures CommitLogin(w.tables, e.op.u, e.op.at, e.op.row).Some?
  {
    hide Answers, Resume, Effect, Next, CommitLogin, OpOf;
    NextSessions(cfg, w, e);
  }

  lemma {:induction false} HistoryIsRemembered(cfg: Config, pids: set<Pid>, es: seq<Event>, i: nat, h: string)
    requires cfg.Lawful() && Ran(cfg, pids, es) && IssuedAt(cfg, pids, es, i, h)
    ensures Remembers(es, After(cfg, pids, es), i, h)
    decreases |es|
  {
    hide Next, Enabled, Consistent, CommitLogin;
    var prior := Before(es);
    IssuedAtSnoc(cfg, pids, es, i, h);
    RunsAreConsistent(cfg, pids, prior);
    var w := After(cfg, pids, prior);
    if i < |es| - 1 {
      HistoryIsRemembered(cfg, pids, prior, i, h);
      SessionStep(cfg, w, Last(es), h);
      RevokedAfterSnoc(es, i, es[i].op.row.id);
    } else {
      assert es[..i] == prior;
      IssueStep(cfg, w, Last(es));
      assert !RevokedAfter(es, i, es[i].op.row.id);
    }
  }

  /** Nothing is issued that no event issued. */
  lemma {:induction false} IssuesHaveEvents(cfg: Config, pids: set<Pid>, es: seq<Event>, h: string) returns (i: nat)
    requires cfg.Lawful() && Ran(cfg, pids, es) && h in After(cfg, pids, es).issued
    ensures IssuedAt(cfg, pids, es, i, h)
    decreases |es|
  {
    hide Next, Enabled, Consistent, CommitLogin;
    var prior := Before(es);
    var w := After(cfg, pids, prior);
    if h in w.issued {
      i := IssuesHaveEvents(cfg, pids, prior, h);
    } else {
      i := |es| - 1;
      OnlyCommitsIssue(cfg, w, Last(es), h);
      assert es[..i] == prior;
    }
    IssuedAtSnoc(cfg, pids, es, i, h);
  }

  /** Validity refines history. In every reachable world a session is valid exactly when some
      event committed the login that issued it, its expiry lies ahead, and no later event
      revoked it; cleanups and other sessions' logouts make no difference. */
  lemma ValidIffHistory(cfg: Config, pids: set<Pid>, es: seq<Event>, h: string)
    requires cfg.Lawful() && Ran(cfg, pids, es)
    ensures var w := After(cfg, pids, es);
            StandingOf(w.tables, h, w.now).Valid?
            <==> exists i: nat ::
                   IssuedAt(cfg, pids, es, i, h) && w.now < es[i].op.row.expiresAt
                     && !RevokedAfter(es, i, es[i].op.row.id)
  {
    hide Replay, Minting, Accounts, ProcInv, CommitLogin;
    var w := After(cfg, pids, es);
    RunsAreConsistent(cfg, pids, es);
    if StandingOf(w.tables, h, w.now).Valid? {
      var i := IssuesHaveEvents(cfg, pids, es, h);
      HistoryIsRemembered(cfg, pids, es, i, h);
    }
    forall i: nat | IssuedAt(cfg, pids, es, i, h) && w.now < es[i].op.row.expiresAt
      && !RevokedAfter(es, i, es[i].op.row.id)
      ensures StandingOf(w.tables, h, w.now).Valid?
    {
      HistoryIsRemembered(cfg, pids, es, i, h);
    }
  }

  /** A token hash is issued by one event only. */
  lemma {:induction false} IssuedOnce(cfg: Config, pids: set<Pid>, es: seq<Event>, i: nat, j: nat, h: string)
    requires cfg.Lawful() && Ran(cfg, pids, es) && IssuedAt(cfg, pids, es, i, h) && IssuedAt(cfg, pids, es, j, h)
    ensures i == j
  {
    hide Next, Enabled, Consistent, CommitLogin;
    if i < j {
      NotIssuedTwice(cfg, pids, es, i, j, h);
    } else if j < i {
      NotIssuedTwice(cfg, pids, es, j, i, h);
    }
  }

  lemma NotIssuedTwice(cfg: Config, pids: set<Pid>, es: seq<Event>, i: nat, j: nat, h: string)
    requires cfg.Lawful() && Ran(cfg, pids, es) && i < j && IssuedAt(cfg, pids, es, i, h)
    ensures !IssuedAt(cfg, pids, es, j, h)
  {
    hide Next, Consistent, CommitLogin;
    if IssuedAt(cfg, pids, es, j, h) {
      PrefixRan(cfg, pids, es, j);
      assert es[..j][..i] == es[..i];
      HistoryIsRemembered(cfg, pids, es[..j], i, h);
      RunsAreConsistent(cfg, pids, es[..j]);
      IssueStep(cfg, After(cfg, pids, es[..j]), es[j]);
    }
  }

  /** Once an issued session is found expired, revoked or gone it is never valid again. */
  lemma DeadStaysDead(cfg: Config, pids: set<Pid>, es: seq<Event>, n: nat, h: string)
    requires cfg.Lawful() && Ran(cfg, pids, es) && n <= |es|
    ensures Ran(cfg, pids, es[..n])
    ensures var w, v := After(cfg, pids, es[..n]), After(cfg, pids, es);
            h in w.issued && !StandingOf(w.tables, h, w.now).Valid? ==> !StandingOf(v.tables, h, v.now).Valid?
    decreases |es|
  {
    hide Next, Enabled, CommitLogin, RevokedAfter, Consistent;
    PrefixRan(cfg, pids, es, n);
    var w, v := After(cfg, pids, es[..n]), After(cfg, pids, es);
    if h in w.issued && StandingOf(v.tables, h, v.now).Valid? {
      ValidIffHistory(cfg, pids, es, h);
      var i: nat :| IssuedAt(cfg, pids, es, i, h) && v.now < es[i].op.row.expiresAt
        && !RevokedAfter(es, i, es[i].op.row.id);
      var k := IssuesHaveEvents(cfg, pids, es[..n], h);
      assert es[..n][..k] == es[..k];
      IssuedOnce(cfg, pids, es, i, k, h);
      NotYetRevoked(es, n, i, es[i].op.row.id);
      ClockAdvances(cfg, pids, es, n);
      ValidIffHistory(cfg, pids, es[..n], h);
    }
  }

  lemma NotYetRevoked(es: seq<Event>, n: nat, i: nat, id: string)
    requires i < n <= |es| && !RevokedAfter(es, i, id)
    ensures !RevokedAfter(es[..n], i, id)
  {
    if RevokedAfter(es[..n], i, id) {
      var j :| i < j < n && RevokedAt(es[..n], j, id);
      assert RevokedAt(es, j, id);
    }
  }

  lemma {:induction false} ClockAdvances(cfg: Config, pids: set<Pid>, es: seq<Event>, n: nat)
    requires Ran(cfg, pids, es) && n <= |es|
    ensures Ran(cfg, pids, es[..n])
    ensures After(cfg, pids, es[..n]).now <= After(cfg, pids, es).now
    decreases |es|
  {
    hide Answers, Next, OpOf;
    PrefixRan(cfg, pids, es, n);
    if n == |es| {
      assert es[..n] == es;
    } else {
      assert Before(es)[..n] == es[..n];
      ClockAdvances(cfg, pids, Before(es), n);
      NextSessions(cfg, After(cfg, pids, Before(es)), Last(es));
    }
  }

  // ---- Logging out ----

  /** A session that was issued and has no open row. */
  ghost predicate Closed(w: World, id: string) {
    (exists h | h in w.issued :: w.issued[h].id == id) && !Revocable(w.tables.sessions, id)
  }

  lemma ClosedStays(cfg: Config, w: World, e: Event, id: string)
    requires Consistent(cfg, w) && Enabled(cfg, w, e) && Closed(w, id)
    ensures Closed(Next(cfg, w, e), id)
  {
    hide Answers, Resume, Effect, Next, OpOf, Shared, CommitLogin, PcInv;
    NextSessions(cfg, w, e);
    var h :| h in w.issued && w.issued[h].id == id;
    assert h in IssuedAfter(w, e) && IssuedAfter(w, e)[h].id == id by {
      if Commits(w, e) {
        CommitIsNew(cfg, w, e);
      }
    }
    if Commits(w, e) {
      assert ProcInv(cfg, w, e.p, w.procs[e.p]);
      RequestsAreSane(cfg, w, e.p, w.procs[e.p]);
      assert e.op.row.id != id;
    }
  }

  lemma RevokeCloses(cfg: Config, w: World, e: Event)
    requires Consistent(cfg, w) && Enabled(cfg, w, e)
    requires e.Act? && e.op.RevokeSession? && e.reply == Done
    ensures Closed(Next(cfg, w, e), e.op.id) && !Closed(w, e.op.id)
  {
    hide Resume, Effect, Next, OpOf, CommitLogin, ProcInv, Minting, Accounts, Sound;
    NextSessions(cfg, w, e);
    var h :| h in w.tables.sessions && w.tables.sessions[h].id == e.op.id;
    assert h in w.issued && w.issued[h].id == e.op.id;
  }

  lemma {:induction false} ClosedSince(cfg: Config, pids: set<Pid>, es: seq<Event>, i: nat)
    requires cfg.Lawful() && Ran(cfg, pids, es) && i < |es|
    requires es[i].Act? && es[i].op.RevokeSession? && es[i].reply == Done
    ensures Closed(After(cfg, pids, es), es[i].op.id)
    decreases |es|
  {
    hide Next, Enabled, Consistent, Closed;
    var w := After(cfg, pids, Before(es));
    RunsAreConsistent(cfg, pids, Before(es));
    if i == |es| - 1 {
      RevokeCloses(cfg, w, Last(es));
    } else {
      ClosedSince(cfg, pids, Before(es), i);
      ClosedStays(cfg, w, Last(es), es[i].op.id);
    }
  }

  /** Of all the logouts of one session, by any processes, at most one succeeds in revoking it. */
  lemma RevokedOnce(cfg: Config, pids: set<Pid>, es: seq<Event>, i: nat, j: nat)
    requires cfg.Lawful() && Ran(cfg, pids, es) && i < j < |es|
    requires es[i].Act? && es[i].op.RevokeSession? && es[i].reply == Done
    requires es[j].Act? && es[j].op.RevokeSession? && es[j].op.id == es[i].op.id
    ensures es[j].reply != Done
  {
    hide Next, Consistent, Closed;
    PrefixRan(cfg, pids, es, j);
    ClosedSince(cfg, pids, es[..j], i);
    RunsAreConsistent(cfg, pids, es[..j]);
    if es[j].reply == Done {
      RevokeCloses(cfg, After(cfg, pids, es[..j]), es[j]);
    }
  }

  lemma RevocationIsLocal(cfg: Config, w: World, e: Event, h: string)
    requires Consistent(cfg, w) && Enabled(cfg, w, e) && e.Act? && e.took && e.op.RevokeSession?
    ensures var v := Next(cfg, w, e);
            if h in w.tables.sessions && w.tables.sessions[h].id == e.op.id
            then StandingOf(v.tables, h, v.now) == RevokedSession
            else StandingOf(v.tables, h, v.now) == StandingOf(w.tables, h, w.now)
  {
    hide Answers, Resume, Effect, Next, OpOf, ProcInv, Issuing, Minting, Accounts, Recorded, CommitLogin;
    NextSessions(cfg, w, e);
    NextUsers(cfg, w, e);
    RevokeIsLocalAndOnce(w.tables, e.op.id, e.op.at, 0, h, w.now);
  }

  /** In every run, a logout changes the standing of its own session and of no other. */
  lemma LogoutIsLocal(cfg: Config, pids: set<Pid>, es: seq<Event>, n: nat, h: string)
    requires cfg.Lawful() && Ran(cfg, pids, es) && n < |es|
    requires es[n].Act? && es[n].took && es[n].op.RevokeSession?
    ensures Ran(cfg, pids, es[..n]) && Ran(cfg, pids, es[..n + 1])
    ensures var w, v := After(cfg, pids, es[..n]), After(cfg, pids, es[..n + 1]);
            if h in w.tables.sessions && w.tables.sessions[h].id == es[n].op.id
            then StandingOf(v.tables, h, v.now) == RevokedSession
            else StandingOf(v.tables, h, v.now) == StandingOf(w.tables, h, w.now)
  {
    hide Replay, Enabled, Next, Consistent, StandingOf;
    PrefixRan(cfg, pids, es, n);
    RunsAreConsistent(cfg, pids, es[..n]);
    RevocationIsLocal(cfg, After(cfg, pids, es[..n]), es[n], h);
  }
}
