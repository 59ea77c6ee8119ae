/** The last-login column over whole runs, and what a login reports about the one before it. */
module LoginChain {
  import opened Wrappers
  import opened Tables
  import opened Program
  import opened World
  import opened Invariants
  import opened Provenance

  /** The event that committed the latest login of `u`. */
  ghost function LatestLoginAt(cfg: Config, pids: set<Pid>, es: seq<Event>, u: string): (r: Option<nat>)
    requires Ran(cfg, pids, es)
    ensures r.Some? ==> r.value < |es| && es[r.value].Act? && es[r.value].op.CommitSession? && es[r.value].op.u == u
    decreases |es|
  {
    if es == [] then None
    else if Commits(After(cfg, pids, Before(es)), Last(es)) && Last(es).op.u == u then Some(|es| - 1)
    else LatestLoginAt(cfg, pids, Before(es), u)
  }

  /** The moment stamped on it. */
  ghost function LatestLogin(cfg: Config, pids: set<Pid>, es: seq<Event>, u: string): Option<Time>
    requires Ran(cfg, pids, es)
  {
    match LatestLoginAt(cfg, pids, es, u)
    case None => None
    case Some(i) => Some(es[i].op.at)
  }

  lemma UsersStep(cfg: Config, w: World, e: Event, u: string)
    requires Consistent(cfg, w) && Enabled(cfg, w, e)
    ensures var v := Next(cfg, w, e);
            && (u in w.tables.users ==> u in v.tables.users)
            && (Commits(w, e) && e.op.u == u ==> u in w.tables.users && v.tables.users[u].lastLogin == Some(e.op.at))
            && (!(Commits(w, e) && e.op.u == u) && u in v.tables.users ==>
                  v.tables.users[u].lastLogin == if u in w.tables.users then w.tables.users[u].lastLogin else None)
  {
    hide Answers, Next, Effect, Resume, Shared, OpOf, CommitLogin;
    NextUsers(cfg, w, e);
    if Commits(w, e) {
      CommitOnUsers(w.tables, e.op.u, e.op.at, e.op.row);
    }
    if e.Act? {
      assert ProcInv(cfg, w, e.p, w.procs[e.p]);
      RequestsAreSane(cfg, w, e.p, w.procs[e.p]);
    }
  }

  /** The column is the chain of committed logins: `last_login_at` of `u` is the stamp of the
      latest one, and empty when there was none. */
  lemma {:induction false} LastLoginIsLatest(cfg: Config, pids: set<Pid>, es: seq<Event>, u: string)
    requires cfg.Lawful() && Ran(cfg, pids, es)
    ensures var users := After(cfg, pids, es).tables.users;
            if u in users then users[u].lastLogin == LatestLogin(cfg, pids, es, u)
              else LatestLogin(cfg, pids, es, u) == None
    decreases |es|
  {
    hide Next, Enabled, Consistent, Commits;
    if es != [] {
      LastLoginIsLatest(cfg, pids, Before(es), u);
      RunsAreConsistent(cfg, pids, Before(es));
      UsersStep(cfg, After(cfg, pids, Before(es)), Last(es), u);
    }
  }

  /** Event `k` commits a login of `u`. */
  ghost predicate LogsIn(cfg: Config, pids: set<Pid>, es: seq<Event>, k: nat, u: string) {
    k < |es| && Ran(cfg, pids, es[..k]) && Commits(After(cfg, pids, es[..k]), es[k]) && es[k].op.u == u
  }

  /** Whether `u` committed a login from event `from` on. */
  ghost predicate LoggedInSince(cfg: Config, pids: set<Pid>, es: seq<Event>, from: nat, u: string) {
    exists k: nat :: from <= k && LogsIn(cfg, pids, es, k, u)
  }

  lemma LogsInLater(cfg: Config, pids: set<Pid>, es: seq<Event>, k: nat, u: string)
    requires es != [] && LogsIn(cfg, pids, Before(es), k, u)
    ensures LogsIn(cfg, pids, es, k, u)
  {
    hide Replay, Commits;
    assert Before(es)[..k] == es[..k];
  }

  lemma {:induction false} LatestIsNoOlder(cfg: Config, pids: set<Pid>, es: seq<Event>, k: nat, u: string)
    requires Ran(cfg, pids, es) && LogsIn(cfg, pids, es, k, u)
    ensures var at := LatestLoginAt(cfg, pids, es, u); at.Some? && k <= at.value
    decreases |es|
  {
    hide Next, Enabled, Commits;
    var prior := Before(es);
    assert es[..|es| - 1] == prior;
    if k < |es| - 1 {
      assert prior[..k] == es[..k];
      LatestIsNoOlder(cfg, pids, prior, k, u);
    }
  }

  /** Of two moments of a run, the latest login of `u` is the same one exactly when none of `u`
      committed in between. */
  lemma {:induction false} LatestUnchangedExactly(cfg: Config, pids: set<Pid>, es: seq<Event>, from: nat, u: string)
    requires Ran(cfg, pids, es) && from <= |es|
    ensures Ran(cfg, pids, es[..from])
    ensures LatestLoginAt(cfg, pids, es[..from], u) == LatestLoginAt(cfg, pids, es, u)
            <==> !LoggedInSince(cfg, pids, es, from, u)
    decreases |es|
  {
    hide Next, Enabled, Commits;
    PrefixRan(cfg, pids, es, from);
    if k: nat :| from <= k && LogsIn(cfg, pids, es, k, u) {
      LatestIsNoOlder(cfg, pids, es, k, u);
    } else if from == |es| {
      assert es[..from] == es;
    } else {
      var prior := Before(es);
      assert prior[..from] == es[..from] && es[..|es| - 1] == prior;
      assert !LogsIn(cfg, pids, es, |es| - 1, u);
      if k: nat :| from <= k && LogsIn(cfg, pids, prior, k, u) {
        LogsInLater(cfg, pids, es, k, u);
      }
      LatestUnchangedExactly(cfg, pids, prior, from, u);
    }
  }

  lemma BackToReadUser(cfg: Config, q: Proc, reply: Reply, u: string, via: Option<string>, f: FinishPc)
    requires q.pc != Exited && f.CommitRow? && Resume(cfg, q, reply).pc == Finish(u, via, f)
    ensures q.pc == Finish(u, via, ReadUser(f.token, f.at, f.id)) && reply == User(f.row)
  {
    hide ResumeShell, ResumeRegister, ResumeValidate, ResumeLogout, ResumeSetup, ResumeDisable;
    hide ResumeLogin, ResumeCode;
    LoginsLead(cfg, q, reply);
  }

  /** The previous login a process is about to report, in the row it read inside its transaction,
      is the latest login of that user as of that read (event `r`); so it is the login just before
      its own exactly when no other login of the same user commits between the read and the
      commit. */
  lemma PreviousLoginIsLatestWhenRead(cfg: Config, pids: set<Pid>, es: seq<Event>, p: Pid) returns (r: nat)
    requires cfg.Lawful() && Ran(cfg, pids, es) && p in pids
    requires var pc := ProcAfter(cfg, pids, es, p).pc; pc.Finish? && pc.f.CommitRow?
    ensures r < |es| && Ran(cfg, pids, es[..r])
    ensures var pc := ProcAfter(cfg, pids, es, p).pc;
            && Heard(es[r], p, Finish(pc.u, pc.via, ReadUser(pc.f.token, pc.f.at, pc.f.id)), User(pc.f.row))
            && pc.f.row.lastLogin == LatestLogin(cfg, pids, es[..r], pc.u)
            && (LatestLoginAt(cfg, pids, es[..r], pc.u) == LatestLoginAt(cfg, pids, es, pc.u)
                <==> !LoggedInSince(cfg, pids, es, r, pc.u))
            && (!LoggedInSince(cfg, pids, es, r, pc.u) ==> pc.f.row.lastLogin == LatestLogin(cfg, pids, es, pc.u))
  {
    hide Resume, Effect, Replay, Consistent, LatestLoginAt, LoggedInSince;
    var before;
    r, before := Came(cfg, pids, es, p);
    var pc := ProcAfter(cfg, pids, es, p).pc;
    BackToReadUser(cfg, before, es[r].reply, pc.u, pc.via, pc.f);
    LastLoginIsLatest(cfg, pids, es[..r], pc.u);
    LatestUnchangedExactly(cfg, pids, es, r, pc.u);
  }
}
