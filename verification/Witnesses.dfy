/** Runs that do happen: built event by event, they show that what the theorems about all runs
    allow for cannot be ruled out. */
module Witnesses {
  import opened Wrappers
  import opened Tables
  import opened Challenges
  import opened Setups
  import opened Program
  import opened World
  import opened Invariants
  import opened Provenance
  import opened LoginChain
  import opened Enrolment
  import Lockout

  /** A login that has read its user can commit. */
  lemma CommitIsAnswered(cfg: Config, w: World, p: Pid)
    requires Consistent(cfg, w) && p in w.procs && w.procs[p].pc.Finish? && w.procs[p].pc.f.CommitRow?
    requires w.procs[p].pc.u in w.tables.users
    ensures var op := OpOf(cfg, w.procs[p].pc);
            op.CommitSession? && CommitLogin(w.tables, op.u, op.at, op.row).Some? && Answers(cfg, w, op, Done)
  {
    assert ProcInv(cfg, w, p, w.procs[p]);
    assert FinishInv(cfg, w, p, w.procs[p], w.procs[p].pc.u, w.procs[p].pc.via, w.procs[p].pc.f);
  }

  /** Process `p` gets an answer to its request, and the run goes on. */
  lemma Answered(cfg: Config, pids: set<Pid>, es: seq<Event>, p: Pid, reply: Reply) returns (more: seq<Event>)
    requires Ran(cfg, pids, es) && p in pids && ProcAfter(cfg, pids, es, p).pc != Exited && !reply.Failed?
    requires Answers(cfg, After(cfg, pids, es), OpOf(cfg, ProcAfter(cfg, pids, es, p).pc), reply)
    ensures var q, w := ProcAfter(cfg, pids, es, p), After(cfg, pids, es);
            && more == es + [Act(p, q.pc, OpOf(cfg, q.pc), reply, true)]
            && Ran(cfg, pids, more)
            && After(cfg, pids, more)
               == Effect(cfg, w, p, OpOf(cfg, q.pc), reply, TokenAt(q.pc))
                  .(procs := w.procs[p := Resume(cfg, q, reply)])
  {
    hide Answers, Effect, Resume, OpOf;
    ProcessesStay(cfg, pids, es);
    var q := ProcAfter(cfg, pids, es, p);
    more := es + [Act(p, q.pc, OpOf(cfg, q.pc), reply, true)];
    assert Before(more) == es;
  }

  /** Process `p` is about to read the user in the transaction of a login of `u`. */
  predicate AboutToRead(q: Proc, u: string) {
    q.pc.Finish? && q.pc.u == u && q.pc.f.ReadUser?
  }

  /** The user is read. */
  lemma Reads(cfg: Config, pids: set<Pid>, es: seq<Event>, p: Pid, u: string) returns (more: seq<Event>)
    requires Ran(cfg, pids, es) && p in pids && AboutToRead(ProcAfter(cfg, pids, es, p), u)
    requires u in After(cfg, pids, es).tables.users
    ensures var q, w := ProcAfter(cfg, pids, es, p), After(cfg, pids, es);
            && |more| == |es| + 1 && more[..|es|] == es && Ran(cfg, pids, more)
            && After(cfg, pids, more) == w.(procs := w.procs[p := q.(pc :=
                 Finish(u, q.pc.via, CommitRow(q.pc.f.token, q.pc.f.at, q.pc.f.id, w.tables.users[u])))])
  {
    hide Replay;
    more := Answered(cfg, pids, es, p, User(After(cfg, pids, es).tables.users[u]));
  }

  /** The login commits. */
  lemma CompletesLogin(cfg: Config, pids: set<Pid>, es: seq<Event>, p: Pid) returns (more: seq<Event>)
    requires cfg.Lawful() && Ran(cfg, pids, es) && p in pids
    requires var q := ProcAfter(cfg, pids, es, p);
             q.pc.Finish? && q.pc.f.CommitRow? && q.pc.u in After(cfg, pids, es).tables.users
    ensures var q, w := ProcAfter(cfg, pids, es, p), After(cfg, pids, es);
            && |more| == |es| + 1 && more[..|es|] == es && Ran(cfg, pids, more)
            && more[|es|].Act? && more[|es|].p == p && more[|es|].pc == q.pc
            && more[|es|].reply == Done && Commits(w, more[|es|]) && more[|es|].op.u == q.pc.u
            && CommitLogin(w.tables, q.pc.u, more[|es|].op.at, more[|es|].op.row)
               == Some(After(cfg, pids, more).tables)
            && more[|es|].op == OpOf(cfg, q.pc) && After(cfg, pids, more).now == w.now
            && After(cfg, pids, more).tables.users.Keys == w.tables.users.Keys
            && After(cfg, pids, more).procs == w.procs[p := Prompt(Spend(q, q.pc.via)).(token := q.pc.f.token)]
  {
    hide Replay, Consistent;
    RunsAreConsistent(cfg, pids, es);
    ProcessesStay(cfg, pids, es);
    CommitIsAnswered(cfg, After(cfg, pids, es), p);
    more := Answered(cfg, pids, es, p, Done);
    CommitChanges(After(cfg, pids, es).tables, more[|es|].op.u, more[|es|].op.at, more[|es|].op.row);
  }

  /** In every run in which two processes have come to the transaction of a login of the same
      user, both may read before either commits; then both logins succeed and report the same
      previous login. */
  lemma InterleavedLoginsReportTheSame(cfg: Config, pids: set<Pid>, es: seq<Event>, p: Pid, q: Pid, u: string)
    returns (more: seq<Event>)
    requires cfg.Lawful() && Ran(cfg, pids, es) && p in pids && q in pids && p != q
    requires AboutToRead(ProcAfter(cfg, pids, es, p), u) && AboutToRead(ProcAfter(cfg, pids, es, q), u)
    requires u in After(cfg, pids, es).tables.users
    ensures |more| == |es| + 4 && more[..|es|] == es && Ran(cfg, pids, more)
    ensures SameReport(cfg, pids, more, |es| + 2, |es| + 3, p, q, u)
    ensures Ran(cfg, pids, more[..|es| + 3]) && LatestLoginAt(cfg, pids, more[..|es| + 3], u) == Some(|es| + 2)
  {
    hide Replay, Consistent, Commits, LatestLogin;
    ProcessesStay(cfg, pids, es);
    var one := Reads(cfg, pids, es, p, u);
    var two := Reads(cfg, pids, one, q, u);
    var three := CompletesLogin(cfg, pids, two, p);
    more := CompletesLogin(cfg, pids, three, q);
    assert more[..|es| + 2] == two && more[..|es| + 3] == three && Before(three) == two;
    assert more[..|es|] == es;
  }

  /** Events `i` and `j` commit logins of `u` by `p` and `q`, and both report the same moment as
      the login before. */
  ghost predicate SameReport(
      cfg: Config, pids: set<Pid>, es: seq<Event>, i: nat, j: nat, p: Pid, q: Pid, u: string) {
    && LogsIn(cfg, pids, es, i, u) && es[i].p == p && es[i].reply == Done
    && LogsIn(cfg, pids, es, j, u) && es[j].p == q && es[j].reply == Done
    && i < j && p != q
    && es[i].pc.Finish? && es[i].pc.f.CommitRow? && es[j].pc.Finish? && es[j].pc.f.CommitRow?
    && es[i].pc.f.row.lastLogin == es[j].pc.f.row.lastLogin
  }

  // ---- From the start of the processes ----

  /** A process that has started shows its prompt. */
  lemma Boots(cfg: Config, pids: set<Pid>, es: seq<Event>, p: Pid) returns (more: seq<Event>)
    requires Ran(cfg, pids, es) && p in pids && ProcAfter(cfg, pids, es, p) == STARTED
    requires After(cfg, pids, es).tables == EMPTY_TABLES
    ensures Ran(cfg, pids, more)
    ensures var w := After(cfg, pids, es); After(cfg, pids, more) == w.(procs := w.procs[p := Prompt(STARTED)])
  {
    hide Replay;
    var w := After(cfg, pids, es);
    more := Answered(cfg, pids, es, p, Now(w.now));
    more := Answered(cfg, pids, more, p, Done);
    assert DeleteExpired(w.tables.sessions, w.now) == map[];
  }

  /** What somebody could type and the random source could give to register and log in. */
  datatype Applicant = Applicant(typed: string, password: string, id: string, passwordHash: string)

  function RowOfApplicant(cfg: Config, a: Applicant): UserRow {
    UserRow(a.id, cfg.normalize(a.typed), a.passwordHash, false, None, None)
  }

  predicate CanRegister(cfg: Config, a: Applicant) {
    && cfg.validUsername(cfg.normalize(a.typed)) && cfg.validPassword(a.password)
    && cfg.passwordOk(a.passwordHash, a.password)
  }

  /** The world `w` with process `p` where `q` says. */
  function Moved(w: World, p: Pid, q: Proc): World {
    w.(procs := w.procs[p := q])
  }

  /** A user registers and is back at the prompt. */
  lemma Registers(cfg: Config, pids: set<Pid>, es: seq<Event>, p: Pid, a: Applicant) returns (more: seq<Event>)
    requires Ran(cfg, pids, es) && p in pids && ProcAfter(cfg, pids, es, p) == Prompt(STARTED)
    requires After(cfg, pids, es).tables == EMPTY_TABLES && a.id !in After(cfg, pids, es).ids && CanRegister(cfg, a)
    ensures Ran(cfg, pids, more)
    ensures var w, row := After(cfg, pids, es), RowOfApplicant(cfg, a);
            After(cfg, pids, more) == w.(ids := w.ids[a.id := p], tables := Snapshot(map[a.id := row], map[]))
  {
    hide Replay, Effect, Answers, Resume;
    more := FillsForm(cfg, pids, es, p, a);
    more := HashesPassword(cfg, pids, more, p, a);
    more := InsertsUser(cfg, pids, more, p, a);
    ProcessesStay(cfg, pids, es);
    assert After(cfg, pids, more).procs == After(cfg, pids, es).procs;
  }

  lemma HashesPassword(cfg: Config, pids: set<Pid>, es: seq<Event>, p: Pid, a: Applicant) returns (more: seq<Event>)
    requires Ran(cfg, pids, es) && p in pids && After(cfg, pids, es).tables == EMPTY_TABLES
    requires ProcAfter(cfg, pids, es, p) == STARTED.(pc := Registering(RegFind(cfg.normalize(a.typed), a.password)))
    ensures Ran(cfg, pids, more)
    ensures After(cfg, pids, more)
            == Moved(After(cfg, pids, es), p,
              STARTED.(pc := Registering(RegId(cfg.normalize(a.typed), a.passwordHash))))
  {
    hide Replay;
    more := Answered(cfg, pids, es, p, NoRow);
    more := Answered(cfg, pids, more, p, Fresh(a.passwordHash));
  }

  lemma InsertsUser(cfg: Config, pids: set<Pid>, es: seq<Event>, p: Pid, a: Applicant) returns (more: seq<Event>)
    requires Ran(cfg, pids, es) && p in pids
    requires After(cfg, pids, es).tables == EMPTY_TABLES && a.id !in After(cfg, pids, es).ids
    requires ProcAfter(cfg, pids, es, p) == STARTED.(pc := Registering(RegId(cfg.normalize(a.typed), a.passwordHash)))
    ensures Ran(cfg, pids, more)
    ensures var w, row := After(cfg, pids, es), RowOfApplicant(cfg, a);
            After(cfg, pids, more)
            == Moved(w, p, Prompt(STARTED)).(ids := w.ids[a.id := p], tables := Snapshot(map[a.id := row], map[]))
  {
    hide Replay, Effect, Answers, Resume;
    more := GetsId(cfg, pids, es, p, a);
    more := InsertsRow(cfg, pids, more, p, a);
  }

  lemma GetsId(cfg: Config, pids: set<Pid>, es: seq<Event>, p: Pid, a: Applicant) returns (more: seq<Event>)
    requires Ran(cfg, pids, es) && p in pids && a.id !in After(cfg, pids, es).ids
    requires ProcAfter(cfg, pids, es, p) == STARTED.(pc := Registering(RegId(cfg.normalize(a.typed), a.passwordHash)))
    ensures Ran(cfg, pids, more)
    ensures var w := After(cfg, pids, es);
            After(cfg, pids, more)
            == Moved(w, p, STARTED.(pc := Registering(RegCreate(RowOfApplicant(cfg, a))))).(ids := w.ids[a.id := p])
  {
    hide Replay;
    more := Answered(cfg, pids, es, p, Fresh(a.id));
  }

  lemma InsertsRow(cfg: Config, pids: set<Pid>, es: seq<Event>, p: Pid, a: Applicant) returns (more: seq<Event>)
    requires Ran(cfg, pids, es) && p in pids && After(cfg, pids, es).tables == EMPTY_TABLES
    requires ProcAfter(cfg, pids, es, p) == STARTED.(pc := Registering(RegCreate(RowOfApplicant(cfg, a))))
    ensures Ran(cfg, pids, more)
    ensures After(cfg, pids, more)
            == Moved(After(cfg, pids, es), p, Prompt(STARTED))
               .(tables := Snapshot(map[a.id := RowOfApplicant(cfg, a)], map[]))
  {
    hide Replay;
    more := Answered(cfg, pids, es, p, Done);
  }

  lemma FillsForm(cfg: Config, pids: set<Pid>, es: seq<Event>, p: Pid, a: Applicant) returns (more: seq<Event>)
    requires Ran(cfg, pids, es) && p in pids && ProcAfter(cfg, pids, es, p) == Prompt(STARTED) && CanRegister(cfg, a)
    ensures Ran(cfg, pids, more)
    ensures var w := After(cfg, pids, es);
            After(cfg, pids, more)
            == w.(procs := w.procs[p := STARTED.(pc := Registering(RegFind(cfg.normalize(a.typed), a.password)))])
  {
    hide Replay;
    more := Answered(cfg, pids, es, p, Cmd(Register));
    more := Answered(cfg, pids, more, p, Lines(a.typed, a.password, a.password));
  }

  /** With the password alone a user without two-factor comes to the transaction of the login. */
  lemma ShowsPassword(
      cfg: Config, pids: set<Pid>, es: seq<Event>, p: Pid, a: Applicant, token: string, id: string)
    returns (more: seq<Event>)
    requires cfg.Lawful() && Ran(cfg, pids, es) && p in pids && ProcAfter(cfg, pids, es, p) == Prompt(STARTED)
    requires After(cfg, pids, es).tables == Snapshot(map[a.id := RowOfApplicant(cfg, a)], map[]) && CanRegister(cfg, a)
    requires var w := After(cfg, pids, es);
             && !Locked(w, a.id) && id !in w.ids
             && token != "" && forall t | t in w.minted :: cfg.hash(t) != cfg.hash(token)
    ensures Ran(cfg, pids, more)
    ensures var w := After(cfg, pids, es);
            After(cfg, pids, more)
            == Moved(w, p, STARTED.(pc := Finish(a.id, None, ReadUser(token, w.now, id))))
               .(cells := w.cells[a.id := Lockout.CLEAN], minted := w.minted[token := p], ids := w.ids[id := p])
  {
    hide Replay, Effect, Answers, Resume;
    more := PassesGate(cfg, pids, es, p, a);
    more := MakesToken(cfg, pids, more, p, a.id, token);
    more := MakesId(cfg, pids, more, p, a.id, token, id);
  }

  lemma PassesGate(cfg: Config, pids: set<Pid>, es: seq<Event>, p: Pid, a: Applicant) returns (more: seq<Event>)
    requires Ran(cfg, pids, es) && p in pids && ProcAfter(cfg, pids, es, p) == Prompt(STARTED)
    requires After(cfg, pids, es).tables == Snapshot(map[a.id := RowOfApplicant(cfg, a)], map[]) && CanRegister(cfg, a)
    requires !Locked(After(cfg, pids, es), a.id)
    ensures Ran(cfg, pids, more)
    ensures After(cfg, pids, more) == Moved(After(cfg, pids, es), p, STARTED.(pc := Finish(a.id, None, ClearCounter)))
  {
    hide Replay, Effect, Answers, Resume;
    more := NamesUser(cfg, pids, es, p, a);
    more := MatchesPassword(cfg, pids, more, p, a);
  }

  lemma NamesUser(cfg: Config, pids: set<Pid>, es: seq<Event>, p: Pid, a: Applicant) returns (more: seq<Event>)
    requires Ran(cfg, pids, es) && p in pids && ProcAfter(cfg, pids, es, p) == Prompt(STARTED)
    ensures Ran(cfg, pids, more)
    ensures After(cfg, pids, more)
            == Moved(After(cfg, pids, es), p, STARTED.(pc := LoggingIn(LoginFind(cfg.normalize(a.typed), a.password))))
  {
    hide Replay;
    more := Answered(cfg, pids, es, p, Cmd(Login));
    more := Answered(cfg, pids, more, p, Lines(a.typed, a.password, ""));
  }

  lemma MatchesPassword(cfg: Config, pids: set<Pid>, es: seq<Event>, p: Pid, a: Applicant) returns (more: seq<Event>)
    requires Ran(cfg, pids, es) && p in pids
    requires ProcAfter(cfg, pids, es, p) == STARTED.(pc := LoggingIn(LoginFind(cfg.normalize(a.typed), a.password)))
    requires After(cfg, pids, es).tables == Snapshot(map[a.id := RowOfApplicant(cfg, a)], map[]) && CanRegister(cfg, a)
    requires !Locked(After(cfg, pids, es), a.id)
    ensures Ran(cfg, pids, more)
    ensures After(cfg, pids, more) == Moved(After(cfg, pids, es), p, STARTED.(pc := Finish(a.id, None, ClearCounter)))
  {
    hide Replay;
    more := FindsUser(cfg, pids, es, p, a);
    more := Answered(cfg, pids, more, p, Flag(false));
  }

  lemma FindsUser(cfg: Config, pids: set<Pid>, es: seq<Event>, p: Pid, a: Applicant) returns (more: seq<Event>)
    requires Ran(cfg, pids, es) && p in pids
    requires ProcAfter(cfg, pids, es, p) == STARTED.(pc := LoggingIn(LoginFind(cfg.normalize(a.typed), a.password)))
    requires After(cfg, pids, es).tables == Snapshot(map[a.id := RowOfApplicant(cfg, a)], map[])
    ensures Ran(cfg, pids, more)
    ensures After(cfg, pids, more)
            == Moved(After(cfg, pids, es), p, STARTED.(pc := LoggingIn(LoginGate(RowOfApplicant(cfg, a), a.password))))
  {
    hide Replay;
    var users := After(cfg, pids, es).tables.users;
    assert a.id in users && users[a.id].username == cfg.normalize(a.typed);
    more := Answered(cfg, pids, es, p, User(RowOfApplicant(cfg, a)));
  }

  lemma MakesToken(cfg: Config, pids: set<Pid>, es: seq<Event>, p: Pid, u: string, token: string)
    returns (more: seq<Event>)
    requires Ran(cfg, pids, es) && p in pids
             && ProcAfter(cfg, pids, es, p) == STARTED.(pc := Finish(u, None, ClearCounter))
    requires token != "" && forall t | t in After(cfg, pids, es).minted :: cfg.hash(t) != cfg.hash(token)
    ensures Ran(cfg, pids, more)
    ensures var w := After(cfg, pids, es);
            After(cfg, pids, more)
            == Moved(w, p, STARTED.(pc := Finish(u, None, StampSession(token))))
               .(cells := w.cells[u := Lockout.CLEAN], minted := w.minted[token := p])
  {
    hide Replay;
    more := Answered(cfg, pids, es, p, Done);
    more := Answered(cfg, pids, more, p, Fresh(token));
  }

  lemma MakesId(cfg: Config, pids: set<Pid>, es: seq<Event>, p: Pid, u: string, token: string, id: string)
    returns (more: seq<Event>)
    requires Ran(cfg, pids, es) && p in pids && id !in After(cfg, pids, es).ids
    requires ProcAfter(cfg, pids, es, p) == STARTED.(pc := Finish(u, None, StampSession(token)))
    ensures Ran(cfg, pids, more)
    ensures var w := After(cfg, pids, es);
            After(cfg, pids, more)
            == Moved(w, p, STARTED.(pc := Finish(u, None, ReadUser(token, w.now, id)))).(ids := w.ids[id := p])
  {
    hide Replay;
    more := Answered(cfg, pids, es, p, Now(After(cfg, pids, es).now));
    more := Answered(cfg, pids, more, p, Fresh(id));
  }

  lemma NothingYet(cfg: Config, pids: set<Pid>)
    ensures Ran(cfg, pids, []) && After(cfg, pids, []) == Start(pids)
  {
  }

  /** Two processes that start on an empty database come to the transaction of a login of the
      same user. */
  lemma TwoLoginsBegin(cfg: Config, a: Applicant, token: string, other: string) returns (es: seq<Event>)
    requires cfg.Lawful() && CanRegister(cfg, a) && token != "" && other != "" && cfg.hash(token) != cfg.hash(other)
    ensures Ran(cfg, {0, 1}, es)
    ensures var w := After(cfg, {0, 1}, es);
            && w.now == 0 && w.tables == Snapshot(map[a.id := RowOfApplicant(cfg, a)], map[])
            && ProcAfter(cfg, {0, 1}, es, 0) == STARTED.(pc := Finish(a.id, None, ReadUser(token, w.now, a.id + "0")))
            && ProcAfter(cfg, {0, 1}, es, 1) == STARTED.(pc := Finish(a.id, None, ReadUser(other, w.now, a.id + "1")))
  {
    hide Replay, Effect, Answers, Resume;
    assert (a.id + "0")[|a.id|] != (a.id + "1")[|a.id|];
    NothingYet(cfg, {0, 1});
    es := Boots(cfg, {0, 1}, [], 0);
    es := Boots(cfg, {0, 1}, es, 1);
    es := Registers(cfg, {0, 1}, es, 0, a);
    es := ShowsPassword(cfg, {0, 1}, es, 0, a, token, a.id + "0");
    es := ShowsPassword(cfg, {0, 1}, es, 1, a, other, a.id + "1");
  }

  /** Started on an empty database, two processes can complete logins of one user that report the
      same login before. */
  lemma LoginsThatReportTheSame(cfg: Config, a: Applicant, token: string, other: string)
    returns (es: seq<Event>, i: nat, j: nat)
    requires cfg.Lawful() && CanRegister(cfg, a) && token != "" && other != "" && cfg.hash(token) != cfg.hash(other)
    ensures Ran(cfg, {0, 1}, es) && SameReport(cfg, {0, 1}, es, i, j, 0, 1, a.id)
  {
    hide Replay, Answers, Effect, Resume, SameReport;
    var begun := TwoLoginsBegin(cfg, a, token, other);
    i, j := |begun| + 2, |begun| + 3;
    es := InterleavedLoginsReportTheSame(cfg, {0, 1}, begun, 0, 1, a.id);
  }

  // ---- Enrolling ----

  /** The session `raw` belongs to `u`, is open and has time left. */
  predicate OpenFor(cfg: Config, w: World, raw: string, u: string) {
    && raw != "" && cfg.hash(raw) in w.tables.sessions && u in w.tables.users
    && var row := w.tables.sessions[cfg.hash(raw)];
    row.userId == u && row.revokedAt.None? && w.now < row.expiresAt
  }

  lemma Validates(cfg: Config, pids: set<Pid>, es: seq<Event>, p: Pid, raw: string, why: Purpose, u: string)
    returns (more: seq<Event>)
    requires Ran(cfg, pids, es) && p in pids && OpenFor(cfg, After(cfg, pids, es), raw, u)
    requires ProcAfter(cfg, pids, es, p).pc == Validating(raw, why, FindRow)
    ensures Ran(cfg, pids, more)
    ensures var w := After(cfg, pids, es);
            After(cfg, pids, more) == Moved(w, p, Accepted(ProcAfter(cfg, pids, es, p), raw, why, w.tables.users[u]))
  {
    hide Replay;
    var w := After(cfg, pids, es);
    var row := w.tables.sessions[cfg.hash(raw)];
    more := Answered(cfg, pids, es, p, Session(row));
    more := Answered(cfg, pids, more, p, Now(w.now));
    more := Answered(cfg, pids, more, p, User(w.tables.users[u]));
  }

  /** An enrolment that could go through: the session is open, its user has two-factor off, and
      `code` is accepted for `secret` now. */
  datatype Attempt = Attempt(raw: string, u: string, secret: string, code: string, nonce: string)

  predicate Ready(cfg: Config, w: World, q: Proc, n: Attempt) {
    && q.pc == Shell && q.token == n.raw && OpenFor(cfg, w, n.raw, n.u) && w.tables.users[n.u].id == n.u
    && !w.tables.users[n.u].totpEnabled
    && cfg.setupTimeout > 0 && !cfg.blank(n.code) && cfg.checkCode(n.secret, n.code, w.now) == Match
  }

  function PendingOf(cfg: Config, w: World, n: Attempt): Pending {
    Pending(n.u, n.secret, w.now + cfg.setupTimeout, cfg.hash(n.raw))
  }

  function Underway(cfg: Config, w: World, q: Proc, n: Attempt, s: SetupPc): Proc {
    q.(setups := Begin(q.setups, PendingOf(cfg, w, n)), pc := Setup(n.raw, s))
  }

  lemma BeginsSetup(cfg: Config, pids: set<Pid>, es: seq<Event>, p: Pid, n: Attempt) returns (more: seq<Event>)
    requires Ran(cfg, pids, es) && p in pids && Ready(cfg, After(cfg, pids, es), ProcAfter(cfg, pids, es, p), n)
    ensures Ran(cfg, pids, more)
    ensures var w, q := After(cfg, pids, es), ProcAfter(cfg, pids, es, p);
            After(cfg, pids, more) == Moved(w, p, Underway(cfg, w, q, n, AskSetup))
  {
    hide Replay, Begin;
    more := Answered(cfg, pids, es, p, Cmd(EnableTwoFactor));
    more := Validates(cfg, pids, more, p, n.raw, ForSetup, n.u);
    more := GetsSecret(cfg, pids, more, p, n);
  }

  lemma GetsSecret(cfg: Config, pids: set<Pid>, es: seq<Event>, p: Pid, n: Attempt) returns (more: seq<Event>)
    requires Ran(cfg, pids, es) && p in pids && ProcAfter(cfg, pids, es, p).pc == Setup(n.raw, MakeSecret(n.u))
    ensures Ran(cfg, pids, more)
    ensures var w, q := After(cfg, pids, es), ProcAfter(cfg, pids, es, p);
            After(cfg, pids, more) == Moved(w, p, Underway(cfg, w, q, n, AskSetup))
  {
    hide Replay, Begin;
    more := Answered(cfg, pids, es, p, Fresh(n.secret));
    more := Answered(cfg, pids, more, p, Now(After(cfg, pids, es).now));
  }

  lemma GivesCode(cfg: Config, pids: set<Pid>, es: seq<Event>, p: Pid, n: Attempt, q: Proc) returns (more: seq<Event>)
    requires Ran(cfg, pids, es) && p in pids
    requires Ready(cfg, After(cfg, pids, es), q, n)
    requires ProcAfter(cfg, pids, es, p) == Underway(cfg, After(cfg, pids, es), q, n, AskSetup)
    ensures Ran(cfg, pids, more)
    ensures var w := After(cfg, pids, es);
            After(cfg, pids, more)
            == Moved(w, p, Underway(cfg, w, q, n, StampConfirm(n.code, w.tables.users[n.u], PendingOf(cfg, w, n))))
  {
    hide Replay;
    more := Answered(cfg, pids, es, p, Lines(n.code, "", ""));
    more := Validates(cfg, pids, more, p, n.raw, ForConfirm(n.code), n.u);
  }

  lemma MatchesCode(cfg: Config, pids: set<Pid>, es: seq<Event>, p: Pid, n: Attempt, q: Proc) returns (more: seq<Event>)
    requires Ran(cfg, pids, es) && p in pids
    requires Ready(cfg, After(cfg, pids, es), q, n)
    requires var w := After(cfg, pids, es);
             ProcAfter(cfg, pids, es, p)
             == Underway(cfg, w, q, n, StampConfirm(n.code, w.tables.users[n.u], PendingOf(cfg, w, n)))
    ensures Ran(cfg, pids, more)
    ensures var w := After(cfg, pids, es);
            After(cfg, pids, more) == Moved(w, p, Underway(cfg, w, q, n, MakeNonce(PendingOf(cfg, w, n))))
  {
    hide Replay, Begin;
    var now := Now(After(cfg, pids, es).now);
    more := Answered(cfg, pids, es, p, now);
    more := Answered(cfg, pids, more, p, now);
  }

  /** Everything but storing the secret has been done. */
  lemma ConfirmsSetup(cfg: Config, pids: set<Pid>, es: seq<Event>, p: Pid, n: Attempt) returns (more: seq<Event>)
    requires Ran(cfg, pids, es) && p in pids && Ready(cfg, After(cfg, pids, es), ProcAfter(cfg, pids, es, p), n)
    ensures Ran(cfg, pids, more)
    ensures var w, q := After(cfg, pids, es), ProcAfter(cfg, pids, es, p);
            var pending := PendingOf(cfg, w, n);
            After(cfg, pids, more)
            == Moved(w, p, Underway(cfg, w, q, n, StoreSecret(pending, cfg.encrypt(n.secret, n.nonce))))
  {
    hide Replay, Begin, Answers, Effect;
    var q := ProcAfter(cfg, pids, es, p);
    more := BeginsSetup(cfg, pids, es, p, n);
    more := GivesCode(cfg, pids, more, p, n, q);
    more := MatchesCode(cfg, pids, more, p, n, q);
    more := GetsNonce(cfg, pids, more, p, n, q);
  }

  lemma GetsNonce(cfg: Config, pids: set<Pid>, es: seq<Event>, p: Pid, n: Attempt, q: Proc) returns (more: seq<Event>)
    requires Ran(cfg, pids, es) && p in pids
    requires var w := After(cfg, pids, es);
             ProcAfter(cfg, pids, es, p) == Underway(cfg, w, q, n, MakeNonce(PendingOf(cfg, w, n)))
    ensures Ran(cfg, pids, more)
    ensures var w := After(cfg, pids, es);
            After(cfg, pids, more)
            == Moved(w, p, Underway(cfg, w, q, n, StoreSecret(PendingOf(cfg, w, n), cfg.encrypt(n.secret, n.nonce))))
  {
    hide Replay, Begin;
    more := Answered(cfg, pids, es, p, Fresh(n.nonce));
  }

  /** Two-factor goes on. */
  lemma Stores(cfg: Config, pids: set<Pid>, es: seq<Event>, p: Pid) returns (more: seq<Event>)
    requires Ran(cfg, pids, es) && p in pids
    requires var w, q := After(cfg, pids, es), ProcAfter(cfg, pids, es, p);
             && q.pc.Setup? && q.pc.s.StoreSecret?
             && q.pc.s.pending.userId in w.tables.users && !w.tables.users[q.pc.s.pending.userId].totpEnabled
    ensures Ran(cfg, pids, more)
    ensures var w, q, v := After(cfg, pids, es), ProcAfter(cfg, pids, es, p), After(cfg, pids, more);
            && v.procs.Keys == w.procs.Keys && (forall o | o in w.procs && o != p :: v.procs[o] == w.procs[o])
            && q.pc.s.pending.userId in v.tables.users && v.tables.users[q.pc.s.pending.userId].totpEnabled
  {
    hide Replay, Remove;
    ProcessesStay(cfg, pids, es);
    more := Answered(cfg, pids, es, p, Done);
  }

  /** The first of two logins under way completes. */
  lemma FirstLogsIn(cfg: Config, a: Applicant, token: string, other: string) returns (es: seq<Event>)
    requires cfg.Lawful() && CanRegister(cfg, a) && token != "" && other != "" && cfg.hash(token) != cfg.hash(other)
    requires cfg.sessionTimeout > 0
    ensures Ran(cfg, {0, 1}, es)
    ensures var w, q := After(cfg, {0, 1}, es), ProcAfter(cfg, {0, 1}, es, 0);
            && w.now == 0 && q.pc == Shell && q.token == token && OpenFor(cfg, w, token, a.id)
            && w.tables.users[a.id].id == a.id && !w.tables.users[a.id].totpEnabled
            && AboutToRead(ProcAfter(cfg, {0, 1}, es, 1), a.id) && ProcAfter(cfg, {0, 1}, es, 1).pc.via == None
  {
    hide Replay, Answers, Effect, Resume, Commits, CanRegister;
    es := TwoLoginsBegin(cfg, a, token, other);
    es := Reads(cfg, {0, 1}, es, 0, a.id);
    es := CompletesLogin(cfg, {0, 1}, es, 0);
  }

  /** What it takes besides for a user to enrol. */
  predicate CanEnrol(cfg: Config, code: string) {
    cfg.sessionTimeout > 0 && cfg.setupTimeout > 0 && !cfg.blank(code)
  }

  /** Two-factor goes on while the second login is past the password. */
  lemma TurnedOnMeanwhile(cfg: Config, a: Applicant, token: string, other: string, secret: string, code: string)
    returns (es: seq<Event>)
    requires cfg.Lawful() && CanRegister(cfg, a) && token != "" && other != "" && cfg.hash(token) != cfg.hash(other)
    requires CanEnrol(cfg, code) && cfg.checkCode(secret, code, 0) == Match
    ensures Ran(cfg, {0, 1}, es)
    ensures var w, q := After(cfg, {0, 1}, es), ProcAfter(cfg, {0, 1}, es, 1);
            && a.id in w.tables.users && w.tables.users[a.id].totpEnabled
            && AboutToRead(q, a.id) && q.pc.via == None
  {
    hide Replay, Answers, Effect, Resume, CanRegister, Begin;
    es := FirstLogsIn(cfg, a, token, other);
    es := ConfirmsSetup(cfg, {0, 1}, es, 0, Attempt(token, a.id, secret, code, ""));
    ProcessesStay(cfg, {0, 1}, es);
    es := Stores(cfg, {0, 1}, es, 0);
  }

  /** A session is created without a code although the user's row says that two-factor is on: it
      was off in the row the login read when the password was checked, and another process has
      turned it on since. */
  lemma LoginWithoutCodeWhileOn(cfg: Config, a: Applicant, token: string, other: string, secret: string, code: string)
    returns (es: seq<Event>)
    requires cfg.Lawful() && CanRegister(cfg, a) && token != "" && other != "" && cfg.hash(token) != cfg.hash(other)
    requires CanEnrol(cfg, code) && cfg.checkCode(secret, code, 0) == Match
    ensures es != [] && Ran(cfg, {0, 1}, es) && Ran(cfg, {0, 1}, Before(es))
    ensures var w := After(cfg, {0, 1}, Before(es));
            && Commits(w, Last(es)) && Last(es).op.u == a.id && Last(es).reply == Done
            && Last(es).pc.Finish? && Last(es).pc.via == None
            && a.id in w.tables.users && w.tables.users[a.id].totpEnabled
  {
    hide Replay, Answers, Effect, Resume, Commits, CanRegister;
    es := TurnedOnMeanwhile(cfg, a, token, other, secret, code);
    ProcessesStay(cfg, {0, 1}, es);
    var read := Reads(cfg, {0, 1}, es, 1, a.id);
    es := CompletesLogin(cfg, {0, 1}, read, 1);
    assert Before(es) == read;
  }

  /** In every run in which a confirmed secret is about to be stored, the store may fail, and then
      the command ends with the setup still pending. */
  lemma FailedStoreLeavesPending(cfg: Config, pids: set<Pid>, es: seq<Event>, p: Pid) returns (more: seq<Event>)
    requires cfg.Lawful() && Ran(cfg, pids, es) && p in pids
    requires var q := ProcAfter(cfg, pids, es, p); q.pc.Setup? && q.pc.s.StoreSecret?
    ensures |more| == |es| + 1 && more[..|es|] == es && Ran(cfg, pids, more) && LeavesPending(more[|es|])
    ensures var w, q, r := After(cfg, pids, es), ProcAfter(cfg, pids, es, p), ProcAfter(cfg, pids, more, p);
            && r.pc == Shell && cfg.hash(q.pc.raw) in w.issued
            && w.issued[cfg.hash(q.pc.raw)].user in r.setups.byUser
  {
    hide Replay, Consistent, Answers, Effect;
    RunsAreConsistent(cfg, pids, es);
    ProcessesStay(cfg, pids, es);
    StoreIsFiled(cfg, After(cfg, pids, es), p);
    var q := ProcAfter(cfg, pids, es, p);
    var e := Act(p, q.pc, OpOf(cfg, q.pc), Failed, false);
    more := es + [e];
    Appended(cfg, pids, es, e);
  }

  lemma StoreIsFiled(cfg: Config, w: World, p: Pid)
    requires Consistent(cfg, w) && p in w.procs && w.procs[p].pc.Setup? && w.procs[p].pc.s.StoreSecret?
    ensures var h := cfg.hash(w.procs[p].pc.raw); h in w.issued && w.issued[h].user in w.procs[p].setups.byUser
  {
    hide Shared;
    assert ProcInv(cfg, w, p, w.procs[p]);
  }

  lemma Appended(cfg: Config, pids: set<Pid>, es: seq<Event>, e: Event)
    requires Ran(cfg, pids, es) && Enabled(cfg, After(cfg, pids, es), e)
    ensures Ran(cfg, pids, es + [e]) && After(cfg, pids, es + [e]) == Next(cfg, After(cfg, pids, es), e)
  {
    hide Enabled, Next;
    assert Before(es + [e]) == es;
  }

  /** And a run gets there. */
  lemma SetupThatIsLeftPending(cfg: Config, a: Applicant, token: string, other: string, secret: string, code: string)
    returns (es: seq<Event>)
    requires cfg.Lawful() && CanRegister(cfg, a) && token != "" && other != "" && cfg.hash(token) != cfg.hash(other)
    requires CanEnrol(cfg, code) && cfg.checkCode(secret, code, 0) == Match
    ensures es != [] && Ran(cfg, {0, 1}, es) && LeavesPending(Last(es))
    ensures var q := ProcAfter(cfg, {0, 1}, es, 0); q.pc == Shell && q.setups.byUser != map[]
  {
    hide Replay, Answers, Effect, Resume, CanRegister, Begin, LeavesPending;
    es := FirstLogsIn(cfg, a, token, other);
    es := ConfirmsSetup(cfg, {0, 1}, es, 0, Attempt(token, a.id, secret, code, ""));
    ProcessesStay(cfg, {0, 1}, es);
    es := FailedStoreLeavesPending(cfg, {0, 1}, es, 0);
  }
}
