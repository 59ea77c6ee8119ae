/** Any number of CLI processes, one PostgreSQL, one Redis, one clock. A run is a sequence of
    events, each of them one answered request of one process or the passing of time, so every
    interleaving of the processes' requests is a run. */
module World {
  import opened Wrappers
  import opened Tables
  import opened Program
  import Lockout

  type Pid = nat

  /** The session a committed login created: history, never read by the program. */
  datatype Issue = Issue(holder: Pid, token: string, user: string, id: string, expiresAt: Time)

  /** `minted`, `ids` and `issued` record who generated which token and identifier and which
      sessions were ever created. */
  datatype World = World(
    now: Time, cells: map<string, Lockout.Cell>, tables: Snapshot,
    minted: map<string, Pid>, ids: map<string, Pid>, issued: map<string, Issue>,
    procs: map<Pid, Proc>)

  /** `took` says whether the request reached the server when its reply did not come back. */
  datatype Event = Tick(ms: nat) | Act(p: Pid, pc: Pc, op: Op, reply: Reply, took: bool)

  function CellOf(w: World, u: string): Lockout.Cell {
    if u in w.cells then w.cells[u] else Lockout.CLEAN
  }

  function Account(w: World, u: string): Lockout.State {
    Lockout.State(w.now, CellOf(w, u))
  }

  predicate Locked(w: World, u: string) {
    Lockout.Blocked(CellOf(w, u), w.now)
  }

  /** The answers the surroundings can give when they do answer. Fresh tokens hash to
      something no earlier token hashes to, and identifiers are new. */
  ghost predicate Answers(cfg: Config, w: World, op: Op, reply: Reply) {
    match op
    case ReadCommand => reply.Cmd? || reply.Interrupt? || reply.Eof?
    case ReadLines => reply.Lines? || reply.Interrupt? || reply.Eof?
    case Clock => reply == Now(w.now)
    case NewToken => reply.Fresh? && reply.text != "" && forall t | t in w.minted :: cfg.hash(t) != cfg.hash(reply.text)
    case NewId => reply.Fresh? && reply.text !in w.ids
    case NewSecret | NewNonce | HashPassword(_) => reply.Fresh?
    case FindByName(name) => reply == FoundUser(ByName(w.tables.users, name))
    case FindById(id) => reply == FoundUser(ById(w.tables.users, id))
    case InsertUser(row) => reply == if CreateUser(w.tables.users, row).Some? then Done else Clash
    case CheckBlocked(u) => reply == Flag(Locked(w, u))
    case RecordFailure(u) =>
      var script := Lockout.Record(CellOf(w, u), w.now, cfg.maxAttempts, cfg.lockoutMs).1;
      !script.ScriptError? && reply == Flag(script.Locked?)
    case ResetFailures(_) => reply == Done
    case CommitSession(u, at, row) => reply == Done && CommitLogin(w.tables, u, at, row).Some?
    case FindSession(hash) => reply == if hash in w.tables.sessions then Session(w.tables.sessions[hash]) else NoRow
    case RevokeSession(id, _) => reply == if Revocable(w.tables.sessions, id) then Done else NoRow
    case CleanSessions(_) => reply == Done
    case SetTotp(u, enc) => reply == if EnableTotp(w.tables.users, u, enc).Some? then Done else Clash
    case UnsetTotp(u) => reply == if DisableTotp(w.tables.users, u).Some? then Done else Clash
  }

  function FoundUser(row: Option<UserRow>): Reply {
    match row
    case None => NoRow
    case Some(user) => User(user)
  }

  function SetUsers(w: World, users: Option<map<string, UserRow>>): World {
    if users.None? then w else w.(tables := w.tables.(users := users.value))
  }

  function SetSessions(w: World, sessions: map<string, SessionRow>): World {
    w.(tables := w.tables.(sessions := sessions))
  }

  /** What a request by process `p` leaves behind. */
  function Effect(cfg: Config, w: World, p: Pid, op: Op, reply: Reply, token: string): World {
    match op
    case NewToken => if reply.Fresh? then w.(minted := w.minted[reply.text := p]) else w
    case NewId => if reply.Fresh? then w.(ids := w.ids[reply.text := p]) else w
    case InsertUser(row) => SetUsers(w, CreateUser(w.tables.users, row))
    case RecordFailure(u) =>
      w.(cells := w.cells[u := Lockout.Record(CellOf(w, u), w.now, cfg.maxAttempts, cfg.lockoutMs).0])
    case ResetFailures(u) => w.(cells := w.cells[u := Lockout.CLEAN])
    case CommitSession(u, at, row) =>
      (match CommitLogin(w.tables, u, at, row)
       case None => w
       case Some(tables) =>
         w.(tables := tables, issued := w.issued[row.tokenHash := Issue(p, token, u, row.id, row.expiresAt)]))
    case RevokeSession(id, at) => SetSessions(w, Revoke(w.tables.sessions, id, at))
    case CleanSessions(before) => SetSessions(w, DeleteExpired(w.tables.sessions, before))
    case SetTotp(u, enc) => SetUsers(w, EnableTotp(w.tables.users, u, enc))
    case UnsetTotp(u) => SetUsers(w, DisableTotp(w.tables.users, u))
    case _ => w
  }

  /** The token a process is about to store the hash of. */
  function TokenAt(pc: Pc): string {
    if pc.Finish? && pc.f.CommitRow? then pc.f.token else ""
  }

  /** Only reading the clock cannot fail. */
  ghost predicate Enabled(cfg: Config, w: World, e: Event) {
    match e
    case Tick(_) => true
    case Act(p, pc, op, reply, took) =>
      && p in w.procs && w.procs[p].pc == pc && pc != Exited
      && op == OpOf(cfg, pc)
      && if reply.Failed? then op != Clock else took && Answers(cfg, w, op, reply)
  }

  ghost function Next(cfg: Config, w: World, e: Event): World
    requires Enabled(cfg, w, e)
  {
    match e
    case Tick(ms) => w.(now := w.now + ms)
    case Act(p, pc, op, reply, took) =>
      var after := if took then Effect(cfg, w, p, op, reply, TokenAt(pc)) else w;
      after.(procs := w.procs[p := Resume(cfg, w.procs[p], reply)])
  }

  /** A fresh deployment whose processes have yet to start. */
  function Start(pids: set<Pid>): World {
    World(0, map[], EMPTY_TABLES, map[], map[], map[], map p | p in pids :: STARTED)
  }

  function Before(es: seq<Event>): seq<Event>
    requires es != []
  {
    es[..|es| - 1]
  }

  function Last(es: seq<Event>): Event
    requires es != []
  {
    es[|es| - 1]
  }

  /** The world after `es`, if every event of `es` can happen in its turn. */
  ghost function Replay(cfg: Config, pids: set<Pid>, es: seq<Event>): Option<World>
    decreases |es|
  {
    if es == [] then Some(Start(pids))
    else
      match Replay(cfg, pids, Before(es))
      case None => None
      case Some(w) => if Enabled(cfg, w, Last(es)) then Some(Next(cfg, w, Last(es))) else None
  }

  /** `es` is a run of the processes `pids`. */
  ghost predicate Ran(cfg: Config, pids: set<Pid>, es: seq<Event>) {
    Replay(cfg, pids, es).Some?
  }

  /** The world at the end of a run. */
  ghost function After(cfg: Config, pids: set<Pid>, es: seq<Event>): World
    requires Ran(cfg, pids, es)
  {
    Replay(cfg, pids, es).value
  }

  lemma {:induction false} PrefixRan(cfg: Config, pids: set<Pid>, es: seq<Event>, n: nat)
    requires Ran(cfg, pids, es) && n <= |es|
    ensures Ran(cfg, pids, es[..n])
    ensures n < |es| ==> Enabled(cfg, After(cfg, pids, es[..n]), es[n])
                         && Ran(cfg, pids, es[..n + 1])
                         && After(cfg, pids, es[..n + 1]) == Next(cfg, After(cfg, pids, es[..n]), es[n])
    decreases |es|
  {
    if n == |es| {
      assert es[..n] == es;
    } else {
      assert Before(es)[..n] == es[..n];
      PrefixRan(cfg, pids, Before(es), n);
      if n + 1 < |es| {
        assert Before(es)[..n + 1] == es[..n + 1];
      } else {
        assert es[..n + 1] == es && Before(es) == es[..n];
      }
    }
  }

  lemma ProcessesStay(cfg: Config, pids: set<Pid>, es: seq<Event>)
    requires Ran(cfg, pids, es)
    ensures After(cfg, pids, es).procs.Keys == pids
    decreases |es|
  {
    if es != [] {
      ProcessesStay(cfg, pids, Before(es));
    }
  }

  /** Whether an event commits a login. */
  predicate Commits(w: World, e: Event) {
    e.Act? && e.took && e.op.CommitSession? && CommitLogin(w.tables, e.op.u, e.op.at, e.op.row).Some?
  }

  /** The sessions an event leaves. */
  function SessionsAfter(w: World, e: Event): map<string, SessionRow> {
    if Commits(w, e) then w.tables.sessions[e.op.row.tokenHash := e.op.row]
    else if e.Act? && e.took && e.op.RevokeSession? then Revoke(w.tables.sessions, e.op.id, e.op.at)
    else if e.Act? && e.took && e.op.CleanSessions? then DeleteExpired(w.tables.sessions, e.op.before)
    else w.tables.sessions
  }

  /** The history of issued sessions an event leaves. */
  function IssuedAfter(w: World, e: Event): map<string, Issue> {
    if Commits(w, e)
    then w.issued[e.op.row.tokenHash := Issue(e.p, TokenAt(e.pc), e.op.u, e.op.row.id, e.op.row.expiresAt)]
    else w.issued
  }

  lemma EffectOnSessions(cfg: Config, w: World, p: Pid, op: Op, reply: Reply, token: string)
    ensures var v := Effect(cfg, w, p, op, reply, token);
            && v.now == w.now
            && (!op.CommitSession? ==> v.issued == w.issued)
            && (!op.CommitSession? && !op.RevokeSession? && !op.CleanSessions? ==>
               v.tables.sessions == w.tables.sessions)
            && (op.RevokeSession? ==> v.tables.sessions == Revoke(w.tables.sessions, op.id, op.at))
            && (op.CleanSessions? ==> v.tables.sessions == DeleteExpired(w.tables.sessions, op.before))
  {
    hide Lockout.Record, Revoke, DeleteExpired, EnableTotp, DisableTotp, CreateUser, CommitLogin, CellOf;
    match op
    case InsertUser(row) => UsersLeaveSessions(w, CreateUser(w.tables.users, row));
    case SetTotp(u, enc) => UsersLeaveSessions(w, EnableTotp(w.tables.users, u, enc));
    case UnsetTotp(u) => UsersLeaveSessions(w, DisableTotp(w.tables.users, u));
    case _ =>
    hide SetUsers;
  }

  lemma UsersLeaveSessions(w: World, users: Option<map<string, UserRow>>)
    ensures var v := SetUsers(w, users);
            v.now == w.now && v.issued == w.issued && v.tables.sessions == w.tables.sessions
  {
  }

  lemma CommitOnSessions(cfg: Config, w: World, e: Event)
    requires e.Act? && e.took && e.op.CommitSession?
    ensures var v := Effect(cfg, w, e.p, e.op, e.reply, TokenAt(e.pc));
            v.tables.sessions == SessionsAfter(w, e) && v.issued == IssuedAfter(w, e)
  {
    hide CommitLogin, Revoke, DeleteExpired;
    if Commits(w, e) {
      CommitChanges(w.tables, e.op.u, e.op.at, e.op.row);
    }
  }

  lemma NextSessions(cfg: Config, w: World, e: Event)
    requires Enabled(cfg, w, e)
    ensures var v := Next(cfg, w, e);
            && v.tables.sessions == SessionsAfter(w, e)
            && v.issued == IssuedAfter(w, e)
            && v.now == w.now + (if e.Tick? then e.ms else 0)
  {
    hide Answers, Resume, OpOf, Effect, Revoke, DeleteExpired, CommitLogin;
    if e.Act? && e.took {
      EffectOnSessions(cfg, w, e.p, e.op, e.reply, TokenAt(e.pc));
      if e.op.CommitSession? {
        CommitOnSessions(cfg, w, e);
      }
    }
  }

  /** The users a request other than a login's commit leaves. */
  function UsersServed(users: map<string, UserRow>, op: Op): map<string, UserRow> {
    match op
    case InsertUser(row) => if CreateUser(users, row).Some? then CreateUser(users, row).value else users
    case SetTotp(u, enc) => if EnableTotp(users, u, enc).Some? then EnableTotp(users, u, enc).value else users
    case UnsetTotp(u) => if DisableTotp(users, u).Some? then DisableTotp(users, u).value else users
    case _ => users
  }

  /** The users an event leaves. */
  function UsersAfter(w: World, e: Event): map<string, UserRow> {
    if Commits(w, e) then UpdateLastLogin(w.tables.users, e.op.u, e.op.at).value
    else if e.Act? && e.took then UsersServed(w.tables.users, e.op)
    else w.tables.users
  }

  lemma CommitOnUsers(t: Snapshot, u: string, at: Time, row: SessionRow)
    requires CommitLogin(t, u, at, row).Some?
    ensures UpdateLastLogin(t.users, u, at).Some?
            && CommitLogin(t, u, at, row).value.users == UpdateLastLogin(t.users, u, at).value
  {
  }

  lemma EffectOnUsers(cfg: Config, w: World, p: Pid, op: Op, reply: Reply, token: string)
    ensures !op.CommitSession? ==> Effect(cfg, w, p, op, reply, token).tables.users == UsersServed(w.tables.users, op)
  {
    hide Revoke, DeleteExpired, CommitLogin, EnableTotp, DisableTotp, CreateUser, Lockout.Record, CellOf;
  }

  lemma NextUsers(cfg: Config, w: World, e: Event)
    requires Enabled(cfg, w, e)
    ensures Next(cfg, w, e).tables.users == UsersAfter(w, e)
  {
    hide Answers, Resume, OpOf, Revoke, DeleteExpired, CommitLogin, EnableTotp, DisableTotp, CreateUser;
    hide Lockout.Record, CellOf;
    if e.Act? && e.took {
      EffectOnUsers(cfg, w, e.p, e.op, e.reply, TokenAt(e.pc));
    }
    if Commits(w, e) {
      CommitOnUsers(w.tables, e.op.u, e.op.at, e.op.row);
    }
  }
}
