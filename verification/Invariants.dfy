/** What every reachable world satisfies: the tables agree with the history of logins, tokens
    have one owner, and every process's memory is in the state its position calls for. */
module Invariants {
  import opened Wrappers
  import opened Tables
  import opened Setups
  import opened Program
  import opened World
  import Lockout

  /** The user each session hash was issued to. */
  function Owners(w: World): map<string, string> {
    map h | h in w.issued :: w.issued[h].user
  }

  // ---- The shared state ----

  ghost predicate Minting(cfg: Config, w: World) {
    && "" !in w.minted
    && forall s, t | s in w.minted && t in w.minted && cfg.hash(s) == cfg.hash(t) :: s == t
  }

  ghost predicate Issuing(cfg: Config, w: World) {
    && (forall h | h in w.issued ::
          var i := w.issued[h];
          && cfg.hash(i.token) == h && i.token in w.minted && w.minted[i.token] == i.holder
          && i.id in w.ids && w.ids[i.id] == i.holder
          && i.user in w.tables.users)
    && DistinctIds(w)
  }

  ghost predicate DistinctIds(w: World) {
    forall h, k | h in w.issued && k in w.issued && w.issued[h].id == w.issued[k].id :: h == k
  }

  /** Every row was issued as it stands, and only expired sessions are missing. */
  ghost predicate Recorded(w: World) {
    && (forall h | h in w.tables.sessions ::
          && h in w.issued
          && w.tables.sessions[h].id == w.issued[h].id
          && w.tables.sessions[h].userId == w.issued[h].user
          && w.tables.sessions[h].expiresAt == w.issued[h].expiresAt)
    && (forall h | h in w.issued && h !in w.tables.sessions :: w.issued[h].expiresAt <= w.now)
  }

  ghost predicate Accounts(cfg: Config, w: World) {
    forall u :: Lockout.Invariant(Account(w, u), cfg.maxAttempts, cfg.lockoutMs)
  }

  // ---- One process ----

  /** `token` was generated by `p`, is the token of a committed login of `p`, and its session
      row, while there is one, is not revoked. */
  ghost predicate Holds(cfg: Config, w: World, p: Pid, token: string) {
    && token in w.minted && w.minted[token] == p
    && cfg.hash(token) in w.issued && w.issued[cfg.hash(token)].holder == p && w.issued[cfg.hash(token)].token == token
    && (cfg.hash(token) in w.tables.sessions ==> w.tables.sessions[cfg.hash(token)].revokedAt.None?)
  }

  /** `row` is what the sessions table says about the token `raw` while it is open. */
  ghost predicate RowOf(cfg: Config, w: World, raw: string, row: SessionRow) {
    && cfg.hash(raw) in w.issued
    && row.id == w.issued[cfg.hash(raw)].id
    && row.userId == w.issued[cfg.hash(raw)].user
    && row.expiresAt == w.issued[cfg.hash(raw)].expiresAt
    && row.revokedAt.None?
  }

  ghost predicate FreshToken(cfg: Config, w: World, p: Pid, token: string) {
    token in w.minted && w.minted[token] == p && cfg.hash(token) !in w.issued
  }

  ghost predicate FreshId(w: World, p: Pid, id: string) {
    id in w.ids && w.ids[id] == p && forall h | h in w.issued :: w.issued[h].id != id
  }

  /** `pending` is the setup begun from the session `raw`, and it is on file. */
  ghost predicate Filed(cfg: Config, w: World, s: Setups, raw: string, pending: Pending) {
    && pending.userId in s.byUser && s.byUser[pending.userId] == pending
    && pending.sessionHash == cfg.hash(raw)
    && cfg.hash(raw) in w.issued && w.issued[cfg.hash(raw)].user == pending.userId
  }

  /** The challenges a process keeps: one inside the code loop, none anywhere else. */
  function LiveChallenges(pc: Pc): set<string> {
    match pc
    case Code(ch, _) => {ch}
    case Finish(_, Some(ch), _) => {ch}
    case _ => {}
  }

  ghost predicate CodeInv(q: Proc, ch: string, c: CodePc) {
    ch in q.challenges &&
    var u := q.challenges[ch].userId;
    match c
    case AskLogin => true
    case StampLookup(_) => true
    case FindOwner(_, v) => v == u
    case CodeGate(_, row) => row.id == u
    case CheckLogin(v, _, _) => v == u
    case CodeFail(v) => v == u
  }

  ghost predicate FinishInv(cfg: Config, w: World, p: Pid, q: Proc, u: string, via: Option<string>, f: FinishPc) {
    && (via.Some? ==> via.value in q.challenges && q.challenges[via.value].userId == u)
    && match f
       case ClearCounter => true
       case MakeToken => true
       case StampSession(token) => FreshToken(cfg, w, p, token)
       case MakeId(token, at) => FreshToken(cfg, w, p, token) && at <= w.now
       case ReadUser(token, at, id) => FreshToken(cfg, w, p, token) && at <= w.now && FreshId(w, p, id)
       case CommitRow(token, at, id, row) =>
         FreshToken(cfg, w, p, token) && at <= w.now && FreshId(w, p, id) && row.id == u
  }

  ghost predicate ValidatingInv(cfg: Config, w: World, q: Proc, raw: string, why: Purpose, v: ValidatePc) {
    && raw == q.token != ""
    && (v.StampExpiry? || v.FindUser? ==> RowOf(cfg, w, raw, v.row))
    && (why.ForConfirm? ==> cfg.hash(raw) in q.setups.bySession)
  }

  ghost predicate SetupInv(cfg: Config, w: World, q: Proc, raw: string, s: SetupPc) {
    && raw == q.token != ""
    && cfg.hash(raw) in w.issued
    && match s
       case MakeSecret(u) => u == w.issued[cfg.hash(raw)].user
       case StampSetup(u, _) => u == w.issued[cfg.hash(raw)].user
       case AskSetup => cfg.hash(raw) in q.setups.bySession
       case StampConfirm(_, user, pending) => user.id == pending.userId && Filed(cfg, w, q.setups, raw, pending)
       case CheckSetup(_, pending) => Filed(cfg, w, q.setups, raw, pending)
       case MakeNonce(pending) => Filed(cfg, w, q.setups, raw, pending)
       case StoreSecret(pending, encrypted) =>
         Filed(cfg, w, q.setups, raw, pending) && cfg.decrypt(encrypted) == Some(pending.secret)
  }

  ghost predicate LogoutInv(cfg: Config, w: World, q: Proc, raw: string, o: LogoutPc) {
    && raw == q.token != ""
    && match o
       case OutFind => true
       case OutExpiry(row) => RowOf(cfg, w, raw, row)
       case OutStamp(row) => RowOf(cfg, w, raw, row)
       case OutRevoke(row, at) => RowOf(cfg, w, raw, row)
  }

  /** Commands that need no session run without one. */
  ghost predicate PcInv(cfg: Config, w: World, p: Pid, q: Proc) {
    match q.pc
    case Boot => q.token == ""
    case BootClean(at) => q.token == "" && at <= w.now
    case Shell => true
    case Exited => q.token == "" && q.setups == NO_SETUPS
    case Registering(r) => q.token == ""
      && (r.RegCreate? ==> !r.row.totpEnabled && r.row.secret.None? && r.row.lastLogin.None?)
    case LoggingIn(l) => q.token == "" && (l.StampChallenge? ==> l.id != "" && l.id in w.minted && w.minted[l.id] == p)
    case Code(ch, c) => q.token == "" && CodeInv(q, ch, c)
    case Finish(u, via, f) => q.token == "" && FinishInv(cfg, w, p, q, u, via, f)
    case Validating(raw, why, v) => ValidatingInv(cfg, w, q, raw, why, v)
    case Setup(raw, s) => SetupInv(cfg, w, q, raw, s)
    case Disabling(d) => q.token != ""
    case LoggingOut(raw, o) => LogoutInv(cfg, w, q, raw, o)
  }

  ghost predicate TokenInv(cfg: Config, w: World, p: Pid, token: string) {
    token != "" ==> Holds(cfg, w, p, token)
  }

  ghost predicate SetupsInv(w: World, s: Setups) {
    Inverse(s) && Owned(s, Owners(w))
  }

  /** A process's position, and the challenges that go with it: its own, and one at most. */
  ghost predicate PlaceInv(cfg: Config, w: World, p: Pid, q: Proc) {
    && q.challenges.Keys == LiveChallenges(q.pc)
    && (forall ch | ch in q.challenges :: ch in w.minted && w.minted[ch] == p)
    && PcInv(cfg, w, p, q)
  }

  ghost predicate ProcInv(cfg: Config, w: World, p: Pid, q: Proc) {
    TokenInv(cfg, w, p, q.token) && SetupsInv(w, q.setups) && PlaceInv(cfg, w, p, q)
  }

  ghost predicate Shared(cfg: Config, w: World) {
    Sound(w.tables) && Minting(cfg, w) && Issuing(cfg, w) && Recorded(w) && Accounts(cfg, w)
  }

  ghost predicate Consistent(cfg: Config, w: World) {
    Shared(cfg, w) && forall p | p in w.procs :: ProcInv(cfg, w, p, w.procs[p])
  }

  // ---- What the rest of the world may do to process `p` ----

  /** From `w` to `v` time went on, others minted, registered and logged in, and nobody else
      touched a session of `p`, save that rows may have gone. */
  ghost predicate Later(w: World, v: World, p: Pid) {
    && w.now <= v.now
    && (forall t | t in w.minted :: t in v.minted && v.minted[t] == w.minted[t])
    && (forall i | i in w.ids :: i in v.ids && v.ids[i] == w.ids[i])
    && (forall h | h in w.issued :: h in v.issued && v.issued[h] == w.issued[h])
    && (forall h | h in v.issued && h !in w.issued :: v.issued[h].holder != p)
    && (forall h | h in w.issued && w.issued[h].holder == p && h in v.tables.sessions ::
          h in w.tables.sessions && v.tables.sessions[h] == w.tables.sessions[h])
  }

  lemma OwnersGrow(w: World, v: World, p: Pid, s: Setups)
    requires Later(w, v, p) && Owned(s, Owners(w))
    ensures Owned(s, Owners(v))
  {
  }

  /** A process's own invariant survives whatever the others do. */
  lemma ProcInvStable(cfg: Config, w: World, v: World, p: Pid, q: Proc)
    requires Later(w, v, p)
    requires Issuing(cfg, v) && Minting(cfg, v)
    requires ProcInv(cfg, w, p, q)
    ensures ProcInv(cfg, v, p, q)
  {
    OwnersGrow(w, v, p, q.setups);
    match q.pc
    case Finish(u, via, f) =>
      FreshStable(cfg, w, v, p, f);
    case _ =>
  }

  lemma FreshStable(cfg: Config, w: World, v: World, p: Pid, f: FinishPc)
    requires Later(w, v, p) && Issuing(cfg, v) && Minting(cfg, v)
    ensures forall t :: FreshToken(cfg, w, p, t) ==> FreshToken(cfg, v, p, t)
    ensures forall i :: FreshId(w, p, i) ==> FreshId(v, p, i)
  {
    forall t | FreshToken(cfg, w, p, t) ensures FreshToken(cfg, v, p, t) {
      assert cfg.hash(t) !in v.issued;
    }
    forall i | FreshId(w, p, i) ensures FreshId(v, p, i) {
      assert forall h | h in v.issued && h !in w.issued :: v.issued[h].id != i;
    }
  }

  // ---- One event ----

  lemma TickKeepsShared(cfg: Config, w: World, ms: nat, v: World)
    requires Shared(cfg, w) && v == w.(now := w.now + ms)
    ensures Shared(cfg, v)
    ensures forall q :: Later(w, v, q)
  {
    assert forall u :: Account(v, u) == Lockout.State(Account(w, u).now + ms, Account(w, u).cell);
  }

  lemma TickKeepsConsistent(cfg: Config, w: World, ms: nat)
    requires Consistent(cfg, w)
    ensures Consistent(cfg, w.(now := w.now + ms))
  {
    hide ProcInv, Later, Sound, Recorded, Accounts;
    var v := w.(now := w.now + ms);
    TickKeepsShared(cfg, w, ms, v);
    forall p | p in v.procs ensures ProcInv(cfg, v, p, v.procs[p]) {
      ProcInvStable(cfg, w, v, p, w.procs[p]);
    }
  }

  /** The world right after the server has acted, before the process has heard back. */
  ghost function Served(cfg: Config, w: World, e: Event): World
    requires e.Act?
  {
    if e.took then Effect(cfg, w, e.p, e.op, e.reply, TokenAt(e.pc)) else w
  }

  /** What the server may rely on when it gets a request from a process of this program. */
  ghost predicate Sane(cfg: Config, w: World, p: Pid, op: Op, token: string) {
    match op
    case InsertUser(row) => !row.totpEnabled && row.secret.None? && row.lastLogin.None?
    case CommitSession(u, at, row) =>
      row.userId == u && row.tokenHash == cfg.hash(token) && row.revokedAt.None? && at <= w.now
      && FreshToken(cfg, w, p, token) && FreshId(w, p, row.id)
    case CleanSessions(before) => before <= w.now
    case RevokeSession(id, _) => exists h | h in w.issued :: w.issued[h].id == id && w.issued[h].holder == p
    case _ => true
  }

  lemma RequestsAreSane(cfg: Config, w: World, p: Pid, q: Proc)
    requires ProcInv(cfg, w, p, q) && q.pc != Exited
    ensures Sane(cfg, w, p, OpOf(cfg, q.pc), TokenAt(q.pc))
  {
    hide Inverse, Owned, Owners, Filed;
  }

  lemma AccountsFrame(cfg: Config, w: World, v: World)
    requires Accounts(cfg, w) && v.cells == w.cells && v.now == w.now
    ensures Accounts(cfg, v)
  {
    forall u ensures Lockout.Invariant(Account(v, u), cfg.maxAttempts, cfg.lockoutMs) {
      assert Account(v, u) == Account(w, u);
    }
  }

  /** `v` is `w` once the login transaction of `p` has committed. */
  ghost predicate Committed(cfg: Config, w: World, p: Pid, u: string, at: Time, row: SessionRow, token: string,
    v: World) {
    && CommitLogin(w.tables, u, at, row).Some?
    && v == w.(tables := CommitLogin(w.tables, u, at, row).value,
               issued := w.issued[row.tokenHash := Issue(p, token, u, row.id, row.expiresAt)])
  }

  lemma CommitIssues(cfg: Config, w: World, p: Pid, u: string, at: Time, row: SessionRow, token: string, v: World)
    requires Issuing(cfg, w)
    requires row.userId == u && row.tokenHash == cfg.hash(token)
    requires FreshToken(cfg, w, p, token) && FreshId(w, p, row.id)
    requires Committed(cfg, w, p, u, at, row, token, v)
    ensures Issuing(cfg, v)
  {
    hide CommitLogin, CreateSession, SessionIdTaken;
    CommitChanges(w.tables, u, at, row);
    forall h | h in v.issued
      ensures var i := v.issued[h];
              && cfg.hash(i.token) == h && i.token in v.minted && v.minted[i.token] == i.holder
              && i.id in v.ids && v.ids[i.id] == i.holder
              && i.user in v.tables.users
    {
      if h != row.tokenHash {
        assert h in w.issued && v.issued[h] == w.issued[h];
      }
    }
    assert forall h | h in v.issued && h != row.tokenHash ::
             h in w.issued && v.issued[h] == w.issued[h] && v.issued[h].id != row.id;
  }

  lemma CommitLater(cfg: Config, w: World, p: Pid, u: string, at: Time, row: SessionRow, token: string, v: World)
    requires row.tokenHash !in w.issued
    requires Committed(cfg, w, p, u, at, row, token, v)
    ensures forall q | q != p :: Later(w, v, q)
  {
    hide CommitLogin, CreateSession, SessionIdTaken;
    CommitChanges(w.tables, u, at, row);
  }

  lemma CommitRecords(cfg: Config, w: World, p: Pid, u: string, at: Time, row: SessionRow, token: string, v: World)
    requires Recorded(w) && row.userId == u
    requires Committed(cfg, w, p, u, at, row, token, v)
    ensures Recorded(v)
  {
    hide CommitLogin, CreateSession, SessionIdTaken;
    CommitChanges(w.tables, u, at, row);
  }

  lemma CommitKeepsShared(cfg: Config, w: World, p: Pid, op: Op, token: string)
    requires Shared(cfg, w) && op.CommitSession? && Sane(cfg, w, p, op, token)
    ensures Shared(cfg, Effect(cfg, w, p, op, Done, token))
    ensures forall q | q != p :: Later(w, Effect(cfg, w, p, op, Done, token), q)
  {
    if CommitLogin(w.tables, op.u, op.at, op.row).Some? {
      var v := Effect(cfg, w, p, op, Done, token);
      CommitLoginKeepsSound(w.tables, op.u, op.at, op.row);
      CommitIssues(cfg, w, p, op.u, op.at, op.row, token, v);
      CommitLater(cfg, w, p, op.u, op.at, op.row, token, v);
      CommitRecords(cfg, w, p, op.u, op.at, op.row, token, v);
      AccountsFrame(cfg, w, v);
    }
  }

  lemma RevokeChanges(w: World, p: Pid, id: string, at: Time, mine: string)
    requires DistinctIds(w) && Recorded(w) && mine in w.issued && w.issued[mine].id == id
    ensures var ss := Revoke(w.tables.sessions, id, at);
            && ss.Keys == w.tables.sessions.Keys
            && forall h | h in ss ::
                 && (h != mine ==> ss[h] == w.tables.sessions[h])
                 && ss[h] == w.tables.sessions[h].(revokedAt := ss[h].revokedAt)
  {
  }

  lemma RevokeRecords(cfg: Config, w: World, p: Pid, id: string, at: Time, v: World)
    requires Issuing(cfg, w) && Recorded(w)
    requires exists h | h in w.issued :: w.issued[h].id == id && w.issued[h].holder == p
    requires v == SetSessions(w, Revoke(w.tables.sessions, id, at))
    ensures Recorded(v)
    ensures forall q | q != p :: Later(w, v, q)
  {
    hide Revoke, Revoked, Recorded, Later, Issuing;
    var mine :| mine in w.issued && w.issued[mine].id == id && w.issued[mine].holder == p;
    assert DistinctIds(w) by { IssuingIsDistinct(cfg, w); }
    RevokeChanges(w, p, id, at, mine);
    RevokeStaysRecorded(w, v, mine);
    RevokeIsLater(w, v, p, mine);
  }

  lemma IssuingIsDistinct(cfg: Config, w: World)
    requires Issuing(cfg, w)
    ensures DistinctIds(w)
  {
  }

  /** `v` is `w` but for the revocation mark on the session `mine`. */
  ghost predicate MarksOnly(w: World, v: World, mine: string) {
    && v == w.(tables := v.tables) && v.tables == w.tables.(sessions := v.tables.sessions)
    && v.tables.sessions.Keys == w.tables.sessions.Keys
    && forall h | h in v.tables.sessions ::
         && (h != mine ==> v.tables.sessions[h] == w.tables.sessions[h])
         && v.tables.sessions[h] == w.tables.sessions[h].(revokedAt := v.tables.sessions[h].revokedAt)
  }

  lemma RevokeStaysRecorded(w: World, v: World, mine: string)
    requires Recorded(w) && MarksOnly(w, v, mine)
    ensures Recorded(v)
  {
  }

  lemma RevokeIsLater(w: World, v: World, p: Pid, mine: string)
    requires MarksOnly(w, v, mine) && mine in w.issued && w.issued[mine].holder == p
    ensures forall q | q != p :: Later(w, v, q)
  {
  }

  lemma RevokeKeepsShared(cfg: Config, w: World, p: Pid, op: Op, token: string)
    requires Shared(cfg, w) && op.RevokeSession? && Sane(cfg, w, p, op, token)
    ensures Shared(cfg, Effect(cfg, w, p, op, Done, token))
    ensures forall q | q != p :: Later(w, Effect(cfg, w, p, op, Done, token), q)
  {
    var v := Effect(cfg, w, p, op, Done, token);
    RevokeKeepsSound(w.tables, op.id, op.at);
    RevokeRecords(cfg, w, p, op.id, op.at, v);
    AccountsFrame(cfg, w, v);
  }

  lemma CleanRecords(cfg: Config, w: World, before: Time, v: World)
    requires Issuing(cfg, w) && Recorded(w) && before <= w.now
    requires v == SetSessions(w, DeleteExpired(w.tables.sessions, before))
    ensures Issuing(cfg, v) && Recorded(v)
    ensures forall q :: Later(w, v, q)
  {
    assert forall h | h in v.tables.sessions :: h in w.tables.sessions && v.tables.sessions[h] == w.tables.sessions[h];
    CleanIsLater(w, v);
    hide Later;
  }

  lemma CleanIsLater(w: World, v: World)
    requires v == SetSessions(w, v.tables.sessions)
    requires forall h | h in v.tables.sessions ::
               h in w.tables.sessions && v.tables.sessions[h] == w.tables.sessions[h]
    ensures forall q :: Later(w, v, q)
  {
  }

  lemma CleanKeepsShared(cfg: Config, w: World, p: Pid, op: Op, token: string)
    requires Shared(cfg, w) && op.CleanSessions? && Sane(cfg, w, p, op, token)
    ensures Shared(cfg, Effect(cfg, w, p, op, Done, token))
    ensures forall q :: Later(w, Effect(cfg, w, p, op, Done, token), q)
  {
    hide Sound, Issuing, Recorded, Accounts, Later;
    var v := Effect(cfg, w, p, op, Done, token);
    DeleteExpiredKeepsSound(w.tables, op.before);
    CleanRecords(cfg, w, op.before, v);
    AccountsFrame(cfg, w, v);
  }

  lemma UsersFrame(cfg: Config, w: World, v: World, users: map<string, UserRow>)
    requires Issuing(cfg, w) && Recorded(w) && Accounts(cfg, w) && Minting(cfg, w)
    requires v == w.(tables := w.tables.(users := users))
    requires w.tables.users.Keys <= users.Keys
    ensures Issuing(cfg, v) && Recorded(v) && Accounts(cfg, v) && Minting(cfg, v)
    ensures forall q :: Later(w, v, q)
  {
    AccountsFrame(cfg, w, v);
  }

  lemma UsersKeepShared(cfg: Config, w: World, p: Pid, op: Op, token: string)
    requires Shared(cfg, w) && (op.InsertUser? || op.SetTotp? || op.UnsetTotp?) && Sane(cfg, w, p, op, token)
    ensures Shared(cfg, Effect(cfg, w, p, op, Done, token))
    ensures forall q :: Later(w, Effect(cfg, w, p, op, Done, token), q)
  {
    hide Sound, Issuing, Recorded, Minting, Accounts, Later;
    var v := Effect(cfg, w, p, op, Done, token);
    var blank := UserRow("", "", "", false, None, None);
    match op {
      case InsertUser(row) => UserStatementsKeepSound(w.tables, row, "", "");
      case SetTotp(u, enc) => UserStatementsKeepSound(w.tables, blank, u, enc);
      case UnsetTotp(u) => UserStatementsKeepSound(w.tables, blank, u, "");
    }
    UsersFrame(cfg, w, v, v.tables.users);
  }

  lemma CountersFrame(cfg: Config, w: World, v: World, u: string, cell: Lockout.Cell)
    requires Accounts(cfg, w) && v == w.(cells := w.cells[u := cell])
    requires Lockout.Invariant(Lockout.State(w.now, cell), cfg.maxAttempts, cfg.lockoutMs)
    ensures Accounts(cfg, v)
  {
    forall x ensures Lockout.Invariant(Account(v, x), cfg.maxAttempts, cfg.lockoutMs) {
      assert Lockout.Invariant(Account(w, x), cfg.maxAttempts, cfg.lockoutMs);
      assert x != u ==> Account(v, x) == Account(w, x);
    }
  }

  lemma RecordKeepsInvariant(cell: Lockout.Cell, now: Time, limit: nat, blockMs: nat)
    requires limit >= 1 && Lockout.Invariant(Lockout.State(now, cell), limit, blockMs)
    ensures Lockout.Invariant(Lockout.State(now, Lockout.Record(cell, now, limit, blockMs).0), limit, blockMs)
  {
  }

  lemma CountersKeepShared(cfg: Config, w: World, p: Pid, op: Op, token: string)
    requires cfg.Lawful() && Shared(cfg, w) && (op.RecordFailure? || op.ResetFailures?)
    ensures Shared(cfg, Effect(cfg, w, p, op, Done, token))
    ensures forall q :: Later(w, Effect(cfg, w, p, op, Done, token), q)
  {
    hide Sound, Issuing, Recorded, Minting;
    var v := Effect(cfg, w, p, op, Done, token);
    assert Lockout.Invariant(Account(w, op.u), cfg.maxAttempts, cfg.lockoutMs);
    RecordKeepsInvariant(CellOf(w, op.u), w.now, cfg.maxAttempts, cfg.lockoutMs);
    CountersFrame(cfg, w, v, op.u, CellOf(v, op.u));
    SameHistory(cfg, w, v);
  }

  lemma SameHistory(cfg: Config, w: World, v: World)
    requires v == w.(cells := v.cells) && Sound(w.tables) && Issuing(cfg, w) && Recorded(w) && Minting(cfg, w)
    ensures Sound(v.tables) && Issuing(cfg, v) && Recorded(v) && Minting(cfg, v)
    ensures forall q :: Later(w, v, q)
  {
  }

  lemma TokenMinted(cfg: Config, w: World, p: Pid, text: string, v: World)
    requires Minting(cfg, w) && text != ""
    requires forall t | t in w.minted :: cfg.hash(t) != cfg.hash(text)
    requires v == w.(minted := w.minted[text := p])
    ensures Minting(cfg, v)
  {
    assert text !in w.minted;
    assert forall t | t in v.minted :: t == text || t in w.minted;
  }

  lemma TokenMintedIssuing(cfg: Config, w: World, p: Pid, text: string, v: World)
    requires Issuing(cfg, w) && Recorded(w) && text !in w.minted
    requires v == w.(minted := w.minted[text := p])
    ensures Issuing(cfg, v) && Recorded(v)
    ensures forall q :: Later(w, v, q)
  {
    hide DistinctIds;
    assert DistinctIds(v) by { SameIds(w, v); }
  }

  lemma SameIds(w: World, v: World)
    requires DistinctIds(w) && v.issued == w.issued
    ensures DistinctIds(v)
  {
  }

  lemma IdMinted(cfg: Config, w: World, p: Pid, text: string, v: World)
    requires Minting(cfg, w) && Issuing(cfg, w) && Recorded(w) && text !in w.ids
    requires v == w.(ids := w.ids[text := p])
    ensures Minting(cfg, v) && Issuing(cfg, v) && Recorded(v)
    ensures forall q :: Later(w, v, q)
  {
  }

  lemma LaterSame(w: World, p: Pid)
    ensures Later(w, w, p)
  {
  }

  lemma MintKeepsShared(cfg: Config, w: World, p: Pid, op: Op, reply: Reply, token: string)
    requires Shared(cfg, w) && (op.NewToken? || op.NewId?) && (reply.Failed? || Answers(cfg, w, op, reply))
    ensures Shared(cfg, Effect(cfg, w, p, op, reply, token))
    ensures forall q :: Later(w, Effect(cfg, w, p, op, reply, token), q)
  {
    hide Sound, Issuing, Recorded, Minting, Accounts, Later;
    var v := Effect(cfg, w, p, op, reply, token);
    if reply.Fresh? {
      AccountsFrame(cfg, w, v);
      if op.NewToken? {
        TokenMinted(cfg, w, p, reply.text, v);
        TokenMintedIssuing(cfg, w, p, reply.text, v);
      } else {
        IdMinted(cfg, w, p, reply.text, v);
      }
    } else {
      forall q ensures Later(w, v, q) { LaterSame(w, q); }
    }
  }

  /** Serving a request keeps the shared state in order, and to everybody but the process that
      made it it is just the passing of time. */
  lemma ServingKeepsShared(cfg: Config, w: World, e: Event)
    requires cfg.Lawful() && Shared(cfg, w) && Enabled(cfg, w, e) && e.Act?
    requires Sane(cfg, w, e.p, e.op, TokenAt(e.pc))
    ensures Shared(cfg, Served(cfg, w, e))
    ensures forall q | q != e.p :: Later(w, Served(cfg, w, e), q)
    ensures !e.op.CommitSession? && !e.op.RevokeSession? ==> Later(w, Served(cfg, w, e), e.p)
  {
    hide Sound, Issuing, Recorded, Minting, Accounts, FreshToken, FreshId;
    if e.took {
      var token := TokenAt(e.pc);
      match e.op
      case CommitSession(_, _, _) => CommitKeepsShared(cfg, w, e.p, e.op, token);
      case RevokeSession(_, _) => RevokeKeepsShared(cfg, w, e.p, e.op, token);
      case CleanSessions(_) => CleanKeepsShared(cfg, w, e.p, e.op, token);
      case InsertUser(_) => UsersKeepShared(cfg, w, e.p, e.op, token);
      case SetTotp(_, _) => UsersKeepShared(cfg, w, e.p, e.op, token);
      case UnsetTotp(_) => UsersKeepShared(cfg, w, e.p, e.op, token);
      case RecordFailure(_) => CountersKeepShared(cfg, w, e.p, e.op, token);
      case ResetFailures(_) => CountersKeepShared(cfg, w, e.p, e.op, token);
      case NewToken => MintKeepsShared(cfg, w, e.p, e.op, e.reply, token);
      case NewId => MintKeepsShared(cfg, w, e.p, e.op, e.reply, token);
      case _ =>
    }
  }

  // ---- The process that hears back ----

  /** What an answer tells the process that gets it, once the server has acted. */
  ghost predicate Learned(cfg: Config, v: World, p: Pid, op: Op, reply: Reply) {
    match op
    case Clock => reply == Now(v.now)
    case NewToken => reply.Fresh? ==> reply.text != "" && FreshToken(cfg, v, p, reply.text)
    case NewId => reply.Fresh? ==> FreshId(v, p, reply.text)
    case FindById(u) => reply.User? ==> reply.user.id == u
    case FindSession(hash) =>
      reply.Session? ==> forall raw | cfg.hash(raw) == hash && Holds(cfg, v, p, raw) ::
        RowOf(cfg, v, raw, reply.session)
    case _ => true
  }

  lemma AnswersAreLearned(cfg: Config, w: World, e: Event)
    requires Shared(cfg, w) && Enabled(cfg, w, e) && e.Act?
    ensures Learned(cfg, Served(cfg, w, e), e.p, e.op, e.reply)
  {
    hide Learned, Enabled, Served, Shared;
    match e.op
    case Clock => ReadingsAreLearned(cfg, w, e);
    case FindById(_) => ReadingsAreLearned(cfg, w, e);
    case FindSession(_) => ReadingsAreLearned(cfg, w, e);
    case NewToken => MintingIsLearned(cfg, w, e);
    case NewId => MintingIsLearned(cfg, w, e);
    case _ => RestIsLearned(cfg, w, e);
  }

  lemma ReadingsAreLearned(cfg: Config, w: World, e: Event)
    requires Shared(cfg, w) && Enabled(cfg, w, e) && e.Act? && (e.op.Clock? || e.op.FindById? || e.op.FindSession?)
    ensures Learned(cfg, Served(cfg, w, e), e.p, e.op, e.reply)
  {
    hide Resume, OpOf, Accounts, Minting, FreshToken, FreshId;
    assert Served(cfg, w, e) == w;
    hide Effect, Served;
  }

  lemma MintingIsLearned(cfg: Config, w: World, e: Event)
    requires Shared(cfg, w) && Enabled(cfg, w, e) && e.Act? && (e.op.NewToken? || e.op.NewId?)
    ensures Learned(cfg, Served(cfg, w, e), e.p, e.op, e.reply)
  {
    hide Resume, OpOf, Accounts, Sound, Recorded, Holds, RowOf;
    if e.op.NewToken? && e.reply.Fresh? {
      assert cfg.hash(e.reply.text) !in w.issued;
    }
  }

  lemma RestIsLearned(cfg: Config, w: World, e: Event)
    requires e.Act? && !e.op.Clock? && !e.op.FindById? && !e.op.FindSession? && !e.op.NewToken? && !e.op.NewId?
    ensures Learned(cfg, Served(cfg, w, e), e.p, e.op, e.reply)
  {
    hide Served;
  }

  /** Short of enrolling and of committing a login, a process keeps or forgets its token and
      keeps its pending setups, unless it closes the shell. */
  predicate Quiet(q: Proc, r: Proc) {
    (r.token == q.token || r.token == "") && (r.setups == q.setups || r.setups == NO_SETUPS)
  }

  lemma LoginStep(cfg: Config, v: World, p: Pid, q: Proc, l: LoginPc, reply: Reply)
    requires PlaceInv(cfg, v, p, q) && q.pc == LoggingIn(l)
    requires Learned(cfg, v, p, OpOf(cfg, q.pc), reply)
    ensures PlaceInv(cfg, v, p, ResumeLogin(cfg, q, l, reply)) && Quiet(q, ResumeLogin(cfg, q, l, reply))
  {
    hide SetupInv, ValidatingInv, LogoutInv;
    hide RegisterOp, CodeOp, FinishOp, ValidateOp, SetupOp, DisableOp, LogoutOp;
  }

  lemma DroppingKeepsPlace(cfg: Config, v: World, p: Pid, q: Proc, ch: string)
    requires PlaceInv(cfg, v, p, q) && LiveChallenges(q.pc) == {ch}
    ensures PlaceInv(cfg, v, p, Prompt(DropChallenge(q, ch)))
    ensures PlaceInv(cfg, v, p, Close(q)) && PlaceInv(cfg, v, p, Close(DropChallenge(q, ch)))
  {
    hide CodeInv, FinishInv, ValidatingInv, SetupInv, LogoutInv;
  }

  lemma CodeStep(cfg: Config, v: World, p: Pid, q: Proc, ch: string, c: CodePc, reply: Reply)
    requires PlaceInv(cfg, v, p, q) && q.pc == Code(ch, c)
    requires Learned(cfg, v, p, OpOf(cfg, q.pc), reply)
    ensures PlaceInv(cfg, v, p, ResumeCode(cfg, q, ch, c, reply)) && Quiet(q, ResumeCode(cfg, q, ch, c, reply))
  {
    DroppingKeepsPlace(cfg, v, p, q, ch);
    var r := ResumeCode(cfg, q, ch, c, reply);
    if r.pc != Shell && r.pc != Exited {
      CodeGoesOn(cfg, v, p, q, ch, c, reply);
    } else {
      CodeStops(cfg, q, ch, c, reply);
      assert ch in q.challenges;
    }
    hide PlaceInv, ResumeCode;
  }

  lemma CodeStops(cfg: Config, q: Proc, ch: string, c: CodePc, reply: Reply)
    requires ch in q.challenges
    ensures var r := ResumeCode(cfg, q, ch, c, reply);
            r.pc == Shell || r.pc == Exited ==>
              r == Prompt(DropChallenge(q, ch)) || r == Close(DropChallenge(q, ch))
  {
  }

  lemma CodeGoesOn(cfg: Config, v: World, p: Pid, q: Proc, ch: string, c: CodePc, reply: Reply)
    requires PlaceInv(cfg, v, p, q) && q.pc == Code(ch, c)
    requires Learned(cfg, v, p, OpOf(cfg, q.pc), reply)
    requires var r := ResumeCode(cfg, q, ch, c, reply); r.pc != Shell && r.pc != Exited
    ensures PlaceInv(cfg, v, p, ResumeCode(cfg, q, ch, c, reply)) && Quiet(q, ResumeCode(cfg, q, ch, c, reply))
  {
    hide SetupInv, ValidatingInv, LogoutInv, FreshToken, FreshId, Holds;
    hide RegisterOp, LoginOp, FinishOp, ValidateOp, SetupOp, DisableOp, LogoutOp;
  }

  lemma SpendingKeepsPlace(cfg: Config, v: World, p: Pid, q: Proc)
    requires PlaceInv(cfg, v, p, q) && q.pc.Finish?
    ensures PlaceInv(cfg, v, p, Prompt(Spend(q, q.pc.via)))
    ensures forall token :: PlaceInv(cfg, v, p, Prompt(Spend(q, q.pc.via)).(token := token))
  {
    hide CodeInv, ValidatingInv, SetupInv, LogoutInv;
    if q.pc.via.Some? {
      DroppingKeepsPlace(cfg, v, p, q, q.pc.via.value);
    }
  }

  lemma FinishStep(cfg: Config, v: World, p: Pid, q: Proc, u: string, via: Option<string>, f: FinishPc, reply: Reply)
    requires PlaceInv(cfg, v, p, q) && q.pc == Finish(u, via, f)
    requires Learned(cfg, v, p, OpOf(cfg, q.pc), reply)
    ensures PlaceInv(cfg, v, p, ResumeFinish(q, u, via, f, reply))
    ensures !f.CommitRow? ==> Quiet(q, ResumeFinish(q, u, via, f, reply))
  {
    SpendingKeepsPlace(cfg, v, p, q);
    var r := ResumeFinish(q, u, via, f, reply);
    if r.pc != Shell {
      FinishGoesOn(cfg, v, p, q, u, via, f, reply);
    }
    hide PlaceInv;
  }

  lemma FinishGoesOn(cfg: Config, v: World, p: Pid, q: Proc, u: string, via: Option<string>, f: FinishPc, reply: Reply)
    requires PlaceInv(cfg, v, p, q) && q.pc == Finish(u, via, f)
    requires Learned(cfg, v, p, OpOf(cfg, q.pc), reply)
    requires ResumeFinish(q, u, via, f, reply).pc != Shell
    ensures PlaceInv(cfg, v, p, ResumeFinish(q, u, via, f, reply))
    ensures Quiet(q, ResumeFinish(q, u, via, f, reply))
  {
    hide Holds, Filed, SetupInv, ValidatingInv, LogoutInv, CodeInv;
    hide RegisterOp, LoginOp, CodeOp, ValidateOp, SetupOp, DisableOp, LogoutOp;
  }

  /** The setup ConfirmSetup finds under the session's user is the one begun from this session. */
  lemma SessionsSetup(cfg: Config, v: World, q: Proc, raw: string)
    requires SetupsInv(v, q.setups) && cfg.hash(raw) in q.setups.bySession && cfg.hash(raw) in v.issued
    ensures var u := v.issued[cfg.hash(raw)].user;
            u in q.setups.byUser && q.setups.byUser[u].userId == u && Filed(cfg, v, q.setups, raw, q.setups.byUser[u])
  {
  }

  lemma ValidateStep(cfg: Config, v: World, p: Pid, q: Proc, raw: string, why: Purpose, x: ValidatePc, reply: Reply)
    requires PlaceInv(cfg, v, p, q) && q.pc == Validating(raw, why, x)
    requires Learned(cfg, v, p, OpOf(cfg, q.pc), reply)
    requires TokenInv(cfg, v, p, q.token) && SetupsInv(v, q.setups)
    ensures PlaceInv(cfg, v, p, ResumeValidate(q, raw, why, x, reply))
            && Quiet(q, ResumeValidate(q, raw, why, x, reply))
  {
    if x.FindUser? && reply.User? {
      AcceptStep(cfg, v, p, q, raw, why, x, reply);
    } else {
      LookupStep(cfg, v, p, q, raw, why, x, reply);
    }
  }

  lemma LookupStep(cfg: Config, v: World, p: Pid, q: Proc, raw: string, why: Purpose, x: ValidatePc, reply: Reply)
    requires PlaceInv(cfg, v, p, q) && q.pc == Validating(raw, why, x) && !(x.FindUser? && reply.User?)
    requires Learned(cfg, v, p, OpOf(cfg, q.pc), reply) && TokenInv(cfg, v, p, q.token)
    ensures PlaceInv(cfg, v, p, ResumeValidate(q, raw, why, x, reply))
            && Quiet(q, ResumeValidate(q, raw, why, x, reply))
  {
    hide SetupsInv, Filed, CodeInv, FinishInv, LogoutInv, SetupInv, Accepted;
    hide RegisterOp, LoginOp, CodeOp, FinishOp, SetupOp, DisableOp, LogoutOp;
    assert x.FindRow? && reply.Session? ==> RowOf(cfg, v, raw, reply.session);
    hide RowOf, Holds;
  }

  lemma AcceptStep(cfg: Config, v: World, p: Pid, q: Proc, raw: string, why: Purpose, x: ValidatePc, reply: Reply)
    requires PlaceInv(cfg, v, p, q) && q.pc == Validating(raw, why, x) && x.FindUser? && reply.User?
    requires Learned(cfg, v, p, OpOf(cfg, q.pc), reply) && SetupsInv(v, q.setups)
    ensures PlaceInv(cfg, v, p, ResumeValidate(q, raw, why, x, reply))
            && Quiet(q, ResumeValidate(q, raw, why, x, reply))
  {
    hide SetupsInv, Filed, CodeInv, FinishInv, LogoutInv;
    hide RegisterOp, LoginOp, CodeOp, FinishOp, SetupOp, DisableOp, LogoutOp;
    if why.ForConfirm? {
      SessionsSetup(cfg, v, q, raw);
    }
  }

  lemma LogoutStep(cfg: Config, v: World, p: Pid, q: Proc, raw: string, o: LogoutPc, reply: Reply)
    requires PlaceInv(cfg, v, p, q) && q.pc == LoggingOut(raw, o)
    requires Learned(cfg, v, p, OpOf(cfg, q.pc), reply)
    requires TokenInv(cfg, v, p, q.token)
    ensures PlaceInv(cfg, v, p, ResumeLogout(q, raw, o, reply)) && Quiet(q, ResumeLogout(q, raw, o, reply))
  {
    hide SetupInv, ValidatingInv, CodeInv, FinishInv, Filed;
    hide RegisterOp, LoginOp, CodeOp, FinishOp, ValidateOp, SetupOp, DisableOp;
    assert o.OutFind? && reply.Session? ==> RowOf(cfg, v, raw, reply.session);
  }

  lemma BootStep(cfg: Config, v: World, p: Pid, q: Proc, reply: Reply)
    requires PlaceInv(cfg, v, p, q) && (q.pc.Boot? || q.pc.BootClean?)
    requires Learned(cfg, v, p, OpOf(cfg, q.pc), reply)
    ensures PlaceInv(cfg, v, p, Resume(cfg, q, reply)) && Quiet(q, Resume(cfg, q, reply))
  {
    hide CodeInv, FinishInv, LogoutInv, SetupInv, ValidatingInv, ResumeLogin, ResumeCode, ResumeFinish, ResumeSetup;
    hide ResumeValidate, ResumeDisable, ResumeLogout, ResumeRegister, ResumeShell;
  }

  lemma ShellStep(cfg: Config, v: World, p: Pid, q: Proc, reply: Reply)
    requires PlaceInv(cfg, v, p, q) && q.pc == Shell
    ensures PlaceInv(cfg, v, p, ResumeShell(q, reply)) && Quiet(q, ResumeShell(q, reply))
  {
  }

  lemma RegisterStep(cfg: Config, v: World, p: Pid, q: Proc, r: RegisterPc, reply: Reply)
    requires PlaceInv(cfg, v, p, q) && q.pc == Registering(r)
    ensures PlaceInv(cfg, v, p, ResumeRegister(cfg, q, r, reply)) && Quiet(q, ResumeRegister(cfg, q, r, reply))
  {
  }

  lemma DisableStep(cfg: Config, v: World, p: Pid, q: Proc, d: DisablePc, reply: Reply)
    requires PlaceInv(cfg, v, p, q) && q.pc == Disabling(d)
    ensures PlaceInv(cfg, v, p, ResumeDisable(cfg, q, d, reply)) && Quiet(q, ResumeDisable(cfg, q, d, reply))
  {
  }

  lemma SetupStep(cfg: Config, v: World, p: Pid, q: Proc, raw: string, s: SetupPc, reply: Reply)
    requires cfg.Lawful() && PlaceInv(cfg, v, p, q) && q.pc == Setup(raw, s) && SetupsInv(v, q.setups)
    ensures var r := ResumeSetup(cfg, q, raw, s, reply);
            PlaceInv(cfg, v, p, r) && SetupsInv(v, r.setups) && (r.token == q.token || r.token == "")
  {
    if s.MakeSecret? || s.StampSetup? {
      BeginningStep(cfg, v, p, q, raw, s, reply);
    } else if s.AskSetup? {
      AskStep(cfg, v, p, q, raw, reply);
    } else if s.StampConfirm? {
      ExpiryStep(cfg, v, p, q, raw, s, reply);
    } else {
      StoringStep(cfg, v, p, q, raw, s, reply);
    }
  }

  lemma BeginningStep(cfg: Config, v: World, p: Pid, q: Proc, raw: string, s: SetupPc, reply: Reply)
    requires PlaceInv(cfg, v, p, q) && q.pc == Setup(raw, s) && SetupsInv(v, q.setups)
             && (s.MakeSecret? || s.StampSetup?)
    ensures var r := ResumeSetup(cfg, q, raw, s, reply);
            PlaceInv(cfg, v, p, r) && SetupsInv(v, r.setups) && r.token == q.token
  {
    hide Inverse, Owned, Begin, CodeInv, FinishInv, LogoutInv, ValidatingInv, Filed;
    if s.StampSetup? && reply.Now? {
      SetupBegins(cfg, v, q.setups, Pending(s.u, s.secret, reply.t + cfg.setupTimeout, cfg.hash(raw)));
    }
  }

  lemma AskStep(cfg: Config, v: World, p: Pid, q: Proc, raw: string, reply: Reply)
    requires PlaceInv(cfg, v, p, q) && q.pc == Setup(raw, AskSetup) && SetupsInv(v, q.setups)
    ensures var r := ResumeSetup(cfg, q, raw, AskSetup, reply);
            PlaceInv(cfg, v, p, r) && SetupsInv(v, r.setups) && (r.token == q.token || r.token == "")
  {
    hide Inverse, Owned, Cancel, CodeInv, FinishInv, LogoutInv, Filed;
    SetupsShrink(v, q.setups, Cancel(q.setups, cfg.hash(raw)), cfg.hash(raw));
    NoSetupsFit(v);
  }

  lemma ExpiryStep(cfg: Config, v: World, p: Pid, q: Proc, raw: string, s: SetupPc, reply: Reply)
    requires PlaceInv(cfg, v, p, q) && q.pc == Setup(raw, s) && SetupsInv(v, q.setups) && s.StampConfirm?
    ensures var r := ResumeSetup(cfg, q, raw, s, reply);
            PlaceInv(cfg, v, p, r) && SetupsInv(v, r.setups) && r.token == q.token
  {
    hide Inverse, Owned, Remove, CodeInv, FinishInv, LogoutInv, ValidatingInv;
    SetupsRemove(v, q.setups, s.pending);
    hide Filed;
  }

  lemma StoringStep(cfg: Config, v: World, p: Pid, q: Proc, raw: string, s: SetupPc, reply: Reply)
    requires cfg.Lawful() && PlaceInv(cfg, v, p, q) && q.pc == Setup(raw, s) && SetupsInv(v, q.setups)
    requires s.CheckSetup? || s.MakeNonce? || s.StoreSecret?
    ensures var r := ResumeSetup(cfg, q, raw, s, reply);
            PlaceInv(cfg, v, p, r) && SetupsInv(v, r.setups) && r.token == q.token
  {
    hide Inverse, Owned, Remove, CodeInv, FinishInv, LogoutInv, ValidatingInv;
    SetupsRemove(v, q.setups, s.pending);
    if s.CheckSetup? {
      FiledByHash(cfg, v, q, raw, s.pending);
    }
  }

  lemma FiledByHash(cfg: Config, v: World, q: Proc, raw: string, pending: Pending)
    requires SetupsInv(v, q.setups) && Filed(cfg, v, q.setups, raw, pending)
    ensures cfg.hash(raw) in q.setups.bySession
  {
  }

  lemma NoSetupsFit(v: World)
    ensures SetupsInv(v, NO_SETUPS)
  {
  }

  lemma SetupBegins(cfg: Config, v: World, s: Setups, value: Pending)
    requires SetupsInv(v, s) && value.sessionHash in v.issued && v.issued[value.sessionHash].user == value.userId
    ensures SetupsInv(v, Begin(s, value)) && value.sessionHash in Begin(s, value).bySession
  {
    BeginKeepsInverse(s, value, Owners(v));
  }

  lemma SetupsShrink(v: World, s: Setups, t: Setups, hash: string)
    requires SetupsInv(v, s) && t == Cancel(s, hash)
    ensures SetupsInv(v, t)
  {
    CancelIsExact(s, hash);
  }

  lemma SetupsRemove(v: World, s: Setups, pending: Pending)
    requires SetupsInv(v, s) && pending.userId in s.byUser && s.byUser[pending.userId] == pending
    ensures SetupsInv(v, Remove(s, pending))
  {
    RemoveKeepsInverse(s, pending);
  }

  lemma QuietKeeps(cfg: Config, v: World, p: Pid, q: Proc, r: Proc)
    requires ProcInv(cfg, v, p, q) && Quiet(q, r) && PlaceInv(cfg, v, p, r)
    ensures ProcInv(cfg, v, p, r)
  {
    hide PlaceInv, Holds;
  }

  /** The server has done nothing for `p` itself but take note: its next position fits. */
  lemma QuietStep(cfg: Config, v: World, p: Pid, q: Proc, reply: Reply)
    requires cfg.Lawful() && ProcInv(cfg, v, p, q) && q.pc != Exited
    requires !(q.pc.Finish? && q.pc.f.CommitRow?)
    requires Learned(cfg, v, p, OpOf(cfg, q.pc), reply)
    ensures ProcInv(cfg, v, p, Resume(cfg, q, reply))
  {
    hide PlaceInv, SetupsInv, Learned, ResumeLogin, ResumeCode, ResumeFinish, ResumeSetup;
    hide ResumeValidate, ResumeDisable, ResumeLogout, ResumeRegister, ResumeShell;
    match q.pc {
      case Setup(raw, s) => SetupStep(cfg, v, p, q, raw, s, reply);
      case LoggingIn(l) => LoginStep(cfg, v, p, q, l, reply);
      case Code(ch, c) => CodeStep(cfg, v, p, q, ch, c, reply);
      case Finish(u, via, f) => FinishStep(cfg, v, p, q, u, via, f, reply);
      case Validating(raw, why, x) => ValidateStep(cfg, v, p, q, raw, why, x, reply);
      case LoggingOut(raw, o) => LogoutStep(cfg, v, p, q, raw, o, reply);
      case Shell => ShellStep(cfg, v, p, q, reply);
      case Registering(r) => RegisterStep(cfg, v, p, q, r, reply);
      case Disabling(d) => DisableStep(cfg, v, p, q, d, reply);
      case Boot => BootStep(cfg, v, p, q, reply);
      case BootClean(_) => BootStep(cfg, v, p, q, reply);
    }
    if !q.pc.Setup? {
      QuietKeeps(cfg, v, p, q, Resume(cfg, q, reply));
    }
  }

  /** `v` is `w`, or `w` with one more session issued to `p`. */
  ghost predicate MayIssue(cfg: Config, w: World, v: World, p: Pid, u: string, f: FinishPc)
    requires f.CommitRow?
  {
    var hash, row := cfg.hash(f.token), SessionRow(f.id, u, cfg.hash(f.token), f.at + cfg.sessionTimeout, None);
    || v == w
    || (&& v.minted == w.minted && v.now == w.now && v.procs == w.procs
        && v.issued == w.issued[hash := Issue(p, f.token, u, f.id, row.expiresAt)]
        && v.tables.sessions == w.tables.sessions[hash := row])
  }

  lemma CommitEffect(cfg: Config, w: World, e: Event)
    requires e.Act? && Enabled(cfg, w, e) && e.pc.Finish? && e.pc.f.CommitRow?
    ensures MayIssue(cfg, w, Served(cfg, w, e), e.p, e.pc.u, e.pc.f)
    ensures e.reply.Done? ==>
            Served(cfg, w, e).issued
            == w.issued[cfg.hash(e.pc.f.token)
                        := Issue(e.p, e.pc.f.token, e.pc.u, e.pc.f.id, e.pc.f.at + cfg.sessionTimeout)]
  {
    hide ById, ByName, CreateUser, EnableTotp, DisableTotp, Resume, Revoke, DeleteExpired;
    if CommitLogin(w.tables, e.op.u, e.op.at, e.op.row).Some? {
      CommitChanges(w.tables, e.op.u, e.op.at, e.op.row);
    }
  }

  lemma OwnersExtend(w: World, v: World, s: Setups, hash: string, issue: Issue)
    requires Owned(s, Owners(w)) && hash !in w.issued && v.issued == w.issued[hash := issue]
    ensures Owned(s, Owners(v))
  {
  }

  /** A committed login makes its process the holder of the new session. */
  lemma CommitStep(cfg: Config, w: World, v: World, p: Pid, q: Proc, u: string, via: Option<string>, f: FinishPc,
    reply: Reply)
    requires ProcInv(cfg, w, p, q) && q.pc == Finish(u, via, f) && f.CommitRow?
    requires MayIssue(cfg, w, v, p, u, f)
    requires reply.Done? ==> cfg.hash(f.token) in v.issued
    ensures ProcInv(cfg, v, p, ResumeFinish(q, u, via, f, reply))
  {
    hide Inverse, Owned, Owners;
    var hash := cfg.hash(f.token);
    assert FreshToken(cfg, w, p, f.token);
    if v != w {
      OwnersExtend(w, v, q.setups, hash, v.issued[hash]);
    }
  }

  /** Logging out revokes the session and forgets the token in one event. */
  lemma RevokeStep(cfg: Config, w: World, v: World, p: Pid, q: Proc, reply: Reply)
    requires ProcInv(cfg, w, p, q) && q.pc.LoggingOut? && q.pc.o.OutRevoke?
    requires v.issued == w.issued
    ensures ProcInv(cfg, v, p, Resume(cfg, q, reply))
  {
    assert Owners(v) == Owners(w);
  }

  lemma RevokeEffect(cfg: Config, w: World, e: Event)
    requires e.Act? && e.op.RevokeSession?
    ensures Served(cfg, w, e).issued == w.issued
  {
  }

  lemma OwnStep(cfg: Config, w: World, e: Event)
    requires e.Act? && Enabled(cfg, w, e)
    requires cfg.Lawful() && Shared(cfg, w) && ProcInv(cfg, w, e.p, w.procs[e.p])
    requires Shared(cfg, Served(cfg, w, e))
    requires !e.op.CommitSession? && !e.op.RevokeSession? ==> Later(w, Served(cfg, w, e), e.p)
    ensures ProcInv(cfg, Served(cfg, w, e), e.p, Resume(cfg, w.procs[e.p], e.reply))
  {
    hide Sound, Issuing, Recorded, Minting, Accounts, Later, ProcInv, Learned, Effect, Answers;
    hide ResumeLogin, ResumeCode, ResumeFinish, ResumeSetup, ResumeValidate, ResumeDisable, ResumeLogout;
    hide ResumeRegister, ResumeShell;
    var q, v := w.procs[e.p], Served(cfg, w, e);
    if e.op.CommitSession? {
      CommitEffect(cfg, w, e);
      CommitStep(cfg, w, v, e.p, q, q.pc.u, q.pc.via, q.pc.f, e.reply);
    } else if e.op.RevokeSession? {
      RevokeEffect(cfg, w, e);
      RevokeStep(cfg, w, v, e.p, q, e.reply);
    } else {
      ProcInvStable(cfg, w, v, e.p, q);
      AnswersAreLearned(cfg, w, e);
      QuietStep(cfg, v, e.p, q, e.reply);
    }
  }

  lemma OthersKept(cfg: Config, w: World, e: Event, p: Pid)
    requires e.Act? && Enabled(cfg, w, e) && Shared(cfg, Served(cfg, w, e))
    requires p in w.procs && ProcInv(cfg, w, p, w.procs[p]) && Later(w, Served(cfg, w, e), p)
    ensures ProcInv(cfg, Next(cfg, w, e), p, w.procs[p])
  {
    var v, next := Served(cfg, w, e), Next(cfg, w, e);
    ProcInvStable(cfg, w, v, p, w.procs[p]);
    ProcInvFrame(cfg, v, next, p, w.procs[p]);
  }

  lemma ProcInvFrame(cfg: Config, v: World, next: World, p: Pid, q: Proc)
    requires next == v.(procs := next.procs) && ProcInv(cfg, v, p, q)
    ensures ProcInv(cfg, next, p, q)
  {
    assert Owners(v) == Owners(next);
  }

  lemma SharedFrame(cfg: Config, v: World, next: World)
    requires next == v.(procs := next.procs) && Shared(cfg, v)
    ensures Shared(cfg, next)
  {
    AccountsFrame(cfg, v, next);
  }

  lemma ActKeepsConsistent(cfg: Config, w: World, e: Event)
    requires cfg.Lawful() && Consistent(cfg, w) && Enabled(cfg, w, e) && e.Act?
    ensures Consistent(cfg, Next(cfg, w, e))
  {
    hide Shared, ProcInv, Answers, Resume, Effect, OpOf, Later, Sane;
    var q, v := w.procs[e.p], Served(cfg, w, e);
    var next := Next(cfg, w, e);
    RequestsAreSane(cfg, w, e.p, q);
    ServingKeepsShared(cfg, w, e);
    OwnStep(cfg, w, e);
    SharedFrame(cfg, v, next);
    ProcInvFrame(cfg, v, next, e.p, next.procs[e.p]);
    forall p | p in next.procs && p != e.p ensures ProcInv(cfg, next, p, next.procs[p]) {
      OthersKept(cfg, w, e, p);
    }
  }

  lemma StartIsConsistent(cfg: Config, pids: set<Pid>)
    requires cfg.Lawful()
    ensures Consistent(cfg, Start(pids))
  {
  }

  /** In every run, every reachable world is consistent. */
  lemma {:induction false} RunsAreConsistent(cfg: Config, pids: set<Pid>, es: seq<Event>)
    requires cfg.Lawful() && Ran(cfg, pids, es)
    ensures Consistent(cfg, After(cfg, pids, es))
    decreases |es|
  {
    hide Consistent, Resume, Effect, Answers, OpOf;
    if es == [] {
      StartIsConsistent(cfg, pids);
    } else {
      RunsAreConsistent(cfg, pids, Before(es));
      var w := After(cfg, pids, Before(es));
      match Last(es)
      case Tick(ms) => TickKeepsConsistent(cfg, w, ms);
      case Act(_, _, _, _, _) => ActKeepsConsistent(cfg, w, Last(es));
    }
  }
}
