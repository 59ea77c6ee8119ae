/** The two PostgreSQL tables and the effect of each statement the repositories issue on them. */
module Tables {
  import opened Wrappers

  datatype UserRow = UserRow(
    id: string, username: string, passwordHash: string,
    totpEnabled: bool, secret: Option<string>, lastLogin: Option<Time>)

  datatype SessionRow = SessionRow(
    id: string, userId: string, tokenHash: string, expiresAt: Time, revokedAt: Option<Time>)

  /** Users by primary key; sessions by their unique token hash. */
  datatype Snapshot = Snapshot(users: map<string, UserRow>, sessions: map<string, SessionRow>)

  const EMPTY_TABLES := Snapshot(map[], map[])

  predicate NameTaken(users: map<string, UserRow>, username: string) {
    exists u | u in users :: users[u].username == username
  }

  predicate SessionIdTaken(sessions: map<string, SessionRow>, id: string) {
    exists h | h in sessions :: sessions[h].id == id
  }

  /** Keys, unique indexes, the CHECK on the two TOTP columns and the foreign key. */
  ghost predicate Sound(t: Snapshot) {
    && (forall u | u in t.users :: t.users[u].id == u && (t.users[u].totpEnabled <==> t.users[u].secret.Some?))
    && (forall u, v | u in t.users && v in t.users && t.users[u].username == t.users[v].username :: u == v)
    && (forall h | h in t.sessions :: t.sessions[h].tokenHash == h && t.sessions[h].userId in t.users)
    && (forall h, k | h in t.sessions && k in t.sessions && t.sessions[h].id == t.sessions[k].id :: h == k)
  }

  ghost function ByName(users: map<string, UserRow>, username: string): Option<UserRow> {
    if u :| u in users && users[u].username == username then Some(users[u]) else None
  }

  function ById(users: map<string, UserRow>, id: string): Option<UserRow> {
    if id in users then Some(users[id]) else None
  }

  /** INSERT INTO users; None is the unique violation. */
  function CreateUser(users: map<string, UserRow>, row: UserRow): Option<map<string, UserRow>> {
    if row.id in users || NameTaken(users, row.username) then None else Some(users[row.id := row])
  }

  /** UPDATE users SET last_login_at; None when no row is affected. */
  function UpdateLastLogin(users: map<string, UserRow>, id: string, at: Time): Option<map<string, UserRow>> {
    if id in users then Some(users[id := users[id].(lastLogin := Some(at))]) else None
  }

  /** Compare-and-set from disabled to enabled; None when no row is affected. */
  function EnableTotp(users: map<string, UserRow>, id: string, encrypted: string): Option<map<string, UserRow>> {
    if id in users && !users[id].totpEnabled
    then Some(users[id := users[id].(totpEnabled := true, secret := Some(encrypted))])
    else None
  }

  /** Compare-and-set from enabled to disabled; None when no row is affected. */
  function DisableTotp(users: map<string, UserRow>, id: string): Option<map<string, UserRow>> {
    if id in users && users[id].totpEnabled
    then Some(users[id := users[id].(totpEnabled := false, secret := None)])
    else None
  }

  /** INSERT INTO sessions; None is a unique or foreign-key violation. */
  function CreateSession(t: Snapshot, row: SessionRow): Option<Snapshot> {
    if row.tokenHash in t.sessions || SessionIdTaken(t.sessions, row.id) || row.userId !in t.users then None
    else Some(t.(sessions := t.sessions[row.tokenHash := row]))
  }

  /** What the login transaction leaves behind when it commits; None when one of its
      statements refuses. */
  function CommitLogin(t: Snapshot, userId: string, at: Time, row: SessionRow): Option<Snapshot> {
    match UpdateLastLogin(t.users, userId, at)
    case None => None
    case Some(users) => CreateSession(t.(users := users), row)
  }

  function Revoked(row: SessionRow, id: string, at: Time): SessionRow {
    if row.id == id && row.revokedAt.None? then row.(revokedAt := Some(at)) else row
  }

  /** UPDATE sessions SET revoked_at WHERE id AND revoked_at IS NULL. */
  function Revoke(sessions: map<string, SessionRow>, id: string, at: Time): map<string, SessionRow> {
    map h | h in sessions :: Revoked(sessions[h], id, at)
  }

  /** Whether that UPDATE affects a row. */
  predicate Revocable(sessions: map<string, SessionRow>, id: string) {
    exists h | h in sessions :: sessions[h].id == id && sessions[h].revokedAt.None?
  }

  function DeleteExpired(sessions: map<string, SessionRow>, before: Time): map<string, SessionRow> {
    map h | h in sessions && sessions[h].expiresAt > before :: sessions[h]
  }

  /** The answer ValidateSession gives about a token hash at one instant. */
  datatype Standing = Unauthorized | RevokedSession | ExpiredSession | Valid(user: UserRow, expiresAt: Time)

  function StandingOf(t: Snapshot, hash: string, now: Time): Standing {
    if hash !in t.sessions then Unauthorized
    else
      var row := t.sessions[hash];
      if row.revokedAt.Some? then RevokedSession
      else if !(now < row.expiresAt) then ExpiredSession
      else if row.userId !in t.users then Unauthorized
      else Valid(t.users[row.userId], row.expiresAt)
  }

  // ---- What the statements keep and what they leave alone ----

  lemma ByNameIsTheRow(t: Snapshot, u: string)
    requires Sound(t) && u in t.users
    ensures ByName(t.users, t.users[u].username) == Some(t.users[u])
  {
    assert exists v :: v in t.users && t.users[v].username == t.users[u].username;
  }

  lemma CommitChanges(t: Snapshot, u: string, at: Time, row: SessionRow)
    requires CommitLogin(t, u, at, row).Some?
    ensures var after := CommitLogin(t, u, at, row).value;
            after.users.Keys == t.users.Keys && u in t.users && after.sessions == t.sessions[row.tokenHash := row]
  {
  }

  lemma CommitLoginKeepsSound(t: Snapshot, userId: string, at: Time, row: SessionRow)
    requires Sound(t) && CommitLogin(t, userId, at, row).Some?
    ensures Sound(CommitLogin(t, userId, at, row).value)
  {
    LastLoginKeepsSound(t, userId, at);
    CreateSessionKeepsSound(t.(users := UpdateLastLogin(t.users, userId, at).value), row);
    hide Sound, UpdateLastLogin, CreateSession;
  }

  lemma LastLoginKeepsSound(t: Snapshot, userId: string, at: Time)
    requires Sound(t)
    ensures UpdateLastLogin(t.users, userId, at).Some? ==>
              Sound(t.(users := UpdateLastLogin(t.users, userId, at).value))
  {
  }

  lemma CreateSessionKeepsSound(t: Snapshot, row: SessionRow)
    requires Sound(t)
    ensures CreateSession(t, row).Some? ==> Sound(CreateSession(t, row).value)
  {
    if CreateSession(t, row).Some? {
      assert forall h | h in t.sessions :: t.sessions[h].id != row.id;
    }
  }

  lemma UserStatementsKeepSound(t: Snapshot, row: UserRow, id: string, encrypted: string)
    requires Sound(t)
    ensures CreateUser(t.users, row).Some? && (row.totpEnabled <==> row.secret.Some?)
            ==> Sound(t.(users := CreateUser(t.users, row).value))
    ensures EnableTotp(t.users, id, encrypted).Some? ==> Sound(t.(users := EnableTotp(t.users, id, encrypted).value))
    ensures DisableTotp(t.users, id).Some? ==> Sound(t.(users := DisableTotp(t.users, id).value))
  {
    CreateUserKeepsSound(t, row);
    EnableKeepsSound(t, id, encrypted);
    DisableKeepsSound(t, id);
    hide Sound, CreateUser, EnableTotp, DisableTotp;
  }

  lemma CreateUserKeepsSound(t: Snapshot, row: UserRow)
    requires Sound(t)
    ensures CreateUser(t.users, row).Some? && (row.totpEnabled <==> row.secret.Some?)
            ==> Sound(t.(users := CreateUser(t.users, row).value))
  {
    if CreateUser(t.users, row).Some? {
      assert forall u | u in t.users :: t.users[u].username != row.username;
    }
  }

  lemma EnableKeepsSound(t: Snapshot, id: string, encrypted: string)
    requires Sound(t)
    ensures EnableTotp(t.users, id, encrypted).Some? ==> Sound(t.(users := EnableTotp(t.users, id, encrypted).value))
  {
  }

  lemma DisableKeepsSound(t: Snapshot, id: string)
    requires Sound(t)
    ensures DisableTotp(t.users, id).Some? ==> Sound(t.(users := DisableTotp(t.users, id).value))
  {
  }

  lemma RevokeKeepsSound(t: Snapshot, id: string, at: Time)
    requires Sound(t)
    ensures Sound(t.(sessions := Revoke(t.sessions, id, at)))
  {
    var ss := Revoke(t.sessions, id, at);
    assert forall h | h in ss :: h in t.sessions && ss[h].id == t.sessions[h].id
                                 && ss[h].tokenHash == t.sessions[h].tokenHash && ss[h].userId == t.sessions[h].userId;
  }

  lemma DeleteExpiredKeepsSound(t: Snapshot, before: Time)
    requires Sound(t)
    ensures Sound(t.(sessions := DeleteExpired(t.sessions, before)))
  {
    var ss := DeleteExpired(t.sessions, before);
    assert forall h | h in ss :: h in t.sessions && ss[h] == t.sessions[h];
  }

  /** Of any number of Revokes of one session only one can affect a row, and the standing of
      every other session is what it was. */
  lemma RevokeIsLocalAndOnce(t: Snapshot, id: string, at: Time, later: Time, h: string, now: Time)
    requires Sound(t)
    ensures var ss := Revoke(t.sessions, id, at);
            && !Revocable(ss, id)
            && Revoke(ss, id, later) == ss
            && (h in t.sessions && t.sessions[h].id == id ==> StandingOf(t.(sessions := ss), h, now) == RevokedSession)
            && (h !in t.sessions || t.sessions[h].id != id ==>
               StandingOf(t.(sessions := ss), h, now) == StandingOf(t, h, now))
  {
  }

  /** Cleaning up expired rows cannot be noticed by a session that is still valid, nor make
      one valid. */
  lemma CleanupKeepsStanding(t: Snapshot, before: Time, h: string, now: Time)
    requires before <= now
    ensures var t' := t.(sessions := DeleteExpired(t.sessions, before));
            && (StandingOf(t', h, now).Valid? <==> StandingOf(t, h, now).Valid?)
            && (StandingOf(t, h, now).Valid? ==> StandingOf(t', h, now) == StandingOf(t, h, now))
  {
  }
}
