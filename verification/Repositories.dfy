/** The PostgreSQL repositories, the unit of work and the login transaction, over tables that
    are updated in place; any statement may fail. */
module Repositories {
  import opened Wrappers
  import opened Tables
  import opened LoginSecurity

  datatype RepositoryError = NotFound | Conflict | DriverError

  /** What *sql.DB and *sql.Tx have in common: something statements run against. */
  class Executor {
    var tables: Snapshot

    constructor (tables: Snapshot)
      ensures this.tables == tables
    {
      this.tables := tables;
    }
  }

  class UserRepository {
    const db: Executor

    constructor (db: Executor)
      ensures this.db == db
    {
      this.db := db;
    }

    method FindByUsername(username: string, fault: Fault) returns (r: Result<UserRow, RepositoryError>)
      requires Sound(db.tables)
      ensures r == if fault != NoFault then Err(DriverError)
                   else match ByName(db.tables.users, username) case Some(row) => Ok(row) case None => Err(NotFound)
    {
      if fault != NoFault {
        return Err(DriverError);
      }
      if u :| u in db.tables.users && db.tables.users[u].username == username {
        ByNameIsTheRow(db.tables, u);
        return Ok(db.tables.users[u]);
      }
      return Err(NotFound);
    }

    /** The row found is the only one with that key, the one its own name finds, and has a secret
        exactly when two-factor is on; nothing is found only when no row has the key. */
    method FindByID(userId: string, fault: Fault) returns (r: Result<UserRow, RepositoryError>)
      ensures r == Err(DriverError) <==> fault != NoFault
      ensures r.Ok? <==> fault == NoFault && userId in db.tables.users
      ensures r.Ok? ==> r.value == db.tables.users[userId]
      ensures Sound(db.tables) ==>
                match r
                case Ok(row) =>
                  && row.id == userId && (row.totpEnabled <==> row.secret.Some?)
                  && ByName(db.tables.users, row.username) == Some(row)
                  && forall u | u in db.tables.users && db.tables.users[u].id == userId :: db.tables.users[u] == row
                case Err(NotFound) => forall u | u in db.tables.users :: db.tables.users[u].id != userId
                case Err(_) => true
    {
      if Sound(db.tables) && userId in db.tables.users {
        ByNameIsTheRow(db.tables, userId);
      }
      if fault != NoFault {
        return Err(DriverError);
      }
      return if userId in db.tables.users then Ok(db.tables.users[userId]) else Err(NotFound);
    }

    method Create(row: UserRow, fault: Fault) returns (r: Result<(), RepositoryError>)
      requires Sound(db.tables) && (row.totpEnabled <==> row.secret.Some?)
      modifies db
      ensures Sound(db.tables) && db.tables.sessions == old(db.tables.sessions)
      ensures var after := CreateUser(old(db.tables.users), row);
              && db.tables.users == (if fault == LostRequest || after.None? then old(db.tables.users) else after.value)
              && r == if fault != NoFault then Err(DriverError) else if after.None? then Err(Conflict) else Ok(())
    {
      if fault == LostRequest {
        return Err(DriverError);
      }
      UserStatementsKeepSound(db.tables, row, row.id, "");
      var taken := row.id in db.tables.users || NameTaken(db.tables.users, row.username);
      if !taken {
        db.tables := db.tables.(users := db.tables.users[row.id := row]);
      }
      return if fault == LostReply then Err(DriverError) else if taken then Err(Conflict) else Ok(());
    }

    method UpdateLastLogin(userId: string, at: Time, fault: Fault) returns (r: Result<(), RepositoryError>)
      modifies db
      ensures var after := Tables.UpdateLastLogin(old(db.tables.users), userId, at);
              && db.tables == (if fault == LostRequest || after.None? then old(db.tables)
                 else old(db.tables).(users := after.value))
              && r == if fault != NoFault then Err(DriverError) else if after.None? then Err(NotFound) else Ok(())
    {
      if fault == LostRequest {
        return Err(DriverError);
      }
      var rows := if userId in db.tables.users then 1 else 0;
      if rows == 1 {
        db.tables := db.tables.(users := db.tables.users[userId := db.tables.users[userId].(lastLogin := Some(at))]);
      }
      return if fault == LostReply then Err(DriverError) else if rows == 0 then Err(NotFound) else Ok(());
    }

    /** No affected row means that somebody else enabled it first. */
    method EnableTOTP(userId: string, encrypted: string, fault: Fault) returns (r: Result<(), RepositoryError>)
      requires Sound(db.tables)
      modifies db
      ensures Sound(db.tables)
      ensures var after := EnableTotp(old(db.tables.users), userId, encrypted);
              && db.tables == (if fault == LostRequest || after.None? then old(db.tables)
                 else old(db.tables).(users := after.value))
              && r == if fault != NoFault then Err(DriverError) else if after.None? then Err(Conflict) else Ok(())
    {
      if fault == LostRequest {
        return Err(DriverError);
      }
      var rows := 0;
      if userId in db.tables.users && !db.tables.users[userId].totpEnabled {
        db.tables := db.tables.(users :=
          db.tables.users[userId := db.tables.users[userId].(totpEnabled := true, secret := Some(encrypted))]);
        rows := 1;
      }
      return if fault == LostReply then Err(DriverError) else if rows == 0 then Err(Conflict) else Ok(());
    }

    method DisableTOTP(userId: string, fault: Fault) returns (r: Result<(), RepositoryError>)
      requires Sound(db.tables)
      modifies db
      ensures Sound(db.tables)
      ensures var after := DisableTotp(old(db.tables.users), userId);
              && db.tables == (if fault == LostRequest || after.None? then old(db.tables)
                 else old(db.tables).(users := after.value))
              && r == if fault != NoFault then Err(DriverError) else if after.None? then Err(Conflict) else Ok(())
    {
      if fault == LostRequest {
        return Err(DriverError);
      }
      var rows := 0;
      if userId in db.tables.users && db.tables.users[userId].totpEnabled {
        db.tables := db.tables.(users :=
          db.tables.users[userId := db.tables.users[userId].(totpEnabled := false, secret := None)]);
        rows := 1;
      }
      return if fault == LostReply then Err(DriverError) else if rows == 0 then Err(Conflict) else Ok(());
    }
  }

  class SessionRepository {
    const db: Executor

    constructor (db: Executor)
      ensures this.db == db
    {
      this.db := db;
    }

    method Create(row: SessionRow, fault: Fault) returns (r: Result<(), RepositoryError>)
      modifies db
      ensures var after := CreateSession(old(db.tables), row);
              && db.tables == (if fault == LostRequest || after.None? then old(db.tables) else after.value)
              && (r.Ok? <==> fault == NoFault && after.Some?)
      ensures r == Err(Conflict)
              <==> fault == NoFault
                   && (row.tokenHash in old(db.tables.sessions) || SessionIdTaken(old(db.tables.sessions), row.id))
      ensures r != Err(NotFound)
    {
      if fault == LostRequest {
        return Err(DriverError);
      }
      if row.tokenHash in db.tables.sessions || SessionIdTaken(db.tables.sessions, row.id) {
        return if fault == LostReply then Err(DriverError) else Err(Conflict);
      }
      if row.userId !in db.tables.users {
        return Err(DriverError);
      }
      db.tables := db.tables.(sessions := db.tables.sessions[row.tokenHash := row]);
      return if fault == LostReply then Err(DriverError) else Ok(());
    }

    /** The row found is the only one with that hash, belongs to a user there is, and decides at
        any moment whether the session is valid; nothing is found only when no row has the hash. */
    method FindByTokenHash(hash: string, fault: Fault) returns (r: Result<SessionRow, RepositoryError>)
      ensures r == Err(DriverError) <==> fault != NoFault
      ensures r.Ok? <==> fault == NoFault && hash in db.tables.sessions
      ensures r.Ok? ==> r.value == db.tables.sessions[hash]
      ensures Sound(db.tables) ==>
                match r
                case Ok(row) =>
                  && row.tokenHash == hash && row.userId in db.tables.users
                  && (forall h | h in db.tables.sessions && db.tables.sessions[h].tokenHash == hash ::
                        db.tables.sessions[h] == row)
                  && (forall now: Time ::
                        StandingOf(db.tables, hash, now).Valid? <==> row.revokedAt.None? && now < row.expiresAt)
                case Err(NotFound) =>
                  && (forall h | h in db.tables.sessions :: db.tables.sessions[h].tokenHash != hash)
                  && forall now: Time :: StandingOf(db.tables, hash, now) == Unauthorized
                case Err(_) => true
    {
      if fault != NoFault {
        return Err(DriverError);
      }
      return if hash in db.tables.sessions then Ok(db.tables.sessions[hash]) else Err(NotFound);
    }

    method Revoke(id: string, at: Time, fault: Fault) returns (r: Result<(), RepositoryError>)
      requires Sound(db.tables)
      modifies db
      ensures Sound(db.tables)
      ensures db.tables == if fault == LostRequest then old(db.tables)
                           else old(db.tables).(sessions := Tables.Revoke(old(db.tables.sessions), id, at))
      ensures r == if fault != NoFault then Err(DriverError)
                   else if Revocable(old(db.tables.sessions), id) then Ok(()) else Err(NotFound)
    {
      if fault == LostRequest {
        return Err(DriverError);
      }
      RevokeKeepsSound(db.tables, id, at);
      var rows := if Revocable(db.tables.sessions, id) then 1 else 0;
      db.tables := db.tables.(sessions := Tables.Revoke(db.tables.sessions, id, at));
      return if fault == LostReply then Err(DriverError) else if rows == 0 then Err(NotFound) else Ok(());
    }

    /** From `before` on nobody can tell by asking for a valid session whether this ran, and the
        sessions it leaves are exactly those that can still be valid then. */
    method DeleteExpired(before: Time, fault: Fault) returns (r: Result<(), RepositoryError>)
      modifies db
      ensures forall h: string, now: Time | before <= now ::
                && (StandingOf(db.tables, h, now).Valid? <==> StandingOf(old(db.tables), h, now).Valid?)
                && (StandingOf(old(db.tables), h, now).Valid? ==>
                      StandingOf(db.tables, h, now) == StandingOf(old(db.tables), h, now))
      ensures fault != LostRequest ==>
                forall h | h in db.tables.sessions :: before < db.tables.sessions[h].expiresAt
      ensures forall h | h in old(db.tables.sessions) && before < old(db.tables.sessions)[h].expiresAt ::
                h in db.tables.sessions && db.tables.sessions[h] == old(db.tables.sessions)[h]
      ensures old(Sound(db.tables)) ==> Sound(db.tables)
      ensures db.tables == if fault == LostRequest then old(db.tables)
                           else old(db.tables).(sessions := Tables.DeleteExpired(old(db.tables.sessions), before))
      ensures r == if fault == NoFault then Ok(()) else Err(DriverError)
    {
      if fault == LostRequest {
        return Err(DriverError);
      }
      forall h: string, now: Time | before <= now
        ensures var after := db.tables.(sessions := Tables.DeleteExpired(db.tables.sessions, before));
                && (StandingOf(after, h, now).Valid? <==> StandingOf(db.tables, h, now).Valid?)
                && (StandingOf(db.tables, h, now).Valid? ==> StandingOf(after, h, now) == StandingOf(db.tables, h, now))
      {
        CleanupKeepsStanding(db.tables, before, h, now);
      }
      db.tables := db.tables.(sessions := Tables.DeleteExpired(db.tables.sessions, before));
      return if fault == LostReply then Err(DriverError) else Ok(());
    }
  }

  /** Where the login transaction may go wrong. */
  datatype LoginFaults = LoginFaults(begin: Fault, find: Fault, update: Fault, insert: Fault, commit: Fault)

  const NO_LOGIN_FAULTS := LoginFaults(NoFault, NoFault, NoFault, NoFault, NoFault)

  class UnitOfWork {
    const db: Executor

    constructor (db: Executor)
      ensures this.db == db
    {
      this.db := db;
    }

    /** Statements of a transaction run against a copy that nobody else sees. */
    method Begin(fault: Fault) returns (tx: Executor?)
      ensures fault == NoFault <==> tx != null
      ensures tx != null ==> fresh(tx) && tx.tables == db.tables
    {
      tx := null;
      if fault == NoFault {
        tx := new Executor(db.tables);
      }
    }

    method Commit(tx: Executor, fault: Fault) returns (ok: bool)
      modifies db
      ensures db.tables == if fault == LostRequest then old(db.tables) else old(tx.tables)
      ensures ok == (fault == NoFault)
    {
      if fault != LostRequest {
        db.tables := tx.tables;
      }
      ok := fault == NoFault;
    }

    /** The transaction of a login: all or nothing whatever fails, returning the user as on
        record when it began. Only a commit whose reply was lost can leave the work done and
        report failure. */
    method WithinTransaction(userId: string, now: Time, row: SessionRow, faults: LoginFaults)
      returns (r: Result<UserRow, RepositoryError>)
      modifies db
      ensures var done := CommitLogin(old(db.tables), userId, now, row);
              && (r.Ok? <==> done.Some? && faults == NO_LOGIN_FAULTS)
              && (db.tables == old(db.tables) || (done.Some? && db.tables == done.value))
              && (r.Ok? ==> db.tables == done.value)
              && (r.Err? ==> db.tables == old(db.tables) || faults.commit == LostReply)
      ensures r.Ok? ==> r.value == old(db.tables.users)[userId]
    {
      var tx := Begin(faults.begin);
      if tx == null {
        return Err(DriverError);
      }
      var users := new UserRepository(tx);
      var sessions := new SessionRepository(tx);
      var found := users.FindByID(userId, faults.find);
      if found.Err? {
        return Err(found.error);
      }
      var updated := users.UpdateLastLogin(userId, now, faults.update);
      if updated.Err? {
        return Err(updated.error);
      }
      var created := sessions.Create(row, faults.insert);
      if created.Err? {
        return Err(created.error);
      }
      var ok := Commit(tx, faults.commit);
      return if ok then found else Err(DriverError);
    }
  }
}
