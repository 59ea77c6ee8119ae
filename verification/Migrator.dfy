/** Bringing the database schema up to date: any number of processes may try at once, and each
    may fail or be killed at any point. */
module Migrator {
  import opened Wrappers
  import opened MigrationFiles

  /** `schema` lists the files whose statements are part of the schema, in the order they took
      effect; `recorded` is the schema_migrations table. */
  datatype Database = Database(table: bool, recorded: map<int, string>, schema: seq<string>)

  const EMPTY_DATABASE := Database(false, map[], [])

  /** The embedded files in order, and whether the statements of a file succeed on a schema. */
  datatype Release = Release(files: seq<Migration>, runs: (seq<string>, string) -> bool)

  /** Where one call of Migrate can be waiting; `i` is the position in the list of files. */
  datatype Pc =
    | Idle | Locking | Creating | Checking(i: nat) | Opening(i: nat) | Executing(i: nat) | Recording(i: nat)
    | Committing(i: nat) | RollingBack | Unlocking(ok: bool) | Closing(ok: bool) | Ended(ok: bool)

  datatype Op =
    | Lock | CreateTable | IsApplied(version: int) | Begin | Run(name: string) | Insert(version: int, name: string)
    | Commit | Rollback | Unlock | Close

  datatype Reply = Done | Flag(on: bool) | Failed

  predicate Waiting(files: seq<Migration>, pc: Pc) {
    match pc
    case Idle | Ended(_) => false
    case Checking(i) => i < |files|
    case Opening(i) => i < |files|
    case Executing(i) => i < |files|
    case Recording(i) => i < |files|
    case Committing(i) => i < |files|
    case _ => true
  }

  function OpOf(files: seq<Migration>, pc: Pc): Op
    requires Waiting(files, pc)
  {
    match pc
    case Locking => Lock
    case Creating => CreateTable
    case Checking(i) => IsApplied(files[i].version)
    case Opening(_) => Begin
    case Executing(i) => Run(files[i].name)
    case Recording(i) => Insert(files[i].version, files[i].name)
    case Committing(_) => Commit
    case RollingBack => Rollback
    case Unlocking(_) => Unlock
    case Closing(_) => Close
  }

  /** Having checked all files, there is nothing left to do but unlock. */
  function Check(files: seq<Migration>, i: nat): Pc {
    if i < |files| then Checking(i) else Unlocking(true)
  }

  /** Every failure after the lock is taken goes through the deferred rollback and unlock, whose
      own failures are ignored. An unusable set of files is found out under the lock. */
  function Resume(files: seq<Migration>, pc: Pc, reply: Reply): Pc {
    match pc
    case Locking => if reply.Done? then Creating else Closing(false)
    case Creating => if reply.Done? && files != [] then Checking(0) else Unlocking(false)
    case Checking(i) =>
      if reply == Flag(true) then Check(files, i + 1) else if reply == Flag(false) then Opening(i) else Unlocking(false)
    case Opening(i) => if reply.Done? then Executing(i) else Unlocking(false)
    case Executing(i) => if reply.Done? then Recording(i) else RollingBack
    case Recording(i) => if reply.Done? then Committing(i) else RollingBack
    case Committing(i) => if reply.Done? then Check(files, i + 1) else RollingBack
    case RollingBack => Unlocking(false)
    case Unlocking(ok) => Closing(ok)
    case Closing(ok) => Ended(ok)
    case _ => pc
  }

  // ---- The server ----

  type Pid = nat

  /** `open` holds what each open transaction would commit. */
  datatype World = World(db: Database, lock: Option<Pid>, open: map<Pid, Database>, procs: map<Pid, Pc>)

  function PcOf(w: World, p: Pid): Pc {
    if p in w.procs then w.procs[p] else Idle
  }

  /** The answer a request gets when it succeeds or is refused for good reason. */
  predicate Answers(r: Release, w: World, p: Pid, op: Op, reply: Reply) {
    match op
    case Lock => w.lock.None? && reply.Done?
    case IsApplied(version) => w.db.table && reply == Flag(version in w.db.recorded)
    case Run(name) => p in w.open && r.runs(w.open[p].schema, name) && reply.Done?
    case Insert(version, _) => p in w.open && version !in w.open[p].recorded && reply.Done?
    case Commit => p in w.open && reply.Done?
    case _ => reply.Done?
  }

  function Hangup(w: World, p: Pid): World {
    w.(open := w.open - {p}, lock := if w.lock == Some(p) then None else w.lock)
  }

  /** What a request leaves behind when it reaches the server. */
  function Effect(r: Release, w: World, p: Pid, op: Op): World {
    match op
    case Lock => if w.lock.None? then w.(lock := Some(p)) else w
    case CreateTable => w.(db := w.db.(table := true))
    case IsApplied(_) => w
    case Begin => w.(open := w.open[p := w.db])
    case Run(name) =>
      if p in w.open && r.runs(w.open[p].schema, name)
      then w.(open := w.open[p := w.open[p].(schema := w.open[p].schema + [name])]) else w
    case Insert(version, name) =>
      if p in w.open && version !in w.open[p].recorded
      then w.(open := w.open[p := w.open[p].(recorded := w.open[p].recorded[version := name])]) else w
    case Commit => if p in w.open then w.(db := w.open[p], open := w.open - {p}) else w
    case Rollback => w.(open := w.open - {p})
    case Unlock => w.(lock := if w.lock == Some(p) then None else w.lock)
    case Close => Hangup(w, p)
  }

  /** A failed request may have reached the server all the same. Closing gives the connection back
      to its pool: the session behind it may end there and then or live on, and hold a lock that
      could not be given back, until the process is gone. A process may be killed and started
      again at any moment. */
  datatype Event = Launch(p: Pid) | Act(p: Pid, reply: Reply, took: bool) | Kill(p: Pid)

  predicate Enabled(r: Release, w: World, e: Event) {
    match e
    case Launch(p) => PcOf(w, p).Idle? || PcOf(w, p).Ended?
    case Act(p, reply, took) =>
      && Waiting(r.files, PcOf(w, p))
      && if reply.Failed? then !PcOf(w, p).Closing?
         else (took || PcOf(w, p).Closing?) && Answers(r, w, p, OpOf(r.files, PcOf(w, p)), reply)
    case Kill(_) => true
  }

  function Next(r: Release, w: World, e: Event): World
    requires Enabled(r, w, e)
  {
    match e
    case Launch(p) => w.(procs := w.procs[p := Locking])
    case Act(p, reply, took) =>
      var after := if took then Effect(r, w, p, OpOf(r.files, PcOf(w, p))) else w;
      after.(procs := w.procs[p := Resume(r.files, PcOf(w, p), reply)])
    case Kill(p) => Hangup(w, p).(procs := w.procs[p := Idle])
  }

  const FRESH := World(EMPTY_DATABASE, None, map[], map[])

  ghost predicate Step(r: Release, w: World, v: World) {
    exists e :: Enabled(r, w, e) && v == Next(r, w, e)
  }

  ghost predicate Path(r: Release, ws: seq<World>) {
    ws != [] && forall i | 0 <= i < |ws| - 1 :: Step(r, ws[i], ws[i + 1])
  }

  /** Everything that can happen to an empty database. */
  ghost predicate Ran(r: Release, ws: seq<World>) {
    Path(r, ws) && ws[0] == FRESH
  }

  // ---- What every run keeps ----

  /** Exactly the first `k` files are recorded, and the schema is what they make of nothing. */
  ghost predicate At(r: Release, db: Database, k: nat) {
    && k <= |r.files| && |db.schema| == k
    && (k > 0 ==> db.table)
    && (forall i | 0 <= i < k :: db.schema[i] == r.files[i].name && r.runs(db.schema[..i], r.files[i].name))
    && (forall i | 0 <= i < k ::
          r.files[i].version in db.recorded && db.recorded[r.files[i].version] == r.files[i].name)
    && (forall v | v in db.recorded :: exists i | 0 <= i < k :: r.files[i].version == v)
  }

  /** Between taking the lock and giving it back. */
  predicate Critical(pc: Pc) {
    !pc.Idle? && !pc.Locking? && !pc.Closing? && !pc.Ended?
  }

  ghost predicate ProcOk(r: Release, w: World, p: Pid) {
    var pc, k := PcOf(w, p), |w.db.schema|;
    && (Critical(pc) ==> w.lock == Some(p))
    && match pc
       case Checking(i) => i < |r.files| && i <= k && w.db.table
       case Opening(i) => i == k < |r.files| && w.db.table
       case Executing(i) => i == k < |r.files| && w.db.table && p in w.open && w.open[p] == w.db
       case Recording(i) =>
         && i == k < |r.files| && w.db.table && r.runs(w.db.schema, r.files[i].name)
         && p in w.open && w.open[p] == w.db.(schema := w.db.schema + [r.files[i].name])
       case Committing(i) =>
         && i == k < |r.files| && w.db.table && r.runs(w.db.schema, r.files[i].name)
         && p in w.open && w.open[p] == With(w.db, r.files[i])
       case Unlocking(ok) => ok ==> k == |r.files|
       case Closing(ok) => ok ==> k == |r.files|
       case Ended(ok) => ok ==> k == |r.files|
       case _ => true
  }

  function With(db: Database, m: Migration): Database {
    db.(schema := db.schema + [m.name], recorded := db.recorded[m.version := m.name])
  }

  ghost predicate Consistent(r: Release, w: World) {
    At(r, w.db, |w.db.schema|) && forall p :: ProcOk(r, w, p)
  }

  lemma WithKeepsAt(r: Release, db: Database, k: nat)
    requires Increasing(r.files) && At(r, db, k) && k < |r.files| && db.table && r.runs(db.schema, r.files[k].name)
    ensures At(r, With(db, r.files[k]), k + 1)
  {
    var after := With(db, r.files[k]);
    forall i | 0 <= i < k + 1
      ensures after.schema[i] == r.files[i].name && r.runs(after.schema[..i], r.files[i].name)
    {
      assert after.schema[..i] == db.schema[..i];
      assert i == k ==> db.schema[..i] == db.schema;
    }
    forall v | v in after.recorded ensures exists i | 0 <= i < k + 1 :: r.files[i].version == v {
      if v in db.recorded {
        var i :| 0 <= i < k && r.files[i].version == v;
      } else {
        assert r.files[k].version == v;
      }
    }
  }

  /** The database moves only by the commit of the next file in line, and by creating the table. */
  ghost predicate Grows(r: Release, db: Database, after: Database) {
    || after == db
    || after == db.(table := true)
    || (&& |db.schema| < |r.files| && db.table && r.runs(db.schema, r.files[|db.schema|].name)
        && after == With(db, r.files[|db.schema|]))
  }

  lemma StepKeeps(r: Release, w: World, e: Event)
    requires Increasing(r.files) && Consistent(r, w) && Enabled(r, w, e)
    ensures Consistent(r, Next(r, w, e)) && Grows(r, w.db, Next(r, w, e).db)
  {
    var v, p := Next(r, w, e), e.p;
    StepGrows(r, w, e);
    forall q ensures ProcOk(r, v, q) {
      assert ProcOk(r, w, q) && ProcOk(r, w, p);
      if q == p {
        StepKeepsOwn(r, w, e);
      } else {
        StepKeepsOther(r, w, e, q);
      }
    }
  }

  lemma StepGrows(r: Release, w: World, e: Event)
    requires Increasing(r.files) && Consistent(r, w) && Enabled(r, w, e)
    ensures Grows(r, w.db, Next(r, w, e).db)
    ensures At(r, Next(r, w, e).db, |Next(r, w, e).db.schema|)
    ensures Next(r, w, e).db != w.db ==> Critical(PcOf(w, e.p))
  {
    assert ProcOk(r, w, e.p);
    OnlyCommitsMove(r, w, e);
    hide Next, Increasing, At;
    GrowthKeepsAt(r, w.db, Next(r, w, e).db);
  }

  lemma GrowthKeepsAt(r: Release, db: Database, after: Database)
    requires Increasing(r.files) && At(r, db, |db.schema|) && Grows(r, db, after)
    ensures At(r, after, |after.schema|)
  {
    if |db.schema| < |r.files| && db.table && r.runs(db.schema, r.files[|db.schema|].name) {
      WithKeepsAt(r, db, |db.schema|);
    }
    hide Increasing;
  }

  lemma OnlyCommitsMove(r: Release, w: World, e: Event)
    requires Enabled(r, w, e)
    ensures var pc, db := PcOf(w, e.p), Next(r, w, e).db;
            || db == w.db
            || (pc.Creating? && db == w.db.(table := true))
            || (pc.Committing? && e.p in w.open && db == w.open[e.p])
  {
  }

  lemma StepKeepsOwn(r: Release, w: World, e: Event)
    requires Increasing(r.files) && Consistent(r, w) && Enabled(r, w, e)
    ensures ProcOk(r, Next(r, w, e), e.p)
  {
    assert ProcOk(r, w, e.p) && |w.db.schema| <= |r.files|;
    hide At, Increasing;
    var pc := PcOf(w, e.p);
    if e.Act? && pc.Checking? && e.reply.Flag? {
      CheckIsRight(r, w.db, pc.i);
    }
    if e.Act? && (pc.Opening? || pc.Executing? || pc.Recording? || pc.Committing?) {
      TransactionKeepsOwn(r, w, e);
    } else {
      OutsideKeepsOwn(r, w, e);
    }
  }

  lemma TransactionKeepsOwn(r: Release, w: World, e: Event)
    requires Enabled(r, w, e) && e.Act? && ProcOk(r, w, e.p) && |w.db.schema| <= |r.files|
    requires var pc := PcOf(w, e.p); pc.Opening? || pc.Executing? || pc.Recording? || pc.Committing?
    ensures ProcOk(r, Next(r, w, e), e.p)
  {
  }

  lemma OutsideKeepsOwn(r: Release, w: World, e: Event)
    requires Enabled(r, w, e) && ProcOk(r, w, e.p) && |w.db.schema| <= |r.files|
    requires var pc := PcOf(w, e.p);
             e.Act? ==> !(pc.Opening? || pc.Executing? || pc.Recording? || pc.Committing?)
    requires var pc := PcOf(w, e.p);
             e.Act? && pc.Checking? && e.reply.Flag? ==>
               (r.files[pc.i].version in w.db.recorded <==> pc.i < |w.db.schema|)
    ensures ProcOk(r, Next(r, w, e), e.p)
  {
  }

  /** A file in line is recorded exactly when it is not the next. */
  lemma CheckIsRight(r: Release, db: Database, i: nat)
    requires Increasing(r.files) && At(r, db, |db.schema|) && i < |r.files| && i <= |db.schema|
    ensures r.files[i].version in db.recorded <==> i < |db.schema|
  {
  }

  lemma StepKeepsOther(r: Release, w: World, e: Event, q: Pid)
    requires Increasing(r.files) && Consistent(r, w) && Enabled(r, w, e) && q != e.p
    ensures ProcOk(r, Next(r, w, e), q)
  {
    var v := Next(r, w, e);
    assert ProcOk(r, w, q) && ProcOk(r, w, e.p);
    assert PcOf(v, q) == PcOf(w, q);
    StepGrows(r, w, e);
  }

  /** After any sequence of attempts, however each of them failed, the recorded versions are a
      prefix of the ordered list and the schema is what exactly those files make. A file that
      does not run on the schema before it stops every attempt there. */
  lemma {:induction false} RunsConverge(r: Release, ws: seq<World>, i: nat)
    requires Increasing(r.files) && Ran(r, ws) && i < |ws|
    ensures Consistent(r, ws[i])
  {
    if i > 0 {
      RunsConverge(r, ws, i - 1);
      assert Step(r, ws[i - 1], ws[i - 1 + 1]);
      var e :| Enabled(r, ws[i - 1], e) && ws[i] == Next(r, ws[i - 1], e);
      StepKeeps(r, ws[i - 1], e);
    }
  }

  /** `after` has everything `db` has, and nothing more when `db` has everything. */
  ghost predicate Extends(r: Release, db: Database, after: Database) {
    && db.schema <= after.schema && db.recorded.Items <= after.recorded.Items && |after.schema| <= |r.files|
    && (|db.schema| == |r.files| > 0 ==> after == db)
  }

  lemma ExtendsOn(r: Release, a: Database, b: Database, c: Database)
    requires Extends(r, a, b) && Extends(r, b, c)
    ensures Extends(r, a, c)
  {
  }

  /** Nothing that has taken effect is ever undone or repeated, and once everything has, no
      later attempt changes the database. */
  lemma {:induction false} NothingIsUndone(r: Release, ws: seq<World>, i: nat, j: nat)
    requires Increasing(r.files) && Ran(r, ws) && i <= j < |ws|
    ensures ws[i].db.schema <= ws[j].db.schema && ws[i].db.recorded.Items <= ws[j].db.recorded.Items
    ensures |ws[i].db.schema| == |r.files| > 0 ==> ws[j].db == ws[i].db
  {
    OnlyExtends(r, ws, i, j);
    hide Ran, Increasing;
  }

  lemma {:induction false} OnlyExtends(r: Release, ws: seq<World>, i: nat, j: nat)
    requires Increasing(r.files) && Ran(r, ws) && i <= j < |ws|
    ensures Extends(r, ws[i].db, ws[j].db)
    decreases j - i
  {
    hide Ran, Increasing, Extends, Consistent, ProcOk, At;
    if i < j {
      OnlyExtends(r, ws, i, j - 1);
      GrowsInTurn(r, ws, j - 1);
      ExtendsOn(r, ws[i].db, ws[j - 1].db, ws[j].db);
    } else {
      RunsConverge(r, ws, i);
      ExtendsItself(r, ws[i]);
    }
  }

  lemma ExtendsItself(r: Release, w: World)
    requires Consistent(r, w)
    ensures Extends(r, w.db, w.db)
  {
    hide ProcOk;
  }

  lemma GrowsInTurn(r: Release, ws: seq<World>, i: nat)
    requires Increasing(r.files) && Ran(r, ws) && i + 1 < |ws|
    ensures Extends(r, ws[i].db, ws[i + 1].db)
  {
    RunsConverge(r, ws, i);
    assert Step(r, ws[i], ws[i + 1]);
    var e :| Enabled(r, ws[i], e) && ws[i + 1] == Next(r, ws[i], e);
    hide Ran, Increasing, Enabled, Next, Extends;
    StepKeeps(r, ws[i], e);
    GrowthIsForward(r, ws[i].db, ws[i + 1].db);
  }

  lemma GrowthIsForward(r: Release, db: Database, after: Database)
    requires Increasing(r.files) && At(r, db, |db.schema|) && Grows(r, db, after)
    ensures Extends(r, db, after)
  {
    if |db.schema| < |r.files| {
      CheckIsRight(r, db, |db.schema|);
    }
  }

  /** An attempt that reports success has found or made every file recorded, whatever the other
      processes did meanwhile, and no two processes are ever at work at once. */
  lemma SuccessIsComplete(r: Release, ws: seq<World>, i: nat, p: Pid, q: Pid)
    requires Increasing(r.files) && Ran(r, ws) && i < |ws|
    ensures PcOf(ws[i], p) == Ended(true) ==> At(r, ws[i].db, |r.files|)
    ensures Critical(PcOf(ws[i], p)) && Critical(PcOf(ws[i], q)) ==> p == q
  {
    RunsConverge(r, ws, i);
    assert ProcOk(r, ws[i], p) && ProcOk(r, ws[i], q);
  }

  /** A process that is told its unlock succeeded has given the lock back. */
  lemma LockIsGivenBack(r: Release, ws: seq<World>, i: nat, e: Event)
    requires Increasing(r.files) && Ran(r, ws) && i < |ws| && Enabled(r, ws[i], e)
    requires e.Act? && PcOf(ws[i], e.p).Unlocking? && e.reply == Done
    ensures Next(r, ws[i], e).lock.None?
  {
    RunsConverge(r, ws, i);
    assert ProcOk(r, ws[i], e.p);
  }

  // ---- What an undisturbed attempt reaches ----

  ghost predicate Leads(r: Release, w: World, v: World) {
    exists ws :: Path(r, ws) && ws[0] == w && ws[|ws| - 1] == v
  }

  lemma LeadsOn(r: Release, w: World, v: World, e: Event)
    requires Leads(r, w, v) && Enabled(r, v, e)
    ensures Leads(r, w, Next(r, v, e))
  {
    var ws :| Path(r, ws) && ws[0] == w && ws[|ws| - 1] == v;
    var more := ws + [Next(r, v, e)];
    forall i | 0 <= i < |more| - 1 ensures Step(r, more[i], more[i + 1]) {
      if i < |ws| - 1 {
        assert Step(r, ws[i], ws[i + 1]);
      } else {
        assert more[i] == v && more[i + 1] == Next(r, v, e);
      }
    }
    assert Path(r, more) && more[0] == w && more[|more| - 1] == Next(r, v, e);
  }

  /** The process makes its request and is answered. */
  lemma Served(r: Release, w: World, v: World, p: Pid, reply: Reply) returns (u: World)
    requires Increasing(r.files) && Consistent(r, v) && Leads(r, w, v)
    requires Waiting(r.files, PcOf(v, p)) && !reply.Failed? && Answers(r, v, p, OpOf(r.files, PcOf(v, p)), reply)
    ensures u == Effect(r, v, p, OpOf(r.files, PcOf(v, p))).(procs := v.procs[p := Resume(r.files, PcOf(v, p), reply)])
    ensures Consistent(r, u) && Leads(r, w, u)
  {
    var e := Act(p, reply, true);
    LeadsOn(r, w, v, e);
    StepKeeps(r, v, e);
    u := Next(r, v, e);
  }

  /** Every file that is still to come runs on the schema the ones before it make. */
  ghost predicate Runnable(r: Release, from: nat) {
    forall i | from <= i < |r.files| :: r.runs(Names(r.files[..i]), r.files[i].name)
  }

  function Names(ms: seq<Migration>): seq<string> {
    seq(|ms|, i requires 0 <= i < |ms| => ms[i].name)
  }

  lemma SchemaIsNames(r: Release, db: Database, i: nat)
    requires At(r, db, |db.schema|) && i <= |db.schema|
    ensures db.schema[..i] == Names(r.files[..i])
  {
  }

  /** A file that is recorded is passed over. */
  lemma Passed(r: Release, w: World, v: World, p: Pid) returns (u: World)
    requires Increasing(r.files) && Consistent(r, v) && Leads(r, w, v)
    requires PcOf(v, p).Checking? && PcOf(v, p).i < |v.db.schema|
    ensures Consistent(r, u) && Leads(r, w, u) && u.db == v.db && PcOf(u, p) == Check(r.files, PcOf(v, p).i + 1)
  {
    assert ProcOk(r, v, p);
    CheckIsRight(r, v.db, PcOf(v, p).i);
    u := Served(r, w, v, p, Flag(true));
  }

  /** A file that is not recorded is found missing and opened. */
  lemma Opened(r: Release, w: World, v: World, p: Pid) returns (u: World)
    requires Increasing(r.files) && Consistent(r, v) && Leads(r, w, v)
    requires PcOf(v, p).Checking? && PcOf(v, p).i == |v.db.schema|
    ensures Consistent(r, u) && Leads(r, w, u) && u.db == v.db && PcOf(u, p) == Executing(PcOf(v, p).i)
  {
    assert ProcOk(r, v, p);
    CheckIsRight(r, v.db, PcOf(v, p).i);
    u := Served(r, w, v, p, Flag(false));
    u := Served(r, w, u, p, Done);
  }

  /** Then it is run, recorded and committed. */
  lemma Applied(r: Release, w: World, v: World, p: Pid) returns (u: World)
    requires Increasing(r.files) && Consistent(r, v) && Leads(r, w, v)
    requires PcOf(v, p).Executing? && |v.db.schema| < |r.files| && r.runs(v.db.schema, r.files[|v.db.schema|].name)
    ensures Consistent(r, u) && Leads(r, w, u) && u.db == With(v.db, r.files[|v.db.schema|])
    ensures PcOf(u, p) == Check(r.files, |v.db.schema| + 1)
  {
    assert ProcOk(r, v, p);
    CheckIsRight(r, v.db, PcOf(v, p).i);
    u := Served(r, w, v, p, Done);
    assert ProcOk(r, u, p);
    u := Served(r, w, u, p, Done);
    assert ProcOk(r, u, p);
    u := Served(r, w, u, p, Done);
  }

  lemma {:induction false} Finishes(r: Release, w: World, v: World, p: Pid) returns (u: World)
    requires Increasing(r.files) && Consistent(r, v) && Leads(r, w, v)
    requires PcOf(v, p).Checking? && Runnable(r, |v.db.schema|)
    ensures Consistent(r, u) && Leads(r, w, u) && PcOf(u, p) == Ended(true) && u.lock.None?
    decreases |r.files| - PcOf(v, p).i
  {
    hide At, Answers, Effect, Increasing, Leads;
    assert ProcOk(r, v, p);
    var i := PcOf(v, p).i;
    if i < |v.db.schema| {
      u := Passed(r, w, v, p);
    } else {
      SchemaIsNames(r, v.db, i);
      assert v.db.schema[..i] == v.db.schema;
      u := Opened(r, w, v, p);
      u := Applied(r, w, u, p);
    }
    if i + 1 < |r.files| {
      u := Finishes(r, w, u, p);
    } else {
      u := Unlocked(r, w, u, p);
    }
  }

  lemma Unlocked(r: Release, w: World, v: World, p: Pid) returns (u: World)
    requires Increasing(r.files) && Consistent(r, v) && Leads(r, w, v) && PcOf(v, p) == Unlocking(true)
    ensures Consistent(r, u) && Leads(r, w, u) && PcOf(u, p) == Ended(true) && u.lock.None?
  {
    assert ProcOk(r, v, p);
    u := Served(r, w, v, p, Done);
    u := Served(r, w, u, p, Done);
  }

  /** Whatever earlier attempts left behind, the upgrade can still be completed, by one process
      left undisturbed, exactly when every file still to come runs on the schema before it. */
  lemma CanFinish(r: Release, w: World, p: Pid)
    requires Increasing(r.files) && r.files != [] && Consistent(r, w) && w.lock.None?
             && (PcOf(w, p).Idle? || PcOf(w, p).Ended?)
    ensures Runnable(r, |w.db.schema|)
            <==> exists v :: Leads(r, w, v) && At(r, v.db, |r.files|) && PcOf(v, p) == Ended(true) && v.lock.None?
  {
    hide Leads, At, Consistent, Increasing;
    if Runnable(r, |w.db.schema|) {
      var v := Finish(r, w, p);
    }
    if v :| Leads(r, w, v) && At(r, v.db, |r.files|) && PcOf(v, p) == Ended(true) && v.lock.None? {
      AllRan(r, v.db);
    }
  }

  lemma Finish(r: Release, w: World, p: Pid) returns (v: World)
    requires Increasing(r.files) && r.files != [] && Consistent(r, w) && w.lock.None?
             && (PcOf(w, p).Idle? || PcOf(w, p).Ended?)
    requires Runnable(r, |w.db.schema|)
    ensures Leads(r, w, v) && At(r, v.db, |r.files|) && PcOf(v, p) == Ended(true) && v.lock.None?
  {
    v := Next(r, w, Launch(p));
    assert Path(r, [w]) && [w][0] == w;
    LeadsOn(r, w, w, Launch(p));
    StepKeeps(r, w, Launch(p));
    v := Served(r, w, v, p, Done);
    v := Served(r, w, v, p, Done);
    v := Finishes(r, w, v, p);
    assert ProcOk(r, v, p);
  }

  lemma AllRan(r: Release, db: Database)
    requires At(r, db, |r.files|)
    ensures Runnable(r, 0)
  {
    forall i | 0 <= i < |r.files| ensures r.runs(Names(r.files[..i]), r.files[i].name) {
      SchemaIsNames(r, db, i);
    }
  }

  /** One call of Migrate as it runs against whatever the server answers. */
  class Connection {
    const files: seq<Migration>
    var script: seq<Reply>
    ghost var pc: Pc

    constructor (files: seq<Migration>, script: seq<Reply>)
      ensures this.files == files && this.script == script && pc == Locking
    {
      this.files, this.script, pc := files, script, Locking;
    }

    method Ask(op: Op) returns (reply: Reply)
      requires Waiting(files, pc) && op == OpOf(files, pc)
      modifies this
      ensures reply.Failed? || (if op.IsApplied? then reply.Flag? else reply.Done?)
      ensures pc == Resume(files, old(pc), reply)
    {
      reply := Failed;
      if script != [] {
        if (if op.IsApplied? then script[0].Flag? else script[0].Done?) {
          reply := script[0];
        }
        script := script[1..];
      }
      pc := Resume(files, pc, reply);
    }

    method Migrate(entries: seq<Entry>) returns (ok: bool)
      requires pc == Locking && (if Acceptable(entries) then Increasing(files) && Holds(files, entries)
               else files == [])
      modifies this
      ensures pc == Ended(ok)
    {
      var locked := Ask(Lock);
      if locked.Failed? {
        var _ := Ask(Close);
        return false;
      }
      ok := Upgrade(entries);
      var _ := Ask(Unlock);
      var _ := Ask(Close);
    }

    method Upgrade(entries: seq<Entry>) returns (ok: bool)
      requires pc == Creating && (if Acceptable(entries) then Increasing(files) && Holds(files, entries)
               else files == [])
      modifies this
      ensures pc == Unlocking(ok)
    {
      hide Acceptable, Holds, Increasing;
      var created := Ask(CreateTable);
      if created.Failed? {
        return false;
      }
      var listed := List(entries);
      if listed.Err? {
        return false;
      }
      var ordered := listed.value;
      SameList(entries, ordered, files);
      for i := 0 to |ordered|
        invariant pc == Check(files, i)
      {
        var applied := Ask(IsApplied(ordered[i].version));
        if applied.Failed? {
          return false;
        }
        if applied.on {
          continue;
        }
        var done := ApplyMigration(i);
        if !done {
          return false;
        }
      }
      return true;
    }

    /** Runs and records one file in one transaction. */
    method ApplyMigration(i: nat) returns (done: bool)
      requires i < |files| && pc == Opening(i)
      modifies this
      ensures pc == if done then Check(files, i + 1) else Unlocking(false)
    {
      var begun := Ask(Begin);
      if begun.Failed? {
        return false;
      }
      var ran := Ask(Run(files[i].name));
      if ran.Done? {
        var inserted := Ask(Insert(files[i].version, files[i].name));
        if inserted.Done? {
          var committed := Ask(Commit);
          if committed.Done? {
            return true;
          }
        }
      }
      var _ := Ask(Rollback);
      return false;
    }
  }

  lemma SameList(entries: seq<Entry>, a: seq<Migration>, b: seq<Migration>)
    requires Acceptable(entries) && Increasing(a) && Holds(a, entries) && Increasing(b) && Holds(b, entries)
    ensures a == b && a != []
  {
    OrderDoesNotMatter(entries, entries, a, b);
    var e :| e in entries && IsSql(e);
    assert Parse(e.name).value in a;
  }
}
