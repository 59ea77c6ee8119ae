/** Names: only valid, normalised names are ever registered, so an account is reached by every
    spelling of its name and by nothing else. */
module Registration {
  import opened Wrappers
  import opened Tables
  import opened Program
  import opened World
  import opened Invariants
  import opened Text
  import opened Provenance

  /** The program's configuration with the text rules filled in: `lower` maps a letter to its
      lower case, and `otp` is the OTP library's check. */
  function WithRules(cfg: Config, lower: char -> char, minimum: nat, maximum: nat, digits: nat,
    otp: (string, string, Time) -> Verdict): Config {
    cfg.(normalize := username => Normalize(lower, username),
         validUsername := username => ValidUsername(username, minimum, maximum),
         blank := Blank,
         checkCode := (secret, code, now) => if CodeShape(TrimSpace(code), digits)
           then otp(secret, TrimSpace(code), now) else NoMatch)
  }

  /** A code is put to the OTP library, without the space around it, exactly when it has the right
      number of characters and all of them are decimal digits; any other is simply wrong. */
  lemma CodesHaveDigits(
      cfg: Config, lower: char -> char, minimum: nat, maximum: nat, digits: nat,
      otp: (string, string, Time) -> Verdict, secret: string, code: string, now: Time)
    ensures WithRules(cfg, lower, minimum, maximum, digits, otp).checkCode(secret, code, now)
            == if |TrimSpace(code)| == digits && forall c | c in TrimSpace(code) :: c in "0123456789"
               then otp(secret, TrimSpace(code), now) else NoMatch
  {
    ShapeIsDigits(TrimSpace(code), digits);
    hide CodeShape, TrimSpace;
  }

  lemma ShapeIsDigits(code: string, digits: nat)
    ensures CodeShape(code, digits) <==> |code| == digits && forall c | c in code :: c in "0123456789"
  {
    forall c: char ensures c in "0123456789" <==> '0' <= c <= '9' {
      DecimalDigits(c);
    }
    if forall c | c in code :: c in "0123456789" {
      assert forall i | 0 <= i < |code| :: code[i] in code && code[i] in "0123456789";
    } else {
      var c :| c in code && c !in "0123456789";
      var i :| 0 <= i < |code| && code[i] == c;
      assert !CodeShape(code, digits);
    }
  }

  lemma DecimalDigits(c: char)
    ensures c in "0123456789" <==> '0' <= c <= '9'
  {
    if '0' <= c <= '9' {
      var k := c as int - 48;
      assert "0123456789"[k] == c;
    }
  }

  /** What a registration under way has already checked. */
  predicate Checked(cfg: Config, pc: Pc) {
    pc.Registering? ==>
      match pc.r
      case RegForm => true
      case RegFind(name, _) => cfg.validUsername(name)
      case RegHash(name, _) => cfg.validUsername(name)
      case RegId(name, _) => cfg.validUsername(name)
      case RegCreate(row) => cfg.validUsername(row.username)
  }

  lemma RegisterKeepsChecked(cfg: Config, p: Proc, r: RegisterPc, reply: Reply)
    requires Checked(cfg, Registering(r))
    ensures Checked(cfg, ResumeRegister(cfg, p, r, reply).pc)
  {
  }

  lemma LoginsDoNotRegister(cfg: Config, p: Proc, reply: Reply)
    ensures forall l :: !ResumeLogin(cfg, p, l, reply).pc.Registering? || p.pc.Registering?
    ensures forall ch, c :: !ResumeCode(cfg, p, ch, c, reply).pc.Registering? || p.pc.Registering?
    ensures forall u, ch, f :: !ResumeFinish(p, u, ch, f, reply).pc.Registering? || p.pc.Registering?
  {
  }

  lemma SessionsDoNotRegister(cfg: Config, p: Proc, reply: Reply)
    ensures forall raw, why, v :: !ResumeValidate(p, raw, why, v, reply).pc.Registering? || p.pc.Registering?
    ensures forall raw, s :: !ResumeSetup(cfg, p, raw, s, reply).pc.Registering? || p.pc.Registering?
    ensures forall d :: !ResumeDisable(cfg, p, d, reply).pc.Registering? || p.pc.Registering?
    ensures forall raw, o :: !ResumeLogout(p, raw, o, reply).pc.Registering? || p.pc.Registering?
  {
  }

  lemma ShellsStartRegistering(cfg: Config, p: Proc, reply: Reply)
    ensures Checked(cfg, ResumeShell(p, reply).pc)
  {
  }

  lemma StepKeepsChecked(cfg: Config, p: Proc, reply: Reply)
    requires p.pc != Exited && Checked(cfg, p.pc)
    ensures Checked(cfg, Resume(cfg, p, reply).pc)
  {
    hide ResumeShell, ResumeRegister, ResumeLogin, ResumeCode, ResumeFinish, ResumeValidate, ResumeSetup;
    hide ResumeDisable, ResumeLogout;
    if p.pc.Registering? {
      RegisterKeepsChecked(cfg, p, p.pc.r, reply);
    } else {
      LoginsDoNotRegister(cfg, p, reply);
      SessionsDoNotRegister(cfg, p, reply);
      ShellsStartRegistering(cfg, p, reply);
    }
  }

  ghost predicate NamesValid(cfg: Config, w: World) {
    && (forall u | u in w.tables.users :: cfg.validUsername(w.tables.users[u].username))
    && (forall p | p in w.procs :: Checked(cfg, w.procs[p].pc))
  }

  lemma OnlyRegistrationInserts(cfg: Config, pc: Pc)
    requires pc != Exited && OpOf(cfg, pc).InsertUser?
    ensures pc == Registering(RegCreate(OpOf(cfg, pc).user))
  {
  }

  lemma ServedKeepsNames(cfg: Config, w: World, e: Event)
    requires NamesValid(cfg, w) && Enabled(cfg, w, e)
    ensures forall u | u in UsersAfter(w, e) :: cfg.validUsername(UsersAfter(w, e)[u].username)
  {
    hide Answers, OpOf;
    if e.Act? && e.op.InsertUser? {
      OnlyRegistrationInserts(cfg, e.pc);
      assert Checked(cfg, w.procs[e.p].pc);
    }
  }

  lemma StepKeepsNames(cfg: Config, w: World, e: Event)
    requires NamesValid(cfg, w) && Enabled(cfg, w, e)
    ensures NamesValid(cfg, Next(cfg, w, e))
  {
    hide Answers, Resume, Effect, OpOf, Checked, UsersAfter;
    NextUsers(cfg, w, e);
    ServedKeepsNames(cfg, w, e);
    if e.Act? {
      StepKeepsChecked(cfg, w.procs[e.p], e.reply);
    }
  }

  lemma {:induction false} NamesAreValid(cfg: Config, pids: set<Pid>, es: seq<Event>)
    requires Ran(cfg, pids, es)
    ensures NamesValid(cfg, After(cfg, pids, es))
    decreases |es|
  {
    hide Enabled, Next;
    if es != [] {
      NamesAreValid(cfg, pids, Before(es));
      StepKeepsNames(cfg, After(cfg, pids, Before(es)), Last(es));
    }
  }

  /** In every run, what is typed at the login prompt reaches an account exactly when it is a
      spelling of the account's name: the name itself up to surrounding space and letter case. */
  lemma SpellingsReachTheAccount(
      base: Config, lower: char -> char, minimum: nat, maximum: nat, digits: nat,
        otp: (string, string, Time) -> Verdict,
      cfg: Config, pids: set<Pid>, es: seq<Event>, u: string, typed: string)
    requires cfg == WithRules(base, lower, minimum, maximum, digits, otp)
    requires cfg.Lawful() && Ran(cfg, pids, es) && u in After(cfg, pids, es).tables.users
    requires forall c | Alphanumeric(c) || c in "._-" :: lower(c) == c
    ensures var users := After(cfg, pids, es).tables.users;
            && cfg.normalize(users[u].username) == users[u].username
            && (ByName(users, cfg.normalize(typed)) == Some(users[u]) <==> cfg.normalize(typed) == users[u].username)
  {
    hide Replay, Normalize, ValidUsername;
    NamesAreValid(cfg, pids, es);
    RunsAreConsistent(cfg, pids, es);
    var t := After(cfg, pids, es).tables;
    ValidUsernamesAreNormal(lower, t.users[u].username, minimum, maximum);
    ByNameIsTheRow(t, u);
  }

  // ---- Where an account comes from ----

  /** One event keeps the name and the password hash of every user there was; a new user is the one
      inserted. */
  lemma IdentityStays(cfg: Config, w: World, e: Event, u: string)
    requires Enabled(cfg, w, e) && u in Next(cfg, w, e).tables.users
    ensures var row := Next(cfg, w, e).tables.users[u];
            if u in w.tables.users
            then row.username == w.tables.users[u].username && row.passwordHash == w.tables.users[u].passwordHash
            else e.Act? && e.took && e.op == InsertUser(row) && row.id == u
  {
    hide Answers, Resume, Effect, OpOf;
    NextUsers(cfg, w, e);
    if Commits(w, e) {
      CommitOnUsers(w.tables, e.op.u, e.op.at, e.op.row);
    }
  }

  /** Every user was inserted by some event, under the name and with the password hash still there. */
  lemma {:induction false} InsertedOnce(cfg: Config, pids: set<Pid>, es: seq<Event>, u: string) returns (n: nat)
    requires Ran(cfg, pids, es) && u in After(cfg, pids, es).tables.users
    ensures n < |es| && es[n].Act? && es[n].took && es[n].op.InsertUser? && es[n].op.user.id == u
    ensures var row := After(cfg, pids, es).tables.users[u];
            row.username == es[n].op.user.username && row.passwordHash == es[n].op.user.passwordHash
    decreases |es|
  {
    hide Enabled, Next;
    var w := After(cfg, pids, Before(es));
    IdentityStays(cfg, w, Last(es), u);
    if u in w.tables.users {
      n := InsertedOnce(cfg, pids, Before(es), u);
    } else {
      n := |es| - 1;
    }
  }

  lemma BackFromRegistering(cfg: Config, q: Proc, reply: Reply)
    requires q.pc != Exited && Resume(cfg, q, reply).pc.Registering? && !Resume(cfg, q, reply).pc.r.RegForm?
    ensures q.pc.Registering? && Resume(cfg, q, reply) == ResumeRegister(cfg, q, q.pc.r, reply)
  {
    LoginsDoNotRegister(cfg, q, reply);
    SessionsDoNotRegister(cfg, q, reply);
    ShellOnlyStartsRegistering(q, reply);
    hide ResumeShell, ResumeRegister, ResumeValidate, ResumeLogout, ResumeSetup, ResumeDisable;
    hide ResumeLogin, ResumeCode, ResumeFinish;
  }

  lemma ShellOnlyStartsRegistering(q: Proc, reply: Reply)
    ensures var pc := ResumeShell(q, reply).pc; pc.Registering? ==> pc.r.RegForm?
  {
  }

  /** A form was filled in at `i`, its name was found free at `j`, its password was hashed at `h` and
      an identifier was drawn at `k`: `row` is made of exactly these. */
  ghost predicate RegistrationTrail(
      cfg: Config, es: seq<Event>, i: nat, j: nat, h: nat, k: nat, p: Pid, row: UserRow) {
    && i < j < h < k < |es|
    && es[i].Act? && es[i].p == p && es[i].pc == Registering(RegForm) && es[i].reply.Lines?
    && es[i].reply.second == es[i].reply.third
    && cfg.validPassword(es[i].reply.second) && cfg.validUsername(row.username)
    && row.username == cfg.normalize(es[i].reply.first)
    && es[j].Act? && es[j].p == p && es[j].op == FindByName(row.username) && es[j].reply == NoRow
    && es[h].Act? && es[h].p == p && es[h].op == HashPassword(es[i].reply.second)
    && es[h].reply == Fresh(row.passwordHash)
    && es[k].Act? && es[k].p == p && es[k].op == NewId && es[k].reply == Fresh(row.id)
    && !row.totpEnabled && row.secret == None && row.lastLogin == None
  }

  lemma OpsOf(cfg: Config, pids: set<Pid>, es: seq<Event>, n: nat)
    requires Ran(cfg, pids, es) && n < |es| && es[n].Act?
    ensures es[n].pc != Exited && es[n].op == OpOf(cfg, es[n].pc) && es[n].p in pids
  {
    hide Replay, Resume, Effect, Answers, OpOf;
    PrefixRan(cfg, pids, es, n);
    ProcessesStay(cfg, pids, es[..n]);
  }

  lemma BackToId(cfg: Config, q: Proc, reply: Reply, row: UserRow)
    requires q.pc != Exited && Resume(cfg, q, reply).pc == Registering(RegCreate(row))
    ensures q.pc == Registering(RegId(row.username, row.passwordHash)) && reply == Fresh(row.id)
    ensures !row.totpEnabled && row.secret == None && row.lastLogin == None
  {
    BackFromRegistering(cfg, q, reply);
    hide Resume;
  }

  lemma BackToHash(cfg: Config, q: Proc, reply: Reply, name: string, hash: string)
    requires q.pc != Exited && Resume(cfg, q, reply).pc == Registering(RegId(name, hash))
    ensures q.pc.Registering? && q.pc.r.RegHash? && q.pc.r.name == name && reply == Fresh(hash)
  {
    BackFromRegistering(cfg, q, reply);
    hide Resume;
  }

  lemma BackToFree(cfg: Config, q: Proc, reply: Reply, name: string, password: string)
    requires q.pc != Exited && Resume(cfg, q, reply).pc == Registering(RegHash(name, password))
    ensures q.pc == Registering(RegFind(name, password)) && reply == NoRow
  {
    BackFromRegistering(cfg, q, reply);
    hide Resume;
  }

  lemma BackToRegisterForm(cfg: Config, q: Proc, reply: Reply, name: string, password: string)
    requires q.pc != Exited && Resume(cfg, q, reply).pc == Registering(RegFind(name, password))
    ensures q.pc == Registering(RegForm) && reply.Lines? && reply.second == password == reply.third
    ensures name == cfg.normalize(reply.first) && cfg.validUsername(name) && cfg.validPassword(password)
  {
    BackFromRegistering(cfg, q, reply);
    hide Resume;
  }

  /** Every request to insert a user comes from such a form. */
  lemma InsertionWasTyped(cfg: Config, pids: set<Pid>, es: seq<Event>, n: nat)
    returns (i: nat, j: nat, h: nat, k: nat)
    requires Ran(cfg, pids, es) && n < |es| && es[n].Act? && es[n].op.InsertUser?
    ensures k < n && RegistrationTrail(cfg, es, i, j, h, k, es[n].p, es[n].op.user)
  {
    hide Replay, Resume, Enabled, OpOf;
    OpsOf(cfg, pids, es, n);
    OnlyRegistrationInserts(cfg, es[n].pc);
    AtItsPc(cfg, pids, es, n);
    var p, row := es[n].p, es[n].op.user;
    var q, password;
    k, q := Came(cfg, pids, es[..n], p);
    BackToId(cfg, q, es[..n][k].reply, row);
    assert es[..n][..k] == es[..k];
    h, q := Came(cfg, pids, es[..k], p);
    BackToHash(cfg, q, es[..k][h].reply, row.username, row.passwordHash);
    password := q.pc.r.password;
    assert es[..k][..h] == es[..h];
    j, q := Came(cfg, pids, es[..h], p);
    BackToFree(cfg, q, es[..h][j].reply, row.username, password);
    assert es[..h][..j] == es[..j];
    i, q := Came(cfg, pids, es[..j], p);
    BackToRegisterForm(cfg, q, es[..j][i].reply, row.username, password);
    OpsOf(cfg, pids, es, k);
    OpsOf(cfg, pids, es, h);
    OpsOf(cfg, pids, es, j);
    RegisteringAsks(cfg, es[k].pc, es[h].pc, es[j].pc);
  }

  lemma RegisteringAsks(cfg: Config, k: Pc, h: Pc, j: Pc)
    ensures k.Registering? && k.r.RegId? ==> OpOf(cfg, k) == NewId
    ensures h.Registering? && h.r.RegHash? ==> OpOf(cfg, h) == HashPassword(h.r.password)
    ensures j.Registering? && j.r.RegFind? ==> OpOf(cfg, j) == FindByName(j.r.name)
  {
  }

  /** Every account goes back to a registration form: its name is the normal form of the name typed,
      its hash is the answer to hashing the password typed, and neither has changed since. */
  lemma AccountsAreAsRegistered(cfg: Config, pids: set<Pid>, es: seq<Event>, u: string)
    returns (n: nat, i: nat, j: nat, h: nat, k: nat)
    requires Ran(cfg, pids, es) && u in After(cfg, pids, es).tables.users
    ensures n < |es| && es[n].Act? && es[n].took && es[n].op.InsertUser? && es[n].op.user.id == u
    ensures k < n && RegistrationTrail(cfg, es, i, j, h, k, es[n].p, es[n].op.user)
    ensures var row := After(cfg, pids, es).tables.users[u];
            row.username == es[n].op.user.username && row.passwordHash == es[n].op.user.passwordHash
  {
    hide Replay, RegistrationTrail;
    n := InsertedOnce(cfg, pids, es, u);
    i, j, h, k := InsertionWasTyped(cfg, pids, es, n);
  }
}
