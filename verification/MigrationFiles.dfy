/** Choosing and ordering the embedded migration files. */
module MigrationFiles {
  import opened Wrappers

  datatype Entry = Entry(name: string, isDir: bool)

  datatype Migration = Migration(version: int, name: string)

  datatype ListError =
    | NoUnderscore(name: string)
    | BadVersion(name: string)
    | Duplicate(first: string, second: string, version: int)
    | NoMigrations

  const MAX_INT := 0x7fff_ffff_ffff_ffff

  predicate Digits(s: string) {
    forall i | 0 <= i < |s| :: '0' <= s[i] <= '9'
  }

  function Digit(c: char): nat
    requires '0' <= c <= '9'
  {
    c as int - 48
  }

  function Value(digits: string): (n: nat)
    requires Digits(digits)
  {
    if digits == "" then 0
    else 10 * Value(digits[..|digits| - 1]) + Digit(digits[|digits| - 1])
  }

  /** strconv.Atoi on a 64-bit machine: an optional sign, decimal digits, and a range check. */
  function Atoi(s: string): Option<int> {
    var digits := if s != "" && s[0] in "+-" then s[1..] else s;
    if digits == "" || !Digits(digits) then None
    else if s[0] == '-' then (if Value(digits) <= MAX_INT + 1 then Some(0 - Value(digits)) else None)
    else (if Value(digits) <= MAX_INT then Some(Value(digits)) else None)
  }

  /** Leading zeros do not make a different version, so 1_ and 001_ are the same one. */
  lemma {:induction false} LeadingZero(digits: string)
    requires digits != "" && Digits(digits)
    ensures Atoi("0" + digits) == Atoi(digits)
  {
    assert ("0" + digits)[1..] == digits;
    ValueOfLeadingZero(digits);
  }

  lemma {:induction false} ValueOfLeadingZero(digits: string)
    requires Digits(digits)
    ensures Digits("0" + digits) && Value("0" + digits) == Value(digits)
  {
    var all := "0" + digits;
    assert forall i | 0 < i < |all| :: all[i] == digits[i - 1];
    if digits != "" {
      assert all[..|all| - 1] == "0" + digits[..|digits| - 1];
      ValueOfLeadingZero(digits[..|digits| - 1]);
    } else {
      assert all[..0] == "";
      assert Value("") == 0;
    }
  }

  // ---- What these numbers mean ----

  function Pow10(n: nat): nat {
    if n == 0 then 1 else 10 * Pow10(n - 1)
  }

  /** The number a string of digits writes: each digit times the power of ten of its place. */
  function PlaceValue(digits: string): nat
    requires Digits(digits)
  {
    if digits == "" then 0 else Digit(digits[0]) * Pow10(|digits| - 1) + PlaceValue(digits[1..])
  }

  lemma {:induction false} ValueIsPlaceValue(digits: string)
    requires Digits(digits)
    ensures Value(digits) == PlaceValue(digits)
    decreases |digits|
  {
    if |digits| == 1 {
      assert digits[..0] == "" && digits[1..] == "";
      assert Value("") == 0 && PlaceValue("") == 0 && Pow10(0) == 1;
    } else if |digits| > 1 {
      var n := |digits| - 1;
      var init, tail := digits[..n], digits[1..];
      ValueIsPlaceValue(init);
      ValueIsPlaceValue(tail);
      ValueIsPlaceValue(tail[..n - 1]);
      assert init[1..] == tail[..n - 1] && tail[n - 1] == digits[n];
      Shift(Digit(digits[0]), Pow10(n - 1), Value(tail[..n - 1]), Digit(digits[n]));
    }
  }

  lemma Shift(d: nat, p: nat, v: nat, last: nat)
    ensures 10 * (d * p + v) + last == d * (10 * p) + (10 * v + last)
  {
  }

  /** A number is read if and only if it is decimal digits, perhaps with a sign, and in range; and
      then it is the number they write. */
  lemma AtoiExactly(s: string, v: int)
    ensures Atoi(s) == Some(v) <==> exists digits: string :: Writes(s, digits, v)
  {
    var digits := if s != "" && s[0] in "+-" then s[1..] else s;
    if Atoi(s) == Some(v) {
      ValueIsPlaceValue(digits);
      assert s == digits || s == [s[0]] + digits;
      assert Writes(s, digits, v);
    }
    if d: string :| Writes(s, d, v) {
      ValueIsPlaceValue(d);
      assert d[0] != '+' && d[0] != '-';
      assert s != d ==> s[1..] == d;
      assert digits == d;
    }
  }

  ghost predicate Writes(s: string, digits: string, v: int) {
    && digits != "" && Digits(digits)
    && (((s == digits || s == "+" + digits) && v == PlaceValue(digits) <= MAX_INT)
        || (s == "-" + digits && v == 0 - PlaceValue(digits) && PlaceValue(digits) <= MAX_INT + 1))
  }

  /** A number written in decimal, without leading zeros. */
  function Decimal(n: nat): string {
    if n < 10 then ["0123456789"[n]] else Decimal(n / 10) + ["0123456789"[n % 10]]
  }

  lemma DigitOf(d: nat)
    requires d < 10
    ensures '0' <= "0123456789"[d] <= '9' && Digit("0123456789"[d]) == d
  {
  }

  lemma {:induction false} DecimalValue(n: nat)
    ensures Decimal(n) != "" && Digits(Decimal(n)) && Value(Decimal(n)) == n
  {
    var s := Decimal(n);
    DigitOf(n % 10);
    if n < 10 {
      assert s[..0] == "" && Value("") == 0;
    } else {
      DecimalValue(n / 10);
      assert s[..|s| - 1] == Decimal(n / 10);
    }
  }

  /** Where the first underscore is, or the length when there is none. */
  function Underscore(name: string): (i: nat)
    ensures i <= |name| && (i < |name| ==> name[i] == '_') && forall j | 0 <= j < i :: name[j] != '_'
  {
    if name == "" || name[0] == '_' then 0 else 1 + Underscore(name[1..])
  }

  predicate IsSql(entry: Entry) {
    !entry.isDir && |entry.name| >= 4 && entry.name[|entry.name| - 4..] == ".sql"
  }

  function Parse(name: string): (r: Result<Migration, ListError>)
    ensures r.Ok? ==> r.value.name == name && r.value.version > 0
    ensures r.Err? ==> r.error == NoUnderscore(name) || r.error == BadVersion(name)
  {
    if Underscore(name) == |name| then Err(NoUnderscore(name))
    else
      match Atoi(name[..Underscore(name)])
      case Some(version) => if version > 0 then Ok(Migration(version, name)) else Err(BadVersion(name))
      case None => Err(BadVersion(name))
  }

  /** What a directory must be like to be usable: something to run, every file named after a
      positive version, and no version twice. */
  ghost predicate Acceptable(entries: seq<Entry>) {
    Unambiguous(entries) && exists e | e in entries :: IsSql(e)
  }

  ghost predicate Unambiguous(entries: seq<Entry>) {
    && (forall e | e in entries && IsSql(e) :: Parse(e.name).Ok? && multiset(entries)[e] == 1)
    && (forall e, f | e in entries && f in entries && IsSql(e) && IsSql(f) && e != f ::
          Parse(e.name).value.version != Parse(f.name).value.version)
  }

  ghost predicate Increasing(ms: seq<Migration>) {
    forall i, j | 0 <= i < j < |ms| :: ms[i].version < ms[j].version
  }

  /** `ms` holds exactly the migrations of the directory. */
  ghost predicate Holds(ms: seq<Migration>, entries: seq<Entry>) {
    && (forall e | e in entries && IsSql(e) && Parse(e.name).Ok? :: Parse(e.name).value in ms)
    && (forall m | m in ms :: exists e | e in entries :: IsSql(e) && Parse(e.name) == Ok(m))
  }

  function Insert(m: Migration, ms: seq<Migration>): seq<Migration> {
    if ms == [] || m.version < ms[0].version then [m] + ms else [ms[0]] + Insert(m, ms[1..])
  }

  /** What sort.Slice makes of migrations with different versions. */
  function Sort(ms: seq<Migration>): seq<Migration> {
    if ms == [] then [] else Insert(ms[|ms| - 1], Sort(ms[..|ms| - 1]))
  }

  lemma {:induction false} InsertHolds(m: Migration, ms: seq<Migration>)
    ensures forall x :: x in Insert(m, ms) <==> x == m || x in ms
  {
    if ms != [] && ms[0].version <= m.version {
      assert ms == [ms[0]] + ms[1..];
      InsertHolds(m, ms[1..]);
    }
  }

  lemma InFront(m: Migration, ms: seq<Migration>)
    requires Increasing(ms) && forall x | x in ms :: m.version < x.version
    ensures Increasing([m] + ms)
  {
    assert forall j | 0 < j <= |ms| :: ([m] + ms)[j] == ms[j - 1] && ms[j - 1] in ms;
  }

  lemma {:induction false} InsertSorts(m: Migration, ms: seq<Migration>)
    requires Increasing(ms) && forall x | x in ms :: x.version != m.version
    ensures Increasing(Insert(m, ms))
  {
    if ms == [] {
      InFront(m, ms);
    } else if m.version < ms[0].version {
      assert forall x | x in ms :: ms[0].version <= x.version;
      InFront(m, ms);
    } else {
      var rest := ms[1..];
      assert forall x | x in rest :: x in ms && ms[0].version < x.version;
      InsertHolds(m, rest);
      InsertSorts(m, rest);
      InFront(ms[0], Insert(m, rest));
    }
  }

  ghost predicate Distinct(ms: seq<Migration>) {
    forall i, j | 0 <= i < j < |ms| :: ms[i].version != ms[j].version
  }

  lemma {:induction false} SortSorts(ms: seq<Migration>)
    requires Distinct(ms)
    ensures Increasing(Sort(ms))
    ensures forall x :: x in Sort(ms) <==> x in ms
  {
    if ms != [] {
      var n := |ms| - 1;
      assert ms == ms[..n] + [ms[n]];
      SortSorts(ms[..n]);
      InsertHolds(ms[n], Sort(ms[..n]));
      InsertSorts(ms[n], Sort(ms[..n]));
    }
  }

  /** The migrations of a directory, in its own order. */
  ghost predicate Collected(ms: seq<Migration>, seen: map<int, string>, entries: seq<Entry>) {
    && Holds(ms, entries) && Distinct(ms)
    && (forall m | m in ms :: m.version in seen && seen[m.version] == m.name)
    && (forall v | v in seen :: Migration(v, seen[v]) in ms)
  }

  lemma Skip(ms: seq<Migration>, seen: map<int, string>, entries: seq<Entry>, entry: Entry)
    requires Unambiguous(entries) && Collected(ms, seen, entries) && !IsSql(entry)
    ensures Unambiguous(entries + [entry]) && Collected(ms, seen, entries + [entry])
  {
    var all := entries + [entry];
    assert forall e | e in all && IsSql(e) :: e in entries && multiset(all)[e] == multiset(entries)[e];
    forall m | m in ms ensures exists e | e in all :: IsSql(e) && Parse(e.name) == Ok(m) {
      var e :| e in entries && IsSql(e) && Parse(e.name) == Ok(m);
      assert e in all;
    }
  }

  lemma Collect(ms: seq<Migration>, seen: map<int, string>, entries: seq<Entry>, entry: Entry, m: Migration)
    requires Unambiguous(entries) && Collected(ms, seen, entries)
    requires IsSql(entry) && Parse(entry.name) == Ok(m) && m.version !in seen
    ensures Unambiguous(entries + [entry]) && Collected(ms + [m], seen[m.version := m.name], entries + [entry])
  {
    hide IsSql, Parse;
    assert forall e | e in entries && IsSql(e) :: Parse(e.name).value in ms;
    StaysUnambiguous(entries, entry, m);
    var all := entries + [entry];
    forall x | x in ms + [m] ensures exists e | e in all :: IsSql(e) && Parse(e.name) == Ok(x) {
      if x in ms {
        var e :| e in entries && IsSql(e) && Parse(e.name) == Ok(x);
        assert e in all;
      } else {
        assert entry in all;
      }
    }
  }

  lemma StaysUnambiguous(entries: seq<Entry>, entry: Entry, m: Migration)
    requires Unambiguous(entries) && IsSql(entry) && Parse(entry.name) == Ok(m)
    requires forall e | e in entries && IsSql(e) :: Parse(e.name).value.version != m.version
    ensures Unambiguous(entries + [entry])
  {
    hide IsSql, Parse;
    var all := entries + [entry];
    assert entry !in entries;
    assert multiset(all) == multiset(entries) + multiset{entry};
    forall e | e in all && IsSql(e) ensures multiset(all)[e] == 1 {
      assert e != entry ==> e in entries;
    }
  }

  lemma BadName(entries: seq<Entry>, k: nat)
    requires k < |entries| && IsSql(entries[k]) && Parse(entries[k].name).Err?
    ensures !Unambiguous(entries) && Blames(entries, Parse(entries[k].name).error)
  {
    assert entries[k] in entries;
  }

  lemma Rejects(ms: seq<Migration>, seen: map<int, string>, entries: seq<Entry>, k: nat, m: Migration)
    requires k < |entries| && Collected(ms, seen, entries[..k]) && m.version in seen
    requires IsSql(entries[k]) && Parse(entries[k].name) == Ok(m)
    ensures !Unambiguous(entries) && Blames(entries, Duplicate(seen[m.version], m.name, m.version))
  {
    var first := Migration(m.version, seen[m.version]);
    var e :| e in entries[..k] && IsSql(e) && Parse(e.name) == Ok(first);
    var i :| 0 <= i < k && entries[i] == e;
    assert entries[i] in entries && entries[k] in entries;
    if entries[i] == entries[k] {
      TwiceIsTwice(entries, i, k);
    }
  }

  lemma Finished(ms: seq<Migration>, seen: map<int, string>, entries: seq<Entry>)
    requires Unambiguous(entries) && Collected(ms, seen, entries)
    ensures if ms == [] then !Acceptable(entries) && Blames(entries, NoMigrations)
            else Acceptable(entries) && Increasing(Sort(ms)) && Holds(Sort(ms), entries)
  {
    hide Parse, IsSql;
    SortSorts(ms);
    if ms != [] {
      assert ms[0] in ms;
    }
  }

  /** A file name begins with the number `n` in decimal and an underscore. */
  ghost predicate Numbered(name: string, n: nat) {
    exists rest: string :: name == Decimal(n) + "_" + rest
  }

  predicate Precedes(ms: seq<Migration>, first: string, second: string) {
    exists i, j :: 0 <= i < j < |ms| && ms[i].name == first && ms[j].name == second
  }

  /** Files numbered in decimal come in the order of their numbers. */
  ghost predicate InNumericOrder(ms: seq<Migration>, entries: seq<Entry>) {
    forall e, f, a: nat, b: nat |
      e in entries && f in entries && IsSql(e) && IsSql(f) && Numbered(e.name, a) && Numbered(f.name, b) && a < b ::
      Precedes(ms, e.name, f.name)
  }

  lemma {:induction false} UnderscoreAfter(prefix: string, rest: string)
    requires forall c | c in prefix :: c != '_'
    ensures Underscore(prefix + "_" + rest) == |prefix|
  {
    var name := prefix + "_" + rest;
    var i := Underscore(name);
    assert name[|prefix|] == '_';
    assert forall j | 0 <= j < |prefix| :: name[j] == prefix[j] && prefix[j] in prefix;
    UnderscoreIsFirst(name, |prefix|);
  }

  lemma {:induction false} UnderscoreIsFirst(name: string, k: nat)
    requires k < |name| && name[k] == '_'
    ensures Underscore(name) <= k
  {
    if k > 0 && name[0] != '_' {
      UnderscoreIsFirst(name[1..], k - 1);
    }
  }

  /** A file numbered in decimal is acceptable if and only if its number is positive and in range,
      and that number is its version. */
  lemma NumberIsVersion(name: string, n: nat)
    requires Numbered(name, n)
    ensures if 0 < n <= MAX_INT then Parse(name) == Ok(Migration(n, name)) else Parse(name).Err?
  {
    var rest: string :| name == Decimal(n) + "_" + rest;
    DecimalValue(n);
    UnderscoreAfter(Decimal(n), rest);
    assert name[..|Decimal(n)|] == Decimal(n);
    DecimalAtoi(n);
    hide Atoi, Decimal, Underscore;
  }

  /** What is written in decimal is read back, when it is in range. */
  lemma DecimalAtoi(n: nat)
    ensures Atoi(Decimal(n)) == if n <= MAX_INT then Some(n) else None
  {
    DecimalValue(n);
    assert Decimal(n)[0] != '+' && Decimal(n)[0] != '-';
  }

  lemma OrderIsNumeric(ms: seq<Migration>, entries: seq<Entry>)
    requires Unambiguous(entries) && Increasing(ms) && Holds(ms, entries)
    ensures InNumericOrder(ms, entries)
  {
    hide IsSql, Parse, Numbered;
    forall e, f, a: nat, b: nat |
      e in entries && f in entries && IsSql(e) && IsSql(f) && Numbered(e.name, a) && Numbered(f.name, b) && a < b
      ensures Precedes(ms, e.name, f.name)
    {
      NumberIsVersion(e.name, a);
      NumberIsVersion(f.name, b);
      var i :| 0 <= i < |ms| && ms[i] == Parse(e.name).value;
      var j :| 0 <= j < |ms| && ms[j] == Parse(f.name).value;
      assert i < j;
    }
  }

  /** Reads the directory in whatever order it comes. */
  method List(entries: seq<Entry>) returns (r: Result<seq<Migration>, ListError>)
    ensures r.Ok? <==> Acceptable(entries)
    ensures r.Ok? ==> Increasing(r.value) && Holds(r.value, entries) && InNumericOrder(r.value, entries)
    ensures r.Err? ==> Blames(entries, r.error)
  {
    hide IsSql, Parse, Blames, Increasing;
    var seen: map<int, string> := map[];
    var ordered: seq<Migration> := [];
    assert Unambiguous([]) && Collected(ordered, seen, []);
    hide Unambiguous, Collected, Holds;
    for k := 0 to |entries|
      invariant Unambiguous(entries[..k]) && Collected(ordered, seen, entries[..k])
    {
      var entry := entries[k];
      assert entries[..k + 1] == entries[..k] + [entry];
      if !IsSql(entry) {
        Skip(ordered, seen, entries[..k], entry);
        continue;
      }
      var parsed := Parse(entry.name);
      if parsed.Err? {
        BadName(entries, k);
        return Err(parsed.error);
      }
      var m := parsed.value;
      if m.version in seen {
        Rejects(ordered, seen, entries, k, m);
        return Err(Duplicate(seen[m.version], entry.name, m.version));
      }
      Collect(ordered, seen, entries[..k], entry, m);
      seen := seen[m.version := m.name];
      ordered := ordered + [m];
    }
    assert entries[..|entries|] == entries;
    Finished(ordered, seen, entries);
    if ordered != [] {
      OrderIsNumeric(Sort(ordered), entries);
    }
    hide InNumericOrder;
    if ordered == [] {
      return Err(NoMigrations);
    }
    return Ok(Sort(ordered));
  }

  /** What an error says about the directory. */
  ghost predicate Blames(entries: seq<Entry>, error: ListError) {
    match error
    case NoMigrations => forall e | e in entries :: !IsSql(e)
    case Duplicate(a, b, v) =>
      exists i, j | 0 <= i < j < |entries| ::
        && IsSql(entries[i]) && Parse(entries[i].name) == Ok(Migration(v, a))
        && IsSql(entries[j]) && Parse(entries[j].name) == Ok(Migration(v, b))
    case _ => exists e | e in entries :: IsSql(e) && Parse(e.name) == Err(error)
  }

  /** Increasing lists of the same migrations are the same list. */
  lemma {:induction false} IncreasingIsUnique(a: seq<Migration>, b: seq<Migration>)
    requires Increasing(a) && Increasing(b) && forall m :: m in a <==> m in b
    ensures a == b
  {
    if a != [] {
      assert a[0] in b;
    }
    if b != [] {
      assert b[0] in a;
      assert a[0] == b[0];
      assert a == [a[0]] + a[1..] && b == [b[0]] + b[1..];
      assert a[0] !in a[1..] && b[0] !in b[1..];
      assert forall m :: m in a[1..] <==> m in a && m != a[0];
      assert forall m :: m in b[1..] <==> m in b && m != b[0];
      IncreasingIsUnique(a[1..], b[1..]);
    }
  }

  /** Whether a directory is accepted, and the list it gives, do not depend on the order of its
      entries. */
  lemma OrderDoesNotMatter(es: seq<Entry>, fs: seq<Entry>, a: seq<Migration>, b: seq<Migration>)
    requires multiset(es) == multiset(fs)
    ensures Acceptable(es) <==> Acceptable(fs)
    ensures Increasing(a) && Holds(a, es) && Increasing(b) && Holds(b, fs) && Acceptable(es) ==> a == b
  {
    assert forall e :: e in es <==> e in multiset(es);
    assert forall e :: e in fs <==> e in multiset(fs);
    if Increasing(a) && Holds(a, es) && Increasing(b) && Holds(b, fs) {
      forall m | m in a ensures m in b {
        var e :| e in es && IsSql(e) && Parse(e.name) == Ok(m);
        assert e in fs;
      }
      forall m | m in b ensures m in a {
        var e :| e in fs && IsSql(e) && Parse(e.name) == Ok(m);
        assert e in es;
      }
      IncreasingIsUnique(a, b);
    }
  }

  lemma TwiceIsTwice(es: seq<Entry>, i: nat, j: nat)
    requires i < j < |es| && es[i] == es[j]
    ensures multiset(es)[es[i]] >= 2
  {
    assert es == es[..j] + [es[j]] + es[j + 1..];
    assert es[..j][i] == es[j];
    assert es[i] in multiset(es[..j]);
  }
}
