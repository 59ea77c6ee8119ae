/** The account-lockout automaton of one user, as the Redis script sees it: a failure
    counter without an expiry and a block key that Redis drops by itself. */
module Lockout {
  import opened Wrappers

  /** `count` is the value under the failures key (0 when the key is absent);
      `until` is the expiry of the block key, if one was ever written. */
  datatype Cell = Cell(count: nat, until: Option<Time>)

  const CLEAN := Cell(0, None)

  /** EXISTS on the block key: an expired key no longer exists. */
  predicate Blocked(cell: Cell, now: Time) {
    cell.until.Some? && now < cell.until.value
  }

  /** What the script hands back: 0, 1, or the error PSETEX raises for a
      non-positive expiry (after DEL has already run). */
  datatype ScriptReply = Open | Locked | ScriptError

  /** One atomic evaluation of the record-failure script. */
  function Record(cell: Cell, now: Time, limit: nat, blockMs: nat): (Cell, ScriptReply) {
    if Blocked(cell, now) then (cell, Locked)
    else if cell.count + 1 < limit then (cell.(count := cell.count + 1), Open)
    else if blockMs == 0 then (cell.(count := 0), ScriptError)
    else (Cell(0, Some(now + blockMs)), Locked)
  }

  /** What can happen to one user's two keys: time passes, the script runs, Reset deletes both. */
  datatype Event = Elapse(ms: nat) | Fail | Clear

  datatype State = State(now: Time, cell: Cell)

  function Step(s: State, e: Event, limit: nat, blockMs: nat): State {
    match e
    case Elapse(ms) => State(s.now + ms, s.cell)
    case Fail => State(s.now, Record(s.cell, s.now, limit, blockMs).0)
    case Clear => State(s.now, CLEAN)
  }

  function Run(s: State, es: seq<Event>, limit: nat, blockMs: nat): State
    decreases |es|
  {
    if es == [] then s else Run(Step(s, es[0], limit, blockMs), es[1..], limit, blockMs)
  }

  /** True of every state a run from `CLEAN` can reach; see `InvariantHolds`. */
  predicate Invariant(s: State, limit: nat, blockMs: nat) {
    && s.cell.count < limit
    && (Blocked(s.cell, s.now) ==> s.cell.count == 0 && s.cell.until.value <= s.now + blockMs)
  }

  lemma {:induction false} InvariantHolds(s: State, es: seq<Event>, limit: nat, blockMs: nat)
    requires limit >= 1
    requires Invariant(s, limit, blockMs)
    ensures Invariant(Run(s, es, limit, blockMs), limit, blockMs)
    decreases |es|
  {
    if es != [] {
      InvariantHolds(Step(s, es[0], limit, blockMs), es[1..], limit, blockMs);
    }
  }

  // ---- What a stretch of events adds up to ----

  /** A failure the script counts: it ran while no block was in place. */
  predicate Counts(s: State, e: Event) {
    e.Fail? && !Blocked(s.cell, s.now)
  }

  function Counted(s: State, es: seq<Event>, limit: nat, blockMs: nat): nat
    decreases |es|
  {
    if es == [] then 0
    else (if Counts(s, es[0]) then 1 else 0) + Counted(Step(s, es[0], limit, blockMs), es[1..], limit, blockMs)
  }

  function BlocksSet(s: State, es: seq<Event>, limit: nat, blockMs: nat): nat
    decreases |es|
  {
    if es == [] then 0
    else
      (if Counts(s, es[0]) && Record(s.cell, s.now, limit, blockMs).1.Locked? then 1 else 0)
      + BlocksSet(Step(s, es[0], limit, blockMs), es[1..], limit, blockMs)
  }

  /** The counter values that Reset threw away. */
  function Erased(s: State, es: seq<Event>, limit: nat, blockMs: nat): nat
    decreases |es|
  {
    if es == [] then 0
    else (if es[0].Clear? then s.cell.count else 0) + Erased(Step(s, es[0], limit, blockMs), es[1..], limit, blockMs)
  }

  function Resets(es: seq<Event>): nat {
    if es == [] then 0 else (if es[0].Clear? then 1 else 0) + Resets(es[1..])
  }

  function Elapsed(es: seq<Event>): nat {
    if es == [] then 0 else (if es[0].Elapse? then es[0].ms else 0) + Elapsed(es[1..])
  }

  lemma {:induction false} RunTakes(s: State, es: seq<Event>, limit: nat, blockMs: nat)
    ensures Run(s, es, limit, blockMs).now == s.now + Elapsed(es)
    decreases |es|
  {
    if es != [] {
      RunTakes(Step(s, es[0], limit, blockMs), es[1..], limit, blockMs);
    }
  }

  /** Evaluations that answered 0, the reply behind every "invalid code, try again". */
  function OpenReplies(s: State, es: seq<Event>, limit: nat, blockMs: nat): nat
    decreases |es|
  {
    if es == [] then 0
    else
      (if es[0].Fail? && Record(s.cell, s.now, limit, blockMs).1.Open? then 1 else 0)
      + OpenReplies(Step(s, es[0], limit, blockMs), es[1..], limit, blockMs)
  }

  /** Times the clock carried a block past its expiry. */
  function Expiries(s: State, es: seq<Event>, limit: nat, blockMs: nat): nat
    decreases |es|
  {
    if es == [] then 0
    else
      var t := Step(s, es[0], limit, blockMs);
      (if es[0].Elapse? && Blocked(s.cell, s.now) && !Blocked(t.cell, t.now) then 1 else 0)
      + Expiries(t, es[1..], limit, blockMs)
  }

  /** Conservation: every counted failure is in the counter, in a block it helped to set,
      or was erased by a Reset. */
  lemma {:induction false} FailuresAreConserved(s: State, es: seq<Event>, limit: nat, blockMs: nat)
    requires limit >= 1 && blockMs >= 1
    requires Invariant(s, limit, blockMs)
    ensures var t := Run(s, es, limit, blockMs);
            s.cell.count + Counted(s, es, limit, blockMs)
            == t.cell.count + limit * BlocksSet(s, es, limit, blockMs) + Erased(s, es, limit, blockMs)
    ensures var t := Run(s, es, limit, blockMs);
            t.cell.count < limit && (Blocked(t.cell, t.now) ==> t.cell.count == 0)
    decreases |es|
  {
    InvariantHolds(s, es, limit, blockMs);
    if es != [] {
      var t := Step(s, es[0], limit, blockMs);
      InvariantHolds(s, [es[0]], limit, blockMs);
      FailuresAreConserved(t, es[1..], limit, blockMs);
      var b := BlocksSet(t, es[1..], limit, blockMs);
      assert limit * (1 + b) == limit + limit * b;
    }
  }

  // ---- The rate bound ----

  lemma MulStep(m: nat, a: nat, b: nat)
    requires a < b
    ensures m * a + m <= m * b
  {
    assert m * b == m * a + m * (b - a);
    assert m * (b - a) == m + m * (b - a - 1);
    assert m * (b - a - 1) >= 0;
  }

  lemma DivMonotone(a: nat, b: nat, d: nat)
    requires a <= b && d >= 1
    ensures a / d <= b / d
  {
    assert a == d * (a / d) + a % d && b == d * (b / d) + b % d;
    if b / d < a / d {
      MulStep(d, b / d, a / d);
    }
  }

  lemma DivShift(a: nat, d: nat)
    requires d >= 1
    ensures (a + d) / d == a / d + 1
  {
    assert a == d * (a / d) + a % d && a + d == d * ((a + d) / d) + (a + d) % d;
    assert d * (a / d + 1) == d * (a / d) + d;
    if (a + d) / d < a / d + 1 {
      MulStep(d, (a + d) / d, a / d + 1);
    } else if a / d + 1 < (a + d) / d {
      MulStep(d, a / d + 1, (a + d) / d);
    }
  }

  lemma MulMonotone(m: nat, a: nat, b: nat)
    requires a <= b
    ensures m * a <= m * b
  {
  }

  /** Whole lockout periods that `ms` more milliseconds make room for, counted from now when
      the account is open and from when the running block was set when it is not. */
  function Periods(s: State, ms: nat, blockMs: nat): nat
    requires blockMs >= 1
    requires Blocked(s.cell, s.now) ==> s.cell.until.value <= s.now + blockMs
  {
    if Blocked(s.cell, s.now)
    then (s.now + ms - (s.cell.until.value - blockMs)) / blockMs
    else 1 + ms / blockMs
  }

  lemma PeriodsShrink(s: State, d: nat, ms: nat, blockMs: nat)
    requires blockMs >= 1 && d <= ms
    requires Blocked(s.cell, s.now) ==> s.cell.until.value <= s.now + blockMs
    ensures Periods(State(s.now + d, s.cell), ms - d, blockMs) <= Periods(s, ms, blockMs)
  {
    var t := State(s.now + d, s.cell);
    if Blocked(s.cell, s.now) && !Blocked(t.cell, t.now) {
      var left := s.now + ms - s.cell.until.value;
      DivShift(left, blockMs);
      DivMonotone(ms - d, left, blockMs);
    } else if !Blocked(s.cell, s.now) {
      DivMonotone(ms - d, ms, blockMs);
    }
  }

  lemma PeriodsAfterReset(s: State, ms: nat, blockMs: nat)
    requires blockMs >= 1
    requires Blocked(s.cell, s.now) ==> s.cell.until.value <= s.now + blockMs
    ensures Periods(State(s.now, CLEAN), ms, blockMs) <= 1 + Periods(s, ms, blockMs)
  {
    if Blocked(s.cell, s.now) {
      DivMonotone(ms, s.now + ms - (s.cell.until.value - blockMs), blockMs);
    }
  }

  lemma PeriodsAfterBlock(s: State, ms: nat, blockMs: nat)
    requires blockMs >= 1 && !Blocked(s.cell, s.now)
    ensures Periods(State(s.now, Cell(0, Some(s.now + blockMs))), ms, blockMs) + 1 == Periods(s, ms, blockMs)
  {
  }

  /** The allowance a stretch of events still has, in units of `limit`. */
  function Allowance(s: State, es: seq<Event>, blockMs: nat): nat
    requires blockMs >= 1
    requires Blocked(s.cell, s.now) ==> s.cell.until.value <= s.now + blockMs
  {
    Resets(es) + Periods(s, Elapsed(es), blockMs)
  }

  /** A block being set and a counter being erased each use up one unit; nothing adds any. */
  lemma AllowanceStep(s: State, e: Event, rest: seq<Event>, limit: nat, blockMs: nat)
    requires limit >= 1 && blockMs >= 1
    requires Invariant(s, limit, blockMs) && Invariant(Step(s, e, limit, blockMs), limit, blockMs)
    ensures var t := Step(s, e, limit, blockMs);
            Allowance(t, rest, blockMs)
            + (if t.cell.count < s.cell.count || (Counts(s, e) && t.cell.count == 0) then 1 else 0)
            <= Allowance(s, [e] + rest, blockMs)
  {
    assert ([e] + rest)[1..] == rest;
    match e
    case Elapse(d) => PeriodsShrink(s, d, Elapsed([e] + rest), blockMs);
    case Clear => PeriodsAfterReset(s, Elapsed(rest), blockMs);
    case Fail =>
      if !Blocked(s.cell, s.now) && s.cell.count + 1 >= limit {
        PeriodsAfterBlock(s, Elapsed(rest), blockMs);
      }
  }

  lemma {:induction false} CountedWithinPeriods(s: State, es: seq<Event>, limit: nat, blockMs: nat)
    requires limit >= 1 && blockMs >= 1
    requires Invariant(s, limit, blockMs)
    ensures s.cell.count + Counted(s, es, limit, blockMs)
            <= limit * Allowance(s, es, blockMs)
    decreases |es|
  {
    if es == [] {
      if !Blocked(s.cell, s.now) {
        MulMonotone(limit, 1, Periods(s, 0, blockMs));
      }
    } else {
      var t := Step(s, es[0], limit, blockMs);
      InvariantHolds(s, [es[0]], limit, blockMs);
      CountedWithinPeriods(t, es[1..], limit, blockMs);
      AllowanceStep(s, es[0], es[1..], limit, blockMs);
      assert [es[0]] + es[1..] == es;
      var q, q' := Allowance(t, es[1..], blockMs), Allowance(s, es, blockMs);
      if q < q' {
        MulStep(limit, q, q');
      }
    }
  }

  /** The rate bound, for any number of processes and any interleaving: a stretch of `T`
      milliseconds with `r` Resets counts at most limit * (T / D + 1 + r) failures. */
  lemma RateBound(s: State, es: seq<Event>, limit: nat, blockMs: nat)
    requires limit >= 1 && blockMs >= 1
    requires Invariant(s, limit, blockMs)
    ensures Counted(s, es, limit, blockMs) <= limit * (Elapsed(es) / blockMs + 1 + Resets(es))
  {
    CountedWithinPeriods(s, es, limit, blockMs);
    var ms := Elapsed(es);
    if Blocked(s.cell, s.now) {
      DivShift(ms, blockMs);
      DivMonotone(s.now + ms - (s.cell.until.value - blockMs), ms + blockMs, blockMs);
    }
    MulMonotone(limit, Resets(es) + Periods(s, ms, blockMs), ms / blockMs + 1 + Resets(es));
  }

  /** `n` failures in a row. */
  function Burst(n: nat): seq<Event> {
    if n == 0 then [] else [Fail] + Burst(n - 1)
  }

  /** Fill the counter, wait out the block, `k` times over; then `tail` more milliseconds. */
  function Siege(limit: nat, blockMs: nat, k: nat, tail: nat): seq<Event> {
    if k == 0 then Burst(limit) + [Elapse(tail)]
    else Burst(limit) + ([Elapse(blockMs)] + Siege(limit, blockMs, k - 1, tail))
  }

  lemma {:induction false} BurstLocks(s: State, n: nat, rest: seq<Event>, limit: nat, blockMs: nat)
    requires limit >= 1 && blockMs >= 1 && n >= 1
    requires !Blocked(s.cell, s.now) && s.cell.count + n == limit
    ensures var t := State(s.now, Cell(0, Some(s.now + blockMs)));
            && Counted(s, Burst(n) + rest, limit, blockMs) == n + Counted(t, rest, limit, blockMs)
            && Elapsed(Burst(n) + rest) == Elapsed(rest)
            && Resets(Burst(n) + rest) == Resets(rest)
    decreases n
  {
    var es := Burst(n) + rest;
    assert es[0] == Fail && es[1..] == Burst(n - 1) + rest;
    if n == 1 {
      assert es[1..] == rest;
    } else {
      BurstLocks(Step(s, Fail, limit, blockMs), n - 1, rest, limit, blockMs);
    }
  }

  lemma {:induction false} SiegeCounts(s: State, k: nat, tail: nat, limit: nat, blockMs: nat)
    requires limit >= 1 && blockMs >= 1
    requires !Blocked(s.cell, s.now) && s.cell.count == 0
    ensures var es := Siege(limit, blockMs, k, tail);
            && Counted(s, es, limit, blockMs) == limit * (k + 1)
            && Elapsed(es) == blockMs * k + tail
            && Resets(es) == 0
    decreases k
  {
    var t := State(s.now, Cell(0, Some(s.now + blockMs)));
    if k == 0 {
      BurstLocks(s, limit, [Elapse(tail)], limit, blockMs);
      assert [Elapse(tail)][1..] == [];
    } else {
      var rest := Siege(limit, blockMs, k - 1, tail);
      var es := [Elapse(blockMs)] + rest;
      assert es[0] == Elapse(blockMs) && es[1..] == rest;
      BurstLocks(s, limit, es, limit, blockMs);
      SiegeCounts(Step(t, es[0], limit, blockMs), k - 1, tail, limit, blockMs);
      assert limit * (k + 1) == limit * k + limit;
      assert blockMs * k == blockMs * (k - 1) + blockMs;
    }
  }

  /** The bound is sharp: every window length has a run from a clean account that meets it. */
  lemma RateBoundIsMet(now: Time, ms: nat, limit: nat, blockMs: nat)
    requires limit >= 1 && blockMs >= 1
    ensures exists es ::
              && Elapsed(es) == ms
              && Resets(es) == 0
              && Counted(State(now, CLEAN), es, limit, blockMs) == limit * (ms / blockMs + 1)
  {
    var k, tail := ms / blockMs, ms % blockMs;
    SiegeCounts(State(now, CLEAN), k, tail, limit, blockMs);
    var es := Siege(limit, blockMs, k, tail);
    assert Elapsed(es) == ms;
    assert Counted(State(now, CLEAN), es, limit, blockMs) == limit * (ms / blockMs + 1);
  }

  // ---- "Invalid code, try again" ----

  /** The replies that let a code loop go round once more: at most limit - 1 for each opening
      of the account, less what the counter already held. */
  lemma {:induction false} OpenRepliesBound(s: State, es: seq<Event>, limit: nat, blockMs: nat)
    requires limit >= 1 && blockMs >= 1
    requires Invariant(s, limit, blockMs)
    ensures s.cell.count + OpenReplies(s, es, limit, blockMs)
            <= (limit - 1) * ((if Blocked(s.cell, s.now) then 0 else 1) + Resets(es) + Expiries(s, es, limit, blockMs))
    decreases |es|
  {
    if es == [] {
    } else {
      var t := Step(s, es[0], limit, blockMs);
      InvariantHolds(s, [es[0]], limit, blockMs);
      OpenRepliesBound(t, es[1..], limit, blockMs);
      var q := (if Blocked(t.cell, t.now) then 0 else 1) + Resets(es[1..]) + Expiries(t, es[1..], limit, blockMs);
      assert (limit - 1) * (1 + q) == (limit - 1) + (limit - 1) * q;
    }
  }

  // ---- The duration must be a whole millisecond ----

  /** Unless a successful login resets it, a block lasts its whole duration, and failures
      meanwhile neither count nor prolong it. */
  lemma {:induction false} BlockLasts(s: State, es: seq<Event>, limit: nat, blockMs: nat)
    requires s.cell.until.Some? && s.now + Elapsed(es) < s.cell.until.value
    requires Resets(es) == 0
    ensures Run(s, es, limit, blockMs) == State(s.now + Elapsed(es), s.cell) && Blocked(s.cell, s.now + Elapsed(es))
    decreases |es|
  {
    if es != [] {
      BlockLasts(Step(s, es[0], limit, blockMs), es[1..], limit, blockMs);
    }
  }

  lemma {:induction false} NothingBlocksWithoutAMillisecond(s: State, es: seq<Event>, limit: nat)
    requires !Blocked(s.cell, s.now) && (s.cell.until.Some? ==> s.cell.until.value <= s.now)
    ensures var t := Run(s, es, limit, 0); !Blocked(t.cell, t.now)
    decreases |es|
  {
    if es != [] {
      NothingBlocksWithoutAMillisecond(Step(s, es[0], limit, 0), es[1..], limit);
    }
  }

  lemma {:induction false} BurstEndsBlocked(s: State, n: nat, limit: nat, blockMs: nat)
    requires limit >= 1 && blockMs >= 1 && n >= 1
    requires !Blocked(s.cell, s.now) && s.cell.count + n == limit
    ensures Run(s, Burst(n), limit, blockMs) == State(s.now, Cell(0, Some(s.now + blockMs)))
    decreases n
  {
    assert Burst(n)[0] == Fail && Burst(n)[1..] == Burst(n - 1);
    if n > 1 {
      BurstEndsBlocked(Step(s, Fail, limit, blockMs), n - 1, limit, blockMs);
    }
  }

  /** The configuration accepts any positive duration, but the script is given its whole
      milliseconds: some run locks an account exactly when there is at least one of them. */
  lemma LocksExactlyWithAMillisecond(now: Time, limit: nat, blockMs: nat)
    requires limit >= 1
    ensures (exists es :: var t := Run(State(now, CLEAN), es, limit, blockMs); Blocked(t.cell, t.now))
            <==> blockMs >= 1
  {
    var s := State(now, CLEAN);
    if blockMs >= 1 {
      BurstEndsBlocked(s, limit, limit, blockMs);
      var t := Run(s, Burst(limit), limit, blockMs);
      assert Blocked(t.cell, t.now);
    } else {
      forall es ensures var t := Run(s, es, limit, blockMs); !Blocked(t.cell, t.now) {
        NothingBlocksWithoutAMillisecond(s, es, limit);
      }
    }
  }
}
