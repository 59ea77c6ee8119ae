/** The Redis side of the lockout: one keyspace with expiring keys, the script run command by
    command, and the repository in front of it. */
module LoginSecurity {
  import opened Wrappers
  import Lockout

  const KEY_PREFIX := "auth-cli:login:"

  function FailuresKey(userId: string): string {
    KEY_PREFIX + userId + ":failures"
  }

  function BlockedKey(userId: string): string {
    KEY_PREFIX + userId + ":blocked"
  }

  lemma MiddleOf(prefix: string, middle: string, suffix: string)
    ensures var s := prefix + middle + suffix;
            |s| == |prefix| + |middle| + |suffix| && s[|prefix|..|s| - |suffix|] == middle
  {
  }

  lemma LastCharacter(head: string, suffix: string)
    requires suffix != []
    ensures (head + suffix)[|head + suffix| - 1] == suffix[|suffix| - 1]
  {
  }

  /** No two users share a key and no counter key is a block key. */
  lemma KeysNeverCollide(u: string, v: string)
    ensures FailuresKey(u) != BlockedKey(v)
    ensures FailuresKey(u) == FailuresKey(v) ==> u == v
    ensures BlockedKey(u) == BlockedKey(v) ==> u == v
  {
    LastCharacter(KEY_PREFIX + u, ":failures");
    LastCharacter(KEY_PREFIX + v, ":blocked");
    MiddleOf(KEY_PREFIX, u, ":failures");
    MiddleOf(KEY_PREFIX, v, ":failures");
    MiddleOf(KEY_PREFIX, u, ":blocked");
    MiddleOf(KEY_PREFIX, v, ":blocked");
  }

  /** A stored integer and, for keys written by PSETEX, the moment it disappears. */
  datatype Entry = Entry(value: int, expiresAt: Option<Time>)

  function Milliseconds(nanoseconds: nat): nat {
    nanoseconds / 1_000_000
  }

  /** Whole milliseconds: what is left over is less than one. */
  lemma MillisecondsRoundDown(nanoseconds: nat)
    ensures Milliseconds(nanoseconds) * 1_000_000 <= nanoseconds < (Milliseconds(nanoseconds) + 1) * 1_000_000
  {
  }

  /** What a client call can do besides succeed: fail without or after taking effect. */
  datatype Fault = NoFault | LostRequest | LostReply

  class Redis {
    var now: Time
    var keys: map<string, Entry>

    constructor ()
      ensures now == 0 && keys == map[]
    {
      now, keys := 0, map[];
    }

    predicate Live(key: string)
      reads this
    {
      key in keys && (keys[key].expiresAt.Some? ==> now < keys[key].expiresAt.value)
    }

    method Exists(key: string) returns (count: int)
      ensures count == if Live(key) then 1 else 0
    {
      if key in keys {
        match keys[key].expiresAt {
          case None => return 1;
          case Some(at) => return if now < at then 1 else 0;
        }
      }
      return 0;
    }

    method Incr(key: string) returns (value: int)
      modifies this`keys
      ensures value == (if old(Live(key)) then old(keys[key].value) else 0) + 1
      ensures keys == old(keys)[key := Entry(value, if old(Live(key)) then old(keys[key].expiresAt) else None)]
    {
      var found := Exists(key);
      var entry := if found == 1 then keys[key] else Entry(0, None);
      value := entry.value + 1;
      keys := keys[key := Entry(value, entry.expiresAt)];
    }

    method Del(gone: set<string>)
      modifies this`keys
      ensures keys == old(keys) - gone
    {
      keys := keys - gone;
    }

    /** PSETEX refuses an expiry that is not positive. */
    method PSetEx(key: string, ms: int, value: int) returns (ok: bool)
      modifies this`keys
      ensures ok == (ms > 0)
      ensures keys == if ok then old(keys)[key := Entry(value, Some(now + ms))] else old(keys)
    {
      ok := ms > 0;
      if ok {
        keys := keys[key := Entry(value, Some(now + ms))];
      }
    }
  }

  class RedisRepository {
    const client: Redis

    constructor (client: Redis)
      ensures this.client == client
    {
      this.client := client;
    }

    /** Counter keys never expire and hold at least 1; block keys always expire. */
    ghost predicate Valid()
      reads client
    {
      forall u: string ::
        && (FailuresKey(u) in client.keys
            ==> client.keys[FailuresKey(u)].expiresAt.None? && client.keys[FailuresKey(u)].value >= 1)
        && (BlockedKey(u) in client.keys ==> client.keys[BlockedKey(u)].expiresAt.Some?)
    }

    /** The lockout automaton of user `u`, read off the keyspace. */
    ghost function Cell(u: string): Lockout.Cell
      requires Valid()
      reads client
    {
      Lockout.Cell(
        if FailuresKey(u) in client.keys then client.keys[FailuresKey(u)].value else 0,
        if BlockedKey(u) in client.keys then client.keys[BlockedKey(u)].expiresAt else None)
    }

    method IsBlocked(userId: string, fault: Fault) returns (r: Result<bool, ()>)
      requires Valid()
      ensures r == if fault == NoFault then Ok(Lockout.Blocked(Cell(userId), client.now)) else Err(())
    {
      if fault != NoFault {
        return Err(());
      }
      var count := client.Exists(BlockedKey(userId));
      return Ok(count > 0);
    }

    /** The script, command by command. */
    method RecordFailureScript(failures: string, blocked: string, limit: nat, ms: nat)
      returns (reply: Lockout.ScriptReply)
      modifies client`keys
      ensures reply == if old(client.Live(blocked)) then Lockout.Locked
                       else if (if old(client.Live(failures)) then old(client.keys[failures].value) else 0) + 1 < limit
                         then Lockout.Open
                       else if ms == 0 then Lockout.ScriptError else Lockout.Locked
      ensures var counted := (if old(client.Live(failures)) then old(client.keys[failures]) else Entry(0, None));
              client.keys ==
              if old(client.Live(blocked)) then old(client.keys)
              else if counted.value + 1 < limit
              then old(client.keys)[failures := Entry(counted.value + 1, counted.expiresAt)]
              else
                var left := old(client.keys) - {failures};
                if ms == 0 then left else left[blocked := Entry(1, Some(client.now + ms))]
    {
      var exists_ := client.Exists(blocked);
      if exists_ == 1 {
        return Lockout.Locked;
      }
      var attempts := client.Incr(failures);
      if attempts >= limit {
        client.Del({failures});
        assert client.keys == old(client.keys) - {failures};
        var ok := client.PSetEx(blocked, ms, 1);
        return if ok then Lockout.Locked else Lockout.ScriptError;
      }
      return Lockout.Open;
    }

    method RecordFailure(userId: string, limit: nat, blockDuration: nat, fault: Fault) returns (r: Result<bool, ()>)
      requires Valid() && limit >= 1
      modifies client`keys
      ensures Valid()
      ensures var (cell, reply) := Lockout.Record(old(Cell(userId)), client.now, limit, Milliseconds(blockDuration));
              && Cell(userId) == (if fault == LostRequest then old(Cell(userId)) else cell)
              && r == if fault == NoFault && !reply.ScriptError? then Ok(reply.Locked?) else Err(())
      ensures forall v: string | v != userId :: Cell(v) == old(Cell(v))
    {
      KeysNeverCollide(userId, userId);
      forall v: string ensures FailuresKey(userId) != BlockedKey(v) && FailuresKey(v) != BlockedKey(userId)
        && (FailuresKey(userId) == FailuresKey(v) ==> userId == v)
           && (BlockedKey(userId) == BlockedKey(v) ==> userId == v)
      {
        KeysNeverCollide(userId, v);
        KeysNeverCollide(v, userId);
      }
      if fault == LostRequest {
        return Err(());
      }
      var reply := RecordFailureScript(FailuresKey(userId), BlockedKey(userId), limit, Milliseconds(blockDuration));
      if fault == LostReply || reply == Lockout.ScriptError {
        return Err(());
      }
      return Ok(reply == Lockout.Locked);
    }

    method Reset(userId: string, fault: Fault) returns (r: Result<(), ()>)
      requires Valid()
      modifies client`keys
      ensures Valid()
      ensures Cell(userId) == if fault == LostRequest then old(Cell(userId)) else Lockout.CLEAN
      ensures forall v: string | v != userId :: Cell(v) == old(Cell(v))
      ensures r == if fault == NoFault then Ok(()) else Err(())
    {
      forall v: string ensures FailuresKey(userId) != BlockedKey(v) && FailuresKey(v) != BlockedKey(userId)
        && (FailuresKey(userId) == FailuresKey(v) ==> userId == v)
           && (BlockedKey(userId) == BlockedKey(v) ==> userId == v)
      {
        KeysNeverCollide(userId, v);
        KeysNeverCollide(v, userId);
      }
      if fault == LostRequest {
        return Err(());
      }
      client.Del({FailuresKey(userId), BlockedKey(userId)});
      return if fault == NoFault then Ok(()) else Err(());
    }
  }
}
