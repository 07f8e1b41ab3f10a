/** Redis as the core uses it through StringRedisTemplate: a map from key to
    string, each entry with an optional expiry, and a clock. Every call is one
    atomic step on that map. Expiry is lazy: an entry whose time has passed
    stays in the map but every command treats it as absent. */
module Redis {
  import opened Common

  /** A stored string and the clock reading (milliseconds) at which it expires;
      None is an entry without a storage TTL. */
  datatype Entry = Entry(value: string, expireAt: Option<int>)

  type Keyspace = map<string, Entry>

  /** As in Redis, an entry is still live at the very millisecond it expires
      and gone only once the clock is past it. */
  predicate Live(e: Entry, now: int)
  {
    e.expireAt.None? || now <= e.expireAt.value
  }

  /** GET key at time now: the value, or None (Java's null) if there is no live entry. */
  function Lookup(ks: Keyspace, now: int, key: string): Option<string>
  {
    if key in ks && Live(ks[key], now) then Some(ks[key].value) else None
  }

  /** The commands that can change the store. TTLs are in milliseconds. */
  datatype Op =
    | Write(key: string, value: string, ttl: Option<int>)    // SET, with EX/PX when ttl is given
    | WriteIfAbsent(key: string, value: string, lease: int)   // SET NX PX
    | Remove(key: string)                                     // DEL
    | RemoveIfHeld(key: string, token: string)                // unlock.lua: GET, compare, DEL as one step

  /** A command and the clock reading at which the store executed it. */
  datatype Cmd = Cmd(at: int, op: Op)

  /** Redis answers a SET whose TTL is not positive with an error and changes nothing. */
  predicate ValidTtl(ttl: Option<int>)
  {
    ttl.None? || ttl.value > 0
  }

  function ExpireAt(at: int, ttl: Option<int>): Option<int>
  {
    if ttl.Some? then Some(at + ttl.value) else None
  }

  /** The store after executing c. */
  function Apply(ks: Keyspace, c: Cmd): (r: Keyspace)
    ensures r - {c.op.key} == ks - {c.op.key}
  {
    match c.op
    case Write(k, v, ttl) => ks[k := Entry(v, ExpireAt(c.at, ttl))]
    case WriteIfAbsent(k, v, ttl) =>
      if Lookup(ks, c.at, k).None? then ks[k := Entry(v, Some(c.at + ttl))] else ks
    case Remove(k) => ks - {k}
    case RemoveIfHeld(k, t) => if Lookup(ks, c.at, k) == Some(t) then ks - {k} else ks
  }

  /** What a conditional command reports: whether it changed the store. */
  function Succeeds(ks: Keyspace, c: Cmd): bool
  {
    match c.op
    case Write(_, _, _) => true
    case WriteIfAbsent(k, _, _) => Lookup(ks, c.at, k).None?
    case Remove(k) => Lookup(ks, c.at, k).Some?
    case RemoveIfHeld(k, t) => Lookup(ks, c.at, k) == Some(t)
  }

  /** The store after executing cmds in order. */
  function Replay(ks: Keyspace, cmds: seq<Cmd>): Keyspace
    decreases |cmds|
  {
    if cmds == [] then ks else Replay(Apply(ks, cmds[0]), cmds[1..])
  }

  lemma {:induction false} ReplayAppend(ks: Keyspace, a: seq<Cmd>, b: seq<Cmd>)
    ensures Replay(ks, a + b) == Replay(Replay(ks, a), b)
    decreases |a|
  {
    if a == [] {
      assert a + b == b;
    } else {
      assert (a + b)[0] == a[0];
      assert (a + b)[1..] == a[1..] + b;
      ReplayAppend(Apply(ks, a[0]), a[1..], b);
    }
  }

  lemma ReplayTwo(ks: Keyspace, a: Cmd, b: Cmd)
    ensures Replay(ks, [a, b]) == Apply(Apply(ks, a), b)
  {
    assert [a, b][1..] == [b];
    assert [b][1..] == [];
    assert Replay(ks, [a, b]) == Replay(Apply(ks, a), [b]);
    assert Replay(Apply(ks, a), [b]) == Replay(Apply(Apply(ks, a), b), []);
  }

  /** A command on one key does not change what a GET of another key sees. */
  lemma ApplyOtherKey(ks: Keyspace, c: Cmd, now: int, key: string)
    requires key != c.op.key
    ensures Lookup(Apply(ks, c), now, key) == Lookup(ks, now, key)
  {
    assert key in Apply(ks, c) - {c.op.key} <==> key in ks - {c.op.key};
  }

  /** The StringRedisTemplate the services share. `log` records every command
      that can change the store, in the order the store ran them. */
  class StringRedis {
    var keyspace: Keyspace
    var now: int
    ghost var log: seq<Cmd>

    constructor (keyspace: Keyspace, now: int)
      ensures this.keyspace == keyspace && this.now == now && log == []
    {
      this.keyspace := keyspace;
      this.now := now;
      log := [];
    }

    /** `opsForValue().get(key)`. */
    method Get(key: string) returns (v: Option<string>)
      ensures v == Lookup(keyspace, now, key)
    {
      v := if key in keyspace && Live(keyspace[key], now) then Some(keyspace[key].value) else None;
    }

    /** `opsForValue().set(key, value[, timeout, unit])`. `accepted` is false
        when Redis rejects the TTL; Spring then throws. */
    method Set(key: string, value: string, ttl: Option<int>) returns (accepted: bool)
      modifies this`keyspace, this`log
      ensures accepted == ValidTtl(ttl)
      ensures accepted ==> keyspace == Apply(old(keyspace), Cmd(now, Write(key, value, ttl)))
      ensures accepted ==> keyspace[key] == Entry(value, ExpireAt(now, ttl))
      ensures accepted ==> log == old(log) + [Cmd(now, Write(key, value, ttl))]
      ensures !accepted ==> keyspace == old(keyspace) && log == old(log)
    {
      accepted := ttl.None? || ttl.value > 0;
      if accepted {
        keyspace := keyspace[key := Entry(value, ExpireAt(now, ttl))];
        log := log + [Cmd(now, Write(key, value, ttl))];
      }
    }

    /** `opsForValue().setIfAbsent(key, value, timeout, unit)`: `ok` reports
        whether the key was absent and is now set. */
    method SetIfAbsent(key: string, value: string, ttl: int) returns (accepted: bool, ok: bool)
      modifies this`keyspace, this`log
      ensures accepted == (ttl > 0)
      ensures ok == (accepted && Lookup(old(keyspace), now, key).None?)
      ensures accepted ==> keyspace == Apply(old(keyspace), Cmd(now, WriteIfAbsent(key, value, ttl)))
      ensures accepted ==> log == old(log) + [Cmd(now, WriteIfAbsent(key, value, ttl))]
      ensures !accepted ==> keyspace == old(keyspace) && log == old(log)
    {
      accepted := ttl > 0;
      ok := false;
      if accepted {
        ok := !(key in keyspace && Live(keyspace[key], now));
        if ok {
          keyspace := keyspace[key := Entry(value, Some(now + ttl))];
        }
        log := log + [Cmd(now, WriteIfAbsent(key, value, ttl))];
      }
    }

    /** `delete(key)`. */
    method Delete(key: string) returns (existed: bool)
      modifies this`keyspace, this`log
      ensures existed == Lookup(old(keyspace), now, key).Some?
      ensures keyspace == old(keyspace) - {key}
      ensures log == old(log) + [Cmd(now, Remove(key))]
    {
      existed := key in keyspace && Live(keyspace[key], now);
      keyspace := keyspace - {key};
      log := log + [Cmd(now, Remove(key))];
    }

    /** The unlock script: delete key only if it holds token, in one atomic step. */
    method DeleteIfHeld(key: string, token: string) returns (deleted: bool)
      modifies this`keyspace, this`log
      ensures deleted == (Lookup(old(keyspace), now, key) == Some(token))
      ensures keyspace == Apply(old(keyspace), Cmd(now, RemoveIfHeld(key, token)))
      ensures log == old(log) + [Cmd(now, RemoveIfHeld(key, token))]
    {
      deleted := key in keyspace && Live(keyspace[key], now) && keyspace[key].value == token;
      if deleted {
        keyspace := keyspace - {key};
      }
      log := log + [Cmd(now, RemoveIfHeld(key, token))];
    }

    /** Time passing (`Thread.sleep`): the only way the model's clock moves. */
    method Sleep(ms: nat)
      modifies this`now
      ensures now == old(now) + ms
    {
      now := now + ms;
    }
  }
}
