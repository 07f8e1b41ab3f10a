/** CacheClient: a read-through cache over Redis in two variants. The
    pass-through variant caches a miss as the "" marker so that a missing id
    does not reach the database again; the logical-expiry variant keeps entries
    forever at the storage layer, carries the expiry inside the JSON, serves
    stale data and rebuilds it in the background under a set-if-absent lock. */
module Caching {
  import opened Common
  import opened Keys
  import opened Redis

  /** RedisData: an entity (Java null allowed) and the moment it logically expires. */
  datatype Envelope<T> = Envelope(data: Option<T>, expireTime: int)

  /** A rebuild submitted to CACHE_REBUILD_EXECUTOR, over a database whose
      states are values of D. The task calls the fallback only when it runs:
      run at time t against the database state db, it writes `render(db, t)`
      under `key` and then deletes `lockKey`. */
  datatype RebuildTask<!D> = RebuildTask(key: string, lockKey: string, render: (D, int) -> string)

  /** What one call does: its result, the store and the clock afterwards, the
      store commands it issued in order, and how often it called the fallback. */
  datatype Effect<T> = Effect(
    result: T,
    keyspace: Keyspace,
    clock: int,
    issued: seq<Cmd>,
    fetches: nat)

  /** The lease of the rebuild lock: `setIfAbsent(key, "1", 10, SECONDS)`. */
  const RebuildLease: int := 10000

  /** Minutes-to-milliseconds TTL of the "" marker. */
  function NullMarkerTtl(): int { ToMillis(CacheNullTtl, Minutes) }

  /** `JSONUtil.toBean(json, type)`: the value, or an exception. */
  function Decoded<R>(codec: Codec<R>, json: string): (o: Outcome<Option<R>>)
    ensures o.Returns? ==> o.value.Some? && codec.decode(json) == Some(o.value.value)
    ensures o.Throws? ==> codec.decode(json).None? && o.fault == MalformedJson
  {
    match codec.decode(json)
    case Some(r) => Returns(Some(r))
    case None => Throws(MalformedJson)
  }

  /** The JSON `setWithLogicalExpire(key, value, time, unit)` writes when run
      at time t: under a faithful codec it reads back as the value with the
      logical expiry t plus the duration. */
  function EnvelopeJson<R(!new)>(envCodec: Codec<Envelope<R>>, value: Option<R>, t: int, time: int, unit: TimeUnit): (j: string)
    ensures Faithful(envCodec) ==> envCodec.decode(j) == Some(Envelope(value, t + ToMillis(time, unit)))
  {
    envCodec.encode(Envelope(value, t + ToMillis(time, unit)))
  }

  /** The task `queryWithLogicalExpire` submits: load the entity from the
      database as it is when the task runs (`dbFallback(db, id)`), store it with
      a new logical expiry, release the rebuild lock. Run at time t against
      the database state db, it writes an envelope of what `dbFallback` finds
      in db, expiring the duration after t. */
  function RebuildFor<R(!new), D(!new)>(key: string, lockKey: string, envCodec: Codec<Envelope<R>>,
                                    dbFallback: (D, int) -> Option<R>, id: int, time: int, unit: TimeUnit): (task: RebuildTask<D>)
    ensures task.key == key && task.lockKey == lockKey
    ensures Faithful(envCodec) ==>
              forall db, t :: envCodec.decode(task.render(db, t)) == Some(Envelope(dbFallback(db, id), t + ToMillis(time, unit)))
  {
    RebuildTask(key, lockKey, (db: D, t: int) => EnvelopeJson(envCodec, dbFallback(db, id), t, time, unit))
  }

  /** queryWithPassThrough(keyPrefix, id, type, dbFallback, time, unit). */
  function PassThrough<R>(ks: Keyspace, now: int, keyPrefix: string, id: int, codec: Codec<R>,
                          fallback: int -> Option<R>, time: int, unit: TimeUnit): (e: Effect<Outcome<Option<R>>>)
    ensures e.clock == now
    ensures |e.issued| <= 1 && e.fetches <= 1
    ensures e.keyspace == Replay(ks, e.issued)
    ensures e.keyspace - {keyPrefix + IntStr(id)} == ks - {keyPrefix + IntStr(id)}
  {
    var key := keyPrefix + IntStr(id);
    var json := Lookup(ks, now, key);
    if !IsBlank(json) then
      Effect(Decoded(codec, json.value), ks, now, [], 0)
    else if json.Some? then
      Effect(Returns(None), ks, now, [], 0)
    else
      match fallback(id)
      case None =>
        var c := Cmd(now, Write(key, "", Some(NullMarkerTtl())));
        Effect(Returns(None), Apply(ks, c), now, [c], 1)
      case Some(r) =>
        var ttl := Some(ToMillis(time, unit));
        if !ValidTtl(ttl) then
          Effect(Throws(InvalidExpire), ks, now, [], 1)
        else
          var c := Cmd(now, Write(key, codec.encode(r), ttl));
          Effect(Returns(Some(r)), Apply(ks, c), now, [c], 1)
  }

  /** Whether queryWithLogicalExpire(keyPrefix, id, …) at time now submits a
      rebuild: the entry is an envelope whose logical expiry has passed, and the
      rebuild lock is free, so the read's tryLock succeeds. */
  predicate SubmitsRebuild<R>(ks: Keyspace, now: int, keyPrefix: string, id: int, envCodec: Codec<Envelope<R>>)
    ensures SubmitsRebuild(ks, now, keyPrefix, id, envCodec) ==>
              Succeeds(ks, Cmd(now, WriteIfAbsent(ShopLockKey(id), "1", RebuildLease)))
  {
    var json := Lookup(ks, now, keyPrefix + IntStr(id));
    && !IsBlank(json)
    && envCodec.decode(json.value).Some? && envCodec.decode(json.value).value.expireTime <= now
    && Lookup(ks, now, ShopLockKey(id)).None?
  }

  /** queryWithLogicalExpire(keyPrefix, id, type, dbFallback, time, unit), as
      seen by the calling thread: it never calls the fallback itself; whether
      it submits a rebuild is `SubmitsRebuild`. */
  function LogicalExpire<R>(ks: Keyspace, now: int, keyPrefix: string, id: int, envCodec: Codec<Envelope<R>>,
                            time: int, unit: TimeUnit): (e: Effect<Outcome<Option<R>>>)
    ensures e.clock == now && e.fetches == 0
    ensures |e.issued| <= 1
    ensures e.keyspace == Replay(ks, e.issued)
    ensures e.keyspace - {ShopLockKey(id)} == ks - {ShopLockKey(id)}
    ensures SubmitsRebuild(ks, now, keyPrefix, id, envCodec) <==> e.issued != [] && Succeeds(ks, e.issued[0])
  {
    var key := keyPrefix + IntStr(id);
    var json := Lookup(ks, now, key);
    if IsBlank(json) then
      Effect(Returns(None), ks, now, [], 0)
    else
      match envCodec.decode(json.value)
      case None => Effect(Throws(MalformedJson), ks, now, [], 0)
      case Some(env) =>
        if env.expireTime > now then
          Effect(Returns(env.data), ks, now, [], 0)
        else
          var lockKey := ShopLockKey(id);
          var c := Cmd(now, WriteIfAbsent(lockKey, "1", RebuildLease));
          Effect(Returns(env.data), Apply(ks, c), now, [c], 0)
  }

  /** The commands a rebuild task issues when it runs at time t against the
      database state db. */
  function TaskCommands<D>(task: RebuildTask<D>, db: D, t: int): seq<Cmd>
  {
    [Cmd(t, Write(task.key, task.render(db, t), None)), Cmd(t, Remove(task.lockKey))]
  }

  // Pass-through: the three cases of the first read, and the second call.

  /** A non-blank cached value is decoded and returned: no fallback call, no write. */
  lemma PassThroughHit<R>(ks: Keyspace, now: int, keyPrefix: string, id: int, codec: Codec<R>,
                          fallback: int -> Option<R>, time: int, unit: TimeUnit)
    requires !IsBlank(Lookup(ks, now, keyPrefix + IntStr(id)))
    ensures var e := PassThrough(ks, now, keyPrefix, id, codec, fallback, time, unit);
            e.result == Decoded(codec, Lookup(ks, now, keyPrefix + IntStr(id)).value)
            && e.fetches == 0 && e.issued == [] && e.keyspace == ks
  {
  }

  /** A present but blank value is the null marker: null, no fallback call, no write. */
  lemma PassThroughMarker<R>(ks: Keyspace, now: int, keyPrefix: string, id: int, codec: Codec<R>,
                             fallback: int -> Option<R>, time: int, unit: TimeUnit)
    requires Lookup(ks, now, keyPrefix + IntStr(id)).Some?
    requires IsBlankString(Lookup(ks, now, keyPrefix + IntStr(id)).value)
    ensures var e := PassThrough(ks, now, keyPrefix, id, codec, fallback, time, unit);
            e.result == Returns(None) && e.fetches == 0 && e.issued == [] && e.keyspace == ks
  {
  }

  /** A miss that the database cannot answer writes the "" marker with the short
      TTL; a second call before the marker expires answers null without asking
      the database again, whatever the database would now say. */
  lemma PassThroughCachesAbsence<R>(ks: Keyspace, now: int, later: int, keyPrefix: string, id: int, codec: Codec<R>,
                                    fallback: int -> Option<R>, fallback2: int -> Option<R>, time: int, unit: TimeUnit)
    requires Lookup(ks, now, keyPrefix + IntStr(id)).None? && fallback(id).None?
    requires now <= later <= now + NullMarkerTtl()
    ensures var e := PassThrough(ks, now, keyPrefix, id, codec, fallback, time, unit);
            && e.result == Returns(None) && e.fetches == 1
            && e.issued == [Cmd(now, Write(keyPrefix + IntStr(id), "", Some(NullMarkerTtl())))]
            && var e2 := PassThrough(e.keyspace, later, keyPrefix, id, codec, fallback2, time, unit);
               e2.result == Returns(None) && e2.fetches == 0 && e2.issued == []
  {
  }

  /** A miss that the database answers writes the entity's JSON with the
      caller's TTL and returns it; a second call within that TTL returns the same
      entity from the cache without asking the database. */
  lemma PassThroughCachesEntity<R(!new)>(ks: Keyspace, now: int, later: int, keyPrefix: string, id: int, codec: Codec<R>,
                                         fallback: int -> Option<R>, fallback2: int -> Option<R>, time: int, unit: TimeUnit)
    requires Faithful(codec)
    requires Lookup(ks, now, keyPrefix + IntStr(id)).None? && fallback(id).Some?
    requires ToMillis(time, unit) > 0 && now <= later <= now + ToMillis(time, unit)
    ensures var e := PassThrough(ks, now, keyPrefix, id, codec, fallback, time, unit);
            && e.result == Returns(fallback(id)) && e.fetches == 1
            && e.issued == [Cmd(now, Write(keyPrefix + IntStr(id), codec.encode(fallback(id).value), Some(ToMillis(time, unit))))]
            && var e2 := PassThrough(e.keyspace, later, keyPrefix, id, codec, fallback2, time, unit);
               e2.result == Returns(fallback(id)) && e2.fetches == 0 && e2.issued == []
  {
    var r := fallback(id).value;
    assert codec.decode(codec.encode(r)) == Some(r) && !IsBlankString(codec.encode(r));
  }

  // Logical expiry.

  /** What setWithLogicalExpire stores has no storage TTL: a logical-expiry
      read at any later time finds it and serves its value; only once the
      logical expiry has passed does the read also try the rebuild lock. */
  lemma LogicalEnvelopeReadBack<R(!new)>(ks: Keyspace, t: int, later: int, keyPrefix: string, id: int, value: Option<R>,
                                         envCodec: Codec<Envelope<R>>,
                                         time: int, unit: TimeUnit, time2: int, unit2: TimeUnit)
    requires Faithful(envCodec)
    ensures var stored := ks[keyPrefix + IntStr(id) := Entry(EnvelopeJson(envCodec, value, t, time, unit), None)];
            var e := LogicalExpire(stored, later, keyPrefix, id, envCodec, time2, unit2);
            && e.result == Returns(value)
            && (e.issued == [] <==> later < t + ToMillis(time, unit))
  {
    var json := EnvelopeJson(envCodec, value, t, time, unit);
    assert envCodec.decode(json) == Some(Envelope(value, t + ToMillis(time, unit)));
    assert !IsBlankString(json);
  }

  /** A blank or missing key answers null, with no lock attempt and no rebuild. */
  lemma LogicalExpireBlank<R>(ks: Keyspace, now: int, keyPrefix: string, id: int, envCodec: Codec<Envelope<R>>,
                              time: int, unit: TimeUnit)
    requires IsBlank(Lookup(ks, now, keyPrefix + IntStr(id)))
    ensures var e := LogicalExpire(ks, now, keyPrefix, id, envCodec, time, unit);
            e.result == Returns(None) && e.issued == [] && e.keyspace == ks
    ensures !SubmitsRebuild(ks, now, keyPrefix, id, envCodec)
  {
  }

  /** An envelope whose expiry lies after now is served as it is, with no lock
      attempt and no rebuild. */
  lemma LogicalExpireFresh<R>(ks: Keyspace, now: int, keyPrefix: string, id: int, envCodec: Codec<Envelope<R>>,
                              time: int, unit: TimeUnit, env: Envelope<R>)
    requires Lookup(ks, now, keyPrefix + IntStr(id)).Some?
    requires !IsBlankString(Lookup(ks, now, keyPrefix + IntStr(id)).value)
    requires envCodec.decode(Lookup(ks, now, keyPrefix + IntStr(id)).value) == Some(env)
    requires env.expireTime > now
    ensures var e := LogicalExpire(ks, now, keyPrefix, id, envCodec, time, unit);
            e.result == Returns(env.data) && e.issued == [] && e.keyspace == ks
    ensures !SubmitsRebuild(ks, now, keyPrefix, id, envCodec)
  {
  }

  /** An expired envelope is served stale whether or not the lock is obtained.
      The one lock attempt is on LOCK_SHOP_KEY + id, whatever the key prefix,
      and a rebuild is submitted exactly when the lock was free. */
  lemma LogicalExpireStale<R>(ks: Keyspace, now: int, keyPrefix: string, id: int, envCodec: Codec<Envelope<R>>,
                              time: int, unit: TimeUnit, env: Envelope<R>)
    requires Lookup(ks, now, keyPrefix + IntStr(id)).Some?
    requires !IsBlankString(Lookup(ks, now, keyPrefix + IntStr(id)).value)
    requires envCodec.decode(Lookup(ks, now, keyPrefix + IntStr(id)).value) == Some(env)
    requires env.expireTime <= now
    ensures var e := LogicalExpire(ks, now, keyPrefix, id, envCodec, time, unit);
            && e.result == Returns(env.data)
            && e.issued == [Cmd(now, WriteIfAbsent(LockShopKey + IntStr(id), "1", RebuildLease))]
    ensures SubmitsRebuild(ks, now, keyPrefix, id, envCodec) <==> Lookup(ks, now, LockShopKey + IntStr(id)).None?
  {
  }

  /** While one rebuild holds the lock, no other read of the same id submits a
      second one, under any key prefix, until the 10 second lease runs out. */
  lemma OneRebuildInFlight<R, S>(ks: Keyspace, now: int, later: int, id: int,
                                 p1: string, envCodec1: Codec<Envelope<R>>, time1: int, unit1: TimeUnit,
                                 p2: string, envCodec2: Codec<Envelope<S>>)
    requires SubmitsRebuild(ks, now, p1, id, envCodec1)
    requires now <= later <= now + RebuildLease
    ensures var e1 := LogicalExpire(ks, now, p1, id, envCodec1, time1, unit1);
            !SubmitsRebuild(e1.keyspace, later, p2, id, envCodec2)
  {
    var e1 := LogicalExpire(ks, now, p1, id, envCodec1, time1, unit1);
    assert e1.keyspace[ShopLockKey(id)] == Entry("1", Some(now + RebuildLease));
  }

  /** Running the submitted rebuild at time t against the database state db
      replaces the stale envelope by one holding what the fallback returns from
      that state (not from the state at submission), with an expiry the given
      duration after the task ran, and releases the lock; a read at that moment
      then serves the new value with no lock attempt and no further rebuild. */
  lemma RebuildRefreshes<R(!new), D(!new)>(ks: Keyspace, now: int, t: int, keyPrefix: string, id: int, envCodec: Codec<Envelope<R>>,
                                     dbFallback: (D, int) -> Option<R>, db: D, time: int, unit: TimeUnit)
    requires Faithful(envCodec) && ToMillis(time, unit) > 0
    requires SubmitsRebuild(ks, now, keyPrefix, id, envCodec)
    ensures var e := LogicalExpire(ks, now, keyPrefix, id, envCodec, time, unit);
            var task := RebuildFor(keyPrefix + IntStr(id), LockShopKey + IntStr(id), envCodec, dbFallback, id, time, unit);
            var after := Replay(e.keyspace, TaskCommands(task, db, t));
            && Lookup(after, t, LockShopKey + IntStr(id)).None?
            && Lookup(after, t, keyPrefix + IntStr(id)) == Some(EnvelopeJson(envCodec, dbFallback(db, id), t, time, unit))
            && var e2 := LogicalExpire(after, t, keyPrefix, id, envCodec, time, unit);
               && e2.result == Returns(dbFallback(db, id)) && e2.issued == []
               && !SubmitsRebuild(after, t, keyPrefix, id, envCodec)
  {
    var key, lockKey := keyPrefix + IntStr(id), LockShopKey + IntStr(id);
    var e := LogicalExpire(ks, now, keyPrefix, id, envCodec, time, unit);
    var task := RebuildFor(key, lockKey, envCodec, dbFallback, id, time, unit);
    var json := EnvelopeJson(envCodec, dbFallback(db, id), t, time, unit);
    assert task.render(db, t) == json;
    var cmds := TaskCommands(task, db, t);
    var mid := Apply(e.keyspace, cmds[0]);
    assert mid == e.keyspace[key := Entry(json, None)];
    assert cmds[1..] == [cmds[1]] && cmds[1..][1..] == [];
    assert Replay(e.keyspace, cmds) == Replay(Apply(mid, cmds[1]), []);
    var after := Replay(e.keyspace, cmds);
    assert after == mid - {lockKey};
    assert Lookup(after, t, key) == Some(json);
    assert envCodec.decode(json) == Some(Envelope(dbFallback(db, id), t + ToMillis(time, unit)));
    assert !IsBlankString(json);
  }

  /** The cache client, for a database whose states are values of D (what the
      rebuild tasks read when they run). */
  class CacheClient<D(!new)> {
    const redis: StringRedis
    /** The tasks submitted to CACHE_REBUILD_EXECUTOR that have not run yet. */
    var rebuilds: seq<RebuildTask<D>>

    constructor (redis: StringRedis)
      ensures this.redis == redis && rebuilds == []
    {
      this.redis := redis;
      rebuilds := [];
    }

    /** set(key, value, time, unit): the JSON of value with a storage TTL. */
    method Set<R>(key: string, value: R, codec: Codec<R>, time: int, unit: TimeUnit) returns (o: Outcome<()>)
      modifies redis`keyspace, redis`log
      ensures o == (if ToMillis(time, unit) > 0 then Returns(()) else Throws(InvalidExpire))
      ensures o.Returns? ==> redis.keyspace == old(redis.keyspace)[key := Entry(codec.encode(value), Some(redis.now + ToMillis(time, unit)))]
      ensures o.Returns? ==> redis.log == old(redis.log) + [Cmd(redis.now, Write(key, codec.encode(value), Some(ToMillis(time, unit))))]
      ensures o.Throws? ==> redis.keyspace == old(redis.keyspace) && redis.log == old(redis.log)
    {
      var accepted := redis.Set(key, codec.encode(value), Some(ToMillis(time, unit)));
      o := if accepted then Returns(()) else Throws(InvalidExpire);
    }

    /** setWithLogicalExpire(key, value, time, unit): an envelope whose expiry is
        now plus the duration, stored without a storage TTL. */
    method SetWithLogicalExpire<R(!new)>(key: string, value: Option<R>, envCodec: Codec<Envelope<R>>, time: int, unit: TimeUnit)
      modifies redis`keyspace, redis`log
      ensures redis.keyspace == old(redis.keyspace)[key := Entry(EnvelopeJson(envCodec, value, redis.now, time, unit), None)]
      ensures redis.log == old(redis.log) + [Cmd(redis.now, Write(key, EnvelopeJson(envCodec, value, redis.now, time, unit), None))]
    {
      var json := EnvelopeJson(envCodec, value, redis.now, time, unit);
      var _ := redis.Set(key, json, None);
    }

    method QueryWithPassThrough<R>(keyPrefix: string, id: int, codec: Codec<R>, fallback: int -> Option<R>,
                                   time: int, unit: TimeUnit) returns (r: Outcome<Option<R>>, ghost fetches: nat)
      modifies redis`keyspace, redis`log
      ensures var e := PassThrough(old(redis.keyspace), redis.now, keyPrefix, id, codec, fallback, time, unit);
              r == e.result && fetches == e.fetches && redis.keyspace == e.keyspace
              && redis.log == old(redis.log) + e.issued
    {
      var key := keyPrefix + IntStr(id);
      var json := redis.Get(key);
      fetches := 0;
      if !IsBlank(json) {
        r := Decoded(codec, json.value);
        return;
      }
      if json.Some? {
        r := Returns(None);
        return;
      }
      var found := fallback(id);
      fetches := 1;
      if found.None? {
        var _ := redis.Set(key, "", Some(NullMarkerTtl()));
        r := Returns(None);
        return;
      }
      var written := Set(key, found.value, codec, time, unit);
      r := if written.Throws? then Throws(written.fault) else Returns(found);
    }

    method QueryWithLogicalExpire<R(!new)>(keyPrefix: string, id: int, envCodec: Codec<Envelope<R>>, dbFallback: (D, int) -> Option<R>,
                                     time: int, unit: TimeUnit) returns (r: Outcome<Option<R>>)
      modifies redis`keyspace, redis`log, this`rebuilds
      ensures var e := LogicalExpire(old(redis.keyspace), redis.now, keyPrefix, id, envCodec, time, unit);
              r == e.result && redis.keyspace == e.keyspace && redis.log == old(redis.log) + e.issued
      ensures rebuilds == old(rebuilds)
                          + if SubmitsRebuild(old(redis.keyspace), redis.now, keyPrefix, id, envCodec)
                            then [RebuildFor(keyPrefix + IntStr(id), ShopLockKey(id), envCodec, dbFallback, id, time, unit)]
                            else []
    {
      var key := keyPrefix + IntStr(id);
      var json := redis.Get(key);
      if IsBlank(json) {
        r := Returns(None);
        return;
      }
      var env := envCodec.decode(json.value);
      if env.None? {
        r := Throws(MalformedJson);
        return;
      }
      var data := env.value.data;
      if env.value.expireTime > redis.now {
        r := Returns(data);
        return;
      }
      var lockKey := ShopLockKey(id);
      var isLock := TryLock(lockKey);
      if isLock {
        rebuilds := rebuilds + [RebuildFor(key, lockKey, envCodec, dbFallback, id, time, unit)];
      }
      r := Returns(data);
    }

    /** The executor running the i-th pending task against the database state
        db it finds then: write, then unlock in `finally`. */
    method RunRebuild(i: nat, db: D)
      requires i < |rebuilds|
      modifies this`rebuilds, redis`keyspace, redis`log
      ensures rebuilds == old(rebuilds[..i] + rebuilds[i + 1..])
      ensures redis.keyspace == old(redis.keyspace)[old(rebuilds[i]).key := Entry(old(rebuilds[i]).render(db, redis.now), None)]
                                - {old(rebuilds[i]).lockKey}
      ensures redis.log == old(redis.log) + TaskCommands(old(rebuilds[i]), db, redis.now)
    {
      var task := rebuilds[i];
      rebuilds := rebuilds[..i] + rebuilds[i + 1..];
      var _ := redis.Set(task.key, task.render(db, redis.now), None);
      UnLock(task.lockKey);
    }

    /** tryLock(key): SET key "1" NX with a 10 second lease. */
    method TryLock(key: string) returns (ok: bool)
      modifies redis`keyspace, redis`log
      ensures ok == Lookup(old(redis.keyspace), redis.now, key).None?
      ensures redis.keyspace == Apply(old(redis.keyspace), Cmd(redis.now, WriteIfAbsent(key, "1", RebuildLease)))
      ensures redis.log == old(redis.log) + [Cmd(redis.now, WriteIfAbsent(key, "1", RebuildLease))]
    {
      var _, flag := redis.SetIfAbsent(key, "1", RebuildLease);
      ok := flag;
    }

    /** unLock(key): delete the key, whoever set it. */
    method UnLock(key: string)
      modifies redis`keyspace, redis`log
      ensures redis.keyspace == old(redis.keyspace) - {key}
      ensures redis.log == old(redis.log) + [Cmd(redis.now, Remove(key))]
    {
      var _ := redis.Delete(key);
    }
  }
}
