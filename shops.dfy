/** ShopServiceImpl: reading a shop through the pass-through cache, the
    mutex-rebuild variant with its retry loop, the logical-expiry warm-up and
    the write path that invalidates the cache. */
module Shops {
  import opened Common
  import opened Keys
  import opened Redis
  import opened Caching

  /** A row of tb_shop: its primary key (null before insertion) and the other
      columns, which the model does not look into. */
  datatype Shop = Shop(id: Option<int>, columns: string)

  /** The messages of `Result.fail`. */
  datatype ShopError =
    | ShopNotFound   // "店铺不存在"
    | MissingId      // "店铺id不能为空"

  /** `getById(id)`: the row, or Java's null. */
  function GetById(shops: map<int, Shop>, id: int): (r: Option<Shop>)
    ensures r.Some? <==> id in shops
    ensures r.Some? ==> r.value == shops[id]
  {
    if id in shops then Some(shops[id]) else None
  }

  /** `this::getById`, the fallback handed to the cache. */
  function Fallback(shops: map<int, Shop>): int -> Option<Shop>
  {
    (i: int) => GetById(shops, i)
  }

  /** A call that may still be inside `while (!isLock)` when the spin budget
      runs out: queryWithMutex has not returned yet. */
  datatype Wait<T> = Done(value: T) | StillSpinning

  /** Milliseconds slept between two attempts: `Thread.sleep(5)`. */
  const SpinPause: int := 5

  /** `tryLock(lockKey)` issued at time t. */
  function LockCmd(lockKey: string, t: int): Cmd
  {
    Cmd(t, WriteIfAbsent(lockKey, "1", RebuildLease))
  }

  /** Where a run of lock attempts ends: whether the lock is held, the store,
      the clock, and the commands issued. */
  datatype Attempts = Attempts(acquired: bool, keyspace: Keyspace, clock: int, issued: seq<Cmd>)

  function Prepend(cmds: seq<Cmd>, a: Attempts): Attempts
  {
    Attempts(a.acquired, a.keyspace, a.clock, cmds + a.issued)
  }

  lemma PrependTwice(a: seq<Cmd>, b: seq<Cmd>, x: Attempts)
    ensures Prepend(a, Prepend(b, x)) == Prepend(a + b, x)
  {
    assert a + (b + x.issued) == (a + b) + x.issued;
  }

  /** One turn of the retry loop. */
  lemma SpinOnce(ks: Keyspace, t: int, lockKey: string, fuel: nat)
    requires fuel > 0
    ensures var c := LockCmd(lockKey, t + SpinPause);
            SpinForLock(ks, t, lockKey, fuel)
            == if Lookup(ks, t + SpinPause, lockKey).None? then Attempts(true, Apply(ks, c), t + SpinPause, [c])
               else Prepend([c], SpinForLock(Apply(ks, c), t + SpinPause, lockKey, fuel - 1))
  {
  }

  /** The retry loop entered at time t with the lock not held: sleep, try
      again, at most `fuel` times. */
  function SpinForLock(ks: Keyspace, t: int, lockKey: string, fuel: nat): (a: Attempts)
    ensures |a.issued| <= fuel && a.clock == t + SpinPause * |a.issued|
    ensures !a.acquired ==> |a.issued| == fuel && a.keyspace == ks
    ensures forall i :: 0 <= i < |a.issued| ==> a.issued[i].op.key == lockKey
    decreases fuel
  {
    if fuel == 0 then Attempts(false, ks, t, [])
    else
      var c := LockCmd(lockKey, t + SpinPause);
      if Lookup(ks, t + SpinPause, lockKey).None? then Attempts(true, Apply(ks, c), t + SpinPause, [c])
      else Prepend([c], SpinForLock(Apply(ks, c), t + SpinPause, lockKey, fuel - 1))
  }

  /** The store the retry loop leaves is the one its commands produce. */
  lemma {:induction false} SpinForLockReplays(ks: Keyspace, t: int, lockKey: string, fuel: nat)
    ensures SpinForLock(ks, t, lockKey, fuel).keyspace == Replay(ks, SpinForLock(ks, t, lockKey, fuel).issued)
    decreases fuel
  {
    if fuel > 0 {
      var c := LockCmd(lockKey, t + SpinPause);
      if Lookup(ks, t + SpinPause, lockKey).Some? {
        var rest := SpinForLock(Apply(ks, c), t + SpinPause, lockKey, fuel - 1);
        SpinForLockReplays(Apply(ks, c), t + SpinPause, lockKey, fuel - 1);
        assert ([c] + rest.issued)[1..] == rest.issued;
      } else {
        assert [c][1..] == [];
      }
    }
  }

  /** Taking the rebuild lock at time now. As written (`doubled`), `tryLock`
      is called twice and only the second answer is kept; the corrected form
      calls it once. Either way the retry loop follows a failed answer. */
  function Acquire(ks: Keyspace, now: int, lockKey: string, maxSpins: nat, doubled: bool): (a: Attempts)
    ensures a.clock >= now
  {
    var c := LockCmd(lockKey, now);
    var ks1 := Apply(ks, c);
    if !doubled then
      if Succeeds(ks, c) then Attempts(true, ks1, now, [c])
      else Prepend([c], SpinForLock(ks1, now, lockKey, maxSpins))
    else
      var ks2 := Apply(ks1, c);
      if Succeeds(ks1, c) then Attempts(true, ks2, now, [c, c])
      else Prepend([c, c], SpinForLock(ks2, now, lockKey, maxSpins))
  }

  /** Attempts that leave the store their commands produce from ks, and whose
      commands all name lockKey. */
  predicate ReplaysOn(ks: Keyspace, lockKey: string, a: Attempts)
  {
    a.keyspace == Replay(ks, a.issued) && forall i :: 0 <= i < |a.issued| ==> a.issued[i].op.key == lockKey
  }

  lemma PrependReplays(ks: Keyspace, c: Cmd, lockKey: string, a: Attempts)
    requires c.op.key == lockKey && ReplaysOn(Apply(ks, c), lockKey, a)
    ensures ReplaysOn(ks, lockKey, Prepend([c], a))
  {
    assert ([c] + a.issued)[1..] == a.issued;
  }

  /** Taking the lock only ever touches the lock key, and leaves the store its
      commands produce. */
  lemma AcquireReplays(ks: Keyspace, now: int, lockKey: string, maxSpins: nat, doubled: bool)
    ensures ReplaysOn(ks, lockKey, Acquire(ks, now, lockKey, maxSpins, doubled))
  {
    var c := LockCmd(lockKey, now);
    var ks1 := Apply(ks, c);
    if !doubled {
      var tail := if Succeeds(ks, c) then Attempts(true, ks1, now, []) else SpinForLock(ks1, now, lockKey, maxSpins);
      SpinForLockReplays(ks1, now, lockKey, maxSpins);
      PrependReplays(ks, c, lockKey, tail);
    } else {
      var ks2 := Apply(ks1, c);
      var tail := if Succeeds(ks1, c) then Attempts(true, ks2, now, []) else SpinForLock(ks2, now, lockKey, maxSpins);
      SpinForLockReplays(ks2, now, lockKey, maxSpins);
      PrependReplays(ks1, c, lockKey, tail);
      PrependReplays(ks, c, lockKey, Prepend([c], tail));
      PrependTwice([c], [c], tail);
    }
  }

  /** The body of the `try` once the lock is held, at time t, and the `finally`
      that releases it: the double check, then the database, then the write. */
  function RebuildUnderLock(ks: Keyspace, t: int, id: int, codec: Codec<Shop>,
                            fallback: int -> Option<Shop>): (e: Effect<Outcome<Option<Shop>>>)
    ensures e.clock == t
    ensures e.keyspace == Replay(ks, e.issued)
    ensures e.fetches == (if IsBlank(Lookup(ks, t, ShopCacheKey(id))) then 1 else 0)
    ensures !IsBlank(Lookup(ks, t, ShopCacheKey(id))) ==> e.result == Decoded(codec, Lookup(ks, t, ShopCacheKey(id)).value)
    ensures IsBlank(Lookup(ks, t, ShopCacheKey(id))) ==>
              e.result == Returns(fallback(id))
              && Lookup(e.keyspace, t, ShopCacheKey(id))
                 == Some(if fallback(id).None? then "" else codec.encode(fallback(id).value))
    ensures |e.issued| >= 1 && e.issued[|e.issued| - 1] == Cmd(t, Remove(ShopLockKey(id)))
    ensures ShopLockKey(id) !in e.keyspace
    // The writes, with their TTLs: CACHE_NULL_TTL minutes for the "" marker,
    // CACHE_SHOP_TTL minutes for the entity; a hit on the double check only unlocks.
    ensures !IsBlank(Lookup(ks, t, ShopCacheKey(id))) ==> e.issued == [Cmd(t, Remove(ShopLockKey(id)))]
    ensures IsBlank(Lookup(ks, t, ShopCacheKey(id))) && fallback(id).None? ==>
              e.issued == [Cmd(t, Write(ShopCacheKey(id), "", Some(ToMillis(CacheNullTtl, Minutes)))),
                           Cmd(t, Remove(ShopLockKey(id)))]
    ensures IsBlank(Lookup(ks, t, ShopCacheKey(id))) && fallback(id).Some? ==>
              e.issued == [Cmd(t, Write(ShopCacheKey(id), codec.encode(fallback(id).value), Some(ToMillis(CacheShopTtl, Minutes)))),
                           Cmd(t, Remove(ShopLockKey(id)))]
  {
    var key, lockKey := ShopCacheKey(id), ShopLockKey(id);
    var json := Lookup(ks, t, key);
    var unlock := Cmd(t, Remove(lockKey));
    LockKeyIsNotCacheKey(CacheShopKey, id, id);
    if !IsBlank(json) then
      Effect(Decoded(codec, json.value), Apply(ks, unlock), t, [unlock], 0)
    else
      var w := match fallback(id)
               case None => Cmd(t, Write(key, "", Some(NullMarkerTtl())))
               case Some(s) => Cmd(t, Write(key, codec.encode(s), Some(ToMillis(CacheShopTtl, Minutes))));
      ReplayTwo(ks, w, unlock);
      Effect(Returns(fallback(id)), Apply(Apply(ks, w), unlock), t, [w, unlock], 1)
  }

  /** queryWithMutex(id), with at most maxSpins turns of the retry loop. */
  function MutexQuery(ks: Keyspace, now: int, id: int, codec: Codec<Shop>, fallback: int -> Option<Shop>,
                      maxSpins: nat, doubled: bool): (e: Effect<Wait<Outcome<Option<Shop>>>>)
    ensures e.clock >= now
    ensures e.result.Done? && e.issued != [] ==>
              e.issued[|e.issued| - 1] == Cmd(e.clock, Remove(ShopLockKey(id))) && ShopLockKey(id) !in e.keyspace
  {
    var key := ShopCacheKey(id);
    var json := Lookup(ks, now, key);
    if !IsBlank(json) then Effect(Done(Decoded(codec, json.value)), ks, now, [], 0)
    else if json.Some? then Effect(Done(Returns(None)), ks, now, [], 0)
    else
      var a := Acquire(ks, now, ShopLockKey(id), maxSpins, doubled);
      if !a.acquired then Effect(StillSpinning, a.keyspace, a.clock, a.issued, 0)
      else
        var b := RebuildUnderLock(a.keyspace, a.clock, id, codec, fallback);
        Effect(Done(b.result), b.keyspace, b.clock, a.issued + b.issued, b.fetches)
  }

  /** Every command a mutex query issues is in its log: the store it leaves is
      the one those commands produce. */
  lemma MutexQueryReplays(ks: Keyspace, now: int, id: int, codec: Codec<Shop>, fallback: int -> Option<Shop>,
                          maxSpins: nat, doubled: bool)
    ensures var e := MutexQuery(ks, now, id, codec, fallback, maxSpins, doubled);
            e.keyspace == Replay(ks, e.issued)
  {
    var a := Acquire(ks, now, ShopLockKey(id), maxSpins, doubled);
    AcquireReplays(ks, now, ShopLockKey(id), maxSpins, doubled);
    if a.acquired {
      var b := RebuildUnderLock(a.keyspace, a.clock, id, codec, fallback);
      ReplayAppend(ks, a.issued, b.issued);
    }
  }

  /** The envelope saveShop2Redis(id, expireSeconds) writes when it reads the
      row from `shops` and then stores at time t: under a faithful codec it
      reads back as that row (or null) expiring expireSeconds after t. */
  function WarmUpJson(envCodec: Codec<Envelope<Shop>>, shops: map<int, Shop>, id: int, t: int, expireSeconds: int): (j: string)
    ensures Faithful(envCodec) ==>
              envCodec.decode(j) == Some(Envelope(if id in shops then Some(shops[id]) else None, t + 1000 * expireSeconds))
  {
    EnvelopeJson(envCodec, GetById(shops, id), t, expireSeconds, Seconds)
  }

  /** `updateById(shop)`: replace the row with the same key; no row, no change. */
  function UpdateRow(shops: map<int, Shop>, id: int, shop: Shop): (r: map<int, Shop>)
    ensures r.Keys == shops.Keys
    ensures id in shops ==> r[id] == shop
    ensures forall k :: k in shops && k != id ==> r[k] == shops[k]
  {
    if id in shops then shops[id := shop] else shops
  }

  // Properties of the mutex variant.

  /** A hit or a marker at the first read takes no lock and calls no database. */
  lemma MutexHitTakesNoLock(ks: Keyspace, now: int, id: int, codec: Codec<Shop>, fallback: int -> Option<Shop>,
                            maxSpins: nat, doubled: bool)
    requires Lookup(ks, now, ShopCacheKey(id)).Some?
    ensures var e := MutexQuery(ks, now, id, codec, fallback, maxSpins, doubled);
            && e.issued == [] && e.fetches == 0 && e.keyspace == ks && e.clock == now
            && e.result == Done(if IsBlank(Lookup(ks, now, ShopCacheKey(id))) then Returns(None)
                                else Decoded(codec, Lookup(ks, now, ShopCacheKey(id)).value))
  {
  }

  /** The retry loop against a lock that expires at x: Redis keeps the lock
      live through the millisecond x, so the loop gets it on the first attempt
      after x, that is after k = floor((x - t) / 5) + 1 sleeps, and runs out
      of budget before that if fuel < k. */
  lemma {:induction false} SpinWaitsForExpiry(ks: Keyspace, t: int, lockKey: string, fuel: nat, x: int)
    requires lockKey in ks && ks[lockKey].expireAt == Some(x) && t <= x
    ensures var a := SpinForLock(ks, t, lockKey, fuel);
            var k := (x - t) / SpinPause + 1;
            && (a.acquired <==> fuel >= k)
            && a.clock == t + SpinPause * (if fuel >= k then k else fuel)
            && (a.acquired ==> a.keyspace == ks[lockKey := Entry("1", Some(t + SpinPause * k + RebuildLease))])
    decreases fuel
  {
    var k := (x - t) / SpinPause + 1;
    assert k >= 1;
    if fuel > 0 {
      if t + SpinPause > x {
        assert k == 1;
      } else {
        var c := LockCmd(lockKey, t + SpinPause);
        assert Lookup(ks, t + SpinPause, lockKey).Some?;
        assert Apply(ks, c) == ks;
        SpinWaitsForExpiry(ks, t + SpinPause, lockKey, fuel - 1, x);
        assert (x - (t + SpinPause)) / SpinPause + 1 == k - 1;
      }
    }
  }

  /** A Redis GET that misses keeps missing as the clock moves on, as long as
      nothing is written. */
  lemma MissStaysMissing(ks: Keyspace, now: int, later: int, key: string)
    requires Lookup(ks, now, key).None? && now <= later
    ensures Lookup(ks, later, key).None?
  {
  }

  /** As written, a miss with the lock free is worst case, not best: the first
      `tryLock` takes the lock, the second fails on it, and the loop sleeps out
      the whole 10 second lease (2001 turns, the last one after the lease's
      final millisecond) before it can take the lock again; with a smaller
      budget it is still spinning. */
  lemma DoubledTryLockWaitsOutLease(ks: Keyspace, now: int, id: int, codec: Codec<Shop>,
                                    fallback: int -> Option<Shop>, maxSpins: nat)
    requires Lookup(ks, now, ShopCacheKey(id)).None?
    requires Lookup(ks, now, ShopLockKey(id)).None?
    ensures var e := MutexQuery(ks, now, id, codec, fallback, maxSpins, true);
            && (maxSpins <= RebuildLease / SpinPause ==> e.result == StillSpinning && e.clock == now + SpinPause * maxSpins)
            && (maxSpins > RebuildLease / SpinPause ==>
                  e.result == Done(Returns(fallback(id))) && e.clock == now + RebuildLease + SpinPause && e.fetches == 1)
  {
    var lockKey := ShopLockKey(id);
    var c := LockCmd(lockKey, now);
    var ks1 := Apply(ks, c);
    assert ks1[lockKey] == Entry("1", Some(now + RebuildLease));
    assert !Succeeds(ks1, c) && Apply(ks1, c) == ks1;
    SpinWaitsForExpiry(ks1, now, lockKey, maxSpins, now + RebuildLease);
    var a := Acquire(ks, now, lockKey, maxSpins, true);
    if a.acquired {
      LockKeyIsNotCacheKey(CacheShopKey, id, id);
      MissStaysMissing(ks, now, now + RebuildLease + SpinPause, ShopCacheKey(id));
      assert Lookup(a.keyspace, now + RebuildLease + SpinPause, ShopCacheKey(id)) == Lookup(ks, now + RebuildLease + SpinPause, ShopCacheKey(id));
      assert a.clock == now + RebuildLease + SpinPause && IsBlank(Lookup(a.keyspace, a.clock, ShopCacheKey(id)));
      var b := RebuildUnderLock(a.keyspace, a.clock, id, codec, fallback);
      assert b.result == Returns(fallback(id)) && b.fetches == 1;
    }
  }

  /** Corrected, the same miss takes the lock at once, asks the database once,
      and answers at the same instant without sleeping. */
  lemma SingleTryLockRebuildsAtOnce(ks: Keyspace, now: int, id: int, codec: Codec<Shop>,
                                    fallback: int -> Option<Shop>, maxSpins: nat)
    requires Lookup(ks, now, ShopCacheKey(id)).None?
    requires Lookup(ks, now, ShopLockKey(id)).None?
    ensures var e := MutexQuery(ks, now, id, codec, fallback, maxSpins, false);
            && e.result == Done(Returns(fallback(id))) && e.clock == now && e.fetches == 1
            && |e.issued| == 3 && e.issued[0] == LockCmd(ShopLockKey(id), now)
  {
    LockKeyIsNotCacheKey(CacheShopKey, id, id);
    var c := LockCmd(ShopLockKey(id), now);
    ApplyOtherKey(ks, c, now, ShopCacheKey(id));
  }

  /** Whichever lock discipline is used, a miss that ends does so with the
      rebuild lock released and the entry written from the database. */
  lemma MutexMissReleasesLockAndCaches(ks: Keyspace, now: int, id: int, codec: Codec<Shop>,
                                       fallback: int -> Option<Shop>, maxSpins: nat, doubled: bool)
    requires Lookup(ks, now, ShopCacheKey(id)).None?
    requires MutexQuery(ks, now, id, codec, fallback, maxSpins, doubled).result.Done?
    ensures var e := MutexQuery(ks, now, id, codec, fallback, maxSpins, doubled);
            && ShopLockKey(id) !in e.keyspace
            && e.result == Done(Returns(fallback(id))) && e.fetches == 1
            && Lookup(e.keyspace, e.clock, ShopCacheKey(id))
               == Some(if fallback(id).None? then "" else codec.encode(fallback(id).value))
  {
    var a := Acquire(ks, now, ShopLockKey(id), maxSpins, doubled);
    AcquireReplays(ks, now, ShopLockKey(id), maxSpins, doubled);
    LockKeyIsNotCacheKey(CacheShopKey, id, id);
    ReplayOtherKey(ks, a.issued, ShopLockKey(id), a.clock, ShopCacheKey(id));
    MissStaysMissing(ks, now, a.clock, ShopCacheKey(id));
  }

  /** Commands that all touch one key leave every other key as it was. */
  lemma {:induction false} ReplayOtherKey(ks: Keyspace, cmds: seq<Cmd>, touched: string, t: int, key: string)
    requires key != touched
    requires forall i :: 0 <= i < |cmds| ==> cmds[i].op.key == touched
    ensures Lookup(Replay(ks, cmds), t, key) == Lookup(ks, t, key)
    decreases |cmds|
  {
    if cmds != [] {
      ApplyOtherKey(ks, cmds[0], t, key);
      ReplayOtherKey(Apply(ks, cmds[0]), cmds[1..], touched, t, key);
    }
  }

  /** A read after an update misses the cache and returns the new row. */
  lemma UpdateThenQuery(ks: Keyspace, t: int, shops: map<int, Shop>, id: int, shop: Shop, codec: Codec<Shop>)
    requires id in shops
    ensures var e := PassThrough(ks - {ShopCacheKey(id)}, t, CacheShopKey, id, codec,
                                 Fallback(UpdateRow(shops, id, shop)), CacheShopTtl, Minutes);
            e.result == Returns(Some(shop)) && e.fetches == 1
  {
  }

  class ShopService {
    const redis: StringRedis
    const cacheClient: CacheClient<map<int, Shop>>
    /** tb_shop, by primary key. */
    var shops: map<int, Shop>
    /** `JSONUtil` for Shop and for RedisData holding a Shop. */
    const codec: Codec<Shop>
    const envCodec: Codec<Envelope<Shop>>

    constructor (redis: StringRedis, shops: map<int, Shop>, codec: Codec<Shop>, envCodec: Codec<Envelope<Shop>>)
      ensures this.redis == redis && cacheClient.redis == redis && fresh(cacheClient)
      ensures this.shops == shops && this.codec == codec && this.envCodec == envCodec
    {
      this.redis := redis;
      cacheClient := new CacheClient<map<int, Shop>>(redis);
      this.shops := shops;
      this.codec := codec;
      this.envCodec := envCodec;
    }

    /** queryById(id): the pass-through read, then "shop not found" for null. */
    method QueryById(id: int) returns (r: Outcome<Result<Shop, ShopError>>)
      requires cacheClient.redis == redis
      modifies redis`keyspace, redis`log
      ensures var e := PassThrough(old(redis.keyspace), redis.now, CacheShopKey, id, codec, Fallback(shops), CacheShopTtl, Minutes);
              && redis.keyspace == e.keyspace && redis.log == old(redis.log) + e.issued
              && (e.result.Throws? ==> r == Throws(e.result.fault))
              && (e.result == Returns(None) ==> r == Returns(Fail(ShopNotFound)))
              && (e.result.Returns? && e.result.value.Some? ==> r == Returns(Ok(e.result.value.value)))
    {
      var shop, _ := cacheClient.QueryWithPassThrough(CacheShopKey, id, codec, Fallback(shops), CacheShopTtl, Minutes);
      if shop.Throws? {
        r := Throws(shop.fault);
      } else if shop.value.None? {
        r := Returns(Fail(ShopNotFound));
      } else {
        r := Returns(Ok(shop.value.value));
      }
    }

    /** queryWithMutex(id) as written, giving up after maxSpins turns of the loop. */
    method QueryWithMutex(id: int, maxSpins: nat) returns (r: Wait<Outcome<Option<Shop>>>, ghost fetches: nat)
      modifies redis`keyspace, redis`log, redis`now
      ensures var e := MutexQuery(old(redis.keyspace), old(redis.now), id, codec, Fallback(shops), maxSpins, true);
              r == e.result && fetches == e.fetches && redis.keyspace == e.keyspace
              && redis.now == e.clock && redis.log == old(redis.log) + e.issued
    {
      var key := ShopCacheKey(id);
      var shopJson := redis.Get(key);
      if !IsBlank(shopJson) {
        r, fetches := Done(Decoded(codec, shopJson.value)), 0;
        return;
      }
      if shopJson.Some? {
        r, fetches := Done(Returns(None)), 0;
        return;
      }
      var isLock := LockDoubled(ShopLockKey(id), maxSpins);
      if !isLock {
        r, fetches := StillSpinning, 0;
        return;
      }
      var shop;
      shop, fetches := RebuildLocked(id);
      r := Done(shop);
    }

    /** queryWithMutex(id) with a single `tryLock` before the loop. */
    method QueryWithMutexFixed(id: int, maxSpins: nat) returns (r: Wait<Outcome<Option<Shop>>>, ghost fetches: nat)
      modifies redis`keyspace, redis`log, redis`now
      ensures var e := MutexQuery(old(redis.keyspace), old(redis.now), id, codec, Fallback(shops), maxSpins, false);
              r == e.result && fetches == e.fetches && redis.keyspace == e.keyspace
              && redis.now == e.clock && redis.log == old(redis.log) + e.issued
    {
      var key := ShopCacheKey(id);
      var shopJson := redis.Get(key);
      if !IsBlank(shopJson) {
        r, fetches := Done(Decoded(codec, shopJson.value)), 0;
        return;
      }
      if shopJson.Some? {
        r, fetches := Done(Returns(None)), 0;
        return;
      }
      var isLock := LockOnce(ShopLockKey(id), maxSpins);
      if !isLock {
        r, fetches := StillSpinning, 0;
        return;
      }
      var shop;
      shop, fetches := RebuildLocked(id);
      r := Done(shop);
    }

    /** Taking the lock as written: two `tryLock` calls, only the second
        answer kept, then the retry loop. */
    method LockDoubled(lockKey: string, maxSpins: nat) returns (isLock: bool)
      modifies redis`keyspace, redis`log, redis`now
      ensures var a := Acquire(old(redis.keyspace), old(redis.now), lockKey, maxSpins, true);
              isLock == a.acquired && redis.keyspace == a.keyspace && redis.now == a.clock
              && redis.log == old(redis.log) + a.issued
    {
      var _ := TryLock(lockKey);
      isLock := TryLock(lockKey);
      if !isLock {
        isLock := Spin(lockKey, maxSpins);
      }
    }

    /** Taking the lock with one `tryLock`, then the retry loop. */
    method LockOnce(lockKey: string, maxSpins: nat) returns (isLock: bool)
      modifies redis`keyspace, redis`log, redis`now
      ensures var a := Acquire(old(redis.keyspace), old(redis.now), lockKey, maxSpins, false);
              isLock == a.acquired && redis.keyspace == a.keyspace && redis.now == a.clock
              && redis.log == old(redis.log) + a.issued
    {
      isLock := TryLock(lockKey);
      if !isLock {
        isLock := Spin(lockKey, maxSpins);
      }
    }

    /** `while (!isLock) { Thread.sleep(5); isLock = tryLock(lockKey); }`,
        entered with the lock not held, for at most maxSpins turns. */
    method Spin(lockKey: string, maxSpins: nat) returns (isLock: bool)
      modifies redis`keyspace, redis`log, redis`now
      ensures var a := SpinForLock(old(redis.keyspace), old(redis.now), lockKey, maxSpins);
              isLock == a.acquired && redis.keyspace == a.keyspace && redis.now == a.clock
              && redis.log == old(redis.log) + a.issued
    {
      ghost var goal := SpinForLock(redis.keyspace, redis.now, lockKey, maxSpins);
      ghost var done: seq<Cmd> := [];
      isLock := false;
      var spins := 0;
      while !isLock && spins < maxSpins
        invariant spins <= maxSpins
        invariant redis.log == old(redis.log) + done
        invariant !isLock ==> goal == Prepend(done, SpinForLock(redis.keyspace, redis.now, lockKey, maxSpins - spins))
        invariant isLock ==> goal == Attempts(true, redis.keyspace, redis.now, done)
        decreases maxSpins - spins
      {
        ghost var ks0, t0 := redis.keyspace, redis.now;
        ghost var c := LockCmd(lockKey, t0 + SpinPause);
        ghost var rest := SpinForLock(Apply(ks0, c), t0 + SpinPause, lockKey, maxSpins - spins - 1);
        SpinOnce(ks0, t0, lockKey, maxSpins - spins);
        PrependTwice(done, [c], rest);
        redis.Sleep(SpinPause);
        isLock := TryLock(lockKey);
        done := done + [c];
        spins := spins + 1;
      }
    }

    /** The double check, the database read, the write and the unlock in
        `finally`, once the lock is held. */
    method RebuildLocked(id: int) returns (r: Outcome<Option<Shop>>, ghost fetches: nat)
      modifies redis`keyspace, redis`log
      ensures var e := RebuildUnderLock(old(redis.keyspace), redis.now, id, codec, Fallback(shops));
              r == e.result && fetches == e.fetches && redis.keyspace == e.keyspace
              && redis.log == old(redis.log) + e.issued
    {
      var key, lockKey := ShopCacheKey(id), ShopLockKey(id);
      var shopJson := redis.Get(key);
      if !IsBlank(shopJson) {
        r, fetches := Decoded(codec, shopJson.value), 0;
        UnLock(lockKey);
        return;
      }
      var shop := GetById(shops, id);
      fetches := 1;
      if shop.None? {
        var _ := redis.Set(key, "", Some(NullMarkerTtl()));
        r := Returns(None);
        UnLock(lockKey);
        return;
      }
      var _ := redis.Set(key, codec.encode(shop.value), Some(ToMillis(CacheShopTtl, Minutes)));
      r := Returns(shop);
      UnLock(lockKey);
    }

    /** tryLock(key): SET key "1" NX with a 10 second lease. */
    method TryLock(key: string) returns (ok: bool)
      modifies redis`keyspace, redis`log
      ensures ok == Lookup(old(redis.keyspace), redis.now, key).None?
      ensures redis.keyspace == Apply(old(redis.keyspace), LockCmd(key, redis.now))
      ensures redis.log == old(redis.log) + [LockCmd(key, redis.now)]
    {
      var _, flag := redis.SetIfAbsent(key, "1", RebuildLease);
      ok := flag;
    }

    /** unLock(key): delete the key. */
    method UnLock(key: string)
      modifies redis`keyspace, redis`log
      ensures redis.keyspace == old(redis.keyspace) - {key}
      ensures redis.log == old(redis.log) + [Cmd(redis.now, Remove(key))]
    {
      var _ := redis.Delete(key);
    }

    /** saveShop2Redis(id, expireSeconds): read the row, sleep 200 ms, store the
        envelope expiring expireSeconds after that, with no storage TTL. */
    method SaveShop2Redis(id: int, expireSeconds: int)
      modifies redis`keyspace, redis`log, redis`now
      ensures redis.now == old(redis.now) + 200
      ensures redis.keyspace == old(redis.keyspace)[ShopCacheKey(id) := Entry(WarmUpJson(envCodec, shops, id, redis.now, expireSeconds), None)]
      ensures redis.log == old(redis.log) + [Cmd(redis.now, Write(ShopCacheKey(id), WarmUpJson(envCodec, shops, id, redis.now, expireSeconds), None))]
    {
      var shop := GetById(shops, id);
      redis.Sleep(200);
      var json := EnvelopeJson(envCodec, shop, redis.now, expireSeconds, Seconds);
      var _ := redis.Set(ShopCacheKey(id), json, None);
    }

    /** update(shop): refuse a shop without id; otherwise write the row, then
        delete the cached entry. */
    method Update(shop: Shop) returns (r: Result<(), ShopError>)
      modifies this`shops, redis`keyspace, redis`log
      ensures shop.id.None? ==> r == Fail(MissingId) && shops == old(shops)
                                && redis.keyspace == old(redis.keyspace) && redis.log == old(redis.log)
      ensures shop.id.Some? ==> r == Ok(()) && shops == UpdateRow(old(shops), shop.id.value, shop)
                                && redis.keyspace == old(redis.keyspace) - {ShopCacheKey(shop.id.value)}
                                && redis.log == old(redis.log) + [Cmd(redis.now, Remove(ShopCacheKey(shop.id.value)))]
    {
      if shop.id.None? {
        return Fail(MissingId);
      }
      var id := shop.id.value;
      shops := UpdateRow(shops, id, shop);
      var _ := redis.Delete(ShopCacheKey(id));
      r := Ok(());
    }
  }
}
