# hm-dianping cache and lock core, in Dafny

This project models the caching and locking core of hm-dianping, a
Spring Boot service for shop reviews and flash sales:

- `CacheClient` is a read-through cache over Redis. It comes in two
  variants:
  - the **pass-through** variant stores the empty string `""` as a marker
    for an id the database does not have, so repeated misses stop reaching
    the database;
  - the **logical-expiry** variant keeps entries without a storage TTL and
    puts the expiry inside the JSON envelope (`RedisData`). A stale read is
    answered at once with the old data. The rebuild is handed to a
    background executor under a set-if-absent lock.
- `ShopServiceImpl` reads shops through the pass-through cache. It also
  holds the mutex-rebuild variant (`queryWithMutex`) with its sleep-and-retry
  loop, the warm-up `saveShop2Redis`, and `update`, which writes the row and
  then deletes the cache entry.
- `SimpleRedisLock` is a lease lock on one Redis key.
  - The token is a per-process prefix followed by the thread id.
  - Acquiring is `SET NX` with a TTL.
  - Releasing is a script that deletes the key only while it still holds
    the caller's token.
- `VoucherOrderServiceImpl` runs the flash-sale ("seckill") order. A request:
  1. checks the sale window and the stock;
  2. takes the user's `SimpleRedisLock`;
  3. refuses a second order of the same user;
  4. decrements the stock only while it is positive;
  5. inserts the order.

How the model represents the system:

- **Redis** (`redis.dfy`) is a map from key to `Entry(value, expireAt)` with
  a millisecond clock.
  - Expiry is lazy: an expired entry stays in the map, but `Lookup` treats it
    as absent.
  - As in Redis, an entry is still live at its expiry millisecond and gone
    only once the clock is past it (`Redis.Live`).
  - Each command is one atomic `Cmd` applied by `Apply`.
  - The class `StringRedis` keeps a ghost log of the commands it ran.
- **Database tables** are maps and sequences held in the service classes.
- **JSON** is an abstract `Codec` (an encode function and a partial decode
  function). The lemmas that need a faithful codec say so with the
  `Faithful` predicate.
- **Each imperative method** is tied by its `ensures` to a pure function.
  That function returns the call's effect:
  - the result;
  - the new store and clock;
  - the commands issued;
  - the number of database reads.

  Whether a logical-expiry read submits a rebuild is the predicate
  `SubmitsRebuild`. The lemmas about these functions state what each variant guarantees.
- **Concurrent seckill requests** are modelled in `order_concurrency.dfy`.
  Each request is cut into its atomic store and database steps, and a
  schedule picks which request moves next. An invariant preserved over every
  schedule gives three guarantees:
  - no negative stock;
  - stock is conserved;
  - at most one order per user and voucher.

  A request run alone does exactly what the sequential `Seckill` does.

Some behaviours of the code run against its evident intent. The model keeps
them as written:

- **Unbounded retry loop.** The mutex variant loops `while (!isLock)` with no
  bound, so a read can wait forever.
  - The model gives the loop a budget `maxSpins`.
  - When the budget runs out, the result is `StillSpinning`, meaning
    `queryWithMutex` has not returned yet.
- **Shared rebuild lock.** `CacheClient.queryWithLogicalExpire` takes a key
  prefix, yet it always locks `LOCK_SHOP_KEY + id`, whatever that prefix is.
  - The model does the same.
  - `Caching.OneRebuildInFlight` shows the consequence: two key spaces with
    the same id share one rebuild lock.
- **Missing voucher.** `seckillVoucher` does not check the null that
  `getById` returns for an unknown voucher; it reads its begin time at once.
  - The model answers `Throws(NullPointer)`.
- **Lock tokens.** A `SimpleRedisLock` token is per thread, not per
  acquisition.
  - `Locks.NotReentrant` shows that the holder's own second attempt fails.

## Model

| member | source | states |
|---|---|---|
| Keys.NatStrInjective | hm-dianping/src/main/java/com/hmdp/utils/CacheClient.java:49 | two naturals with the same decimal string are equal, so a key built from an id names that id alone |
| Keys.IntStrInjective | hm-dianping/src/main/java/com/hmdp/utils/CacheClient.java:49 | `Long.toString` with its minus sign is injective |
| Keys.PrefixedIdInjective | hm-dianping/src/main/java/com/hmdp/service/impl/ShopServiceImpl.java:146 | a fixed prefix followed by an id determines the id |
| Keys.LockKeyIsNotCacheKey | hm-dianping/src/main/java/com/hmdp/service/impl/ShopServiceImpl.java:146-160 | the rebuild lock key `lock:shop:<id>` never equals a cache key whose prefix starts with `c` |
| Redis.Apply | hm-dianping/src/main/java/com/hmdp/utils/CacheClient.java:124-131 | a Redis command changes at most its own key |
| Redis.ReplayAppend | hm-dianping/src/main/java/com/hmdp/service/impl/ShopServiceImpl.java:162-195 | running two command sequences one after the other equals running their concatenation |
| Redis.ReplayTwo | hm-dianping/src/main/java/com/hmdp/service/impl/ShopServiceImpl.java:184-194 | a write followed by the unlock is the two commands applied in order |
| Redis.ApplyOtherKey | hm-dianping/src/main/java/com/hmdp/utils/CacheClient.java:124-131 | a command on one key does not change what a GET of another key sees |
| Redis.StringRedis.constructor | hm-dianping/src/main/java/com/hmdp/utils/CacheClient.java:28-30 | the store starts with the given contents and clock and an empty log |
| Redis.StringRedis.Get | hm-dianping/src/main/java/com/hmdp/utils/CacheClient.java:51 | GET returns the live value or null, and changes nothing |
| Redis.StringRedis.Set | hm-dianping/src/main/java/com/hmdp/utils/CacheClient.java:33-35 | SET with a TTL that is not positive is refused and changes nothing; otherwise the entry is replaced and the command logged |
| Redis.StringRedis.SetIfAbsent | hm-dianping/src/main/java/com/hmdp/service/impl/ShopServiceImpl.java:201-204 | SET NX reports true exactly when no live entry existed, and then stores the value with its lease |
| Redis.StringRedis.Delete | hm-dianping/src/main/java/com/hmdp/service/impl/ShopServiceImpl.java:206-208 | DEL removes the key, whoever wrote it |
| Redis.StringRedis.DeleteIfHeld | hm-dianping/src/main/java/com/hmdp/utils/SimpleRedisLock.java:43-48 | the unlock script deletes the key exactly when it holds the given token |
| Redis.StringRedis.Sleep | hm-dianping/src/main/java/com/hmdp/service/impl/ShopServiceImpl.java:168 | `Thread.sleep(ms)` advances the clock by ms and touches nothing else |
| Caching.Decoded | hm-dianping/src/main/java/com/hmdp/utils/CacheClient.java:55 | `JSONUtil.toBean` returns the decoded value, or throws exactly when the JSON does not decode |
| Caching.EnvelopeJson | hm-dianping/src/main/java/com/hmdp/utils/CacheClient.java:39-43 | the `RedisData` JSON written at time t reads back, under a faithful codec, as the value with logical expiry t plus the duration; `Caching.LogicalEnvelopeReadBack` shows a logical-expiry read serves it |
| Caching.RebuildFor | hm-dianping/src/main/java/com/hmdp/utils/CacheClient.java:105-117 | the executor task keeps the cache key and the lock key, and the envelope it renders when run at t against database state db reads back as what `dbFallback` finds in db, expiring the duration after t; `Caching.RebuildRefreshes` shows the task writes it and frees the lock |
| Caching.PassThrough | hm-dianping/src/main/java/com/hmdp/utils/CacheClient.java:48-76 | a pass-through read issues at most one write and at most one database read, touches only its own key, and never moves the clock |
| Caching.LogicalExpire | hm-dianping/src/main/java/com/hmdp/utils/CacheClient.java:78-121 | a logical-expiry read never reads the database, issues at most one command, and touches only the rebuild lock; it submits a rebuild (`SubmitsRebuild`) exactly when it issued a lock attempt and that attempt succeeded |
| Caching.SubmitsRebuild | hm-dianping/src/main/java/com/hmdp/utils/CacheClient.java:99-102 | a rebuild is submitted only when the read's `tryLock(LOCK_SHOP_KEY + id)` succeeds; `Caching.LogicalExpire` ties it both ways to that tryLock issued on an expired envelope |
| Caching.PassThroughHit | hm-dianping/src/main/java/com/hmdp/utils/CacheClient.java:51-56 | a non-blank entry is decoded and returned with no database read and no write |
| Caching.PassThroughMarker | hm-dianping/src/main/java/com/hmdp/utils/CacheClient.java:59-61 | a present blank entry answers null with no database read and no write |
| Caching.PassThroughCachesAbsence | hm-dianping/src/main/java/com/hmdp/utils/CacheClient.java:63-71 | a miss for an id the database lacks reads it once and writes the `""` marker with the null TTL; every read within that TTL answers null without a database read, whatever the database then holds |
| Caching.PassThroughCachesEntity | hm-dianping/src/main/java/com/hmdp/utils/CacheClient.java:63-75 | a miss for a present id stores its JSON with the TTL; a read within the TTL returns the same entity without a database read |
| Caching.LogicalEnvelopeReadBack | hm-dianping/src/main/java/com/hmdp/utils/CacheClient.java:38-45 | an envelope written by setWithLogicalExpire reads back as its value, and the read issues nothing exactly while its logical expiry lies ahead |
| Caching.LogicalExpireBlank | hm-dianping/src/main/java/com/hmdp/utils/CacheClient.java:81-86 | a missing or blank entry answers null and changes nothing |
| Caching.LogicalExpireFresh | hm-dianping/src/main/java/com/hmdp/utils/CacheClient.java:88-96 | an envelope whose expiry is after now returns its data and issues nothing |
| Caching.LogicalExpireStale | hm-dianping/src/main/java/com/hmdp/utils/CacheClient.java:97-120 | an expired envelope returns its stale data, issues one tryLock, and submits a rebuild exactly when the lock was free |
| Caching.OneRebuildInFlight | hm-dianping/src/main/java/com/hmdp/utils/CacheClient.java:99-102 | a second stale read within the lease submits no rebuild, for any prefix and codec with the same id |
| Caching.RebuildRefreshes | hm-dianping/src/main/java/com/hmdp/utils/CacheClient.java:102-117 | the submitted task, run at any later time against the database as it is then, stores an envelope of what the database holds at that moment (not at submission), expiring the duration after the run, and releases the lock; a read right after returns that data with nothing issued and no rebuild |
| Caching.CacheClient.constructor | hm-dianping/src/main/java/com/hmdp/utils/CacheClient.java:28-30 | the client wraps the given template and has no pending rebuilds |
| Caching.CacheClient.Set | hm-dianping/src/main/java/com/hmdp/utils/CacheClient.java:33-35 | the JSON of the value is stored with the TTL; a TTL that is not positive throws and changes nothing |
| Caching.CacheClient.SetWithLogicalExpire | hm-dianping/src/main/java/com/hmdp/utils/CacheClient.java:38-45 | the envelope expiring now plus the duration is stored without a storage TTL |
| Caching.CacheClient.QueryWithPassThrough | hm-dianping/src/main/java/com/hmdp/utils/CacheClient.java:48-76 | result, store, log and database reads are those of `PassThrough` |
| Caching.CacheClient.QueryWithLogicalExpire | hm-dianping/src/main/java/com/hmdp/utils/CacheClient.java:78-121 | result, store and log are those of `LogicalExpire`; the rebuild queue grows by the task for this key exactly when `SubmitsRebuild` holds |
| Caching.CacheClient.RunRebuild | hm-dianping/src/main/java/com/hmdp/utils/CacheClient.java:105-117 | the executor runs one pending task against the database state it is given: it writes the envelope rendered from that state, deletes the lock in `finally`, and removes the task from the queue |
| Caching.CacheClient.TryLock | hm-dianping/src/main/java/com/hmdp/utils/CacheClient.java:124-127 | tryLock succeeds exactly when the lock key is free and then holds it for 10 s |
| Caching.CacheClient.UnLock | hm-dianping/src/main/java/com/hmdp/utils/CacheClient.java:129-131 | unLock deletes the lock key |
| Shops.GetById | hm-dianping/src/main/java/com/hmdp/service/impl/ShopServiceImpl.java:178 | `getById` finds the row exactly when the id is in the table |
| Shops.SpinForLock | hm-dianping/src/main/java/com/hmdp/service/impl/ShopServiceImpl.java:166-170 | every turn sleeps 5 ms and issues one tryLock on the lock key; without the lock the whole budget is spent and the store is unchanged |
| Shops.SpinForLockReplays | hm-dianping/src/main/java/com/hmdp/service/impl/ShopServiceImpl.java:166-170 | the store the loop leaves is the one its commands produce |
| Shops.Acquire | hm-dianping/src/main/java/com/hmdp/service/impl/ShopServiceImpl.java:163-170 | taking the lock never moves the clock backwards |
| Shops.AcquireReplays | hm-dianping/src/main/java/com/hmdp/service/impl/ShopServiceImpl.java:163-170 | taking the lock touches only the lock key and leaves the store its commands produce |
| Shops.RebuildUnderLock | hm-dianping/src/main/java/com/hmdp/service/impl/ShopServiceImpl.java:171-195 | the double check returns a present entry without a database read and only unlocks; otherwise the database is read once and its answer returned, and the commands are exactly the write of `""` with CACHE_NULL_TTL (2 minutes) for a missing row, or of the JSON with CACHE_SHOP_TTL (30 minutes) for a found one, then the unlock |
| Shops.MutexQuery | hm-dianping/src/main/java/com/hmdp/service/impl/ShopServiceImpl.java:145-198 | a mutex read never moves the clock backwards, and when it returns after issuing commands it has released the lock |
| Shops.MutexQueryReplays | hm-dianping/src/main/java/com/hmdp/service/impl/ShopServiceImpl.java:145-198 | the store a mutex read leaves is the one its commands produce |
| Shops.UpdateRow | hm-dianping/src/main/java/com/hmdp/service/impl/ShopServiceImpl.java:231 | `updateById` replaces the row with that key and leaves every other row |
| Shops.WarmUpJson | hm-dianping/src/main/java/com/hmdp/service/impl/ShopServiceImpl.java:216-218 | the envelope `saveShop2Redis` writes at time t reads back, under a faithful codec, as the row (or null when there is none) expiring expireSeconds after t |
| Shops.MutexHitTakesNoLock | hm-dianping/src/main/java/com/hmdp/service/impl/ShopServiceImpl.java:148-157 | a hit or marker at the first read takes no lock, reads no database and answers at once |
| Shops.SpinWaitsForExpiry | hm-dianping/src/main/java/com/hmdp/service/impl/ShopServiceImpl.java:166-170 | against a lock expiring at x (live through that millisecond) the loop takes it after exactly floor((x-t)/5)+1 sleeps, or is still spinning when the budget is smaller |
| Shops.MissStaysMissing | hm-dianping/src/main/java/com/hmdp/service/impl/ShopServiceImpl.java:172 | a GET that misses keeps missing as the clock moves on |
| Shops.DoubledTryLockWaitsOutLease | hm-dianping/src/main/java/com/hmdp/service/impl/ShopServiceImpl.java:163-170 | as written, a miss with the lock free waits out the whole 10 s lease (2001 sleeps, answering 10005 ms after the call) before it reads the database; with at most 2000 turns of budget it is still spinning |
| Shops.SingleTryLockRebuildsAtOnce | hm-dianping/src/main/java/com/hmdp/service/impl/ShopServiceImpl.java:164-195 | with one tryLock the same miss takes the lock at once, reads the database once and answers without sleeping |
| Shops.MutexMissReleasesLockAndCaches | hm-dianping/src/main/java/com/hmdp/service/impl/ShopServiceImpl.java:162-195 | a miss that returns has released the lock, read the database once, and cached its answer |
| Shops.ReplayOtherKey | hm-dianping/src/main/java/com/hmdp/service/impl/ShopServiceImpl.java:163-170 | commands on the lock key leave the cache entry as it was |
| Shops.UpdateThenQuery | hm-dianping/src/main/java/com/hmdp/service/impl/ShopServiceImpl.java:225-235 | after update deletes the entry, the next read returns the new row after one database read |
| Shops.ShopService.constructor | hm-dianping/src/main/java/com/hmdp/service/impl/ShopServiceImpl.java:39-46 | the service shares its template with its CacheClient |
| Shops.ShopService.QueryById | hm-dianping/src/main/java/com/hmdp/service/impl/ShopServiceImpl.java:49-63 | the pass-through read of `cache:shop:<id>` with a 30 minute TTL; null becomes "shop not found" |
| Shops.ShopService.QueryWithMutex | hm-dianping/src/main/java/com/hmdp/service/impl/ShopServiceImpl.java:145-198 | result, clock, store, log and database reads are those of `MutexQuery` with the doubled tryLock |
| Shops.ShopService.QueryWithMutexFixed | hm-dianping/src/main/java/com/hmdp/service/impl/ShopServiceImpl.java:145-198 | the same with a single tryLock |
| Shops.ShopService.LockDoubled | hm-dianping/src/main/java/com/hmdp/service/impl/ShopServiceImpl.java:163-170 | two tryLock calls, only the second answer kept, then the loop: the outcome of `Acquire` as written |
| Shops.ShopService.LockOnce | hm-dianping/src/main/java/com/hmdp/service/impl/ShopServiceImpl.java:164-170 | one tryLock, then the loop: the outcome of the corrected `Acquire` |
| Shops.ShopService.Spin | hm-dianping/src/main/java/com/hmdp/service/impl/ShopServiceImpl.java:166-170 | the retry loop ends with the lock, store, clock and log of `SpinForLock` |
| Shops.ShopService.RebuildLocked | hm-dianping/src/main/java/com/hmdp/service/impl/ShopServiceImpl.java:171-195 | the locked section does what `RebuildUnderLock` says |
| Shops.ShopService.TryLock | hm-dianping/src/main/java/com/hmdp/service/impl/ShopServiceImpl.java:201-204 | tryLock succeeds exactly when the key is free and then holds it for 10 s |
| Shops.ShopService.UnLock | hm-dianping/src/main/java/com/hmdp/service/impl/ShopServiceImpl.java:206-208 | unLock deletes the key |
| Shops.ShopService.SaveShop2Redis | hm-dianping/src/main/java/com/hmdp/service/impl/ShopServiceImpl.java:211-221 | the row is read, 200 ms pass, and the envelope expiring expireSeconds later is stored without a storage TTL |
| Shops.ShopService.Update | hm-dianping/src/main/java/com/hmdp/service/impl/ShopServiceImpl.java:225-235 | a shop without id is refused and nothing changes; otherwise the row is replaced and the cache entry deleted |
| Locks.AcquireIsExclusive | hm-dianping/src/main/java/com/hmdp/utils/SimpleRedisLock.java:31-38 | acquiring succeeds exactly when nobody holds the lock, then holds the token for the lease; a failed attempt changes nothing |
| Locks.NotReentrant | hm-dianping/src/main/java/com/hmdp/utils/SimpleRedisLock.java:33-37 | the holder's own second attempt within the lease fails |
| Locks.OnlyHolderReleases | hm-dianping/src/main/java/com/hmdp/utils/SimpleRedisLock.java:43-48 | unlock deletes the key exactly when it holds the caller's token, and otherwise changes nothing |
| Locks.StaleReleaseKeepsNewLease | hm-dianping/src/main/java/com/hmdp/utils/SimpleRedisLock.java:43-48 | after A's lease ran out (the clock past its last millisecond) and B took the lock, A's unlock during B's lease leaves B's lease in place |
| Locks.ReleaseFreesLock | hm-dianping/src/main/java/com/hmdp/utils/SimpleRedisLock.java:35-47 | acquire then unlock by the same holder lets the next attempt by anyone succeed |
| Locks.TokensOfOneProcessDiffer | hm-dianping/src/main/java/com/hmdp/utils/SimpleRedisLock.java:33 | two threads of one process have different tokens |
| Locks.Token | hm-dianping/src/main/java/com/hmdp/utils/SimpleRedisLock.java:33 | `ID_PREFIX + threadId` starts with the process prefix and is longer than it |
| Locks.AcquireCmd | hm-dianping/src/main/java/com/hmdp/utils/SimpleRedisLock.java:33-35 | the SET NX of `tryLock` succeeds exactly when no one holds the key, and the token then stays there through the whole lease |
| Locks.ReleaseCmd | hm-dianping/src/main/java/com/hmdp/utils/SimpleRedisLock.java:45-47 | the unlock script deletes the key exactly when it holds the caller's token and otherwise changes nothing |
| Locks.TokensOfTwoProcessesDiffer | hm-dianping/src/main/java/com/hmdp/utils/SimpleRedisLock.java:17 | threads of two processes with different prefixes of one length have different tokens |
| Locks.LeaseExcludesOthers | hm-dianping/src/main/java/com/hmdp/utils/SimpleRedisLock.java:31-48 | while the lease lasts, no interleaving of foreign acquires, foreign unlocks and commands on other keys takes the lock from its holder |
| Locks.SimpleRedisLock.constructor | hm-dianping/src/main/java/com/hmdp/utils/SimpleRedisLock.java:25-28 | the lock keeps its name and template |
| Locks.SimpleRedisLock.TryLock | hm-dianping/src/main/java/com/hmdp/utils/SimpleRedisLock.java:31-38 | SET NX of the thread's token with the timeout in seconds; true exactly when the key was free; a timeout that is not positive throws |
| Locks.SimpleRedisLock.Unlock | hm-dianping/src/main/java/com/hmdp/utils/SimpleRedisLock.java:43-48 | the unlock script for the thread's token, as one command |
| Orders.OrderLockKeysDiffer | hm-dianping/src/main/java/com/hmdp/service/impl/VoucherOrderServiceImpl.java:68 | different users have different order locks |
| Orders.Admission | hm-dianping/src/main/java/com/hmdp/service/impl/VoucherOrderServiceImpl.java:47-58 | not started exactly before the begin time, ended exactly after the end time, out of stock exactly inside the window with stock below 1, admitted otherwise |
| Orders.CountOrders | hm-dianping/src/main/java/com/hmdp/service/impl/VoucherOrderServiceImpl.java:86 | the count of orders of a user and voucher is at most the number of orders, and is zero exactly when no order has that user and voucher |
| Orders.CountAppend | hm-dianping/src/main/java/com/hmdp/service/impl/VoucherOrderServiceImpl.java:86 | appending an order adds one to the count of its user and voucher and to the voucher's sales |
| Orders.CreateOrder | hm-dianping/src/main/java/com/hmdp/service/impl/VoucherOrderServiceImpl.java:83-108 | an order is created exactly when the user has none of the voucher and its stock is positive; "already purchased" exactly when the user has one; "out of stock" exactly when the user has none and the stock is not positive; a created order is appended and the stock drops by one; a refusal changes nothing |
| Orders.Seckill | hm-dianping/src/main/java/com/hmdp/service/impl/VoucherOrderServiceImpl.java:43-80 | an unknown voucher throws and changes nothing; a refused check answers its refusal and changes nothing; an admitted request whose user lock is held answers "one order at a time" after one failed tryLock; an admitted request that gets the lock answers and changes the tables as `CreateOrder` does, issues tryLock then the unlock, and leaves the lock key empty; only the user's lock key ever changes |
| Orders.CreateOrderKeepsConsistent | hm-dianping/src/main/java/com/hmdp/service/impl/VoucherOrderServiceImpl.java:86-106 | stock stays non-negative, stock plus sales is conserved, and no user has two orders of a voucher |
| Orders.SeckillKeepsConsistent | hm-dianping/src/main/java/com/hmdp/service/impl/VoucherOrderServiceImpl.java:43-106 | a seckill call keeps that table invariant |
| Orders.RunCallsKeepsConsistent | hm-dianping/src/main/java/com/hmdp/service/impl/VoucherOrderServiceImpl.java:43-106 | any sequence of seckill calls keeps that table invariant |
| Orders.FreshTablesConsistent | hm-dianping/src/main/java/com/hmdp/service/impl/VoucherOrderServiceImpl.java:86-99 | an empty order table with non-negative stocks satisfies the invariant |
| Orders.VoucherOrderService.SeckillVoucher | hm-dianping/src/main/java/com/hmdp/service/impl/VoucherOrderServiceImpl.java:43-80 | reply, store, log and tables are those of `Seckill` |
| Orders.VoucherOrderService.CreateVoucherOrder | hm-dianping/src/main/java/com/hmdp/service/impl/VoucherOrderServiceImpl.java:82-108 | reply and tables are those of `CreateOrder` |
| OrderConcurrency.Advance | hm-dianping/src/main/java/com/hmdp/service/impl/VoucherOrderServiceImpl.java:43-108 | one atomic step changes only the phase of the request taking it, and keeps the set of vouchers |
| OrderConcurrency.PendingUpdate | hm-dianping/src/main/java/com/hmdp/service/impl/VoucherOrderServiceImpl.java:91-106 | the stock taken but not yet turned into an order moves only with the request that steps |
| OrderConcurrency.PendingAtBegin | hm-dianping/src/main/java/com/hmdp/service/impl/VoucherOrderServiceImpl.java:43 | before any request starts, no stock is pending |
| OrderConcurrency.PendingFinished | hm-dianping/src/main/java/com/hmdp/service/impl/VoucherOrderServiceImpl.java:107 | once every request has finished, no stock is pending |
| OrderConcurrency.InvAtStart | hm-dianping/src/main/java/com/hmdp/service/impl/VoucherOrderServiceImpl.java:43 | consistent tables and requests not yet started satisfy the interleaving invariant |
| OrderConcurrency.OutsideStepKeepsInv | hm-dianping/src/main/java/com/hmdp/service/impl/VoucherOrderServiceImpl.java:45-58 | the checks outside the lock keep the invariant |
| OrderConcurrency.AcquireKeepsInv | hm-dianping/src/main/java/com/hmdp/service/impl/VoucherOrderServiceImpl.java:68-73 | tryLock keeps the invariant: a request enters the critical section only with its user's lock |
| OrderConcurrency.CountKeepsInv | hm-dianping/src/main/java/com/hmdp/service/impl/VoucherOrderServiceImpl.java:86-89 | the order count keeps the invariant |
| OrderConcurrency.DecrementKeepsInv | hm-dianping/src/main/java/com/hmdp/service/impl/VoucherOrderServiceImpl.java:91-99 | the conditional decrement keeps the invariant and never takes stock below zero |
| OrderConcurrency.DecrementKeepsStock | hm-dianping/src/main/java/com/hmdp/service/impl/VoucherOrderServiceImpl.java:91-99 | a successful decrement moves one unit from the stock to the pending count, keeping stock plus sales plus pending constant |
| OrderConcurrency.InsertKeepsStock | hm-dianping/src/main/java/com/hmdp/service/impl/VoucherOrderServiceImpl.java:101-106 | inserting the order moves that unit from pending to sales |
| OrderConcurrency.InsertKeepsOneOrder | hm-dianping/src/main/java/com/hmdp/service/impl/VoucherOrderServiceImpl.java:101-106 | the inserted order is the user's only order of the voucher, and no other request in its section sees one of its user |
| OrderConcurrency.InsertKeepsInv | hm-dianping/src/main/java/com/hmdp/service/impl/VoucherOrderServiceImpl.java:101-107 | inserting the order keeps the invariant: the user has no other order of the voucher |
| OrderConcurrency.ReleaseKeepsInv | hm-dianping/src/main/java/com/hmdp/service/impl/VoucherOrderServiceImpl.java:77-79 | the unlock in `finally` keeps the invariant |
| OrderConcurrency.AdvanceKeepsInv | hm-dianping/src/main/java/com/hmdp/service/impl/VoucherOrderServiceImpl.java:43-108 | every step of every request keeps the invariant |
| OrderConcurrency.RunKeepsInv | hm-dianping/src/main/java/com/hmdp/service/impl/VoucherOrderServiceImpl.java:43-108 | every schedule keeps the invariant |
| OrderConcurrency.RunKeepsShape | hm-dianping/src/main/java/com/hmdp/service/impl/VoucherOrderServiceImpl.java:43-108 | a schedule keeps the number of requests and the clock |
| OrderConcurrency.InterleavingIsSafe | hm-dianping/src/main/java/com/hmdp/service/impl/VoucherOrderServiceImpl.java:43-108 | under any interleaving no stock goes negative and no user gets two orders of a voucher; once all requests finish, stock plus sales equals the starting stock |
| OrderConcurrency.RunStep | hm-dianping/src/main/java/com/hmdp/service/impl/VoucherOrderServiceImpl.java:43-108 | a turn given to an existing request is one `Advance` |
| OrderConcurrency.SoloCriticalSection | hm-dianping/src/main/java/com/hmdp/service/impl/VoucherOrderServiceImpl.java:74-108 | run alone from the lock on, a request does what createVoucherOrder and the unlock do |
| OrderConcurrency.SoloDuplicate | hm-dianping/src/main/java/com/hmdp/service/impl/VoucherOrderServiceImpl.java:86-89 | run alone, a request whose user already ordered answers "already purchased", leaves the tables and deletes its lock |
| OrderConcurrency.SoloOutOfStock | hm-dianping/src/main/java/com/hmdp/service/impl/VoucherOrderServiceImpl.java:91-99 | run alone, a request that finds no stock answers "out of stock", leaves the tables and deletes its lock |
| OrderConcurrency.SoloOrder | hm-dianping/src/main/java/com/hmdp/service/impl/VoucherOrderServiceImpl.java:91-107 | run alone, a request that finds stock and no order takes one unit, inserts its order, answers its id and deletes its lock |
| OrderConcurrency.SoloAdmitted | hm-dianping/src/main/java/com/hmdp/service/impl/VoucherOrderServiceImpl.java:68-79 | run alone, an admitted request's lock attempt and critical section give the outcome of `Seckill` |
| OrderConcurrency.SoloRunIsSeckill | hm-dianping/src/main/java/com/hmdp/service/impl/VoucherOrderServiceImpl.java:43-108 | run alone, six steps give the reply, store and tables of the sequential `Seckill` |
| OrderConcurrency.FinishedStaysFinished | hm-dianping/src/main/java/com/hmdp/service/impl/VoucherOrderServiceImpl.java:78-80 | turns given to a finished request change nothing |

## Left out

- **Concurrency.**
  - Thread scheduling is not modelled for the caches. Concurrent readers are
    modelled as calls on one shared store, one after another.
  - The rebuild executor is a queue of pending tasks (`CacheClient.rebuilds`)
    that `RunRebuild` runs one at a time. A task reads the database only when
    it runs, so `RunRebuild` takes the database state of that moment.
  - Only the seckill path has an interleaving model, with the clock held
    fixed during the interleaving.
- **Time.**
  - The wall clock (`LocalDateTime.now()`) and Redis's clock are one shared
    millisecond counter.
  - `Thread.sleep` advances that counter.
  - `InterruptedException` is not modelled.
- **JSON.**
  - Hutool's JSON is an abstract codec. Round-trip lemmas assume it is
    faithful.
  - The `Object` to `JSONObject` cast inside `RedisData` is not modelled.
  - `StrUtil.isBlank` is modelled by `IsBlankChar`. It covers the Java
    whitespace controls, the space, U+00A0, U+3000, U+202A, the byte-order mark
    and NUL, not every character Hutool treats as blank.
- **Spring, MyBatis and ids.**
  - The Spring and MyBatis machinery is out: `@Transactional`, the
    `AopContext` proxy and the query builders. Each database statement is one
    atomic step, and the transaction never rolls back.
  - `updateById` skips null fields in MyBatis. The model replaces the whole
    row.
  - `UserHolder` (the current user) and `Thread.currentThread().getId()` are
    parameters.
  - `RedisIdWorker` is a parameter, the order id.
- **Lock details.**
  - `unlock.lua` is taken as one atomic compare-then-delete.
  - `ID_PREFIX` (a random UUID) is a parameter of each lock.
- **Files not in this model.**
  - RedisConstants.java is not part of this model. The key prefixes, the 2
    minute null TTL and the 30 minute shop TTL are fixed in `Keys`.
  - Shop.java is not part of this model. A shop is its optional id and an
    opaque rest.
  - RefreshTokenInterceptor.java and the commented-out drafts in
    ShopServiceImpl.java are not modelled.
- **Exceptions.** Exceptions thrown by the database fallback or by Redis
  transport errors are not modelled. Exceptions inside a rebuild task are
  not modelled either: the task always writes and then unlocks.
- **Numbers.** Java `long` overflow is not modelled: ids, stock and clock
  readings are unbounded integers.
- Shops.ShopService.QueryWithMutex: the unbounded `while (!isLock)` loop is
  bounded by `maxSpins`. A run that exhausts the budget reports
  `StillSpinning`, not the eventual answer.
- Shops.MutexQuery: its own contract states only the release of the lock;
  what the result and the cache hold is proved in the lemmas beside it.
- Shops.Acquire: its own contract states only that the clock does not move
  backwards; the lemmas `AcquireReplays`, `SpinWaitsForExpiry` and
  `DoubledTryLockWaitsOutLease` state the rest.

## Findings

| source | as written | input that shows it | evidently intended | confidence | as-written member | corrected member |
|---|---|---|---|---|---|---|
| hm-dianping/src/main/java/com/hmdp/service/impl/ShopServiceImpl.java:163-164 | `tryLock(lockKey)` is called twice and the first answer is dropped. The first call takes the free lock, so the second fails on the caller's own lock. The loop then sleeps 5 ms at a time until the 10 s lease expires. | a miss (`cache:shop:<id>` absent) with `lock:shop:<id>` free | one `tryLock(lockKey)` whose answer decides the loop, so a free lock is taken at once | high, not executed | Shops.DoubledTryLockWaitsOutLease | Shops.SingleTryLockRebuildsAtOnce |
