/** VoucherOrderServiceImpl: the flash-sale ("seckill") order path. A request
    checks the sale window and the stock, takes a per-user SimpleRedisLock,
    refuses a second order of the same user, decrements the stock only while
    it is positive, and inserts the order under a fresh id. */
module Orders {
  import opened Common
  import opened Keys
  import opened Redis
  import opened Locks

  /** A row of tb_seckill_voucher; the window bounds are clock readings in ms. */
  datatype SeckillVoucher = SeckillVoucher(stock: int, beginTime: int, endTime: int)

  /** A row of tb_voucher_order. */
  datatype VoucherOrder = VoucherOrder(id: int, userId: int, voucherId: int)

  /** The messages of `Result.fail` on this path. */
  datatype Refusal =
    | NotStarted         // "秒杀尚未开始"
    | Ended              // "秒杀已经结束"
    | OutOfStock         // "库存不足"
    | OneOrderAtATime    // "一个人只可下一单"
    | AlreadyPurchased   // "用户已经购买过一次"

  /** The two tables the path reads and writes. */
  datatype Tables = Tables(vouchers: map<int, SeckillVoucher>, orders: seq<VoucherOrder>)

  /** What `seckillVoucher` answers: the order id, a refusal, or an exception. */
  type Reply = Outcome<Result<int, Refusal>>

  /** Seconds of the per-user lock: `tryLock(1200)`. */
  const OrderLockLease: int := 1200

  /** `"order:" + userId`, the name of the user's lock. */
  function OrderLockName(userId: int): string { "order:" + IntStr(userId) }

  function OrderLockKey(userId: int): string { LockKey(OrderLockName(userId)) }

  /** Different users have different order locks. */
  lemma OrderLockKeysDiffer(a: int, b: int)
    requires a != b
    ensures OrderLockKey(a) != OrderLockKey(b)
  {
    if OrderLockKey(a) == OrderLockKey(b) {
      assert OrderLockKey(a) == (KeyPrefix + "order:") + IntStr(a);
      assert OrderLockKey(b) == (KeyPrefix + "order:") + IntStr(b);
      PrefixedIdInjective(KeyPrefix + "order:", a, b);
    }
  }

  /** The checks before the lock, in seckillVoucher's order. `isAfter` and
      `isBefore` are strict, so both ends of the window are inside it. */
  function Admission(v: SeckillVoucher, now: int): (r: Option<Refusal>)
    ensures r == Some(NotStarted) <==> now < v.beginTime
    ensures r == Some(Ended) <==> v.beginTime <= now && v.endTime < now
    ensures r == Some(OutOfStock) <==> v.beginTime <= now <= v.endTime && v.stock < 1
    ensures r.None? <==> v.beginTime <= now <= v.endTime && v.stock >= 1
  {
    if v.beginTime > now then Some(NotStarted)
    else if v.endTime < now then Some(Ended)
    else if v.stock < 1 then Some(OutOfStock)
    else None
  }

  /** `query().eq("user_id", u).eq("voucher_id", v).count()`. */
  function CountOrders(orders: seq<VoucherOrder>, userId: int, voucherId: int): (n: nat)
    ensures n <= |orders|
    ensures n == 0 <==> forall i :: 0 <= i < |orders| ==> !(orders[i].userId == userId && orders[i].voucherId == voucherId)
    decreases |orders|
  {
    if orders == [] then 0
    else CountOrders(orders[..|orders| - 1], userId, voucherId)
         + (if orders[|orders| - 1].userId == userId && orders[|orders| - 1].voucherId == voucherId then 1 else 0)
  }

  /** The number of orders of a voucher. */
  function Sold(orders: seq<VoucherOrder>, voucherId: int): nat
    decreases |orders|
  {
    if orders == [] then 0
    else Sold(orders[..|orders| - 1], voucherId) + (if orders[|orders| - 1].voucherId == voucherId then 1 else 0)
  }

  lemma CountAppend(orders: seq<VoucherOrder>, o: VoucherOrder, userId: int, voucherId: int)
    ensures CountOrders(orders + [o], userId, voucherId)
            == CountOrders(orders, userId, voucherId) + (if o.userId == userId && o.voucherId == voucherId then 1 else 0)
    ensures Sold(orders + [o], voucherId) == Sold(orders, voucherId) + (if o.voucherId == voucherId then 1 else 0)
  {
    assert (orders + [o])[..|orders|] == orders;
  }

  /** createVoucherOrder(voucherId) for userId, with orderId the next id of the
      id generator: what it answers and the tables afterwards. */
  datatype Created = Created(reply: Result<int, Refusal>, db: Tables)

  function CreateOrder(db: Tables, userId: int, voucherId: int, orderId: int): (c: Created)
    ensures c.reply.Ok? <==> CountOrders(db.orders, userId, voucherId) == 0
                             && voucherId in db.vouchers && db.vouchers[voucherId].stock > 0
    ensures c.reply == Fail(AlreadyPurchased) <==> CountOrders(db.orders, userId, voucherId) > 0
    ensures c.reply == Fail(OutOfStock) <==>
              CountOrders(db.orders, userId, voucherId) == 0 && !(voucherId in db.vouchers && db.vouchers[voucherId].stock > 0)
    ensures c.reply.Fail? ==> c.db == db
    ensures c.reply.Ok? ==>
              && c.reply.data == orderId
              && c.db.orders == db.orders + [VoucherOrder(orderId, userId, voucherId)]
              && c.db.vouchers == db.vouchers[voucherId := db.vouchers[voucherId].(stock := db.vouchers[voucherId].stock - 1)]
  {
    if CountOrders(db.orders, userId, voucherId) > 0 then Created(Fail(AlreadyPurchased), db)
    else if voucherId !in db.vouchers || db.vouchers[voucherId].stock <= 0 then Created(Fail(OutOfStock), db)
    else
      var v := db.vouchers[voucherId];
      Created(Ok(orderId), Tables(db.vouchers[voucherId := v.(stock := v.stock - 1)],
                                  db.orders + [VoucherOrder(orderId, userId, voucherId)]))
  }

  /** What one seckillVoucher call does to the store and the tables. */
  datatype SeckillEffect = SeckillEffect(reply: Reply, keyspace: Keyspace, db: Tables, issued: seq<Cmd>)

  /** seckillVoucher(voucherId) by userId on a thread whose lock token is
      `token`, at time now, run without interference. */
  function Seckill(ks: Keyspace, now: int, db: Tables, userId: int, voucherId: int, token: string, orderId: int): (e: SeckillEffect)
    ensures e.issued == [] ==> e.keyspace == ks && e.db == db
    ensures e.keyspace - {OrderLockKey(userId)} == ks - {OrderLockKey(userId)}
    ensures Lookup(e.keyspace, now, OrderLockKey(userId)) == Lookup(ks, now, OrderLockKey(userId))
    ensures e.reply == Returns(Fail(OneOrderAtATime)) <==>
              voucherId in db.vouchers && Admission(db.vouchers[voucherId], now).None?
              && Lookup(ks, now, OrderLockKey(userId)).Some?
    // No such voucher: getById gives null and reading its begin time throws.
    ensures voucherId !in db.vouchers ==> e == SeckillEffect(Throws(NullPointer), ks, db, [])
    // A refused check answers its message and touches nothing.
    ensures voucherId in db.vouchers && Admission(db.vouchers[voucherId], now).Some? ==>
              e == SeckillEffect(Returns(Fail(Admission(db.vouchers[voucherId], now).value)), ks, db, [])
    // Admitted, but the user's lock is held: one failed tryLock, nothing else.
    ensures voucherId in db.vouchers && Admission(db.vouchers[voucherId], now).None?
            && Lookup(ks, now, OrderLockKey(userId)).Some? ==>
              e == SeckillEffect(Returns(Fail(OneOrderAtATime)), ks, db,
                                 [AcquireCmd(OrderLockKey(userId), token, now, OrderLockLease)])
    // Admitted and the lock obtained: createVoucherOrder's answer and tables,
    // then the unlock, which leaves the user's lock key empty.
    ensures voucherId in db.vouchers && Admission(db.vouchers[voucherId], now).None?
            && Lookup(ks, now, OrderLockKey(userId)).None? ==>
              && e.reply == Returns(CreateOrder(db, userId, voucherId, orderId).reply)
              && e.db == CreateOrder(db, userId, voucherId, orderId).db
              && e.issued == [AcquireCmd(OrderLockKey(userId), token, now, OrderLockLease),
                              ReleaseCmd(OrderLockKey(userId), token, now)]
              && e.keyspace == ks - {OrderLockKey(userId)}
  {
    if voucherId !in db.vouchers then SeckillEffect(Throws(NullPointer), ks, db, [])
    else match Admission(db.vouchers[voucherId], now)
      case Some(refusal) => SeckillEffect(Returns(Fail(refusal)), ks, db, [])
      case None =>
        var key := OrderLockKey(userId);
        var acquire := AcquireCmd(key, token, now, OrderLockLease);
        if !Succeeds(ks, acquire) then SeckillEffect(Returns(Fail(OneOrderAtATime)), ks, db, [acquire])
        else
          var created := CreateOrder(db, userId, voucherId, orderId);
          var release := ReleaseCmd(key, token, now);
          SeckillEffect(Returns(created.reply), Apply(Apply(ks, acquire), release), created.db, [acquire, release])
  }

  /** The table invariant: every voucher of `initial` is still there, its
      stock is not negative and together with the orders placed for it makes
      up the number `initial` records, and no user holds two orders of one
      voucher. */
  ghost predicate Consistent(db: Tables, initial: map<int, int>)
  {
    && db.vouchers.Keys == initial.Keys
    && (forall v :: v in initial ==> db.vouchers[v].stock >= 0 && initial[v] == db.vouchers[v].stock + Sold(db.orders, v))
    && (forall u, v :: CountOrders(db.orders, u, v) <= 1)
  }

  lemma CreateOrderKeepsConsistent(db: Tables, initial: map<int, int>, userId: int, voucherId: int, orderId: int)
    requires Consistent(db, initial)
    ensures Consistent(CreateOrder(db, userId, voucherId, orderId).db, initial)
  {
    var c := CreateOrder(db, userId, voucherId, orderId);
    if c.reply.Ok? {
      var o := VoucherOrder(orderId, userId, voucherId);
      forall v | v in initial
        ensures c.db.vouchers[v].stock >= 0 && initial[v] == c.db.vouchers[v].stock + Sold(c.db.orders, v)
      {
        CountAppend(db.orders, o, userId, v);
      }
      forall u, v
        ensures CountOrders(c.db.orders, u, v) <= 1
      {
        CountAppend(db.orders, o, u, v);
      }
    }
  }

  lemma SeckillKeepsConsistent(ks: Keyspace, now: int, db: Tables, initial: map<int, int>,
                               userId: int, voucherId: int, token: string, orderId: int)
    requires Consistent(db, initial)
    ensures Consistent(Seckill(ks, now, db, userId, voucherId, token, orderId).db, initial)
  {
    var e := Seckill(ks, now, db, userId, voucherId, token, orderId);
    if voucherId in db.vouchers && Admission(db.vouchers[voucherId], now).None?
       && Succeeds(ks, AcquireCmd(OrderLockKey(userId), token, now, OrderLockLease)) {
      assert e.db == CreateOrder(db, userId, voucherId, orderId).db;
      CreateOrderKeepsConsistent(db, initial, userId, voucherId, orderId);
    } else {
      assert e.db == db;
    }
  }

  /** One call of seckillVoucher: who asks, for which voucher, on which thread,
      at what time, and the id the generator hands out if it gets that far. */
  datatype Call = Call(userId: int, voucherId: int, token: string, now: int, orderId: int)

  /** A sequence of calls, each run to completion before the next starts. */
  function RunCalls(ks: Keyspace, db: Tables, calls: seq<Call>): (r: (Keyspace, Tables))
    decreases |calls|
  {
    if calls == [] then (ks, db)
    else
      var c := calls[0];
      var e := Seckill(ks, c.now, db, c.userId, c.voucherId, c.token, c.orderId);
      RunCalls(e.keyspace, e.db, calls[1..])
  }

  /** Across any sequence of calls the stock of each voucher stays non-negative
      and plus its orders stays equal to the starting stock, and no user gets
      two orders of one voucher. */
  lemma {:induction false} RunCallsKeepsConsistent(ks: Keyspace, db: Tables, initial: map<int, int>, calls: seq<Call>)
    requires Consistent(db, initial)
    ensures Consistent(RunCalls(ks, db, calls).1, initial)
    decreases |calls|
  {
    if calls != [] {
      var c := calls[0];
      var e := Seckill(ks, c.now, db, c.userId, c.voucherId, c.token, c.orderId);
      SeckillKeepsConsistent(ks, c.now, db, initial, c.userId, c.voucherId, c.token, c.orderId);
      RunCallsKeepsConsistent(e.keyspace, e.db, initial, calls[1..]);
    }
  }

  /** An empty orders table with stocks that are not negative is consistent
      with those stocks. */
  lemma FreshTablesConsistent(vouchers: map<int, SeckillVoucher>)
    requires forall v :: v in vouchers ==> vouchers[v].stock >= 0
    ensures Consistent(Tables(vouchers, []), map v | v in vouchers :: vouchers[v].stock)
  {
  }

  class VoucherOrderService {
    const redis: StringRedis
    /** tb_seckill_voucher, by voucher id. */
    var vouchers: map<int, SeckillVoucher>
    /** tb_voucher_order, in insertion order. */
    var orders: seq<VoucherOrder>
    /** SimpleRedisLock's ID_PREFIX in this process. */
    const lockIdPrefix: string

    constructor (redis: StringRedis, vouchers: map<int, SeckillVoucher>, orders: seq<VoucherOrder>, lockIdPrefix: string)
      ensures this.redis == redis && this.vouchers == vouchers && this.orders == orders
      ensures this.lockIdPrefix == lockIdPrefix
    {
      this.redis := redis;
      this.vouchers := vouchers;
      this.orders := orders;
      this.lockIdPrefix := lockIdPrefix;
    }

    /** seckillVoucher(voucherId) by userId on thread threadId; orderId is what
        `redisIdWorker.nextId("order")` returns if the call gets that far. */
    method SeckillVoucher(voucherId: int, userId: int, threadId: int, orderId: int) returns (r: Reply)
      modifies redis`keyspace, redis`log, this`vouchers, this`orders
      ensures var e := Seckill(old(redis.keyspace), redis.now, Tables(old(vouchers), old(orders)),
                               userId, voucherId, Token(lockIdPrefix, threadId), orderId);
              r == e.reply && redis.keyspace == e.keyspace && redis.log == old(redis.log) + e.issued
              && Tables(vouchers, orders) == e.db
    {
      if voucherId !in vouchers {
        return Throws(NullPointer);
      }
      var voucher := vouchers[voucherId];
      if voucher.beginTime > redis.now {
        return Returns(Fail(NotStarted));
      }
      if voucher.endTime < redis.now {
        return Returns(Fail(Ended));
      }
      if voucher.stock < 1 {
        return Returns(Fail(OutOfStock));
      }
      var simpleRedisLock := new SimpleRedisLock(OrderLockName(userId), redis, lockIdPrefix);
      var isLock := simpleRedisLock.TryLock(OrderLockLease, threadId);
      if isLock != Returns(true) {
        return Returns(Fail(OneOrderAtATime));
      }
      var reply := CreateVoucherOrder(voucherId, userId, orderId);
      simpleRedisLock.Unlock(threadId);
      r := Returns(reply);
    }

    /** createVoucherOrder(voucherId) for userId. */
    method CreateVoucherOrder(voucherId: int, userId: int, orderId: int) returns (r: Result<int, Refusal>)
      modifies this`vouchers, this`orders
      ensures var c := CreateOrder(Tables(old(vouchers), old(orders)), userId, voucherId, orderId);
              r == c.reply && Tables(vouchers, orders) == c.db
    {
      var count := CountOrders(orders, userId, voucherId);
      if count > 0 {
        return Fail(AlreadyPurchased);
      }
      var success := voucherId in vouchers && vouchers[voucherId].stock > 0;
      if !success {
        return Fail(OutOfStock);
      }
      vouchers := vouchers[voucherId := vouchers[voucherId].(stock := vouchers[voucherId].stock - 1)];
      orders := orders + [VoucherOrder(orderId, userId, voucherId)];
      r := Ok(orderId);
    }
  }
}
