/** Concurrent seckill requests. Each request of VoucherOrderServiceImpl is
    cut at its store and database calls into atomic steps, and a schedule
    picks which request takes its next step. Whatever the schedule, the stock
    never goes negative, stock plus orders plus decrements not yet turned
    into orders stays what it was, and no user gets two orders of a voucher:
    the per-user lock keeps two requests of one user out of the section
    between the order count and the insert. */
module OrderConcurrency {
  import opened Common
  import opened Keys
  import opened Redis
  import opened Locks
  import opened Orders

  /** Where a request stands: before each of its atomic steps, and after the last. */
  datatype Phase =
    | Begin                                       // next: read the voucher and check it
    | Validated                                   // next: tryLock(1200)
    | Locked                                      // next: count the user's orders
    | Checked                                     // next: the conditional decrement
    | Decremented                                 // next: insert the order
    | Releasing(answer: Result<int, Refusal>)     // next: unlock in `finally`
    | Finished(reply: Reply)

  /** A request between a successful tryLock and its unlock. */
  predicate Critical(p: Phase)
  {
    p.Locked? || p.Checked? || p.Decremented? || p.Releasing?
  }

  datatype Request = Request(userId: int, voucherId: int, token: string, orderId: int, phase: Phase)

  /** The store, the clock, the tables and the requests in flight. The clock
      stays put: all of it happens well within one lock lease. */
  datatype World = World(ks: Keyspace, now: int, db: Tables, reqs: seq<Request>)

  function SetPhase(w: World, i: nat, p: Phase): (r: World)
    requires i < |w.reqs|
  {
    w.(reqs := w.reqs[i := w.reqs[i].(phase := p)])
  }

  /** Request i takes its next step. */
  function Advance(w: World, i: nat): (r: World)
    requires i < |w.reqs|
    ensures |r.reqs| == |w.reqs| && r.now == w.now
    ensures r.db.vouchers.Keys == w.db.vouchers.Keys
    ensures forall j :: 0 <= j < |w.reqs| ==> r.reqs[j] == w.reqs[j].(phase := r.reqs[j].phase)
    ensures forall j :: 0 <= j < |w.reqs| && j != i ==> r.reqs[j] == w.reqs[j]
  {
    var q := w.reqs[i];
    var key := OrderLockKey(q.userId);
    match q.phase
    case Begin =>
      if q.voucherId !in w.db.vouchers then SetPhase(w, i, Finished(Throws(NullPointer)))
      else
        var refusal := Admission(w.db.vouchers[q.voucherId], w.now);
        if refusal.Some? then SetPhase(w, i, Finished(Returns(Fail(refusal.value))))
        else SetPhase(w, i, Validated)
    case Validated =>
      var c := AcquireCmd(key, q.token, w.now, OrderLockLease);
      if Succeeds(w.ks, c) then SetPhase(w.(ks := Apply(w.ks, c)), i, Locked)
      else SetPhase(w, i, Finished(Returns(Fail(OneOrderAtATime))))
    case Locked =>
      if CountOrders(w.db.orders, q.userId, q.voucherId) > 0 then SetPhase(w, i, Releasing(Fail(AlreadyPurchased)))
      else SetPhase(w, i, Checked)
    case Checked =>
      if q.voucherId in w.db.vouchers && w.db.vouchers[q.voucherId].stock > 0 then
        var v := w.db.vouchers[q.voucherId];
        SetPhase(w.(db := w.db.(vouchers := w.db.vouchers[q.voucherId := v.(stock := v.stock - 1)])), i, Decremented)
      else SetPhase(w, i, Releasing(Fail(OutOfStock)))
    case Decremented =>
      var o := VoucherOrder(q.orderId, q.userId, q.voucherId);
      SetPhase(w.(db := w.db.(orders := w.db.orders + [o])), i, Releasing(Ok(q.orderId)))
    case Releasing(answer) =>
      SetPhase(w.(ks := Apply(w.ks, ReleaseCmd(key, q.token, w.now))), i, Finished(Returns(answer)))
    case Finished(_) => w
  }

  /** The world after the requests named by the schedule take their steps in
      that order; an index that names no request is skipped. */
  function Run(w: World, schedule: seq<nat>): World
    decreases |schedule|
  {
    if schedule == [] then w
    else Run(if schedule[0] < |w.reqs| then Advance(w, schedule[0]) else w, schedule[1..])
  }

  /** 1 for a request that has taken stock of voucher v but not yet inserted its order. */
  function Weight(q: Request, v: int): nat
  {
    if q.phase.Decremented? && q.voucherId == v then 1 else 0
  }

  /** The stock of v taken by requests whose order is not inserted yet. */
  function Pending(reqs: seq<Request>, v: int): nat
    decreases |reqs|
  {
    if reqs == [] then 0 else Pending(reqs[..|reqs| - 1], v) + Weight(reqs[|reqs| - 1], v)
  }

  lemma {:induction false} PendingUpdate(reqs: seq<Request>, i: nat, x: Request, v: int)
    requires i < |reqs|
    ensures Pending(reqs[i := x], v) + Weight(reqs[i], v) == Pending(reqs, v) + Weight(x, v)
    decreases |reqs|
  {
    var n := |reqs| - 1;
    var s := reqs[i := x];
    if i == n {
      assert s[..n] == reqs[..n];
    } else {
      assert s[..n] == reqs[..n][i := x];
      PendingUpdate(reqs[..n], i, x, v);
    }
  }

  /** Requests that have not started yet have taken no stock. */
  lemma {:induction false} PendingAtBegin(reqs: seq<Request>, v: int)
    requires forall j :: 0 <= j < |reqs| ==> reqs[j].phase.Begin?
    ensures Pending(reqs, v) == 0
    decreases |reqs|
  {
    if reqs != [] {
      PendingAtBegin(reqs[..|reqs| - 1], v);
    }
  }

  // The invariant, one part at a time.

  ghost predicate StockConserved(w: World, initial: map<int, int>)
  {
    && w.db.vouchers.Keys == initial.Keys
    && forall v :: v in initial ==>
         w.db.vouchers[v].stock >= 0 && initial[v] == w.db.vouchers[v].stock + Sold(w.db.orders, v) + Pending(w.reqs, v)
  }

  ghost predicate OneOrderEach(w: World)
  {
    forall u, v :: CountOrders(w.db.orders, u, v) <= 1
  }

  /** Every request in its critical section holds its user's lock. */
  ghost predicate LocksHeld(w: World)
  {
    forall j :: 0 <= j < |w.reqs| && Critical(w.reqs[j].phase) ==>
      Lookup(w.ks, w.now, OrderLockKey(w.reqs[j].userId)) == Some(w.reqs[j].token)
  }

  /** At most one request per user is in its critical section. */
  ghost predicate OneHolderPerUser(w: World)
  {
    forall j, k ::
      0 <= j < |w.reqs| && 0 <= k < |w.reqs| && j != k && Critical(w.reqs[j].phase) && Critical(w.reqs[k].phase)
      ==> w.reqs[j].userId != w.reqs[k].userId
  }

  /** A request past the count saw no order, and none has been placed since. */
  ghost predicate NoOrderYet(w: World)
  {
    forall j :: 0 <= j < |w.reqs| && (w.reqs[j].phase.Checked? || w.reqs[j].phase.Decremented?) ==>
      CountOrders(w.db.orders, w.reqs[j].userId, w.reqs[j].voucherId) == 0
  }

  ghost predicate DecrementedKnown(w: World, initial: map<int, int>)
  {
    forall j :: 0 <= j < |w.reqs| && w.reqs[j].phase.Decremented? ==> w.reqs[j].voucherId in initial
  }

  ghost predicate Inv(w: World, initial: map<int, int>)
  {
    StockConserved(w, initial) && OneOrderEach(w) && LocksHeld(w) && OneHolderPerUser(w)
    && NoOrderYet(w) && DecrementedKnown(w, initial)
  }

  /** Before any request has started, the invariant is the table invariant. */
  lemma InvAtStart(ks: Keyspace, now: int, db: Tables, initial: map<int, int>, reqs: seq<Request>)
    requires Consistent(db, initial)
    requires forall j :: 0 <= j < |reqs| ==> reqs[j].phase.Begin?
    ensures Inv(World(ks, now, db, reqs), initial)
  {
    forall v | v in initial
      ensures Pending(reqs, v) == 0
    {
      PendingAtBegin(reqs, v);
    }
  }

  /** A step that changes only the phase of request i, between two phases that
      are not critical, keeps the invariant. */
  lemma OutsideStepKeepsInv(w: World, initial: map<int, int>, i: nat, p: Phase)
    requires Inv(w, initial) && i < |w.reqs|
    requires !Critical(w.reqs[i].phase) && !w.reqs[i].phase.Decremented? && !Critical(p) && !p.Decremented?
    ensures Inv(SetPhase(w, i, p), initial)
  {
    var r := SetPhase(w, i, p);
    forall v | v in initial
      ensures Pending(r.reqs, v) == Pending(w.reqs, v)
    {
      PendingUpdate(w.reqs, i, r.reqs[i], v);
    }
  }

  lemma AcquireKeepsInv(w: World, initial: map<int, int>, i: nat)
    requires Inv(w, initial) && i < |w.reqs| && w.reqs[i].phase.Validated?
    ensures Inv(Advance(w, i), initial)
  {
    var q := w.reqs[i];
    var key := OrderLockKey(q.userId);
    var c := AcquireCmd(key, q.token, w.now, OrderLockLease);
    if !Succeeds(w.ks, c) {
      OutsideStepKeepsInv(w, initial, i, Finished(Returns(Fail(OneOrderAtATime))));
    } else {
      var r := Advance(w, i);
      assert r == SetPhase(w.(ks := Apply(w.ks, c)), i, Locked);
      forall v | v in initial
        ensures Pending(r.reqs, v) == Pending(w.reqs, v)
      {
        PendingUpdate(w.reqs, i, r.reqs[i], v);
      }
      forall j | 0 <= j < |w.reqs| && j != i && Critical(w.reqs[j].phase)
        ensures w.reqs[j].userId != q.userId
        ensures Lookup(r.ks, r.now, OrderLockKey(w.reqs[j].userId)) == Some(w.reqs[j].token)
      {
        OrderLockKeysDiffer(w.reqs[j].userId, q.userId);
        ApplyOtherKey(w.ks, c, w.now, OrderLockKey(w.reqs[j].userId));
      }
      assert Lookup(r.ks, r.now, key) == Some(q.token);
    }
  }

  lemma CountKeepsInv(w: World, initial: map<int, int>, i: nat)
    requires Inv(w, initial) && i < |w.reqs| && w.reqs[i].phase.Locked?
    ensures Inv(Advance(w, i), initial)
  {
    var r := Advance(w, i);
    forall v | v in initial
      ensures Pending(r.reqs, v) == Pending(w.reqs, v)
    {
      PendingUpdate(w.reqs, i, r.reqs[i], v);
    }
  }

  /** The world after request i, past its count, takes one unit of stock. */
  function Decrement(w: World, i: nat): World
    requires i < |w.reqs| && w.reqs[i].voucherId in w.db.vouchers
  {
    var v := w.db.vouchers[w.reqs[i].voucherId];
    SetPhase(w.(db := w.db.(vouchers := w.db.vouchers[w.reqs[i].voucherId := v.(stock := v.stock - 1)])), i, Decremented)
  }

  lemma DecrementKeepsStock(w: World, initial: map<int, int>, i: nat)
    requires Inv(w, initial) && i < |w.reqs| && w.reqs[i].phase.Checked?
    requires w.reqs[i].voucherId in w.db.vouchers && w.db.vouchers[w.reqs[i].voucherId].stock > 0
    ensures StockConserved(Decrement(w, i), initial)
  {
    var r := Decrement(w, i);
    forall v | v in initial
      ensures Pending(r.reqs, v) == Pending(w.reqs, v) + Weight(r.reqs[i], v)
    {
      PendingUpdate(w.reqs, i, r.reqs[i], v);
    }
  }

  lemma DecrementKeepsInv(w: World, initial: map<int, int>, i: nat)
    requires Inv(w, initial) && i < |w.reqs| && w.reqs[i].phase.Checked?
    ensures Inv(Advance(w, i), initial)
  {
    var q := w.reqs[i];
    if q.voucherId in w.db.vouchers && w.db.vouchers[q.voucherId].stock > 0 {
      assert Advance(w, i) == Decrement(w, i);
      DecrementKeepsStock(w, initial, i);
    } else {
      var r := Advance(w, i);
      assert r == SetPhase(w, i, Releasing(Fail(OutOfStock)));
      forall v | v in initial
        ensures Pending(r.reqs, v) == Pending(w.reqs, v)
      {
        PendingUpdate(w.reqs, i, r.reqs[i], v);
      }
    }
  }

  /** The world after request i, past its decrement, inserts its order. */
  function Inserted(w: World, i: nat): World
    requires i < |w.reqs|
  {
    var q := w.reqs[i];
    SetPhase(w.(db := w.db.(orders := w.db.orders + [VoucherOrder(q.orderId, q.userId, q.voucherId)])),
             i, Releasing(Ok(q.orderId)))
  }

  lemma InsertKeepsStock(w: World, initial: map<int, int>, i: nat)
    requires Inv(w, initial) && i < |w.reqs| && w.reqs[i].phase.Decremented?
    ensures StockConserved(Inserted(w, i), initial)
  {
    var q := w.reqs[i];
    var o := VoucherOrder(q.orderId, q.userId, q.voucherId);
    var r := Inserted(w, i);
    forall v | v in initial
      ensures r.db.vouchers[v].stock >= 0 && initial[v] == r.db.vouchers[v].stock + Sold(r.db.orders, v) + Pending(r.reqs, v)
    {
      PendingUpdate(w.reqs, i, r.reqs[i], v);
      CountAppend(w.db.orders, o, q.userId, v);
    }
  }

  lemma InsertKeepsOneOrder(w: World, initial: map<int, int>, i: nat)
    requires Inv(w, initial) && i < |w.reqs| && w.reqs[i].phase.Decremented?
    ensures OneOrderEach(Inserted(w, i)) && NoOrderYet(Inserted(w, i))
  {
    var q := w.reqs[i];
    var o := VoucherOrder(q.orderId, q.userId, q.voucherId);
    var r := Inserted(w, i);
    forall u, v
      ensures CountOrders(r.db.orders, u, v) <= 1
    {
      CountAppend(w.db.orders, o, u, v);
    }
    forall j | 0 <= j < |r.reqs| && (r.reqs[j].phase.Checked? || r.reqs[j].phase.Decremented?)
      ensures CountOrders(r.db.orders, r.reqs[j].userId, r.reqs[j].voucherId) == 0
    {
      assert j != i && Critical(w.reqs[j].phase);
      assert w.reqs[j].userId != q.userId;
      CountAppend(w.db.orders, o, w.reqs[j].userId, w.reqs[j].voucherId);
    }
  }

  lemma InsertKeepsInv(w: World, initial: map<int, int>, i: nat)
    requires Inv(w, initial) && i < |w.reqs| && w.reqs[i].phase.Decremented?
    ensures Inv(Advance(w, i), initial)
  {
    assert Advance(w, i) == Inserted(w, i);
    InsertKeepsStock(w, initial, i);
    InsertKeepsOneOrder(w, initial, i);
  }

  lemma ReleaseKeepsInv(w: World, initial: map<int, int>, i: nat)
    requires Inv(w, initial) && i < |w.reqs| && w.reqs[i].phase.Releasing?
    ensures Inv(Advance(w, i), initial)
  {
    var q := w.reqs[i];
    var key := OrderLockKey(q.userId);
    var c := ReleaseCmd(key, q.token, w.now);
    var r := Advance(w, i);
    assert r.ks == Apply(w.ks, c);
    forall v | v in initial
      ensures Pending(r.reqs, v) == Pending(w.reqs, v)
    {
      PendingUpdate(w.reqs, i, r.reqs[i], v);
    }
    forall j | 0 <= j < |r.reqs| && Critical(r.reqs[j].phase)
      ensures Lookup(r.ks, r.now, OrderLockKey(r.reqs[j].userId)) == Some(r.reqs[j].token)
    {
      assert j != i && w.reqs[j].userId != q.userId;
      OrderLockKeysDiffer(w.reqs[j].userId, q.userId);
      ApplyOtherKey(w.ks, c, w.now, OrderLockKey(w.reqs[j].userId));
    }
  }

  /** Every step of every request keeps the invariant. */
  lemma AdvanceKeepsInv(w: World, initial: map<int, int>, i: nat)
    requires Inv(w, initial) && i < |w.reqs|
    ensures Inv(Advance(w, i), initial)
  {
    var q := w.reqs[i];
    match q.phase
    case Begin =>
      if q.voucherId !in w.db.vouchers {
        OutsideStepKeepsInv(w, initial, i, Finished(Throws(NullPointer)));
      } else {
        var refusal := Admission(w.db.vouchers[q.voucherId], w.now);
        if refusal.Some? {
          OutsideStepKeepsInv(w, initial, i, Finished(Returns(Fail(refusal.value))));
        } else {
          OutsideStepKeepsInv(w, initial, i, Validated);
        }
      }
    case Validated => AcquireKeepsInv(w, initial, i);
    case Locked => CountKeepsInv(w, initial, i);
    case Checked => DecrementKeepsInv(w, initial, i);
    case Decremented => InsertKeepsInv(w, initial, i);
    case Releasing(_) => ReleaseKeepsInv(w, initial, i);
    case Finished(_) =>
  }

  /** Whatever the schedule, the invariant holds throughout. */
  lemma {:induction false} RunKeepsInv(w: World, initial: map<int, int>, schedule: seq<nat>)
    requires Inv(w, initial)
    ensures Inv(Run(w, schedule), initial)
    decreases |schedule|
  {
    if schedule != [] {
      var next := if schedule[0] < |w.reqs| then Advance(w, schedule[0]) else w;
      if schedule[0] < |w.reqs| {
        AdvanceKeepsInv(w, initial, schedule[0]);
      }
      RunKeepsInv(next, initial, schedule[1..]);
    }
  }

  lemma {:induction false} RunKeepsShape(w: World, schedule: seq<nat>)
    ensures |Run(w, schedule).reqs| == |w.reqs| && Run(w, schedule).now == w.now
    decreases |schedule|
  {
    if schedule != [] {
      RunKeepsShape(if schedule[0] < |w.reqs| then Advance(w, schedule[0]) else w, schedule[1..]);
    }
  }

  /** The end-to-end guarantee: from consistent tables and requests not yet
      started, any interleaving leaves no stock negative, no user with two
      orders of a voucher, and, once every request has finished, each
      voucher's stock plus its orders equal to what it was. */
  lemma InterleavingIsSafe(ks: Keyspace, now: int, db: Tables, initial: map<int, int>,
                           reqs: seq<Request>, schedule: seq<nat>)
    requires Consistent(db, initial)
    requires forall j :: 0 <= j < |reqs| ==> reqs[j].phase.Begin?
    ensures var end := Run(World(ks, now, db, reqs), schedule);
            && (forall v :: v in initial ==> v in end.db.vouchers && end.db.vouchers[v].stock >= 0)
            && (forall u, v :: CountOrders(end.db.orders, u, v) <= 1)
            && ((forall j :: 0 <= j < |end.reqs| ==> end.reqs[j].phase.Finished?) ==>
                  forall v :: v in initial ==> initial[v] == end.db.vouchers[v].stock + Sold(end.db.orders, v))
  {
    var start := World(ks, now, db, reqs);
    InvAtStart(ks, now, db, initial, reqs);
    RunKeepsInv(start, initial, schedule);
    var end := Run(start, schedule);
    if forall j :: 0 <= j < |end.reqs| ==> end.reqs[j].phase.Finished? {
      forall v | v in initial
        ensures initial[v] == end.db.vouchers[v].stock + Sold(end.db.orders, v)
      {
        PendingFinished(end.reqs, v);
      }
    }
  }

  lemma {:induction false} PendingFinished(reqs: seq<Request>, v: int)
    requires forall j :: 0 <= j < |reqs| ==> reqs[j].phase.Finished?
    ensures Pending(reqs, v) == 0
    decreases |reqs|
  {
    if reqs != [] {
      PendingFinished(reqs[..|reqs| - 1], v);
    }
  }

  /** One turn of the schedule given to an existing request. */
  lemma RunStep(w: World, i: nat, rest: seq<nat>)
    requires i < |w.reqs|
    ensures Run(w, [i] + rest) == Run(Advance(w, i), rest)
  {
    assert ([i] + rest)[1..] == rest;
  }

  /** Run alone from the lock onwards, a request does what createVoucherOrder
      and the unlock in `finally` do. */
  lemma SoloCriticalSection(w: World, i: nat)
    requires i < |w.reqs| && w.reqs[i].phase.Locked?
    ensures var q := w.reqs[i];
            var c := CreateOrder(w.db, q.userId, q.voucherId, q.orderId);
            var end := Run(w, [i, i, i, i]);
            && end.ks == Apply(w.ks, ReleaseCmd(OrderLockKey(q.userId), q.token, w.now))
            && end.db == c.db && |end.reqs| == |w.reqs| && end.reqs[i].phase == Finished(Returns(c.reply))
  {
    var q := w.reqs[i];
    if CountOrders(w.db.orders, q.userId, q.voucherId) > 0 {
      SoloDuplicate(w, i);
    } else if q.voucherId in w.db.vouchers && w.db.vouchers[q.voucherId].stock > 0 {
      SoloOrder(w, i);
    } else {
      SoloOutOfStock(w, i);
    }
  }

  /** The count finds an order: refuse, then unlock. */
  lemma SoloDuplicate(w: World, i: nat)
    requires i < |w.reqs| && w.reqs[i].phase.Locked?
    requires CountOrders(w.db.orders, w.reqs[i].userId, w.reqs[i].voucherId) > 0
    ensures var q := w.reqs[i];
            var end := Run(w, [i, i, i, i]);
            && end.ks == Apply(w.ks, ReleaseCmd(OrderLockKey(q.userId), q.token, w.now))
            && end.db == w.db && |end.reqs| == |w.reqs| && end.reqs[i].phase == Finished(Returns(Fail(AlreadyPurchased)))
  {
    var w1 := Advance(w, i);
    var w2 := Advance(w1, i);
    RunStep(w, i, [i, i, i]);
    RunStep(w1, i, [i, i]);
    assert w1.reqs[i].phase == Releasing(Fail(AlreadyPurchased)) && w1.db == w.db && w1.ks == w.ks;
    FinishedStaysFinished(w2, i, [i, i]);
  }

  /** The decrement finds no stock: refuse, then unlock. */
  lemma SoloOutOfStock(w: World, i: nat)
    requires i < |w.reqs| && w.reqs[i].phase.Locked?
    requires CountOrders(w.db.orders, w.reqs[i].userId, w.reqs[i].voucherId) == 0
    requires !(w.reqs[i].voucherId in w.db.vouchers && w.db.vouchers[w.reqs[i].voucherId].stock > 0)
    ensures var q := w.reqs[i];
            var end := Run(w, [i, i, i, i]);
            && end.ks == Apply(w.ks, ReleaseCmd(OrderLockKey(q.userId), q.token, w.now))
            && end.db == w.db && |end.reqs| == |w.reqs| && end.reqs[i].phase == Finished(Returns(Fail(OutOfStock)))
  {
    var w1 := Advance(w, i);
    var w2 := Advance(w1, i);
    var w3 := Advance(w2, i);
    RunStep(w, i, [i, i, i]);
    RunStep(w1, i, [i, i]);
    RunStep(w2, i, [i]);
    assert w1.reqs[i].phase == Checked && w1.db == w.db && w1.ks == w.ks;
    assert w2.reqs[i].phase == Releasing(Fail(OutOfStock)) && w2.db == w.db && w2.ks == w.ks;
    FinishedStaysFinished(w3, i, [i]);
  }

  /** Count, decrement, insert, unlock. */
  lemma SoloOrder(w: World, i: nat)
    requires i < |w.reqs| && w.reqs[i].phase.Locked?
    requires CountOrders(w.db.orders, w.reqs[i].userId, w.reqs[i].voucherId) == 0
    requires w.reqs[i].voucherId in w.db.vouchers && w.db.vouchers[w.reqs[i].voucherId].stock > 0
    ensures var q := w.reqs[i];
            var c := CreateOrder(w.db, q.userId, q.voucherId, q.orderId);
            var end := Run(w, [i, i, i, i]);
            && end.ks == Apply(w.ks, ReleaseCmd(OrderLockKey(q.userId), q.token, w.now))
            && end.db == c.db && |end.reqs| == |w.reqs| && end.reqs[i].phase == Finished(Returns(Ok(q.orderId)))
  {
    var q := w.reqs[i];
    var w1 := Advance(w, i);
    var w2 := Advance(w1, i);
    var w3 := Advance(w2, i);
    RunStep(w, i, [i, i, i]);
    RunStep(w1, i, [i, i]);
    RunStep(w2, i, [i]);
    RunStep(w3, i, []);
    assert w1.reqs[i].phase == Checked && w1.db == w.db && w1.ks == w.ks;
    assert w2.reqs[i].phase == Decremented && w2.ks == w.ks;
    assert w3.reqs[i].phase == Releasing(Ok(q.orderId)) && w3.ks == w.ks;
    assert w3.db == CreateOrder(w.db, q.userId, q.voucherId, q.orderId).db;
  }

  /** Run alone, a request's steps do what one seckillVoucher call does: six
      turns take it from Begin to Finished with the reply, store and tables of
      the sequential model. */
  lemma SoloRunIsSeckill(w: World, i: nat)
    requires i < |w.reqs| && w.reqs[i].phase.Begin?
    ensures var q := w.reqs[i];
            var e := Seckill(w.ks, w.now, w.db, q.userId, q.voucherId, q.token, q.orderId);
            var end := Run(w, [i, i, i, i, i, i]);
            end.ks == e.keyspace && end.db == e.db && |end.reqs| == |w.reqs| && end.reqs[i].phase == Finished(e.reply)
  {
    var q := w.reqs[i];
    var w1 := Advance(w, i);
    RunStep(w, i, [i, i, i, i, i]);
    if w1.reqs[i].phase.Finished? {
      FinishedStaysFinished(w1, i, [i, i, i, i, i]);
    } else {
      SoloAdmitted(w, i);
    }
  }

  /** An admitted request, run alone from its lock attempt on. */
  lemma SoloAdmitted(w: World, i: nat)
    requires i < |w.reqs| && w.reqs[i].phase.Begin?
    requires !Advance(w, i).reqs[i].phase.Finished?
    ensures var q := w.reqs[i];
            var e := Seckill(w.ks, w.now, w.db, q.userId, q.voucherId, q.token, q.orderId);
            var end := Run(Advance(w, i), [i, i, i, i, i]);
            end.ks == e.keyspace && end.db == e.db && |end.reqs| == |w.reqs| && end.reqs[i].phase == Finished(e.reply)
  {
    var q := w.reqs[i];
    var w1 := Advance(w, i);
    var w2 := Advance(w1, i);
    assert q.voucherId in w.db.vouchers && Admission(w.db.vouchers[q.voucherId], w.now).None?;
    assert w1 == SetPhase(w, i, Validated);
    RunStep(w1, i, [i, i, i, i]);
    if w2.reqs[i].phase.Finished? {
      FinishedStaysFinished(w2, i, [i, i, i, i]);
    } else {
      SoloCriticalSection(w2, i);
    }
  }

  /** Turns given to a finished request change nothing. */
  lemma {:induction false} FinishedStaysFinished(w: World, i: nat, schedule: seq<nat>)
    requires i < |w.reqs| && w.reqs[i].phase.Finished?
    requires forall k :: 0 <= k < |schedule| ==> schedule[k] == i
    ensures Run(w, schedule) == w
    decreases |schedule|
  {
    if schedule != [] {
      FinishedStaysFinished(w, i, schedule[1..]);
    }
  }
}
