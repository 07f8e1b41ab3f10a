/** SimpleRedisLock: a lease lock on one Redis key. The holder's token is
    the process-wide ID_PREFIX followed by the thread id; acquiring is
    SET NX with a TTL, releasing deletes the key only if it still holds the
    caller's token (the unlock script, one atomic step). */
module Locks {
  import opened Common
  import opened Keys
  import opened Redis

  /** KEY_PREFIX. */
  const KeyPrefix: string := "lock:"

  /** The key of the lock called name. */
  function LockKey(name: string): string { KeyPrefix + name }

  /** `ID_PREFIX + threadId`: what a thread stores in a lock it holds. */
  function Token(idPrefix: string, threadId: int): (tok: string)
    ensures |tok| > |idPrefix| && tok[..|idPrefix|] == idPrefix
  {
    idPrefix + IntStr(threadId)
  }

  /** `tryLock(timeoutSec)` by the holder of token, issued at time t: SET NX
      succeeds exactly when no one holds key, and the token then stays there
      for the whole lease. */
  function AcquireCmd(key: string, token: string, t: int, timeoutSec: int): (c: Cmd)
    ensures forall ks :: Succeeds(ks, c) <==> Lookup(ks, t, key).None?
    ensures forall ks, later :: Succeeds(ks, c) && t <= later <= t + ToMillis(timeoutSec, Seconds) ==>
              Lookup(Apply(ks, c), later, key) == Some(token)
  {
    Cmd(t, WriteIfAbsent(key, token, ToMillis(timeoutSec, Seconds)))
  }

  /** `unlock()` by the holder of token, issued at time t: the key is deleted
      exactly when it holds token, and otherwise nothing changes. */
  function ReleaseCmd(key: string, token: string, t: int): (c: Cmd)
    ensures forall ks :: Succeeds(ks, c) <==> Lookup(ks, t, key) == Some(token)
    ensures forall ks :: Apply(ks, c) == if Lookup(ks, t, key) == Some(token) then ks - {key} else ks
  {
    Cmd(t, RemoveIfHeld(key, token))
  }

  /** Acquiring succeeds exactly when no one holds the lock; then the token is
      held for the whole lease; otherwise the store is untouched, so the
      current holder keeps its token. */
  lemma AcquireIsExclusive(ks: Keyspace, key: string, token: string, t: int, timeoutSec: int, later: int)
    requires timeoutSec > 0 && t <= later <= t + ToMillis(timeoutSec, Seconds)
    ensures var c := AcquireCmd(key, token, t, timeoutSec);
            && (Succeeds(ks, c) <==> Lookup(ks, t, key).None?)
            && (Succeeds(ks, c) ==> Lookup(Apply(ks, c), later, key) == Some(token))
            && (!Succeeds(ks, c) ==> Apply(ks, c) == ks)
  {
  }

  /** The lock is not reentrant: while the lease lasts, the holder's own second
      attempt fails too. */
  lemma NotReentrant(ks: Keyspace, key: string, token: string, t: int, timeoutSec: int, later: int, timeoutSec2: int)
    requires timeoutSec > 0 && t <= later <= t + ToMillis(timeoutSec, Seconds)
    requires Succeeds(ks, AcquireCmd(key, token, t, timeoutSec))
    ensures !Succeeds(Apply(ks, AcquireCmd(key, token, t, timeoutSec)), AcquireCmd(key, token, later, timeoutSec2))
  {
  }

  /** Releasing deletes the key exactly when it holds the caller's token. */
  lemma OnlyHolderReleases(ks: Keyspace, key: string, token: string, t: int)
    ensures var c := ReleaseCmd(key, token, t);
            && (Lookup(ks, t, key) == Some(token) ==> Apply(ks, c) == ks - {key})
            && (Lookup(ks, t, key) != Some(token) ==> Apply(ks, c) == ks)
  {
  }

  /** A holder whose lease ran out, and whose lock another thread then took,
      cannot release that other thread's lock. */
  lemma StaleReleaseKeepsNewLease(ks: Keyspace, key: string, a: string, b: string,
                                  t1: int, s1: int, t2: int, s2: int, t3: int)
    requires a != b && s1 > 0 && s2 > 0
    requires Lookup(ks, t1, key).None?
    requires t1 + ToMillis(s1, Seconds) < t2 <= t3 <= t2 + ToMillis(s2, Seconds)
    ensures var ks1 := Apply(ks, AcquireCmd(key, a, t1, s1));
            var ks2 := Apply(ks1, AcquireCmd(key, b, t2, s2));
            var ks3 := Apply(ks2, ReleaseCmd(key, a, t3));
            Succeeds(ks1, AcquireCmd(key, b, t2, s2)) && Lookup(ks3, t3, key) == Some(b)
  {
  }

  /** Acquire then release by the same holder frees the key: the next attempt
      by anyone succeeds. */
  lemma ReleaseFreesLock(ks: Keyspace, key: string, a: string, t1: int, s1: int, t2: int, b: string, t3: int, s3: int)
    requires s1 > 0 && Lookup(ks, t1, key).None?
    requires t1 <= t2 <= t1 + ToMillis(s1, Seconds)
    ensures var ks1 := Apply(ks, AcquireCmd(key, a, t1, s1));
            var ks2 := Apply(ks1, ReleaseCmd(key, a, t2));
            Succeeds(ks2, AcquireCmd(key, b, t3, s3))
  {
  }

  /** Two threads of one process never share a token. */
  lemma TokensOfOneProcessDiffer(idPrefix: string, a: int, b: int)
    requires a != b
    ensures Token(idPrefix, a) != Token(idPrefix, b)
  {
    if Token(idPrefix, a) == Token(idPrefix, b) {
      PrefixedIdInjective(idPrefix, a, b);
    }
  }

  /** Threads of two processes never share a token when the processes drew
      different prefixes of the same length (a UUID without dashes and "-"). */
  lemma TokensOfTwoProcessesDiffer(p1: string, p2: string, a: int, b: int)
    requires |p1| == |p2| && p1 != p2
    ensures Token(p1, a) != Token(p2, b)
  {
    assert Token(p1, a)[..|p1|] == p1;
    assert Token(p2, b)[..|p2|] == p2;
  }

  /** A command that cannot disturb the lease of holder on key until expiry:
      it runs before the lease ends and is an attempt to acquire the key, a
      release by another token, or a command on another key. */
  predicate Foreign(c: Cmd, key: string, holder: string, expiry: int)
  {
    c.at <= expiry
    && (c.op.key != key || c.op.WriteIfAbsent? || (c.op.RemoveIfHeld? && c.op.token != holder))
  }

  /** Mutual exclusion over any interleaving: whatever others do through the
      lock while the lease lasts, the holder keeps it until the lease ends. */
  lemma {:induction false} LeaseExcludesOthers(ks: Keyspace, hist: seq<Cmd>, key: string, holder: string, expiry: int)
    requires key in ks && ks[key] == Entry(holder, Some(expiry))
    requires forall i :: 0 <= i < |hist| ==> Foreign(hist[i], key, holder, expiry)
    ensures key in Replay(ks, hist) && Replay(ks, hist)[key] == Entry(holder, Some(expiry))
    decreases |hist|
  {
    if hist != [] {
      var c := hist[0];
      assert Foreign(c, key, holder, expiry);
      var ks1 := Apply(ks, c);
      if c.op.key != key {
        assert key in ks1 - {c.op.key};
      } else {
        assert Lookup(ks, c.at, key) == Some(holder);
      }
      assert key in ks1 && ks1[key] == Entry(holder, Some(expiry));
      assert forall i :: 0 <= i < |hist[1..]| ==> hist[1..][i] == hist[i + 1];
      LeaseExcludesOthers(ks1, hist[1..], key, holder, expiry);
    }
  }

  class SimpleRedisLock {
    const name: string
    const redis: StringRedis
    /** ID_PREFIX: a random UUID without dashes and "-", drawn once per process. */
    const idPrefix: string

    constructor (name: string, redis: StringRedis, idPrefix: string)
      ensures this.name == name && this.redis == redis && this.idPrefix == idPrefix
    {
      this.name := name;
      this.redis := redis;
      this.idPrefix := idPrefix;
    }

    function Key(): string { LockKey(name) }

    /** tryLock(timeoutSec) on the thread threadId. A TTL that is not positive
        is refused by Redis and Spring throws. */
    method TryLock(timeoutSec: int, threadId: int) returns (r: Outcome<bool>)
      modifies redis`keyspace, redis`log
      ensures timeoutSec <= 0 ==> r == Throws(InvalidExpire)
                                  && redis.keyspace == old(redis.keyspace) && redis.log == old(redis.log)
      ensures timeoutSec > 0 ==>
                var c := AcquireCmd(Key(), Token(idPrefix, threadId), redis.now, timeoutSec);
                && r == Returns(Lookup(old(redis.keyspace), redis.now, Key()).None?)
                && redis.keyspace == Apply(old(redis.keyspace), c)
                && redis.log == old(redis.log) + [c]
      ensures r == Returns(true) ==>
                redis.keyspace[Key()] == Entry(Token(idPrefix, threadId), Some(redis.now + ToMillis(timeoutSec, Seconds)))
    {
      var threadToken := idPrefix + IntStr(threadId);
      var accepted, success := redis.SetIfAbsent(KeyPrefix + name, threadToken, 1000 * timeoutSec);
      r := if accepted then Returns(success) else Throws(InvalidExpire);
    }

    /** unlock() on the thread threadId: the unlock script. */
    method Unlock(threadId: int)
      modifies redis`keyspace, redis`log
      ensures var c := ReleaseCmd(Key(), Token(idPrefix, threadId), redis.now);
              redis.keyspace == Apply(old(redis.keyspace), c) && redis.log == old(redis.log) + [c]
    {
      var _ := redis.DeleteIfHeld(KeyPrefix + name, idPrefix + IntStr(threadId));
    }
  }
}
