/** Redis key names. Java builds every key by string concatenation with a
    `Long`, so the model needs `Long.toString` and the fact that it is
    injective: two different ids never share a key. */
module Keys {

  /** The decimal digit for d. */
  function Digit(d: nat): (c: char)
    requires d < 10
    ensures '0' <= c <= '9'
  {
    (48 + d) as char
  }

  /** The decimal representation of n, without leading zeros. */
  function NatStr(n: nat): (s: string)
    ensures |s| >= 1
    ensures n >= 10 ==> |s| >= 2
    ensures forall i :: 0 <= i < |s| ==> '0' <= s[i] <= '9'
    decreases n
  {
    if n < 10 then [Digit(n)] else NatStr(n / 10) + [Digit(n % 10)]
  }

  /** `Long.toString(i)`: a minus sign, then the digits of the magnitude. */
  function IntStr(i: int): (s: string)
  {
    if i < 0 then "-" + NatStr(-i) else NatStr(i)
  }

  lemma {:induction false} NatStrInjective(a: nat, b: nat)
    requires NatStr(a) == NatStr(b)
    ensures a == b
    decreases a
  {
    if a < 10 && b < 10 {
      assert Digit(a) == NatStr(a)[0] == NatStr(b)[0] == Digit(b);
    } else if a >= 10 && b >= 10 {
      var s := NatStr(a);
      assert s == NatStr(a / 10) + [Digit(a % 10)];
      assert s == NatStr(b / 10) + [Digit(b % 10)];
      assert NatStr(a / 10) == s[..|s| - 1] == NatStr(b / 10);
      assert Digit(a % 10) == s[|s| - 1] == Digit(b % 10);
      NatStrInjective(a / 10, b / 10);
    }
  }

  /** Different ids have different decimal strings. */
  lemma IntStrInjective(a: int, b: int)
    requires IntStr(a) == IntStr(b)
    ensures a == b
  {
    assert IntStr(a)[0] == '-' <==> a < 0;
    assert IntStr(b)[0] == '-' <==> b < 0;
    if a < 0 {
      assert NatStr(-a) == IntStr(a)[1..] == IntStr(b)[1..] == NatStr(-b);
      NatStrInjective(-a, -b);
    } else {
      NatStrInjective(a, b);
    }
  }

  /** A fixed prefix followed by an id determines the id. */
  lemma PrefixedIdInjective(prefix: string, a: int, b: int)
    requires prefix + IntStr(a) == prefix + IntStr(b)
    ensures a == b
  {
    var s := prefix + IntStr(a);
    assert IntStr(a) == s[|prefix|..] == IntStr(b);
    IntStrInjective(a, b);
  }

  // RedisConstants.java is not part of this model; these are the values fixed
  // for it here.
  const CacheShopKey: string := "cache:shop:"
  const LockShopKey: string := "lock:shop:"
  /** Minutes the "" marker for a missing shop lives. */
  const CacheNullTtl: nat := 2
  /** Minutes a cached shop lives. */
  const CacheShopTtl: nat := 30

  /** `CACHE_SHOP_KEY + id`. */
  function ShopCacheKey(id: int): string { CacheShopKey + IntStr(id) }

  /** `LOCK_SHOP_KEY + id`, the rebuild lock of a shop. */
  function ShopLockKey(id: int): string { LockShopKey + IntStr(id) }

  /** A rebuild lock is never a cached entity: the two prefixes differ in their
      first character. */
  lemma LockKeyIsNotCacheKey(keyPrefix: string, a: int, b: int)
    requires |keyPrefix| > 0 && keyPrefix[0] == 'c'
    ensures ShopLockKey(a) != keyPrefix + IntStr(b)
  {
    assert ShopLockKey(a)[0] == 'l';
    assert (keyPrefix + IntStr(b))[0] == 'c';
  }
}
