/** The cache key policy: `buildCacheKey`. */
module Keys {
  import opened Values

  /** The effective key: `prefix . "." . key` when the prefix is truthy, the raw key otherwise. */
  function CacheKey(prefix: string, key: string): string {
    if Truthy(prefix) then prefix + "." + key else key
  }

  /** Under one prefix, distinct raw keys give distinct effective keys. */
  lemma {:induction false} CacheKeyInjective(prefix: string, key1: string, key2: string)
    requires CacheKey(prefix, key1) == CacheKey(prefix, key2)
    ensures key1 == key2
  {
    if Truthy(prefix) {
      var n := |prefix| + 1;
      assert CacheKey(prefix, key1)[n..] == key1;
      assert CacheKey(prefix, key2)[n..] == key2;
    }
  }

  /** Two distinct truthy prefixes never produce the same effective key for the same raw key. */
  lemma {:induction false} PrefixesSeparateKeys(prefix1: string, prefix2: string, key: string)
    requires Truthy(prefix1) && Truthy(prefix2) && prefix1 != prefix2
    ensures CacheKey(prefix1, key) != CacheKey(prefix2, key)
  {
    var key1, key2 := CacheKey(prefix1, key), CacheKey(prefix2, key);
    if |prefix1| == |prefix2| {
      assert key1[..|prefix1|] == prefix1;
      assert key2[..|prefix2|] == prefix2;
    } else {
      assert |key1| != |key2|;
    }
  }

  /** The prefixes "" and "0" are both falsy, so a manager with either uses the raw key. */
  lemma FalsyPrefixesCoincide(key: string)
    ensures CacheKey("", key) == key && CacheKey("0", key) == key
  {
  }
}
