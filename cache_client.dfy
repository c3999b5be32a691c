/** The cache client a manager talks to, and the cache config of a cacheable repository. */
module CacheClient {
  import opened Values

  /** The runtime class of a cache client, as far as the managers' `instanceof` tests can tell. */
  datatype ClientKind = DoctrineProviderClient | OtherClient

  /** A cache client: its class and the values it holds under effective keys.
      Lifetimes and tags are recorded in the effect trace only. */
  datatype Cache = Cache(kind: ClientKind, entries: map<string, Value>) {

    /** `has($key)` */
    predicate Contains(key: string) {
      key in entries
    }

    /** `get($key)` after a successful `has($key)` */
    function Lookup(key: string): Value
      requires Contains(key)
    {
      entries[key]
    }

    /** `set($key, $value, $lifetime)`: the key now holds the value and every other key is as before. */
    function Store(key: string, value: Value): (c: Cache)
      ensures c.kind == kind
      ensures c.Contains(key) && c.Lookup(key) == value
      ensures forall k :: k != key ==> (c.Contains(k) <==> Contains(k))
      ensures forall k :: k != key && Contains(k) ==> c.Lookup(k) == Lookup(k)
    {
      Cache(kind, entries[key := value])
    }
  }

  /** The cache config object of a repository that implements `CacheableInterface`. */
  datatype CacheConfig = CacheConfig(key: Option<string>, lifetime: Option<int>, enabled: bool)

  /** `new Config()`: no key, no lifetime, caching off. */
  const DefaultConfig: CacheConfig := CacheConfig(None, None, false)
}
