/** `AbstractManager`: the cache state every manager carries, the calls it makes on its
    collaborators, and the generic `fetchData`. */
module AbstractManager {
  import opened Values
  import opened Exceptions
  import opened Events
  import opened CacheClient
  import opened Trace
  import opened Keys
  import FetchSpec

  class Manager {
    var cacheEnabled: bool
    const cacheKeyPrefix: string
    var cacheClient: Option<Cache>
    var eventDispatcher: Option<EventDispatcher>
    /** The methods of the concrete manager, by name. */
    const methods: map<string, Operation>
    /** Every effect this manager has had, oldest first. */
    ghost var trace: seq<Effect>

    /** The fields the fetch algorithms consult. */
    function State(): FetchSpec.ManagerState
      reads this
    {
      FetchSpec.ManagerState(cacheEnabled, cacheKeyPrefix, cacheClient, eventDispatcher)
    }

    /** A manager with `AbstractManager`'s defaults: cache off, prefix '', no client, no dispatcher. */
    constructor (methods: map<string, Operation>)
      ensures State() == FetchSpec.ManagerState(false, "", None, None)
      ensures this.methods == methods && trace == []
    {
      cacheEnabled := false;
      cacheKeyPrefix := "";
      cacheClient := None;
      eventDispatcher := None;
      this.methods := methods;
      trace := [];
    }

    /** A manager whose class redeclares the default of `$cacheKeyPrefix`. */
    constructor WithPrefix(cacheKeyPrefix: string, methods: map<string, Operation>)
      ensures State() == FetchSpec.ManagerState(false, cacheKeyPrefix, None, None)
      ensures this.methods == methods && trace == []
    {
      cacheEnabled := false;
      this.cacheKeyPrefix := cacheKeyPrefix;
      cacheClient := None;
      eventDispatcher := None;
      this.methods := methods;
      trace := [];
    }

    method SetCacheClient(client: Cache)
      modifies this`cacheClient
      ensures State() == old(State()).(cacheClient := Some(client))
    {
      cacheClient := Some(client);
    }

    method SetEventDispatcher(dispatcher: EventDispatcher)
      modifies this`eventDispatcher
      ensures State() == old(State()).(eventDispatcher := Some(dispatcher))
    {
      eventDispatcher := Some(dispatcher);
    }

    method EnableCache()
      modifies this`cacheEnabled
      ensures State() == old(State()).(cacheEnabled := true)
    {
      cacheEnabled := true;
    }

    method DisableCache()
      modifies this`cacheEnabled
      ensures State() == old(State()).(cacheEnabled := false)
    {
      cacheEnabled := false;
    }

    /** `isCacheEnabled()`: caching is active only when the flag is on AND a client is attached. */
    function IsCacheEnabled(): (r: bool)
      reads this
      ensures r <==> cacheEnabled && cacheClient.Some?
    {
      State().IsCacheEnabled()
    }

    /** `buildCacheKey($key)`: the prefix, a dot and the key when the prefix is truthy; the key
        alone when the prefix is "" or "0". */
    function BuildCacheKey(key: string): (r: string)
      ensures Truthy(cacheKeyPrefix) ==> |r| == |cacheKeyPrefix| + 1 + |key|
      ensures Truthy(cacheKeyPrefix) ==>
        r[..|cacheKeyPrefix|] == cacheKeyPrefix && r[|cacheKeyPrefix|] == '.' && r[|cacheKeyPrefix| + 1..] == key
      ensures !Truthy(cacheKeyPrefix) ==> r == key
    {
      CacheKey(cacheKeyPrefix, key)
    }

    // -------------------------------------------------------------------------------------
    // The calls a manager makes on its collaborators; each records its effect.

    /** `$this->$method(...$args)` */
    method CallMethod(methodName: string, args: seq<Value>) returns (result: Value)
      requires methodName in methods
      modifies this`trace
      ensures result == methods[methodName](args)
      ensures trace == old(trace) + [Call(methodName, args)]
    {
      result := methods[methodName](args);
      trace := trace + [Call(methodName, args)];
    }

    /** `$this->cacheClient->has($key)` */
    method CacheHas(key: string) returns (hit: bool)
      requires cacheClient.Some?
      modifies this`trace
      ensures hit == cacheClient.value.Contains(key)
      ensures trace == old(trace) + [Has(key)]
    {
      hit := cacheClient.value.Contains(key);
      trace := trace + [Has(key)];
    }

    /** `$this->cacheClient->get($key)` */
    method CacheGet(key: string) returns (value: Value)
      requires cacheClient.Some? && cacheClient.value.Contains(key)
      modifies this`trace
      ensures value == cacheClient.value.Lookup(key)
      ensures trace == old(trace) + [Get(key)]
    {
      value := cacheClient.value.Lookup(key);
      trace := trace + [Get(key)];
    }

    /** `$this->cacheClient->set($key, $value, $lifetime)` */
    method CacheSet(key: string, value: Value, lifetime: Option<int>)
      requires cacheClient.Some?
      modifies this`cacheClient, this`trace
      ensures cacheClient == Some(old(cacheClient).value.Store(key, value))
      ensures State() == old(State()).(cacheClient := Some(old(cacheClient).value.Store(key, value)))
      ensures trace == old(trace) + [Set(key, value, lifetime)]
    {
      cacheClient := Some(cacheClient.value.Store(key, value));
      trace := trace + [Set(key, value, lifetime)];
    }

    /** `$this->cacheClient->addTags($key, $tags)` */
    method CacheAddTags(key: string, tags: seq<string>)
      requires cacheClient.Some?
      modifies this`trace
      ensures trace == old(trace) + [AddTags(key, tags)]
    {
      trace := trace + [AddTags(key, tags)];
    }

    /** `$eventDispatcher->dispatch(AfterFetchDataEvent::NAME, $event)` */
    method DispatchEvent(event: AfterFetchDataEvent)
      requires eventDispatcher.Some?
      modifies this`trace
      ensures trace == old(trace) + [Dispatch(AfterFetchDataEventName, event)]
    {
      trace := trace + [Dispatch(AfterFetchDataEventName, event)];
    }

    // -------------------------------------------------------------------------------------

    /** `fetchData`: returns, changes the state and has the effects that `FetchSpec.Fetch` gives. */
    method FetchData(methodName: string, params: seq<Value>, cacheKey: Option<string>,
                     cacheTags: seq<string>, cacheLifetime: Option<int>) returns (r: Outcome)
      modifies this`cacheClient, this`trace
      ensures var st := FetchSpec.Fetch(old(State()), methods,
                                        FetchSpec.Request(methodName, params, cacheKey, cacheTags, cacheLifetime));
        r == st.outcome && State() == st.state && trace == old(trace) + st.effects
    {
      if methodName !in methods {
        return Raised(MethodNotExists(methodName));
      }
      if !KeyGiven(cacheKey) || !IsCacheEnabled() {
        var result := CallMethod(methodName, params);
        return Returned(result);
      }
      var key := BuildCacheKey(cacheKey.value);
      var hit := CacheHas(key);
      if hit {
        var cached := CacheGet(key);
        return Returned(cached);
      }
      var value := CallMethod(methodName, params);
      if value.Null? {
        return Returned(Null);
      }
      CacheSet(key, value, cacheLifetime);
      return Returned(value);
    }
  }
}
