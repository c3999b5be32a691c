# Cache-aware fetch dispatcher of the manager component

This project models the part of the manager component that has real logic: `fetchData`. It
takes a method name, params, an optional cache key, tags and an optional lifetime. It then decides
whether to run the named method of the manager directly, or to answer from the cache and fill it.

- **`AbstractManager`** (`abstract_manager.dfy`, class `AbstractManager.Manager`) holds the cache
  state: the enable flag, the key prefix, the cache client and the event dispatcher. It also holds
  the generic `fetchData`. That algorithm is: fail when the method is unknown; run the method
  directly when there is no key or caching is off; return the cached value on a hit; on a miss,
  run the method and `set` the result unless it is `null`.
- **`ORMManager`** (`orm_manager.dfy`, classes `Doctrine.Repository` and `Doctrine.ORMManager`)
  fails first when the method is unknown, before it touches the repository. Otherwise it takes
  one of two paths, chosen by the class of the cache client. Each path starts the same way: it
  fetches the entity's repository, resets the cache config of a cacheable repository, and puts
  the repository in front of the params.
  - the *provider* path writes the key, the lifetime and `enabled = true` into the repository's
    cache config, runs the method, adds tags when there are some and dispatches the event when a
    dispatcher is attached;
  - the *non-provider* path consults the value cache. Unlike the generic path, it adds tags before
    running the method and dispatches the event before `set`.

Every call the managers make on a collaborator is recorded in a ghost `trace` of effects
(`trace.dfy`): method calls, cache `has`/`get`/`set`/`addTags`, event dispatches, and repository
config resets and updates. The two algorithms are also written as pure functions
(`FetchSpec.Fetch`, `DoctrineSpec.OrmFetch`, `DoctrineSpec.ProviderFetch`,
`DoctrineSpec.NonProviderFetch`). These take the manager's state and return the outcome, the new
state and the effects in order. Each imperative `fetchData` method is proved to return, change
state and record effects exactly as its function does. The ordering and caching properties are
then lemmas about those functions, and `FetchSpec.Run` chains calls for the properties that span
several of them. `scenarios.dfy` holds three caller-side scenarios, proved from the method
contracts alone.

PHP semantics reproduced:
- `!$cacheKey` treats `null`, `""` and `"0"` as "no key" (`Values.KeyGiven`).
- A prefix of `""` or `"0"` is no prefix (`Values.Truthy`).
- Only `null` counts as "no result"; `false` is cached like any other value.
- `empty($cacheTags)` means no elements.
- A `null` lifetime becomes `0` on the provider path only.
- An `AfterFetchDataEvent` is dispatched only when a dispatcher is attached.

Three behaviours of the code that are easy to miss:
- The generic `fetchData` never adds tags and never dispatches an event; it only calls `set`.
- The non-provider ORM path adds tags even when the result is `null`, and dispatches before `set`.
- The provider path adds tags and dispatches on every cached call, hit or miss alike.

## Model

| member | source | states |
|---|---|---|
| AbstractManager.Manager.constructor | AbstractManager.php:24-29 | a new manager has caching off, prefix `''`, no client and no dispatcher |
| AbstractManager.Manager.WithPrefix | AbstractManager.php:29 | a subclass that redeclares the prefix default starts with that prefix, caching off, no client |
| AbstractManager.Manager.SetCacheClient | AbstractManager.php:62-66 | only the client changes |
| AbstractManager.Manager.SetEventDispatcher | AbstractManager.php:130-134 | only the dispatcher changes |
| AbstractManager.Manager.EnableCache | AbstractManager.php:88-92 | the flag becomes true; prefix, client and dispatcher are unchanged |
| AbstractManager.Manager.DisableCache | AbstractManager.php:97-101 | the flag becomes false; prefix, client and dispatcher are unchanged |
| AbstractManager.Manager.IsCacheEnabled | AbstractManager.php:106-109 | true exactly when the flag is on and a client is attached; reads the fields and changes nothing |
| AbstractManager.Manager.BuildCacheKey | AbstractManager.php:114-117 | with a truthy prefix the result is the prefix, a dot, then the key; with `""` or `"0"` it is the key itself |
| AbstractManager.Manager.CallMethod | AbstractManager.php:177 | returns the named method's result on the given args and records exactly that call |
| AbstractManager.Manager.CacheHas | AbstractManager.php:173 | answers whether the client holds the key and records the `has` |
| AbstractManager.Manager.CacheGet | AbstractManager.php:174 | returns the value held under the key and records the `get` |
| AbstractManager.Manager.CacheSet | AbstractManager.php:183 | the client now holds the value under the key, all other keys as before; records the `set` with its lifetime |
| AbstractManager.Manager.CacheAddTags | Doctrine/ORMManager.php:179 | records `addTags(key, tags)` and changes no value |
| AbstractManager.Manager.DispatchEvent | Doctrine/ORMManager.php:182-185 | records the dispatch of the event under `ft.manager.after.fetch.data` |
| AbstractManager.Manager.FetchData | AbstractManager.php:156-186 | result, new client state and appended effects are exactly those of the generic algorithm |
| CacheClient.Cache.Store | AbstractManager.php:183 | after `set` the key holds the value, the client class is kept and every other key is unchanged |
| Keys.CacheKeyInjective | AbstractManager.php:114-117 | under one prefix, distinct raw keys give distinct effective keys |
| Keys.PrefixesSeparateKeys | AbstractManager.php:116 | two distinct truthy prefixes never give the same effective key for the same raw key |
| Keys.FalsyPrefixesCoincide | AbstractManager.php:116 | prefixes `""` and `"0"` both leave the raw key unchanged |
| FetchSpec.UnknownMethodRaises | AbstractManager.php:163-165 | an unknown method raises MethodNotExists with its name, with no effect and no state change |
| FetchSpec.LiveWithoutKeyOrCache | AbstractManager.php:167-169 | with a falsy key or caching off, the only effect is one call of the method with the params, its result is returned as is and the state is unchanged |
| FetchSpec.HitServesCachedValue | AbstractManager.php:171-175 | on a hit the cached value is returned, the method does not run, no `set`, no tags and no event happen, and the state is unchanged |
| FetchSpec.NullResultIsNotCached | AbstractManager.php:177-181 | a miss whose result is `null` returns `null`, runs the named method once with the params, performs no `set`, adds no tags, dispatches no event and leaves the state as it was |
| FetchSpec.GenericNeverTagsOrNotifies | AbstractManager.php:156-186 | for every request, the generic `fetchData` adds no tags and dispatches no event |
| FetchSpec.PresentResultIsStored | AbstractManager.php:177-185 | a miss with a present result returns it; the method runs once before the single `set(key, value, lifetime)`, which is the last effect; no tags and no event |
| FetchSpec.DisabledCacheIsLive | AbstractManager.php:167-169 | with caching off, any sequence of calls behaves exactly like the same calls without keys: each returns what the method returns, only method calls happen, the state never changes |
| FetchSpec.NoNegativeCaching | AbstractManager.php:177-181 | while the method keeps returning `null` for a key, every one of n calls runs it again (n calls in all), returns `null` and never caches the key |
| FetchSpec.StoredValueIsServed | AbstractManager.php:171-175 | once a key holds a value, any number of later calls under it return that value without running any method |
| FetchSpec.StoreThenServe | AbstractManager.php:171-185 | a storing miss followed by calls under the same key runs the method once in all, and every call returns the value it produced |
| Doctrine.ORMManager.constructor | Doctrine/ORMManager.php:47-66 | a new ORM manager has the given client and dispatcher, caching off and prefix `''` |
| Doctrine.ORMManager.GetRepository | Doctrine/ORMManager.php:110-120 | returns the repository; a cacheable one gets a fresh default config (recorded), any other is untouched |
| Doctrine.ORMManager.FetchData | Doctrine/ORMManager.php:127-143 | result, new client state, repository config and effects are exactly those of the ORM algorithm |
| Doctrine.ORMManager.FetchDataWithDoctrineProviderClientCache | Doctrine/ORMManager.php:156-188 | result, repository config and effects are exactly those of the provider path |
| Doctrine.ORMManager.FetchDataWithNonDoctrineProviderClientCache | Doctrine/ORMManager.php:201-240 | result, client state, repository config and effects are exactly those of the non-provider path |
| Doctrine.ORMManager.FetchOnMiss | Doctrine/ORMManager.php:222-239 | after a miss: tags, one run of the method, and for a non-`Null` result the optional event and the store under the key; a `Null` result leaves the client unchanged and ends the effects at the run |
| DoctrineSpec.UnknownMethodRaisesFirst | Doctrine/ORMManager.php:134-136 | an unknown method raises MethodNotExists before the repository is fetched: no effect, state and config unchanged |
| DoctrineSpec.PathFollowsClientClass | Doctrine/ORMManager.php:138-142 | with a key and caching on, the value cache is consulted iff the client is not a provider client, and the repository is configured iff the client is a provider client and the repository is cacheable; so a provider client with a repository that is not cacheable caches nothing |
| DoctrineSpec.ProviderPathLeavesValueCacheAlone | Doctrine/ORMManager.php:156-188 | the provider path never calls `has`, `get` or `set` and never changes the manager state |
| DoctrineSpec.NonProviderPathLeavesConfigReset | Doctrine/ORMManager.php:201-240 | the non-provider path never configures the repository and leaves it with the config `getRepository` gave it |
| DoctrineSpec.ConfigDoesNotLeak | Doctrine/ORMManager.php:110-120 | for a cacheable repository and a known method, the whole outcome of a call is the same whatever config an earlier call left on it. That config stays on the repository only until the next call with a known method |
| DoctrineSpec.NonCacheableRepositoryUntouched | Doctrine/ORMManager.php:114-117 | a repository that is not cacheable keeps its config, and neither a reset nor a configuration is recorded |
| DoctrineSpec.RepositoryIsInjected | Doctrine/ORMManager.php:163-210 | on both paths the method runs at most once, and always with the repository first and the caller's params after it in order |
| DoctrineSpec.ProviderInjects | Doctrine/ORMManager.php:163-176 | on the provider path the method runs exactly once per call, with the repository handle first and the caller's params after it |
| DoctrineSpec.NonProviderInjects | Doctrine/ORMManager.php:208-226 | on the other path the method runs exactly once, except on a hit where it does not run at all, with the repository handle first and the caller's params after it |
| DoctrineSpec.ProviderCounts | Doctrine/ORMManager.php:167-185 | on the provider path `addTags` happens once when the call caches and there are tags, and never otherwise; the event is dispatched once when the call caches and a dispatcher is attached, and never otherwise |
| DoctrineSpec.NonProviderCounts | Doctrine/ORMManager.php:212-235 | on the other path `addTags` happens once on a miss with tags, and never otherwise; the event is dispatched once on a miss with a present result and a dispatcher, and never otherwise |
| DoctrineSpec.NonProviderMissCounts | Doctrine/ORMManager.php:222-235 | on a miss, `addTags` happens once iff there are tags; the event is dispatched once iff the result is present and a dispatcher is attached |
| DoctrineSpec.ProviderFastPath | Doctrine/ORMManager.php:167-169 | with a falsy key, caching off or a non-cacheable repository, the effects are the reset then the one call: no tags, no event |
| DoctrineSpec.NonProviderFastPath | Doctrine/ORMManager.php:212-214 | with no key or the cache off, the non-provider path runs the method once with the repository in front of the params and returns its result as is; the state is unchanged, the config is as reset, and the only effects are the reset and that call |
| DoctrineSpec.ProviderCachedPath | Doctrine/ORMManager.php:171-176 | the config becomes (effective key, lifetime or 0 when null, enabled) before the method's single run |
| DoctrineSpec.ProviderTagsAndEvent | Doctrine/ORMManager.php:178-187 | after the run, tags are added iff there are some, and the event carrying the result (even `null`) and the key is dispatched iff a dispatcher is attached; with both, the tags come before the event; `addTags` happens exactly once when there are tags and the event exactly once when there is a dispatcher |
| DoctrineSpec.NonProviderHit | Doctrine/ORMManager.php:216-220 | a hit returns the cached value with no tags, no method call, no event and no `set` |
| DoctrineSpec.NonProviderNullMiss | Doctrine/ORMManager.php:222-230 | on a miss, the method runs exactly once, tags are added, exactly once, iff there are some, before the method runs, even when it returns `null`; a `null` result gives no event and no `set` |
| DoctrineSpec.NonProviderStoredMiss | Doctrine/ORMManager.php:226-239 | on a miss with a present result the method runs exactly once, the result is returned and stored under the key; the single `set` is the last effect and carries the lifetime unnormalised |
| DoctrineSpec.NonProviderMissOrder | Doctrine/ORMManager.php:222-237 | on a miss with a present result, tags are added exactly once iff there are some, before the run; the event is raised exactly once when a dispatcher is attached and never otherwise, after the run and before the `set` |

## Left out

- File/FileManager.php and Http/GuzzleHttpManager.php: they build Guzzle HTTP clients and make network requests. Their only relevant behaviour is the inherited `fetchData`, modelled by `AbstractManager.Manager`.
- The interfaces (ManagerInterface.php and the three others) carry signatures only.
- The cache resolver and the logger, with their getters and setters: they are stored but never consulted by the fetch logic. The getters of the client and the dispatcher are plain field reads.
- `setEntityNamespace` and its `class_exists` check, the entity manager field and its lookup: `Doctrine.ORMManager` holds the repository the entity manager would return (Doctrine returns one instance per entity class). The resolver argument of the ORM constructor is dropped for the same reason as above.
- The cache key prefix has no setter in the source. `AbstractManager.Manager.WithPrefix` stands for a subclass that redeclares the property's default.
- `SmartInt\Component\Cache\Model\Config` is not part of this model: a fresh config is taken to have no key, no lifetime and caching off.
- The internals of the cache clients, the Doctrine result cache and the Symfony event dispatcher are foreign code. The value cache is a map. Lifetimes and tags appear only in the effect trace; expiry and tag invalidation are not modelled. Listeners of the event are not modelled.
- Methods are total functions of their arguments. A method that throws, that changes the manager, or that calls `fetchData` again is not modelled. For the same reason, the provider path does not say whether the repository answered from its own cache. Errors raised by the cache client are not modelled either.
- The `has`/`get` race with other processes and any concurrent use: the model is sequential, and a `get` follows a successful `has` on the same state.
- A cache client shared by several managers: each manager holds its client as a value, so aliasing between managers is not captured.
- Method names are looked up exactly: the registry `methods` is taken to be keyed by every spelling PHP accepts. PHP compares method names without regard to ASCII case, in `method_exists` (AbstractManager.php:163, Doctrine/ORMManager.php:134) and in `$this->$method(...)`, so `fetchData("LISTACTIVE", ...)` would run `listActive` there, while a registry holding only `"listActive"` makes the model raise `MethodNotExists`.
- The exception message text of MethodNotExistsException: the error carries the method name only.
- Doctrine.ORMManager.FetchDataWithDoctrineProviderClientCache: requires the method to exist. Called directly with an unknown name, PHP raises an engine error only when it invokes the method, after `getRepository` has already reset the config. That error path is not modelled.
- Doctrine.ORMManager.FetchDataWithNonDoctrineProviderClientCache: requires the method to exist, for the same reason.
