/** `Doctrine\ORMManager`: a manager whose methods receive the entity's repository first, and
    whose `fetchData` picks a path from the class of the cache client. */
module Doctrine {
  import opened Values
  import opened Exceptions
  import opened Events
  import opened CacheClient
  import opened Trace
  import opened FetchSpec
  import opened DoctrineSpec
  import opened AbstractManager

  /** The Doctrine repository the entity manager hands out for the manager's entity class; the
      entity manager returns this same object on every lookup. */
  class Repository {
    const entityNamespace: string
    /** The repository implements `CacheableInterface`. */
    const cacheable: bool
    var cacheConfig: CacheConfig

    function State(): RepositoryState
      reads this
    {
      RepositoryState(entityNamespace, cacheable, cacheConfig)
    }

    constructor (entityNamespace: string, cacheable: bool, cacheConfig: CacheConfig)
      ensures State() == RepositoryState(entityNamespace, cacheable, cacheConfig)
    {
      this.entityNamespace := entityNamespace;
      this.cacheable := cacheable;
      this.cacheConfig := cacheConfig;
    }
  }

  class ORMManager {
    /** The state and collaborator calls inherited from `AbstractManager`. */
    const manager: Manager
    /** What `getEntityManager()->getRepository($this->entityNamespace)` yields. */
    const repository: Repository

    /** `new ORMManager($entityNamespace, $entityManager, $cacheClient, $cacheResolver, $eventDispatcher)`,
        with the optional resolver left out. */
    constructor (repository: Repository, cacheClient: Cache, eventDispatcher: Option<EventDispatcher>,
                 methods: map<string, Operation>)
      ensures this.repository == repository && fresh(manager)
      ensures manager.State() == ManagerState(false, "", Some(cacheClient), eventDispatcher)
      ensures manager.methods == methods && manager.trace == []
    {
      this.repository := repository;
      var m := new Manager(methods);
      m.SetCacheClient(cacheClient);
      if eventDispatcher.Some? {
        m.SetEventDispatcher(eventDispatcher.value);
      }
      manager := m;
    }

    /** `getRepository()`: a cacheable repository gets a fresh default config on every call; any
        other repository is returned untouched. */
    method GetRepository() returns (repo: Repository)
      modifies repository`cacheConfig, manager`trace
      ensures repo == repository
      ensures repository.cacheConfig == ResetConfig(old(repository.State()))
      ensures manager.trace == old(manager.trace) + ResetEffects(old(repository.State()))
    {
      repo := repository;
      if repo.cacheable {
        repo.cacheConfig := DefaultConfig;
        manager.trace := manager.trace + [ResetCacheConfig];
      }
    }

    /** `fetchData`: returns, changes the state and has the effects that `OrmFetch` gives. */
    method FetchData(methodName: string, params: seq<Value>, cacheKey: Option<string>,
                     cacheTags: seq<string>, cacheLifetime: Option<int>) returns (r: Outcome)
      modifies manager`cacheClient, manager`trace, repository`cacheConfig
      ensures var st := OrmFetch(old(manager.State()), old(repository.State()), manager.methods,
                                 Request(methodName, params, cacheKey, cacheTags, cacheLifetime));
        && r == st.outcome && manager.State() == st.state
        && repository.cacheConfig == st.cacheConfig && manager.trace == old(manager.trace) + st.effects
    {
      if methodName !in manager.methods {
        return Raised(MethodNotExists(methodName));
      }
      if manager.cacheClient.Some? && manager.cacheClient.value.kind == DoctrineProviderClient {
        r := FetchDataWithDoctrineProviderClientCache(methodName, params, cacheKey, cacheTags, cacheLifetime);
      } else {
        r := FetchDataWithNonDoctrineProviderClientCache(methodName, params, cacheKey, cacheTags, cacheLifetime);
      }
    }

    /** `fetchDataWithDoctrineProviderClientCache`: returns, changes the state and has the effects
        that `ProviderFetch` gives. */
    method FetchDataWithDoctrineProviderClientCache(methodName: string, params: seq<Value>, cacheKey: Option<string>,
                                                    cacheTags: seq<string>, cacheLifetime: Option<int>) returns (r: Outcome)
      requires methodName in manager.methods
      modifies manager`trace, repository`cacheConfig
      ensures var st := ProviderFetch(old(manager.State()), old(repository.State()), manager.methods,
                                      Request(methodName, params, cacheKey, cacheTags, cacheLifetime));
        && r == st.outcome && manager.State() == st.state
        && repository.cacheConfig == st.cacheConfig && manager.trace == old(manager.trace) + st.effects
    {
      ghost var s0, repo0, trace0 := manager.State(), repository.State(), manager.trace;
      var repo := GetRepository();
      var args := Arguments(repo.State(), params);
      if !KeyGiven(cacheKey) || !manager.IsCacheEnabled() || !repo.cacheable {
        var result := manager.CallMethod(methodName, args);
        return Returned(result);
      }
      var key := manager.BuildCacheKey(cacheKey.value);
      var lifetime := NormalisedLifetime(cacheLifetime);
      repo.cacheConfig := CacheConfig(Some(key), Some(lifetime), true);
      manager.trace := manager.trace + [ConfigureCache(key, lifetime, true)];
      var result := manager.CallMethod(methodName, args);
      ghost var head := ResetEffects(repo0) + [ConfigureCache(key, lifetime, true), Call(methodName, args)];
      assert manager.trace == trace0 + head;
      if |cacheTags| > 0 {
        manager.CacheAddTags(key, cacheTags);
      }
      assert manager.trace == trace0 + (head + Tagging(key, cacheTags));
      if manager.eventDispatcher.Some? {
        manager.DispatchEvent(AfterFetchDataEvent(result, Some(key)));
      }
      assert manager.trace == trace0 + (head + Tagging(key, cacheTags) + Notification(s0, result, key));
      return Returned(result);
    }

    /** `fetchDataWithNonDoctrineProviderClientCache`: returns, changes the state and has the
        effects that `NonProviderFetch` gives. */
    method FetchDataWithNonDoctrineProviderClientCache(methodName: string, params: seq<Value>, cacheKey: Option<string>,
                                                       cacheTags: seq<string>, cacheLifetime: Option<int>) returns (r: Outcome)
      requires methodName in manager.methods
      modifies manager`cacheClient, manager`trace, repository`cacheConfig
      ensures var st := NonProviderFetch(old(manager.State()), old(repository.State()), manager.methods,
                                         Request(methodName, params, cacheKey, cacheTags, cacheLifetime));
        && r == st.outcome && manager.State() == st.state
        && repository.cacheConfig == st.cacheConfig && manager.trace == old(manager.trace) + st.effects
    {
      ghost var s0, repo0, trace0 := manager.State(), repository.State(), manager.trace;
      ghost var spec := NonProviderFetch(s0, repo0, manager.methods, Request(methodName, params, cacheKey, cacheTags, cacheLifetime));
      var repo := GetRepository();
      var args := Arguments(repo.State(), params);
      if !KeyGiven(cacheKey) || !manager.IsCacheEnabled() {
        var result := manager.CallMethod(methodName, args);
        assert spec == OrmStep(Returned(result), s0, ResetConfig(repo0), ResetEffects(repo0) + [Call(methodName, args)]);
        return Returned(result);
      }
      var key := manager.BuildCacheKey(cacheKey.value);
      var hit := manager.CacheHas(key);
      if hit {
        var cached := manager.CacheGet(key);
        assert spec == OrmStep(Returned(cached), s0, ResetConfig(repo0), ResetEffects(repo0) + [Has(key), Get(key)]);
        return Returned(cached);
      }
      assert manager.trace == trace0 + (ResetEffects(repo0) + [Has(key)]);
      var result := FetchOnMiss(methodName, args, key, cacheTags, cacheLifetime);
      ghost var before := ResetEffects(repo0) + [Has(key)] + Tagging(key, cacheTags) + [Call(methodName, args)];
      if result.Null? {
        assert manager.trace == trace0 + before;
        assert spec == OrmStep(Returned(Null), s0, ResetConfig(repo0), before);
      } else {
        ghost var effects := before + Notification(s0, result, key) + [Set(key, result, cacheLifetime)];
        assert manager.trace == trace0 + effects;
        assert spec == OrmStep(Returned(result), manager.State(), ResetConfig(repo0), effects);
      }
      return Returned(result);
    }

    /** The miss path of `fetchDataWithNonDoctrineProviderClientCache` once the key is known to be
        absent: tags the key, runs the method, and for a non-`Null` result notifies the dispatcher
        (when there is one) and stores the result under the key. A `Null` result is returned as is
        and nothing after the run happens. */
    method FetchOnMiss(methodName: string, args: seq<Value>, key: string, cacheTags: seq<string>,
                       cacheLifetime: Option<int>) returns (result: Value)
      requires methodName in manager.methods && manager.cacheClient.Some?
      modifies manager`cacheClient, manager`trace
      ensures result == manager.methods[methodName](args)
      ensures var s := old(manager.State());
        && manager.State() == (if result.Null? then s else s.(cacheClient := Some(s.cacheClient.value.Store(key, result))))
        && manager.trace == old(manager.trace) + Tagging(key, cacheTags) + [Call(methodName, args)]
             + (if result.Null? then [] else Notification(s, result, key) + [Set(key, result, cacheLifetime)])
    {
      if |cacheTags| > 0 {
        manager.CacheAddTags(key, cacheTags);
      }
      result := manager.CallMethod(methodName, args);
      if result.Null? {
        return;
      }
      if manager.eventDispatcher.Some? {
        manager.DispatchEvent(AfterFetchDataEvent(result, Some(key)));
      }
      manager.CacheSet(key, result, cacheLifetime);
    }
  }
}
