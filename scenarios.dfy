/** Callers' view: what can be concluded about a manager from the contracts of its methods alone. */
module Scenarios {
  import opened Values
  import opened Exceptions
  import opened CacheClient
  import opened Trace
  import opened Events
  import opened AbstractManager
  import opened Doctrine

  /** Prefix "orders", key "list.active", an empty plain cache: the first call misses, runs the
      method and stores the list under "orders.list.active" with lifetime 60 (the tags are ignored
      by the generic path); the second call is served from the cache. */
  method OrdersScenario() {
    var orders := List([Int(1), Int(2), Int(3)]);
    var m := new Manager.WithPrefix("orders", map["listActive" := (args: seq<Value>) => orders]);
    m.SetCacheClient(Cache(OtherClient, map[]));
    m.EnableCache();
    var first := m.FetchData("listActive", [], Some("list.active"), ["orders", "active"], Some(60));
    assert "orders" + "." + "list.active" == "orders.list.active";
    assert first == Returned(orders);
    assert m.trace == [Has("orders.list.active"), Call("listActive", []), Set("orders.list.active", orders, Some(60))];
    assert m.cacheClient.value.Contains("orders.list.active") && m.cacheClient.value.Lookup("orders.list.active") == orders;
    var second := m.FetchData("listActive", [], Some("list.active"), ["orders", "active"], Some(60));
    assert second == Returned(orders);
    assert m.trace[3..] == [Has("orders.list.active"), Get("orders.list.active")];
  }

  /** With a cache holding "orders.list.active": an unknown method fails with its name and touches
      nothing; once the cache is disabled the same key no longer reaches the cache and the method
      runs live. */
  method UnknownAndDisabledScenario() {
    var orders := List([Int(1), Int(2), Int(3)]);
    var m := new Manager.WithPrefix("orders", map["listActive" := (args: seq<Value>) => orders]);
    m.SetCacheClient(Cache(OtherClient, map["orders.list.active" := List([])]));
    m.EnableCache();
    var missing := m.FetchData("doesNotExist", [], Some("list.active"), [], None);
    assert missing == Raised(MethodNotExists("doesNotExist"));
    assert m.trace == [];
    m.DisableCache();
    var live := m.FetchData("listActive", [], Some("list.active"), [], None);
    assert live == Returned(orders);
    assert m.trace == [Call("listActive", [])];
  }

  /** A cacheable repository behind a provider client, with a dispatcher: a keyed call configures
      the repository and dispatches the event even though the method returns `Null`; the next call,
      without a key, finds the repository reset to a fresh config. */
  method ProviderScenario() {
    var repo := new Repository("App\\Entity\\Order", true, DefaultConfig);
    var orm := new ORMManager(repo, Cache(DoctrineProviderClient, map[]), Some(EventDispatcher(1)),
                              map["findActive" := (args: seq<Value>) => Null]);
    orm.manager.EnableCache();
    var handle := RepositoryHandle("App\\Entity\\Order");
    assert [handle] + [Int(7)] == [handle, Int(7)] && [handle] + [] == [handle];
    var first := orm.FetchData("findActive", [Int(7)], Some("active"), [], None);
    assert first == Returned(Null);
    assert repo.cacheConfig == CacheConfig(Some("active"), Some(0), true);
    assert orm.manager.trace == [ResetCacheConfig, ConfigureCache("active", 0, true), Call("findActive", [handle, Int(7)]),
                                 Dispatch(AfterFetchDataEventName, AfterFetchDataEvent(Null, Some("active")))];
    var second := orm.FetchData("findActive", [], None, [], None);
    assert second == Returned(Null);
    assert repo.cacheConfig == DefaultConfig;
    assert orm.manager.trace[4..] == [ResetCacheConfig, Call("findActive", [handle])];
  }
}
