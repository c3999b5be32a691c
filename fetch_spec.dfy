/** The generic fetch algorithm of `AbstractManager::fetchData`, as a function of the manager's
    state, and what it does over a sequence of calls. */
module FetchSpec {
  import opened Values
  import opened Exceptions
  import opened Events
  import opened CacheClient
  import opened Trace
  import opened Keys

  /** The fields of a manager that the fetch algorithms consult. */
  datatype ManagerState = ManagerState(
    cacheEnabled: bool,
    cacheKeyPrefix: string,
    cacheClient: Option<Cache>,
    eventDispatcher: Option<EventDispatcher>)
  {
    /** `isCacheEnabled()`: the flag is on and a client is attached. */
    predicate IsCacheEnabled() {
      cacheEnabled && cacheClient.Some?
    }

    /** `buildCacheKey($key)` */
    function BuildCacheKey(key: string): string {
      CacheKey(cacheKeyPrefix, key)
    }
  }

  /** The arguments of one `fetchData` call. */
  datatype Request = Request(
    methodName: string,
    params: seq<Value>,
    cacheKey: Option<string>,
    cacheTags: seq<string>,
    cacheLifetime: Option<int>)

  /** The outcome of one call, the manager state after it, and the effects it had, in order. */
  datatype Step = Step(outcome: Outcome, state: ManagerState, effects: seq<Effect>)

  /** `AbstractManager::fetchData`. */
  function Fetch(s: ManagerState, methods: map<string, Operation>, req: Request): Step {
    if req.methodName !in methods then
      Step(Raised(MethodNotExists(req.methodName)), s, [])
    else if !KeyGiven(req.cacheKey) || !s.IsCacheEnabled() then
      Step(Returned(methods[req.methodName](req.params)), s, [Call(req.methodName, req.params)])
    else
      var key := s.BuildCacheKey(req.cacheKey.value);
      var cache := s.cacheClient.value;
      if cache.Contains(key) then
        Step(Returned(cache.Lookup(key)), s, [Has(key), Get(key)])
      else
        var value := methods[req.methodName](req.params);
        if value.Null? then
          Step(Returned(Null), s, [Has(key), Call(req.methodName, req.params)])
        else
          Step(Returned(value), s.(cacheClient := Some(cache.Store(key, value))),
               [Has(key), Call(req.methodName, req.params), Set(key, value, req.cacheLifetime)])
  }

  /** What a call does when there is no cache at all: run the method, or fail to find it. */
  function Direct(methods: map<string, Operation>, req: Request): Outcome {
    if req.methodName in methods then Returned(methods[req.methodName](req.params))
    else Raised(MethodNotExists(req.methodName))
  }

  // ---------------------------------------------------------------------------------------
  // One call

  lemma UnknownMethodRaises(s: ManagerState, methods: map<string, Operation>, req: Request)
    requires req.methodName !in methods
    ensures Fetch(s, methods, req) == Step(Raised(MethodNotExists(req.methodName)), s, [])
  {
  }

  lemma LiveWithoutKeyOrCache(s: ManagerState, methods: map<string, Operation>, req: Request)
    requires req.methodName in methods
    requires !KeyGiven(req.cacheKey) || !s.IsCacheEnabled()
    ensures var st := Fetch(s, methods, req);
      && st.outcome == Direct(methods, req)
      && st.state == s
      && st.effects == [Call(req.methodName, req.params)]
  {
  }

  lemma HitServesCachedValue(s: ManagerState, methods: map<string, Operation>, req: Request)
    requires req.methodName in methods && KeyGiven(req.cacheKey) && s.IsCacheEnabled()
    requires s.cacheClient.value.Contains(s.BuildCacheKey(req.cacheKey.value))
    ensures var key := s.BuildCacheKey(req.cacheKey.value);
      var st := Fetch(s, methods, req);
      && st.outcome == Returned(s.cacheClient.value.Lookup(key))
      && st.state == s
      && Calls(st.effects) == 0
      && forall j :: 0 <= j < |st.effects| ==> !st.effects[j].Set? && !st.effects[j].AddTags? && !st.effects[j].Dispatch?
  {
    CallsZero(Fetch(s, methods, req).effects);
  }

  lemma NullResultIsNotCached(s: ManagerState, methods: map<string, Operation>, req: Request)
    requires req.methodName in methods && KeyGiven(req.cacheKey) && s.IsCacheEnabled()
    requires !s.cacheClient.value.Contains(s.BuildCacheKey(req.cacheKey.value))
    requires methods[req.methodName](req.params).Null?
    ensures var st := Fetch(s, methods, req);
      && st.outcome == Returned(Null)
      && st.state == s
      && Calls(st.effects) == 1
      && Call(req.methodName, req.params) in st.effects
      && forall j :: 0 <= j < |st.effects| ==> !st.effects[j].Set? && !st.effects[j].AddTags? && !st.effects[j].Dispatch?
  {
    CallsOne(Fetch(s, methods, req).effects, 1);
  }

  /** Whatever the request, the generic path never adds tags and never dispatches an event. */
  lemma GenericNeverTagsOrNotifies(s: ManagerState, methods: map<string, Operation>, req: Request)
    ensures var st := Fetch(s, methods, req);
      forall j :: 0 <= j < |st.effects| ==> !st.effects[j].AddTags? && !st.effects[j].Dispatch?
  {
  }

  lemma PresentResultIsStored(s: ManagerState, methods: map<string, Operation>, req: Request)
    requires req.methodName in methods && KeyGiven(req.cacheKey) && s.IsCacheEnabled()
    requires !s.cacheClient.value.Contains(s.BuildCacheKey(req.cacheKey.value))
    requires !methods[req.methodName](req.params).Null?
    ensures var key := s.BuildCacheKey(req.cacheKey.value);
      var value := methods[req.methodName](req.params);
      var st := Fetch(s, methods, req);
      && st.outcome == Returned(value)
      && st.state == s.(cacheClient := Some(s.cacheClient.value.Store(key, value)))
      && Calls(st.effects) == 1
      && Before(st.effects, Call(req.methodName, req.params), Set(key, value, req.cacheLifetime))
      && st.effects[|st.effects| - 1] == Set(key, value, req.cacheLifetime)
      && (forall j :: 0 <= j < |st.effects| - 1 ==> !st.effects[j].Set?)
      && (forall j :: 0 <= j < |st.effects| ==> !st.effects[j].AddTags? && !st.effects[j].Dispatch?)
  {
    var st := Fetch(s, methods, req);
    var key := s.BuildCacheKey(req.cacheKey.value);
    var value := methods[req.methodName](req.params);
    assert st.effects[1] == Call(req.methodName, req.params);
    assert st.effects[2] == Set(key, value, req.cacheLifetime);
    CallsOne(st.effects, 1);
  }

  // ---------------------------------------------------------------------------------------
  // Several calls in a row

  /** The outcomes of a sequence of calls, the final state and all effects in order. */
  datatype Session = Session(outcomes: seq<Outcome>, state: ManagerState, effects: seq<Effect>)

  /** Runs the calls one after another, each on the state the previous one left. */
  function Run(s: ManagerState, methods: map<string, Operation>, reqs: seq<Request>): (r: Session)
    ensures |r.outcomes| == |reqs|
    decreases |reqs|
  {
    if reqs == [] then Session([], s, [])
    else
      var first := Fetch(s, methods, reqs[0]);
      var rest := Run(first.state, methods, reqs[1..]);
      Session([first.outcome] + rest.outcomes, rest.state, first.effects + rest.effects)
  }

  /** The same calls with no cache key. */
  function WithoutKeys(reqs: seq<Request>): (r: seq<Request>)
    ensures |r| == |reqs|
  {
    if reqs == [] then [] else [reqs[0].(cacheKey := None)] + WithoutKeys(reqs[1..])
  }

  /** With the cache off (flag false or no client), every call is live: it behaves exactly as the
      same call without a key, it returns what the method returns, only method calls happen, and
      the state never changes. */
  lemma {:induction false} DisabledCacheIsLive(s: ManagerState, methods: map<string, Operation>, reqs: seq<Request>)
    requires !s.IsCacheEnabled()
    ensures Run(s, methods, reqs) == Run(s, methods, WithoutKeys(reqs))
    ensures Run(s, methods, reqs).state == s
    ensures forall i :: 0 <= i < |reqs| ==> Run(s, methods, reqs).outcomes[i] == Direct(methods, reqs[i])
    ensures NoCacheEffects(Run(s, methods, reqs).effects)
    decreases |reqs|
  {
    if reqs != [] {
      DisabledCacheIsLive(s, methods, reqs[1..]);
      DisabledStepIsLive(s, methods, reqs[0]);
      assert WithoutKeys(reqs)[0] == reqs[0].(cacheKey := None);
      assert WithoutKeys(reqs)[1..] == WithoutKeys(reqs[1..]);
      var first := Fetch(s, methods, reqs[0]);
      var rest := Run(s, methods, reqs[1..]);
      NoCacheEffectsAppend(first.effects, rest.effects);
      LiveOutcomes(s, methods, reqs);
    }
  }

  /** Only method calls happen in the trace. */
  predicate NoCacheEffects(effects: seq<Effect>) {
    forall j :: 0 <= j < |effects| ==> effects[j].Call?
  }

  lemma NoCacheEffectsAppend(a: seq<Effect>, b: seq<Effect>)
    requires NoCacheEffects(a) && NoCacheEffects(b)
    ensures NoCacheEffects(a + b)
  {
    assert forall j :: |a| <= j < |a + b| ==> (a + b)[j] == b[j - |a|];
  }

  /** One call with the cache off is the same call without a key, and is live. */
  lemma DisabledStepIsLive(s: ManagerState, methods: map<string, Operation>, req: Request)
    requires !s.IsCacheEnabled()
    ensures Fetch(s, methods, req) == Fetch(s, methods, req.(cacheKey := None))
    ensures Fetch(s, methods, req).state == s
    ensures Fetch(s, methods, req).outcome == Direct(methods, req)
    ensures NoCacheEffects(Fetch(s, methods, req).effects)
  {
  }

  /** The outcome list of a run is the first outcome followed by the rest, index by index. */
  lemma LiveOutcomes(s: ManagerState, methods: map<string, Operation>, reqs: seq<Request>)
    requires reqs != [] && !s.IsCacheEnabled()
    requires Fetch(s, methods, reqs[0]).state == s && Fetch(s, methods, reqs[0]).outcome == Direct(methods, reqs[0])
    requires forall i :: 0 <= i < |reqs[1..]| ==> Run(s, methods, reqs[1..]).outcomes[i] == Direct(methods, reqs[1..][i])
    ensures forall i :: 0 <= i < |reqs| ==> Run(s, methods, reqs).outcomes[i] == Direct(methods, reqs[i])
  {
    var r := Run(s, methods, reqs);
    var rest := Run(s, methods, reqs[1..]);
    forall i | 0 <= i < |reqs| ensures r.outcomes[i] == Direct(methods, reqs[i]) {
      if i > 0 { assert r.outcomes[i] == rest.outcomes[i - 1]; assert reqs[i] == reqs[1..][i - 1]; }
    }
  }

  /** The calls all name a known method and a key whose effective form is `key`. */
  ghost predicate AllUnder(s: ManagerState, methods: map<string, Operation>, reqs: seq<Request>, key: string) {
    forall i :: 0 <= i < |reqs| ==>
      reqs[i].methodName in methods && KeyGiven(reqs[i].cacheKey) && s.BuildCacheKey(reqs[i].cacheKey.value) == key
  }

  /** No negative caching: while the method keeps returning `Null` for a key, every call runs the
      method again, returns `Null`, and the key never enters the cache. */
  lemma {:induction false} NoNegativeCaching(s: ManagerState, methods: map<string, Operation>, reqs: seq<Request>, key: string)
    requires s.IsCacheEnabled() && !s.cacheClient.value.Contains(key)
    requires AllUnder(s, methods, reqs, key)
    requires forall i :: 0 <= i < |reqs| ==> methods[reqs[i].methodName](reqs[i].params).Null?
    ensures Run(s, methods, reqs).state == s
    ensures Calls(Run(s, methods, reqs).effects) == |reqs|
    ensures forall i :: 0 <= i < |reqs| ==> Run(s, methods, reqs).outcomes[i] == Returned(Null)
    decreases |reqs|
  {
    if reqs != [] {
      var first := Fetch(s, methods, reqs[0]);
      assert first.effects == [Has(key), Call(reqs[0].methodName, reqs[0].params)];
      assert AllUnder(s, methods, reqs[1..], key);
      NoNegativeCaching(s, methods, reqs[1..], key);
      var rest := Run(s, methods, reqs[1..]);
      CallsAppend(first.effects, rest.effects);
      CallsOne(first.effects, 1);
      var r := Run(s, methods, reqs);
      forall i | 0 <= i < |reqs| ensures r.outcomes[i] == Returned(Null) {
        if i > 0 { assert r.outcomes[i] == rest.outcomes[i - 1]; }
      }
    }
  }

  /** Once a key holds a value, every later call under that key returns that value without
      running any method, and the state stays as it is. */
  lemma {:induction false} StoredValueIsServed(s: ManagerState, methods: map<string, Operation>, reqs: seq<Request>, key: string)
    requires s.IsCacheEnabled() && s.cacheClient.value.Contains(key)
    requires AllUnder(s, methods, reqs, key)
    ensures Run(s, methods, reqs).state == s
    ensures Calls(Run(s, methods, reqs).effects) == 0
    ensures forall i :: 0 <= i < |reqs| ==> Run(s, methods, reqs).outcomes[i] == Returned(s.cacheClient.value.Lookup(key))
    decreases |reqs|
  {
    if reqs != [] {
      var first := Fetch(s, methods, reqs[0]);
      assert first.effects == [Has(key), Get(key)];
      CallsZero(first.effects);
      assert AllUnder(s, methods, reqs[1..], key);
      StoredValueIsServed(s, methods, reqs[1..], key);
      var rest := Run(s, methods, reqs[1..]);
      CallsAppend(first.effects, rest.effects);
      var r := Run(s, methods, reqs);
      forall i | 0 <= i < |reqs| ensures r.outcomes[i] == Returned(s.cacheClient.value.Lookup(key)) {
        if i > 0 { assert r.outcomes[i] == rest.outcomes[i - 1]; }
      }
    }
  }

  /** A miss with a present result, followed by any number of calls under the same key: the
      method runs once, and every call returns the value it produced. */
  lemma StoreThenServe(s: ManagerState, methods: map<string, Operation>, reqs: seq<Request>, key: string)
    requires s.IsCacheEnabled() && !s.cacheClient.value.Contains(key)
    requires |reqs| > 0 && AllUnder(s, methods, reqs, key)
    requires !methods[reqs[0].methodName](reqs[0].params).Null?
    ensures Calls(Run(s, methods, reqs).effects) == 1
    ensures forall i :: 0 <= i < |reqs| ==>
      Run(s, methods, reqs).outcomes[i] == Returned(methods[reqs[0].methodName](reqs[0].params))
  {
    var value := methods[reqs[0].methodName](reqs[0].params);
    var first := Fetch(s, methods, reqs[0]);
    PresentResultIsStored(s, methods, reqs[0]);
    var t := first.state;
    assert t.BuildCacheKey(key) == s.BuildCacheKey(key);
    assert AllUnder(t, methods, reqs[1..], key);
    StoredValueIsServed(t, methods, reqs[1..], key);
    var rest := Run(t, methods, reqs[1..]);
    CallsAppend(first.effects, rest.effects);
    var r := Run(s, methods, reqs);
    forall i | 0 <= i < |reqs| ensures r.outcomes[i] == Returned(value) {
      if i > 0 { assert r.outcomes[i] == rest.outcomes[i - 1]; }
    }
  }
}
