/** The observable effects of a fetch, in the order they happen. */
module Trace {
  import opened Values
  import opened Events

  datatype Effect =
    | Call(methodName: string, args: seq<Value>)           // `$this->$method(...$params)`
    | Has(key: string)                                     // cache client `has`
    | Get(key: string)                                     // cache client `get`
    | Set(key: string, value: Value, lifetime: Option<int>) // cache client `set`
    | AddTags(key: string, tags: seq<string>)              // cache client `addTags`
    | Dispatch(eventName: string, event: AfterFetchDataEvent)
    | ResetCacheConfig                                     // `setCacheConfig(new Config())`
    | ConfigureCache(key: string, configLifetime: int, enabled: bool) // `setKey(..)->setLifetime(..)->setEnabled(..)`

  /** The number of method invocations in a trace. */
  function Calls(effects: seq<Effect>): nat {
    if effects == [] then 0
    else (if effects[0].Call? then 1 else 0) + Calls(effects[1..])
  }

  lemma {:induction false} CallsAppend(a: seq<Effect>, b: seq<Effect>)
    ensures Calls(a + b) == Calls(a) + Calls(b)
  {
    if a == [] {
      assert a + b == b;
    } else {
      assert (a + b)[0] == a[0];
      assert (a + b)[1..] == a[1..] + b;
      CallsAppend(a[1..], b);
    }
  }

  /** Calls(effects) is the number of positions holding a `Call`; in particular it is 0 exactly when there is none. */
  lemma {:induction false} CallsZero(effects: seq<Effect>)
    ensures Calls(effects) == 0 <==> forall j :: 0 <= j < |effects| ==> !effects[j].Call?
  {
    if effects != [] {
      CallsZero(effects[1..]);
      assert forall j :: 1 <= j < |effects| ==> effects[j] == effects[1..][j - 1];
    }
  }

  /** A trace whose only method invocation is at position k holds exactly one invocation. */
  lemma {:induction false} CallsOne(effects: seq<Effect>, k: nat)
    requires k < |effects| && effects[k].Call?
    requires forall j :: 0 <= j < |effects| && j != k ==> !effects[j].Call?
    ensures Calls(effects) == 1
  {
    var rest := effects[1..];
    assert forall j :: 1 <= j < |effects| ==> effects[j] == rest[j - 1];
    if k == 0 {
      CallsZero(rest);
    } else {
      CallsOne(rest, k - 1);
    }
  }

  /** No method invocation happens in the trace. */
  predicate NoCall(effects: seq<Effect>) {
    forall j :: 0 <= j < |effects| ==> !effects[j].Call?
  }

  lemma NoCallAppend(a: seq<Effect>, b: seq<Effect>)
    requires NoCall(a) && NoCall(b)
    ensures NoCall(a + b)
  {
    assert forall j :: |a| <= j < |a + b| ==> (a + b)[j] == b[j - |a|];
  }

  /** A trace with one invocation, `call`, between two invocation-free parts has exactly one
      invocation, and every invocation in it is `call`. */
  lemma SingleCall(a: seq<Effect>, call: Effect, b: seq<Effect>)
    requires NoCall(a) && NoCall(b) && call.Call?
    ensures Calls(a + [call] + b) == 1
    ensures forall j :: 0 <= j < |a + [call] + b| && (a + [call] + b)[j].Call? ==> (a + [call] + b)[j] == call
  {
    var t := a + [call] + b;
    assert t[|a|] == call;
    assert forall j :: 0 <= j < |a| ==> t[j] == a[j];
    assert forall j :: |a| < j < |t| ==> t[j] == b[j - |a| - 1];
    CallsOne(t, |a|);
  }

  /** The number of `addTags` calls in a trace. */
  function Tags(effects: seq<Effect>): nat {
    if effects == [] then 0
    else (if effects[0].AddTags? then 1 else 0) + Tags(effects[1..])
  }

  /** The number of event dispatches in a trace. */
  function Dispatches(effects: seq<Effect>): nat {
    if effects == [] then 0
    else (if effects[0].Dispatch? then 1 else 0) + Dispatches(effects[1..])
  }

  lemma SingleCounts(e: Effect)
    ensures Tags([e]) == (if e.AddTags? then 1 else 0)
    ensures Dispatches([e]) == (if e.Dispatch? then 1 else 0)
  {
    assert [e][1..] == [];
  }

  lemma {:induction false} CountsAppend(a: seq<Effect>, b: seq<Effect>)
    ensures Tags(a + b) == Tags(a) + Tags(b)
    ensures Dispatches(a + b) == Dispatches(a) + Dispatches(b)
  {
    if a == [] {
      assert a + b == b;
    } else {
      assert (a + b)[0] == a[0];
      assert (a + b)[1..] == a[1..] + b;
      CountsAppend(a[1..], b);
    }
  }

  /** `first` happens somewhere strictly before `second`. */
  predicate Before(effects: seq<Effect>, first: Effect, second: Effect) {
    exists i, j :: 0 <= i < j < |effects| && effects[i] == first && effects[j] == second
  }
}
