/** The reference-counted secret registry, and the redaction filter that caches its snapshot by version. */
module Secrets {
  import opened Common

  datatype Scope = Global | Bounded(id: nat)

  datatype Entry = Entry(scope: Scope, value: string)

  /** The values one scope registered, in order. */
  function Of(live: seq<Entry>, scope: Scope): seq<string> {
    if live == [] then []
    else
      var rest := Of(live[..|live| - 1], scope);
      if live[|live| - 1].scope == scope then rest + [live[|live| - 1].value] else rest
  }

  function Released(live: seq<Entry>, scope: Scope): seq<Entry> {
    if live == [] then []
    else
      var rest := Released(live[..|live| - 1], scope);
      if live[|live| - 1].scope == scope then rest else rest + [live[|live| - 1]]
  }

  function Count(live: seq<Entry>, value: string): nat {
    if live == [] then 0
    else Count(live[..|live| - 1], value) + if live[|live| - 1].value == value then 1 else 0
  }

  function Occurrences(values: seq<string>, value: string): nat {
    if values == [] then 0
    else Occurrences(values[..|values| - 1], value) + if values[|values| - 1] == value then 1 else 0
  }

  /** Releasing a scope takes away exactly its own occurrences of each value, and its own entries. */
  lemma {:induction false} ReleaseCounts(live: seq<Entry>, scope: Scope, other: Scope, value: string)
    ensures Count(live, value) == Count(Released(live, scope), value) + Occurrences(Of(live, scope), value)
    ensures Of(Released(live, scope), other) == if other == scope then [] else Of(live, other)
  {
    if live != [] {
      var init, last := live[..|live| - 1], live[|live| - 1];
      ReleaseCounts(init, scope, other, value);
      if last.scope == scope {
        OccurrencesAppended(Of(init, scope), last.value, value);
      } else {
        CountAppended(Released(init, scope), last, value, other);
      }
    }
  }

  lemma OccurrencesAppended(values: seq<string>, last: string, value: string)
    ensures Occurrences(values + [last], value) == Occurrences(values, value) + if last == value then 1 else 0
  {
    assert (values + [last])[..|values|] == values;
  }

  lemma CountAppended(live: seq<Entry>, e: Entry, value: string, scope: Scope)
    ensures Count(live + [e], value) == Count(live, value) + if e.value == value then 1 else 0
    ensures Of(live + [e], scope) == if e.scope == scope then Of(live, scope) + [e.value] else Of(live, scope)
  {
    assert (live + [e])[..|live|] == live;
  }

  /** The counts are the occurrences in the live entries that `taken` does not account for. */
  ghost predicate Counted(refcount: map<string, nat>, live: seq<Entry>, taken: seq<string>) {
    forall v :: Lookup(refcount, v) == if Count(live, v) > Occurrences(taken, v) then Some(Count(live, v) - Occurrences(taken, v)) else None
  }

  function Held(refcount: map<string, nat>, v: string): int {
    if v in refcount then refcount[v] else 0
  }

  ghost predicate Filed(byScope: map<Scope, seq<string>>, live: seq<Entry>) {
    forall s :: (if s in byScope then byScope[s] else []) == Of(live, s)
  }

  lemma CountedAppended(refcount: map<string, nat>, byScope: map<Scope, seq<string>>, live: seq<Entry>, e: Entry)
    requires Counted(refcount, live, []) && Filed(byScope, live)
    ensures Counted(refcount[e.value := (if e.value in refcount then refcount[e.value] else 0) + 1], live + [e], [])
    ensures Filed(byScope[e.scope := (if e.scope in byScope then byScope[e.scope] else []) + [e.value]], live + [e])
  {
    hide Count, Of;
    var more := refcount[e.value := (if e.value in refcount then refcount[e.value] else 0) + 1];
    forall v
      ensures Lookup(more, v) == if Count(live + [e], v) > 0 then Some(Count(live + [e], v)) else None
    {
      CountAppended(live, e, v, e.scope);
      assert Lookup(refcount, v) == if Count(live, v) > 0 then Some(Count(live, v)) else None;
    }
    forall s
      ensures Of(live + [e], s) == if e.scope == s then Of(live, s) + [e.value] else Of(live, s)
    {
      CountAppended(live, e, e.value, s);
    }
  }

  lemma CountedTaken(refcount: map<string, nat>, live: seq<Entry>, taken: seq<string>, v: string)
    requires Counted(refcount, live, taken)
    ensures var remaining := Held(refcount, v) - 1;
            Counted(if remaining <= 0 then refcount - {v} else refcount[v := remaining], live, taken + [v])
  {
    var remaining := Held(refcount, v) - 1;
    var less := if remaining <= 0 then refcount - {v} else refcount[v := remaining];
    assert (taken + [v])[..|taken|] == taken;
    assert Lookup(refcount, v) == if Count(live, v) > Occurrences(taken, v) then Some(Count(live, v) - Occurrences(taken, v)) else None;
    forall w
      ensures Lookup(less, w) == if Count(live, w) > Occurrences(taken + [v], w) then Some(Count(live, w) - Occurrences(taken + [v], w)) else None
    {
      assert Lookup(refcount, w) == if Count(live, w) > Occurrences(taken, w) then Some(Count(live, w) - Occurrences(taken, w)) else None;
    }
  }

  lemma CountedReleased(refcount: map<string, nat>, byScope: map<Scope, seq<string>>, live: seq<Entry>, scope: Scope)
    requires Counted(refcount, live, Of(live, scope)) && Filed(byScope, live)
    ensures Counted(refcount, Released(live, scope), []) && Filed(byScope - {scope}, Released(live, scope))
  {
    forall v
      ensures Lookup(refcount, v) == if Count(Released(live, scope), v) > 0 then Some(Count(Released(live, scope), v)) else None
    {
      ReleaseCounts(live, scope, scope, v);
      assert Lookup(refcount, v) == if Count(live, v) > Occurrences(Of(live, scope), v)
                                    then Some(Count(live, v) - Occurrences(Of(live, scope), v)) else None;
    }
    forall s
      ensures (if s in byScope - {scope} then (byScope - {scope})[s] else []) == Of(Released(live, scope), s)
    {
      ReleaseCounts(live, scope, s, "");
      assert (if s in byScope then byScope[s] else []) == Of(live, s);
    }
  }

  class SecretRegistry {
    var refcount: map<string, nat>
    var byScope: map<Scope, seq<string>>
    var version: nat
    ghost var live: seq<Entry>
    ghost var history: map<nat, set<string>>

    /** Counts are occurrences over the scopes not released, and each version number stands for one snapshot. */
    ghost predicate Valid()
      reads this
    {
      && Counted(refcount, live, []) && Filed(byScope, live)
      && (forall n | n in history :: n <= version)
      && Lookup(history, version) == Some(refcount.Keys)
    }

    function Snapshot(): set<string>
      reads this
    {
      refcount.Keys
    }

    constructor ()
      ensures Valid() && live == [] && version == 0 && Snapshot() == {}
    {
      refcount, byScope, version, live := map[], map[], 0, [];
      history := map[0 := {}];
      new;
      assert refcount.Keys == {};
    }

    /** An empty or missing value is never stored; no scope means the global one. */
    method Register(value: Option<string>, scope: Option<nat>)
      requires Valid()
      modifies this
      ensures Valid() && Extends(old(history), history)
      ensures var key := if scope.None? then Global else Bounded(scope.value);
              live == if value.None? || value.value == "" then old(live) else old(live) + [Entry(key, value.value)]
      ensures Snapshot() != old(Snapshot()) ==> version != old(version)
    {
      hide Counted, Filed;
      if value.None? || value.value == "" {
        return;
      }
      var key := if scope.None? then Global else Bounded(scope.value);
      var v := value.value;
      CountedAppended(refcount, byScope, live, Entry(key, v));
      byScope := byScope[key := (if key in byScope then byScope[key] else []) + [v]];
      refcount := refcount[v := (if v in refcount then refcount[v] else 0) + 1];
      version := version + 1;
      live := live + [Entry(key, v)];
      history := history[version := refcount.Keys];
    }

    /** The global scope is never released. */
    method Release(scope: Option<nat>)
      requires Valid()
      modifies this
      ensures Valid() && Extends(old(history), history)
      ensures live == if scope.None? then old(live) else Released(old(live), Bounded(scope.value))
      ensures Snapshot() != old(Snapshot()) ==> version != old(version)
    {
      if scope.None? {
        return;
      }
      var key := Bounded(scope.value);
      var values := if key in byScope then byScope[key] else [];
      assert values == Of(live, key);
      DropOccurrences(values);
      CountedReleased(refcount, byScope, live, key);
      byScope := byScope - {key};
      live := Released(live, key);
      if values != [] {
        version := version + 1;
        history := history[version := refcount.Keys];
      }
    }

    method DropOccurrences(values: seq<string>)
      requires Counted(refcount, live, [])
      modifies `refcount
      ensures Counted(refcount, live, values) && (values == [] ==> refcount == old(refcount))
    {
      hide Counted;
      for i := 0 to |values|
        invariant Counted(refcount, live, values[..i]) && (values == [] ==> refcount == old(refcount))
      {
        var v := values[i];
        CountedTaken(refcount, live, values[..i], v);
        assert values[..i + 1] == values[..i] + [v];
        var remaining := Held(refcount, v) - 1;
        if remaining <= 0 {
          refcount := refcount - {v};
        } else {
          refcount := refcount[v := remaining];
        }
      }
      assert values[..|values|] == values;
    }
  }

  ghost predicate Extends(a: map<nat, set<string>>, b: map<nat, set<string>>) {
    forall n | n in a :: n in b && b[n] == a[n]
  }

  class SecretRedactionFilter {
    const registry: SecretRegistry
    var cachedVersion: int
    var seeds: set<string>

    /** The cached seeds are the snapshot its version stood for. */
    ghost predicate Valid()
      reads this, registry
    {
      cachedVersion >= 0 ==> Lookup(registry.history, cachedVersion) == Some(seeds)
    }

    constructor (registry: SecretRegistry)
      ensures this.registry == registry && Valid()
    {
      this.registry, cachedVersion, seeds := registry, -1, {};
    }

    /** However the registry changed since the last call, the redactor handed out masks exactly its present values. */
    method Current() returns (masked: set<string>)
      requires Valid() && registry.Valid()
      modifies this
      ensures Valid() && masked == registry.Snapshot()
    {
      if registry.version != cachedVersion {
        seeds := registry.Snapshot();
        cachedVersion := registry.version;
      }
      return seeds;
    }
  }

  /** A filter's cached seeds stay those of its cached version, through any sequence of registry calls. */
  lemma {:induction false} CacheStaysExact(histories: seq<map<nat, set<string>>>, i: nat, version: nat, seeds: set<string>)
    requires i < |histories| && Lookup(histories[0], version) == Some(seeds)
    requires forall j | 0 < j < |histories| :: Extends(histories[j - 1], histories[j])
    ensures Lookup(histories[i], version) == Some(seeds)
  {
    if i > 0 {
      CacheStaysExact(histories, i - 1, version, seeds);
      assert Extends(histories[i - 1], histories[i]);
    }
  }
}
