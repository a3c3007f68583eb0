/**
 * The caching bean factory: `getBeanNamesForType` memoized per `TypeKey`.
 *
 * The uncached discovery of the underlying Spring factory (the `super`
 * call) is a parameter `discover` of each lookup: a total function that
 * either yields the bean names or throws a `BeansException`. Passing it per
 * call lets the lemmas say that a cached answer does not depend on what
 * discovery would produce now.
 *
 * The pure functions below specify one lookup (`Lookup`) and a sequence of
 * lookups (`Run`); the class `CachingByTypeBeanFactory` holds the cache as a
 * field and is proved against them.
 */
module CachingBeanFactory {
  import opened Wrappers
  import opened TypeKeys

  /** The exception the underlying factory may throw; the cache passes it through. */
  datatype BeansException = BeansException(message: string)

  /** `super.getBeanNamesForType(type, includeNonSingletons, allowEagerInit)`. */
  type Discovery<!C> = (Option<C>, bool, bool) -> Result<seq<string>, BeansException>

  /** The contents of `cachedBeanNamesForType`. */
  type Cache<C(==)> = map<TypeKey<C>, seq<string>>

  /** Discovery applied to the three fields of a key. */
  function Discover<C>(discover: Discovery<C>, key: TypeKey<C>): (r: Result<seq<string>, BeansException>)
  {
    discover(key.typ, key.includeNonSingletons, key.allowEagerInit)
  }

  /** `ConcurrentHashMap.putIfAbsent`, run without interference. */
  function StoreIfAbsent<C(==)>(cache: Cache<C>, key: TypeKey<C>, value: seq<string>): (r: Cache<C>)
    ensures r.Keys == cache.Keys + {key}
    ensures forall k :: k in cache ==> r[k] == cache[k]
    ensures key !in cache ==> r[key] == value
  {
    if key in cache then cache else cache[key := value]
  }

  /** What one lookup returns, the cache after it, and whether it ran discovery. */
  datatype Outcome<C(==)> = Outcome(result: Result<seq<string>, BeansException>, cache: Cache<C>, discovered: bool)

  /**
   * One call of `getBeanNamesForType(type, includeNonSingletons, allowEagerInit)`
   * with key `key` on cache `cache`.
   */
  function Lookup<C(==)>(cache: Cache<C>, key: TypeKey<C>, discover: Discovery<C>): (o: Outcome<C>)
    // a hit answers from the cache, runs no discovery and changes nothing
    ensures key in cache ==> o == Outcome(Ok(cache[key]), cache, false)
    // a miss runs discovery once, on the key's own fields, and returns what it returns
    ensures key !in cache ==> o.discovered && o.result == Discover(discover, key)
    // a successful miss stores the answer under the key and touches nothing else
    ensures key !in cache && o.result.Ok? ==> o.cache == cache[key := o.result.value]
    // a failed miss stores nothing
    ensures o.result.Err? ==> o.cache == cache
  {
    if key in cache then
      Outcome(Ok(cache[key]), cache, false)
    else
      match Discover(discover, key)
      case Err(e) => Outcome(Err(e), cache, true)
      case Ok(value) => Outcome(Ok(value), StoreIfAbsent(cache, key, value), true)
  }

  /** `getBeanNamesForType(type)`: the defaults `includeNonSingletons = allowEagerInit = true`. */
  function DefaultKey<C>(typ: Option<C>): (k: TypeKey<C>)
    ensures k.typ == typ && k.includeNonSingletons && k.allowEagerInit
  {
    TypeKey(typ, true, true)
  }

  /** One call in a sequence of calls on one factory, with the discovery it would see. */
  datatype Request<!C> = Request(key: TypeKey<C>, discover: Discovery<C>)

  /** What one call of a sequence returned, and whether it ran discovery. */
  datatype Answer<C> = Answer(key: TypeKey<C>, result: Result<seq<string>, BeansException>, discovered: bool)

  datatype Trace<C(==)> = Trace(answers: seq<Answer<C>>, cache: Cache<C>)

  /** The calls `requests`, one after the other, starting from `cache`. */
  function Run<C(==)>(cache: Cache<C>, requests: seq<Request<C>>): (t: Trace<C>)
    ensures |t.answers| == |requests|
    ensures forall i :: 0 <= i < |requests| ==> t.answers[i].key == requests[i].key
    decreases |requests|
  {
    if requests == [] then
      Trace([], cache)
    else
      var o := Lookup(cache, requests[0].key, requests[0].discover);
      var rest := Run(o.cache, requests[1..]);
      Trace([Answer(requests[0].key, o.result, o.discovered)] + rest.answers, rest.cache)
  }

  /** `m2` holds every entry of `m1`, unchanged. */
  ghost predicate Extends<C>(m1: Cache<C>, m2: Cache<C>)
  {
    m1.Keys <= m2.Keys && forall k :: k in m1 ==> m2[k] == m1[k]
  }

  /**
   * The key set only grows: no sequence of calls removes or replaces an
   * entry, and every key that ends up cached was cached before or was
   * requested.
   */
  lemma {:induction false} RunOnlyGrows<C>(cache: Cache<C>, requests: seq<Request<C>>)
    ensures Extends(cache, Run(cache, requests).cache)
    ensures forall k :: k in Run(cache, requests).cache ==>
              k in cache || exists i :: 0 <= i < |requests| && requests[i].key == k
    decreases |requests|
  {
    if requests != [] {
      var o := Lookup(cache, requests[0].key, requests[0].discover);
      RunOnlyGrows(o.cache, requests[1..]);
      forall k | k in Run(cache, requests).cache
        ensures k in cache || exists i :: 0 <= i < |requests| && requests[i].key == k
      {
        if k !in cache && k != requests[0].key {
          var i :| 0 <= i < |requests[1..]| && requests[1..][i].key == k;
          assert requests[i + 1].key == k;
        }
      }
    }
  }

  /**
   * Stability: once a key is cached, every later call for it returns the
   * stored names without running discovery, whatever discovery would now
   * produce, and the entry stays as it is.
   */
  lemma {:induction false} StableOnceCached<C>(cache: Cache<C>, key: TypeKey<C>, requests: seq<Request<C>>)
    requires key in cache
    ensures key in Run(cache, requests).cache && Run(cache, requests).cache[key] == cache[key]
    ensures forall i :: 0 <= i < |requests| && requests[i].key == key ==>
              Run(cache, requests).answers[i] == Answer(key, Ok(cache[key]), false)
    decreases |requests|
  {
    if requests != [] {
      var o := Lookup(cache, requests[0].key, requests[0].discover);
      StableOnceCached(o.cache, key, requests[1..]);
      var t := Run(cache, requests);
      forall i | 0 <= i < |requests| && requests[i].key == key
        ensures t.answers[i] == Answer(key, Ok(cache[key]), false)
      {
        if i > 0 {
          assert t.answers[i] == Run(o.cache, requests[1..]).answers[i - 1];
          assert requests[1..][i - 1] == requests[i];
        }
      }
    }
  }

  /**
   * Stability after the first store: after a call for `key` succeeds, every
   * later call for `key` returns the same names and runs no discovery.
   */
  lemma StableAfterFirstStore<C>(cache: Cache<C>, first: Request<C>, requests: seq<Request<C>>)
    requires Lookup(cache, first.key, first.discover).result.Ok?
    ensures var t := Run(cache, [first] + requests);
            forall i :: 1 <= i < |t.answers| && t.answers[i].key == first.key ==>
              t.answers[i] == Answer(first.key, t.answers[0].result, false)
  {
    var o := Lookup(cache, first.key, first.discover);
    assert ([first] + requests)[1..] == requests;
    StableOnceCached(o.cache, first.key, requests);
    var t := Run(cache, [first] + requests);
    forall i | 1 <= i < |t.answers| && t.answers[i].key == first.key
      ensures t.answers[i] == Answer(first.key, t.answers[0].result, false)
    {
      assert t.answers[i] == Run(o.cache, requests).answers[i - 1];
    }
  }

  /**
   * No negative caching: while every discovery for an uncached key fails,
   * the key stays uncached and every call for it runs discovery again.
   */
  lemma {:induction false} FailuresAreNotCached<C>(cache: Cache<C>, key: TypeKey<C>, requests: seq<Request<C>>)
    requires key !in cache
    requires forall i :: 0 <= i < |requests| && requests[i].key == key ==>
               Discover(requests[i].discover, key).Err?
    ensures key !in Run(cache, requests).cache
    ensures forall i :: 0 <= i < |requests| && requests[i].key == key ==>
              Run(cache, requests).answers[i] == Answer(key, Discover(requests[i].discover, key), true)
    decreases |requests|
  {
    if requests != [] {
      var o := Lookup(cache, requests[0].key, requests[0].discover);
      FailuresAreNotCached(o.cache, key, requests[1..]);
      var t := Run(cache, requests);
      forall i | 0 <= i < |requests| && requests[i].key == key
        ensures t.answers[i] == Answer(key, Discover(requests[i].discover, key), true)
      {
        if i > 0 {
          assert t.answers[i] == Run(o.cache, requests[1..]).answers[i - 1];
          assert requests[1..][i - 1] == requests[i];
        }
      }
    }
  }

  /** A call that failed leaves the key uncached, so the next call retries discovery and may succeed. */
  lemma RetryAfterFailure<C>(cache: Cache<C>, key: TypeKey<C>, failing: Discovery<C>, later: Discovery<C>)
    requires key !in cache
    requires Discover(failing, key).Err?
    ensures var first := Lookup(cache, key, failing);
            var second := Lookup(first.cache, key, later);
            first.result == Discover(failing, key) && first.cache == cache
            && second.discovered && second.result == Discover(later, key)
  {
  }

  /** The calls of `requests` whose key is `key`. */
  function ForKey<C(==)>(requests: seq<Request<C>>, key: TypeKey<C>): (r: seq<Request<C>>)
    ensures |r| <= |requests|
    ensures forall i :: 0 <= i < |r| ==> r[i].key == key
  {
    if requests == [] then []
    else (if requests[0].key == key then [requests[0]] else []) + ForKey(requests[1..], key)
  }

  /** The answers whose key is `key`. */
  function AnswersFor<C(==)>(answers: seq<Answer<C>>, key: TypeKey<C>): (r: seq<Answer<C>>)
  {
    if answers == [] then []
    else (if answers[0].key == key then [answers[0]] else []) + AnswersFor(answers[1..], key)
  }

  /** Two caches hold the same entry (or none) for `key`. */
  ghost predicate SameEntry<C>(m1: Cache<C>, m2: Cache<C>, key: TypeKey<C>)
  {
    (key in m1 <==> key in m2) && (key in m1 ==> m1[key] == m2[key])
  }

  /**
   * Key independence: what the calls for `key` return, and what ends up
   * stored under `key`, depend only on the entry for `key` and on the calls
   * for `key`. Calls for other keys, including keys that differ in one flag
   * or in the type only, neither read nor change it.
   */
  lemma {:induction false} KeyIndependence<C>(c1: Cache<C>, c2: Cache<C>, key: TypeKey<C>, requests: seq<Request<C>>)
    requires SameEntry(c1, c2, key)
    ensures AnswersFor(Run(c1, requests).answers, key) == Run(c2, ForKey(requests, key)).answers
    ensures SameEntry(Run(c1, requests).cache, Run(c2, ForKey(requests, key)).cache, key)
    decreases |requests|
  {
    if requests != [] {
      var r := requests[0];
      var o1 := Lookup(c1, r.key, r.discover);
      var t1 := Run(c1, requests);
      if r.key == key {
        var o2 := Lookup(c2, key, r.discover);
        assert ForKey(requests, key) == [r] + ForKey(requests[1..], key);
        assert ([r] + ForKey(requests[1..], key))[1..] == ForKey(requests[1..], key);
        KeyIndependence(o1.cache, o2.cache, key, requests[1..]);
        assert t1.answers[1..] == Run(o1.cache, requests[1..]).answers;
      } else {
        assert ForKey(requests, key) == ForKey(requests[1..], key);
        KeyIndependence(o1.cache, c2, key, requests[1..]);
        assert t1.answers[1..] == Run(o1.cache, requests[1..]).answers;
      }
    }
  }

  /**
   * Two calls for the same key that both found it uncached in `cache` and
   * whose discoveries succeeded, finishing one after the other. The first
   * `putIfAbsent` stores its names; the second finds them and stores
   * nothing. Each caller still returns its own discovered `value`, so the
   * two callers return the same names exactly when their discoveries agreed,
   * and the second caller returns the stored names only then.
   */
  lemma InterleavedMisses<C>(cache: Cache<C>, key: TypeKey<C>, d1: Discovery<C>, d2: Discovery<C>)
    requires key !in cache
    requires Discover(d1, key).Ok? && Discover(d2, key).Ok?
    ensures var first := Lookup(cache, key, d1);
            var second := Lookup(cache, key, d2);
            var after := StoreIfAbsent(first.cache, key, second.result.value);
            && first.result == Discover(d1, key) && second.result == Discover(d2, key)
            && after == cache[key := Discover(d1, key).value]
            && (second.result == first.result <==> Discover(d1, key) == Discover(d2, key))
            && (second.result == Ok(after[key]) <==> Discover(d1, key) == Discover(d2, key))
  {
  }

  /** The `createBeanFactory` hook: every new factory owns a fresh, empty cache. */
  method CreateBeanFactory<C(==)>() returns (f: CachingByTypeBeanFactory<C>)
    ensures fresh(f)
    ensures f.cachedBeanNamesForType == map[] && f.discoveryLog == []
  {
    f := new CachingByTypeBeanFactory();
  }

  class CachingByTypeBeanFactory<C(==)> {
    /** The memoization table. */
    var cachedBeanNamesForType: Cache<C>
    /** The keys discovery was run for, in order. */
    ghost var discoveryLog: seq<TypeKey<C>>

    constructor ()
      ensures cachedBeanNamesForType == map[] && discoveryLog == []
    {
      cachedBeanNamesForType := map[];
      discoveryLog := [];
    }

    /**
     * `putIfAbsent`: returns the value already stored under `key`, or `None`
     * after storing `value`.
     */
    method PutIfAbsent(key: TypeKey<C>, value: seq<string>) returns (previous: Option<seq<string>>)
      modifies this
      ensures previous == if key in old(cachedBeanNamesForType) then Some(old(cachedBeanNamesForType)[key]) else None
      ensures cachedBeanNamesForType == StoreIfAbsent(old(cachedBeanNamesForType), key, value)
      ensures discoveryLog == old(discoveryLog)
    {
      if key in cachedBeanNamesForType {
        previous := Some(cachedBeanNamesForType[key]);
      } else {
        previous := None;
        cachedBeanNamesForType := cachedBeanNamesForType[key := value];
      }
    }

    /** `getBeanNamesForType(type, includeNonSingletons, allowEagerInit)`. */
    method GetBeanNamesForType(typ: Option<C>, includeNonSingletons: bool, allowEagerInit: bool, discover: Discovery<C>)
      returns (r: Result<seq<string>, BeansException>)
      modifies this
      ensures var key := TypeKey(typ, includeNonSingletons, allowEagerInit);
              var o := Lookup(old(cachedBeanNamesForType), key, discover);
              && r == o.result
              && cachedBeanNamesForType == o.cache
              && discoveryLog == old(discoveryLog) + (if o.discovered then [key] else [])
    {
      var typeKey := TypeKey(typ, includeNonSingletons, allowEagerInit);
      if typeKey in cachedBeanNamesForType {
        return Ok(cachedBeanNamesForType[typeKey]);
      }
      var value := discover(typ, includeNonSingletons, allowEagerInit);
      discoveryLog := discoveryLog + [typeKey];
      if value.Err? {
        return value;
      }
      var _ := PutIfAbsent(typeKey, value.value);
      r := value;
    }

    /** `getBeanNamesForType(type)`: the three-argument lookup with both flags `true`. */
    method GetBeanNamesForTypeDefault(typ: Option<C>, discover: Discovery<C>)
      returns (r: Result<seq<string>, BeansException>)
      modifies this
      ensures var o := Lookup(old(cachedBeanNamesForType), DefaultKey(typ), discover);
              && r == o.result
              && cachedBeanNamesForType == o.cache
              && discoveryLog == old(discoveryLog) + (if o.discovered then [DefaultKey(typ)] else [])
    {
      r := GetBeanNamesForType(typ, true, true, discover);
    }
  }

  /**
   * A client: two factories, a discovery that answers differently per flag
   * pair, and a discovery that changes between calls.
   */
  method Scenario(serviceA: string, other: string)
    requires serviceA != other
  {
    var names: Discovery<string> := (t: Option<string>, nonSingletons: bool, eager: bool) =>
      if t == Some(serviceA) && nonSingletons then Ok(["serviceAImpl", "serviceAImplOverride"])
      else if t == Some(serviceA) then Ok(["serviceAImpl"])
      else Err(BeansException("no such type"));
    var changed: Discovery<string> := (t: Option<string>, nonSingletons: bool, eager: bool) => Ok([]);

    var f := new CachingByTypeBeanFactory<string>();
    var r1 := f.GetBeanNamesForTypeDefault(Some(serviceA), names);
    assert r1 == Ok(["serviceAImpl", "serviceAImplOverride"]);
    assert f.discoveryLog == [TypeKey(Some(serviceA), true, true)];
    var r2 := f.GetBeanNamesForType(Some(serviceA), true, true, changed);
    assert r2 == r1;
    assert |f.discoveryLog| == 1;
    var r3 := f.GetBeanNamesForType(Some(serviceA), false, true, names);
    assert r3 == Ok(["serviceAImpl"]);
    assert |f.discoveryLog| == 2;
    var r4 := f.GetBeanNamesForTypeDefault(Some(other), names);
    assert r4.Err? && TypeKey(Some(other), true, true) !in f.cachedBeanNamesForType;
    var r5 := f.GetBeanNamesForTypeDefault(Some(other), changed);
    assert r5 == Ok([]);

    var g := CreateBeanFactory<string>();
    assert g.cachedBeanNamesForType == map[];
    assert f.cachedBeanNamesForType[TypeKey(Some(serviceA), true, true)] == ["serviceAImpl", "serviceAImplOverride"];
  }
}
