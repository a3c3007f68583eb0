# Caching bean-names-by-type lookup

A Dafny model of `CachingByTypeBeanFactory`, a Spring `DefaultListableBeanFactory`
that memoizes `getBeanNamesForType`. Spring's own discovery of the bean names
matching a type is reflection-heavy. The factory caches each answer in a
`ConcurrentHashMap` keyed by a `TypeKey`, which is the triple
(type, `includeNonSingletons`, `allowEagerInit`). A hit returns the stored
array. A miss calls the superclass's discovery, stores the result with
`putIfAbsent` and returns it. The one-argument overload forwards with both
flags `true`.

Files:

- `wrappers.dfy`: `Option` (Java `null`) and `Result` (a thrown exception).
- `type_key.dfy`, module `TypeKeys`: the key as a datatype, `equals` as
  `Equals`, and `hashCode` as `HashCode` with Java's 32-bit overflow written out
  (`int32`, `Wrap`). A type descriptor is an element of the type parameter `C`.
  `java.lang.Class` keeps `Object.equals`, so `==` on `C` is identity. `Class.hashCode`
  is the parameter `classHash`.
- `bean_factory.dfy`, module `CachingBeanFactory`: the pure specification of one
  lookup (`Lookup`) and of a sequence of lookups (`Run`), with lemmas about them.
  It also holds the class `CachingByTypeBeanFactory`. The class has the map field
  `cachedBeanNamesForType`, plus a ghost `discoveryLog` that records every key
  discovery was run for. Its methods are proved against `Lookup`. The
  `createBeanFactory` hook is `CreateBeanFactory`. The method `Scenario` is a
  client: two flag pairs of one type are cached separately, a hit ignores a
  changed discovery, and a failed discovery is retried.

The superclass's uncached `getBeanNamesForType` is the parameter `discover` of each
call. It is a total function that returns either the names or a
`BeansException`. Because it is passed per call, the lemmas can say that a cached
answer does not depend on what discovery would return now.

On a miss the caller returns its own discovered `value`, even when
`putIfAbsent` found an entry already stored (`CachingByTypeBeanFactory.java:35-36`).
`InterleavedMisses` states what this means: two callers that both missed return
the same names only when their two discoveries agreed.

## Model

| member | source | states |
|---|---|---|
| `TypeKeys.Equals` | src/java/com/idega/springframework/CachingByTypeBeanFactory.java:58-70 | `equals` holds iff the argument is a `TypeKey` whose two flags and type are equal; a null type equals only a null type; null and other classes are never equal |
| `TypeKeys.Wrap` | src/java/com/idega/springframework/CachingByTypeBeanFactory.java:74-76 | Java `int` arithmetic: the result is congruent to the exact value modulo 2^32 and equals it when it fits |
| `TypeKeys.HashCodeClosedForm` | src/java/com/idega/springframework/CachingByTypeBeanFactory.java:72-78 | the two overflowing steps of `hashCode` equal one wrap of `961*h + 31*b1 + b2`, where `h` is the type's hash (0 for null) |
| `TypeKeys.HashConsistentWithEquals` | src/java/com/idega/springframework/CachingByTypeBeanFactory.java:58-78 | keys that are `equals` have equal `hashCode`s |
| `TypeKeys.FlagsSeparateHashes` | src/java/com/idega/springframework/CachingByTypeBeanFactory.java:73-78 | two keys with the same type and different flags never have the same `hashCode`, even with overflow |
| `CachingBeanFactory.StoreIfAbsent` | src/java/com/idega/springframework/CachingByTypeBeanFactory.java:35 | `putIfAbsent` adds the key, never overwrites an existing entry, and stores the value when the key was absent |
| `CachingBeanFactory.Lookup` | src/java/com/idega/springframework/CachingByTypeBeanFactory.java:25-37 | a hit returns the stored names, runs no discovery and changes nothing; a miss runs discovery once on the key's own three inputs and returns its result; success stores it under the key only; failure stores nothing |
| `CachingBeanFactory.Run` | src/java/com/idega/springframework/CachingByTypeBeanFactory.java:25-37 | a sequence of calls gives one answer per call, for that call's key |
| `CachingBeanFactory.RunOnlyGrows` | src/java/com/idega/springframework/CachingByTypeBeanFactory.java:17-37 | no sequence of calls removes or replaces an entry, and every new key was requested |
| `CachingBeanFactory.StableOnceCached` | src/java/com/idega/springframework/CachingByTypeBeanFactory.java:27-29 | once a key is cached, every later call for it returns the stored names without discovery, whatever discovery now yields, and the entry is unchanged |
| `CachingBeanFactory.StableAfterFirstStore` | src/java/com/idega/springframework/CachingByTypeBeanFactory.java:27-36 | after the first successful call for a key, every later call for it returns that first answer and runs no discovery |
| `CachingBeanFactory.FailuresAreNotCached` | src/java/com/idega/springframework/CachingByTypeBeanFactory.java:31-35 | while discovery for an uncached key keeps failing, the key stays uncached and every call for it runs discovery again and returns the failure |
| `CachingBeanFactory.RetryAfterFailure` | src/java/com/idega/springframework/CachingByTypeBeanFactory.java:31-35 | a failed call leaves the cache unchanged, and the next call for the key runs discovery again and returns its result |
| `CachingBeanFactory.KeyIndependence` | src/java/com/idega/springframework/CachingByTypeBeanFactory.java:26-36 | the answers for a key, and its final entry, depend only on its own entry and its own calls; calls for keys differing in any field do not affect it |
| `CachingBeanFactory.InterleavedMisses` | src/java/com/idega/springframework/CachingByTypeBeanFactory.java:35-36 | when two calls that both missed store one after the other, the first caller's names stay stored; each caller returns its own discovered names, so the second caller returns the stored names, and the same as the first caller, exactly when the two discoveries agreed |
| `CachingBeanFactory.CreateBeanFactory` | src/java/com/idega/springframework/CachingWebApplicationContext.java:14-16 | each created factory is a fresh object with its own empty cache |
| `CachingBeanFactory.CachingByTypeBeanFactory.constructor` | src/java/com/idega/springframework/CachingByTypeBeanFactory.java:17 | a new factory starts with an empty cache and no discovery run |
| `CachingBeanFactory.CachingByTypeBeanFactory.PutIfAbsent` | src/java/com/idega/springframework/CachingByTypeBeanFactory.java:35 | returns the previously stored names or `None`; the map becomes `StoreIfAbsent` of the old map |
| `CachingBeanFactory.CachingByTypeBeanFactory.GetBeanNamesForType` | src/java/com/idega/springframework/CachingByTypeBeanFactory.java:25-37 | result, new map and discovery log are those of `Lookup` on the old map; discovery is logged once on a miss and never on a hit |
| `CachingBeanFactory.CachingByTypeBeanFactory.GetBeanNamesForTypeDefault` | src/java/com/idega/springframework/CachingByTypeBeanFactory.java:19-22 | behaves as the three-argument lookup with both flags `true` |

## Left out

- Concurrency: `ConcurrentHashMap` thread safety, and the window between `containsKey`/`get` and `putIfAbsent` (lines 27-35), are not modelled. Calls run one after the other. `InterleavedMisses` covers only two misses that store in sequence.
- The `this == o` shortcut in `equals` (line 60) is not modelled as reference identity. Keys are values here, and the same object always has equal fields, so the shortcut gives the same answer as the field comparison.
- `Equals` versus the model's map: the model's map compares keys with Dafny `==` instead of hashing with `hashCode` and `equals`. `Equals` is proved equivalent to `==`, and `HashConsistentWithEquals` shows the hash agrees, so a correct hash map gives the same lookups.
- Aliasing of the returned `String[]`: the Java code returns the cached array itself, so a caller that writes into it changes the cache. The model stores and returns immutable sequences.
- Logging through log4j and `TypeKey.toString` (lines 16, 28, 32-34, 54-56) are side output with no effect on results.
- The internals of Spring's discovery (line 31) are not part of this model; they are the parameter `discover`. A `null` array returned by discovery, or `null` names inside it, are not modelled.
- `Class.hashCode` is the uninterpreted parameter `classHash`.
- Re-entrant discovery: `discover` cannot call back into this factory. In Spring, discovery may call `getBeanNamesForType` on the same factory again. A nested miss for the same key would then store its entry before the outer `putIfAbsent` (line 35) runs. In `Lookup`, the store on a miss is always a plain insert. `InterleavedMisses` states the outcome of such a nested store as two misses finishing in order.
- The rest of the Spring context (`XmlWebApplicationContext`) is not part of this model; only the factory creation hook is.
