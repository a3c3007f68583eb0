/**
 * The memoization key of the caching bean factory: the three inputs of
 * `getBeanNamesForType`, with Java's `equals` and `hashCode` on them.
 *
 * A type descriptor (a `java.lang.Class`) is an element of the type
 * parameter `C`. `Class` does not override `Object.equals`, so two type
 * descriptors are equal exactly when they are the same object, which is
 * what `==` on `C` stands for. A `null` type is `None`.
 */
module TypeKeys {
  import opened Wrappers

  /** Java's 32-bit `int`. */
  newtype int32 = x: int | -0x8000_0000 <= x < 0x8000_0000

  const Modulus: int := 0x1_0000_0000

  /** Two's-complement wrap-around of an unbounded integer into an `int`. */
  function Wrap(x: int): (r: int32)
    ensures (x - r as int) % Modulus == 0
    ensures -0x8000_0000 <= x < 0x8000_0000 ==> r as int == x
  {
    (((x + 0x8000_0000) % Modulus) - 0x8000_0000) as int32
  }

  /** The key `TypeKey(type, includeNonSingletons, allowEagerInit)`. */
  datatype TypeKey<C> = TypeKey(typ: Option<C>, includeNonSingletons: bool, allowEagerInit: bool)

  /** The argument of `equals(Object o)`: null, a `TypeKey`, or an object of another class. */
  datatype JavaObject<C> = Null | Key(key: TypeKey<C>) | OtherClass

  /** `Class.equals(Object)`: the inherited identity comparison; false against `null`. */
  function ClassEquals<C(==)>(c: C, other: Option<C>): (r: bool)
    ensures r <==> other == Some(c)
  {
    other.Some? && other.value == c
  }

  /**
   * `TypeKey.equals`: false for `null` and for other classes, then the two
   * flags, then a null-safe comparison of the types.
   */
  function Equals<C(==)>(k: TypeKey<C>, o: JavaObject<C>): (r: bool)
    ensures r <==> o.Key? && o.key.typ == k.typ
                   && o.key.includeNonSingletons == k.includeNonSingletons
                   && o.key.allowEagerInit == k.allowEagerInit
    ensures r <==> o == Key(k)
  {
    if o.Null? || o.OtherClass? then false
    else
      var typeKey := o.key;
      if k.allowEagerInit != typeKey.allowEagerInit then false
      else if k.includeNonSingletons != typeKey.includeNonSingletons then false
      else if (if k.typ.Some? then !ClassEquals(k.typ.value, typeKey.typ) else typeKey.typ.Some?) then false
      else true
  }

  function BoolBit(b: bool): (bit: int)
  {
    if b then 1 else 0
  }

  /** The contribution of the type to the hash: its `hashCode`, or 0 for `null`. */
  function TypeHash<C>(typ: Option<C>, classHash: C -> int32): (h: int32)
  {
    match typ
    case None => 0
    case Some(c) => classHash(c)
  }

  /**
   * `TypeKey.hashCode`, with `int` overflow made explicit. `classHash` is
   * `Class.hashCode`, left uninterpreted.
   */
  function HashCode<C>(k: TypeKey<C>, classHash: C -> int32): (h: int32)
  {
    var result := TypeHash(k.typ, classHash);
    var result := Wrap(31 * result as int + BoolBit(k.includeNonSingletons));
    Wrap(31 * result as int + BoolBit(k.allowEagerInit))
  }

  /**
   * The two wrapping steps of `hashCode` give the same as one wrap of
   * `961 * h + 31 * b1 + b2`.
   */
  lemma HashCodeClosedForm<C>(k: TypeKey<C>, classHash: C -> int32)
    ensures HashCode(k, classHash)
            == Wrap(961 * TypeHash(k.typ, classHash) as int
                    + 31 * BoolBit(k.includeNonSingletons) + BoolBit(k.allowEagerInit))
  {
  }

  /** `equals` and `hashCode` agree: equal keys have equal hashes. */
  lemma HashConsistentWithEquals<C>(a: TypeKey<C>, b: TypeKey<C>, classHash: C -> int32)
    requires Equals(a, Key(b))
    ensures HashCode(a, classHash) == HashCode(b, classHash)
  {
  }

  /**
   * Keys with the same type and different flags never collide: the four
   * flag combinations of one type land on four distinct hashes.
   */
  lemma FlagsSeparateHashes<C>(a: TypeKey<C>, b: TypeKey<C>, classHash: C -> int32)
    requires a.typ == b.typ
    requires a.includeNonSingletons != b.includeNonSingletons || a.allowEagerInit != b.allowEagerInit
    ensures HashCode(a, classHash) != HashCode(b, classHash)
  {
    HashCodeClosedForm(a, classHash);
    HashCodeClosedForm(b, classHash);
  }
}
