/**
 * The commonizer's per-target container: one value for each target of an
 * ordered target list.
 *
 * `TargetDependent` is the value a container denotes, with the two
 * implementations of the sealed interface as its two variants: a map-based
 * one that looks its values up in an insertion-ordered map, and a
 * factory-based one that produces the value of a target with a factory.
 * `FactoryBasedTargetDependent` is the factory-based implementation itself,
 * a memoizing cache over an array of slots, whose `Get` is proved to yield
 * what the value view says.
 *
 * Exceptions are failures: `MissingTarget` is the `NoSuchElementException`
 * of a `get` outside the targets, `NullValue` the `NullPointerException` of
 * `filterNonNull`. A factory returns a `Result`, so a failure of the `get`
 * it calls propagates to the `get` that called it.
 */
module Commonizer {
  import opened Wrappers

  /** A commonizer target; only its identity matters here. */
  datatype CommonizerTarget = CommonizerTarget(name: string)

  datatype GetError = MissingTarget(target: CommonizerTarget) | NullValue(target: CommonizerTarget)

  // ---------------------------------------------------------------------
  // Insertion-ordered maps (a Kotlin `LinkedHashMap`)
  // ---------------------------------------------------------------------

  datatype Entry<T> = Entry(key: CommonizerTarget, value: T)

  /** `map.keys.toList()`: the keys in insertion order. */
  function Keys<T>(m: seq<Entry<T>>): (r: seq<CommonizerTarget>)
    ensures |r| == |m| && forall i :: 0 <= i < |m| ==> r[i] == m[i].key
  {
    seq(|m|, i requires 0 <= i < |m| => m[i].key)
  }

  predicate Distinct(ts: seq<CommonizerTarget>)
  {
    forall i, j :: 0 <= i < j < |ts| ==> ts[i] != ts[j]
  }

  /** The value stored under `key`, if any. */
  function Lookup<T>(m: seq<Entry<T>>, key: CommonizerTarget): (r: Option<T>)
    ensures r.Some? <==> key in Keys(m)
  {
    if |m| == 0 then None
    else
      assert Keys(m) == [m[0].key] + Keys(m[1..]);
      if m[0].key == key then Some(m[0].value) else Lookup(m[1..], key)
  }

  /** `put`: a present key keeps its place and gets the new value; a new key goes last. */
  function Put<T>(m: seq<Entry<T>>, key: CommonizerTarget, value: T): (r: seq<Entry<T>>)
    ensures Keys(r) == if key in Keys(m) then Keys(m) else Keys(m) + [key]
  {
    if |m| == 0 then [Entry(key, value)]
    else if m[0].key == key then
      var r := [Entry(key, value)] + m[1..];
      assert Keys(r) == Keys(m) by { assert forall i :: 0 <= i < |m| ==> r[i].key == m[i].key; }
      assert Keys(m)[0] == key;
      r
    else
      var rest := Put(m[1..], key, value);
      KeysCons(m[0], m[1..]);
      KeysCons(m[0], rest);
      assert [m[0]] + m[1..] == m;
      [m[0]] + rest
  }

  lemma KeysCons<T>(e: Entry<T>, m: seq<Entry<T>>)
    ensures Keys([e] + m) == [e.key] + Keys(m)
  {
    var whole := [e] + m;
    var l := Keys(whole);
    var r := [e.key] + Keys(m);
    assert |l| == |r|;
    forall i | 0 <= i < |l|
      ensures l[i] == r[i]
    {
      if i > 0 {
        assert whole[i] == m[i - 1];
      }
    }
  }

  /** After `put`, the key holds the new value and every other key what it held before. */
  lemma {:induction false} PutLookup<T>(m: seq<Entry<T>>, key: CommonizerTarget, value: T, other: CommonizerTarget)
    ensures Lookup(Put(m, key, value), key) == Some(value)
    ensures other != key ==> Lookup(Put(m, key, value), other) == Lookup(m, other)
  {
    if |m| > 0 && m[0].key != key {
      PutLookup(m[1..], key, value, other);
      var r := Put(m, key, value);
      assert r[1..] == Put(m[1..], key, value);
    } else if |m| > 0 {
      assert Put(m, key, value)[1..] == m[1..];
    }
  }

  /** In a map with distinct keys, each entry is what the lookup of its key finds. */
  lemma {:induction false} LookupFindsEntry<T>(m: seq<Entry<T>>, i: nat)
    requires Distinct(Keys(m)) && i < |m|
    ensures Lookup(m, m[i].key) == Some(m[i].value)
  {
    if i > 0 {
      assert Keys(m[1..]) == Keys(m)[1..];
      assert Keys(m)[0] != Keys(m)[i];
      LookupFindsEntry(m[1..], i - 1);
    }
  }

  /** `List.indexOf`: the first index of `target`, or -1. */
  function FirstIndex(ts: seq<CommonizerTarget>, target: CommonizerTarget): (r: int)
    ensures -1 <= r < |ts|
    ensures r == -1 <==> target !in ts
    ensures 0 <= r ==> ts[r] == target && target !in ts[..r]
  {
    if |ts| == 0 then -1
    else if ts[0] == target then 0
    else
      var i := FirstIndex(ts[1..], target);
      assert ts[1..][..i + 1] == ts[1..i + 2];
      if i < 0 then -1 else i + 1
  }

  // ---------------------------------------------------------------------
  // The sealed interface
  // ---------------------------------------------------------------------

  /**
   * `TargetDependent<T>`. `MapBased(entries)` is
   * `MapBasedTargetDependent(map)`; `FactoryBased(keys, factory)` is the
   * value of a `FactoryBasedTargetDependent`: what its `get` yields, without
   * the caching (see `FactoryBasedTargetDependent`). The two factory
   * functions named `TargetDependent` build these two variants from a copy
   * of the map and of the keys.
   */
  datatype TargetDependent<T> =
    | MapBased(entries: seq<Entry<T>>)
    | FactoryBased(keys: seq<CommonizerTarget>, factory: CommonizerTarget -> Result<T, GetError>)
  {
    function Targets(): seq<CommonizerTarget>
    {
      match this
      case MapBased(entries) => Keys(entries)
      case FactoryBased(keys, _) => keys
    }

    function Size(): nat
    {
      |Targets()|
    }

    function IndexOf(target: CommonizerTarget): (r: int)
      ensures r < 0 <==> target !in Targets()
      ensures 0 <= r ==> r < Size() && Targets()[r] == target && target !in Targets()[..r]
    {
      FirstIndex(Targets(), target)
    }

    /** `get`: a missing target is a failure; otherwise the map's value or what the factory yields. */
    function Get(target: CommonizerTarget): (r: Result<T, GetError>)
      ensures target !in Targets() ==> r == Failure(MissingTarget(target))
      ensures MapBased? && target in Targets() ==> r.Success?
    {
      match this
      case MapBased(entries) =>
        (match Lookup(entries, target)
         case Some(v) => Success(v)
         case None => Failure(MissingTarget(target)))
      case FactoryBased(keys, factory) =>
        if target in keys then factory(target) else Failure(MissingTarget(target))
    }

    /** `getOrNull`: absent for a target that is not in the list, otherwise `get`. */
    function GetOrNull(target: CommonizerTarget): (r: Result<Option<T>, GetError>)
    {
      if target in Targets() then
        var v :- Get(target);
        Success(Some(v))
      else Success(None)
    }

    /** `iterator`: the values of the targets in order; the first `get` that fails ends it. */
    function Values(): (r: Result<seq<T>, GetError>)
    {
      var ts := Targets();
      AllSuccess(seq(|ts|, i requires 0 <= i < |ts| => Get(ts[i])))
    }

    /** `map`: the same targets, each value passed to `mapper` with its target. */
    function Map<R>(mapper: (CommonizerTarget, T) -> R): TargetDependent<R>
    {
      FactoryBased(Targets(), target => var v :- Get(target); Success(mapper(target, v)))
    }
  }

  // ---------------------------------------------------------------------
  // Extension functions
  // ---------------------------------------------------------------------

  /** `mapValue`: the same targets, each value passed to `mapper`. */
  function MapValue<T, R>(d: TargetDependent<T>, mapper: T -> R): TargetDependent<R>
  {
    FactoryBased(d.Targets(), target => var v :- d.Get(target); Success(mapper(v)))
  }

  /** `mapTargets`: the same targets, each value computed from its target alone. */
  function MapTargets<T, R>(d: TargetDependent<T>, mapper: CommonizerTarget -> R): TargetDependent<R>
  {
    FactoryBased(d.Targets(), target => Success(mapper(target)))
  }

  /** `targets.filter { this[it] != null }`: the targets whose value is present, in order. */
  function NonNullTargets<T>(d: TargetDependent<Option<T>>, ts: seq<CommonizerTarget>)
    : (r: Result<seq<CommonizerTarget>, GetError>)
  {
    if |ts| == 0 then Success([])
    else
      var v :- d.Get(ts[0]);
      var rest :- NonNullTargets(d, ts[1..]);
      Success(if v.Some? then [ts[0]] + rest else rest)
  }

  /** `filterNonNull`: the targets with a value, each with that value. */
  function FilterNonNull<T>(d: TargetDependent<Option<T>>): (r: Result<TargetDependent<T>, GetError>)
  {
    var kept :- NonNullTargets(d, d.Targets());
    Success(FactoryBased(kept, target =>
      var v :- d.Get(target);
      if v.Some? then Success(v.value) else Failure(NullValue(target))))
  }

  /** `Map.toTargetDependent`: a map-based container over a copy of the map. */
  function ToTargetDependent<T>(m: seq<Entry<T>>): (r: TargetDependent<T>)
    ensures r.Targets() == Keys(m)
  {
    MapBased(m)
  }

  /** What the `put` loop of `toMap` leaves in `m` after visiting `keys` in order. */
  function PutAll<T>(m: seq<Entry<T>>, d: TargetDependent<T>, keys: seq<CommonizerTarget>)
    : (r: Result<seq<Entry<T>>, GetError>)
    decreases |keys|
  {
    if |keys| == 0 then Success(m)
    else
      var v :- d.Get(keys[0]);
      PutAll(Put(m, keys[0], v), d, keys[1..])
  }

  /** The loop of `toMap`: `put(key, this[key])` for each of `keys` in order, stopping at a failing `get`. */
  method PutEach<T>(m: seq<Entry<T>>, d: TargetDependent<T>, keys: seq<CommonizerTarget>)
    returns (r: Result<seq<Entry<T>>, GetError>)
    ensures r == PutAll(m, d, keys)
  {
    var result := m;
    for k := 0 to |keys|
      invariant PutAll(result, d, keys[k..]) == PutAll(m, d, keys)
    {
      assert keys[k..][1..] == keys[k + 1..];
      var v := d.Get(keys[k]);
      if v.Failure? {
        return Failure(v.error);
      }
      result := Put(result, keys[k], v.value);
    }
    assert keys[|keys|..] == [];
    return Success(result);
  }

  /**
   * `toMap` as written: inside `apply`, `keys` is the key set of the new,
   * still empty map, not the targets, so nothing is put.
   */
  method ToMapAsWritten<T>(d: TargetDependent<T>) returns (r: Result<seq<Entry<T>>, GetError>)
    ensures r == Success([])
  {
    var m: seq<Entry<T>> := [];
    r := PutEach(m, d, Keys(m));
  }

  /** `toMap` as intended: every target put with its value, in target order. */
  method ToMap<T>(d: TargetDependent<T>) returns (r: Result<seq<Entry<T>>, GetError>)
    ensures r == PutAll([], d, d.Targets())
  {
    r := PutEach([], d, d.Targets());
  }

  // ---------------------------------------------------------------------
  // The factory-based implementation
  // ---------------------------------------------------------------------

  /** A slot of the cache: the `Uninitialized` marker or the value produced for its target. */
  datatype Slot<T> = Uninitialized | Stored(value: T)

  /**
   * `FactoryBasedTargetDependent`: a slot per target, filled by the first
   * `get` of its target; the factory is released once no slot is left
   * uninitialized.
   */
  class FactoryBasedTargetDependent<T> {
    const targets: seq<CommonizerTarget>
    var factory: Option<CommonizerTarget -> Result<T, GetError>>
    const values: array<Slot<T>>

    /** The factory the container was created with, also after it is released. */
    ghost const producer: CommonizerTarget -> Result<T, GetError>
    /** The slots the factory produced a value for, in the order of the calls. */
    ghost var produced: seq<nat>

    /** The value this container denotes. */
    ghost function View(): TargetDependent<T>
    {
      FactoryBased(targets, producer)
    }

    /** `values.none { it === Uninitialized }` */
    predicate NoneUninitialized()
      reads values
    {
      forall i :: 0 <= i < values.Length ==> values[i].Stored?
    }

    ghost predicate Valid()
      reads this, values
    {
      && values.Length == |targets|
      && (factory.Some? ==> factory.value == producer)
      && (factory.None? ==> NoneUninitialized())
      && (forall i :: 0 <= i < values.Length && values[i].Stored? ==> producer(targets[i]) == Success(values[i].value))
      && (forall i :: i in produced <==> 0 <= i < values.Length && values[i].Stored?)
      && (forall i :: multiset(produced)[i] <= 1)
    }

    constructor (targets: seq<CommonizerTarget>, factory: CommonizerTarget -> Result<T, GetError>)
      ensures Valid()
      ensures this.targets == targets && producer == factory && this.factory == Some(factory)
      ensures produced == [] && fresh(values)
      ensures forall i :: 0 <= i < values.Length ==> values[i] == Uninitialized
    {
      this.targets := targets;
      this.factory := Some(factory);
      producer := factory;
      values := new Slot<T>[|targets|](_ => Uninitialized);
      produced := [];
    }

    /**
     * `get`: the factory is called only for an uninitialized slot, and only
     * a successful call fills it; a filled slot is returned as stored.
     */
    method Get(target: CommonizerTarget) returns (r: Result<T, GetError>)
      requires Valid()
      modifies this, values
      ensures Valid()
      ensures r == View().Get(target)
      ensures var index := FirstIndex(targets, target);
        var filled := 0 <= index && old(values[index]).Uninitialized? && r.Success?;
        && produced == old(produced) + (if filled then [index] else [])
        && values[..] == (if filled then old(values[..])[index := Stored(r.value)] else old(values[..]))
        && (old(factory).Some? && factory.None? <==> filled && NoneUninitialized())
        && (factory.Some? ==> factory == old(factory))
    {
      var indexOfTarget := FirstIndex(targets, target);
      if indexOfTarget < 0 {
        return Failure(MissingTarget(target));
      }
      var storedValue := values[indexOfTarget];
      if storedValue.Uninitialized? {
        // a released factory would mean no slot is uninitialized
        var producedValue := factory.value(target);
        if producedValue.Failure? {
          return producedValue;
        }
        values[indexOfTarget] := Stored(producedValue.value);
        produced := produced + [indexOfTarget];
        assert old(values[..])[indexOfTarget := Stored(producedValue.value)] == values[..];
        if NoneUninitialized() {
          factory := None;
        }
        return producedValue;
      }
      return Success(storedValue.value);
    }
  }
}
