/**
 * What the per-target container promises: the map-based variant is a map
 * lookup, `getOrNull` and iteration agree with `get`, the mapping functions
 * keep the targets and work pointwise, `filterNonNull` keeps exactly the
 * targets with a value, and `toMap` (as intended) round-trips.
 */
module CommonizerProperties {
  import opened Wrappers
  import opened Commonizer

  /** `xs` is `ys` with some elements left out, the rest in their order. */
  predicate IsSubsequence(xs: seq<CommonizerTarget>, ys: seq<CommonizerTarget>)
    decreases |ys|
  {
    if |xs| == 0 then true
    else if |ys| == 0 then false
    else if xs[0] == ys[0] then IsSubsequence(xs[1..], ys[1..])
    else IsSubsequence(xs, ys[1..])
  }

  // ---------------------------------------------------------------------
  // get, getOrNull, iteration
  // ---------------------------------------------------------------------

  /** The map-based container's targets are the map's keys, and `get` finds each entry's value. */
  lemma MapBasedIsLookup<T>(m: seq<Entry<T>>, i: nat)
    requires Distinct(Keys(m)) && i < |m|
    ensures MapBased(m).Targets() == Keys(m)
    ensures MapBased(m).Get(m[i].key) == Success(m[i].value)
  {
    LookupFindsEntry(m, i);
  }

  /** `getOrNull` is absent exactly for a target outside the list, and `get` otherwise. */
  lemma GetOrNullAgreesWithGet<T>(d: TargetDependent<T>, target: CommonizerTarget)
    ensures d.GetOrNull(target) == Success(None) <==> target !in d.Targets()
    ensures target in d.Targets() ==>
      d.GetOrNull(target) == (match d.Get(target) case Success(v) => Success(Some(v)) case Failure(e) => Failure(e))
  {
  }

  /**
   * Iteration yields `get` of each target in target order, as many values
   * as the size; a failing `get` ends it with the failure of the first one.
   */
  lemma ValuesYieldGets<T>(d: TargetDependent<T>)
    ensures d.Values().Success? <==> forall i :: 0 <= i < d.Size() ==> d.Get(d.Targets()[i]).Success?
    ensures d.Values().Success? ==>
      |d.Values().value| == d.Size()
      && forall i :: 0 <= i < d.Size() ==> d.Values().value[i] == d.Get(d.Targets()[i]).value
    ensures d.Values().Failure? ==>
      exists i :: 0 <= i < d.Size() && d.Get(d.Targets()[i]) == Failure(d.Values().error)
        && forall j :: 0 <= j < i ==> d.Get(d.Targets()[j]).Success?
  {
    var ts := d.Targets();
    var gets := seq(|ts|, i requires 0 <= i < |ts| => d.Get(ts[i]));
    assert d.Values() == AllSuccess(gets);
    assert d.Size() == |ts| == |gets|;
    assert forall i :: 0 <= i < |ts| ==> gets[i] == d.Get(ts[i]);
    if AllSuccess(gets).Failure? {
      AllSuccessFirstFailure(gets);
      var i :| 0 <= i < |gets| && gets[i] == Failure(AllSuccess(gets).error)
        && forall j :: 0 <= j < i ==> gets[j].Success?;
      assert d.Get(ts[i]) == gets[i];
    }
  }

  // ---------------------------------------------------------------------
  // map, mapValue, mapTargets
  // ---------------------------------------------------------------------

  /** `map` keeps the targets and passes each target and its value to the mapper. */
  lemma MapPointwise<T, R>(d: TargetDependent<T>, mapper: (CommonizerTarget, T) -> R, target: CommonizerTarget)
    ensures d.Map(mapper).Targets() == d.Targets()
    ensures target in d.Targets() ==>
      d.Map(mapper).Get(target)
        == (match d.Get(target) case Success(v) => Success(mapper(target, v)) case Failure(e) => Failure(e))
    ensures target !in d.Targets() ==> d.Map(mapper).Get(target) == Failure(MissingTarget(target))
  {
    var f := d.Map(mapper);
    assert f == FactoryBased(d.Targets(), t => var v :- d.Get(t); Success(mapper(t, v)));
    if target in d.Targets() {
      assert f.Get(target) == f.factory(target);
      assert f.factory(target) == (var v :- d.Get(target); Success(mapper(target, v)));
    }
  }

  /** `mapValue` keeps the targets and passes each value to the mapper. */
  lemma MapValuePointwise<T, R>(d: TargetDependent<T>, mapper: T -> R, target: CommonizerTarget)
    ensures MapValue(d, mapper).Targets() == d.Targets()
    ensures target in d.Targets() ==>
      MapValue(d, mapper).Get(target)
        == (match d.Get(target) case Success(v) => Success(mapper(v)) case Failure(e) => Failure(e))
    ensures target !in d.Targets() ==> MapValue(d, mapper).Get(target) == Failure(MissingTarget(target))
  {
    var f := MapValue(d, mapper);
    assert f == FactoryBased(d.Targets(), t => var v :- d.Get(t); Success(mapper(v)));
    if target in d.Targets() {
      assert f.Get(target) == f.factory(target);
      assert f.factory(target) == (var v :- d.Get(target); Success(mapper(v)));
    }
  }

  /** `mapTargets` keeps the targets and never asks the original container for a value. */
  lemma MapTargetsPointwise<T, R>(d: TargetDependent<T>, mapper: CommonizerTarget -> R, target: CommonizerTarget)
    ensures MapTargets(d, mapper).Targets() == d.Targets()
    ensures MapTargets(d, mapper).Get(target)
      == if target in d.Targets() then Success(mapper(target)) else Failure(MissingTarget(target))
  {
  }

  // ---------------------------------------------------------------------
  // filterNonNull
  // ---------------------------------------------------------------------

  /**
   * The filter asks for every value: it succeeds when every `get` does, and
   * otherwise fails with the first failing `get`.
   */
  lemma {:induction false} NonNullTargetsSucceeds<T>(d: TargetDependent<Option<T>>, ts: seq<CommonizerTarget>)
    ensures NonNullTargets(d, ts).Success? <==> forall i :: 0 <= i < |ts| ==> d.Get(ts[i]).Success?
    ensures NonNullTargets(d, ts).Failure? ==>
      exists i :: 0 <= i < |ts| && d.Get(ts[i]) == Failure(NonNullTargets(d, ts).error)
        && forall j :: 0 <= j < i ==> d.Get(ts[j]).Success?
  {
    if |ts| > 0 {
      var rest := ts[1..];
      NonNullTargetsSucceeds(d, rest);
      assert forall i :: 1 <= i < |ts| ==> ts[i] == rest[i - 1];
      if d.Get(ts[0]).Success? && NonNullTargets(d, rest).Failure? {
        var i :| 0 <= i < |rest| && d.Get(rest[i]) == Failure(NonNullTargets(d, rest).error)
          && forall j :: 0 <= j < i ==> d.Get(rest[j]).Success?;
        assert d.Get(ts[i + 1]) == Failure(NonNullTargets(d, ts).error);
      }
    }
  }

  /** A successful filter keeps exactly the targets whose value is present, in their order. */
  lemma {:induction false} NonNullTargetsKeeps<T>(d: TargetDependent<Option<T>>, ts: seq<CommonizerTarget>)
    requires NonNullTargets(d, ts).Success?
    ensures var kept := NonNullTargets(d, ts).value;
      && IsSubsequence(kept, ts)
      && forall t :: t in kept <==> t in ts && d.Get(t).Success? && d.Get(t).value.Some?
  {
    if |ts| > 0 {
      var rest := ts[1..];
      assert NonNullTargets(d, rest).Success?;
      NonNullTargetsKeeps(d, rest);
      assert forall t :: t in ts <==> t == ts[0] || t in rest;
      var kept := NonNullTargets(d, rest).value;
      if d.Get(ts[0]).value.Some? {
        assert ([ts[0]] + kept)[1..] == kept;
      } else {
        SubsequenceOfTail(kept, ts);
      }
    }
  }

  /** A subsequence of the tail is a subsequence of the whole. */
  lemma {:induction false} SubsequenceOfTail(xs: seq<CommonizerTarget>, ys: seq<CommonizerTarget>)
    requires |ys| > 0 && IsSubsequence(xs, ys[1..])
    ensures IsSubsequence(xs, ys)
    decreases |ys|, 0
  {
    if |xs| > 0 && xs[0] == ys[0] {
      // matching `ys[0]` against `xs[0]` leaves `xs[1..]` for the tail
      SubsequenceOfLonger(xs, ys[1..]);
    }
  }

  /** Dropping the first element keeps a subsequence a subsequence. */
  lemma {:induction false} SubsequenceOfLonger(xs: seq<CommonizerTarget>, ys: seq<CommonizerTarget>)
    requires |xs| > 0 && IsSubsequence(xs, ys)
    ensures IsSubsequence(xs[1..], ys)
    decreases |ys|, 1
  {
    if |ys| > 0 {
      if xs[0] == ys[0] {
        if |xs| > 1 {
          SubsequenceOfTail(xs[1..], ys);
        }
      } else {
        SubsequenceOfLonger(xs, ys[1..]);
        if |xs| > 1 {
          SubsequenceOfTail(xs[1..], ys);
        }
      }
    }
  }

  /**
   * `filterNonNull` keeps exactly the targets whose value is present, in
   * their order, each with that value.
   */
  lemma FilterNonNullKeeps<T>(d: TargetDependent<Option<T>>, target: CommonizerTarget)
    ensures FilterNonNull(d).Success? <==> forall i :: 0 <= i < d.Size() ==> d.Get(d.Targets()[i]).Success?
    ensures FilterNonNull(d).Success? ==>
      var r := FilterNonNull(d).value;
      && IsSubsequence(r.Targets(), d.Targets())
      && (target in r.Targets() <==> target in d.Targets() && d.Get(target).value.Some?)
      && (target in r.Targets() ==> r.Get(target) == Success(d.Get(target).value.value))
  {
    NonNullTargetsSucceeds(d, d.Targets());
    if NonNullTargets(d, d.Targets()).Success? {
      NonNullTargetsKeeps(d, d.Targets());
    }
  }

  // ---------------------------------------------------------------------
  // toMap
  // ---------------------------------------------------------------------

  /**
   * The `put` loop succeeds when every `get` does; each visited key then
   * holds its value and every other key what it held before.
   */
  lemma {:induction false} PutAllStores<T>(m: seq<Entry<T>>, d: TargetDependent<T>, keys: seq<CommonizerTarget>,
                                          key: CommonizerTarget)
    ensures PutAll(m, d, keys).Success? <==> forall i :: 0 <= i < |keys| ==> d.Get(keys[i]).Success?
    ensures PutAll(m, d, keys).Success? ==>
      Lookup(PutAll(m, d, keys).value, key) == if key in keys then Some(d.Get(key).value) else Lookup(m, key)
    decreases |keys|
  {
    if |keys| > 0 {
      var rest := keys[1..];
      assert forall i :: 1 <= i < |keys| ==> keys[i] == rest[i - 1];
      assert key in keys <==> key == keys[0] || key in rest;
      if d.Get(keys[0]).Success? {
        var m' := Put(m, keys[0], d.Get(keys[0]).value);
        PutAllStores(m', d, rest, key);
        PutLookup(m, keys[0], d.Get(keys[0]).value, key);
      }
    }
  }

  /** Distinct keys that are not in the map yet are added in order after the existing ones. */
  lemma {:induction false} PutAllKeys<T>(m: seq<Entry<T>>, d: TargetDependent<T>, keys: seq<CommonizerTarget>)
    requires Distinct(Keys(m) + keys)
    requires PutAll(m, d, keys).Success?
    ensures Keys(PutAll(m, d, keys).value) == Keys(m) + keys
    decreases |keys|
  {
    if |keys| > 0 {
      var k := keys[0];
      DistinctSplit(Keys(m), keys);
      var m' := Put(m, k, d.Get(k).value);
      assert PutAll(m, d, keys) == PutAll(m', d, keys[1..]);
      assert Keys(m') == Keys(m) + [k];
      MoveFirst(Keys(m), keys);
      PutAllKeys(m', d, keys[1..]);
    }
  }

  /** Moving the first element of `ys` to the end of `xs` leaves the concatenation unchanged. */
  lemma MoveFirst<X>(xs: seq<X>, ys: seq<X>)
    requires |ys| > 0
    ensures (xs + [ys[0]]) + ys[1..] == xs + ys
  {
    assert ys == [ys[0]] + ys[1..];
  }

  /** In a list without repetitions, no element of the second part occurs in the first. */
  lemma DistinctSplit(xs: seq<CommonizerTarget>, ys: seq<CommonizerTarget>)
    requires Distinct(xs + ys)
    ensures forall i :: 0 <= i < |ys| ==> ys[i] !in xs
  {
    forall i | 0 <= i < |ys|
      ensures ys[i] !in xs
    {
      forall j | 0 <= j < |xs|
        ensures xs[j] != ys[i]
      {
        assert (xs + ys)[j] == xs[j] && (xs + ys)[|xs| + i] == ys[i];
      }
    }
  }

  /**
   * `toMap` as intended round-trips: a map-based container over its result
   * has the same targets (when they are distinct, as a map's keys must be)
   * and the same value for every target.
   */
  lemma ToMapRoundTrip<T>(d: TargetDependent<T>, target: CommonizerTarget)
    requires PutAll([], d, d.Targets()).Success?
    ensures var back := ToTargetDependent(PutAll([], d, d.Targets()).value);
      && (Distinct(d.Targets()) ==> back.Targets() == d.Targets())
      && back.Get(target) == d.Get(target)
  {
    var r := PutAll([], d, d.Targets()).value;
    PutAllStores([], d, d.Targets(), target);
    if Distinct(d.Targets()) {
      assert Keys<T>([]) + d.Targets() == d.Targets();
      PutAllKeys([], d, d.Targets());
    }
    if target in d.Targets() {
      var i :| 0 <= i < |d.Targets()| && d.Targets()[i] == target;
      assert d.Get(d.Targets()[i]).Success?;
    }
  }

  /**
   * `toMap` as written loses every target: whenever the container has a
   * target and `toMap` as intended succeeds, its result is not the empty map
   * the written `toMap` returns.
   */
  lemma ToMapAsWrittenLosesTargets<T>(d: TargetDependent<T>)
    requires d.Size() > 0 && PutAll([], d, d.Targets()).Success?
    ensures PutAll([], d, d.Targets()) != Success([])
    ensures ToTargetDependent<T>([]).Targets() != d.Targets()
  {
    var target := d.Targets()[0];
    PutAllStores([], d, d.Targets(), target);
  }
}
