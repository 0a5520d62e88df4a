/**
 * Helpers of the host (core/src/util.rs): merging two maps, altering one entry
 * of a shared map in place, and two small Result adapters.
 */
module Util {
  import opened Wrappers
  import opened ServiceErrors

  /** The map join_merge builds: every key of either map, valued by Combined. */
  function Merged<K, V>(left: map<K, V>, right: map<K, V>, func: (K, V, V) -> V): map<K, V>
  {
    map k | k in left.Keys + right.Keys :: Combined(left, right, func, k)
  }

  /** The merged value of a key present in at least one map. */
  function Combined<K, V>(left: map<K, V>, right: map<K, V>, func: (K, V, V) -> V, k: K): V
    requires k in left || k in right
  {
    if k in left && k in right then func(k, left[k], right[k])
    else if k in left then left[k]
    else right[k]
  }

  /**
   * What join_merge promises: the keys of both maps; a key in both maps takes
   * func(key, left, right), a key in one map keeps that map's value.
   */
  lemma MergedSpec<K, V>(left: map<K, V>, right: map<K, V>, func: (K, V, V) -> V)
    ensures Merged(left, right, func).Keys == left.Keys + right.Keys
    ensures forall k :: k in left && k in right ==> Merged(left, right, func)[k] == func(k, left[k], right[k])
    ensures forall k :: k in left && k !in right ==> Merged(left, right, func)[k] == left[k]
    ensures forall k :: k !in left && k in right ==> Merged(left, right, func)[k] == right[k]
  {
  }

  /** The entries of `m` whose key is in `s`. */
  ghost function Restrict<K, V>(m: map<K, V>, s: set<K>): map<K, V>
  {
    map k | k in m && k in s :: m[k]
  }

  lemma RestrictAdd<K, V>(m: map<K, V>, s: set<K>, x: K)
    requires x in m
    ensures Restrict(m, s)[x := m[x]] == Restrict(m, s + {x})
  {
  }

  lemma RestrictAll<K, V>(m: map<K, V>)
    ensures Restrict(m, m.Keys) == m
  {
  }

  lemma RestrictRemove<K, V>(m: map<K, V>, s: set<K>, x: K)
    ensures Restrict(m, s) - {x} == Restrict(m, s - {x})
  {
  }

  /**
   * MapExt::join_merge, for both the HashMap and the TomlMap impl (they have
   * the same body): walk the union of the keys, remove the key from each map
   * and combine what was found.
   */
  method JoinMerge<K, V>(left: map<K, V>, right: map<K, V>, func: (K, V, V) -> V) returns (r: map<K, V>)
    ensures r == Merged(left, right, func)
  {
    ghost var merged := Merged(left, right, func);
    var self, other := left, right;
    var keys := left.Keys + right.Keys;
    r := map[];
    while keys != {}
      invariant keys <= merged.Keys
      invariant self == Restrict(left, keys) && other == Restrict(right, keys)
      invariant r == Restrict(merged, merged.Keys - keys)
      decreases keys
    {
      var key :| key in keys;
      var leftOpt := if key in self then Some(self[key]) else None;
      RestrictRemove(left, keys, key);
      self := self - {key};
      var rightOpt := if key in other then Some(other[key]) else None;
      RestrictRemove(right, keys, key);
      other := other - {key};
      RestrictAdd(merged, merged.Keys - keys, key);
      if leftOpt.Some? && rightOpt.Some? {
        r := r[key := func(key, leftOpt.value, rightOpt.value)];
      } else if leftOpt.Some? {
        r := r[key := leftOpt.value];
      } else {
        // (None, None) is unreachable: the key came from one of the maps.
        r := r[key := rightOpt.value];
      }
      assert merged.Keys - (keys - {key}) == (merged.Keys - keys) + {key};
      keys := keys - {key};
    }
    RestrictAll(merged);
  }

  /** Merging with a function that keeps the right value is map override: the right map wins. */
  lemma MergeKeepRightIsOverride<K, V>(left: map<K, V>, right: map<K, V>)
    ensures Merged(left, right, (k: K, l: V, r: V) => r) == left + right
  {
  }

  /** Merging with an empty map on either side leaves the other map as it is. */
  lemma MergeWithEmpty<K, V>(m: map<K, V>, func: (K, V, V) -> V)
    ensures Merged(m, map[], func) == m && Merged(map[], m, func) == m
  {
  }

  /**
   * rcu_alter as one atomic step: an absent key is NotFound and the map is
   * left alone; for a present key the value `func` produced is written back
   * even when func reports an error, and that error is the result.
   */
  function Alter<K, V>(m: map<K, V>, key: K, func: V -> (V, Result<(), ServiceError>))
    : (r: (map<K, V>, Result<(), ServiceError>))
    ensures key !in m ==> r == (m, Err(NotFound))
    ensures key in m ==> r.0 == m[key := func(m[key]).0] && r.1 == func(m[key]).1
  {
    if key !in m then (m, Err(NotFound)) else (m[key := func(m[key]).0], func(m[key]).1)
  }

  /** Alter changes no key other than `key`, and never adds or removes a key. */
  lemma AlterFrame<K, V>(m: map<K, V>, key: K, func: V -> (V, Result<(), ServiceError>))
    ensures Alter(m, key, func).0.Keys == m.Keys
    ensures forall k :: k in m && k != key ==> Alter(m, key, func).0[k] == m[k]
    ensures Alter(m, key, func).1.Ok? ==> key in m && func(m[key]).1.Ok?
  {
  }

  /** LockedMap: an ArcSwap over an immutable HashMap. */
  class LockedMap<K(==), V> {
    var contents: map<K, V>

    constructor (contents: map<K, V>)
      ensures this.contents == contents
    {
      this.contents := contents;
    }

    /** ArcMapExt::rcu_alter: replace the map by the altered copy, report the closure's error. */
    method RcuAlter(key: K, func: V -> (V, Result<(), ServiceError>)) returns (r: Result<(), ServiceError>)
      modifies this
      ensures (contents, r) == Alter(old(contents), key, func)
    {
      var error: Result<(), ServiceError> := Ok(());
      var altered := contents;
      if key !in contents {
        error := Err(NotFound);
      } else {
        var (value, res) := func(contents[key]);
        match res {
          case Err(e) => error := Err(e);
          case Ok(u) => assert u == ();
        }
        altered := contents[key := value];
      }
      contents := altered;
      r := error;
    }
  }

  /** TrueOrErr::or_error. */
  function OrError<E>(b: bool, error: E): (r: Result<(), E>)
    ensures r.Ok? <==> b
    ensures r.Err? ==> r.error == error
  {
    if b then Ok(()) else Err(error)
  }

  /** ResultFlatten::flatten_: Ok(Ok(x)) is Ok(x); Ok(Err(e)) and Err(e) are Err(e). */
  function Flatten<T, E>(x: Result<Result<T, E>, E>): (r: Result<T, E>)
    ensures r.Ok? <==> x.Ok? && x.value.Ok?
    ensures r.Ok? ==> r.value == x.value.value
    ensures r.Err? ==> r.error == (if x.Err? then x.error else x.value.error)
  {
    match x
    case Ok(Ok(v)) => Ok(v)
    case Ok(Err(e)) => Err(e)
    case Err(e) => Err(e)
  }

  /** Flatten undoes wrapping a result in Ok, and keeps an outer error. */
  lemma FlattenOfOk<T, E>(inner: Result<T, E>, e: E)
    ensures Flatten(Ok(inner)) == inner
    ensures Flatten<T, E>(Err(e)) == Err(e)
  {
  }
}
