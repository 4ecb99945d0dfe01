/**
 * `GymWrapper`: turns the environment's observation dictionary into the single array a
 * gym agent sees, by picking the entries whose keys are configured and concatenating
 * them along axis 0. Entries are visited in the dictionary's own order, not in the
 * order of the configured keys, and a single match is returned as it is.
 */
module Gym {
  import opened NdArrays
  import opened ObsDicts
  import opened MergeSpec

  /** The keys of `order` that are among `keys`, in the order `order` lists them. */
  function FilterKeys(order: seq<string>, keys: seq<string>): (r: seq<string>)
    ensures |r| <= |order|
    ensures forall i :: 0 <= i < |r| ==> r[i] in order && r[i] in keys
  {
    if order == [] then []
    else
      var front, last := order[..|order| - 1], order[|order| - 1];
      assert forall k :: k in front ==> k in order;
      FilterKeys(front, keys) + (if last in keys then [last] else [])
  }

  /** The arrays stored under the filtered keys, in dictionary order (the list built by lines 143-148). */
  function Matching<T>(order: seq<string>, entries: map<string, NdArray<T>>, keys: seq<string>): (r: seq<NdArray<T>>)
    requires forall k :: k in order ==> k in entries
    ensures |r| == |FilterKeys(order, keys)|
    ensures forall i :: 0 <= i < |r| ==> r[i] == entries[FilterKeys(order, keys)[i]]
  {
    if order == [] then []
    else
      var front, last := order[..|order| - 1], order[|order| - 1];
      assert forall k :: k in front ==> k in order;
      Matching(front, entries, keys) + (if last in keys then [entries[last]] else [])
  }

  /**
   * What `_flatten_obs` (lines 132-152) returns: the only matching array unchanged, or
   * else all matching arrays concatenated along axis 0 (which raises for none).
   */
  function Flattened<T>(keys: seq<string>, order: seq<string>, entries: map<string, NdArray<T>>): (r: Result<NdArray<T>, ConcatFailure>)
    requires forall k :: k in order ==> k in entries
    ensures r == Err(NoArrays) <==> FilterKeys(order, keys) == []
    ensures |FilterKeys(order, keys)| == 1 ==> r == Ok(entries[FilterKeys(order, keys)[0]])
  {
    var matches := Matching(order, entries, keys);
    if |matches| == 1 then Ok(matches[0]) else Concatenate(matches)
  }

  // ---------------------------------------------------------------------------
  // Which entries are picked

  /** A key is picked exactly when the dictionary holds it and it is configured. */
  lemma {:induction false} FilterKeysMembers(order: seq<string>, keys: seq<string>, k: string)
    ensures k in FilterKeys(order, keys) <==> k in order && k in keys
  {
    if order != [] {
      var front, last := order[..|order| - 1], order[|order| - 1];
      FilterKeysMembers(front, keys, k);
      assert order == front + [last];
    }
  }

  /** The configured keys only select: listing them in another order or repeating them changes nothing. */
  lemma {:induction false} FilterKeysIgnoresKeyOrder(order: seq<string>, keys1: seq<string>, keys2: seq<string>)
    requires forall k :: k in keys1 <==> k in keys2
    ensures FilterKeys(order, keys1) == FilterKeys(order, keys2)
  {
    if order != [] {
      FilterKeysIgnoresKeyOrder(order[..|order| - 1], keys1, keys2);
    }
  }

  /** The positions in `order` of the keys that are among `keys`, ascending. */
  function PickedPositions(order: seq<string>, keys: seq<string>): seq<nat> {
    if order == [] then []
    else PickedPositions(order[..|order| - 1], keys) + (if order[|order| - 1] in keys then [|order| - 1] else [])
  }

  /** The picked keys follow the dictionary's order: each stands in it, at strictly increasing positions. */
  lemma {:induction false} FilterKeysInOrder(order: seq<string>, keys: seq<string>)
    ensures var r, pos := FilterKeys(order, keys), PickedPositions(order, keys);
      |pos| == |r| &&
      (forall i :: 0 <= i < |r| ==> pos[i] < |order| && order[pos[i]] == r[i]) &&
      (forall i, j :: 0 <= i < j < |r| ==> pos[i] < pos[j])
  {
    if order != [] {
      var n := |order|;
      var front, last := order[..n - 1], order[n - 1];
      FilterKeysInOrder(front, keys);
      var rf, pre := FilterKeys(front, keys), PickedPositions(front, keys);
      var r, pos := FilterKeys(order, keys), PickedPositions(order, keys);
      if last in keys {
        assert r == rf + [last] && pos == pre + [n - 1];
      } else {
        assert r == rf && pos == pre;
      }
      forall i | 0 <= i < |r|
        ensures pos[i] < n && order[pos[i]] == r[i]
      {
        if i < |rf| {
          assert pos[i] == pre[i] && r[i] == rf[i] && order[pre[i]] == front[pre[i]];
        }
      }
      forall i, j | 0 <= i < j < |r|
        ensures pos[i] < pos[j]
      {
        assert pos[i] == pre[i];
        if j < |pre| {
          assert pos[j] == pre[j];
        }
      }
    }
  }

  /** Picking from a dictionary order without repetitions picks every key at most once. */
  lemma {:induction false} FilterKeysDistinct(order: seq<string>, keys: seq<string>)
    requires forall i, j :: 0 <= i < j < |order| ==> order[i] != order[j]
    ensures var r := FilterKeys(order, keys);
      forall i, j :: 0 <= i < j < |r| ==> r[i] != r[j]
  {
    if order != [] {
      var front, last := order[..|order| - 1], order[|order| - 1];
      FilterKeysDistinct(front, keys);
      assert last !in front by {
        forall p | 0 <= p < |front|
          ensures front[p] != last
        {
          assert order[p] == front[p];
        }
      }
      FilterKeysMembers(front, keys, last);
      var pre := FilterKeys(front, keys);
      var r := FilterKeys(order, keys);
      if last in keys {
        assert r == pre + [last];
        forall i, j | 0 <= i < j < |r|
          ensures r[i] != r[j]
        {
          if j == |pre| {
            assert r[i] == pre[i];
          } else {
            assert r[i] == pre[i] && r[j] == pre[j];
          }
        }
      } else {
        assert r == pre;
      }
    }
  }

  /** When a single key is configured and the dictionary holds it once, that key alone is picked. */
  lemma SingleKeyPicked(order: seq<string>, k: string)
    requires forall i, j :: 0 <= i < j < |order| ==> order[i] != order[j]
    requires k in order
    ensures FilterKeys(order, [k]) == [k]
  {
    var r := FilterKeys(order, [k]);
    FilterKeysMembers(order, [k], k);
    FilterKeysDistinct(order, [k]);
    assert |r| > 0 && r[0] == k;
  }

  // ---------------------------------------------------------------------------
  // What is returned

  /** With no matching entry the concatenation of an empty list raises. */
  lemma FlattenedNone<T>(keys: seq<string>, order: seq<string>, entries: map<string, NdArray<T>>)
    requires forall k :: k in order ==> k in entries
    requires forall k :: k in order ==> k !in keys
    ensures Flattened(keys, order, entries) == Err(NoArrays)
  {
  }

  /** A single matching entry is returned as it is, whatever its rank (even a scalar). */
  lemma FlattenedSingle<T>(keys: seq<string>, order: seq<string>, entries: map<string, NdArray<T>>, k: string)
    requires forall k :: k in order ==> k in entries
    requires FilterKeys(order, keys) == [k]
    ensures k in order && k in keys
    ensures Flattened(keys, order, entries) == Ok(entries[k])
  {
    assert FilterKeys(order, keys)[0] == k;
  }

  /** Concatenating a single array of rank at least 1 gives it back. */
  lemma ConcatenateOne<T>(a: NdArray<T>)
    requires a.Rank() > 0
    ensures Concatenate([a]) == Ok(a)
  {
    assert Join([a]) == a;
  }

  /**
   * The special case for a single match only matters for a rank-0 entry: when every
   * match has rank at least 1, the result is plain concatenation of the matches.
   */
  lemma FlattenedIsConcatenate<T>(keys: seq<string>, order: seq<string>, entries: map<string, NdArray<T>>)
    requires forall k :: k in order ==> k in entries
    requires forall k :: k in order && k in keys ==> entries[k].Rank() > 0
    ensures Flattened(keys, order, entries) == Concatenate(Matching(order, entries, keys))
  {
    var matches := Matching(order, entries, keys);
    if |matches| == 1 {
      var r := FilterKeys(order, keys);
      assert r[0] in order && r[0] in keys;
      ConcatenateOne(matches[0]);
    }
  }

  /** The length of the result is the sum of the lengths of the matching entries. */
  lemma FlattenedLength<T>(keys: seq<string>, order: seq<string>, entries: map<string, NdArray<T>>)
    requires forall k :: k in order ==> k in entries
    requires Flattened(keys, order, entries).Ok?
    ensures Leading(Flattened(keys, order, entries).value) == LeadingTotal(Matching(order, entries, keys))
  {
    var matches := Matching(order, entries, keys);
    if |matches| == 1 {
      assert matches[..0] == [];
    }
  }

  /** When every matching entry is a vector, the result is one vector of all their elements in dictionary order. */
  lemma FlattenedVectors<T>(keys: seq<string>, order: seq<string>, entries: map<string, NdArray<T>>)
    requires forall k :: k in order ==> k in entries
    requires forall k :: k in order && k in keys ==> entries[k].Vec?
    requires exists k :: k in order && k in keys
    ensures var matches := Matching(order, entries, keys);
      (forall i :: 0 <= i < |matches| ==> matches[i].Vec?) &&
      Flattened(keys, order, entries) == Ok(Vec(Elements(matches)))
  {
    var matches := Matching(order, entries, keys);
    var r := FilterKeys(order, keys);
    var k :| k in order && k in keys;
    FilterKeysMembers(order, keys, k);
    assert forall i :: 0 <= i < |r| ==> r[i] in order && r[i] in keys;
    JoinVectors(matches);
    if |matches| == 1 {
      assert matches[..0] == [];
    }
  }

  /**
   * When every matching entry has rank 2, the result exists exactly when all of them have
   * the first one's row length, and it is then one matrix of all their rows in dictionary
   * order; otherwise the concatenation fails on the mismatch.
   */
  lemma FlattenedMatrices<T>(keys: seq<string>, order: seq<string>, entries: map<string, NdArray<T>>)
    requires forall k :: k in order ==> k in entries
    requires forall k :: k in order && k in keys ==> entries[k].Mat?
    requires exists k :: k in order && k in keys
    ensures var matches := Matching(order, entries, keys);
      |matches| > 0 && forall i :: 0 <= i < |matches| ==> matches[i].Mat?
    ensures var matches, r := Matching(order, entries, keys), Flattened(keys, order, entries);
      (r.Ok? <==> forall i :: 0 <= i < |matches| ==> matches[i].w == matches[0].w) &&
      (r.Ok? ==> r.value.Mat? && r.value.w == matches[0].w && r.value.m == Rows(matches)) &&
      (r.Err? ==> r.error == DimensionMismatch)
  {
    var matches := Matching(order, entries, keys);
    var picked := FilterKeys(order, keys);
    var k :| k in order && k in keys;
    FilterKeysMembers(order, keys, k);
    assert |matches| > 0;
    assert forall i :: 0 <= i < |matches| ==> matches[i].Mat? by {
      forall i | 0 <= i < |matches|
        ensures matches[i].Mat?
      {
        assert picked[i] in order && picked[i] in keys;
      }
    }
    if |matches| == 1 {
      assert matches[..0] == [];
      assert Rows(matches) == matches[0].m;
    } else {
      ConcatenateMatrices(matches);
      assert Flattened(keys, order, entries) == Concatenate(matches);
    }
  }

  /**
   * A gym wrapper configured with the single key "merged_obs" over a dictionary the
   * merger has just completed hands the agent exactly the merged tensor.
   */
  lemma FlattenedMerged<T>(order: seq<string>, entries: map<string, NdArray<T>>, t: NdArray<T>)
    requires forall i, j :: 0 <= i < j < |order| ==> order[i] != order[j]
    requires forall k :: k in entries <==> k in order
    requires MergedKey in entries && entries[MergedKey] == t
    ensures Flattened([MergedKey], order, entries) == Ok(t)
  {
    SingleKeyPicked(order, MergedKey);
  }

  class GymWrapper {
    /** The keys of the entries that make up the agent's observation. */
    const keys: seq<string>

    /** The key list chosen at construction (line 116). */
    constructor (keys: seq<string>)
      ensures this.keys == keys
    {
      this.keys := keys;
    }

    /** `_flatten_obs` (lines 132-152), without the verbose printing. */
    method FlattenObs<T>(obDict: ObsDict<T>) returns (r: Result<NdArray<T>, ConcatFailure>)
      requires obDict.Valid()
      ensures r == Flattened(keys, obDict.order, obDict.entries)
    {
      var obList: seq<NdArray<T>> := [];
      for i := 0 to |obDict.order|
        invariant obList == Matching(obDict.order[..i], obDict.entries, keys)
      {
        var key := obDict.order[i];
        assert obDict.order[..i + 1][..i] == obDict.order[..i];
        if key in keys {
          obList := obList + [obDict.entries[key]];
        }
      }
      assert obDict.order[..|obDict.order|] == obDict.order;
      if |obList| == 1 {
        return Ok(obList[0]);
      }
      r := Concatenate(obList);
    }

    /** `reset` (lines 154-162): the environment's first observation, flattened. */
    method Reset<T>(obDict: ObsDict<T>) returns (r: Result<NdArray<T>, ConcatFailure>)
      requires obDict.Valid()
      ensures r == Flattened(keys, obDict.order, obDict.entries)
    {
      r := FlattenObs(obDict);
    }

    /** `step` (lines 164-180): the observation after the action, flattened; reward, done and info pass through. */
    method Step<T, R, I>(obDict: ObsDict<T>, reward: R, done: bool, info: I)
      returns (r: Result<(NdArray<T>, R, bool, I), ConcatFailure>)
      requires obDict.Valid()
      ensures match Flattened(keys, obDict.order, obDict.entries)
        case Ok(obs) => r == Ok((obs, reward, done, info))
        case Err(f) => r == Err(f)
    {
      var obs := FlattenObs(obDict);
      if obs.Err? {
        return Err(obs.error);
      }
      return Ok((obs.value, reward, done, info));
    }
  }
}
