/**
 * `MergeObsWrapper`: every observation dictionary the wrapped environment returns
 * gets an extra entry "merged_obs", the configured images in channel-first layout
 * stacked with the configured vectors broadcast to one constant plane per scalar.
 * The merge works step by step on the dictionary the environment handed over and
 * inserts into it in place, so it is modelled by methods over the `ObsDict` object.
 */
module MergeObs {
  import opened NdArrays
  import opened ObsDicts
  import opened MergeSpec
  import opened MergeProperties

  /**
   * The image loop of lines 30-39: each image entry made channel-first in key order,
   * then all of them concatenated along the channel axis.
   */
  method StackImages<T>(obs: map<string, NdArray<T>>, imgKeys: seq<string>) returns (r: Result<NdArray<T>, MergeError>)
    ensures r == ImageStack(obs, imgKeys)
  {
    var images: seq<NdArray<T>> := [];
    for i := 0 to |imgKeys|
      invariant ChannelFirstImages(obs, imgKeys[..i]) == Ok(images)
    {
      var key := imgKeys[i];
      assert imgKeys[..i + 1][..i] == imgKeys[..i] && imgKeys[..i + 1][i] == key;
      if key !in obs {
        ImageErrorAt(obs, imgKeys, i);
        return Err(KeyError(key));
      }
      var a := obs[key];
      if a.Rank() == 3 {
        assert ChannelFirst(key, a) == Ok(SwapAxes12(SwapAxes02(a)));
        images := images + [SwapAxes12(SwapAxes02(a))];
      } else if a.Rank() == 2 {
        assert ChannelFirst(key, a) == Ok(ExpandFirst(a));
        images := images + [ExpandFirst(a)];
      } else {
        ImageErrorAt(obs, imgKeys, i);
        return Err(ImageRankError(key));
      }
    }
    assert imgKeys[..|imgKeys|] == imgKeys;
    var stacked := Concatenate(images);
    if stacked.Err? {
      return Err(ConcatError(ImageStage, stacked.error));
    }
    return Ok(stacked.value);
  }

  /**
   * The vector loop of lines 41-50: each vector entry checked to be of rank at most 1,
   * the entries concatenated into N scalars, and the result broadcast to N planes of
   * the camera's height and width.
   */
  method BroadcastVectors<T>(obs: map<string, NdArray<T>>, vectKeys: seq<string>, height: nat, width: nat)
    returns (r: Result<NdArray<T>, MergeError>)
    ensures r == VectorPlanes(obs, vectKeys, height, width)
  {
    var vectors: seq<NdArray<T>> := [];
    for i := 0 to |vectKeys|
      invariant VectorEntries(obs, vectKeys[..i]) == Ok(vectors)
    {
      var key := vectKeys[i];
      assert vectKeys[..i + 1][..i] == vectKeys[..i];
      if key !in obs {
        VectorErrorAt(obs, vectKeys, i);
        return Err(KeyError(key));
      }
      if obs[key].Rank() > 1 {
        VectorErrorAt(obs, vectKeys, i);
        return Err(VectorRankError(key));
      }
      vectors := vectors + [obs[key]];
    }
    assert vectKeys[..|vectKeys|] == vectKeys;
    var flat := Concatenate(vectors);
    if flat.Err? {
      return Err(ConcatError(VectorStage, flat.error));
    }
    var column := ExpandLast(ExpandLast(flat.value));
    return Ok(Tile(column, 1, height, width));
  }

  class MergeObsWrapper {
    /** The keys of the image entries, in the order their channels are stacked. */
    const imgKeys: seq<string>
    /** The keys of the vector entries, in the order their scalars are stacked. */
    const vectKeys: seq<string>

    /** Lines 21-27: the wrapper remembers the two key lists. */
    constructor (imgKeys: seq<string>, vectKeys: seq<string>)
      ensures this.imgKeys == imgKeys && this.vectKeys == vectKeys
    {
      this.imgKeys := imgKeys;
      this.vectKeys := vectKeys;
    }

    /**
     * `_add_merged_obs` (lines 29-52) with the first camera's height and width: on
     * success the merged tensor is stored under "merged_obs" in the caller's dictionary,
     * which is returned; on an error nothing has been stored.
     */
    method AddMergedObs<T>(obDict: ObsDict<T>, height: nat, width: nat) returns (r: Result<ObsDict<T>, MergeError>)
      requires obDict.Valid()
      modifies obDict
      ensures obDict.Valid()
      ensures r.Ok? <==> MergeAccepts(imgKeys, vectKeys, old(obDict.entries), height, width)
      ensures match MergedTensor(imgKeys, vectKeys, old(obDict.entries), height, width)
        case Ok(t) =>
          r == Ok(obDict) &&
          obDict.entries == old(obDict.entries)[MergedKey := t] &&
          obDict.order == (if MergedKey in old(obDict.entries) then old(obDict.order) else old(obDict.order) + [MergedKey])
        case Err(e) =>
          r == Err(e) && obDict.entries == old(obDict.entries) && obDict.order == old(obDict.order)
    {
      MergedTensorOk(imgKeys, vectKeys, obDict.entries, height, width);
      var images := StackImages(obDict.entries, imgKeys);
      if images.Err? {
        return Err(images.error);
      }
      var planes := BroadcastVectors(obDict.entries, vectKeys, height, width);
      if planes.Err? {
        return Err(planes.error);
      }
      var merged := Concatenate([images.value, planes.value]);
      if merged.Err? {
        return Err(ConcatError(MergeStage, merged.error));
      }
      obDict.SetItem(MergedKey, merged.value);
      return Ok(obDict);
    }

    /** `reset` (lines 55-62): the environment's first observation, with the merged entry added. */
    method Reset<T>(obDict: ObsDict<T>, height: nat, width: nat) returns (r: Result<ObsDict<T>, MergeError>)
      requires obDict.Valid()
      modifies obDict
      ensures obDict.Valid()
      ensures match MergedTensor(imgKeys, vectKeys, old(obDict.entries), height, width)
        case Ok(t) =>
          r == Ok(obDict) && obDict.entries == old(obDict.entries)[MergedKey := t] &&
          obDict.order == (if MergedKey in old(obDict.entries) then old(obDict.order) else old(obDict.order) + [MergedKey])
        case Err(e) => r == Err(e) && obDict.entries == old(obDict.entries) && obDict.order == old(obDict.order)
    {
      r := AddMergedObs(obDict, height, width);
    }

    /**
     * `step` (lines 64-78): the environment's observation after the action, with the
     * merged entry added; reward, done flag and info are passed through untouched.
     */
    method Step<T, R, I>(obDict: ObsDict<T>, reward: R, done: bool, info: I, height: nat, width: nat)
      returns (r: Result<(ObsDict<T>, R, bool, I), MergeError>)
      requires obDict.Valid()
      modifies obDict
      ensures obDict.Valid()
      ensures match MergedTensor(imgKeys, vectKeys, old(obDict.entries), height, width)
        case Ok(t) =>
          r == Ok((obDict, reward, done, info)) && obDict.entries == old(obDict.entries)[MergedKey := t] &&
          obDict.order == (if MergedKey in old(obDict.entries) then old(obDict.order) else old(obDict.order) + [MergedKey])
        case Err(e) => r == Err(e) && obDict.entries == old(obDict.entries) && obDict.order == old(obDict.order)
    {
      var merged := AddMergedObs(obDict, height, width);
      if merged.Err? {
        return Err(merged.error);
      }
      return Ok((merged.value, reward, done, info));
    }
  }
}
