/**
 * What `MergeObsWrapper._add_merged_obs` computes, as functions of the observation
 * dictionary's contents, the two key lists and the camera resolution: the image list
 * and image stack, the vector list and its broadcast planes, the merged tensor, and
 * the errors each step raises.
 */
module MergeSpec {
  import opened NdArrays

  /** The `numpy.concatenate` call that raised: images (line 39), vectors (line 47) or the final stack (line 51). */
  datatype ConcatStage = ImageStage | VectorStage | MergeStage

  /** Why the merge raises. */
  datatype MergeError =
    | KeyError(key: string)          // a configured key is absent from the dictionary
    | ImageRankError(key: string)    // "Wrong number of dimensions in the image <key>"
    | VectorRankError(key: string)   // "Expected vector observation in <key>"
    | ConcatError(stage: ConcatStage, failure: ConcatFailure)

  /** The dictionary key under which the merged tensor is stored. */
  const MergedKey: string := "merged_obs"

  /** An image entry has rank 2 (height, width) or rank 3 (height, width, channel). */
  predicate IsImage<T>(a: NdArray<T>) {
    a.Mat? || a.Cube?
  }

  function ImageHeight<T>(a: NdArray<T>): nat
    requires IsImage(a)
  {
    if a.Cube? then a.d0 else a.h
  }

  function ImageWidth<T>(a: NdArray<T>): nat
    requires IsImage(a)
  {
    if a.Cube? then a.d1 else a.w
  }

  /** The channels an image contributes: its third dimension, or 1 for a rank-2 image. */
  function ImageChannels<T>(a: NdArray<T>): nat
    requires IsImage(a)
  {
    if a.Cube? then a.d2 else 1
  }

  predicate ImageEntry<T>(obs: map<string, NdArray<T>>, key: string) {
    key in obs && IsImage(obs[key])
  }

  predicate VectorEntry<T>(obs: map<string, NdArray<T>>, key: string) {
    key in obs && obs[key].Vec?
  }

  /** The entry passes the rank check of the vector loop (line 43): present, and of rank 0 or 1. */
  predicate PassesVectorCheck<T>(obs: map<string, NdArray<T>>, key: string) {
    key in obs && obs[key].Rank() <= 1
  }

  /** Every key passes the rank check of the vector loop. */
  predicate AllPassVectorCheck<T>(obs: map<string, NdArray<T>>, keys: seq<string>) {
    forall j :: 0 <= j < |keys| ==> PassesVectorCheck(obs, keys[j])
  }

  /** Every key is present and holds an image. */
  predicate AllImages<T>(obs: map<string, NdArray<T>>, keys: seq<string>) {
    forall j :: 0 <= j < |keys| ==> ImageEntry(obs, keys[j])
  }

  /** Every key is present and holds a rank-1 array. */
  predicate AllVectors<T>(obs: map<string, NdArray<T>>, keys: seq<string>) {
    forall j :: 0 <= j < |keys| ==> VectorEntry(obs, keys[j])
  }

  /** The number of channels the first n image keys contribute. */
  function ChannelOffset<T>(obs: map<string, NdArray<T>>, keys: seq<string>, n: nat): nat
    requires n <= |keys| && AllImages(obs, keys)
  {
    if n == 0 then 0 else ChannelOffset(obs, keys, n - 1) + ImageChannels(obs[keys[n - 1]])
  }

  /** The number of channels all image keys contribute. */
  function ChannelTotal<T>(obs: map<string, NdArray<T>>, keys: seq<string>): nat
    requires AllImages(obs, keys)
  {
    ChannelOffset(obs, keys, |keys|)
  }

  /** The entries stored under `keys`, in key order. */
  function EntriesOf<T>(obs: map<string, NdArray<T>>, keys: seq<string>): (r: seq<NdArray<T>>)
    requires forall j :: 0 <= j < |keys| ==> keys[j] in obs
    ensures |r| == |keys| && forall j :: 0 <= j < |keys| ==> r[j] == obs[keys[j]]
  {
    seq(|keys|, j requires 0 <= j < |keys| => obs[keys[j]])
  }

  /** The scalars of the vector entries, concatenated in key order. */
  function Scalars<T>(obs: map<string, NdArray<T>>, keys: seq<string>): (r: seq<T>)
    requires AllVectors(obs, keys)
    ensures |keys| > 0 ==> obs[keys[0]].v <= r
  {
    Elements(EntriesOf(obs, keys))
  }

  /**
   * One image entry in channel-first layout (lines 32-37): a rank-3 (H, W, C) entry is
   * transposed to (C, H, W) by `swapaxes(0, 2).swapaxes(1, 2)`, a rank-2 (H, W) entry
   * gets a leading axis of size 1, and any other rank is an error naming the key.
   */
  function ChannelFirst<T>(key: string, a: NdArray<T>): (r: Result<NdArray<T>, MergeError>)
    ensures r.Ok? <==> IsImage(a)
    ensures r.Err? ==> r.error == ImageRankError(key)
    ensures r.Ok? ==>
      r.value.Cube? && r.value.d0 == ImageChannels(a) && r.value.d1 == ImageHeight(a) && r.value.d2 == ImageWidth(a)
  {
    if a.Rank() == 3 then Ok(SwapAxes12(SwapAxes02(a)))
    else if a.Rank() == 2 then Ok(ExpandFirst(a))
    else Err(ImageRankError(key))
  }

  /**
   * The `images` list after the loop of lines 31-37: each key looked up and made
   * channel-first, in key order; the first missing key or bad rank stops it.
   */
  function ChannelFirstImages<T>(obs: map<string, NdArray<T>>, keys: seq<string>): (r: Result<seq<NdArray<T>>, MergeError>)
    ensures r.Ok? <==> AllImages(obs, keys)
    ensures r.Ok? ==> |r.value| == |keys|
    ensures r.Err? ==> r.error.KeyError? || r.error.ImageRankError?
    decreases |keys|
  {
    if keys == [] then Ok([])
    else
      match ChannelFirstImages(obs, keys[..|keys| - 1])
      case Err(e) => Err(e)
      case Ok(images) =>
        var key := keys[|keys| - 1];
        if key !in obs then Err(KeyError(key))
        else
          match ChannelFirst(key, obs[key])
          case Err(e) => Err(e)
          case Ok(image) => Ok(images + [image])
  }

  /** The image stack of line 39: the channel-first images concatenated along the channel axis. */
  function ImageStack<T>(obs: map<string, NdArray<T>>, keys: seq<string>): (r: Result<NdArray<T>, MergeError>)
    ensures r.Ok? ==> |keys| > 0 && AllImages(obs, keys)
    ensures !AllImages(obs, keys) ==> r.Err? && !r.error.ConcatError?
  {
    match ChannelFirstImages(obs, keys)
    case Err(e) => Err(e)
    case Ok(images) =>
      match Concatenate(images)
      case Err(f) => Err(ConcatError(ImageStage, f))
      case Ok(stack) => Ok(stack)
  }

  /**
   * The `vectors` list after the loop of lines 42-46: each key looked up, in key order;
   * an entry of rank above 1 is an error naming the key (rank 0 passes this check).
   */
  function VectorEntries<T>(obs: map<string, NdArray<T>>, keys: seq<string>): (r: Result<seq<NdArray<T>>, MergeError>)
    ensures r.Ok? <==> AllPassVectorCheck(obs, keys)
    ensures r.Ok? ==> |r.value| == |keys|
    ensures r.Err? ==> r.error.KeyError? || r.error.VectorRankError?
    decreases |keys|
  {
    if keys == [] then Ok([])
    else
      match VectorEntries(obs, keys[..|keys| - 1])
      case Err(e) => Err(e)
      case Ok(vectors) =>
        var key := keys[|keys| - 1];
        if key !in obs then Err(KeyError(key))
        else if obs[key].Rank() > 1 then Err(VectorRankError(key))
        else Ok(vectors + [obs[key]])
  }

  /**
   * The broadcast vector part of lines 47-50: the vectors concatenated into N scalars,
   * reshaped to (N, 1, 1) and tiled to (N, height, width).
   */
  function VectorPlanes<T>(obs: map<string, NdArray<T>>, keys: seq<string>, height: nat, width: nat): (r: Result<NdArray<T>, MergeError>)
    ensures r.Ok? ==> |keys| > 0 && AllPassVectorCheck(obs, keys)
    ensures !AllPassVectorCheck(obs, keys) ==> r.Err? && !r.error.ConcatError?
  {
    match VectorEntries(obs, keys)
    case Err(e) => Err(e)
    case Ok(vectors) =>
      match Concatenate(vectors)
      case Err(f) => Err(ConcatError(VectorStage, f))
      case Ok(flat) =>
        assert flat.Rank() == vectors[0].Rank() == 1;
        var column := ExpandLast(ExpandLast(flat));
        Ok(Tile(column, 1, height, width))
  }

  /** The merged tensor of line 51: the image stack followed by the vector planes along axis 0. */
  function MergedTensor<T>(imgKeys: seq<string>, vectKeys: seq<string>, obs: map<string, NdArray<T>>, height: nat, width: nat): (r: Result<NdArray<T>, MergeError>)
    ensures r.Ok? ==> |imgKeys| > 0 && AllImages(obs, imgKeys) && |vectKeys| > 0 && AllPassVectorCheck(obs, vectKeys)
    ensures !AllImages(obs, imgKeys) ==> r.Err? && !r.error.ConcatError?
  {
    match ImageStack(obs, imgKeys)
    case Err(e) => Err(e)
    case Ok(images) =>
      match VectorPlanes(obs, vectKeys, height, width)
      case Err(e) => Err(e)
      case Ok(planes) =>
        match Concatenate([images, planes])
        case Err(f) => Err(ConcatError(MergeStage, f))
        case Ok(merged) => Ok(merged)
  }
}
