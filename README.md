# Observation merger of the Sawyer next-best-view environment

This project models the two observation wrappers in `sawyer_nbv_env/wrappers.py`.
Both sit between a robosuite environment and a gym agent.

- `MergeObsWrapper._add_merged_obs` builds one channel-first tensor and stores it in the
  observation dictionary under `"merged_obs"`. It takes the configured image entries,
  turning each rank-3 (H, W, C) entry into (C, H, W) and each rank-2 (H, W) entry into
  (1, H, W), and stacks their channels in key order. It then concatenates the configured
  vector entries into N scalars and adds each scalar as a constant plane of the first
  camera's height and width.
- `GymWrapper._flatten_obs` keeps the dictionary entries whose key is configured. It
  visits them in the dictionary's own order. A single match is returned unchanged;
  several matches are concatenated along axis 0.

The model is organised as follows:

- `ndarrays.dfy` (`NdArrays`) models the small part of numpy that is used: arrays of
  rank 0 to 3 with their elements, arrays of higher rank by shape only, and the
  operations `concatenate` (axis 0, failing on an empty list, on a zero-dimensional first
  array, or on a rank or non-leading dimension that differs from the first array's), `expand_dims`,
  `swapaxes` and `tile`. Element values are a type parameter, because nothing is
  computed on them.
- `obs_dict.dfy` (`ObsDicts`) models the observation dictionary as an object. It holds
  an insertion order and a map, and its `SetItem` is `d[key] = value`.
- `merge_spec.dfy` (`MergeSpec`) defines what the merger computes, as functions of the
  dictionary's contents. Each `raise` in the source becomes an error value
  (`MergeError`) that names the key or the failing `concatenate`.
- `merge_properties.dfy` (`MergeProperties`) proves the properties of the merged tensor:
  - when it exists;
  - which key an error names;
  - its shape;
  - where every image pixel and every broadcast scalar ends up;
  - which entries it reads.
- `merge_obs.dfy` (`MergeObs`) holds the loops of `_add_merged_obs` as methods, proved
  equal to the functions above, and the `MergeObsWrapper` class. That class updates the
  caller's dictionary in place.
- `gym_wrapper.dfy` (`Gym`) holds `_flatten_obs` as a filtering loop, its specification
  and its properties, and the `GymWrapper` class. It also shows that a gym wrapper
  configured with `["merged_obs"]`, as `sawyer_nbv_env/sawyer_env.py` configures it,
  hands the agent exactly the merged tensor.

The environment is outside the model:

- The first camera's height and width, which the merger reads from `self.env` at line 50,
  are parameters.
- The dictionary that `env.reset()` and `env.step(action)` return is a parameter.
- The reward, done flag and info from `env.step` are parameters of generic type.

The vector loop rejects only rank above 1 (line 43). A rank-0 entry passes that check
and then makes the vector `np.concatenate` at line 47 fail. That is `ConcatError(VectorStage, ZeroDimensional)`
when the rank-0 entry comes first, and `DimensionMismatch` otherwise. Both are
`MergeError` values, as `MergeProperties.MergedErrorNamesKey` and
`MergeProperties.VectorPlanesOk` state.

## Model

| member | source | states |
|---|---|---|
| NdArrays.Append | sawyer_nbv_env/wrappers.py:51 | two arrays that agree on every axis but the first stack into one whose leading dimension is the sum; for vectors, rank-2 and rank-3 arrays the contents are the first array's followed by the second's |
| NdArrays.Join | sawyer_nbv_env/wrappers.py:39 | a nonempty list of compatible arrays stacks into one compatible with the first, with leading dimension the sum of all leading dimensions |
| NdArrays.Concatenate | sawyer_nbv_env/wrappers.py:47 | `np.concatenate` succeeds exactly on a nonempty list whose arrays share the first array's rank (at least 1) and trailing dimensions; it fails with "no arrays" exactly on the empty list and with "zero-dimensional" exactly when the first array is a scalar; on success the leading dimension is the sum |
| NdArrays.ExpandFirst | sawyer_nbv_env/wrappers.py:35 | `expand_dims(a, 0)` prepends an axis of length 1 whose single slice is `a` |
| NdArrays.ExpandLast | sawyer_nbv_env/wrappers.py:48-49 | `expand_dims(a, -1)` appends an axis of length 1; element i of a vector becomes row `[v[i]]`, element (i, j) of a matrix becomes `[m[i][j]]` |
| NdArrays.SwapAxes02 | sawyer_nbv_env/wrappers.py:33 | `swapaxes(0, 2)` reverses the shape (d0, d1, d2) to (d2, d1, d0) with `r[i][j][k] == a[k][j][i]` |
| NdArrays.SwapAxes12 | sawyer_nbv_env/wrappers.py:33 | `swapaxes(1, 2)` turns shape (d0, d1, d2) into (d0, d2, d1) with `r[i][j][k] == a[i][k][j]` |
| NdArrays.Tile | sawyer_nbv_env/wrappers.py:50 | `np.tile` by (r0, r1, r2) multiplies each dimension and reads every element back modulo the original shape |
| NdArrays.StackableCubes | sawyer_nbv_env/wrappers.py:39 | two rank-3 arrays can be stacked exactly when their second and third dimensions agree |
| NdArrays.JoinCubes | sawyer_nbv_env/wrappers.py:39 | a stack of rank-3 arrays is rank 3, as long along axis 0 as all of them together and as large as the first on the other two axes |
| NdArrays.JoinCubeAt | sawyer_nbv_env/wrappers.py:39 | in a stack of rank-3 arrays, slice k of the j-th array sits at index (leading dimensions of the arrays before j) + k |
| NdArrays.ConcatenateCubes | sawyer_nbv_env/wrappers.py:51 | concatenating two rank-3 arrays gives the first one's slices followed by the second one's when height and width agree, and a dimension mismatch otherwise |
| ObsDicts.ObsDict.SetItem | sawyer_nbv_env/wrappers.py:51 | `d[key] = value` stores the value, leaves every other entry alone, appends a new key to the iteration order and keeps an existing key in its place; keys stay unique |
| MergeSpec.ChannelFirst | sawyer_nbv_env/wrappers.py:32-37 | an entry is accepted exactly when it has rank 2 or 3, and it becomes a (C, H, W) array, C being 1 for rank 2; any other rank is an error naming the key |
| MergeSpec.ChannelFirstImages | sawyer_nbv_env/wrappers.py:30-37 | the image loop succeeds exactly when every key is present and holds a rank-2 or rank-3 entry; on success it has one array per key; its only errors are a missing key and a bad image rank |
| MergeProperties.ChannelFirstImagesAt | sawyer_nbv_env/wrappers.py:30-37 | on success the j-th listed array is the j-th image entry made channel-first, in key order |
| MergeProperties.ChannelFirstImagesShapes | sawyer_nbv_env/wrappers.py:30-37 | on success the j-th listed array is (C, H, W) for the j-th image entry of height H, width W and C channels |
| MergeSpec.ImageStack | sawyer_nbv_env/wrappers.py:30-39 | the image stack of line 39 succeeds only for at least one key, every key holding an image; when some key does not, the error is the loop's (a key or rank error), never a concatenation failure; its further properties are the `ImageStack…` lemmas below |
| MergeSpec.VectorEntries | sawyer_nbv_env/wrappers.py:41-46 | the vector loop succeeds exactly when every key is present with rank at most 1; on success it has one array per key; its only errors are a missing key and a rank above 1 |
| MergeProperties.VectorEntriesAt | sawyer_nbv_env/wrappers.py:41-46 | on success the j-th listed array is the entry under the j-th vector key, unchanged |
| MergeSpec.Scalars | sawyer_nbv_env/wrappers.py:46-47 | the `Elements` of the vector entries in key order, which line 47 concatenates (beginning with the first entry's); what line 47 computes is stated by `MergeProperties.JoinedScalars` and `ScalarsOfVectorEntries`, and where the scalars end up by `VectorPlanesLayout` |
| MergeSpec.VectorPlanes | sawyer_nbv_env/wrappers.py:41-50 | the broadcast part succeeds only for at least one key, every entry passing the rank check of line 43; when an entry fails that check the error is the loop's, never a concatenation failure; its further properties are `VectorPlanesOk`, `VectorPlanesShape` and `VectorPlanesLayout` |
| MergeSpec.MergedTensor | sawyer_nbv_env/wrappers.py:29-51 | what `_add_merged_obs` stores under "merged_obs": it exists only when both key lists are nonempty, every image key holds an image and every vector entry passes line 43; a bad image entry raises in the image loop, before any concatenation; its further properties are the `Merged…` lemmas below |
| MergeProperties.MergeAccepts | sawyer_nbv_env/wrappers.py:29-51 | the inputs the merge accepts: at least one image key and one vector key, every image entry present with rank 2 or 3 and the camera's height and width, every vector entry present with rank 1; such inputs pass the vector check of line 43 and every image converts to channel-first; `MergedTensorOk` proves it is exactly when the merge succeeds |
| MergeProperties.ChannelFirstPixels | sawyer_nbv_env/wrappers.py:32-35 | channel ch, row y, column x of the channel-first image is pixel (y, x, ch) of a rank-3 entry, or pixel (y, x) of a rank-2 entry |
| MergeProperties.ChannelFirstRankTwo | sawyer_nbv_env/wrappers.py:34-35 | a rank-2 (H, W) entry becomes shape (1, H, W) and its single channel is the entry unchanged |
| MergeProperties.RankTwoAsRankThree | sawyer_nbv_env/wrappers.py:32-35 | a rank-2 (H, W) entry is merged exactly like the rank-3 (H, W, 1) entry holding the same pixels |
| MergeProperties.ImageErrorAt | sawyer_nbv_env/wrappers.py:31-37 | the first image key that is missing or of the wrong rank decides the loop's error: a key error or a rank error naming that key |
| MergeProperties.ImageErrorNamesKey | sawyer_nbv_env/wrappers.py:31-37 | every error of the image loop names a configured key that is missing or holds an entry of the wrong rank |
| MergeProperties.ImageStackOk | sawyer_nbv_env/wrappers.py:30-39 | the image stack exists exactly when there is at least one image key, every image entry is present with rank 2 or 3, and all have the first image's height and width |
| MergeProperties.OffsetsAgree | sawyer_nbv_env/wrappers.py:39 | the leading dimensions of the first n channel-first images add up to the channels those n entries contribute |
| MergeProperties.OffsetBound | sawyer_nbv_env/wrappers.py:39 | the channels of image j end within the total channel count |
| MergeProperties.StackedChannelAt | sawyer_nbv_env/wrappers.py:39 | channel ch of image j sits at channel offset(j) + ch of the stack of channel-first images |
| MergeProperties.ImageStackIsJoin | sawyer_nbv_env/wrappers.py:39 | a successful image stack is the stack of the channel-first images |
| MergeProperties.ImageStackChannelAt | sawyer_nbv_env/wrappers.py:39 | channel ch of image j is channel offset(j) + ch of the image stack |
| MergeProperties.StackedShape | sawyer_nbv_env/wrappers.py:39 | stacking the channel-first images gives as many channels as all the images have, with the first image's height and width |
| MergeProperties.ImageStackShape | sawyer_nbv_env/wrappers.py:39 | the image stack has shape (sum of channels, H, W), H and W the first image's height and width |
| MergeProperties.ImageStackPixelAt | sawyer_nbv_env/wrappers.py:32-39 | pixel (y, x) of channel ch of image j is at channel offset(j) + ch of the image stack |
| MergeProperties.ImageStackHolds | sawyer_nbv_env/wrappers.py:30-39 | the image stack holds image j whole from channel offset(j) on: same height and width, every pixel of every channel in place |
| MergeProperties.ImageAtPrefix | sawyer_nbv_env/wrappers.py:51 | an image held at some channels of an array is held at the same channels of any array of the same height and width whose channels extend it |
| MergeProperties.VectorErrorAt | sawyer_nbv_env/wrappers.py:42-44 | the first vector key that is missing or of rank above 1 decides the loop's error: a key error or a rank error naming that key |
| MergeProperties.VectorErrorNamesKey | sawyer_nbv_env/wrappers.py:42-44 | every error of the vector loop names a configured key that is missing or holds an entry of rank above 1 |
| MergeProperties.VectorPlanesOk | sawyer_nbv_env/wrappers.py:41-50 | the broadcast part exists exactly when there is at least one vector key and every vector entry is present with rank exactly 1 |
| MergeProperties.ScalarsOfVectorEntries | sawyer_nbv_env/wrappers.py:41-47 | when every vector key holds a rank-1 entry, the loop's list is the entries in key order and `Scalars` is its `Elements` |
| MergeProperties.JoinedScalars | sawyer_nbv_env/wrappers.py:47 | concatenating the vector entries gives their scalars end to end in key order |
| MergeProperties.TiledPlane | sawyer_nbv_env/wrappers.py:50 | tiling an (N, 1, 1) column by (1, height, width) turns its i-th element into a height-by-width plane holding it everywhere |
| MergeProperties.Broadcast | sawyer_nbv_env/wrappers.py:48-50 | two trailing axes and tiling by (1, height, width) turn N scalars into N planes of height by width, plane i holding scalar i everywhere |
| MergeProperties.VectorPlanesShape | sawyer_nbv_env/wrappers.py:47-50 | the broadcast part is rank 3 with the camera's height and width |
| MergeProperties.VectorPlanesLayout | sawyer_nbv_env/wrappers.py:46-50 | the broadcast part has shape (N, height, width), N the number of scalars of all vector entries, and every position of plane i holds the i-th scalar of the vectors in key order |
| MergeProperties.PlanesAfter | sawyer_nbv_env/wrappers.py:51 | constant planes held by the second array of a concatenation are held by the result after the first array's channels |
| MergeProperties.MergedIsImagesThenPlanes | sawyer_nbv_env/wrappers.py:51 | the merged tensor is the image channels followed by the vector planes when the images have the camera's height and width; otherwise the final concatenation fails |
| MergeProperties.MergedTensorOk | sawyer_nbv_env/wrappers.py:29-51 | the merge succeeds exactly when both key lists are nonempty, every image entry has rank 2 or 3 and the camera's height and width, and every vector entry has rank 1 |
| MergeProperties.MergedParts | sawyer_nbv_env/wrappers.py:51 | a successful merge has the image stack's channels first and the vector planes after, with the camera's height and width |
| MergeProperties.MergedTensorShape | sawyer_nbv_env/wrappers.py:39-51 | the merged tensor has sum-of-image-channels + N channels, and the camera's height and width |
| MergeProperties.MergedImagePixels | sawyer_nbv_env/wrappers.py:31-51 | the merged tensor holds image entry j whole from channel offset(j) on: pixel (y, x) of its channel ch is at [offset(j) + ch][y][x], so image channels come first and in key order |
| MergeProperties.MergedVectorPlanes | sawyer_nbv_env/wrappers.py:46-51 | channel (total image channels) + i of the merged tensor is a constant plane holding the i-th scalar of the vectors |
| MergeProperties.MergedImageErrorAt | sawyer_nbv_env/wrappers.py:31-37 | the first bad image key makes the whole merge fail with the error naming it |
| MergeProperties.MergedVectorErrorAt | sawyer_nbv_env/wrappers.py:42-44 | once the images are stacked, the first bad vector key makes the merge fail with the error naming it |
| MergeProperties.MergedErrorNamesKey | sawyer_nbv_env/wrappers.py:29-51 | each error is justified: key errors and rank errors name a configured key that is missing or of the wrong rank; a concatenation error occurs only after every entry checked before it has passed |
| MergeProperties.ChannelFirstImagesLocal | sawyer_nbv_env/wrappers.py:31-33 | the image loop's outcome depends only on the entries under the image keys |
| MergeProperties.VectorEntriesLocal | sawyer_nbv_env/wrappers.py:42-46 | the vector loop's outcome depends only on the entries under the vector keys |
| MergeProperties.MergedTensorLocal | sawyer_nbv_env/wrappers.py:29-51 | the merge reads only the configured entries; dictionaries agreeing on them merge alike |
| MergeProperties.MergeAgain | sawyer_nbv_env/wrappers.py:51-52 | merging a dictionary that already holds the merged entry reproduces the same tensor, provided "merged_obs" is not itself a configured key |
| MergeObs.StackImages | sawyer_nbv_env/wrappers.py:30-39 | the image loop with its `append`s and the final concatenation computes exactly the image stack, errors included |
| MergeObs.BroadcastVectors | sawyer_nbv_env/wrappers.py:41-50 | the vector loop, concatenation, two `expand_dims` and `tile` compute exactly the broadcast part, errors included |
| MergeObs.MergeObsWrapper.constructor | sawyer_nbv_env/wrappers.py:21-25 | the wrapper keeps the image keys and vector keys it is given |
| MergeObs.MergeObsWrapper.AddMergedObs | sawyer_nbv_env/wrappers.py:29-52 | succeeds exactly on accepted inputs; then stores the merged tensor under "merged_obs", changes no other entry and returns the same dictionary object; on an error the dictionary is left as it was |
| MergeObs.MergeObsWrapper.Reset | sawyer_nbv_env/wrappers.py:55-62 | the environment's reset observation gets the merged entry added, "merged_obs" appended to the iteration order when new; on an error the dictionary is left as it was |
| MergeObs.MergeObsWrapper.Step | sawyer_nbv_env/wrappers.py:64-78 | the observation gets the merged entry added, "merged_obs" appended to the iteration order when new; reward, done and info are returned untouched; on an error the dictionary is left as it was |
| Gym.FilterKeys | sawyer_nbv_env/wrappers.py:144-145 | the picked keys are dictionary keys that are configured, no more of them than the dictionary has |
| Gym.Matching | sawyer_nbv_env/wrappers.py:143-148 | the collected list holds, position by position, the entry stored under each picked key |
| Gym.Flattened | sawyer_nbv_env/wrappers.py:143-152 | what `_flatten_obs` returns: it fails with "need at least one array" exactly when no dictionary key is configured, and a single match comes back unchanged (whatever its rank); its further properties are the `Flattened…` lemmas below |
| Gym.FilterKeysMembers | sawyer_nbv_env/wrappers.py:144-145 | a key is picked exactly when the dictionary holds it and it is configured |
| Gym.FilterKeysInOrder | sawyer_nbv_env/wrappers.py:144-145 | the picked keys follow the dictionary's order: each stands in the order, at strictly increasing positions |
| Gym.FilterKeysIgnoresKeyOrder | sawyer_nbv_env/wrappers.py:144-145 | the order or repetition of the configured keys makes no difference to what is picked |
| Gym.FilterKeysDistinct | sawyer_nbv_env/wrappers.py:144-145 | no key is picked twice |
| Gym.SingleKeyPicked | sawyer_nbv_env/wrappers.py:144-145 | with one configured key that the dictionary holds, exactly that key is picked |
| Gym.FlattenedNone | sawyer_nbv_env/wrappers.py:149-152 | with no matching entry the concatenation fails with "no arrays" |
| Gym.FlattenedSingle | sawyer_nbv_env/wrappers.py:149-150 | a single matching entry is returned unchanged, whatever its rank |
| Gym.ConcatenateOne | sawyer_nbv_env/wrappers.py:149-152 | concatenating a single array of rank at least 1 gives it back |
| Gym.FlattenedIsConcatenate | sawyer_nbv_env/wrappers.py:149-152 | when no match is a scalar, the single-match shortcut returns what concatenation would |
| Gym.FlattenedLength | sawyer_nbv_env/wrappers.py:149-152 | the result's length is the sum of the matching entries' lengths |
| NdArrays.Elements | sawyer_nbv_env/wrappers.py:47 | the elements of rank-1 arrays laid end to end, beginning with the first array's |
| NdArrays.JoinVectors | sawyer_nbv_env/wrappers.py:152 | concatenating vectors lays their elements end to end |
| Gym.FlattenedVectors | sawyer_nbv_env/wrappers.py:143-152 | when every match is a vector, the result is one vector of all their elements in dictionary order |
| NdArrays.StackableMatrices | sawyer_nbv_env/wrappers.py:152 | two rank-2 arrays can be stacked exactly when their rows have the same length |
| NdArrays.JoinMatrices | sawyer_nbv_env/wrappers.py:152 | stacking rank-2 arrays of one row length lays their rows end to end |
| NdArrays.ConcatenateMatrices | sawyer_nbv_env/wrappers.py:152 | concatenating rank-2 arrays succeeds exactly when their rows have one length, giving all their rows end to end; otherwise it fails on the mismatch |
| Gym.FlattenedMatrices | sawyer_nbv_env/wrappers.py:143-152 | when every match has rank 2, the result exists exactly when all rows have the first match's length, and is then one matrix of all their rows in dictionary order; otherwise the concatenation fails on the mismatch |
| Gym.FlattenedMerged | sawyer_nbv_env/wrappers.py:143-150 | a wrapper configured with `["merged_obs"]` over a dictionary holding the merged tensor returns exactly that tensor |
| Gym.GymWrapper.constructor | sawyer_nbv_env/wrappers.py:116 | the wrapper keeps the key list it is given |
| Gym.GymWrapper.FlattenObs | sawyer_nbv_env/wrappers.py:132-152 | the filtering loop followed by the single-match check returns the specified result, errors included |
| Gym.GymWrapper.Reset | sawyer_nbv_env/wrappers.py:154-162 | the environment's reset observation, flattened |
| Gym.GymWrapper.Step | sawyer_nbv_env/wrappers.py:164-180 | the observation after the action, flattened; reward, done and info are returned untouched |

## Left out

- Default key lists: a `None` image or vector key list (the defaults of line 21) makes
  the loops of lines 31 and 42 raise `TypeError`. The model takes key lists as sequences.
  `GymWrapper.__init__` replaces a `None` key list by default keys (lines 110-115) that
  depend on the environment's robots, or fails the `assert` of line 111; that is not part
  of this model.
- Camera selection: `self.env.camera_heights[0]` and `camera_widths[0]` (line 50) are
  taken as the parameters `height` and `width`. The `IndexError` of an environment
  without cameras is not modelled.
- Entry contents of rank 4 and above: those arrays are modelled by shape only. The merger
  rejects such an entry in both loops before its contents would matter. `_flatten_obs`
  keeps matches of any rank (lines 144-148), so for several matches of rank 4 or more
  `Gym.Flattened` gives the shape of their concatenation but not its contents.
- Element type, dtype and floating point: there is no arithmetic on array contents, so
  elements are a type parameter. numpy's dtype promotion in `concatenate` is not modelled.
- `concatenate` failures: `DimensionMismatch` stands for two numpy messages, a different
  number of dimensions and a different size on an axis other than axis 0. The other two
  kinds are one message each. The text of the `ValueError` messages is not modelled.
- The `print` at line 26 and the `verbose` printing at lines 146-147 are output only.
- `GymWrapper.__init__` (building gym `spaces.Box`, `env.reset`, `action_spec`),
  `render`, `compute_reward` and `seed` are delegation to the environment or to numpy's
  random generator. They are not part of this model.
- The wrapped environment (`env.reset`, `env.step`, the robosuite `Wrapper` base class)
  is not part of this model. Its results are parameters.
- `sawyer_nbv_env/sawyer_env.py`, `sawyer_nbv_env/tasks/` and `sawyer_nbv_env/scripts/`
  are configuration, rendering and I/O, and are not part of this model.
- Aliasing of a single match: for exactly one match `_flatten_obs` returns the
  dictionary's own array object (line 150), so with `keys=["merged_obs"]` the agent gets
  the very array stored under "merged_obs", and a later in-place change to one shows in
  the other. The model uses values and does not capture this sharing. (The merge itself
  shares nothing: every `np.concatenate` of lines 39, 47 and 51 allocates a new array.)
