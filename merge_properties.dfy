/**
 * Properties of the merged observation: when the merge succeeds, which key its
 * error names when it does not, the shape of the merged tensor, and where every
 * image channel and every broadcast scalar is found in it.
 */
module MergeProperties {
  import opened NdArrays
  import opened MergeSpec

  /** Channel ch, row y, column x of an image, read in the image's own (H, W[, C]) layout. */
  function ImagePixel<T>(a: NdArray<T>, ch: nat, y: nat, x: nat): T
    requires IsImage(a) && ch < ImageChannels(a) && y < ImageHeight(a) && x < ImageWidth(a)
  {
    if a.Cube? then a.c[y][x][ch] else a.m[y][x]
  }

  /** Every image entry has the given height and width. */
  predicate Resolution<T>(obs: map<string, NdArray<T>>, keys: seq<string>, height: nat, width: nat)
    requires AllImages(obs, keys)
  {
    forall j :: 0 <= j < |keys| ==> ImageHeight(obs[keys[j]]) == height && ImageWidth(obs[keys[j]]) == width
  }

  /** The inputs on which the merge succeeds. */
  predicate MergeAccepts<T>(imgKeys: seq<string>, vectKeys: seq<string>, obs: map<string, NdArray<T>>, height: nat, width: nat): (r: bool)
    ensures r ==> AllPassVectorCheck(obs, vectKeys) && forall j :: 0 <= j < |imgKeys| ==> imgKeys[j] in obs && ChannelFirst(imgKeys[j], obs[imgKeys[j]]).Ok?
  {
    |imgKeys| > 0 && AllImages(obs, imgKeys) && Resolution(obs, imgKeys, height, width) &&
    |vectKeys| > 0 && AllVectors(obs, vectKeys)
  }

  // ---------------------------------------------------------------------------
  // Per-entry layout

  /**
   * The channel-first image holds the entry's pixels: for a rank-3 entry
   * out[ch][y][x] == in[y][x][ch], for a rank-2 entry the single channel is the entry.
   */
  lemma ChannelFirstPixels<T>(key: string, a: NdArray<T>)
    requires IsImage(a)
    ensures var r := ChannelFirst(key, a).value;
      forall ch, y, x :: 0 <= ch < ImageChannels(a) && 0 <= y < ImageHeight(a) && 0 <= x < ImageWidth(a) ==>
        r.c[ch][y][x] == ImagePixel(a, ch, y, x)
  {
  }

  /** A rank-2 (H, W) entry becomes a (1, H, W) array whose single channel is the entry itself. */
  lemma ChannelFirstRankTwo<T>(key: string, a: NdArray<T>)
    requires a.Mat?
    ensures ChannelFirst(key, a).Ok?
    ensures var r := ChannelFirst(key, a).value;
      r.Shape() == [1, a.h, a.w] && r.c == [a.m]
  {
  }

  /** A rank-2 (H, W) image is merged exactly as the rank-3 (H, W, 1) image obtained by `expand_dims(a, -1)`. */
  lemma RankTwoAsRankThree<T>(key: string, a: NdArray<T>)
    requires a.Mat?
    ensures ChannelFirst(key, ExpandLast(a)) == ChannelFirst(key, a)
  {
    var three, two := ChannelFirst(key, ExpandLast(a)).value, ChannelFirst(key, a).value;
    assert three.Shape() == two.Shape() == [1, a.h, a.w];
    assert |three.c| == 1 == |two.c| && |three.c[0]| == a.h;
    assert three.c[0] == two.c[0] by {
      forall y | 0 <= y < a.h
        ensures three.c[0][y] == two.c[0][y]
      {
        assert |three.c[0][y]| == a.w;
        forall x | 0 <= x < a.w
          ensures three.c[0][y][x] == two.c[0][y][x]
        {
          assert ExpandLast(a).c[y][x][0] == a.m[y][x];
        }
      }
    }
    assert three.c == two.c;
  }

  // ---------------------------------------------------------------------------
  // The image loop and the image stack (lines 30-39)

  /** The j-th element of the image list is the j-th image entry made channel-first. */
  lemma {:induction false} ChannelFirstImagesAt<T>(obs: map<string, NdArray<T>>, keys: seq<string>)
    requires ChannelFirstImages(obs, keys).Ok?
    ensures AllImages(obs, keys)
    ensures var xs := ChannelFirstImages(obs, keys).value;
      |xs| == |keys| && forall j :: 0 <= j < |keys| ==> xs[j] == ChannelFirst(keys[j], obs[keys[j]]).value
    decreases |keys|
  {
    if keys != [] {
      var front := keys[..|keys| - 1];
      ChannelFirstImagesAt(obs, front);
      var xs := ChannelFirstImages(obs, keys).value;
      assert xs == ChannelFirstImages(obs, front).value + [ChannelFirst(keys[|keys| - 1], obs[keys[|keys| - 1]]).value];
      forall j | 0 <= j < |keys| - 1
        ensures xs[j] == ChannelFirst(keys[j], obs[keys[j]]).value
      {
        assert front[j] == keys[j];
      }
    }
  }

  /** The j-th element of the image list is a (C, H, W) array for the j-th image entry of resolution H by W with C channels. */
  lemma ChannelFirstImagesShapes<T>(obs: map<string, NdArray<T>>, keys: seq<string>)
    requires ChannelFirstImages(obs, keys).Ok?
    ensures AllImages(obs, keys)
    ensures var xs := ChannelFirstImages(obs, keys).value;
      |xs| == |keys| &&
      forall j :: 0 <= j < |keys| ==>
        xs[j].Cube? && xs[j].d0 == ImageChannels(obs[keys[j]]) &&
        xs[j].d1 == ImageHeight(obs[keys[j]]) && xs[j].d2 == ImageWidth(obs[keys[j]])
  {
    ChannelFirstImagesAt(obs, keys);
  }

  /** The first key that fails the image loop decides the error: a missing key or a bad rank, naming it. */
  lemma {:induction false} ImageErrorAt<T>(obs: map<string, NdArray<T>>, keys: seq<string>, j: nat)
    requires j < |keys| && AllImages(obs, keys[..j]) && !ImageEntry(obs, keys[j])
    ensures ChannelFirstImages(obs, keys) ==
      Err(if keys[j] in obs then ImageRankError(keys[j]) else KeyError(keys[j]))
    decreases |keys|
  {
    var front := keys[..|keys| - 1];
    if j == |keys| - 1 {
      assert front == keys[..j];
    } else {
      assert front[..j] == keys[..j];
      ImageErrorAt(obs, front, j);
    }
  }

  /** An error from the image loop names a configured key that is missing or is not an image. */
  lemma {:induction false} ImageErrorNamesKey<T>(obs: map<string, NdArray<T>>, keys: seq<string>)
    requires ChannelFirstImages(obs, keys).Err?
    ensures var e := ChannelFirstImages(obs, keys).error;
      (e.KeyError? && e.key in keys && e.key !in obs) ||
      (e.ImageRankError? && e.key in keys && e.key in obs && !IsImage(obs[e.key]))
    decreases |keys|
  {
    var front := keys[..|keys| - 1];
    if ChannelFirstImages(obs, front).Err? {
      ImageErrorNamesKey(obs, front);
    }
  }

  /** The image stack exists exactly when there is an image key and all images are present, of rank 2 or 3, and of one resolution. */
  lemma ImageStackOk<T>(obs: map<string, NdArray<T>>, keys: seq<string>)
    ensures ImageStack(obs, keys).Ok? <==>
      |keys| > 0 && AllImages(obs, keys) &&
      Resolution(obs, keys, ImageHeight(obs[keys[0]]), ImageWidth(obs[keys[0]]))
  {
    var images := ChannelFirstImages(obs, keys);
    if images.Ok? && |keys| > 0 {
      ChannelFirstImagesShapes(obs, keys);
      var xs := images.value;
      var a0 := obs[keys[0]];
      forall j | 0 <= j < |keys|
        ensures Stackable(xs[j], xs[0]) <==>
          ImageHeight(obs[keys[j]]) == ImageHeight(a0) && ImageWidth(obs[keys[j]]) == ImageWidth(a0)
      {
        StackableCubes(xs[j], xs[0]);
      }
    }
  }

  /** The images' channel offsets are the leading dimensions of the channel-first images before them. */
  lemma {:induction false} OffsetsAgree<T>(obs: map<string, NdArray<T>>, keys: seq<string>, xs: seq<NdArray<T>>, n: nat)
    requires AllImages(obs, keys) && |xs| == |keys| && n <= |keys|
    requires forall j :: 0 <= j < |keys| ==> Leading(xs[j]) == ImageChannels(obs[keys[j]])
    ensures LeadingTotal(xs[..n]) == ChannelOffset(obs, keys, n)
  {
    if n > 0 {
      assert xs[..n][..n - 1] == xs[..n - 1];
      OffsetsAgree(obs, keys, xs, n - 1);
    }
  }

  /** The offset of the n-th image is below the total, by at least that image's channels. */
  lemma {:induction false} OffsetBound<T>(obs: map<string, NdArray<T>>, keys: seq<string>, n: nat)
    requires AllImages(obs, keys) && n < |keys|
    ensures ChannelOffset(obs, keys, n) + ImageChannels(obs[keys[n]]) <= ChannelTotal(obs, keys)
    decreases |keys| - n
  {
    if n + 1 < |keys| {
      OffsetBound(obs, keys, n + 1);
    }
  }

  /** Channel ch of the j-th stacked image sits at ChannelOffset(j) + ch of the stack. */
  lemma StackedChannelAt<T>(obs: map<string, NdArray<T>>, keys: seq<string>, xs: seq<NdArray<T>>, j: nat, ch: nat)
    requires AllImages(obs, keys) && |xs| == |keys| > 0 && xs[0].Cube?
    requires forall i :: 0 <= i < |keys| ==> Leading(xs[i]) == ImageChannels(obs[keys[i]])
    requires forall i :: 0 <= i < |xs| ==> Stackable(xs[i], xs[0])
    requires j < |xs| && ch < ImageChannels(obs[keys[j]])
    ensures Join(xs).Cube? && xs[j].Cube? && ch < |xs[j].c|
    ensures ChannelOffset(obs, keys, j) + ch < |Join(xs).c|
    ensures Join(xs).c[ChannelOffset(obs, keys, j) + ch] == xs[j].c[ch]
  {
    assert Stackable(xs[j], xs[0]);
    OffsetsAgree(obs, keys, xs, j);
    JoinCubeAt(xs, j, ch);
  }

  /** A successful image stack is the join of the channel-first images. */
  lemma ImageStackIsJoin<T>(obs: map<string, NdArray<T>>, keys: seq<string>)
    requires ImageStack(obs, keys).Ok?
    ensures ChannelFirstImages(obs, keys).Ok? && AllImages(obs, keys)
    ensures var xs := ChannelFirstImages(obs, keys).value;
      |xs| == |keys| > 0 && xs[0].Cube? &&
      (forall j :: 0 <= j < |xs| ==> Stackable(xs[j], xs[0])) &&
      (forall j :: 0 <= j < |xs| ==> Leading(xs[j]) == ImageChannels(obs[keys[j]])) &&
      ImageStack(obs, keys).value == Join(xs)
  {
    ChannelFirstImagesShapes(obs, keys);
    var xs := ChannelFirstImages(obs, keys).value;
    forall j | 0 <= j < |xs|
      ensures Leading(xs[j]) == ImageChannels(obs[keys[j]])
    {
      LeadingCube(xs[j]);
    }
    assert Concatenate(xs).Ok? && xs[0].Rank() != 0;
    assert Concatenate(xs) == Ok(Join(xs));
  }

  /** Stacking the channel-first images gives as many channels as the images have, of the first image's height and width. */
  lemma StackedShape<T>(obs: map<string, NdArray<T>>, keys: seq<string>, xs: seq<NdArray<T>>)
    requires AllImages(obs, keys) && |xs| == |keys| > 0 && xs[0].Cube?
    requires forall j :: 0 <= j < |xs| ==> Stackable(xs[j], xs[0])
    requires forall j :: 0 <= j < |xs| ==> Leading(xs[j]) == ImageChannels(obs[keys[j]])
    ensures var s := Join(xs);
      s.Cube? && s.d0 == ChannelTotal(obs, keys) && s.d1 == xs[0].d1 && s.d2 == xs[0].d2
  {
    JoinCubes(xs);
    OffsetsAgree(obs, keys, xs, |keys|);
    assert xs[..|keys|] == xs;
  }

  /** Channel ch of the j-th image is channel ChannelOffset(j) + ch of the image stack. */
  lemma ImageStackChannelAt<T>(obs: map<string, NdArray<T>>, keys: seq<string>, j: nat, ch: nat)
    requires ImageStack(obs, keys).Ok? && AllImages(obs, keys)
    requires j < |keys| && ch < ImageChannels(obs[keys[j]])
    ensures var s := ImageStack(obs, keys).value;
      s.Cube? && ChannelOffset(obs, keys, j) + ch < |s.c| &&
      s.c[ChannelOffset(obs, keys, j) + ch] == ChannelFirst(keys[j], obs[keys[j]]).value.c[ch]
  {
    ImageStackIsJoin(obs, keys);
    ChannelFirstImagesAt(obs, keys);
    StackedChannelAt(obs, keys, ChannelFirstImages(obs, keys).value, j, ch);
  }

  /**
   * The image stack is (total channels, H, W), where H and W are the images' common
   * height and width.
   */
  lemma ImageStackShape<T>(obs: map<string, NdArray<T>>, keys: seq<string>)
    requires ImageStack(obs, keys).Ok?
    ensures |keys| > 0 && AllImages(obs, keys)
    ensures var s := ImageStack(obs, keys).value;
      s.Cube? && s.d0 == ChannelTotal(obs, keys) &&
      s.d1 == ImageHeight(obs[keys[0]]) && s.d2 == ImageWidth(obs[keys[0]])
  {
    ImageStackIsJoin(obs, keys);
    ChannelFirstImagesShapes(obs, keys);
    StackedShape(obs, keys, ChannelFirstImages(obs, keys).value);
  }

  /**
   * `t` holds image `a` from channel `offset` on: channel ch, row y, column x of the image
   * is element [offset + ch][y][x] of `t`, and `t` has the image's height and width.
   */
  ghost predicate ImageAt<T>(t: NdArray<T>, offset: nat, a: NdArray<T>) {
    t.Cube? && IsImage(a) && offset + ImageChannels(a) <= t.d0 &&
    t.d1 == ImageHeight(a) && t.d2 == ImageWidth(a) &&
    forall ch, y, x :: 0 <= ch < ImageChannels(a) && 0 <= y < t.d1 && 0 <= x < t.d2 ==>
      t.c[offset + ch][y][x] == ImagePixel(a, ch, y, x)
  }

  /** Pixel (y, x) of channel ch of the j-th image entry, in the image stack. */
  lemma ImageStackPixelAt<T>(obs: map<string, NdArray<T>>, keys: seq<string>, j: nat, ch: nat, y: nat, x: nat)
    requires ImageStack(obs, keys).Ok? && AllImages(obs, keys)
    requires j < |keys| && ch < ImageChannels(obs[keys[j]])
    requires y < ImageHeight(obs[keys[j]]) && x < ImageWidth(obs[keys[j]])
    ensures var s := ImageStack(obs, keys).value;
      s.Cube? && ChannelOffset(obs, keys, j) + ch < |s.c| &&
      IsMatrix(s.c[ChannelOffset(obs, keys, j) + ch], ImageHeight(obs[keys[j]]), ImageWidth(obs[keys[j]])) &&
      s.c[ChannelOffset(obs, keys, j) + ch][y][x] == ImagePixel(obs[keys[j]], ch, y, x)
  {
    ImageStackChannelAt(obs, keys, j, ch);
    ImageStackShape(obs, keys);
    ChannelFirstPixels(keys[j], obs[keys[j]]);
    ImageStackOk(obs, keys);
  }

  /** The image stack holds the j-th image entry from channel ChannelOffset(j) on. */
  lemma ImageStackHolds<T>(obs: map<string, NdArray<T>>, keys: seq<string>, j: nat)
    requires ImageStack(obs, keys).Ok? && AllImages(obs, keys) && j < |keys|
    ensures ImageAt(ImageStack(obs, keys).value, ChannelOffset(obs, keys, j), obs[keys[j]])
  {
    var s := ImageStack(obs, keys).value;
    var a := obs[keys[j]];
    ImageStackShape(obs, keys);
    ImageStackOk(obs, keys);
    assert s.d1 == ImageHeight(a) && s.d2 == ImageWidth(a);
    OffsetBound(obs, keys, j);
    forall ch, y, x | 0 <= ch < ImageChannels(a) && 0 <= y < s.d1 && 0 <= x < s.d2
      ensures s.c[ChannelOffset(obs, keys, j) + ch][y][x] == ImagePixel(a, ch, y, x)
    {
      ImageStackPixelAt(obs, keys, j, ch, y, x);
    }
  }

  /** An image held by `s` is held at the same channels by any rank-3 array that extends `s`'s channels. */
  lemma ImageAtPrefix<T>(s: NdArray<T>, t: NdArray<T>, offset: nat, a: NdArray<T>)
    requires ImageAt(s, offset, a)
    requires t.Cube? && s.c <= t.c && t.d1 == s.d1 && t.d2 == s.d2
    ensures ImageAt(t, offset, a)
  {
    forall ch, y, x | 0 <= ch < ImageChannels(a) && 0 <= y < t.d1 && 0 <= x < t.d2
      ensures t.c[offset + ch][y][x] == ImagePixel(a, ch, y, x)
    {
      assert t.c[offset + ch] == s.c[offset + ch];
    }
  }

  // ---------------------------------------------------------------------------
  // The vector loop and the broadcast planes (lines 41-50)

  /** The j-th element of the vector list is the j-th vector entry itself. */
  lemma {:induction false} VectorEntriesAt<T>(obs: map<string, NdArray<T>>, keys: seq<string>)
    requires VectorEntries(obs, keys).Ok?
    ensures AllPassVectorCheck(obs, keys)
    ensures var vs := VectorEntries(obs, keys).value;
      |vs| == |keys| && forall j :: 0 <= j < |keys| ==> vs[j] == obs[keys[j]]
    decreases |keys|
  {
    if keys != [] {
      var front := keys[..|keys| - 1];
      VectorEntriesAt(obs, front);
      var vs := VectorEntries(obs, keys).value;
      assert vs == VectorEntries(obs, front).value + [obs[keys[|keys| - 1]]];
      forall j | 0 <= j < |keys| - 1
        ensures vs[j] == obs[keys[j]]
      {
        assert front[j] == keys[j];
      }
    }
  }

  /** The first key that fails the vector loop decides the error: a missing key or a rank above 1, naming it. */
  lemma {:induction false} VectorErrorAt<T>(obs: map<string, NdArray<T>>, keys: seq<string>, j: nat)
    requires j < |keys| && AllPassVectorCheck(obs, keys[..j]) && !PassesVectorCheck(obs, keys[j])
    ensures VectorEntries(obs, keys) ==
      Err(if keys[j] in obs then VectorRankError(keys[j]) else KeyError(keys[j]))
    decreases |keys|
  {
    var front := keys[..|keys| - 1];
    if j == |keys| - 1 {
      assert front == keys[..j];
    } else {
      assert front[..j] == keys[..j];
      VectorErrorAt(obs, front, j);
    }
  }

  /** An error from the vector loop names a configured key that is missing or has rank above 1. */
  lemma {:induction false} VectorErrorNamesKey<T>(obs: map<string, NdArray<T>>, keys: seq<string>)
    requires VectorEntries(obs, keys).Err?
    ensures var e := VectorEntries(obs, keys).error;
      (e.KeyError? && e.key in keys && e.key !in obs) ||
      (e.VectorRankError? && e.key in keys && e.key in obs && obs[e.key].Rank() > 1)
    decreases |keys|
  {
    var front := keys[..|keys| - 1];
    if VectorEntries(obs, front).Err? {
      VectorErrorNamesKey(obs, front);
    }
  }

  /** The broadcast part exists exactly when there is a vector key and every vector entry is present and of rank 1. */
  lemma VectorPlanesOk<T>(obs: map<string, NdArray<T>>, keys: seq<string>, height: nat, width: nat)
    ensures VectorPlanes(obs, keys, height, width).Ok? <==> |keys| > 0 && AllVectors(obs, keys)
  {
    var entries := VectorEntries(obs, keys);
    if entries.Ok? && |keys| > 0 {
      VectorEntriesAt(obs, keys);
      var vs := entries.value;
      forall j | 0 <= j < |keys|
        ensures Stackable(vs[j], vs[0]) <==> vs[j].Vec? && vs[0].Vec?
      {
        assert vs[j].Rank() <= 1 && vs[0].Rank() <= 1;
      }
    }
  }

  /** The list the vector loop builds is the entries under the keys, so its elements are Scalars. */
  lemma ScalarsOfVectorEntries<T>(obs: map<string, NdArray<T>>, keys: seq<string>)
    requires AllVectors(obs, keys)
    ensures VectorEntries(obs, keys).Ok?
    ensures VectorEntries(obs, keys).value == EntriesOf(obs, keys)
    ensures Scalars(obs, keys) == Elements(VectorEntries(obs, keys).value)
  {
    assert AllPassVectorCheck(obs, keys) by {
      forall j | 0 <= j < |keys|
        ensures PassesVectorCheck(obs, keys[j])
      {
        assert obs[keys[j]].Vec?;
      }
    }
    VectorEntriesAt(obs, keys);
  }

  /** Concatenating the vector entries in key order gives Scalars. */
  lemma JoinedScalars<T>(obs: map<string, NdArray<T>>, keys: seq<string>, vs: seq<NdArray<T>>)
    requires AllVectors(obs, keys) && |vs| == |keys| > 0
    requires forall j :: 0 <= j < |keys| ==> vs[j] == obs[keys[j]]
    ensures forall j :: 0 <= j < |vs| ==> Stackable(vs[j], vs[0])
    ensures Join(vs).Vec? && Join(vs).v == Scalars(obs, keys)
  {
    assert vs == EntriesOf(obs, keys);
    JoinVectors(vs);
  }

  /** `m` is a height-by-width plane holding `v` at every position. */
  ghost predicate ConstantPlane<T>(m: seq<seq<T>>, height: nat, width: nat, v: T) {
    IsMatrix(m, height, width) && forall y, x :: 0 <= y < height && 0 <= x < width ==> m[y][x] == v
  }

  /** Channels offset to offset + |v| of `t` are constant planes, the i-th of them holding v[i]. */
  ghost predicate PlanesAt<T>(t: NdArray<T>, offset: nat, v: seq<T>) {
    t.Cube? && offset + |v| <= t.d0 &&
    forall i :: 0 <= i < |v| ==> ConstantPlane(t.c[offset + i], t.d1, t.d2, v[i])
  }

  /** Tiling a (N, 1, 1) column by (1, height, width) turns its i-th element into a constant plane. */
  lemma TiledPlane<T>(column: NdArray<T>, height: nat, width: nat, i: nat)
    requires column.Cube? && column.d1 == 1 && column.d2 == 1 && i < column.d0
    ensures var p := Tile(column, 1, height, width);
      p.Cube? && p.d0 == column.d0 && p.d1 == height && p.d2 == width &&
      ConstantPlane(p.c[i], height, width, column.c[i][0][0])
  {
    var p := Tile(column, 1, height, width);
    assert p.Shape() == [column.d0 * 1, 1 * height, 1 * width];
    assert p.d0 == column.d0 && p.d1 == height && p.d2 == width;
    assert i % column.d0 == i;
    var plane := p.c[i];
    assert IsMatrix(plane, height, width);
    forall y, x | 0 <= y < height && 0 <= x < width
      ensures plane[y][x] == column.c[i][0][0]
    {
      assert y % 1 == 0 && x % 1 == 0;
    }
  }

  /**
   * Lines 48-50 on a flat vector of N scalars: two `expand_dims(-1)` give (N, 1, 1) and
   * tiling by (1, height, width) gives N constant planes, plane i holding scalar i.
   */
  lemma Broadcast<T>(flat: NdArray<T>, height: nat, width: nat)
    requires flat.Vec?
    ensures ExpandLast(ExpandLast(flat)).Cube?
    ensures var p := Tile(ExpandLast(ExpandLast(flat)), 1, height, width);
      p.Cube? && p.d0 == |flat.v| && p.d1 == height && p.d2 == width && PlanesAt(p, 0, flat.v)
  {
    var n := |flat.v|;
    var column := ExpandLast(ExpandLast(flat));
    assert column.Cube? && column.Shape() == [n, 1, 1];
    var p := Tile(column, 1, height, width);
    forall i | 0 <= i < n
      ensures ConstantPlane(p.c[i], height, width, flat.v[i])
    {
      assert ExpandLast(flat).m[i] == [flat.v[i]];
      TiledPlane(column, height, width, i);
    }
  }

  /** The broadcast part is a rank-3 array of the camera's height and width. */
  lemma VectorPlanesShape<T>(obs: map<string, NdArray<T>>, keys: seq<string>, height: nat, width: nat)
    requires VectorPlanes(obs, keys, height, width).Ok?
    ensures var p := VectorPlanes(obs, keys, height, width).value;
      p.Cube? && p.d1 == height && p.d2 == width
  {
    var flat := Concatenate(VectorEntries(obs, keys).value).value;
    assert flat.Rank() == 1;
    var column := ExpandLast(ExpandLast(flat));
    assert column.Cube?;
  }

  /**
   * The broadcast part is (N, height, width), N the number of scalars of the vector
   * entries, and plane i holds the i-th scalar at every position.
   */
  lemma VectorPlanesLayout<T>(obs: map<string, NdArray<T>>, keys: seq<string>, height: nat, width: nat)
    requires VectorPlanes(obs, keys, height, width).Ok?
    ensures |keys| > 0 && AllVectors(obs, keys)
    ensures var p := VectorPlanes(obs, keys, height, width).value;
      p.Cube? && p.d0 == |Scalars(obs, keys)| && p.d1 == height && p.d2 == width &&
      PlanesAt(p, 0, Scalars(obs, keys))
  {
    VectorPlanesOk(obs, keys, height, width);
    VectorEntriesAt(obs, keys);
    var vs := VectorEntries(obs, keys).value;
    JoinedScalars(obs, keys, vs);
    Broadcast(Join(vs), height, width);
  }

  /** Planes held by `p` are held after `pre`'s channels by the array whose channels are `pre` then `p`'s. */
  lemma PlanesAfter<T>(pre: seq<seq<seq<T>>>, p: NdArray<T>, t: NdArray<T>, v: seq<T>)
    requires PlanesAt(p, 0, v)
    requires t.Cube? && t.c == pre + p.c && t.d1 == p.d1 && t.d2 == p.d2
    ensures PlanesAt(t, |pre|, v)
  {
    forall i | 0 <= i < |v|
      ensures ConstantPlane(t.c[|pre| + i], t.d1, t.d2, v[i])
    {
      assert t.c[|pre| + i] == p.c[i];
    }
  }

  // ---------------------------------------------------------------------------
  // The merged tensor (line 51)

  /** The merged tensor is the image stack followed by the vector planes along the channel axis, when both exist and fit. */
  lemma MergedIsImagesThenPlanes<T>(imgKeys: seq<string>, vectKeys: seq<string>, obs: map<string, NdArray<T>>, height: nat, width: nat)
    requires ImageStack(obs, imgKeys).Ok? && VectorPlanes(obs, vectKeys, height, width).Ok?
    ensures var images, planes := ImageStack(obs, imgKeys).value, VectorPlanes(obs, vectKeys, height, width).value;
      images.Cube? && planes.Cube? && planes.d1 == height && planes.d2 == width
    ensures var images := ImageStack(obs, imgKeys).value;
      MergedTensor(imgKeys, vectKeys, obs, height, width).Ok? <==> images.d1 == height && images.d2 == width
    ensures MergedTensor(imgKeys, vectKeys, obs, height, width).Err? ==>
      MergedTensor(imgKeys, vectKeys, obs, height, width).error == ConcatError(MergeStage, DimensionMismatch)
    ensures MergedTensor(imgKeys, vectKeys, obs, height, width).Ok? ==>
      var images, planes := ImageStack(obs, imgKeys).value, VectorPlanes(obs, vectKeys, height, width).value;
      var t := MergedTensor(imgKeys, vectKeys, obs, height, width).value;
      t.Cube? && t.d0 == images.d0 + planes.d0 && t.d1 == height && t.d2 == width && t.c == images.c + planes.c
  {
    var images := ImageStack(obs, imgKeys).value;
    var planes := VectorPlanes(obs, vectKeys, height, width).value;
    ImageStackShape(obs, imgKeys);
    VectorPlanesShape(obs, vectKeys, height, width);
    ConcatenateCubes(images, planes);
  }

  /**
   * The merge succeeds exactly when there is at least one image key and one vector key,
   * every image entry is present, of rank 2 or 3 and of the camera's height and width,
   * and every vector entry is present and of rank 1.
   */
  lemma MergedTensorOk<T>(imgKeys: seq<string>, vectKeys: seq<string>, obs: map<string, NdArray<T>>, height: nat, width: nat)
    ensures MergedTensor(imgKeys, vectKeys, obs, height, width).Ok? <==>
      MergeAccepts(imgKeys, vectKeys, obs, height, width)
  {
    ImageStackOk(obs, imgKeys);
    VectorPlanesOk(obs, vectKeys, height, width);
    if ImageStack(obs, imgKeys).Ok? && VectorPlanes(obs, vectKeys, height, width).Ok? {
      ImageStackShape(obs, imgKeys);
      MergedIsImagesThenPlanes(imgKeys, vectKeys, obs, height, width);
    }
  }

  /** Both stages succeed and their results stack, when the whole merge succeeds. */
  lemma MergedParts<T>(imgKeys: seq<string>, vectKeys: seq<string>, obs: map<string, NdArray<T>>, height: nat, width: nat, t: NdArray<T>)
    requires MergedTensor(imgKeys, vectKeys, obs, height, width) == Ok(t)
    ensures ImageStack(obs, imgKeys).Ok? && VectorPlanes(obs, vectKeys, height, width).Ok?
    ensures var images, planes := ImageStack(obs, imgKeys).value, VectorPlanes(obs, vectKeys, height, width).value;
      t.Cube? && images.Cube? && planes.Cube? && t.c == images.c + planes.c &&
      t.d0 == images.d0 + planes.d0 && t.d1 == images.d1 == planes.d1 == height && t.d2 == images.d2 == planes.d2 == width
  {
    MergedIsImagesThenPlanes(imgKeys, vectKeys, obs, height, width);
  }

  /**
   * The merged tensor is (C + N, height, width): C the channels of all images, N the
   * scalars of all vectors.
   */
  lemma MergedTensorShape<T>(imgKeys: seq<string>, vectKeys: seq<string>, obs: map<string, NdArray<T>>, height: nat, width: nat, t: NdArray<T>)
    requires MergedTensor(imgKeys, vectKeys, obs, height, width) == Ok(t)
    ensures MergeAccepts(imgKeys, vectKeys, obs, height, width)
    ensures t.Cube? && t.d0 == ChannelTotal(obs, imgKeys) + |Scalars(obs, vectKeys)| && t.d1 == height && t.d2 == width
  {
    MergedTensorOk(imgKeys, vectKeys, obs, height, width);
    MergedParts(imgKeys, vectKeys, obs, height, width, t);
    ImageStackShape(obs, imgKeys);
    VectorPlanesLayout(obs, vectKeys, height, width);
  }

  /**
   * Image channels come first, in key order: the j-th image entry is held from channel
   * ChannelOffset(j) on, pixel (y, x) of its channel ch at [ChannelOffset(j) + ch][y][x].
   */
  lemma MergedImagePixels<T>(imgKeys: seq<string>, vectKeys: seq<string>, obs: map<string, NdArray<T>>, height: nat, width: nat, t: NdArray<T>)
    requires MergedTensor(imgKeys, vectKeys, obs, height, width) == Ok(t)
    ensures MergeAccepts(imgKeys, vectKeys, obs, height, width)
    ensures t.Cube? && t.d1 == height && t.d2 == width
    ensures forall j :: 0 <= j < |imgKeys| ==> ImageAt(t, ChannelOffset(obs, imgKeys, j), obs[imgKeys[j]])
  {
    MergedTensorOk(imgKeys, vectKeys, obs, height, width);
    MergedParts(imgKeys, vectKeys, obs, height, width, t);
    var images := ImageStack(obs, imgKeys).value;
    forall j | 0 <= j < |imgKeys|
      ensures ImageAt(t, ChannelOffset(obs, imgKeys, j), obs[imgKeys[j]])
    {
      ImageStackHolds(obs, imgKeys, j);
      ImageAtPrefix(images, t, ChannelOffset(obs, imgKeys, j), obs[imgKeys[j]]);
    }
  }

  /**
   * The vector planes follow the image channels: channel C + i of the merged tensor,
   * C the channels of all images, holds the i-th scalar of the vectors (concatenated in
   * key order) at every position.
   */
  lemma MergedVectorPlanes<T>(imgKeys: seq<string>, vectKeys: seq<string>, obs: map<string, NdArray<T>>, height: nat, width: nat, t: NdArray<T>)
    requires MergedTensor(imgKeys, vectKeys, obs, height, width) == Ok(t)
    ensures MergeAccepts(imgKeys, vectKeys, obs, height, width)
    ensures t.Cube? && t.d0 == ChannelTotal(obs, imgKeys) + |Scalars(obs, vectKeys)| && t.d1 == height && t.d2 == width
    ensures PlanesAt(t, ChannelTotal(obs, imgKeys), Scalars(obs, vectKeys))
  {
    MergedTensorShape(imgKeys, vectKeys, obs, height, width, t);
    MergedParts(imgKeys, vectKeys, obs, height, width, t);
    ImageStackShape(obs, imgKeys);
    VectorPlanesLayout(obs, vectKeys, height, width);
    var images := ImageStack(obs, imgKeys).value;
    var planes := VectorPlanes(obs, vectKeys, height, width).value;
    PlanesAfter(images.c, planes, t, Scalars(obs, vectKeys));
  }

  /** The first image key that is missing or not of rank 2 or 3 makes the merge fail with an error naming it. */
  lemma MergedImageErrorAt<T>(imgKeys: seq<string>, vectKeys: seq<string>, obs: map<string, NdArray<T>>, height: nat, width: nat, j: nat)
    requires j < |imgKeys| && AllImages(obs, imgKeys[..j]) && !ImageEntry(obs, imgKeys[j])
    ensures MergedTensor(imgKeys, vectKeys, obs, height, width) ==
      Err(if imgKeys[j] in obs then ImageRankError(imgKeys[j]) else KeyError(imgKeys[j]))
  {
    ImageErrorAt(obs, imgKeys, j);
  }

  /**
   * Once the image stack is built, the first vector key that is missing or of rank above 1
   * makes the merge fail with an error naming it.
   */
  lemma MergedVectorErrorAt<T>(imgKeys: seq<string>, vectKeys: seq<string>, obs: map<string, NdArray<T>>, height: nat, width: nat, j: nat)
    requires ImageStack(obs, imgKeys).Ok?
    requires j < |vectKeys| && AllPassVectorCheck(obs, vectKeys[..j]) && !PassesVectorCheck(obs, vectKeys[j])
    ensures MergedTensor(imgKeys, vectKeys, obs, height, width) ==
      Err(if vectKeys[j] in obs then VectorRankError(vectKeys[j]) else KeyError(vectKeys[j]))
  {
    VectorErrorAt(obs, vectKeys, j);
  }

  /**
   * Every error of the merge is justified: a key error names a configured key that is
   * missing, a rank error names a configured entry of the wrong rank, and a concatenation
   * error happens only after every entry checked before it has passed its rank check.
   */
  lemma MergedErrorNamesKey<T>(imgKeys: seq<string>, vectKeys: seq<string>, obs: map<string, NdArray<T>>, height: nat, width: nat)
    requires MergedTensor(imgKeys, vectKeys, obs, height, width).Err?
    ensures var e := MergedTensor(imgKeys, vectKeys, obs, height, width).error;
      match e
      case KeyError(key) => (key in imgKeys || key in vectKeys) && key !in obs
      case ImageRankError(key) => key in imgKeys && key in obs && !IsImage(obs[key])
      case VectorRankError(key) => key in vectKeys && key in obs && obs[key].Rank() > 1
      case ConcatError(stage, _) =>
        AllImages(obs, imgKeys) && (stage != ImageStage ==> AllPassVectorCheck(obs, vectKeys))
  {
    if ChannelFirstImages(obs, imgKeys).Err? {
      ImageErrorNamesKey(obs, imgKeys);
    } else if ImageStack(obs, imgKeys).Ok? {
      if VectorEntries(obs, vectKeys).Err? {
        VectorErrorNamesKey(obs, vectKeys);
      } else {
        assert AllPassVectorCheck(obs, vectKeys);
      }
    }
  }

  // ---------------------------------------------------------------------------
  // Which entries the merge reads

  /** The two dictionaries hold the same entries (or lack them alike) at every one of the keys. */
  ghost predicate AgreeOn<T>(obs1: map<string, NdArray<T>>, obs2: map<string, NdArray<T>>, keys: seq<string>) {
    forall k :: k in keys ==> (k in obs1 <==> k in obs2) && (k in obs1 ==> obs1[k] == obs2[k])
  }

  lemma {:induction false} ChannelFirstImagesLocal<T>(obs1: map<string, NdArray<T>>, obs2: map<string, NdArray<T>>, keys: seq<string>)
    requires AgreeOn(obs1, obs2, keys)
    ensures ChannelFirstImages(obs1, keys) == ChannelFirstImages(obs2, keys)
    decreases |keys|
  {
    if keys != [] {
      var front := keys[..|keys| - 1];
      assert forall k :: k in front ==> k in keys;
      ChannelFirstImagesLocal(obs1, obs2, front);
      assert keys[|keys| - 1] in keys;
    }
  }

  lemma {:induction false} VectorEntriesLocal<T>(obs1: map<string, NdArray<T>>, obs2: map<string, NdArray<T>>, keys: seq<string>)
    requires AgreeOn(obs1, obs2, keys)
    ensures VectorEntries(obs1, keys) == VectorEntries(obs2, keys)
    decreases |keys|
  {
    if keys != [] {
      var front := keys[..|keys| - 1];
      assert forall k :: k in front ==> k in keys;
      VectorEntriesLocal(obs1, obs2, front);
      assert keys[|keys| - 1] in keys;
    }
  }

  /** The merge reads only the configured image and vector entries: other entries never change its outcome. */
  lemma MergedTensorLocal<T>(imgKeys: seq<string>, vectKeys: seq<string>, obs1: map<string, NdArray<T>>, obs2: map<string, NdArray<T>>, height: nat, width: nat)
    requires AgreeOn(obs1, obs2, imgKeys) && AgreeOn(obs1, obs2, vectKeys)
    ensures MergedTensor(imgKeys, vectKeys, obs1, height, width) == MergedTensor(imgKeys, vectKeys, obs2, height, width)
  {
    ChannelFirstImagesLocal(obs1, obs2, imgKeys);
    VectorEntriesLocal(obs1, obs2, vectKeys);
    assert ImageStack(obs1, imgKeys) == ImageStack(obs2, imgKeys);
    assert VectorPlanes(obs1, vectKeys, height, width) == VectorPlanes(obs2, vectKeys, height, width);
  }

  /**
   * Merging a dictionary that already holds the merged entry reproduces the same tensor,
   * as long as "merged_obs" is not itself one of the configured keys.
   */
  lemma MergeAgain<T>(imgKeys: seq<string>, vectKeys: seq<string>, obs: map<string, NdArray<T>>, height: nat, width: nat)
    requires MergedTensor(imgKeys, vectKeys, obs, height, width).Ok?
    requires MergedKey !in imgKeys && MergedKey !in vectKeys
    ensures var t := MergedTensor(imgKeys, vectKeys, obs, height, width).value;
      MergedTensor(imgKeys, vectKeys, obs[MergedKey := t], height, width) == Ok(t)
  {
    var t := MergedTensor(imgKeys, vectKeys, obs, height, width).value;
    MergedTensorLocal(imgKeys, vectKeys, obs, obs[MergedKey := t], height, width);
  }
}
