/**
 * The small part of numpy's n-dimensional arrays that the observation wrappers use:
 * arrays of rank 0 to 3 with their contents, arrays of higher rank by shape only,
 * and the array operations `concatenate` (along axis 0), `expand_dims`, `swapaxes`
 * and `tile`. Element values are never inspected, so the element type is a parameter.
 */
module NdArrays {

  /** The outcome of an operation that can raise. */
  datatype Result<+R, +E> = Ok(value: R) | Err(error: E)

  /** `m` is an h-by-w matrix: h rows of w elements each. */
  predicate IsMatrix<X>(m: seq<seq<X>>, h: nat, w: nat) {
    |m| == h && forall i :: 0 <= i < h ==> |m[i]| == w
  }

  /** `c` is a d0-by-d1-by-d2 block: d0 matrices of d1 rows of d2 elements each. */
  predicate IsCube<X>(c: seq<seq<seq<X>>>, d0: nat, d1: nat, d2: nat) {
    |c| == d0 && forall i :: 0 <= i < d0 ==> IsMatrix(c[i], d1, d2)
  }

  /**
   * An array together with its shape. Ranks 0 to 3 carry their elements (a
   * rank-3 array is indexed c[i][j][k]); rank 4 and above carry only the shape.
   */
  datatype Arr<T> =
    | Scalar(x: T)
    | Vec(v: seq<T>)
    | Mat(h: nat, w: nat, m: seq<seq<T>>)
    | Cube(d0: nat, d1: nat, d2: nat, c: seq<seq<seq<T>>>)
    | Other(shape: seq<nat>)
  {
    function Shape(): seq<nat> {
      match this
      case Scalar(_) => []
      case Vec(v) => [|v|]
      case Mat(h, w, _) => [h, w]
      case Cube(d0, d1, d2, _) => [d0, d1, d2]
      case Other(s) => s
    }

    function Rank(): nat {
      |Shape()|
    }

    /** The elements fill the declared shape exactly, and each rank has one representation. */
    predicate Valid() {
      match this
      case Scalar(_) => true
      case Vec(_) => true
      case Mat(h, w, m) => IsMatrix(m, h, w)
      case Cube(d0, d1, d2, c) => IsCube(c, d0, d1, d2)
      case Other(s) => |s| >= 4
    }
  }

  type NdArray<T> = a: Arr<T> | a.Valid() witness Other([0, 0, 0, 0])

  /** Why `numpy.concatenate` raises `ValueError`. */
  datatype ConcatFailure =
    | NoArrays          // "need at least one array to concatenate"
    | ZeroDimensional   // "zero-dimensional arrays cannot be concatenated"
    | DimensionMismatch // ranks differ, or a dimension other than axis 0 differs

  /** `a` can be stacked onto `b` along axis 0: same rank (at least 1) and equal on every other axis. */
  predicate Stackable<T>(a: Arr<T>, b: Arr<T>) {
    a.Rank() == b.Rank() && a.Rank() > 0 && a.Shape()[1..] == b.Shape()[1..]
  }

  /** The length of axis 0 (0 for a scalar, which has no axes). */
  function Leading<T>(a: Arr<T>): nat {
    if a.Rank() > 0 then a.Shape()[0] else 0
  }

  /** The sum of the leading dimensions of `arrs`. */
  function LeadingTotal<T>(arrs: seq<Arr<T>>): nat {
    if arrs == [] then 0
    else LeadingTotal(arrs[..|arrs| - 1]) + Leading(arrs[|arrs| - 1])
  }

  /** `a` followed by `b` along axis 0. */
  function Append<T>(a: NdArray<T>, b: NdArray<T>): (r: NdArray<T>)
    requires Stackable(a, b)
    ensures Stackable(r, a) && Leading(r) == Leading(a) + Leading(b)
    ensures a.Vec? ==> r.Vec? && r.v == a.v + b.v
    ensures a.Mat? ==> r.Mat? && r.w == a.w && r.m == a.m + b.m
    ensures a.Cube? ==> r.Cube? && r.c == a.c + b.c
  {
    if a.Vec? then Vec(a.v + b.v)
    else if a.Mat? then
      assert a.Shape()[1..] == [a.w] && b.Shape()[1..] == [b.w];
      Mat(a.h + b.h, a.w, a.m + b.m)
    else if a.Cube? then
      assert a.Shape()[1..] == [a.d1, a.d2] && b.Shape()[1..] == [b.d1, b.d2];
      Cube(a.d0 + b.d0, a.d1, a.d2, a.c + b.c)
    else
      Other([a.shape[0] + b.shape[0]] + a.shape[1..])
  }

  /** The arrays of `arrs`, in order, stacked along axis 0. */
  function Join<T>(arrs: seq<NdArray<T>>): (r: NdArray<T>)
    requires |arrs| > 0
    requires forall i :: 0 <= i < |arrs| ==> Stackable(arrs[i], arrs[0])
    ensures Stackable(r, arrs[0]) && Leading(r) == LeadingTotal(arrs)
    decreases |arrs|
  {
    if |arrs| == 1 then
      assert arrs[..0] == [];
      arrs[0]
    else
      var front, last := arrs[..|arrs| - 1], arrs[|arrs| - 1];
      assert front[0] == arrs[0] && Stackable(last, arrs[0]);
      Append(Join(front), last)
  }

  /**
   * `numpy.concatenate(arrs)` along axis 0: the checks are made in numpy's order
   * (no arrays, a zero-dimensional first array, then any rank or shape mismatch).
   */
  function Concatenate<T>(arrs: seq<NdArray<T>>): (r: Result<NdArray<T>, ConcatFailure>)
    ensures r.Ok? <==> |arrs| > 0 && forall i :: 0 <= i < |arrs| ==> Stackable(arrs[i], arrs[0])
    ensures r == Err(NoArrays) <==> |arrs| == 0
    ensures r == Err(ZeroDimensional) <==> |arrs| > 0 && arrs[0].Rank() == 0
    ensures r.Ok? ==> Stackable(r.value, arrs[0]) && Leading(r.value) == LeadingTotal(arrs)
  {
    if |arrs| == 0 then Err(NoArrays)
    else if arrs[0].Rank() == 0 then Err(ZeroDimensional)
    else if exists i :: 0 <= i < |arrs| && !Stackable(arrs[i], arrs[0]) then Err(DimensionMismatch)
    else Ok(Join(arrs))
  }

  /** `numpy.expand_dims(a, 0)`: a new leading axis of length 1 whose only slice is `a`. */
  function ExpandFirst<T>(a: NdArray<T>): (r: NdArray<T>)
    ensures r.Shape() == [1] + a.Shape()
    ensures a.Scalar? ==> r.Vec? && r.v == [a.x]
    ensures a.Vec? ==> r.Mat? && r.m == [a.v]
    ensures a.Mat? ==> r.Cube? && r.c == [a.m]
  {
    match a
    case Scalar(x) => Vec([x])
    case Vec(v) => Mat(1, |v|, [v])
    case Mat(h, w, m) => Cube(1, h, w, [m])
    case Cube(d0, d1, d2, _) => Other([1, d0, d1, d2])
    case Other(s) => Other([1] + s)
  }

  /** `numpy.expand_dims(a, -1)`: a new trailing axis of length 1; each element becomes a one-element row. */
  function ExpandLast<T>(a: NdArray<T>): (r: NdArray<T>)
    ensures r.Shape() == a.Shape() + [1]
    ensures a.Scalar? ==> r.Vec? && r.v == [a.x]
    ensures a.Vec? ==> r.Mat? && |r.m| == |a.v| && forall i :: 0 <= i < |a.v| ==> r.m[i] == [a.v[i]]
    ensures a.Mat? ==>
      r.Cube? && IsCube(r.c, a.h, a.w, 1) &&
      forall i, j :: 0 <= i < a.h && 0 <= j < a.w ==> r.c[i][j] == [a.m[i][j]]
  {
    match a
    case Scalar(x) => Vec([x])
    case Vec(v) => Mat(|v|, 1, seq(|v|, i requires 0 <= i < |v| => [v[i]]))
    case Mat(h, w, m) =>
      Cube(h, w, 1, seq(h, i requires 0 <= i < h => seq(w, j requires 0 <= j < w => [m[i][j]])))
    case Cube(d0, d1, d2, _) => Other([d0, d1, d2, 1])
    case Other(s) => Other(s + [1])
  }

  /** `a.swapaxes(0, 2)` for a rank-3 array: shape (d0, d1, d2) becomes (d2, d1, d0). */
  function SwapAxes02<T>(a: NdArray<T>): (r: NdArray<T>)
    requires a.Cube?
    ensures r.Cube? && r.Shape() == [a.d2, a.d1, a.d0]
    ensures forall i, j, k :: 0 <= i < a.d2 && 0 <= j < a.d1 && 0 <= k < a.d0 ==> r.c[i][j][k] == a.c[k][j][i]
  {
    Cube(a.d2, a.d1, a.d0,
      seq(a.d2, i requires 0 <= i < a.d2 =>
        seq(a.d1, j requires 0 <= j < a.d1 =>
          seq(a.d0, k requires 0 <= k < a.d0 => a.c[k][j][i]))))
  }

  /** `a.swapaxes(1, 2)` for a rank-3 array: shape (d0, d1, d2) becomes (d0, d2, d1). */
  function SwapAxes12<T>(a: NdArray<T>): (r: NdArray<T>)
    requires a.Cube?
    ensures r.Cube? && r.Shape() == [a.d0, a.d2, a.d1]
    ensures forall i, j, k :: 0 <= i < a.d0 && 0 <= j < a.d2 && 0 <= k < a.d1 ==> r.c[i][j][k] == a.c[i][k][j]
  {
    Cube(a.d0, a.d2, a.d1,
      seq(a.d0, i requires 0 <= i < a.d0 =>
        seq(a.d2, j requires 0 <= j < a.d2 =>
          seq(a.d1, k requires 0 <= k < a.d1 => a.c[i][k][j]))))
  }

  /**
   * `numpy.tile(a, (r0, r1, r2))` for a rank-3 array: `a` repeated r0, r1 and r2 times
   * along its three axes, so that every element is read back modulo the original shape.
   */
  function Tile<T>(a: NdArray<T>, r0: nat, r1: nat, r2: nat): (r: NdArray<T>)
    requires a.Cube?
    ensures r.Cube? && r.Shape() == [a.d0 * r0, a.d1 * r1, a.d2 * r2]
    ensures forall i, j, k :: 0 <= i < a.d0 * r0 && 0 <= j < a.d1 * r1 && 0 <= k < a.d2 * r2 ==>
      a.d0 > 0 && a.d1 > 0 && a.d2 > 0 && r.c[i][j][k] == a.c[i % a.d0][j % a.d1][k % a.d2]
  {
    var n0, n1, n2 := a.d0 * r0, a.d1 * r1, a.d2 * r2;
    Cube(n0, n1, n2,
      seq(n0, i requires 0 <= i < n0 =>
        seq(n1, j requires 0 <= j < n1 =>
          seq(n2, k requires 0 <= k < n2 => a.c[i % a.d0][j % a.d1][k % a.d2]))))
  }

  /** The leading dimension of a rank-3 array is its first. */
  lemma LeadingCube<T>(a: NdArray<T>)
    requires a.Cube?
    ensures Leading(a) == a.d0
  {
  }

  /** Two rank-2 arrays stack exactly when their rows have the same length. */
  lemma StackableMatrices<T>(a: NdArray<T>, b: NdArray<T>)
    requires a.Mat? && b.Mat?
    ensures Stackable(a, b) <==> a.w == b.w
  {
    assert a.Shape()[1..] == [a.w] && b.Shape()[1..] == [b.w];
  }

  /** Two rank-3 arrays stack exactly when their second and third dimensions agree. */
  lemma StackableCubes<T>(a: NdArray<T>, b: NdArray<T>)
    requires a.Cube? && b.Cube?
    ensures Stackable(a, b) <==> a.d1 == b.d1 && a.d2 == b.d2
  {
    assert a.Shape()[1..] == [a.d1, a.d2] && b.Shape()[1..] == [b.d1, b.d2];
  }

  /** A stack of rank-3 arrays is rank 3, as long as all of them along axis 0 and as wide as the first on the other two axes. */
  lemma JoinCubes<T>(arrs: seq<NdArray<T>>)
    requires |arrs| > 0 && arrs[0].Cube?
    requires forall i :: 0 <= i < |arrs| ==> Stackable(arrs[i], arrs[0])
    ensures var r := Join(arrs);
      r.Cube? && r.d0 == LeadingTotal(arrs) && r.d1 == arrs[0].d1 && r.d2 == arrs[0].d2
  {
    var r, a := Join(arrs), arrs[0];
    assert r.Rank() == 3;
    assert r.Shape()[1..] == [r.d1, r.d2] && a.Shape()[1..] == [a.d1, a.d2];
  }

  /** A stack of rank-3 arrays is the stack of all but the last followed by the last one's slices. */
  lemma JoinCubesLast<T>(arrs: seq<NdArray<T>>)
    requires |arrs| > 1 && arrs[0].Cube?
    requires forall i :: 0 <= i < |arrs| ==> Stackable(arrs[i], arrs[0])
    ensures var front, last := arrs[..|arrs| - 1], arrs[|arrs| - 1];
      (forall i :: 0 <= i < |front| ==> Stackable(front[i], front[0])) &&
      Join(front).Cube? && |Join(front).c| == LeadingTotal(front) &&
      last.Cube? && Join(arrs).Cube? && Join(arrs).c == Join(front).c + last.c &&
      LeadingTotal(arrs) == LeadingTotal(front) + last.d0
  {
    var front, last := arrs[..|arrs| - 1], arrs[|arrs| - 1];
    assert front[0] == arrs[0];
    JoinCubes(front);
    StackableCubes(last, arrs[0]);
    LeadingCube(last);
  }

  /** In a stack of rank-3 arrays, slice k of the j-th array sits after the slices of the arrays before it. */
  lemma {:induction false} JoinCubeAt<T>(arrs: seq<NdArray<T>>, j: nat, k: nat)
    requires |arrs| > 0 && arrs[0].Cube?
    requires forall i :: 0 <= i < |arrs| ==> Stackable(arrs[i], arrs[0])
    requires j < |arrs| && arrs[j].Cube? && k < arrs[j].d0
    ensures Join(arrs).Cube? && |Join(arrs).c| == LeadingTotal(arrs)
    ensures LeadingTotal(arrs[..j]) + k < LeadingTotal(arrs)
    ensures Join(arrs).c[LeadingTotal(arrs[..j]) + k] == arrs[j].c[k]
    decreases |arrs|
  {
    var n := |arrs|;
    JoinCubes(arrs);
    if n == 1 {
      assert arrs[..0] == [];
      assert LeadingTotal(arrs) == LeadingTotal(arrs[..0]) + arrs[0].d0;
    } else {
      var front, last := arrs[..n - 1], arrs[n - 1];
      JoinCubesLast(arrs);
      if j < n - 1 {
        assert front[..j] == arrs[..j] && front[j] == arrs[j];
        JoinCubeAt(front, j, k);
        assert LeadingTotal(arrs[..j]) + k < LeadingTotal(front);
      } else {
        assert arrs[..j] == front && arrs[j] == last;
        assert LeadingTotal(arrs[..j]) == LeadingTotal(front);
      }
    }
  }

  /**
   * Concatenating two rank-3 arrays along axis 0: the slices of `a` then those of `b`
   * when the other two axes agree, a dimension mismatch otherwise.
   */
  lemma ConcatenateCubes<T>(a: NdArray<T>, b: NdArray<T>)
    requires a.Cube? && b.Cube?
    ensures Concatenate([a, b]).Ok? <==> a.d1 == b.d1 && a.d2 == b.d2
    ensures Concatenate([a, b]).Err? ==> Concatenate([a, b]).error == DimensionMismatch
    ensures Concatenate([a, b]).Ok? ==>
      var r := Concatenate([a, b]).value;
      r.Cube? && r.d0 == a.d0 + b.d0 && r.d1 == a.d1 && r.d2 == a.d2 && r.c == a.c + b.c
  {
    var arrs := [a, b];
    assert arrs[..1] == [a];
    StackableCubes(b, a);
    if Stackable(b, a) {
      assert Join(arrs) == Append(Join([a]), b);
    } else {
      assert !Stackable(arrs[1], arrs[0]);
    }
  }

  // ---------------------------------------------------------------------------
  // Concatenating rank-1 and rank-2 arrays

  /** The vectors of `vs` laid end to end. */
  function Elements<T>(vs: seq<NdArray<T>>): (r: seq<T>)
    requires forall i :: 0 <= i < |vs| ==> vs[i].Vec?
    ensures |vs| > 0 ==> vs[0].v <= r
  {
    if vs == [] then [] else Elements(vs[..|vs| - 1]) + vs[|vs| - 1].v
  }

  /** The rows of the rank-2 arrays of `ms` laid end to end. */
  function Rows<T>(ms: seq<NdArray<T>>): seq<seq<T>>
    requires forall i :: 0 <= i < |ms| ==> ms[i].Mat?
  {
    if ms == [] then [] else Rows(ms[..|ms| - 1]) + ms[|ms| - 1].m
  }

  /** Stacking rank-1 arrays lays their elements end to end. */
  lemma {:induction false} JoinVectors<T>(vs: seq<NdArray<T>>)
    requires |vs| > 0 && forall i :: 0 <= i < |vs| ==> vs[i].Vec?
    ensures forall i :: 0 <= i < |vs| ==> Stackable(vs[i], vs[0])
    ensures Join(vs) == Vec(Elements(vs))
    decreases |vs|
  {
    var n := |vs|;
    if n == 1 {
      assert vs[..0] == [];
    } else {
      var front := vs[..n - 1];
      JoinVectors(front);
    }
  }

  /** Stacking rank-2 arrays of one row length lays their rows end to end. */
  lemma {:induction false} JoinMatrices<T>(ms: seq<NdArray<T>>)
    requires |ms| > 0 && forall i :: 0 <= i < |ms| ==> ms[i].Mat?
    requires forall i :: 0 <= i < |ms| ==> Stackable(ms[i], ms[0])
    ensures Join(ms).Mat? && Join(ms).w == ms[0].w && Join(ms).m == Rows(ms)
    decreases |ms|
  {
    var n := |ms|;
    if n == 1 {
      assert ms[..0] == [];
    } else {
      var front := ms[..n - 1];
      assert front[0] == ms[0];
      JoinMatrices(front);
    }
  }

  /** Concatenating rank-2 arrays succeeds exactly when their rows have one length, and lays the rows end to end. */
  lemma ConcatenateMatrices<T>(ms: seq<NdArray<T>>)
    requires |ms| > 0 && forall i :: 0 <= i < |ms| ==> ms[i].Mat?
    ensures var r := Concatenate(ms);
      (r.Ok? <==> forall i :: 0 <= i < |ms| ==> ms[i].w == ms[0].w) &&
      (r.Ok? ==> r.value.Mat? && r.value.w == ms[0].w && r.value.m == Rows(ms)) &&
      (r.Err? ==> r.error == DimensionMismatch)
  {
    forall i | 0 <= i < |ms|
      ensures Stackable(ms[i], ms[0]) <==> ms[i].w == ms[0].w
    {
      StackableMatrices(ms[i], ms[0]);
    }
    if forall i :: 0 <= i < |ms| ==> ms[i].w == ms[0].w {
      JoinMatrices(ms);
    }
  }
}
