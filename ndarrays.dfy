/**
 * numpy arrays as the storage layer sees them: a shape and the elements laid
 * out in C order (last axis varies fastest). `Ravel3` and `Reshape3` relate
 * that flat layout to a nested three-dimensional box, which is what
 * `ndarray.ravel` and `numpy.reshape` do for the detector PDFs.
 */
module NdArrays {
  import opened Seqs

  /** An array's shape and its elements in row-major order. */
  datatype NdArray<V> = NdArray(shape: seq<nat>, flat: seq<V>)

  /** Number of elements an array of this shape holds (1 for a scalar). */
  function Product(shape: seq<nat>): nat
  {
    if shape == [] then 1 else Product(shape[..|shape| - 1]) * shape[|shape| - 1]
  }

  /** The flat buffer holds exactly as many elements as the shape calls for. */
  predicate WellShaped<V>(a: NdArray<V>)
  {
    |a.flat| == Product(a.shape)
  }

  lemma Product3(x: nat, y: nat, z: nat)
    ensures Product([x, y, z]) == x * y * z
  {
    Product2(x, y);
    assert [x, y, z][..2] == [x, y];
  }

  lemma Product2(x: nat, y: nat)
    ensures Product([x, y]) == x * y
  {
    assert [x][..0] == [];
    assert Product([x]) == x;
    assert [x, y][..1] == [x];
  }

  /** `a` is a nested box of x planes of y rows of z elements. */
  predicate IsBox<V>(a: seq<seq<seq<V>>>, x: nat, y: nat, z: nat)
  {
    |a| == x && forall i :: 0 <= i < x ==> |a[i]| == y && Uniform(a[i], z)
  }

  /** Row-major flattening of a plane list: planes, then rows, then elements. */
  function Ravel3<V>(a: seq<seq<seq<V>>>): seq<V>
  {
    Concat(Planes(a))
  }

  /** Each plane flattened on its own. */
  function Planes<V>(a: seq<seq<seq<V>>>): seq<seq<V>>
  {
    seq(|a|, i requires 0 <= i < |a| => Concat(a[i]))
  }

  /** Row-major reshaping of `x * y * z` elements into a box. */
  function Reshape3<V>(flat: seq<V>, x: nat, y: nat, z: nat): (a: seq<seq<seq<V>>>)
    requires |flat| == x * y * z
    ensures IsBox(a, x, y, z)
  {
    assert x * y * z == x * (y * z);
    var planes := Chunks(flat, x, y * z);
    seq(x, i requires 0 <= i < x => Chunks(planes[i], y, z))
  }

  /** Flat offset of element (i, j, k) in a row-major x-by-y-by-z layout. */
  function RowMajor(y: nat, z: nat, i: nat, j: nat, k: nat): nat
  {
    (i * y + j) * z + k
  }

  lemma PlanesUniform<V>(a: seq<seq<seq<V>>>, x: nat, y: nat, z: nat)
    requires IsBox(a, x, y, z)
    ensures Uniform(Planes(a), y * z)
  {
    forall i | 0 <= i < x
      ensures |Planes(a)[i]| == y * z
    {
      ConcatUniformLength(a[i], z);
    }
  }

  /** Flattening a box yields x * y * z elements with element (i, j, k) at its row-major offset. */
  lemma RavelIndex<V>(a: seq<seq<seq<V>>>, x: nat, y: nat, z: nat, i: nat, j: nat, k: nat)
    requires IsBox(a, x, y, z)
    requires i < x && j < y && k < z
    ensures |Ravel3(a)| == x * y * z
    ensures RowMajor(y, z, i, j, k) < |Ravel3(a)|
    ensures Ravel3(a)[RowMajor(y, z, i, j, k)] == a[i][j][k]
  {
    var planes := Planes(a);
    PlanesUniform(a, x, y, z);
    ConcatUniformIndex(a[i], z, j, k);
    ConcatUniformIndex(planes, y * z, i, j * z + k);
    MulAssoc(x, y, z);
    RowMajorSplit(y, z, i, j, k);
  }

  lemma MulAssoc(x: nat, y: nat, z: nat)
    ensures x * y * z == x * (y * z)
  {
  }

  lemma RowMajorSplit(y: nat, z: nat, i: nat, j: nat, k: nat)
    ensures RowMajor(y, z, i, j, k) == i * (y * z) + (j * z + k)
  {
    assert (i * y + j) * z == (i * y) * z + j * z;
    MulAssoc(i, y, z);
  }

  /** Reshaping a flattened box restores the box: ravel then reshape is the identity. */
  lemma ReshapeRavel<V>(a: seq<seq<seq<V>>>, x: nat, y: nat, z: nat)
    requires IsBox(a, x, y, z)
    ensures |Ravel3(a)| == x * y * z
    ensures Reshape3(Ravel3(a), x, y, z) == a
  {
    var planes := Planes(a);
    PlanesUniform(a, x, y, z);
    ChunksConcat(planes, y * z);
    MulAssoc(x, y, z);
    assert Chunks(Ravel3(a), x, y * z) == planes;
    var b := Reshape3(Ravel3(a), x, y, z);
    forall i | 0 <= i < x
      ensures b[i] == a[i]
    {
      ChunksConcat(a[i], z);
      assert b[i] == Chunks(planes[i], y, z);
    }
  }

  /** Flattening a reshaped buffer restores the buffer: reshape then ravel is the identity. */
  lemma RavelReshape<V>(flat: seq<V>, x: nat, y: nat, z: nat)
    requires |flat| == x * y * z
    ensures Ravel3(Reshape3(flat, x, y, z)) == flat
  {
    assert x * y * z == x * (y * z);
    var planes := Chunks(flat, x, y * z);
    var a := Reshape3(flat, x, y, z);
    forall i | 0 <= i < x
      ensures Planes(a)[i] == planes[i]
    {
      ConcatChunks(planes[i], y, z);
    }
    assert Planes(a) == planes;
    ConcatChunks(flat, x, y * z);
  }
}
