/** The array value that the viewer inspects once it has been loaded from a
    `.npy` container: its element kind, its shape and its elements, kept as one
    flat sequence in row-major (C) order. */
module NpyArray {

  /** One named field of a structured (record) element type, with the text of
      its own type tag. */
  datatype Field = Field(name: string, dtype: string)

  /** The element kind, as far as the viewer distinguishes it: a numeric type
      (a sub-type of `np.number`), a structured type whose fields are listed in
      declaration order, or any other type (booleans, strings, bytes, dates),
      which is neither a sub-type of `np.number` nor has fields. `Numeric`
      stands for the integer, floating-point and complex types: `timedelta64`,
      which NumPy also counts as a number, is not modelled (for it the viewer
      prints the minimum and maximum, then fails on the mean). */
  datatype Kind = Numeric | Other | Structured(fields: seq<Field>)

  /** Field names of a structured type are pairwise different. */
  predicate DistinctNames(fields: seq<Field>) {
    forall i, j :: 0 <= i < j < |fields| ==> fields[i].name != fields[j].name
  }

  /** Number of elements of an array of the given shape: the product of the
      extents, 1 for the empty shape of a 0-d scalar. */
  function Product(shape: seq<nat>): nat {
    if shape == [] then 1 else shape[0] * Product(shape[1..])
  }

  /** A loaded array. `data` holds the elements in row-major order (for a
      structured array each element stands for one whole record); `itemSize`
      is the width of one element in bytes. */
  datatype NdArray = NdArray(kind: Kind, shape: seq<nat>, data: seq<int>, itemSize: nat)
  {
    /** What every array produced by the loader satisfies. */
    predicate Valid() {
      && |data| == Product(shape)
      && (kind.Structured? ==> DistinctNames(kind.fields))
    }

    /** `data.ndim` */
    function NDim(): nat { |shape| }

    /** `data.size` */
    function Size(): nat { |data| }

    /** `data.nbytes` */
    function NBytes(): nat { |data| * itemSize }
  }

  /** An array has no elements exactly when one of its extents is zero; in
      particular a 0-d scalar (empty shape) always holds one element. */
  lemma {:induction false} SizeZeroIffZeroExtent(shape: seq<nat>)
    ensures Product(shape) == 0 <==> exists i :: 0 <= i < |shape| && shape[i] == 0
  {
    if shape != [] {
      var rest := shape[1..];
      SizeZeroIffZeroExtent(rest);
      if Product(shape) == 0 {
        if shape[0] != 0 {
          assert Product(rest) == 0;
          var k :| 0 <= k < |rest| && rest[k] == 0;
          assert shape[k + 1] == 0;
        } else {
          assert shape[0] == 0;
        }
      } else {
        forall i | 0 <= i < |shape| ensures shape[i] != 0 {
          if i > 0 {
            assert shape[i] == rest[i - 1];
          }
        }
      }
    }
  }

  /** `data.size == 0` exactly when some extent of the shape is 0. */
  lemma EmptyIffZeroExtent(a: NdArray)
    requires a.Valid()
    ensures a.Size() == 0 <==> exists i :: 0 <= i < |a.shape| && a.shape[i] == 0
  {
    SizeZeroIffZeroExtent(a.shape);
  }
}
