/** The bounded sample of the array's elements, one rule per dimensionality,
    built from Python's clamping slice semantics. */
module Preview {

  /** Number of trailing elements shown after the "..." marker of a 1-D array. */
  const TailLength: nat := 5
  /** Number of leading columns shown of a 2-D array. */
  const MaxColumns: nat := 10

  function MinNat(a: nat, b: nat): nat {
    if a <= b then a else b
  }

  /** Python's `s[:k]` for k >= 0: the first k elements, or all of s when it
      is shorter. */
  function SliceTo<T>(s: seq<T>, k: nat): (r: seq<T>)
    ensures |r| == MinNat(k, |s|)
    ensures r == s[..|r|]
  {
    if k <= |s| then s[..k] else s
  }

  /** Python's `s[k:]`: a negative k counts from the end of s, and an index
      beyond either end is clamped. */
  function SliceFrom<T>(s: seq<T>, k: int): (r: seq<T>)
    ensures k < 0 ==> |r| == MinNat(-k, |s|)
    ensures 0 <= k ==> |r| == |s| - MinNat(k, |s|)
    ensures r == s[|s| - |r|..]
  {
    var start :=
      if k < 0 then (if -k <= |s| then |s| + k else 0)
      else (if k <= |s| then k else |s|);
    s[start..]
  }

  /** The 1-D sample: a head, and when elements remain after it, the "..."
      marker and a tail. */
  datatype Window = Window(head: seq<int>, truncated: bool, tail: seq<int>)

  /** One-dimensional preview. The head is the first max_elements elements in
      storage order; the marker appears exactly when the head leaves elements
      out, and then the tail holds the last min(5, size - max_elements)
      elements. The tail starts at or after index max_elements, so it never
      repeats an element of the head. */
  function HeadTail(data: seq<int>, maxElements: nat): (w: Window)
    ensures w.head == data[..MinNat(maxElements, |data|)]
    ensures w.truncated <==> |w.head| < |data|
    ensures w.truncated ==>
      && |w.tail| == MinNat(TailLength, |data| - maxElements)
      && 1 <= |w.tail| <= TailLength
      && maxElements <= |data| - |w.tail|
      && w.tail == data[|data| - |w.tail|..]
    ensures !w.truncated ==> w.tail == []
  {
    var sampleSize := MinNat(maxElements, |data|);
    var head := SliceTo(data, sampleSize);
    if |data| > maxElements then
      Window(head, true, SliceFrom(data, -(MinNat(TailLength, |data| - maxElements) as int)))
    else
      Window(head, false, [])
  }

  /** (i + 1) * n1 <= n0 * n1 for a row index i < n0. */
  lemma RowInBounds(i: nat, n0: nat, n1: nat)
    requires i < n0
    ensures i * n1 + n1 <= n0 * n1
  {
    assert (i + 1) * n1 <= n0 * n1;
  }

  /** Row i of the row-major n0 x n1 array with elements `data`. */
  function Row(data: seq<int>, n0: nat, n1: nat, i: nat): (row: seq<int>)
    requires |data| == n0 * n1 && i < n0
    ensures |row| == n1 && i * n1 + n1 <= |data|
    ensures row == data[i * n1..i * n1 + n1]
  {
    RowInBounds(i, n0, n1);
    data[i * n1..i * n1 + n1]
  }

  /** The n0 x n1 array seen as a sequence of rows. */
  function Rows(data: seq<int>, n0: nat, n1: nat): (rows: seq<seq<int>>)
    requires |data| == n0 * n1
    ensures |rows| == n0
    ensures forall i :: 0 <= i < n0 ==> rows[i] == Row(data, n0, n1, i)
  {
    seq(n0, i requires 0 <= i < n0 => Row(data, n0, n1, i))
  }

  /** Entry j of a corner row, row i cut to its first c entries, is the
      row-major element i * n1 + j. */
  lemma CornerRow(data: seq<int>, n0: nat, n1: nat, i: nat, c: nat)
    requires |data| == n0 * n1 && i < n0 && c <= n1
    ensures |SliceTo(Row(data, n0, n1, i), c)| == c
    ensures forall j :: 0 <= j < c ==>
      i * n1 + j < |data| && SliceTo(Row(data, n0, n1, i), c)[j] == data[i * n1 + j]
  {
    var row := Row(data, n0, n1, i);
    var start := i * n1;
    assert row == data[start..start + n1] && start + n1 <= |data|;
    forall j | 0 <= j < c
      ensures start + j < |data| && SliceTo(row, c)[j] == data[start + j]
    {
      assert SliceTo(row, c)[j] == row[j];
    }
  }

  /** The 2-D sample: the top-left corner of the array and the "..." marker. */
  datatype Block = Block(rows: nat, cols: nat, cells: seq<seq<int>>, truncated: bool)

  /** Two-dimensional preview `data[:rows, :cols]`. The corner has
      min(max_elements, n0) rows and min(10, n1) columns, entry (i, j) is the
      row-major element i * n1 + j (`CornerRow`), and the marker appears
      exactly when the corner leaves a row or a column out. There is no tail. */
  function Corner(data: seq<int>, n0: nat, n1: nat, maxElements: nat): (b: Block)
    requires |data| == n0 * n1
    ensures b.rows == MinNat(maxElements, n0) && b.cols == MinNat(MaxColumns, n1)
    ensures |b.cells| == b.rows
    ensures forall i :: 0 <= i < b.rows ==> b.cells[i] == SliceTo(Row(data, n0, n1, i), b.cols)
    ensures b.truncated <==> b.rows < n0 || b.cols < n1
  {
    var rowsToShow := MinNat(maxElements, n0);
    var colsToShow := MinNat(MaxColumns, n1);
    var shown := SliceTo(Rows(data, n0, n1), rowsToShow);
    var cells := seq(|shown|, i requires 0 <= i < |shown| => SliceTo(shown[i], colsToShow));
    Block(rowsToShow, colsToShow, cells, n0 > maxElements || n1 > MaxColumns)
  }

  /** The sample of a 0-d or of a 3-or-more-dimensional array. */
  datatype Prefix = Prefix(elems: seq<int>, truncated: bool)

  /** Flattened preview: the first max_elements elements in row-major order
      (for a 0-d scalar, its single element), and the marker exactly when some
      element is left out. There is no tail. */
  function Flattened(data: seq<int>, maxElements: nat): (p: Prefix)
    ensures p.elems == data[..MinNat(maxElements, |data|)]
    ensures p.truncated <==> |p.elems| < |data|
  {
    var flat := data;
    Prefix(SliceTo(flat, MinNat(maxElements, |flat|)), |flat| > maxElements)
  }
}
