/**
 * The fragment of numpy that the reassembly step relies on: two-dimensional
 * arrays, basic column slicing `a[:, start:stop]` and `np.concatenate` along
 * axis 1 (side by side) and axis 0 (one above the other). Cells are only ever
 * moved, so the element type is a type parameter.
 */
module NdArray {
  import opened Wrappers

  /** A two-dimensional array of shape (|rows|, width). The width is kept
      explicitly because numpy keeps it for an array with no rows. */
  datatype Array2<T> = Array2(width: nat, rows: seq<seq<T>>)

  /** Every numpy array is rectangular: each row has `width` cells. */
  predicate Rectangular<T>(a: Array2<T>)
  {
    forall i :: 0 <= i < |a.rows| ==> |a.rows[i]| == a.width
  }

  function Height<T>(a: Array2<T>): nat
  {
    |a.rows|
  }

  /** The ValueError raised by np.concatenate. */
  datatype ValueError =
    | NeedAtLeastOneArray   // an empty sequence of arrays
    | DimensionMismatch     // the sizes along the other axis differ

  /** The stop of a Python slice: an index, or omitted (`a[15:]`). */
  datatype Stop = At(index: nat) | ToEnd

  /** A non-negative slice bound is clipped to the length of the sequence. */
  function Clip(k: nat, n: nat): nat
  {
    if k < n then k else n
  }

  function StopIndex(stop: Stop, n: nat): nat
  {
    match stop
    case At(k) => Clip(k, n)
    case ToEnd => n
  }

  /** Number of elements Python's `s[start:stop]` yields when |s| == n. */
  function SliceLength(n: nat, start: nat, stop: Stop): nat
  {
    var lo, hi := Clip(start, n), StopIndex(stop, n);
    if lo <= hi then hi - lo else 0
  }

  /** Python's `row[start:stop]` for a non-negative start and a non-negative
      or omitted stop, with out-of-range bounds clipped. */
  function Slice<T>(row: seq<T>, start: nat, stop: Stop): (r: seq<T>)
    ensures |r| == SliceLength(|row|, start, stop)
  {
    var lo, hi := Clip(start, |row|), StopIndex(stop, |row|);
    if lo <= hi then row[lo..hi] else []
  }

  /** A slice holds exactly the elements whose index lies in [start, stop),
      in order. */
  lemma SliceCells<T>(row: seq<T>, start: nat, stop: Stop)
    ensures forall k :: 0 <= k < |Slice(row, start, stop)| ==>
      start + k < |row| && Slice(row, start, stop)[k] == row[start + k]
    ensures forall j :: start <= j < |row| && (stop.At? ==> j < stop.index) ==>
      j - start < |Slice(row, start, stop)| && Slice(row, start, stop)[j - start] == row[j]
  {
    var r := Slice(row, start, stop);
    var lo, hi := Clip(start, |row|), StopIndex(stop, |row|);
    if lo <= hi {
      assert r == row[lo..hi];
      assert |r| > 0 ==> lo == start;
    } else {
      assert r == [] && stop.At? && stop.index < start;
    }
  }

  /** Adjacent slices join up: `s[start:mid] + s[mid:stop] == s[start:stop]`. */
  lemma SliceSplit<T>(row: seq<T>, start: nat, mid: nat, stop: Stop)
    requires start <= mid
    requires stop.At? ==> mid <= stop.index
    ensures Slice(row, start, At(mid)) + Slice(row, mid, stop) == Slice(row, start, stop)
  {
    var lo, m, hi := Clip(start, |row|), Clip(mid, |row|), StopIndex(stop, |row|);
    assert lo <= m <= hi;
    assert row[lo..m] + row[m..hi] == row[lo..hi];
  }

  /** numpy's `a[:, start:stop]`: every row sliced the same way. */
  function ColumnSlice<T>(a: Array2<T>, start: nat, stop: Stop): (r: Array2<T>)
    requires Rectangular(a)
    ensures Rectangular(r) && Height(r) == Height(a)
    ensures r.width == SliceLength(a.width, start, stop)
    ensures forall i :: 0 <= i < Height(a) ==> r.rows[i] == Slice(a.rows[i], start, stop)
    ensures forall i, k :: 0 <= i < Height(a) && 0 <= k < r.width ==>
      start + k < a.width && r.rows[i][k] == a.rows[i][start + k]
  {
    forall i | 0 <= i < |a.rows| { SliceCells(a.rows[i], start, stop); }
    Array2(SliceLength(a.width, start, stop),
           seq(|a.rows|, i requires 0 <= i < |a.rows| => Slice(a.rows[i], start, stop)))
  }

  function TotalWidth<T>(blocks: seq<Array2<T>>): nat
  {
    if blocks == [] then 0 else blocks[0].width + TotalWidth(blocks[1..])
  }

  predicate SameHeights<T>(blocks: seq<Array2<T>>)
    requires |blocks| > 0
  {
    forall k :: 0 <= k < |blocks| ==> Height(blocks[k]) == Height(blocks[0])
  }

  predicate SameWidths<T>(blocks: seq<Array2<T>>)
    requires |blocks| > 0
  {
    forall k :: 0 <= k < |blocks| ==> blocks[k].width == blocks[0].width
  }

  /** Row i of the blocks laid side by side. */
  function JoinedRow<T>(blocks: seq<Array2<T>>, i: nat): (r: seq<T>)
    requires forall k :: 0 <= k < |blocks| ==> i < Height(blocks[k])
    ensures (forall k :: 0 <= k < |blocks| ==> Rectangular(blocks[k])) ==> |r| == TotalWidth(blocks)
  {
    if blocks == [] then []
    else
      assert i < Height(blocks[0]);
      blocks[0].rows[i] + JoinedRow(blocks[1..], i)
  }

  /** `np.concatenate(blocks, axis=1)`: fails unless there is at least one
      block and all blocks have the same number of rows; otherwise row i of
      the result is row i of every block, in block order. */
  function ConcatColumns<T>(blocks: seq<Array2<T>>): (r: Result<Array2<T>, ValueError>)
    requires forall k :: 0 <= k < |blocks| ==> Rectangular(blocks[k])
    ensures r.Ok? <==> |blocks| > 0 && SameHeights(blocks)
    ensures r == Err(NeedAtLeastOneArray) <==> |blocks| == 0
    ensures r.Ok? ==>
      && Rectangular(r.value)
      && Height(r.value) == Height(blocks[0])
      && r.value.width == TotalWidth(blocks)
      && forall i :: 0 <= i < Height(blocks[0]) ==> r.value.rows[i] == JoinedRow(blocks, i)
  {
    if |blocks| == 0 then Err(NeedAtLeastOneArray)
    else if !SameHeights(blocks) then Err(DimensionMismatch)
    else
      var h := Height(blocks[0]);
      Ok(Array2(TotalWidth(blocks), seq(h, i requires 0 <= i < h => JoinedRow(blocks, i))))
  }

  /** The rows of all blocks, block after block. */
  function StackedRows<T>(blocks: seq<Array2<T>>): (r: seq<seq<T>>)
    ensures |blocks| > 0 && SameWidths(blocks) && (forall k :: 0 <= k < |blocks| ==> Rectangular(blocks[k])) ==>
      forall j :: 0 <= j < |r| ==> |r[j]| == blocks[0].width
  {
    if blocks == [] then [] else blocks[0].rows + StackedRows(blocks[1..])
  }

  /** `np.concatenate(blocks, axis=0)`: fails unless there is at least one
      block and all blocks have the same number of columns; otherwise the
      rows of the first block, then those of the second, and so on. */
  function ConcatRows<T>(blocks: seq<Array2<T>>): (r: Result<Array2<T>, ValueError>)
    requires forall k :: 0 <= k < |blocks| ==> Rectangular(blocks[k])
    ensures r.Ok? <==> |blocks| > 0 && SameWidths(blocks)
    ensures r == Err(NeedAtLeastOneArray) <==> |blocks| == 0
    ensures r.Ok? ==>
      && Rectangular(r.value)
      && r.value.width == blocks[0].width
      && r.value.rows == StackedRows(blocks)
  {
    if |blocks| == 0 then Err(NeedAtLeastOneArray)
    else if !SameWidths(blocks) then Err(DimensionMismatch)
    else Ok(Array2(blocks[0].width, StackedRows(blocks)))
  }

  /** Stacking two arrays succeeds exactly when their widths agree, and puts
      the rows of the first above those of the second. */
  lemma ConcatTwoRows<T>(top: Array2<T>, bottom: Array2<T>)
    requires Rectangular(top) && Rectangular(bottom)
    ensures ConcatRows([top, bottom]).Ok? <==> top.width == bottom.width
    ensures ConcatRows([top, bottom]).Ok? ==>
      ConcatRows([top, bottom]).value == Array2(top.width, top.rows + bottom.rows)
  {
    assert [top, bottom][1..] == [bottom];
    assert [bottom][1..] == [];
    assert StackedRows([bottom]) == bottom.rows;
    assert SameWidths([top, bottom]) <==> top.width == bottom.width;
  }
}
