/** Topological dimensions of an explicit structured grid, derived from its extent
    (vtk_override/datamodel/pointset/explicit.py). */
module Explicit {

  /** The extent as VTK reports it: `(i_min, i_max, j_min, j_max, k_min, k_max)`. */
  type Extent = e: seq<int> | |e| == 6 witness [0, 0, 0, 0, 0, 0]

  /** `numpy.reshape(extent, (3, 2))`: one (min, max) row per axis. */
  function Rows(extent: Extent): (rows: seq<seq<int>>)
    ensures |rows| == 3
    ensures forall k :: 0 <= k < 3 ==> rows[k] == [extent[2 * k], extent[2 * k + 1]]
  {
    [extent[0..2], extent[2..4], extent[4..6]]
  }

  /** `numpy.diff(rows, axis=1).flatten()`: max minus min per axis. */
  function Spans(rows: seq<seq<int>>): seq<int>
    requires forall k :: 0 <= k < |rows| ==> |rows[k]| == 2
  {
    seq(|rows|, k requires 0 <= k < |rows| => rows[k][1] - rows[k][0])
  }

  /** `_dimensions` (and the `dimensions` property, which returns it): the number of sampling
      points along I, J and K. */
  function Dimensions(extent: Extent): (dims: (int, int, int))
    ensures dims.0 == extent[1] - extent[0] + 1
    ensures dims.1 == extent[3] - extent[2] + 1
    ensures dims.2 == extent[5] - extent[4] + 1
  {
    var spans := Spans(Rows(extent));
    (spans[0] + 1, spans[1] + 1, spans[2] + 1)
  }

  /** The zero-based extent of a grid with `n` x `m` x `k` sampling points. */
  function ZeroBasedExtent(n: int, m: int, k: int): Extent {
    [0, n - 1, 0, m - 1, 0, k - 1]
  }

  /** An extent `(0, n-1, 0, m-1, 0, k-1)` gives `(n, m, k)`. */
  lemma DimensionsOfZeroBased(n: int, m: int, k: int)
    ensures Dimensions(ZeroBasedExtent(n, m, k)) == (n, m, k)
  {
  }

  /** Only the width of each axis counts: shifting an extent leaves its dimensions unchanged. */
  lemma DimensionsShiftInvariant(extent: Extent, di: int, dj: int, dk: int)
    ensures Dimensions([extent[0] + di, extent[1] + di, extent[2] + dj,
                        extent[3] + dj, extent[4] + dk, extent[5] + dk]) == Dimensions(extent)
  {
  }
}
