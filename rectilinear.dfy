/** Rectilinear grids (`vtkRectilinearGrid`) as wrapped by
    vtk_override/datamodel/rectilinear.py: one coordinate array per axis, dimensions that
    follow the coordinate lengths, and setters for `dimensions` and `points` that refuse. */
module Rectilinear {
  import opened Wrappers
  import Grid

  /** VTK's default coordinate array for an axis: the single coordinate 0.0. */
  const DefaultCoordinates: seq<real> := [0.0]

  /** The `meshgrid` property, `numpy.meshgrid(x, y, z, indexing="ij")`: three arrays of shape
      (len x, len y, len z), each holding the coordinate of its own axis. */
  function MeshgridArrays(xs: seq<real>, ys: seq<real>, zs: seq<real>)
    : (m: (seq<seq<seq<real>>>, seq<seq<seq<real>>>, seq<seq<seq<real>>>))
    ensures |m.0| == |xs| && |m.1| == |xs| && |m.2| == |xs|
    ensures forall i :: 0 <= i < |xs| ==> |m.0[i]| == |ys| && |m.1[i]| == |ys| && |m.2[i]| == |ys|
    ensures forall i, j :: 0 <= i < |xs| && 0 <= j < |ys| ==>
              |m.0[i][j]| == |zs| && |m.1[i][j]| == |zs| && |m.2[i][j]| == |zs|
    ensures forall i, j, k :: 0 <= i < |xs| && 0 <= j < |ys| && 0 <= k < |zs| ==>
              m.0[i][j][k] == xs[i] && m.1[i][j][k] == ys[j] && m.2[i][j][k] == zs[k]
  {
    (Cube(|xs|, |ys|, |zs|, (i, j, k) => if 0 <= i < |xs| then xs[i] else 0.0),
     Cube(|xs|, |ys|, |zs|, (i, j, k) => if 0 <= j < |ys| then ys[j] else 0.0),
     Cube(|xs|, |ys|, |zs|, (i, j, k) => if 0 <= k < |zs| then zs[k] else 0.0))
  }

  /** An nx x ny x nz array whose entry (i, j, k) is `f(i, j, k)`. */
  function Cube(nx: nat, ny: nat, nz: nat, f: (int, int, int) -> real): (c: seq<seq<seq<real>>>)
    ensures |c| == nx
    ensures forall i :: 0 <= i < nx ==> |c[i]| == ny
    ensures forall i, j :: 0 <= i < nx && 0 <= j < ny ==> |c[i][j]| == nz
    ensures forall i, j, k :: 0 <= i < nx && 0 <= j < ny && 0 <= k < nz ==> c[i][j][k] == f(i, j, k)
  {
    seq(nx, i => seq(ny, j => seq(nz, k => f(i, j, k))))
  }

  /** The `points` property: the meshgrid raveled in Fortran order, one row per point. */
  function PointsOf(xs: seq<real>, ys: seq<real>, zs: seq<real>): (pts: seq<Grid.Point3>)
    ensures |pts| == |xs| * |ys| * |zs|
  {
    Grid.Meshgrid(xs, ys, zs)
  }

  lemma LastIndex(nx: nat, ny: nat, nz: nat)
    requires nx > 0 && ny > 0 && nz > 0
    ensures nx - 1 + nx * (ny - 1 + ny * (nz - 1)) == nx * ny * nz - 1
  {
    var q := ny * nz;
    assert ny * (nz - 1) == q - ny;
    assert ny - 1 + ny * (nz - 1) == q - 1;
    assert nx * (q - 1) == nx * q - nx;
    assert nx * q == nx * ny * nz;
  }

  /** The first point is the lowest coordinate of every axis, the last the highest. */
  lemma MeshgridCorners(xs: seq<real>, ys: seq<real>, zs: seq<real>)
    ensures var m := Grid.Meshgrid(xs, ys, zs);
            m != [] ==> m[0] == (xs[0], ys[0], zs[0])
                        && m[|m| - 1] == (xs[|xs| - 1], ys[|ys| - 1], zs[|zs| - 1])
  {
    var nx, ny, nz := |xs|, |ys|, |zs|;
    if Grid.Meshgrid(xs, ys, zs) != [] {
      assert nx > 0 && ny > 0 && nz > 0;
      Grid.MeshgridLayout(xs, ys, zs, 0, 0, 0);
      Grid.MeshgridLayout(xs, ys, zs, nx - 1, ny - 1, nz - 1);
      LastIndex(nx, ny, nz);
    }
  }

  /** Row `p = i + nx*(j + ny*k)` of the points is entry (i, j, k) of the three meshgrid
      arrays, and there are `nx*ny*nz` rows: x varies fastest, then y, then z. */
  lemma PointsRavelMeshgrid(xs: seq<real>, ys: seq<real>, zs: seq<real>, i: nat, j: nat, k: nat, p: nat)
    requires i < |xs| && j < |ys| && k < |zs|
    requires p == i + |xs| * (j + |ys| * k)
    ensures |PointsOf(xs, ys, zs)| == |xs| * |ys| * |zs|
    ensures p < |PointsOf(xs, ys, zs)|
    ensures var m := MeshgridArrays(xs, ys, zs);
            PointsOf(xs, ys, zs)[p] == (m.0[i][j][k], m.1[i][j][k], m.2[i][j][k])
  {
    Grid.MeshgridLayout(xs, ys, zs, i, j, k);
  }

  /** The grid of the docstring: two coordinates, -10 and 0, on every axis give eight points
      in this order. */
  lemma DocstringPoints(r: seq<real>)
    requires r == [-10.0, 0.0]
    ensures PointsOf(r, r, r) == [(-10.0, -10.0, -10.0), (0.0, -10.0, -10.0),
                                  (-10.0, 0.0, -10.0), (0.0, 0.0, -10.0),
                                  (-10.0, -10.0, 0.0), (0.0, -10.0, 0.0),
                                  (-10.0, 0.0, 0.0), (0.0, 0.0, 0.0)]
  {
    var pts := PointsOf(r, r, r);
    assert |pts| == 8;
    Grid.MeshgridLayout(r, r, r, 0, 0, 0);
    Grid.MeshgridLayout(r, r, r, 1, 0, 0);
    Grid.MeshgridLayout(r, r, r, 0, 1, 0);
    Grid.MeshgridLayout(r, r, r, 1, 1, 0);
    Grid.MeshgridLayout(r, r, r, 0, 0, 1);
    Grid.MeshgridLayout(r, r, r, 1, 0, 1);
    Grid.MeshgridLayout(r, r, r, 0, 1, 1);
    Grid.MeshgridLayout(r, r, r, 1, 1, 1);
  }

  /** A wrapped `vtkRectilinearGrid`: its three coordinate arrays, the dimensions VTK stores
      alongside them, and a modification counter bumped by the wrapper's `Modified()` calls. */
  class RectilinearGrid {
    var xs: seq<real>
    var ys: seq<real>
    var zs: seq<real>
    var dimensions: (int, int, int)
    var mtime: nat

    /** The dimensions agree with the coordinate lengths, as every coordinate setter leaves
        them. */
    predicate Consistent()
      reads this
    {
      dimensions == (|xs|, |ys|, |zs|)
    }

    /** `RectilinearGrid(x=None, y=None, z=None)`: each given axis goes through its setter;
        when at least one is given the dimensions are brought up to date, otherwise VTK's
        defaults (one coordinate 0.0 per axis, dimensions (0, 0, 0)) are left untouched. */
    constructor (x: Option<seq<real>>, y: Option<seq<real>>, z: Option<seq<real>>)
      ensures xs == (if x.Some? then x.value else DefaultCoordinates)
      ensures ys == (if y.Some? then y.value else DefaultCoordinates)
      ensures zs == (if z.Some? then z.value else DefaultCoordinates)
      ensures x.None? && y.None? && z.None? ==> dimensions == (0, 0, 0)
      ensures Consistent() <==> x.Some? || y.Some? || z.Some?
      ensures mtime == (if x.Some? then 1 else 0) + (if y.Some? then 1 else 0) + (if z.Some? then 1 else 0)
    {
      xs, ys, zs := DefaultCoordinates, DefaultCoordinates, DefaultCoordinates;
      dimensions := (0, 0, 0);
      mtime := 0;
      new;
      if x.Some? {
        SetX(x.value);
      }
      if y.Some? {
        SetY(y.value);
      }
      if z.Some? {
        SetZ(z.value);
      }
      if x.Some? || y.Some? || z.Some? {
        UpdateDimensions();
      }
    }

    /** The `dimensions` property (`GetDimensions()`). */
    function Dimensions(): (d: (int, int, int))
      reads this
      ensures Consistent() ==> d == (|xs|, |ys|, |zs|)
    {
      dimensions
    }

    /** The `x`, `y` and `z` properties: the coordinate arrays as stored. */
    function X(): (c: seq<real>)
      reads this
      ensures Consistent() ==> |c| == dimensions.0
    {
      xs
    }

    function Y(): (c: seq<real>)
      reads this
      ensures Consistent() ==> |c| == dimensions.1
    {
      ys
    }

    function Z(): (c: seq<real>)
      reads this
      ensures Consistent() ==> |c| == dimensions.2
    {
      zs
    }

    /** The `points` property of this grid. */
    function Points(): (pts: seq<Grid.Point3>)
      reads this
      ensures |pts| == |xs| * |ys| * |zs|
      ensures Consistent() ==> |pts| == dimensions.0 * dimensions.1 * dimensions.2
    {
      PointsOf(xs, ys, zs)
    }

    /** `_update_dimensions`: `SetDimensions(len x, len y, len z)`. */
    method UpdateDimensions()
      modifies this
      ensures Consistent()
      ensures xs == old(xs) && ys == old(ys) && zs == old(zs) && mtime == old(mtime)
    {
      dimensions := (|xs|, |ys|, |zs|);
    }

    /** The `x` setter: replace the X coordinates, bring the dimensions up to date, then
        `Modified()`. */
    method SetX(coords: seq<real>)
      modifies this
      ensures xs == coords && ys == old(ys) && zs == old(zs)
      ensures Consistent() && dimensions == (|coords|, |old(ys)|, |old(zs)|)
      ensures mtime == old(mtime) + 1
    {
      xs := coords;
      UpdateDimensions();
      mtime := mtime + 1;
    }

    /** The `y` setter. */
    method SetY(coords: seq<real>)
      modifies this
      ensures ys == coords && xs == old(xs) && zs == old(zs)
      ensures Consistent() && dimensions == (|old(xs)|, |coords|, |old(zs)|)
      ensures mtime == old(mtime) + 1
    {
      ys := coords;
      UpdateDimensions();
      mtime := mtime + 1;
    }

    /** The `z` setter. */
    method SetZ(coords: seq<real>)
      modifies this
      ensures zs == coords && xs == old(xs) && ys == old(ys)
      ensures Consistent() && dimensions == (|old(xs)|, |old(ys)|, |coords|)
      ensures mtime == old(mtime) + 1
    {
      zs := coords;
      UpdateDimensions();
      mtime := mtime + 1;
    }

    /** The `dimensions` setter: the dimensions are implied by the coordinates, so assigning
        them raises AttributeError and the grid is not touched. */
    method SetDimensions(dims: (int, int, int)) returns (r: Outcome)
      ensures r == Fail(AttributeError)
    {
      r := Fail(AttributeError);
    }

    /** The `points` setter: points are defined axis by axis, so assigning them raises
        AttributeError and the grid is not touched. */
    method SetPoints(points: seq<Grid.Point3>) returns (r: Outcome)
      ensures r == Fail(AttributeError)
    {
      r := Fail(AttributeError);
    }
  }

  /** A grid built from its three axes has dimensions equal to their lengths and a point for
      every combination of coordinates, the x coordinate varying fastest. */
  method ConstructedLayout(x: seq<real>, y: seq<real>, z: seq<real>, i: nat, j: nat, k: nat)
      returns (grid: RectilinearGrid)
    requires i < |x| && j < |y| && k < |z|
    ensures grid.Dimensions() == (|x|, |y|, |z|)
    ensures i + |x| * (j + |y| * k) < |grid.Points()|
    ensures grid.Points()[i + |x| * (j + |y| * k)] == (x[i], y[j], z[k])
  {
    grid := new RectilinearGrid(Some(x), Some(y), Some(z));
    GridLayout(grid, x, y, z, i, j, k);
  }

  /** Point `i + nx*(j + ny*k)` of a grid over `x`, `y`, `z` is `(x[i], y[j], z[k])`. */
  lemma GridLayout(grid: RectilinearGrid, x: seq<real>, y: seq<real>, z: seq<real>, i: nat, j: nat, k: nat)
    requires grid.xs == x && grid.ys == y && grid.zs == z
    requires i < |x| && j < |y| && k < |z|
    ensures i + |x| * (j + |y| * k) < |grid.Points()|
    ensures grid.Points()[i + |x| * (j + |y| * k)] == (x[i], y[j], z[k])
  {
    Grid.MeshgridLayout(x, y, z, i, j, k);
  }
}
