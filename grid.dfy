/** The implicit point layout shared by image data and rectilinear grids: the points of a
    structured grid are all (x[i], y[j], z[k]) with i varying fastest, then j, then k
    (`numpy.meshgrid(..., indexing="ij")` raveled in Fortran order). */
module Grid {

  type Point3 = (real, real, real)

  lemma {:induction false} MulLe(a: int, b: int, c: nat)
    requires a <= b
    ensures a * c <= b * c
  {
    if c > 0 {
      MulLe(a, b, c - 1);
      assert a * c == a * (c - 1) + a;
      assert b * c == b * (c - 1) + b;
    }
  }

  lemma DivModUnique(p: int, m: int, q: int, r: int)
    requires m > 0 && 0 <= r < m && p == q * m + r
    ensures p / m == q && p % m == r
  {
    var q', r' := p / m, p % m;
    assert p == q' * m + r' && 0 <= r' < m;
    if q' > q {
      assert (q + 1) * m == q * m + m;
      MulLe(q + 1, q', m);
    } else if q' < q {
      assert (q' + 1) * m == q' * m + m;
      MulLe(q' + 1, q, m);
    }
  }

  lemma DivBelow(p: int, m: int, n: int)
    requires m > 0 && 0 <= p < m * n
    ensures 0 <= p / m < n
  {
    var q, r := p / m, p % m;
    assert p == q * m + r;
  }

  /** Row-major index arithmetic: `i + n*q` stays below `n*m`. */
  lemma IndexBelow(i: nat, q: nat, n: nat, m: nat)
    requires i < n && q < m
    ensures i + n * q < n * m
  {
    assert n * (q + 1) == n * q + n;
    MulLe(q + 1, m, n);
    assert (q + 1) * n == n * (q + 1) && m * n == n * m;
  }

  /** Index arithmetic that keeps every subscript of the meshgrid in range. */
  lemma MeshIndex(p: nat, nx: nat, ny: nat, nz: nat)
    requires p < nx * ny * nz
    ensures nx > 0 && ny > 0 && nx * ny > 0
    ensures 0 <= p % nx < nx && 0 <= (p / nx) % ny < ny && 0 <= p / (nx * ny) < nz
  {
    if nx == 0 || ny == 0 {
      assert false;
    }
    DivBelow(p, nx * ny, nz);
  }

  /** All grid points, x index fastest. */
  function Meshgrid(xs: seq<real>, ys: seq<real>, zs: seq<real>): (m: seq<Point3>)
    ensures |m| == |xs| * |ys| * |zs|
  {
    var nx, ny, nz := |xs|, |ys|, |zs|;
    seq(nx * ny * nz, p requires 0 <= p < nx * ny * nz =>
      MeshIndex(p, nx, ny, nz);
      (xs[p % nx], ys[(p / nx) % ny], zs[p / (nx * ny)]))
  }

  /** Row `i + nx*(j + ny*k)` of the points is (x[i], y[j], z[k]): x varies fastest, then y, then z. */
  lemma MeshgridLayout(xs: seq<real>, ys: seq<real>, zs: seq<real>, i: nat, j: nat, k: nat)
    requires i < |xs| && j < |ys| && k < |zs|
    ensures |Meshgrid(xs, ys, zs)| == |xs| * |ys| * |zs|
    ensures i + |xs| * (j + |ys| * k) < |xs| * |ys| * |zs|
    ensures Meshgrid(xs, ys, zs)[i + |xs| * (j + |ys| * k)] == (xs[i], ys[j], zs[k])
  {
    var nx, ny, nz := |xs|, |ys|, |zs|;
    var q := j + ny * k;
    var p := i + nx * q;
    IndexBelow(j, k, ny, nz);
    IndexBelow(i, q, nx, ny * nz);
    assert nx * (ny * nz) == nx * ny * nz;
    assert p == q * nx + i;
    DivModUnique(p, nx, q, i);
    assert q == k * ny + j;
    DivModUnique(q, ny, k, j);
    assert p == k * (nx * ny) + (i + nx * j) by {
      assert nx * q == nx * j + nx * (ny * k);
      assert nx * (ny * k) == k * (nx * ny);
    }
    IndexBelow(i, j, nx, ny);
    DivModUnique(p, nx * ny, k, i + nx * j);
  }
}
