/** Attribute tables (vtk_override/datamodel/fields.py, `FieldDataBase`): an ordered list of
    named arrays attached to a dataset, with indexed and named lookup and a `set_array` that
    fits its input to the number of tuples the table's association demands. */
module Fields {
  import opened Wrappers
  import opened Shapes
  import Grid

  /** The attribute association of a table (`vtkDataObject.POINT`, `CELL`, `FIELD`, `ROW`), or
      no association at all. */
  datatype Association = Point | Cell | Field | Row | Unset

  /** The counts the owning dataset reports. */
  datatype Counts = Counts(points: nat, cells: nat, rows: nat, columns: nat)

  /** One stored array: its name (VTK names may be absent), its values, and whether it is a
      `vtkDataArray` (numeric) rather than another abstract array such as a string array. */
  datatype Column = Column(name: Option<string>, array: NdArray, isData: bool)

  /** `get_array`'s argument: an integer index or an array name. */
  datatype Key = Index(i: int) | Name(s: string)

  /** What a lookup returns: a data array tagged with the table's association, another abstract
      array as it is, or `NoneArray`. */
  datatype Got = Data(column: Column, association: Association) | Abstract(column: Column) | NoneArray

  /** Memory layout of an ndarray argument: element size and strides in bytes, and NumPy's
      `flags.contiguous`. */
  datatype Layout = Layout(itemSize: nat, strides: seq<int>, contiguous: bool)

  /** `set_array`'s value argument. */
  datatype Value =
    | NoneValue                         // dsa.NoneArray
    | PyScalar(x: Scalar)               // anything that is not an ndarray
    | Nd(a: NdArray, layout: Layout)

  predicate WellFormed(v: Value) {
    v.Nd? ==> v.a.Valid() && v.layout.itemSize > 0 && |v.layout.strides| == v.a.Ndim()
  }

  /** A name Python finds truthy: present and non-empty. */
  predicate HasName(c: Column) {
    c.name.Some? && c.name.value != ""
  }

  function Tag(c: Column, assoc: Association): (g: Got)
    ensures g.Data? || g.Abstract?
    ensures g.column == c
  {
    if c.isData then Data(c, assoc) else Abstract(c)
  }

  // ---------------------------------------------------------------------------------
  // Lookup by name, and VTK's AddArray

  /** Index of the first array called `s` (VTK's `GetAbstractArray(name)`). */
  function FirstNamed(cols: seq<Column>, s: string): (r: Option<nat>)
    ensures r.Some? ==> r.value < |cols| && cols[r.value].name == Some(s)
                        && forall j :: 0 <= j < r.value ==> cols[j].name != Some(s)
    ensures r.None? ==> forall j :: 0 <= j < |cols| ==> cols[j].name != Some(s)
  {
    if cols == [] then None
    else if cols[0].name == Some(s) then Some(0)
    else
      var r := FirstNamed(cols[1..], s);
      if r.None? then None else Some(r.value + 1)
  }

  /** `AddArray`: a named array replaces the first array of the same name, otherwise (and
      always when unnamed) it is appended. */
  function Store(cols: seq<Column>, c: Column): (r: seq<Column>)
    ensures c in r && |cols| <= |r| <= |cols| + 1
    ensures forall k :: 0 <= k < |cols| && cols[k].name != c.name ==> r[k] == cols[k]
  {
    if c.name.Some? && FirstNamed(cols, c.name.value).Some? then
      var i := FirstNamed(cols, c.name.value).value;
      assert cols[i := c][i] == c;
      cols[i := c]
    else
      cols + [c]
  }

  /** Named arrays carry distinct names. */
  predicate UniqueNames(cols: seq<Column>) {
    forall i, j :: 0 <= i < j < |cols| && cols[i].name.Some? ==> cols[i].name != cols[j].name
  }

  /** After storing a named array, looking its name up finds exactly that array. */
  lemma StoreThenFind(cols: seq<Column>, c: Column)
    requires c.name.Some?
    ensures FirstNamed(Store(cols, c), c.name.value).Some?
    ensures Store(cols, c)[FirstNamed(Store(cols, c), c.name.value).value] == c
  {
    var s := c.name.value;
    var out := Store(cols, c);
    var f := FirstNamed(cols, s);
    if f.Some? {
      assert out[f.value] == c;
      assert forall j :: 0 <= j < f.value ==> out[j] == cols[j];
      FirstNamedIs(out, s, f.value);
    } else {
      assert out[|cols|] == c;
      assert forall j :: 0 <= j < |cols| ==> out[j] == cols[j];
      FirstNamedIs(out, s, |cols|);
    }
  }

  lemma FirstNamedIs(cols: seq<Column>, s: string, k: nat)
    requires k < |cols| && cols[k].name == Some(s)
    requires forall j :: 0 <= j < k ==> cols[j].name != Some(s)
    ensures FirstNamed(cols, s) == Some(k)
  {
  }

  /** Storing keeps every other array, replaces at most one, and keeps names unique. */
  lemma StoreKeepsUnique(cols: seq<Column>, c: Column)
    requires UniqueNames(cols)
    ensures UniqueNames(Store(cols, c))
    ensures |cols| <= |Store(cols, c)| <= |cols| + 1
    ensures forall j :: 0 <= j < |cols| && cols[j].name != c.name ==> Store(cols, c)[j] == cols[j]
  {
    var out := Store(cols, c);
    if c.name.Some? && FirstNamed(cols, c.name.value).Some? {
      var k := FirstNamed(cols, c.name.value).value;
      forall i, j | 0 <= i < j < |out| && out[i].name.Some?
        ensures out[i].name != out[j].name
      {
        if i == k {
          assert cols[j].name != cols[k].name;
        } else if j == k {
          assert cols[i].name != cols[k].name;
        }
      }
    } else {
      forall i, j | 0 <= i < j < |out| && out[i].name.Some?
        ensures out[i].name != out[j].name
      {
        if j == |cols| && c.name.Some? {
          assert cols[i].name != Some(c.name.value);
        }
      }
    }
  }

  // ---------------------------------------------------------------------------------
  // keys() and values()

  /** The names `keys()` lists: array names in index order, skipping unnamed arrays. */
  function Names(cols: seq<Column>): (ks: seq<string>)
    ensures |ks| <= |cols|
    ensures forall k :: 0 <= k < |ks| ==> ks[k] != ""
    ensures (forall j :: 0 <= j < |cols| ==> HasName(cols[j])) ==> |ks| == |cols|
  {
    if cols == [] then []
    else
      var last := cols[|cols| - 1];
      var init := cols[..|cols| - 1];
      assert forall j :: 0 <= j < |init| ==> init[j] == cols[j];
      Names(init) + (if HasName(last) then [last.name.value] else [])
  }

  /** The arrays `values()` lists: `get_array(i)` for every index whose array has a name. */
  function ValuesOf(cols: seq<Column>, assoc: Association): (vs: seq<Got>)
    ensures forall k :: 0 <= k < |vs| ==> vs[k].Data? || vs[k].Abstract?
  {
    if cols == [] then []
    else
      var last := cols[|cols| - 1];
      ValuesOf(cols[..|cols| - 1], assoc) + (if HasName(last) then [Tag(last, assoc)] else [])
  }

  /** `values()` is parallel to `keys()`: same length, and the k-th value is the array named by
      the k-th key. */
  lemma {:induction false} KeysValuesParallel(cols: seq<Column>, assoc: Association)
    ensures |ValuesOf(cols, assoc)| == |Names(cols)|
    ensures forall k :: 0 <= k < |Names(cols)| ==>
              ValuesOf(cols, assoc)[k].column.name == Some(Names(cols)[k])
  {
    if cols != [] {
      KeysValuesParallel(cols[..|cols| - 1], assoc);
    }
  }

  /** A string is a key exactly when it is the non-empty name of some stored array. */
  lemma {:induction false} KeysMembership(cols: seq<Column>, s: string)
    ensures s in Names(cols) <==> s != "" && exists i :: 0 <= i < |cols| && cols[i].name == Some(s)
  {
    if cols != [] {
      var init := cols[..|cols| - 1];
      KeysMembership(init, s);
      if s in Names(cols) && s !in Names(init) {
        assert cols[|cols| - 1].name == Some(s);
      }
      if s != "" && exists i :: 0 <= i < |cols| && cols[i].name == Some(s) {
        var i :| 0 <= i < |cols| && cols[i].name == Some(s);
        if i < |cols| - 1 {
          assert init[i].name == Some(s);
        }
      }
    }
  }

  // ---------------------------------------------------------------------------------
  // set_array: the required length and the fix-ups

  /** The number of tuples `set_array` requires: the owner's point, cell or row count for a
      point, cell or row table (a row table only when it has columns), otherwise 1 for a
      non-array and the leading dimension of an array (so such arrays are never refit). A
      table without an owner raises AttributeError when it needs the owner's count; a 0-d
      array has no leading dimension (IndexError). */
  function RequiredLength(assoc: Association, owner: Option<Counts>, v: Value): (r: Result<nat>)
    requires !v.NoneValue?
    ensures owner.Some? && assoc == Point ==> r == Ok(owner.value.points)
    ensures owner.Some? && assoc == Cell ==> r == Ok(owner.value.cells)
    ensures assoc in {Point, Cell, Row} && owner.None? ==> r == Err(AttributeError)
    ensures r.Err? ==> r.error in {AttributeError, IndexError}
    ensures r == Err(IndexError) <==>
              v.Nd? && v.a.Ndim() == 0
              && (assoc !in {Point, Cell, Row} || (assoc == Row && owner.Some? && owner.value.columns == 0))
    ensures assoc !in {Point, Cell, Row} ==> r == if v.PyScalar? then Ok(1)
                                                   else if v.a.Ndim() == 0 then Err(IndexError)
                                                   else Ok(v.a.shape[0])
  {
    if assoc == Point then
      if owner.None? then Err(AttributeError) else Ok(owner.value.points)
    else if assoc == Cell then
      if owner.None? then Err(AttributeError) else Ok(owner.value.cells)
    else if assoc == Row && owner.None? then
      Err(AttributeError)
    else if assoc == Row && owner.value.columns > 0 then
      Ok(owner.value.rows)
    else if v.PyScalar? then
      Ok(1)
    else if v.a.Ndim() == 0 then
      Err(IndexError)
    else
      Ok(v.a.shape[0])
  }

  /** `numpy.empty(n, dtype).fill(x)`. */
  function Fill(x: Scalar, d: DType, n: nat): (a: NdArray)
    ensures a.Valid() && a.shape == [n] && a.dtype == d
    ensures |a.data| == n && forall k :: 0 <= k < n ==> a.data[k] == x
  {
    assert Prod([n]) == n by { assert [n][..0] == []; }
    NdArray([n], seq(n, _ => x), d)
  }

  /** `n` copies of `d`, one after the other. */
  function Repeat(d: seq<Scalar>, n: nat): (r: seq<Scalar>)
    ensures |r| == n * |d|
  {
    if |d| == 0 then []
    else
      seq(n * |d|, p requires 0 <= p < n * |d| => d[p % |d|])
  }

  /** `tmparray[:] = narray.flatten()` on an `(n, prod(shape))` array: every row is the
      flattened input. */
  function Broadcast(a: NdArray, n: nat): (r: NdArray)
    requires a.Valid()
    ensures r.Valid() && r.shape == [n, |a.data|] && r.dtype == a.dtype
  {
    Grid.MulLe(0, 0, 0);
    ProdPair(n, |a.data|);
    NdArray([n, |a.data|], Repeat(a.data, n), a.dtype)
  }

  /** Position `p` of the `(n, b, a)` transpose of an `(n, a, b)` array, read from the original. */
  function TransposedIndex(p: nat, n: nat, a: nat, b: nat): (q: nat)
    requires p < n * (a * b)
    ensures q < n * (a * b)
  {
    var m := a * b;
    PositiveFactors(p, n, a, b);
    var i, rem := p / m, p % m;
    Grid.DivBelow(p, m, n);
    Grid.DivBelow(rem, a, b);
    var j, k := rem / a, rem % a;
    MatrixIndexBelow(i, k, j, n, a, b);
    i * m + k * b + j
  }

  lemma PositiveFactors(p: nat, n: nat, a: nat, b: nat)
    requires p < n * (a * b)
    ensures a * b > 0 && a > 0
  {
  }

  /** Entry `(i, k, j)` of an `(n, a, b)` array lies inside it. */
  lemma MatrixIndexBelow(i: nat, k: nat, j: nat, n: nat, a: nat, b: nat)
    requires i < n && k < a && j < b
    ensures i * (a * b) + k * b + j < n * (a * b)
  {
    var m := a * b;
    Grid.IndexBelow(j, k, b, a);
    assert b * k == k * b && b * a == m;
    Grid.IndexBelow(k * b + j, i, m, n);
    assert m * i == i * m && m * n == n * m;
  }

  /** The elements of `narray.transpose(0, 2, 1)` in C order. */
  function TransposeInner(d: seq<Scalar>, n: nat, a: nat, b: nat): (t: seq<Scalar>)
    requires |d| == n * (a * b)
    ensures |t| == |d|
  {
    seq(|d|, p requires 0 <= p < |d| => d[TransposedIndex(p, n, a, b)])
  }

  /** The memory-order test on an array of matrices: the last two axes have strides of 3 and 1
      elements, or 1 and 3 elements in a non-contiguous array. */
  function StrideFires(l: Layout): (fires: bool)
    requires |l.strides| == 3
    ensures fires ==> {l.strides[1], l.strides[2]} == {l.itemSize, 3 * l.itemSize}
    ensures fires && l.contiguous ==> l.strides[2] == l.itemSize
  {
    (l.strides[1] == 3 * l.itemSize && l.strides[2] == l.itemSize)
    || (l.strides[1] == l.itemSize && l.strides[2] == 3 * l.itemSize && !l.contiguous)
  }

  /** An `(n, a, b)` array of matrices stored as `(n, a*b)`, transposed first when the stride
      test fires. */
  function Matrices(a: NdArray, l: Layout): (r: NdArray)
    requires a.Valid() && a.Ndim() == 3 && |l.strides| == 3
    ensures r.Valid() && r.dtype == a.dtype && r.shape == [a.shape[0], a.shape[1] * a.shape[2]]
  {
    var n, p, q := a.shape[0], a.shape[1], a.shape[2];
    assert a.shape == [n, p, q];
    ProdTriple(n, p, q);
    ProdPair(n, p * q);
    NdArray([n, p * q], if StrideFires(l) then TransposeInner(a.data, n, p, q) else a.data, a.dtype)
  }

  /** The array `set_array` hands to VTK for a value and a required length. */
  function Normalize(v: Value, n: nat): (r: NdArray)
    requires WellFormed(v) && !v.NoneValue?
    requires v.Nd? ==> v.a.Ndim() > 0 || |v.a.data| == 1
    ensures r.Valid()
  {
    if v.PyScalar? then Fill(v.x, KindOf(v.x), n)
    else if v.a.Ndim() == 0 then Fill(v.a.data[0], v.a.dtype, n)
    else if v.a.shape[0] != n then Broadcast(v.a, n)
    else if v.a.Ndim() == 3 then Matrices(v.a, v.layout)
    else v.a
  }

  /** What `set_array` stores for a value other than `NoneArray`, or the error it raises. */
  function Prepare(assoc: Association, owner: Option<Counts>, v: Value): (r: Result<NdArray>)
    requires WellFormed(v) && !v.NoneValue?
    ensures r.Err? <==> RequiredLength(assoc, owner, v).Err?
    ensures r.Err? ==> r.error == RequiredLength(assoc, owner, v).error
    ensures r.Ok? ==> r.value.Valid() && r.value.dtype == (if v.PyScalar? then KindOf(v.x) else v.a.dtype)
  {
    var len := RequiredLength(assoc, owner, v);
    if len.Err? then Err(len.error)
    else
      assert v.Nd? && v.a.Ndim() == 0 ==> Prod(v.a.shape) == 1;
      Ok(Normalize(v, len.value))
  }

  // ---------------------------------------------------------------------------------
  // Properties of set_array

  /** The stored array has as many tuples as the association requires: the owner's points,
      cells or rows, and otherwise one tuple per element of the input's leading axis (or one
      tuple for a scalar). */
  lemma LeadingDimension(assoc: Association, owner: Option<Counts>, v: Value)
    requires WellFormed(v) && !v.NoneValue?
    ensures Prepare(assoc, owner, v).Ok? ==> Prepare(assoc, owner, v).value.Ndim() >= 1
    ensures assoc == Point && owner.Some? ==>
              Prepare(assoc, owner, v).Ok? && Prepare(assoc, owner, v).value.shape[0] == owner.value.points
    ensures assoc == Cell && owner.Some? ==>
              Prepare(assoc, owner, v).Ok? && Prepare(assoc, owner, v).value.shape[0] == owner.value.cells
    ensures assoc == Row && owner.Some? && owner.value.columns > 0 ==>
              Prepare(assoc, owner, v).Ok? && Prepare(assoc, owner, v).value.shape[0] == owner.value.rows
    ensures assoc in {Point, Cell, Row} && owner.None? ==> Prepare(assoc, owner, v) == Err(AttributeError)
    ensures (assoc in {Field, Unset} || (assoc == Row && owner.Some? && owner.value.columns == 0)) ==>
              && (v.PyScalar? ==> Prepare(assoc, owner, v).Ok? && Prepare(assoc, owner, v).value.shape == [1])
              && (v.Nd? && v.a.Ndim() == 0 ==> Prepare(assoc, owner, v) == Err(IndexError))
              && (v.Nd? && v.a.Ndim() > 0 && v.a.Ndim() != 3 ==> Prepare(assoc, owner, v) == Ok(v.a))
  {
  }

  /** A scalar, or a 0-d array, becomes a 1-D array of the required length holding that value
      everywhere. */
  lemma ScalarBroadcast(assoc: Association, owner: Option<Counts>, v: Value)
    requires WellFormed(v) && (v.PyScalar? || (v.Nd? && v.a.Ndim() == 0))
    requires Prepare(assoc, owner, v).Ok?
    ensures var r := Prepare(assoc, owner, v).value;
            var x := if v.PyScalar? then v.x else v.a.data[0];
            && r.shape == [RequiredLength(assoc, owner, v).value]
            && r.dtype == (if v.PyScalar? then KindOf(v.x) else v.a.dtype)
            && forall k :: 0 <= k < |r.data| ==> r.data[k] == x
  {
    assert v.Nd? ==> Prod(v.a.shape) == 1;
  }

  /** An array whose leading dimension is not the required length `n` becomes an
      `n x prod(shape)` array each of whose rows is the whole flattened input. */
  lemma VectorBroadcast(a: NdArray, l: Layout, n: nat, row: nat)
    requires WellFormed(Nd(a, l)) && a.Ndim() > 0 && a.shape[0] != n && row < n
    ensures Normalize(Nd(a, l), n).shape == [n, Prod(a.shape)]
    ensures (row + 1) * |a.data| <= |Normalize(Nd(a, l), n).data|
    ensures Normalize(Nd(a, l), n).data[row * |a.data| .. (row + 1) * |a.data|] == a.data
  {
    assert Normalize(Nd(a, l), n) == Broadcast(a, n);
    RepeatRow(a.data, n, row);
  }

  /** Row `row` of `n` repetitions of `d` is `d` itself. */
  lemma RepeatRow(d: seq<Scalar>, n: nat, row: nat)
    requires row < n
    ensures (row + 1) * |d| <= |Repeat(d, n)|
    ensures Repeat(d, n)[row * |d| .. (row + 1) * |d|] == d
  {
    var m := |d|;
    var lo := row * m;
    Grid.MulLe(row + 1, n, m);
    assert (row + 1) * m == lo + m;
    var r := Repeat(d, n);
    forall k | 0 <= k < m
      ensures r[lo + k] == d[k]
    {
      RepeatAt(d, n, row, k);
    }
    SliceIs(r, lo, d);
  }

  /** A slice equals `d` when it has `d`'s length and agrees with it entry by entry. */
  lemma SliceIs<T>(s: seq<T>, lo: nat, d: seq<T>)
    requires lo + |d| <= |s|
    requires forall k :: 0 <= k < |d| ==> s[lo + k] == d[k]
    ensures s[lo .. lo + |d|] == d
  {
  }

  /** Entry `k` of row `row` of the repetitions is entry `k` of `d`. */
  lemma RepeatAt(d: seq<Scalar>, n: nat, row: nat, k: nat)
    requires row < n && k < |d|
    ensures row * |d| + k < |Repeat(d, n)|
    ensures Repeat(d, n)[row * |d| + k] == d[k]
  {
    var m := |d|;
    Grid.IndexBelow(k, row, m, n);
    assert m * row == row * m && m * n == n * m;
    Grid.DivModUnique(row * m + k, m, row, k);
  }

  /** The memory-order test on a C-ordered `(n, a, b)` array fires exactly when `b == 3`. */
  lemma COrderFiresIffLastAxis3(n: nat, a: nat, b: nat, size: nat)
    requires size > 0
    ensures StrideFires(Layout(size, [a * b * size, b * size, size], true)) <==> b == 3
  {
    if b * size == 3 * size && b > 3 {
      Grid.MulLe(4, b, size);
    }
  }

  /** Without the transpose, an `(n, a, b)` array is stored as `(n, a*b)` in C order, so
      reshaping the stored array back to `(n, a, b)` gives the input. */
  lemma MatrixRoundTrip(a: NdArray, l: Layout)
    requires WellFormed(Nd(a, l)) && a.Ndim() == 3 && !StrideFires(l)
    ensures Matrices(a, l).shape == [a.shape[0], a.shape[1] * a.shape[2]]
    ensures Reshape(Matrices(a, l), a.shape) == Ok(a)
  {
  }

  /** With the transpose, row `i` of the stored array is matrix `i` in column-major order:
      entry `(k, j)` of the input sits at `i*a*b + j*a + k`. */
  lemma MatrixTransposed(arr: NdArray, l: Layout, i: nat, k: nat, j: nat, p: nat, q: nat)
    requires WellFormed(Nd(arr, l)) && arr.Ndim() == 3 && StrideFires(l)
    requires i < arr.shape[0] && k < arr.shape[1] && j < arr.shape[2]
    requires p == i * (arr.shape[1] * arr.shape[2]) + j * arr.shape[1] + k
    requires q == i * (arr.shape[1] * arr.shape[2]) + k * arr.shape[2] + j
    ensures p < |Matrices(arr, l).data| && q < |arr.data|
    ensures Matrices(arr, l).data[p] == arr.data[q]
  {
    var n, a, b := arr.shape[0], arr.shape[1], arr.shape[2];
    assert arr.shape == [n, a, b];
    ProdTriple(n, a, b);
    TransposedIndexAt(i, k, j, n, a, b, p);
    MatrixIndexBelow(i, k, j, n, a, b);
    assert Matrices(arr, l).data == TransposeInner(arr.data, n, a, b);
  }

  /** Position `i*a*b + j*a + k` of the transpose reads entry `(i, k, j)` of the original. */
  lemma TransposedIndexAt(i: nat, k: nat, j: nat, n: nat, a: nat, b: nat, p: nat)
    requires i < n && k < a && j < b
    requires p == i * (a * b) + j * a + k
    ensures p < n * (a * b)
    ensures TransposedIndex(p, n, a, b) == i * (a * b) + k * b + j
  {
    var m := a * b;
    var rem := j * a + k;
    Grid.IndexBelow(k, j, a, b);
    assert a * j == j * a;
    Grid.IndexBelow(rem, i, m, n);
    assert m * i == i * m && m * n == n * m;
    Grid.DivModUnique(p, m, i, rem);
    Grid.DivModUnique(rem, a, j, k);
  }

  /** `numpy.prod(shape)`: the number of elements of an array of that shape. */
  method Product(shape: seq<nat>) returns (components: nat)
    ensures components == Prod(shape)
  {
    components := 1;
    for k := 0 to |shape|
      invariant components == Prod(shape[..k])
    {
      assert shape[..k + 1][..k] == shape[..k];
      components := components * shape[k];
    }
    assert shape[..|shape|] == shape;
  }

  /** The body of `set_array` after the required length is known: broadcast or repeat the
      input to that length, then flatten a three-axis input to two axes (transposing the
      inner axes first when the stride check fires). */
  method FixLength(value: Value, arrLength: nat) returns (narray: NdArray)
    requires WellFormed(value) && !value.NoneValue?
    requires value.Nd? ==> value.a.Ndim() > 0 || |value.a.data| == 1
    ensures narray == Normalize(value, arrLength)
  {
    // Fix up the input length
    if value.PyScalar? {
      narray := Fill(value.x, KindOf(value.x), arrLength);
    } else if value.a.Ndim() == 0 {
      assert Prod(value.a.shape) == 1;
      narray := Fill(value.a.data[0], value.a.dtype, arrLength);
    } else if value.a.shape[0] != arrLength {
      var components := Product(value.a.shape);
      ProdPair(arrLength, components);
      narray := NdArray([arrLength, components], Repeat(value.a.data, arrLength), value.a.dtype);
    } else {
      narray := value.a;
    }

    var shape := narray.shape;
    if |shape| == 3 {
      // Only an unmodified input can have three axes.
      assert value.Nd? && narray == value.a;
      assert shape == [shape[0], shape[1], shape[2]];
      ProdTriple(shape[0], shape[1], shape[2]);
      if StrideFires(value.layout) {
        narray := NdArray([shape[0], shape[2], shape[1]],
                          TransposeInner(narray.data, shape[0], shape[1], shape[2]), narray.dtype);
      }
      // ascontiguousarray keeps the elements in the same logical order
      narray := NdArray([shape[0], shape[1] * shape[2]], narray.data, narray.dtype);
    }
  }

  // ---------------------------------------------------------------------------------
  // The table

  class FieldData {
    var arrays: seq<Column>
    const association: Association
    const owner: Option<Counts>

    constructor (association: Association, owner: Option<Counts>)
      ensures arrays == [] && this.association == association && this.owner == owner
    {
      arrays := [];
      this.association := association;
      this.owner := owner;
    }

    /** `get_array`: an integer index at or past the number of arrays raises IndexError, a
        negative one finds nothing; a name finds the first array so called. A data array comes
        back tagged with the table's association, another abstract array as it is, and a miss
        as `NoneArray`. */
    function GetArray(key: Key): (r: Result<Got>)
      reads this
      ensures r.Err? <==> key.Index? && key.i >= |arrays|
      ensures r.Err? ==> r.error == IndexError
      ensures key.Index? && 0 <= key.i < |arrays| ==> r == Ok(Tag(arrays[key.i], association))
      ensures key.Index? && key.i < 0 ==> r == Ok(NoneArray)
      ensures key.Name? ==>
                r.Ok? && (r.value == NoneArray <==> forall j :: 0 <= j < |arrays| ==> arrays[j].name != Some(key.s))
      ensures key.Name? && r != Ok(NoneArray) ==>
                exists j :: 0 <= j < |arrays| && r == Ok(Tag(arrays[j], association))
                            && arrays[j].name == Some(key.s)
                            && forall j' :: 0 <= j' < j ==> arrays[j'].name != Some(key.s)
    {
      match key
      case Index(i) =>
        if i >= |arrays| then Err(IndexError)
        else if i < 0 then Ok(NoneArray)
        else Ok(Tag(arrays[i], association))
      case Name(s) =>
        var f := FirstNamed(arrays, s);
        if f.None? then Ok(NoneArray) else Ok(Tag(arrays[f.value], association))
    }

    /** `keys()`. */
    method Keys() returns (ks: seq<string>)
      ensures ks == Names(arrays)
    {
      ks := [];
      var i := 0;
      while i < |arrays|
        invariant 0 <= i <= |arrays|
        invariant ks == Names(arrays[..i])
      {
        assert arrays[..i + 1][..i] == arrays[..i];
        var c := arrays[i];
        if c.name.Some? && c.name.value != "" {
          ks := ks + [c.name.value];
        }
        i := i + 1;
      }
      assert arrays[..i] == arrays;
    }

    /** `values()`: `get_array(i)` for every index whose array has a name. */
    method Values() returns (vs: seq<Got>)
      ensures vs == ValuesOf(arrays, association)
    {
      vs := [];
      var i := 0;
      while i < |arrays|
        invariant 0 <= i <= |arrays|
        invariant vs == ValuesOf(arrays[..i], association)
      {
        assert arrays[..i + 1][..i] == arrays[..i];
        var a := GetArray(Index(i)).value;
        if HasName(a.column) {
          vs := vs + [a];
        }
        i := i + 1;
      }
      assert arrays[..i] == arrays;
    }

    /** Every key names an array that `get_array` finds, and `values()` lists those arrays in
        the same order. */
    method KeysAndValues() returns (ks: seq<string>, vs: seq<Got>)
      ensures |ks| == |vs|
      ensures forall k :: 0 <= k < |vs| ==> vs[k].Data? || vs[k].Abstract?
      ensures forall k :: 0 <= k < |ks| ==> vs[k].column.name == Some(ks[k])
      ensures forall k :: 0 <= k < |ks| ==> GetArray(Name(ks[k])) != Ok(NoneArray)
    {
      ks := Keys();
      vs := Values();
      KeysValuesParallel(arrays, association);
      forall k | 0 <= k < |ks|
        ensures GetArray(Name(ks[k])) != Ok(NoneArray)
      {
        KeysMembership(arrays, ks[k]);
      }
    }

    /** `set_array(name, narray)`: nothing for `NoneArray`; otherwise find the required length,
        broadcast a scalar or a mismatched array to it, store arrays of matrices as
        `(n, a*b)` (transposing first when the memory-order test fires), and add the result
        under `name`. */
    method SetArray(name: Option<string>, value: Value) returns (r: Outcome)
      requires WellFormed(value)
      modifies this
      ensures value.NoneValue? ==> r == Pass && arrays == old(arrays)
      ensures !value.NoneValue? && Prepare(association, owner, value).Err? ==>
                r == Fail(Prepare(association, owner, value).error) && arrays == old(arrays)
      ensures !value.NoneValue? && Prepare(association, owner, value).Ok? ==>
                r == Pass && arrays == Store(old(arrays), Column(name, Prepare(association, owner, value).value, true))
      ensures r == Pass && !value.NoneValue? && name.Some? ==>
                GetArray(Name(name.value)) == Ok(Data(Column(name, Prepare(association, owner, value).value, true), association))
    {
      if value.NoneValue? {
        return Pass;
      }
      var arrLength: nat;
      if association == Point {
        if owner.None? {
          return Fail(AttributeError);
        }
        arrLength := owner.value.points;
      } else if association == Cell {
        if owner.None? {
          return Fail(AttributeError);
        }
        arrLength := owner.value.cells;
      } else if association == Row && (owner.None? || owner.value.columns > 0) {
        if owner.None? {
          return Fail(AttributeError);
        }
        arrLength := owner.value.rows;
      } else if value.PyScalar? {
        arrLength := 1;
      } else if value.a.Ndim() == 0 {
        return Fail(IndexError);
      } else {
        arrLength := value.a.shape[0];
      }

      if value.Nd? && value.a.Ndim() == 0 {
        assert Prod(value.a.shape) == 1;
      }
      var narray := FixLength(value, arrLength);
      assert narray == Prepare(association, owner, value).value;
      var column := Column(name, narray, true);
      arrays := Store(arrays, column);
      if name.Some? {
        StoreThenFind(old(arrays), column);
      }
      return Pass;
    }
  }
}
