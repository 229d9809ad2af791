/** `vtk_ndarray` (vtk_override/utils/ndarray.py): a NumPy array view that remembers the VTK
    array it came from, the dataset that owns it (through a weak reference) and its field
    association, and that marks both modified when written through.

    Memory is an `array<Scalar>` that several views (and a VTK data array) may share; a view
    sees the window `buffer[lo..hi]` of it, flattened. */
module NdArrayView {
  import opened Wrappers
  import opened Shapes
  import opened Arrays

  /** The owning VTK dataset, as far as a view observes it: its modification time, and whether
      it is still alive (a weak reference to a collected dataset no longer resolves). */
  class DataSet {
    var mtime: nat
    var alive: bool

    constructor ()
      ensures mtime == 0 && alive
    {
      mtime := 0;
      alive := true;
    }

    /** `Modified()`: bump the modification time. */
    method Modified()
      modifies this
      ensures mtime == old(mtime) + 1 && alive == old(alive)
    {
      mtime := mtime + 1;
    }
  }

  /** `vtkWeakReference`: `Get()` yields the target only while it is alive. */
  class WeakRef {
    const target: DataSet?

    constructor (d: DataSet?)
      ensures target == d
    {
      target := d;
    }

    function Get(): (d: DataSet?)
      reads this, target
      ensures d != null <==> target != null && target.alive
      ensures d != null ==> d == target
    {
      if target != null && target.alive then target else null
    }
  }

  /** The kinds of `vtkAbstractArray` that `convert_array` tells apart. */
  datatype VtkKind = DataKind | BitKind | StringKind | OtherKind

  /** A VTK array: its values (bits held as `BoolS`) and its modification time. */
  class VtkArray {
    const kind: VtkKind
    const storage: array<Scalar>
    var mtime: nat

    constructor (kind: VtkKind, storage: array<Scalar>)
      ensures this.kind == kind && this.storage == storage && mtime == 0
    {
      this.kind := kind;
      this.storage := storage;
      mtime := 0;
    }

    method Modified()
      modifies this
      ensures mtime == old(mtime) + 1
    {
      mtime := mtime + 1;
    }
  }

  /** `np.shares_memory`: the two windows of the same memory have an element in common
      (empty windows share nothing). */
  predicate SharesMemory(b1: array<Scalar>, lo1: nat, hi1: nat, b2: array<Scalar>, lo2: nat, hi2: nat) {
    b1 == b2 && lo1 < hi1 && lo2 < hi2 && lo1 < hi2 && lo2 < hi1
  }

  /** `vtk_bit_array_to_char`, element-wise: 1 for a set bit, 0 otherwise. */
  function BitToChar(x: Scalar): (c: Scalar)
    ensures c == IntS(1) || c == IntS(0)
    ensures c == IntS(1) <==> x == BoolS(true)
  {
    if x == BoolS(true) then IntS(1) else IntS(0)
  }

  /** What `vtk_ndarray(array, ...)` is called with. */
  datatype Source =
    | FromItems(items: seq<Scalar>)   // an Iterable that is not an ndarray: copied into new memory
    | FromArray(parent: View)         // an existing ndarray (possibly a vtk_ndarray): viewed, not copied
    | FromVtk(arr: VtkArray)          // a vtkAbstractArray
    | NotIterable                     // anything else

  class View {
    const buffer: array<Scalar>
    const lo: nat
    const hi: nat
    var vtkObject: VtkArray?
    var dataset: WeakRef?
    var association: FieldAssociation

    ghost predicate Valid()
      reads this
    {
      lo <= hi <= buffer.Length
    }

    /** The elements this view sees, in order. */
    function Contents(): seq<Scalar>
      reads this, buffer
      requires Valid()
    {
      buffer[lo..hi]
    }

    /** True when `v` would inherit this view's provenance if derived from it. */
    predicate SharesMemoryWith(v: View)
      reads this, v
    {
      SharesMemory(buffer, lo, hi, v.buffer, v.lo, v.hi)
    }

    /** A plain ndarray over `buffer[lo..hi]` with no provenance. */
    constructor Plain(buffer: array<Scalar>, lo: nat, hi: nat)
      requires lo <= hi <= buffer.Length
      ensures this.buffer == buffer && this.lo == lo && this.hi == hi && Valid()
      ensures vtkObject == null && dataset == null && association == NONE
    {
      this.buffer, this.lo, this.hi := buffer, lo, hi;
      vtkObject, dataset, association := null, null, NONE;
    }

    /** `__array_finalize__`: a view `buffer[lo..hi]` derived from `parent` (by slicing, viewing
        or computing) keeps the parent's dataset, association and VTK array exactly when it
        shares memory with the parent; otherwise they are reset to None, NONE and None. */
    static method Derive(parent: View, buffer: array<Scalar>, lo: nat, hi: nat) returns (v: View)
      requires lo <= hi <= buffer.Length
      ensures fresh(v) && v.buffer == buffer && v.lo == lo && v.hi == hi && v.Valid()
      ensures parent.SharesMemoryWith(v) ==>
                v.dataset == parent.dataset && v.association == parent.association
                && v.vtkObject == parent.vtkObject
      ensures !parent.SharesMemoryWith(v) ==>
                v.dataset == null && v.association == NONE && v.vtkObject == null
    {
      v := new View.Plain(buffer, lo, hi);
      if SharesMemory(buffer, lo, hi, parent.buffer, parent.lo, parent.hi) {
        v.dataset, v.association, v.vtkObject := parent.dataset, parent.association, parent.vtkObject;
      }
    }

    /** `self[start:stop]`: a window of the same memory; a non-empty slice keeps provenance. */
    method Slice(start: nat, stop: nat) returns (v: View)
      requires Valid() && start <= stop <= hi - lo
      ensures fresh(v) && v.Valid() && v.buffer == buffer
      ensures v.Contents() == Contents()[start..stop]
      ensures start < stop ==>
                v.dataset == dataset && v.association == association && v.vtkObject == vtkObject
      ensures start == stop ==> v.dataset == null && v.association == NONE && v.vtkObject == null
    {
      v := Derive(this, buffer, lo + start, lo + stop);
    }

    /** `self.copy()`: new memory with the same elements, so provenance is dropped. */
    method Copy() returns (v: View)
      requires Valid()
      ensures fresh(v) && fresh(v.buffer) && v.Valid() && v.Contents() == Contents()
      ensures v.dataset == null && v.association == NONE && v.vtkObject == null
    {
      var b := new Scalar[hi - lo](k requires 0 <= k < hi - lo reads this, buffer => buffer[lo + k]);
      v := Derive(this, b, 0, b.Length);
    }

    /** `vtk_ndarray.__new__`: wrap an iterable or a VTK array, attach the association and a
        weak reference to the dataset; anything else is a TypeError. */
    static method New(src: Source, ds: DataSet?, association: FieldAssociation) returns (r: Result<View>)
      requires src.FromArray? ==> src.parent.Valid()
      ensures r.Err? <==> src.NotIterable? || (src.FromVtk? && src.arr.kind == OtherKind)
      ensures r.Err? ==> r.error == TypeError
      ensures r.Ok? ==>
                fresh(r.value) && r.value.Valid() && r.value.association == association
                && r.value.dataset != null && fresh(r.value.dataset) && r.value.dataset.target == ds
      ensures src.FromItems? && r.Ok? ==>
                fresh(r.value.buffer) && r.value.Contents() == src.items && r.value.vtkObject == null
      ensures src.FromArray? && r.Ok? ==>
                r.value.buffer == src.parent.buffer && r.value.lo == src.parent.lo
                && r.value.hi == src.parent.hi && r.value.vtkObject == null
      ensures src.FromVtk? && r.Ok? ==> r.value.vtkObject == src.arr
      ensures src.FromVtk? && src.arr.kind == DataKind && r.Ok? ==>
                r.value.buffer == src.arr.storage && r.value.lo == 0
                && r.value.hi == src.arr.storage.Length
      ensures src.FromVtk? && src.arr.kind == StringKind && r.Ok? ==>
                fresh(r.value.buffer) && r.value.Contents() == src.arr.storage[..]
      ensures src.FromVtk? && src.arr.kind == BitKind && r.Ok? ==>
                fresh(r.value.buffer) && |r.value.Contents()| == src.arr.storage.Length
                && forall k :: 0 <= k < src.arr.storage.Length ==>
                     r.value.Contents()[k] == BitToChar(src.arr.storage[k])
    {
      var v: View;
      if src.NotIterable? {
        return Err(TypeError);
      } else if src.FromItems? {
        // np.asarray(items).view(cls): the base array has no provenance
        var items := src.items;
        var b := new Scalar[|items|](k requires 0 <= k < |items| => items[k]);
        var base := new View.Plain(b, 0, b.Length);
        v := Derive(base, b, 0, b.Length);
      } else if src.FromArray? {
        // np.asarray(ndarray) is a base-class ndarray over the same memory, without the
        // parent's attributes; .view(cls) derives from that base, so no VTK object is kept
        var parent := src.parent;
        var base := new View.Plain(parent.buffer, parent.lo, parent.hi);
        v := Derive(base, parent.buffer, parent.lo, parent.hi);
      } else {
        var arr := src.arr;
        var b: array<Scalar>;
        if arr.kind == OtherKind {
          // convert_array raises for other abstract arrays
          return Err(TypeError);
        } else if arr.kind == DataKind {
          // vtk_to_numpy views the VTK memory
          b := arr.storage;
        } else if arr.kind == StringKind {
          b := new Scalar[arr.storage.Length](k requires 0 <= k < arr.storage.Length reads arr.storage =>
                 arr.storage[k]);
        } else {
          b := new Scalar[arr.storage.Length](k requires 0 <= k < arr.storage.Length reads arr.storage =>
                 BitToChar(arr.storage[k]));
        }
        var base := new View.Plain(b, 0, b.Length);
        v := Derive(base, b, 0, b.Length);
        v.vtkObject := arr;
      }
      v.association := association;
      v.dataset := new WeakRef(ds);
      return Ok(v);
    }

    /** `__setitem__` with an integer key: store the element, then call `Modified()` on the VTK
        array when there is one, then on the dataset when the weak reference still resolves.
        A key outside `[-n, n)` is an IndexError and changes nothing. */
    method SetItem(key: int, value: Scalar) returns (r: Outcome)
      requires Valid()
      modifies buffer, vtkObject, if dataset == null then null else dataset.target
      ensures r == Pass <==> -(hi - lo) <= key < hi - lo
      ensures r.Fail? ==> r.error == IndexError && buffer[..] == old(buffer[..])
      ensures r.Fail? && vtkObject != null ==> vtkObject.mtime == old(vtkObject.mtime)
      ensures r.Fail? && dataset != null && dataset.target != null ==>
                dataset.target.mtime == old(dataset.target.mtime)
      ensures r == Pass ==>
                var i := if key < 0 then key + (hi - lo) else key;
                && 0 <= i < hi - lo
                && buffer[..] == old(buffer[..])[lo + i := value]
                && Contents() == old(Contents())[i := value]
      ensures r == Pass && vtkObject != null ==> vtkObject.mtime == old(vtkObject.mtime) + 1
      ensures r == Pass && dataset != null && dataset.target != null ==>
                dataset.target.mtime == old(dataset.target.mtime) + (if old(dataset.target.alive) then 1 else 0)
      ensures dataset != null && dataset.target != null ==> dataset.target.alive == old(dataset.target.alive)
    {
      var n := hi - lo;
      if key < -n || key >= n {
        return Fail(IndexError);
      }
      var i := if key < 0 then key + n else key;
      buffer[lo + i] := value;
      if vtkObject != null {
        vtkObject.Modified();
      }
      if dataset != null && dataset.Get() != null {
        dataset.target.Modified();
      }
      return Pass;
    }

    /** An in-place ufunc (`self /= 2`, `self += 1`): NumPy rewrites every element of the
        memory this view sees, without going through `__setitem__`, so nothing is marked
        modified. */
    method UpdateInPlace(f: Scalar -> Scalar)
      requires Valid()
      modifies buffer
      ensures Contents() == Mapped(old(Contents()), f)
      ensures buffer[..lo] == old(buffer[..lo]) && buffer[hi..] == old(buffer[hi..])
    {
      ghost var before := buffer[..];
      for i := lo to hi
        invariant forall k :: 0 <= k < buffer.Length && !(lo <= k < i) ==> buffer[k] == before[k]
        invariant forall k :: lo <= k < i ==> buffer[k] == f(before[k])
      {
        buffer[i] := f(buffer[i]);
      }
    }
  }

  /** The result of `__array_wrap__`: a plain scalar or an array. */
  datatype Wrapped = ScalarOut(x: Scalar) | ArrayOut(a: NdArray)

  /** `__array_wrap__`: a 0-dimensional result becomes its single element; any other result stays
      an array. */
  function ArrayWrap(out: NdArray): (r: Wrapped)
    requires out.Valid()
    ensures r.ScalarOut? <==> out.Ndim() == 0
    ensures r.ScalarOut? ==> [r.x] == out.data
    ensures r.ArrayOut? ==> r.a == out
  {
    if out.Ndim() != 0 then ArrayOut(out) else ScalarOut(out.data[0])
  }

  /** A reduction to a 0-d array comes back as the very scalar it holds. */
  lemma ArrayWrapScalar(x: Scalar, d: DType)
    ensures ArrayWrap(NdArray([], [x], d)) == ScalarOut(x)
  {
  }

  /** Every element of `s` passed through `f`. */
  function Mapped(s: seq<Scalar>, f: Scalar -> Scalar): (m: seq<Scalar>)
    ensures |m| == |s| && forall k :: 0 <= k < |s| ==> m[k] == f(s[k])
  {
    seq(|s|, k requires 0 <= k < |s| => f(s[k]))
  }

  /** The `points` property of a dataset followed by an in-place ufunc on it (`pts /= 2`): the
      view wraps the VTK points array with association NONE, the ufunc rewrites the shared
      memory without `__setitem__`, so neither the VTK array nor the dataset is marked
      modified, and a fresh read of `points` sees the new values in the same memory. */
  method WriteThroughPoints(arr: VtkArray, ds: DataSet, f: Scalar -> Scalar) returns (pts: View, again: View)
    requires arr.kind == DataKind
    modifies arr.storage
    ensures pts.buffer == again.buffer == arr.storage && pts.Valid() && again.Valid()
    ensures pts.association == NONE && again.association == NONE
    ensures pts.Contents() == Mapped(old(arr.storage[..]), f)
    ensures again.Contents() == pts.Contents()
    ensures arr.mtime == old(arr.mtime) && ds.mtime == old(ds.mtime)
  {
    var r := View.New(FromVtk(arr), ds, NONE);
    pts := r.value;
    pts.UpdateInPlace(f);
    r := View.New(FromVtk(arr), ds, NONE);
    again := r.value;
  }
}
