/** Converters and validators between NumPy-style arrays and VTK arrays
    (vtk_override/utils/arrays.py). */
module Arrays {
  import opened Wrappers
  import opened Shapes

  /** Which kind of VTK field an array is associated with. */
  datatype FieldAssociation = POINT | CELL | NONE | ROW

  /** VTK type id 3 (VTK_UNSIGNED_CHAR) that NumPy's lookup reports for strings. */
  const VTK_UNSIGNED_CHAR := 3
  /** VTK type id 13 (VTK_STRING). */
  const VTK_STRING := 13

  /** `get_vtk_type`: the id looked up for a NumPy dtype, with the string mix-up corrected.
      `lookedUp` is what `get_vtk_array_type` returned. */
  function GetVtkType(lookedUp: int): (t: int)
    ensures t != VTK_UNSIGNED_CHAR
    ensures lookedUp == VTK_UNSIGNED_CHAR ==> t == VTK_STRING
    ensures lookedUp != VTK_UNSIGNED_CHAR ==> t == lookedUp
  {
    if lookedUp == VTK_UNSIGNED_CHAR then VTK_STRING else lookedUp
  }

  // ---------------------------------------------------------------------------------
  // String arrays

  /** A vtkStringArray: an ordered list of values and an optional name. */
  class VtkStringArray {
    var values: seq<Scalar>
    var name: Option<string>

    constructor ()
      ensures values == [] && name == None
    {
      values := [];
      name := None;
    }

    method InsertNextValue(v: Scalar)
      modifies this
      ensures values == old(values) + [v] && name == old(name)
    {
      values := values + [v];
    }

    method SetName(n: string)
      modifies this
      ensures name == Some(n) && values == old(values)
    {
      name := Some(n);
    }

    function GetNumberOfValues(): (n: nat)
      reads this
      ensures n == |values|
    {
      |values|
    }

    function GetValue(i: nat): (v: Scalar)
      requires i < |values|
      reads this
      ensures v == values[i]
    {
      values[i]
    }
  }

  /** The `name` argument: a `str`, `None`, or some other Python object. */
  datatype NameArg = StrName(s: string) | NoName | NonStrName

  function NameOf(name: NameArg): Option<string> {
    if name.StrName? then Some(name.s) else None
  }

  /** `convert_string_array`, NumPy to VTK: the values are inserted in order, and the name
      is set only when it is a `str`. */
  method StringsToVtk(arr: seq<Scalar>, name: NameArg) returns (v: VtkStringArray)
    ensures fresh(v)
    ensures v.values == arr
    ensures v.name == NameOf(name)
  {
    v := new VtkStringArray();
    for i := 0 to |arr|
      invariant v.values == arr[..i] && v.name == None
    {
      v.InsertNextValue(arr[i]);
    }
    assert arr[..|arr|] == arr;
    if name.StrName? {
      v.SetName(name.s);
    }
  }

  /** `convert_string_array`, VTK to NumPy: values 0 .. n-1 read in order. */
  method StringsFromVtk(v: VtkStringArray) returns (arr: seq<Scalar>)
    ensures arr == v.values
  {
    arr := [];
    var n := v.GetNumberOfValues();
    for i := 0 to n
      invariant arr == v.values[..i]
    {
      arr := arr + [v.GetValue(i)];
    }
    assert v.values[..n] == v.values;
  }

  /** Converting strings to a vtkStringArray and back gives the same values, whatever the name. */
  method StringRoundTrip(arr: seq<Scalar>, name: NameArg) returns (back: seq<Scalar>)
    ensures back == arr
  {
    var v := StringsToVtk(arr, name);
    back := StringsFromVtk(v);
  }

  // ---------------------------------------------------------------------------------
  // convert_array

  /** A VTK array handed to `convert_array`. */
  datatype VtkInput =
    | DataArray(a: NdArray)           // vtkDataArray: numeric tuples
    | BitArray(bits: seq<bool>)       // vtkBitArray
    | StringArray(s: VtkStringArray)  // vtkStringArray
    | OtherAbstractArray              // any other vtkAbstractArray

  /** The `arr` argument of `convert_array`. */
  datatype ArrayArg =
    | PyNone
    | PyList(items: NdArray)   // a list or tuple, as `numpy.array` reads it
    | Nd(a: NdArray)           // a numpy.ndarray
    | Vtk(v: VtkInput)         // a VTK array object
    | OtherObject              // anything else

  datatype Converted =
    | Nothing                                          // Python `None`
    | NumericVtk(data: NdArray, name: Option<string>)  // vtkDataArray made by numpy_to_vtk
    | StringVtk(s: VtkStringArray)                     // vtkStringArray
    | Numpy(a: NdArray)                                // an ndarray read from VTK

  /** A char array holding 0 or 1 for each bit (`vtk_bit_array_to_char`). */
  function BitsToChars(bits: seq<bool>): (a: NdArray)
    ensures |a.data| == |bits| && a.Valid() && a.shape == [|bits|] && a.dtype == Integer
    ensures forall k :: 0 <= k < |bits| ==> a.data[k] == IntS(if bits[k] then 1 else 0)
  {
    assert Prod([|bits|]) == |bits| by { assert [|bits|][..0] == []; }
    NdArray([|bits|], seq(|bits|, k requires 0 <= k < |bits| => IntS(if bits[k] then 1 else 0)), Integer)
  }

  /** A string-like ndarray of rank two or more with at least one row: `convert_string_array`
      iterates it row by row and hands each row, itself an array, to `InsertNextValue`, which
      refuses it. (A 0-d array was made 1-D by `ascontiguousarray` first.) */
  predicate IteratesRows(a: NdArray) {
    a.dtype in {Unicode, Bytes, Object} && |a.shape| >= 2 && a.shape[0] > 0
  }

  /** `convert_array`: dispatch between the NumPy-to-VTK and VTK-to-NumPy directions. */
  method ConvertArray(arr: ArrayArg, name: NameArg) returns (r: Result<Converted>)
    ensures arr.PyNone? ==> r == Ok(Nothing)
    ensures r == Err(TypeError) <==>
              arr.OtherObject? || (arr.Vtk? && arr.v.OtherAbstractArray?)
              || (arr.PyList? && IteratesRows(arr.items)) || (arr.Nd? && IteratesRows(arr.a))
    ensures r.Err? ==> r.error == TypeError
    ensures (arr.PyList? || arr.Nd?) ==>
              var a := if arr.PyList? then arr.items else arr.a;
              !IteratesRows(a) ==>
                r.Ok? &&
                (if a.dtype in {Unicode, Bytes, Object}
                 then r.value.StringVtk? && r.value.s.values == a.data && r.value.s.name == NameOf(name)
                 else r.value == NumericVtk(a, NameOf(name)))
    ensures arr.Vtk? && arr.v.DataArray? ==> r == Ok(Numpy(arr.v.a))
    ensures arr.Vtk? && arr.v.BitArray? ==> r == Ok(Numpy(BitsToChars(arr.v.bits)))
    ensures arr.Vtk? && arr.v.StringArray? ==>
              r.Ok? && r.value.Numpy? && r.value.a.data == arr.v.s.values && r.value.a.dtype == Unicode
  {
    match arr {
      case PyNone =>
        return Ok(Nothing);
      case OtherObject =>
        return Err(TypeError);
      case PyList(a) =>
        r := ConvertNumpy(a, name);
      case Nd(a) =>
        r := ConvertNumpy(a, name);
      case Vtk(v) =>
        match v {
          case OtherAbstractArray =>
            return Err(TypeError);
          case BitArray(bits) =>
            return Ok(Numpy(BitsToChars(bits)));
          case StringArray(s) =>
            var vals := StringsFromVtk(s);
            return Ok(Numpy(NdArray([|vals|], vals, Unicode)));
          case DataArray(a) =>
            return Ok(Numpy(a));
        }
    }
  }

  /** The ndarray branch of `convert_array`: object arrays are cast to bytes, string and
      bytes arrays go through `convert_string_array`, the rest through `numpy_to_vtk`. */
  method ConvertNumpy(a: NdArray, name: NameArg) returns (r: Result<Converted>)
    ensures r.Err? <==> IteratesRows(a)
    ensures r.Err? ==> r.error == TypeError
    ensures a.dtype in {Unicode, Bytes, Object} && !IteratesRows(a) ==>
              r.Ok? && r.value.StringVtk? && r.value.s.values == a.data && r.value.s.name == NameOf(name)
    ensures a.dtype !in {Unicode, Bytes, Object} ==> r == Ok(NumericVtk(a, NameOf(name)))
  {
    var b := if a.dtype == Object then NdArray(a.shape, a.data, Bytes) else a;
    if b.dtype == Unicode || b.dtype == Bytes {
      if |b.shape| >= 2 && b.shape[0] > 0 {
        // `for val in arr` yields rows, and a row is not a string
        return Err(TypeError);
      }
      var s := StringsToVtk(b.data, NoName);
      if name.StrName? {
        s.SetName(name.s);
      }
      return Ok(StringVtk(s));
    }
    return Ok(NumericVtk(b, NameOf(name)));
  }

  // ---------------------------------------------------------------------------------
  // vtk_points

  /** `astype(numpy.float32)` on one numeric element (rounding to 32 bits is not modelled). */
  function ToFloat(x: Scalar): Scalar {
    match x
    case IntS(i) => RealS(i as real)
    case ComplexS(re, _) => RealS(re)
    case _ => x
  }

  function AsFloat32(a: NdArray): (b: NdArray)
    ensures b.shape == a.shape && b.dtype == Floating && |b.data| == |a.data|
  {
    NdArray(a.shape, seq(|a.data|, k requires 0 <= k < |a.data| => ToFloat(a.data[k])), Floating)
  }

  /** `vtk_points`: checks a points array and returns the (n, 3) array handed to vtkPoints. */
  function VtkPoints(points: NdArray, forceFloat: bool): (r: Result<NdArray>)
    requires points.Valid()
    ensures !IsNumber(points.dtype) ==> r == Err(TypeError)
    ensures points.Ndim() > 2 && IsNumber(points.dtype) ==> r == Err(ValueError)
    ensures points.Ndim() == 1 && IsNumber(points.dtype) ==> (r.Ok? <==> |points.data| % 3 == 0)
    ensures points.Ndim() == 2 && IsNumber(points.dtype) ==> (r.Ok? <==> points.shape[1] == 3)
    ensures points.Ndim() == 0 && IsNumber(points.dtype) ==> r == Err(IndexError)
    ensures r.Ok? ==> r.value.Valid() && |r.value.shape| == 2 && r.value.shape[1] == 3
                      && |r.value.data| == |points.data|
    ensures r.Ok? && forceFloat ==> r.value.dtype == Floating
    ensures r.Ok? && (!forceFloat || points.dtype == Floating) ==>
              r.value.data == points.data && r.value.dtype == points.dtype
  {
    if !IsNumber(points.dtype) then Err(TypeError)
    else
      var p := if forceFloat && points.dtype != Floating then AsFloat32(points) else points;
      if p.Ndim() == 1 then
        if |p.data| % 3 != 0 then Err(ValueError)
        else
          ProdPair(|p.data| / 3, 3);
          Reshape(p, [|p.data| / 3, 3])
      else if p.Ndim() > 2 then Err(ValueError)
      else if p.Ndim() == 0 then Err(IndexError)
      else if p.shape[1] != 3 then Err(ValueError)
      else Ok(p)
  }

  // ---------------------------------------------------------------------------------
  // numpy_to_idarr

  function IdOf(x: Scalar): int {
    match x
    case IntS(i) => i
    case BoolS(b) => if b then 1 else 0
    case _ => 0
  }

  /** Flat (C-order) positions of the True entries of a boolean array, ascending. */
  function TrueFlat(d: seq<Scalar>): (t: seq<nat>)
    ensures |t| <= |d|
    ensures forall k :: 0 <= k < |t| ==> t[k] < |d| && d[t[k]] == BoolS(true)
  {
    if d == [] then []
    else TrueFlat(d[..|d| - 1]) + (if d[|d| - 1] == BoolS(true) then [|d| - 1] else [])
  }

  /** The result of `numpy_to_idarr(ind, return_ind=True)`: the raveled ids and `ind`. */
  datatype IdArray = IdArray(ids: seq<int>, ind: NdArray)

  /** `numpy_to_idarr`: a boolean mask becomes the first-axis indices of its True entries
      (`nonzero()[0]`); integer arrays keep their shape; the ids are flattened. */
  function NumpyToIdArr(ind: NdArray): (r: Result<IdArray>)
    requires ind.Valid()
    ensures r.Err? <==> ind.dtype !in {Bool, Integer}
    ensures r.Err? ==> r.error == TypeError
    ensures r.Ok? ==> |r.value.ids| == |r.value.ind.data| && r.value.ind.dtype == Integer
    ensures r.Ok? ==> forall k :: 0 <= k < |r.value.ids| ==> r.value.ids[k] == IdOf(r.value.ind.data[k])
    ensures r.Ok? && ind.dtype == Integer ==> r.value.ind == ind
    ensures r.Ok? && ind.dtype == Bool ==> r.value.ind.Ndim() == 1
  {
    if ind.dtype !in {Bool, Integer} then Err(TypeError)
    else
      var out :=
        if ind.dtype == Bool then
          var inner := if ind.Ndim() == 0 then 1 else Prod(ind.shape[1..]);
          var flat := TrueFlat(ind.data);
          NdArray([|flat|], seq(|flat|, k requires 0 <= k < |flat| =>
                                  IntS(if inner == 0 then 0 else flat[k] / inner)), Integer)
        else ind;
      Ok(IdArray(seq(|out.data|, k requires 0 <= k < |out.data| => IdOf(out.data[k])), out))
  }

  /** A one-dimensional boolean mask becomes exactly the ascending indices of its True entries. */
  lemma {:induction false} MaskIndices(d: seq<Scalar>)
    ensures forall a, b :: 0 <= a < b < |TrueFlat(d)| ==> TrueFlat(d)[a] < TrueFlat(d)[b]
    ensures forall k :: k in TrueFlat(d) <==> 0 <= k < |d| && d[k] == BoolS(true)
  {
    if d != [] {
      var init := d[..|d| - 1];
      var last := if d[|d| - 1] == BoolS(true) then [|d| - 1] else [];
      MaskIndices(init);
      assert TrueFlat(d) == TrueFlat(init) + last;
      forall k | k in TrueFlat(init) ensures k < |d| - 1 { }
      forall a, b | 0 <= a < b < |TrueFlat(d)| ensures TrueFlat(d)[a] < TrueFlat(d)[b] {
        if b >= |TrueFlat(init)| {
          assert TrueFlat(d)[a] in TrueFlat(init);
        }
      }
      forall k ensures k in TrueFlat(d) <==> 0 <= k < |d| && d[k] == BoolS(true) {
        if 0 <= k < |d| - 1 {
          assert d[k] == init[k];
        }
      }
    }
  }

  /** For a 1-D mask the ids are the True positions, ascending. */
  lemma MaskToIds(ind: NdArray)
    requires ind.Valid() && ind.dtype == Bool && ind.Ndim() == 1
    ensures NumpyToIdArr(ind).Ok?
    ensures NumpyToIdArr(ind).value.ids == TrueFlat(ind.data)
    ensures forall k :: k in NumpyToIdArr(ind).value.ids <==>
              0 <= k < |ind.data| && ind.data[k] == BoolS(true)
    ensures forall a, b :: 0 <= a < b < |NumpyToIdArr(ind).value.ids| ==>
              NumpyToIdArr(ind).value.ids[a] < NumpyToIdArr(ind).value.ids[b]
  {
    assert ind.shape[1..] == [];
    MaskIndices(ind.data);
    var ids := NumpyToIdArr(ind).value.ids;
    var flat := TrueFlat(ind.data);
    assert |ids| == |flat|;
    forall k | 0 <= k < |flat| ensures ids[k] == flat[k] { }
  }

  // ---------------------------------------------------------------------------------
  // coerce_pointslike_arg

  /** The `points` argument of `coerce_pointslike_arg`. */
  datatype PointsArg =
    | SequenceArg(items: NdArray)  // a collections.abc.Sequence, as `numpy.asarray` reads it
    | NdArg(a: NdArray)            // a numpy.ndarray
    | OtherArg                     // anything else

  /** `coerce_pointslike_arg`: returns an (n, 3) array and whether the input was one point. */
  function CoercePointslikeArg(points: PointsArg, copy: bool): (r: Result<(NdArray, bool)>)
    requires !points.OtherArg? ==> (if points.SequenceArg? then points.items else points.a).Valid()
    ensures points.OtherArg? ==> r == Err(TypeError)
    ensures !points.OtherArg? ==>
              var a := if points.SequenceArg? then points.items else points.a;
              && (a.Ndim() > 2 ==> r == Err(ValueError))
              && (a.Ndim() == 2 ==> (r.Ok? <==> a.shape[1] == 3))
              && (a.Ndim() == 2 && r.Ok? ==> r.value == (a, false))
              && (a.Ndim() < 2 ==> (r.Ok? <==> |a.data| == 3))
              && (a.Ndim() < 2 && r.Ok? ==> r.value.1 && r.value.0.shape == [1, 3]
                                              && r.value.0.data == a.data && r.value.0.dtype == a.dtype)
    ensures r.Err? ==> r.error in {TypeError, ValueError}
    ensures r.Ok? ==> r.value.0.Valid() && |r.value.0.shape| == 2 && r.value.0.shape[1] == 3
  {
    if points.OtherArg? then Err(TypeError)
    else
      var a := if points.SequenceArg? then points.items else points.a;
      if a.Ndim() > 2 then Err(ValueError)
      else if a.Ndim() == 2 then
        if a.shape[1] != 3 then Err(ValueError)
        else
          ProdPair(a.shape[0], 3);
          Ok((a, false))
      else if |a.data| != 3 then Err(ValueError)
      else
        ProdPair(1, 3);
        Ok((NdArray([1, 3], a.data, a.dtype), true))
  }
}
