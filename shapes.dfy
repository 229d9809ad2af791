/** NumPy-style array values: a shape, the elements in row-major (C) order and an
    abstract element-type tag. Memory layout (strides) is carried separately where the
    wrapper layer inspects it. */
module Shapes {
  import opened Wrappers

  /** One array element. */
  datatype Scalar =
    | BoolS(b: bool)
    | IntS(i: int)
    | RealS(r: real)
    | ComplexS(re: real, im: real)
    | StrS(s: string)
    | BytesS(bytes: seq<int>)
    | ObjectS(id: nat)

  /** Abstract NumPy dtype kinds: only the distinctions the wrapper layer tests. */
  datatype DType = Bool | Integer | Floating | Complex | Unicode | Bytes | Object

  /** `numpy.issubdtype(dtype, numpy.number)`: booleans, strings and objects are not numbers. */
  predicate IsNumber(d: DType) {
    d == Integer || d == Floating || d == Complex
  }

  /** The dtype NumPy gives an array built from a Python scalar of this kind. */
  function KindOf(x: Scalar): DType {
    match x
    case BoolS(_) => Bool
    case IntS(_) => Integer
    case RealS(_) => Floating
    case ComplexS(_, _) => Complex
    case StrS(_) => Unicode
    case BytesS(_) => Bytes
    case ObjectS(_) => Object
  }

  /** Number of elements of an array of this shape (1 for the empty shape of a 0-d array). */
  function Prod(shape: seq<nat>): nat {
    if shape == [] then 1 else Prod(shape[..|shape| - 1]) * shape[|shape| - 1]
  }

  lemma ProdPair(a: nat, b: nat)
    ensures Prod([a, b]) == a * b
  {
    assert [a, b][..1] == [a];
    assert [a][..0] == [];
    assert Prod([a]) == a;
  }

  lemma ProdTriple(a: nat, b: nat, c: nat)
    ensures Prod([a, b, c]) == a * (b * c)
  {
    assert [a, b, c][..2] == [a, b];
    ProdPair(a, b);
  }

  /** An n-dimensional array value; `data` lists the elements in C order. */
  datatype NdArray = NdArray(shape: seq<nat>, data: seq<Scalar>, dtype: DType) {
    predicate Valid() {
      |data| == Prod(shape)
    }

    function Ndim(): nat {
      |shape|
    }
  }

  /** `numpy.reshape`: same elements in the same C order under a new shape, or ValueError
      when the element counts differ. */
  function Reshape(a: NdArray, shape: seq<nat>): (r: Result<NdArray>)
    ensures r.Ok? <==> |a.data| == Prod(shape)
    ensures r.Ok? ==> r.value.Valid() && r.value.shape == shape && r.value.data == a.data
                      && r.value.dtype == a.dtype
    ensures r.Err? ==> r.error == ValueError
  {
    if |a.data| == Prod(shape) then Ok(NdArray(shape, a.data, a.dtype)) else Err(ValueError)
  }
}
