/** Counting cells in the legacy vtkCellArray connectivity layout
    `{n0, p0_0, ..., n1, p1_0, ...}` and loading such an array (vtk_override/datamodel/cells.py). */
module Cells {
  import opened Wrappers
  import opened Shapes
  import Arrays

  predicate NonNegative(cells: seq<int>) {
    forall i :: 0 <= i < |cells| ==> cells[i] >= 0
  }

  /** Number of cells found by reading from offset `c`: a count n, then n point ids, repeated.
      A last cell whose ids run past the end of the array still counts. */
  function CountFrom(cells: seq<int>, c: nat): (n: nat)
    requires NonNegative(cells)
    ensures n == 0 <==> c >= |cells|
    decreases |cells| - c
  {
    if c >= |cells| then 0 else 1 + CountFrom(cells, c + cells[c] + 1)
  }

  /** What `ncells_from_cells` finds reading from offset `c` of any integer array: the number
      of cells, or ValueError as soon as a negative count is read. A negative point id is
      never read as a count, so it raises nothing. */
  function Walk(cells: seq<int>, c: nat): (r: Result<nat>)
    ensures r.Err? ==> r.error == ValueError && c < |cells|
    ensures c >= |cells| ==> r == Ok(0)
    decreases |cells| - c
  {
    if c >= |cells| then Ok(0)
    else if cells[c] < 0 then Err(ValueError)
    else
      var rest := Walk(cells, c + cells[c] + 1);
      if rest.Err? then rest else Ok(rest.value + 1)
  }

  /** On connectivity without negative entries the walk never fails and counts what the
      Python 3.6 loop counts. */
  lemma {:induction false} WalkCounts(cells: seq<int>, c: nat)
    requires NonNegative(cells)
    ensures Walk(cells, c) == Ok(CountFrom(cells, c))
    decreases |cells| - c
  {
    if c < |cells| {
      WalkCounts(cells, c + cells[c] + 1);
    }
  }

  /** A negative point id is not an error: `[1, -5]` is one cell holding point -5. */
  lemma NegativeIdCounted()
    ensures Walk([1, -5], 0) == Ok(1)
  {
    assert Walk([1, -5], 2) == Ok(0);
  }

  /** A negative count is: `[2, 0, 1, -1]` fails on its second count. */
  lemma NegativeCountFails()
    ensures Walk([2, 0, 1, -1], 0) == Err(ValueError)
  {
    assert Walk([2, 0, 1, -1], 3) == Err(ValueError);
  }

  /** Reference layout: each cell written as its point count followed by its point ids. */
  function Encode(cs: seq<seq<nat>>): (e: seq<int>)
    ensures |e| >= |cs|
    ensures e == [] <==> cs == []
    ensures cs != [] ==> e[0] == |cs[0]|
  {
    if cs == [] then [] else [|cs[0]|] + cs[0] + Encode(cs[1..])
  }

  // ---------------------------------------------------------------------------------
  // The two counting loops

  /** `ncells_from_cells_py36`: jump over each cell by its count plus one. */
  method NCellsPy36(cells: seq<int>) returns (nCells: nat)
    requires NonNegative(cells)
    ensures nCells == CountFrom(cells, 0)
  {
    var c: nat := 0;
    nCells := 0;
    while c < |cells|
      invariant nCells + CountFrom(cells, c) == CountFrom(cells, 0)
      decreases |cells| - c
    {
      c := c + cells[c] + 1;
      nCells := nCells + 1;
    }
  }

  /** `ncells_from_cells`: take the next entry of a shared iterator as a count and consume up
      to that many following entries; stop when the iterator is exhausted. `pos` is the
      iterator's position in `cells.flat`. A negative count makes `islice` raise ValueError. */
  method NCellsFromCells(cells: seq<int>) returns (r: Result<nat>)
    ensures r == Walk(cells, 0)
    ensures NonNegative(cells) ==> r == Ok(CountFrom(cells, 0))
    ensures r.Err? ==> r.error == ValueError && !NonNegative(cells)
  {
    var pos: nat := 0;
    var nCells: nat := 0;
    while true
      invariant pos <= |cells|
      invariant Walk(cells, 0).Err? <==> Walk(cells, pos).Err?
      invariant Walk(cells, pos).Ok? ==> Walk(cells, 0) == Ok(nCells + Walk(cells, pos).value)
      decreases |cells| - pos
    {
      if pos == |cells| {
        // next(it, None) is None
        if NonNegative(cells) {
          WalkCounts(cells, 0);
        }
        return Ok(nCells);
      }
      var skip := cells[pos];
      pos := pos + 1;
      if skip < 0 {
        return Err(ValueError);
      }
      // consumer.extend(islice(it, skip)) stops early when the iterator runs out
      var taken := if skip <= |cells| - pos then skip else |cells| - pos;
      pos := pos + taken;
      nCells := nCells + 1;
    }
  }

  /** Both loops count the same cells, whatever the connectivity, truncated last cell included. */
  method CountsAgree(cells: seq<int>) returns (a: nat, b: Result<nat>)
    requires NonNegative(cells)
    ensures b == Ok(a)
  {
    a := NCellsPy36(cells);
    b := NCellsFromCells(cells);
  }

  // ---------------------------------------------------------------------------------
  // Properties of the count

  /** An empty connectivity array holds no cell. */
  lemma EmptyHasNoCells()
    ensures CountFrom([], 0) == 0
  {
  }

  /** Each cell consumes at least its count entry, so there are never more cells than entries. */
  lemma {:induction false} CountBounded(cells: seq<int>, c: nat)
    requires NonNegative(cells) && c <= |cells|
    ensures CountFrom(cells, c) <= |cells| - c
    decreases |cells| - c
  {
    if c < |cells| {
      var next := c + cells[c] + 1;
      if next <= |cells| {
        CountBounded(cells, next);
      }
    }
  }

  /** Counting only looks at what follows the starting offset. */
  lemma {:induction false} CountShift(a: seq<int>, b: seq<int>, c: nat)
    requires NonNegative(a + b) && NonNegative(b)
    ensures CountFrom(a + b, |a| + c) == CountFrom(b, c)
    decreases |b| - c
  {
    if c < |b| {
      assert (a + b)[|a| + c] == b[c];
      CountShift(a, b, c + b[c] + 1);
    }
  }

  lemma {:induction false} EncodeNonNegative(cs: seq<seq<nat>>)
    ensures NonNegative(Encode(cs))
  {
    if cs != [] {
      EncodeNonNegative(cs[1..]);
      var tail := [|cs[0]|] + cs[0];
      assert Encode(cs) == tail + Encode(cs[1..]);
      forall i | 0 <= i < |Encode(cs)| ensures Encode(cs)[i] >= 0 {
        if i >= |tail| {
          assert Encode(cs)[i] == Encode(cs[1..])[i - |tail|];
        }
      }
    }
  }

  /** Round trip: encoding a list of cells in the legacy layout and counting gives back the
      number of cells. */
  lemma {:induction false} CountEncode(cs: seq<seq<nat>>)
    ensures NonNegative(Encode(cs))
    ensures CountFrom(Encode(cs), 0) == |cs|
  {
    EncodeNonNegative(cs);
    if cs != [] {
      var head := [|cs[0]|] + cs[0];
      var rest := Encode(cs[1..]);
      assert Encode(cs) == head + rest;
      EncodeNonNegative(cs[1..]);
      CountEncode(cs[1..]);
      assert Encode(cs)[0] == |cs[0]|;
      CountShift(head, rest, 0);
    }
  }

  /** The documented example `[3, 0, 1, 2, 3, 3, 4, 5]` holds two triangles. */
  lemma TwoTriangles()
    ensures NonNegative([3, 0, 1, 2, 3, 3, 4, 5])
    ensures CountFrom([3, 0, 1, 2, 3, 3, 4, 5], 0) == 2
  {
    var cs: seq<seq<nat>> := [[0, 1, 2], [3, 4, 5]];
    assert Encode(cs[1..][1..]) == [];
    assert Encode(cs[1..]) == [3, 3, 4, 5];
    assert Encode(cs) == [3, 0, 1, 2, 3, 3, 4, 5];
    CountEncode(cs);
  }

  // ---------------------------------------------------------------------------------
  // CellArray._set_cells

  /** The wrapped vtkCellArray: the number of cells and the connectivity ids given to SetCells. */
  class CellArray {
    var nCells: int
    var ids: seq<int>

    constructor ()
      ensures nCells == 0 && ids == []
    {
      nCells := 0;
      ids := [];
    }

    /** `_set_cells`: convert to ids, count the cells when no count is given (1-D input is
        counted, otherwise the leading dimension is taken), then call SetCells. */
    method SetCells(cells: NdArray, nCellsArg: Option<int>) returns (r: Outcome)
      requires cells.Valid()
      modifies this
      ensures Arrays.NumpyToIdArr(cells).Err? ==>
                r == Fail(TypeError) && nCells == old(nCells) && ids == old(ids)
      ensures Arrays.NumpyToIdArr(cells).Ok? ==>
                var idarr := Arrays.NumpyToIdArr(cells).value;
                && (nCellsArg.Some? ==> r == Pass && nCells == nCellsArg.value && ids == idarr.ids)
                && (nCellsArg.None? && idarr.ind.Ndim() == 1 && NonNegative(idarr.ids) ==>
                      r == Pass && nCells == CountFrom(idarr.ids, 0) && ids == idarr.ids)
                && (nCellsArg.None? && idarr.ind.Ndim() == 1 && Walk(idarr.ids, 0).Ok? ==>
                      r == Pass && nCells == Walk(idarr.ids, 0).value && ids == idarr.ids)
                && (nCellsArg.None? && idarr.ind.Ndim() == 1 && Walk(idarr.ids, 0).Err? ==>
                      r == Fail(ValueError) && nCells == old(nCells) && ids == old(ids))
                && (nCellsArg.None? && idarr.ind.Ndim() >= 2 ==>
                      r == Pass && nCells == idarr.ind.shape[0] && ids == idarr.ids)
                && (nCellsArg.None? && idarr.ind.Ndim() == 0 ==>
                      r == Fail(IndexError) && nCells == old(nCells) && ids == old(ids))
    {
      var conv := Arrays.NumpyToIdArr(cells);
      if conv.Err? {
        return Fail(conv.error);
      }
      var idarr := conv.value;
      var n: int;
      if nCellsArg.Some? {
        n := nCellsArg.value;
      } else if idarr.ind.Ndim() == 1 {
        // the ids of a 1-D array are the array itself
        var counted := NCellsFromCells(idarr.ids);
        if counted.Err? {
          return Fail(counted.error);
        }
        n := counted.value;
      } else if idarr.ind.Ndim() == 0 {
        return Fail(IndexError);
      } else {
        n := idarr.ind.shape[0];
      }
      nCells, ids := n, idarr.ids;
      return Pass;
    }
  }
}
