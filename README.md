# vtk-override data model, in Dafny

vtk-override is a thin Python layer over VTK's data objects. This project models the parts of
that layer that hold logic of their own:

- the attribute tables (`FieldDataBase`): how `set_array` turns a value into a stored column,
  and how `get_array`, `keys` and `values` find it again;
- the composite attribute union (`CompositeDataSetAttributes`): the first-seen union of the
  leaf blocks' array names, the fan-out of `set_array`, and the lazily cached `get_array`;
- the provenance-carrying array view (`vtk_ndarray`): writes that mark the backing VTK
  array and the owning dataset as modified, slices that keep their provenance only while
  they share memory, and 0-d results that come back as scalars;
- the array converters and validators in `utils/arrays.py`;
- the legacy cell-connectivity counters and `CellArray._set_cells`;
- composite iteration, the cached `point_data` / `cell_data` / `field_data`, and `points`;
- the structured grids: `ImageData` (the setter name built by `set_property`, the geometry
  setters, the x-fastest point layout and the `x`/`y`/`z` columns), `RectilinearGrid`
  (dimensions kept equal to the coordinate lengths, refused setters), and the
  `ExplicitStructuredGrid` dimensions.

Each source module becomes one Dafny module:

| file | module | source |
|---|---|---|
| wrappers.dfy | `Wrappers` | Option / Result / Outcome and the Python exceptions raised |
| shapes.dfy | `Shapes` | NumPy arrays as (shape, flat C-order data, dtype tag) |
| grid.dfy | `Grid` | the x-fastest raveling shared by the image and rectilinear points |
| arrays.dfy | `Arrays` | `vtk_override/utils/arrays.py` |
| ndarray.dfy | `NdArrayView` | `vtk_override/utils/ndarray.py` |
| fields.dfy | `Fields` | `vtk_override/datamodel/fields.py`, `FieldDataBase` |
| composite.dfy | `Composite` | `vtk_override/datamodel/composite/composite.py` and `CompositeDataSetAttributes` |
| cells.dfy | `Cells` | `vtk_override/datamodel/cells.py` |
| image.dfy | `Image` | `vtk_override/datamodel/image.py` |
| rectilinear.dfy | `Rectilinear` | `vtk_override/datamodel/rectilinear.py` |
| explicit.dfy | `Explicit` | `vtk_override/datamodel/pointset/explicit.py` |

The source objects that change state in place are Dafny classes: `FieldData`, `CellArray`,
`View`, `VtkArray`, `VtkStringArray`, `DataSet`, `CompositeDataSet`, `CompositeAttributes`,
`CompositeDataIterator`, `ImageData` and `RectilinearGrid`. Each has `modifies` frames and
`ensures` clauses that state its whole new state. Loops in the source are `while` or `for`
loops here, each proved against a specification function:

- `Cells.NCellsPy36` against `CountFrom`, and `Cells.NCellsFromCells` against `Walk`, which
  agrees with `CountFrom` on non-negative input;
- `NdArrayView.View.UpdateInPlace` against `Mapped`;
- `Fields.FieldData.Keys` / `Values` against `Names` / `ValuesOf`;
- `Composite.DetermineArrayNames` against `Dedupe(AllKeys(...))`;
- `Image.JoinCapitalized` against `CapitalizedJoin`;
- `Arrays.StringsToVtk` against the input sequence.

VTK's `AddArray` is modelled as VTK documents it. A named array replaces the first array of
the same name. Otherwise the array is appended. Weak references are handles to objects that
carry an `alive` flag. `Modified()` is a counter (`mtime`) on the object.

## Model

| member | source | states |
|---|---|---|
| Shapes.Reshape | vtk_override/datamodel/fields.py:114-115 | a reshape succeeds exactly when the element count matches the new shape; it keeps the data and sets the shape, otherwise ValueError |
| Explicit.Dimensions | vtk_override/datamodel/pointset/explicit.py:45-53 | each dimension is `extent[2k+1] - extent[2k] + 1` |
| Explicit.Rows | vtk_override/datamodel/pointset/explicit.py:49-50 | the extent read as three rows `[extent[2k], extent[2k+1]]` |
| Explicit.DimensionsOfZeroBased | vtk_override/datamodel/pointset/explicit.py:45-65 | the extent `(0, n-1, 0, m-1, 0, k-1)` gives dimensions `(n, m, k)` |
| Explicit.DimensionsShiftInvariant | vtk_override/datamodel/pointset/explicit.py:45-53 | shifting both ends of an axis by the same amount leaves the dimensions unchanged |
| Grid.MeshgridLayout | vtk_override/datamodel/image.py:86-99 | there are nx*ny*nz points, and point `i + nx*(j + ny*k)` is `(xs[i], ys[j], zs[k])`: x fastest, then y, then z |
| Grid.Meshgrid | vtk_override/datamodel/image.py:86-99 | there are `len xs * len ys * len zs` points, one per combination of coordinates |
| Arrays.GetVtkType | vtk_override/utils/arrays.py:61-65 | type id 3 becomes 13 (string), every other id is returned unchanged, and 3 never comes out |
| Arrays.VtkStringArray.InsertNextValue | vtk_override/utils/arrays.py:133-134 | the value is appended and the name is kept |
| Arrays.VtkStringArray.SetName | vtk_override/utils/arrays.py:136-137 | the name is set and the values are kept |
| Arrays.VtkStringArray.GetNumberOfValues | vtk_override/utils/arrays.py:141 | the number of values stored |
| Arrays.VtkStringArray.GetValue | vtk_override/utils/arrays.py:142 | value i as stored |
| Arrays.StringsToVtk | vtk_override/utils/arrays.py:130-138 | a fresh string array holds the input values in order, and it is named only when the name is a `str` |
| Arrays.StringsFromVtk | vtk_override/utils/arrays.py:139-142 | values 0..n-1 read back in order |
| Arrays.StringRoundTrip | vtk_override/utils/arrays.py:130-142 | NumPy to VTK and back returns the same sequence |
| Arrays.BitsToChars | vtk_override/utils/arrays.py:68-88 | a bit array becomes an integer array of the same length, with 1 where a bit is set and 0 elsewhere |
| Arrays.ConvertArray | vtk_override/utils/arrays.py:168-196 | None gives None; lists go through an ndarray; string, bytes and object dtypes take the string path, named only by a `str`; numeric data keeps array and name; TypeError exactly when the input is neither list, ndarray nor data/bit/string array, or is a string-like array of rank two or more with at least one row; bit arrays are read as 0/1 chars; string arrays come back with their values in order |
| Arrays.ConvertNumpy | vtk_override/utils/arrays.py:172-185 | the ndarray branch of the dispatch: a string-like array of rank two or more with a row raises TypeError (its rows are handed to `InsertNextValue`), and only such an array fails; other string-like arrays go to a string array holding their values; everything else to a numeric VTK array with the name |
| Arrays.AsFloat32 | vtk_override/utils/arrays.py:290 | the float32 cast keeps shape and length and gives a floating dtype |
| Arrays.VtkPoints | vtk_override/utils/arrays.py:276-310 | non-numeric input raises TypeError; ndim > 2 raises ValueError; 1-D input is accepted exactly when its size is a multiple of 3 and reshaped to (-1, 3); 2-D input exactly when it has 3 columns; the dtype becomes floating only under `force_float`, otherwise the data is untouched |
| Arrays.NumpyToIdArr | vtk_override/utils/arrays.py:313-332 | TypeError exactly when the dtype is neither bool nor integer; integer input keeps its shape; a mask becomes a 1-D index array; the ids are the raveled values |
| Arrays.MaskIndices | vtk_override/utils/arrays.py:321-322 | the indices taken from a mask are strictly ascending and are exactly the positions of its True entries |
| Arrays.MaskToIds | vtk_override/utils/arrays.py:321-329 | `numpy_to_idarr` of a 1-D mask gives exactly the ascending positions of its True entries |
| Arrays.TrueFlat | vtk_override/utils/arrays.py:321-322 | at most one index per element, each the position of a True entry |
| Arrays.CoercePointslikeArg | vtk_override/utils/arrays.py:357-379 | a non-sequence non-array raises TypeError; ndim > 2 raises ValueError; 2-D input needs 3 columns and gives `singular=False`; otherwise the size must be 3, the result has shape (1, 3) with the same values, and `singular=True` |
| NdArrayView.DataSet.Modified | vtk_override/utils/ndarray.py:79 | the dataset's modification count goes up by one |
| NdArrayView.WeakRef.Get | vtk_override/utils/ndarray.py:77-78 | the referenced dataset while it is alive, otherwise nothing |
| NdArrayView.VtkArray.Modified | vtk_override/utils/ndarray.py:73-74 | the VTK array's modification count goes up by one |
| NdArrayView.BitToChar | vtk_override/utils/arrays.py:68-88 | 1 for a set bit and 0 otherwise |
| NdArrayView.View.Plain | vtk_override/utils/ndarray.py:60-63 | a view with association NONE and no dataset or VTK object |
| NdArrayView.View.Derive | vtk_override/utils/ndarray.py:56-63 | a derived array inherits dataset, association and VTK object exactly when it shares memory with its parent; otherwise they are reset to None / NONE / None |
| NdArrayView.View.Slice | vtk_override/utils/ndarray.py:56-63 | a slice shows the parent's elements `start..stop`; it keeps the provenance when non-empty and loses it when empty |
| NdArrayView.View.Copy | vtk_override/utils/ndarray.py:56-63 | a copy has the same contents in a fresh buffer and no provenance |
| NdArrayView.View.New | vtk_override/utils/ndarray.py:20-44 | an Iterable is wrapped without a VTK object, and a wrapped ndarray shares its parent's memory but keeps no VTK object, since `np.asarray` drops the parent's attributes before `.view`; a VTK array is recorded as the VTK object, sharing its storage for data arrays and converted for string and bit arrays; any other input raises TypeError; the association is the one given and the dataset is held through a fresh weak reference |
| NdArrayView.View.SetItem | vtk_override/utils/ndarray.py:65-79 | an in-range (possibly negative) key writes exactly that element, then the VTK object's count goes up by one, then the dataset's count goes up by one only if its reference is alive; an out-of-range key raises IndexError and changes nothing |
| NdArrayView.ArrayWrap | vtk_override/utils/ndarray.py:81-91 | a 0-d result comes back as its single scalar, anything else as the array |
| NdArrayView.ArrayWrapScalar | vtk_override/utils/ndarray.py:87-91 | wrapping a 0-d array of `x` gives the scalar `x` |
| NdArrayView.View.UpdateInPlace | tests/datamodel/test_structured.py:26 | an in-place ufunc rewrites every element the view sees with `f` and leaves the rest of the buffer alone |
| NdArrayView.Mapped | tests/datamodel/test_structured.py:26 | the mapped sequence has the input's length and element k is `f` of input element k |
| NdArrayView.WriteThroughPoints | tests/datamodel/test_structured.py:20-30 | two reads of `points` (association NONE) share the VTK array's storage; an in-place `pts /= 2` on the first is seen through the second, and neither the VTK array nor the dataset is marked modified |
| Fields.Tag | vtk_override/datamodel/fields.py:31-39 | a data array is tagged with the table's association; any other abstract array is returned as it is |
| Fields.FirstNamed | vtk_override/datamodel/fields.py:31-33 | the first index whose array has the name, or none when no array has it |
| Fields.Store | vtk_override/datamodel/fields.py:125-126 | the stored column is in the table, the table grows by at most one, and arrays of other names stay at their index |
| Fields.StoreThenFind | vtk_override/datamodel/fields.py:125-126 | after storing a named column, looking its name up finds that column |
| Fields.FirstNamedIs | vtk_override/datamodel/fields.py:31-33 | the lookup returns the first matching index |
| Fields.StoreKeepsUnique | vtk_override/datamodel/fields.py:125-126 | storing keeps names unique, grows the table by at most one, and leaves arrays of other names in place |
| Fields.ValuesOf | vtk_override/datamodel/fields.py:51-59 | every value listed is a data array or an abstract array |
| Fields.Names | vtk_override/datamodel/fields.py:41-49 | at most one key per array, no key empty, and one key per array when every array has a name |
| Fields.KeysValuesParallel | vtk_override/datamodel/fields.py:41-59 | `values()` has the length of `keys()`, and entry k of `values()` is the array named by entry k of `keys()` |
| Fields.KeysMembership | vtk_override/datamodel/fields.py:41-49 | a string is a key exactly when it is non-empty and some array has that name |
| Fields.Fill | vtk_override/datamodel/fields.py:80-84 | a scalar becomes a length-n array whose every element is that scalar |
| Fields.RequiredLength | vtk_override/datamodel/fields.py:67-77 | the point or cell count for POINT or CELL, AttributeError for POINT, CELL or ROW without an owner, otherwise 1 for a non-array and the leading dimension of an array; IndexError exactly for a 0-d array whose leading dimension is read |
| Fields.Repeat | vtk_override/datamodel/fields.py:85-91 | the input repeated n times has n times its length |
| Fields.Broadcast | vtk_override/datamodel/fields.py:85-91 | a mismatched array becomes an `n x prod(shape)` array of its dtype |
| Fields.TransposedIndex | vtk_override/datamodel/fields.py:107-115 | the transposed position stays within the data |
| Fields.TransposeInner | vtk_override/datamodel/fields.py:107-115 | the inner transpose keeps the length |
| Fields.Matrices | vtk_override/datamodel/fields.py:95-115 | a rank-3 array `(n, a, b)` is stored as `(n, a*b)` with its dtype |
| Fields.StrideFires | vtk_override/datamodel/fields.py:101-106 | the test fires only when the last two strides are one and three elements, in either order, and a contiguous array fires only in C order |
| Fields.Normalize | vtk_override/datamodel/fields.py:79-115 | the normalised value is a well-shaped array |
| Fields.Prepare | vtk_override/datamodel/fields.py:67-115 | `set_array` fails exactly when the length rule fails, with its error; otherwise the stored array is well-shaped and keeps the value's dtype |
| Fields.LeadingDimension | vtk_override/datamodel/fields.py:67-91 | the required length is the point count for POINT, the cell count for CELL, the row count for ROW with columns, and otherwise 1 for non-arrays or the array's own first dimension; a table without an owner dataset raises AttributeError; a 0-d array where the first dimension is read raises IndexError |
| Fields.ScalarBroadcast | vtk_override/datamodel/fields.py:80-84 | a scalar or 0-d value becomes an array of the required length whose every element is the value |
| Fields.VectorBroadcast | vtk_override/datamodel/fields.py:85-91 | when the leading dimension differs from the required length, the result is `n x prod(shape)` and every row is the flattened input |
| Fields.RepeatRow | vtk_override/datamodel/fields.py:89-90 | row `r` of the repeated data is the input |
| Fields.RepeatAt | vtk_override/datamodel/fields.py:89-90 | element k of row `r` of the repeated data is element k of the input |
| Fields.COrderFiresIffLastAxis3 | vtk_override/datamodel/fields.py:101-106 | for a C-ordered `(n, a, b)` array the stride test fires exactly when `b == 3` |
| Fields.MatrixRoundTrip | vtk_override/datamodel/fields.py:95-115 | when the stride test does not fire, reshaping the stored `(n, a*b)` array back to `(n, a, b)` returns the input |
| Fields.MatrixTransposed | vtk_override/datamodel/fields.py:101-115 | when the stride test fires, stored element `(i, j*a + k)` is input element `(i, k, j)`: each matrix is transposed before flattening |
| Fields.TransposedIndexAt | vtk_override/datamodel/fields.py:107-115 | the transposed position of `(i, j, k)` is the row-major position of `(i, k, j)` |
| Fields.Product | vtk_override/datamodel/fields.py:86-88 | the product of the shape's entries |
| Fields.FixLength | vtk_override/datamodel/fields.py:79-115 | the fix-up chain yields the normalised value |
| Fields.FieldData.constructor | vtk_override/datamodel/fields.py:14-17 | an empty table with the given association and owner |
| Fields.FieldData.GetArray | vtk_override/datamodel/fields.py:27-38 | an index at or past the count raises IndexError; a valid index gives that array, tagged; a name gives the first array of that name, tagged, or `NoneArray` when none has it |
| Fields.FieldData.Keys | vtk_override/datamodel/fields.py:41-49 | the names of the named arrays, in index order |
| Fields.FieldData.Values | vtk_override/datamodel/fields.py:51-59 | the named arrays, tagged, in index order |
| Fields.FieldData.KeysAndValues | vtk_override/datamodel/fields.py:41-59 | keys and values are parallel, and every key finds an array |
| Fields.FieldData.SetArray | vtk_override/datamodel/fields.py:61-126 | `NoneArray` changes nothing; an error from the length rule is raised with the table unchanged; otherwise the normalised array is stored under the name and a lookup of that name finds it tagged with the table's association |
| Composite.CompositeDataIterator.constructor | vtk_override/datamodel/composite/composite.py:16-20 | the iterator starts at the first leaf, and it is null when the dataset gives no iterator |
| Composite.CompositeDataIterator.Next | vtk_override/datamodel/composite/composite.py:25-33 | a null or finished iterator stops and stays put; otherwise it returns the current leaf and advances by one |
| Composite.CompositeDataSet.Blocks | vtk_override/datamodel/composite/composite.py:54-55 | iterating the dataset visits its leaves in order, or none without an iterator |
| Composite.CompositeDataSet.AttributesOf | vtk_override/datamodel/composite/composite.py:63-85 | the cached union for the association while it is alive, untouched; otherwise a fresh union for that association with the first-seen keys, which is cached while the other caches stay |
| Composite.CompositeDataSet.Install | vtk_override/datamodel/composite/composite.py:67-68 | only the cache of that association changes |
| Composite.CompositeDataSet.GetPoints | vtk_override/datamodel/composite/composite.py:87-108 | the cached result while it is alive; otherwise one entry per leaf (none for a leaf without points), and `NoneArray` when there is no leaf or no leaf has points; the result is cached |
| Composite.TablesOf | vtk_override/datamodel/fields.py:174-175 | leaf k's table for the association |
| Composite.AllKeys | vtk_override/datamodel/fields.py:174-176 | a name is listed exactly when some leaf's table has it as a key |
| Composite.Dedupe | vtk_override/datamodel/fields.py:171-180 | the union is no longer than the names seen, and starts with the first name seen |
| Composite.DedupeUnion | vtk_override/datamodel/fields.py:171-180 | the union holds exactly the names that occur, with no duplicates |
| Composite.DedupeFirstSeen | vtk_override/datamodel/fields.py:171-180 | names in the union are ordered by their first occurrence |
| Composite.FirstIndex | vtk_override/datamodel/fields.py:171-180 | the first position of a name |
| Composite.DetermineArrayNames | vtk_override/datamodel/fields.py:171-180 | the loop computes the first-seen duplicate-free union of the leaves' keys |
| Composite.AddUnseen | vtk_override/datamodel/fields.py:176-179 | one table's keys are added to the union, and the seen-set tracks the names so far |
| Composite.CompositeAttributes.constructor | vtk_override/datamodel/fields.py:160-169 | no cached arrays, and the keys are the first-seen union computed once |
| Composite.CompositeAttributes.FanOut | vtk_override/datamodel/fields.py:199-213 | each block with a value has its table updated by `set_array`, blocks past the values are untouched, `added` says some block took a value; the first table that raises stops the loop |
| Composite.CompositeAttributes.Distribute | vtk_override/datamodel/fields.py:199-216 | after the fan-out the name is appended, and a composite value cached, exactly when some block took it; a raise leaves keys and cache unchanged |
| Composite.CompositeAttributes.SetArray | vtk_override/datamodel/fields.py:194-216 | `NoneArray` changes nothing; a plain value goes to every visited block and a composite one part by part, skipping None parts; the name is appended only if some block accepted it |
| Composite.CompositeAttributes.SetArrayAsWritten | vtk_override/datamodel/fields.py:194-216 | as written, a plain value other than `NoneArray` raises AttributeError as soon as there is a block, and nothing changes |
| Composite.CompositeAttributes.GetArray | vtk_override/datamodel/fields.py:218-230 | an unknown name gives `NoneArray`; a known name gives the cached array while it is alive, otherwise a fresh one read from the blocks, which is cached |
| Composite.CompositeAttributes.GetArrayTwice | vtk_override/datamodel/fields.py:218-230 | two lookups in a row return the same object, present exactly for known names |
| Cells.NCellsPy36 | vtk_override/datamodel/cells.py:11-21 | the jump-by-count-plus-one loop counts the cells |
| Cells.NCellsFromCells | vtk_override/datamodel/cells.py:24-36 | the skip-and-count loop returns exactly `Walk`: the cells counted, truncated last cell included, or ValueError when a negative count is read; on non-negative input the count of `CountFrom` |
| Cells.Walk | vtk_override/datamodel/cells.py:29-36 | the walk fails only with ValueError and only while entries remain, and a walk past the end counts nothing |
| Cells.WalkCounts | vtk_override/datamodel/cells.py:11-36 | on non-negative input the walk never fails and counts what the Python 3.6 loop counts |
| Cells.NegativeIdCounted | vtk_override/datamodel/cells.py:29-36 | `[1, -5]` is one cell: a negative point id raises nothing |
| Cells.NegativeCountFails | vtk_override/datamodel/cells.py:29-36 | `[2, 0, 1, -1]` raises ValueError on its second count |
| Cells.CountFrom | vtk_override/datamodel/cells.py:16-21 | the count is zero exactly when the offset is at or past the end |
| Cells.Encode | vtk_override/datamodel/cells.py:46-57 | the encoding has at least one entry per cell, is empty only for no cells, and starts with the first cell's point count |
| Cells.CountsAgree | vtk_override/datamodel/cells.py:11-36 | the two counting loops agree on non-negative input |
| Cells.EmptyHasNoCells | vtk_override/datamodel/cells.py:16-21 | an empty connectivity array has no cells |
| Cells.CountBounded | vtk_override/datamodel/cells.py:16-21 | the cell count never exceeds the array length |
| Cells.CountShift | vtk_override/datamodel/cells.py:16-21 | counting after a prefix counts the rest on its own |
| Cells.EncodeNonNegative | vtk_override/datamodel/cells.py:46-57 | the `{n, ids...}` encoding of cells is non-negative |
| Cells.CountEncode | vtk_override/datamodel/cells.py:46-57 | counting the encoding of a list of cells gives the number of cells |
| Cells.TwoTriangles | vtk_override/datamodel/cells.py:46-57 | `[3,0,1,2,3,3,4,5]` holds two cells |
| Cells.CellArray.constructor | vtk_override/datamodel/cells.py:60-63 | an empty cell array |
| Cells.CellArray.SetCells | vtk_override/datamodel/cells.py:65-81 | an input that is neither bool nor integer raises TypeError; an explicit count is used unchanged; a 1-D array is counted by `Walk`, its ValueError raised with the cell array unchanged; a 2-D array uses `shape[0]`; the ids are the raveled input |
| Image.Split | vtk_override/datamodel/image.py:25 | the split has at least one piece |
| Image.JoinSplit | vtk_override/datamodel/image.py:25 | joining the pieces with `_` gives the name back |
| Image.SplitPiecesHaveNoUnderscore | vtk_override/datamodel/image.py:25 | no piece contains `_` |
| Image.LowerUpper | vtk_override/datamodel/image.py:27 | lower-casing undoes upper-casing |
| Image.CapitalizeCaseless | vtk_override/datamodel/image.py:27 | capitalising changes only case |
| Image.CapitalizeSnoc | vtk_override/datamodel/image.py:27 | capitalising a longer piece adds the lower-cased letter |
| Image.SetterNameSpellsKeyword | vtk_override/datamodel/image.py:25-28 | the setter name is `Set` followed by the name without underscores, up to case |
| Image.Capitalize | vtk_override/datamodel/image.py:27 | the length is kept, the first letter is upper case and every other letter lower case |
| Image.SetterName | vtk_override/datamodel/image.py:25-28 | the setter name starts with `Set` and has one letter for each character of the keyword other than `_` |
| Image.CaselessJoin | vtk_override/datamodel/image.py:25-28 | the capitalised pieces spell the name without underscores, up to case |
| Image.CaselessUnderscore | vtk_override/datamodel/image.py:25-28 | a trailing underscore adds nothing to the setter name |
| Image.CaselessLetter | vtk_override/datamodel/image.py:25-28 | a trailing letter adds that letter, lower-cased, up to case |
| Image.StripLetter | vtk_override/datamodel/image.py:25-28 | removing underscores keeps a trailing letter |
| Image.SplitSingle | vtk_override/datamodel/image.py:25 | a name without `_` is one piece |
| Image.SplitLastPiece | vtk_override/datamodel/image.py:25 | splitting `s + "_" + t` adds the piece `t` |
| Image.SingleKeyword | vtk_override/datamodel/image.py:25-28 | a name without `_` gives `Set` plus the name capitalised |
| Image.TwoPieceKeyword | vtk_override/datamodel/image.py:25-28 | `first_second` gives `Set` plus both pieces capitalised |
| Image.DimensionsKeyword | vtk_override/datamodel/image.py:25-28 | `dimensions` gives `SetDimensions` |
| Image.CapitalizeDimensions | vtk_override/datamodel/image.py:27 | `dimensions` capitalised is `Dimensions` |
| Image.WholeExtentKeyword | vtk_override/datamodel/image.py:25-28 | `whole_extent` gives `SetWholeExtent` |
| Image.CapitalizeWholeExtent | vtk_override/datamodel/image.py:27 | `whole` and `extent` capitalised are `Whole` and `Extent` |
| Image.SpacingKeyword | vtk_override/datamodel/image.py:25-28 | `spacing` gives `SetSpacing` |
| Image.CapitalizeSpacing | vtk_override/datamodel/image.py:27 | `spacing` capitalised is `Spacing` |
| Image.CapitalizedJoinSnoc | vtk_override/datamodel/image.py:27-28 | one loop step appends the next capitalised piece |
| Image.MethodName | vtk_override/datamodel/image.py:25-28 | the loop builds the setter name |
| Image.JoinCapitalized | vtk_override/datamodel/image.py:26-28 | the loop gives `Set` followed by every piece capitalised, in order |
| Image.Args | vtk_override/datamodel/image.py:29-32 | an iterable is unpacked into its items (a string into its characters) and any other value is passed alone |
| Image.Native | vtk_override/datamodel/image.py:29-32 | the four modelled setters accept the right count of numbers and change only their own field; a wrong count or type raises TypeError; any other setter name raises AttributeError |
| Image.KeywordSpacingUnchecked | vtk_override/datamodel/image.py:18-32 | a `spacing` keyword goes straight to `SetSpacing`, negative components included |
| Image.ApplyPropertiesStops | vtk_override/datamodel/image.py:18-20 | the first property whose setter raises ends the keyword loop with that error |
| Image.ApplyProperties | vtk_override/datamodel/image.py:18-20 | construction succeeds exactly when every keyword's setter accepts its value, and otherwise raises TypeError or AttributeError |
| Image.CumSum | vtk_override/datamodel/image.py:91-93 | the running sum keeps the length |
| Image.CumSumFull | vtk_override/datamodel/image.py:91-93 | the running sum of n copies of d is `(i+1)*d` at i |
| Image.Axis | vtk_override/datamodel/image.py:91-93 | an axis of n samples has n coordinates |
| Image.AxisSteps | vtk_override/datamodel/image.py:91-93 | sample i of an axis is `o + i*d` |
| Image.PointsFrom | vtk_override/datamodel/image.py:86-99 | ValueError exactly when some dimension is below 1; otherwise nx*ny*nz points |
| Image.PointsFromLayout | vtk_override/datamodel/image.py:86-99 | point `i + nx*(j + ny*k)` takes its coordinates from axis samples i, j and k |
| Image.AxisFromCorner | vtk_override/datamodel/image.py:91-93 | an axis started at the first grid coordinate has sample i at grid coordinate i |
| Image.PointsLayout | vtk_override/datamodel/image.py:86-99 | point `i + nx*(j + ny*k)` is the grid point `origin + (extent_min + index) * spacing` of indices (i, j, k): x fastest, then y, then z |
| Image.Points | vtk_override/datamodel/image.py:86-99 | ValueError exactly when some dimension is below 1; otherwise nx*ny*nz points, the first at VTK's point (0, 0, 0) |
| Image.PointsAsWritten | vtk_override/datamodel/image.py:86-99 | ValueError exactly when some dimension is below 1; otherwise nx*ny*nz points, the first at `origin + extent_min`, unscaled |
| Image.FirstPoint | vtk_override/datamodel/image.py:86-99 | the first point of a non-empty grid is its start coordinates |
| Image.DocstringPoints | vtk_override/datamodel/image.py:73-83 | the unit cube has eight points, in x-fastest order |
| Image.PointsAsWrittenMisplaced | vtk_override/datamodel/image.py:94 | the as-written points of extent (2,5,2,5,2,5) with spacing 2 start at (2,2,2), while the grid's first point is (4,4,4) |
| Image.Column | vtk_override/datamodel/image.py:115-155 | a column has one entry per point, and errors pass through |
| Image.ColumnsFollowIndices | vtk_override/datamodel/image.py:115-155 | `x`, `y` and `z` are columns 0, 1 and 2 of the points: entry p is the grid coordinate of index i, j and k |
| Image.ImageData.constructor | vtk_override/datamodel/image.py:18-20 | VTK's default empty image: extent (0,-1,0,-1,0,-1), unit spacing, zero origin |
| Image.ImageData.Dimensions | vtk_override/datamodel/image.py:34-55 | the points per axis, `extent[2k+1] - extent[2k] + 1` |
| Image.ImageData.Assign | vtk_override/datamodel/image.py:29-32 | one native setter call is applied to the geometry |
| Image.ImageData.SetProperty | vtk_override/datamodel/image.py:22-32 | the setter named by the keyword is called with the unpacked value; its error, if any, is raised and the geometry stays |
| Image.ImageData.SetProperties | vtk_override/datamodel/image.py:18-20 | the keywords are applied in order, stopping at the first error |
| Image.ImageData.SetDimensions | vtk_override/datamodel/image.py:57-61 | three ints set the dimensions; anything else raises TypeError and changes nothing |
| Image.ImageData.SetSpacing | vtk_override/datamodel/image.py:205-211 | a negative component raises ValueError and spacing is unchanged; three non-negative numbers set the spacing; other counts or types raise |
| Image.ImageData.SetOrigin | vtk_override/datamodel/image.py:171-175 | fewer than 3 values raise IndexError; the first three numbers set the origin; non-numbers raise TypeError |
| Image.ImageData.SetExtent | vtk_override/datamodel/image.py:286-291 | anything but 6 values raises ValueError; six ints set the extent; non-ints raise TypeError |
| Image.ImageData.SetPoints | vtk_override/datamodel/image.py:101-113 | assigning points always raises AttributeError |
| Rectilinear.MeshgridArrays | vtk_override/datamodel/rectilinear.py:60-69 | three `(nx, ny, nz)` arrays whose entry (i, j, k) is `x[i]`, `y[j]` and `z[k]` respectively |
| Rectilinear.Cube | vtk_override/datamodel/rectilinear.py:60-69 | an `nx x ny x nz` array whose entry (i, j, k) is `f(i, j, k)` |
| Rectilinear.PointsRavelMeshgrid | vtk_override/datamodel/rectilinear.py:71-101 | `len x * len y * len z` points, and point `i + nx*(j + ny*k)` is meshgrid entry (i, j, k) |
| Rectilinear.PointsOf | vtk_override/datamodel/rectilinear.py:71-101 | `len x * len y * len z` points |
| Rectilinear.MeshgridCorners | vtk_override/datamodel/rectilinear.py:71-101 | the first point is the first coordinate of every axis and the last point the last |
| Rectilinear.DocstringPoints | vtk_override/datamodel/rectilinear.py:83-97 | coordinates (-10, 0) on every axis give the eight points in x-fastest order |
| Rectilinear.RectilinearGrid.constructor | vtk_override/datamodel/rectilinear.py:13-22 | given axes are set through their setters and the dimensions updated; with no axis given the default dimensions are left untouched |
| Rectilinear.RectilinearGrid.Dimensions | vtk_override/datamodel/rectilinear.py:24-46 | while up to date, the dimensions are the lengths of the three coordinate arrays |
| Rectilinear.RectilinearGrid.X | vtk_override/datamodel/rectilinear.py:116-141 | while up to date, the x coordinates number the first dimension |
| Rectilinear.RectilinearGrid.Y | vtk_override/datamodel/rectilinear.py:149-174 | the same for y and the second dimension |
| Rectilinear.RectilinearGrid.Z | vtk_override/datamodel/rectilinear.py:182-206 | the same for z and the third dimension |
| Rectilinear.RectilinearGrid.Points | vtk_override/datamodel/rectilinear.py:71-101 | the points number `len x * len y * len z`, the product of the dimensions when they are up to date |
| Rectilinear.RectilinearGrid.UpdateDimensions | vtk_override/datamodel/rectilinear.py:56-58 | the dimensions become the coordinate lengths, nothing else changes |
| Rectilinear.RectilinearGrid.SetX | vtk_override/datamodel/rectilinear.py:142-147 | the x coordinates are replaced (and read back by `x`), the others kept, the dimensions are the lengths, and the grid is marked modified |
| Rectilinear.RectilinearGrid.SetY | vtk_override/datamodel/rectilinear.py:175-180 | the same for y |
| Rectilinear.RectilinearGrid.SetZ | vtk_override/datamodel/rectilinear.py:208-213 | the same for z |
| Rectilinear.RectilinearGrid.SetDimensions | vtk_override/datamodel/rectilinear.py:48-54 | assigning dimensions always raises AttributeError |
| Rectilinear.RectilinearGrid.SetPoints | vtk_override/datamodel/rectilinear.py:103-114 | assigning points always raises AttributeError |
| Rectilinear.ConstructedLayout | tests/datamodel/test_rectilinear.py:32-49 | a grid built from three axes has their lengths as dimensions and point `i + nx*(j + ny*k)` equal to `(x[i], y[j], z[k])` |

## Left out

- Class substitution (`@override`), VTK version detection, the sources and file readers, and the VTK pipeline wrappers (`cast_to_*`, copies, bounds, centres) are not part of this model. They are foreign runtime mechanisms or thin calls into VTK.
- Floating point is modelled with reals. The float32 cast in `vtk_points` keeps the values' dtype tag only. NumPy's dtype machinery (`astype("|S")`, `numpy_to_vtk`, `VTKArray`) is reduced to abstract dtype tags.
- Fields.MatrixRoundTrip: the round trip is proved only when the stride test does not fire. When it fires, the code stores each matrix transposed, which `Fields.MatrixTransposed` states.
- Fields.FieldData.SetArray: `AddArray` is modelled by its documented rule (replace the first array of the same name, else append). Making the array contiguous is not visible in the value model.
- Composite.CompositeAttributes.SetArray: the value is modelled as a plain value or a composite array built from parts. A composite array that reads its parts from blocks by name (as `get_array` creates) is not accepted as input. The leaf tables of one association are required to be distinct objects.
- Composite.CompositeDataSet.GetPoints: a leaf's `Points` attribute is an input of the leaf; which VTK classes have it is not modelled.
- `get_attributes(FIELD)` on a leaf is modelled as the leaf's field-data table.
- Weak references are handles to objects with an `alive` flag. Garbage collection is not modelled.
- `Modified()` calls are counted only where the wrapper makes them. VTK's own internal modification bookkeeping is not modelled.
- NdArrayView.View.SetItem: only integer keys are modelled. Slice and mask keys are not.
- Cells.NCellsPy36: requires non-negative counts. On a negative count the source loop may not terminate.
- The composite module imports `vtk_override.fields` and the partitioned module imports `vtk_override.composite.composite`, and neither path exists. The intended modules are modelled.
- Rectilinear.RectilinearGrid.constructor: `(x, y, z).count(None)` fails on NumPy inputs; the intended logic is modelled with coordinate sequences.
- Rectilinear.MeshgridArrays: returns nested sequences rather than three NumPy arrays.
- Image.Native: only the four setters the image wrapper relies on (`SetDimensions`, `SetExtent`, `SetSpacing`, `SetOrigin`) are modelled. Any other name raises AttributeError here, where VTK may have a method of that name.
- Image.Capitalize: only ASCII letters change case.
- Image.DimensionsKeyword: states the spelled-out setter name as `"Set" + "Dimensions"` (and similarly for `WholeExtentKeyword`).
- Image.ImageData: the extent is six ints, and the direction matrix is taken as the identity.
- Image.ImageData.SetExtent: VTK's handling of an inverted extent is not modelled.
- Image `cast_to_structured_grid` and `cast_to_rectilinear_grid` are VTK pipeline calls and coordinate arithmetic, and are left out.
- Image: the `origin`, `spacing` and `extent` getters are direct reads of VTK state and are not separate members; the `dimensions` getter is `Image.ImageData.Dimensions`.

## Findings

| source | as written | input that shows it | evidently intended | confidence | as-written member | corrected member |
|---|---|---|---|---|---|---|
| vtk_override/datamodel/fields.py:203 | the plain-value branch calls `append(narray, name)` on each block's attribute table, a method attribute tables do not define | any plain array assigned to a composite dataset with at least one leaf | call `set_array(name, narray)` on each block's table, as the composite branch does | not executed | Composite.CompositeAttributes.SetArrayAsWritten | Composite.CompositeAttributes.SetArray |
| vtk_override/datamodel/image.py:94 | the points are offset by `origin + extent_min`, with the extent minimum not scaled by the spacing | extent (2,5,2,5,2,5), spacing (2,2,2), origin (0,0,0): the first point comes out at (2,2,2) instead of VTK's (4,4,4) | offset by `origin + extent_min * spacing`, the grid's first point | not executed | Image.PointsAsWrittenMisplaced | Image.PointsLayout |
