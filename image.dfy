/** Uniform grids (`vtkImageData`, `vtkStructuredPoints`, `vtkUniformGrid`) as wrapped by
    vtk_override/datamodel/image.py: keyword properties routed to VTK's native setters, the
    validating `dimensions`/`spacing`/`origin`/`extent` setters, and the implicit points. */
module Image {
  import opened Wrappers
  import opened Shapes
  import Grid
  import Explicit

  type Triple = (real, real, real)

  // ---------------------------------------------------------------------------------
  // The setter name `set_property` derives from a keyword

  function Upper(c: char): char {
    if 'a' <= c <= 'z' then (c as int - 32) as char else c
  }

  function Lower(c: char): char {
    if 'A' <= c <= 'Z' then (c as int + 32) as char else c
  }

  function LowerAll(s: string): string {
    seq(|s|, i requires 0 <= i < |s| => Lower(s[i]))
  }

  /** `str.capitalize` on ASCII text: the first character upper case, the rest lower case. */
  function Capitalize(part: string): (c: string)
    ensures |c| == |part|
    ensures part != [] ==> c[0] == Upper(part[0])
    ensures forall i :: 1 <= i < |part| ==> c[i] == Lower(part[i])
  {
    if part == [] then [] else [Upper(part[0])] + LowerAll(part[1..])
  }

  /** `str.split("_")`: the pieces between underscores, empty pieces included; never empty. */
  function Split(s: string): (parts: seq<string>)
    ensures |parts| >= 1
  {
    if s == [] then [[]]
    else
      var init := Split(s[..|s| - 1]);
      var c := s[|s| - 1];
      if c == '_' then init + [[]]
      else init[..|init| - 1] + [init[|init| - 1] + [c]]
  }

  /** The inverse of `Split`: the pieces joined with underscores. */
  function Join(parts: seq<string>): string
    requires |parts| >= 1
  {
    if |parts| == 1 then parts[0] else Join(parts[..|parts| - 1]) + "_" + parts[|parts| - 1]
  }

  /** Each piece capitalised, concatenated in order. */
  function CapitalizedJoin(parts: seq<string>): string {
    if parts == [] then [] else CapitalizedJoin(parts[..|parts| - 1]) + Capitalize(parts[|parts| - 1])
  }

  /** The name of the VTK method `set_property` calls for keyword `name`. */
  function SetterName(name: string): (m: string)
    ensures |m| == 3 + |Strip(name)| && m[..3] == "Set"
  {
    CaselessJoin(name);
    "Set" + CapitalizedJoin(Split(name))
  }

  /** The name with its underscores dropped. */
  function Strip(s: string): string {
    if s == [] then [] else Strip(s[..|s| - 1]) + (if s[|s| - 1] == '_' then [] else [s[|s| - 1]])
  }

  /** Joining one more piece adds an underscore and the piece. */
  lemma JoinSnocPiece(parts: seq<string>, piece: string)
    requires |parts| >= 1
    ensures Join(parts + [piece]) == Join(parts) + "_" + piece
  {
    assert (parts + [piece])[..|parts|] == parts;
  }

  /** Growing the last piece by a character grows the joined text by that character. */
  lemma JoinGrowLast(parts: seq<string>, c: char)
    requires |parts| >= 1
    ensures Join(parts[..|parts| - 1] + [parts[|parts| - 1] + [c]]) == Join(parts) + [c]
  {
    var n := |parts|;
    var pre, last := parts[..n - 1], parts[n - 1];
    LastSplitOff(parts);
    if n > 1 {
      JoinSnocPiece(pre, last + [c]);
      JoinSnocPiece(pre, last);
      AppendAssoc(Join(pre) + "_", last, [c]);
    } else {
      assert pre + [last + [c]] == [last + [c]];
    }
  }

  /** Splitting then joining gives back the keyword. */
  lemma {:induction false} JoinSplit(s: string)
    ensures Join(Split(s)) == s
  {
    if s != [] {
      var t, c := s[..|s| - 1], s[|s| - 1];
      JoinSplit(t);
      LastSplitOff(s);
      if c == '_' {
        JoinSnocPiece(Split(t), []);
      } else {
        JoinGrowLast(Split(t), c);
      }
    }
  }

  /** No piece of a split keyword contains an underscore. */
  lemma {:induction false} SplitPiecesHaveNoUnderscore(s: string)
    ensures forall k :: 0 <= k < |Split(s)| ==> '_' !in Split(s)[k]
  {
    if s != [] {
      SplitPiecesHaveNoUnderscore(s[..|s| - 1]);
    }
  }

  lemma LowerUpper(c: char)
    ensures Lower(Upper(c)) == Lower(c)
  {
  }

  lemma CapitalizeCaseless(part: string)
    ensures LowerAll(Capitalize(part)) == LowerAll(part)
  {
    if part != [] {
      LowerUpper(part[0]);
      assert LowerAll(LowerAll(part[1..])) == LowerAll(part[1..]);
    }
  }

  lemma CapitalizeSnoc(part: string, c: char)
    requires c != '_'
    ensures LowerAll(Capitalize(part + [c])) == LowerAll(Capitalize(part)) + [Lower(c)]
  {
    CapitalizeCaseless(part + [c]);
    CapitalizeCaseless(part);
  }

  /** Up to letter case, the setter name is "Set" followed by the keyword without its
      underscores: `set_property` targets exactly the method the keyword spells. */
  lemma {:induction false} SetterNameSpellsKeyword(name: string)
    ensures SetterName(name)[..3] == "Set"
    ensures LowerAll(SetterName(name)[3..]) == LowerAll(Strip(name))
  {
    var rest := CapitalizedJoin(Split(name));
    assert SetterName(name)[3..] == rest;
    CaselessJoin(name);
  }

  /** A non-empty sequence is its prefix followed by its last element. */
  lemma LastSplitOff<T>(s: seq<T>)
    requires s != []
    ensures s == s[..|s| - 1] + [s[|s| - 1]]
  {
  }

  lemma PrefixSnoc<T>(s: seq<T>, k: nat)
    requires k < |s|
    ensures s[..k + 1] == s[..k] + [s[k]]
  {
  }

  lemma AppendAssoc<T>(a: seq<T>, b: seq<T>, c: seq<T>)
    ensures (a + b) + c == a + (b + c)
  {
  }

  lemma LowerAllAppend(a: string, b: string)
    ensures LowerAll(a + b) == LowerAll(a) + LowerAll(b)
  {
  }

  lemma CapitalizedJoinAppend(parts: seq<string>, piece: string)
    ensures CapitalizedJoin(parts + [piece]) == CapitalizedJoin(parts) + Capitalize(piece)
  {
    assert (parts + [piece])[..|parts|] == parts;
  }

  /** Appending a letter to the last piece appends it, lower-cased, to the caseless join. */
  lemma CaselessJoinGrow(pre: seq<string>, last: string, c: char)
    requires c != '_'
    ensures LowerAll(CapitalizedJoin(pre + [last + [c]]))
         == LowerAll(CapitalizedJoin(pre + [last])) + [Lower(c)]
  {
    CapitalizedJoinAppend(pre, last + [c]);
    CapitalizedJoinAppend(pre, last);
    LowerAllAppend(CapitalizedJoin(pre), Capitalize(last + [c]));
    LowerAllAppend(CapitalizedJoin(pre), Capitalize(last));
    CapitalizeSnoc(last, c);
  }

  /** The inductive step of `CaselessJoin` for a trailing underscore: both sides stay the
      same. */
  lemma CaselessUnderscore(s: string)
    requires s != [] && s[|s| - 1] == '_'
    ensures CapitalizedJoin(Split(s)) == CapitalizedJoin(Split(s[..|s| - 1]))
    ensures Strip(s) == Strip(s[..|s| - 1])
  {
    CapitalizedJoinAppend(Split(s[..|s| - 1]), []);
  }

  /** The inductive step of `CaselessJoin` for any other trailing character: the join grows
      by it, lower-cased. */
  lemma CaselessLetter(s: string)
    requires s != [] && s[|s| - 1] != '_'
    ensures LowerAll(CapitalizedJoin(Split(s)))
         == LowerAll(CapitalizedJoin(Split(s[..|s| - 1]))) + [Lower(s[|s| - 1])]
  {
    var init := Split(s[..|s| - 1]);
    var n := |init|;
    var pre, last := init[..n - 1], init[n - 1];
    assert Split(s) == pre + [last + [s[|s| - 1]]];
    LastSplitOff(init);
    CaselessJoinGrow(pre, last, s[|s| - 1]);
  }

  /** ... and so does the keyword without its underscores. */
  lemma StripLetter(s: string)
    requires s != [] && s[|s| - 1] != '_'
    ensures LowerAll(Strip(s)) == LowerAll(Strip(s[..|s| - 1])) + [Lower(s[|s| - 1])]
  {
    var t, c := s[..|s| - 1], s[|s| - 1];
    assert Strip(s) == Strip(t) + [c];
    LowerAllAppend(Strip(t), [c]);
  }

  lemma {:induction false} CaselessJoin(s: string)
    ensures LowerAll(CapitalizedJoin(Split(s))) == LowerAll(Strip(s))
  {
    if s != [] {
      CaselessJoin(s[..|s| - 1]);
      if s[|s| - 1] == '_' {
        CaselessUnderscore(s);
      } else {
        CaselessLetter(s);
        StripLetter(s);
      }
    }
  }

  /** A keyword without underscores is a single piece. */
  lemma {:induction false} SplitSingle(t: string)
    requires '_' !in t
    ensures Split(t) == [t]
  {
    if t != [] {
      SplitSingle(t[..|t| - 1]);
      assert t == t[..|t| - 1] + [t[|t| - 1]];
    }
  }

  /** An underscore followed by text without underscores adds exactly that text as a piece. */
  lemma {:induction false} SplitLastPiece(s: string, t: string)
    requires '_' !in t
    ensures Split(s + "_" + t) == Split(s) + [t]
  {
    if t == [] {
      assert (s + "_" + t)[..|s|] == s;
    } else {
      var t' := t[..|t| - 1];
      SplitLastPiece(s, t');
      assert (s + "_" + t)[..|s + "_" + t| - 1] == s + "_" + t';
      assert t == t' + [t[|t| - 1]];
    }
  }

  /** A keyword without underscores calls "Set" followed by the keyword capitalised. */
  lemma SingleKeyword(name: string)
    requires '_' !in name
    ensures SetterName(name) == "Set" + Capitalize(name)
  {
    SplitSingle(name);
    assert CapitalizedJoin([name]) == Capitalize(name);
  }

  /** A keyword `first_second` whose pieces hold no underscore calls "Set" followed by both
      pieces capitalised. */
  lemma TwoPieceKeyword(first: string, second: string)
    requires '_' !in first && '_' !in second
    ensures SetterName(first + "_" + second) == "Set" + Capitalize(first) + Capitalize(second)
  {
    SplitSingle(first);
    SplitLastPiece(first, second);
    assert [first, second][..1] == [first];
    assert CapitalizedJoin([first]) == Capitalize(first);
  }

  /** The documented example: keyword `dimensions` calls `SetDimensions`. */
  lemma DimensionsKeyword(name: string)
    requires name == "dimensions"
    ensures SetterName(name) == "Set" + "Dimensions"
  {
    CapitalizeDimensions(name);
    SingleKeyword(name);
  }


  lemma CapitalizeDimensions(name: string)
    requires name == "dimensions"
    ensures '_' !in name
    ensures Capitalize(name) == "Dimensions"
  {
  }

  /** The keyword `whole_extent` calls `SetWholeExtent`. */
  lemma WholeExtentKeyword(first: string, second: string)
    requires first == "whole" && second == "extent"
    ensures SetterName(first + "_" + second) == "Set" + "Whole" + "Extent"
  {
    TwoPieceKeyword(first, second);
    CapitalizeWholeExtent(first, second);
  }

  lemma CapitalizeWholeExtent(first: string, second: string)
    requires first == "whole" && second == "extent"
    ensures Capitalize(first) == "Whole" && Capitalize(second) == "Extent"
  {
  }

  /** One more piece: appending its capitalised form extends the name by that piece. */
  lemma CapitalizedJoinSnoc(parts: seq<string>, k: nat, m: string)
    requires k < |parts| && m == "Set" + CapitalizedJoin(parts[..k])
    ensures m + Capitalize(parts[k]) == "Set" + CapitalizedJoin(parts[..k + 1])
  {
    PrefixSnoc(parts, k);
    CapitalizedJoinAppend(parts[..k], parts[k]);
    AppendAssoc("Set", CapitalizedJoin(parts[..k]), Capitalize(parts[k]));
  }

  /** The method name `set_property` builds: the keyword split at underscores, each piece
      capitalised and appended to "Set". */
  method MethodName(name: string) returns (m: string)
    ensures m == SetterName(name)
  {
    m := JoinCapitalized(Split(name));
  }

  /** `method = "Set"`, then `method += part` for each capitalised piece. */
  method JoinCapitalized(parts: seq<string>) returns (m: string)
    ensures m == "Set" + CapitalizedJoin(parts)
  {
    m := "Set";
    for k := 0 to |parts|
      invariant m == "Set" + CapitalizedJoin(parts[..k])
    {
      CapitalizedJoinSnoc(parts, k, m);
      m := m + Capitalize(parts[k]);
    }
    assert parts[..|parts|] == parts;
  }

  // ---------------------------------------------------------------------------------
  // VTK's native setters, as `set_property` reaches them

  /** A keyword's value: an iterable (list, tuple, array) or a single Python object. */
  datatype PropertyValue = Items(items: seq<Scalar>) | Single(x: Scalar)

  /** The positional arguments `set_property` passes: an iterable is unpacked (a string
      into its characters, a bytes object into its integers), anything else is passed alone. */
  function Args(v: PropertyValue): (args: seq<Scalar>)
    ensures v.Items? ==> args == v.items
    ensures v.Single? && !v.x.StrS? && !v.x.BytesS? ==> args == [v.x]
    ensures v.Single? && v.x.StrS? ==> |args| == |v.x.s|
    ensures v.Single? && v.x.BytesS? ==> |args| == |v.x.bytes|
  {
    if v.Items? then v.items
    else if v.x.StrS? then seq(|v.x.s|, i requires 0 <= i < |v.x.s| => StrS([v.x.s[i]]))
    else if v.x.BytesS? then seq(|v.x.bytes|, i requires 0 <= i < |v.x.bytes| => IntS(v.x.bytes[i]))
    else [v.x]
  }

  /** An argument VTK accepts for an `int` parameter (Python booleans are integers). */
  function AsInt(x: Scalar): Option<int> {
    if x.IntS? then Some(x.i) else if x.BoolS? then Some(if x.b then 1 else 0) else None
  }

  /** An argument VTK accepts for a `double` parameter. */
  function AsReal(x: Scalar): Option<real> {
    if x.RealS? then Some(x.r) else if AsInt(x).Some? then Some(AsInt(x).value as real) else None
  }

  predicate AllInts(args: seq<Scalar>) {
    forall i :: 0 <= i < |args| ==> AsInt(args[i]).Some?
  }

  predicate AllReals(args: seq<Scalar>) {
    forall i :: 0 <= i < |args| ==> AsReal(args[i]).Some?
  }

  /** The geometry of an image: its extent, spacing and origin. */
  datatype Geometry = Geometry(extent: Explicit.Extent, spacing: Triple, origin: Triple)

  /** What a native setter call does to the geometry. */
  datatype Change = ExtentTo(e: Explicit.Extent) | SpacingTo(s: Triple) | OriginTo(o: Triple)

  /** `getattr(self, method)(*args)` for the geometry setters of `vtkImageData`: a wrong
      argument count or type raises TypeError, any other method name AttributeError. */
  function Native(setter: string, args: seq<Scalar>): (r: Result<Change>)
    ensures setter == "SetDimensions" && |args| == 3 && AllInts(args) ==>
              r == Ok(ExtentTo(Explicit.ZeroBasedExtent(AsInt(args[0]).value, AsInt(args[1]).value,
                                                        AsInt(args[2]).value)))
    ensures setter == "SetExtent" && |args| == 6 && AllInts(args) ==>
              r.Ok? && r.value.ExtentTo? && forall i :: 0 <= i < 6 ==> r.value.e[i] == AsInt(args[i]).value
    ensures setter == "SetSpacing" && |args| == 3 && AllReals(args) ==>
              r == Ok(SpacingTo((AsReal(args[0]).value, AsReal(args[1]).value, AsReal(args[2]).value)))
    ensures setter == "SetOrigin" && |args| == 3 && AllReals(args) ==>
              r == Ok(OriginTo((AsReal(args[0]).value, AsReal(args[1]).value, AsReal(args[2]).value)))
    ensures r.Err? && setter in {"SetDimensions", "SetExtent", "SetSpacing", "SetOrigin"} ==> r.error == TypeError
    ensures setter !in {"SetDimensions", "SetExtent", "SetSpacing", "SetOrigin"} ==> r == Err(AttributeError)
  {
    if setter == "SetDimensions" then
      if |args| == 3 && AllInts(args) then
        Ok(ExtentTo(Explicit.ZeroBasedExtent(AsInt(args[0]).value, AsInt(args[1]).value, AsInt(args[2]).value)))
      else Err(TypeError)
    else if setter == "SetExtent" then
      if |args| == 6 && AllInts(args) then
        Ok(ExtentTo(seq(6, i requires 0 <= i < 6 => AsInt(args[i]).value)))
      else Err(TypeError)
    else if setter == "SetSpacing" then
      if |args| == 3 && AllReals(args) then
        Ok(SpacingTo((AsReal(args[0]).value, AsReal(args[1]).value, AsReal(args[2]).value)))
      else Err(TypeError)
    else if setter == "SetOrigin" then
      if |args| == 3 && AllReals(args) then
        Ok(OriginTo((AsReal(args[0]).value, AsReal(args[1]).value, AsReal(args[2]).value)))
      else Err(TypeError)
    else Err(AttributeError)
  }

  function Apply(g: Geometry, c: Change): Geometry {
    match c
    case ExtentTo(e) => g.(extent := e)
    case SpacingTo(s) => g.(spacing := s)
    case OriginTo(o) => g.(origin := o)
  }

  /** `__init__(**properties)`: each keyword in turn through `set_property`, the first
      failure ending construction. */
  function ApplyProperties(g: Geometry, props: seq<(string, PropertyValue)>): (r: Result<Geometry>)
    ensures r.Ok? <==> forall k :: 0 <= k < |props| ==> Accepted(props[k])
    ensures r.Err? ==> r.error in {TypeError, AttributeError}
  {
    if props == [] then Ok(g)
    else
      var before := ApplyProperties(g, props[..|props| - 1]);
      var last := props[|props| - 1];
      AllAcceptedSnoc(props, props[..|props| - 1]);
      if before.Err? then before
      else
        var c := Native(SetterName(last.0), Args(last.1));
        if c.Err? then Err(c.error) else Ok(Apply(before.value, c.value))
  }

  /** A keyword whose native setter takes its value. */
  predicate Accepted(prop: (string, PropertyValue)) {
    Native(SetterName(prop.0), Args(prop.1)).Ok?
  }

  lemma AllAcceptedSnoc(props: seq<(string, PropertyValue)>, init: seq<(string, PropertyValue)>)
    requires props != [] && init == props[..|props| - 1]
    ensures (forall k :: 0 <= k < |props| ==> Accepted(props[k]))
        <==> (forall k :: 0 <= k < |init| ==> Accepted(init[k])) && Accepted(props[|props| - 1])
  {
    assert forall k :: 0 <= k < |init| ==> init[k] == props[k];
  }

  lemma SpacingKeyword(name: string)
    requires name == "spacing"
    ensures SetterName(name) == "SetSpacing"
  {
    CapitalizeSpacing(name);
    SingleKeyword(name);
  }

  lemma CapitalizeSpacing(name: string)
    requires name == "spacing"
    ensures '_' !in name
    ensures Capitalize(name) == "Spacing"
  {
  }

  /** Keyword properties go to VTK's own setters, so `spacing` given at construction is not
      checked for negative components the way the `spacing` property is. */
  lemma KeywordSpacingUnchecked(g: Geometry, name: string, a: real, b: real, c: real)
    requires name == "spacing"
    ensures ApplyProperties(g, [(name, Items([RealS(a), RealS(b), RealS(c)]))])
            == Ok(g.(spacing := (a, b, c)))
  {
    var props := [(name, Items([RealS(a), RealS(b), RealS(c)]))];
    assert props[..0] == [];
    SpacingKeyword(name);
    var args := Args(props[0].1);
    assert args == [RealS(a), RealS(b), RealS(c)];
    assert AllReals(args);
    assert Native("SetSpacing", args) == Ok(SpacingTo((a, b, c)));
  }

  // ---------------------------------------------------------------------------------
  // The implicit points

  /** `numpy.full(n, d)`. */
  function Full(n: nat, d: real): seq<real> {
    seq(n, _ => d)
  }

  /** `numpy.cumsum`. */
  function CumSum(s: seq<real>): (c: seq<real>)
    ensures |c| == |s|
  {
    if s == [] then [] else
      var init := CumSum(s[..|s| - 1]);
      init + [(if init == [] then 0.0 else init[|init| - 1]) + s[|s| - 1]]
  }

  /** The running sums of a constant step are its multiples. */
  lemma {:induction false} CumSumFull(n: nat, d: real)
    ensures forall i :: 0 <= i < n ==> CumSum(Full(n, d))[i] == (i + 1) as real * d
  {
    if n > 0 {
      CumSumFull(n - 1, d);
      assert Full(n, d)[..n - 1] == Full(n - 1, d);
    }
  }

  /** `numpy.insert(numpy.cumsum(numpy.full(n - 1, d)), 0, 0.0) + o`. */
  function Axis(n: nat, d: real, o: real): (xs: seq<real>)
    requires n >= 1
    ensures |xs| == n
  {
    var sums := [0.0] + CumSum(Full(n - 1, d));
    seq(n, i requires 0 <= i < n => sums[i] + o)
  }

  /** An axis holds n coordinates `d` apart, starting at `o`. */
  lemma AxisSteps(n: nat, d: real, o: real, i: nat)
    requires 1 <= n && i < n
    ensures Axis(n, d, o)[i] == o + i as real * d
  {
    CumSumFull(n - 1, d);
  }

  /** The dimensions VTK reports for a geometry (points per axis, from the extent). */
  function Dims(g: Geometry): (int, int, int) {
    Explicit.Dimensions(g.extent)
  }

  /** VTK's coordinate for index `i` along an axis whose extent starts at `lo`: the origin plus
      the spacing times the absolute index `lo + i`. */
  function VtkCoord(origin: real, lo: int, i: int, d: real): real {
    origin + (lo + i) as real * d
  }

  /** The point VTK places at structured index (i, j, k) of the extent. */
  function VtkPoint(g: Geometry, i: int, j: int, k: int): Grid.Point3 {
    (VtkCoord(g.origin.0, g.extent[0], i, g.spacing.0),
     VtkCoord(g.origin.1, g.extent[2], j, g.spacing.1),
     VtkCoord(g.origin.2, g.extent[4], k, g.spacing.2))
  }

  /** The three axes of the grid for the given per-axis start coordinates. */
  function Axes(g: Geometry, o: Triple): (seq<real>, seq<real>, seq<real>)
    requires Dims(g).0 >= 1 && Dims(g).1 >= 1 && Dims(g).2 >= 1
  {
    (Axis(Dims(g).0, g.spacing.0, o.0), Axis(Dims(g).1, g.spacing.1, o.1), Axis(Dims(g).2, g.spacing.2, o.2))
  }

  /** The grid of points for the given per-axis start coordinates; `numpy.full` rejects the
      negative count of an axis with no points, raising ValueError. */
  function PointsFrom(g: Geometry, o: Triple): (r: Result<seq<Grid.Point3>>)
    ensures r.Err? <==> Dims(g).0 < 1 || Dims(g).1 < 1 || Dims(g).2 < 1
    ensures r.Err? ==> r.error == ValueError
    ensures r.Ok? ==> |r.value| == Dims(g).0 * Dims(g).1 * Dims(g).2
  {
    var (nx, ny, nz) := Dims(g);
    if nx < 1 || ny < 1 || nz < 1 then Err(ValueError)
    else
      var (xs, ys, zs) := Axes(g, o);
      Grid.MeshgridLayout(xs, ys, zs, 0, 0, 0);
      Ok(Grid.Meshgrid(xs, ys, zs))
  }

  /** `points` as written: the extent's lower corner is added to the origin without being
      scaled by the spacing. */
  function PointsAsWritten(g: Geometry): (r: Result<seq<Grid.Point3>>)
    ensures r.Err? <==> Dims(g).0 < 1 || Dims(g).1 < 1 || Dims(g).2 < 1
    ensures r.Ok? ==> |r.value| == Dims(g).0 * Dims(g).1 * Dims(g).2
    ensures r.Ok? ==> r.value[0] == (g.origin.0 + g.extent[0] as real, g.origin.1 + g.extent[2] as real,
                                     g.origin.2 + g.extent[4] as real)
  {
    var o := (g.origin.0 + g.extent[0] as real, g.origin.1 + g.extent[2] as real,
              g.origin.2 + g.extent[4] as real);
    FirstPoint(g, o);
    PointsFrom(g, o)
  }

  /** `points` with the lower corner scaled by the spacing, so that each row is the point VTK
      itself places there. */
  function Points(g: Geometry): (r: Result<seq<Grid.Point3>>)
    ensures r.Err? <==> Dims(g).0 < 1 || Dims(g).1 < 1 || Dims(g).2 < 1
    ensures r.Ok? ==> |r.value| == Dims(g).0 * Dims(g).1 * Dims(g).2
    ensures r.Ok? ==> r.value[0] == VtkPoint(g, 0, 0, 0)
  {
    FirstPoint(g, Corner(g));
    PointsFrom(g, Corner(g))
  }

  /** The position of the extent's lower corner: VTK's point (0, 0, 0). */
  function Corner(g: Geometry): Triple {
    VtkPoint(g, 0, 0, 0)
  }

  /** The first row of a non-empty grid is its start coordinates. */
  lemma FirstPoint(g: Geometry, o: Triple)
    ensures PointsFrom(g, o).Ok? ==> |PointsFrom(g, o).value| > 0 && PointsFrom(g, o).value[0] == o
  {
    if PointsFrom(g, o).Ok? {
      PointsFromLayout(g, o, 0, 0, 0, 0);
      AxisSteps(Dims(g).0, g.spacing.0, o.0, 0);
      AxisSteps(Dims(g).1, g.spacing.1, o.1, 0);
      AxisSteps(Dims(g).2, g.spacing.2, o.2, 0);
    }
  }

  /** Row `p = i + nx*(j + ny*k)` of the grid is (x[i], y[j], z[k]) on the three axes. */
  lemma PointsFromLayout(g: Geometry, o: Triple, i: nat, j: nat, k: nat, p: nat)
    requires i < Dims(g).0 && j < Dims(g).1 && k < Dims(g).2
    requires p == i + Dims(g).0 * (j + Dims(g).1 * k)
    ensures PointsFrom(g, o).Ok? && p < |PointsFrom(g, o).value|
    ensures PointsFrom(g, o).value[p] == (Axes(g, o).0[i], Axes(g, o).1[j], Axes(g, o).2[k])
  {
    var (xs, ys, zs) := Axes(g, o);
    Grid.MeshgridLayout(xs, ys, zs, i, j, k);
  }

  /** Stepping i times from VTK's first coordinate on an axis reaches VTK's coordinate i. */
  lemma AxisFromCorner(n: nat, d: real, origin: real, lo: int, i: nat)
    requires 1 <= n && i < n
    ensures Axis(n, d, VtkCoord(origin, lo, 0, d))[i] == VtkCoord(origin, lo, i, d)
  {
    AxisSteps(n, d, VtkCoord(origin, lo, 0, d), i);
    assert (lo + i) as real * d == lo as real * d + i as real * d;
  }

  /** Row `p = i + nx*(j + ny*k)` of the points (of which there are `nx*ny*nz`, as
      `PointsFrom` states) is VTK's point at (i, j, k): x index fastest, then y, then z. */
  lemma PointsLayout(g: Geometry, i: nat, j: nat, k: nat, p: nat)
    requires i < Dims(g).0 && j < Dims(g).1 && k < Dims(g).2
    requires p == i + Dims(g).0 * (j + Dims(g).1 * k)
    ensures Points(g).Ok? && p < |Points(g).value|
    ensures Points(g).value[p] == VtkPoint(g, i, j, k)
  {
    PointsFromLayout(g, Corner(g), i, j, k, p);
    AxisFromCorner(Dims(g).0, g.spacing.0, g.origin.0, g.extent[0], i);
    AxisFromCorner(Dims(g).1, g.spacing.1, g.origin.1, g.extent[2], j);
    AxisFromCorner(Dims(g).2, g.spacing.2, g.origin.2, g.extent[4], k);
  }

  /** The grid of the docstring, extent (0, 1, 0, 1, 0, 1) with unit spacing at the origin,
      has 8 points: the second one step along x, the third along y, the fifth along z. */
  lemma DocstringPoints(g: Geometry)
    requires g == Geometry([0, 1, 0, 1, 0, 1], (1.0, 1.0, 1.0), (0.0, 0.0, 0.0))
    ensures Points(g).Ok? && |Points(g).value| == 8
    ensures Points(g).value[0] == (0.0, 0.0, 0.0) && Points(g).value[1] == (1.0, 0.0, 0.0)
    ensures Points(g).value[2] == (0.0, 1.0, 0.0) && Points(g).value[4] == (0.0, 0.0, 1.0)
    ensures Points(g).value[7] == (1.0, 1.0, 1.0)
  {
    assert Dims(g) == (2, 2, 2);
    PointsLayout(g, 0, 0, 0, 0);
    PointsLayout(g, 1, 0, 0, 1);
    PointsLayout(g, 0, 1, 0, 2);
    PointsLayout(g, 0, 0, 1, 4);
    PointsLayout(g, 1, 1, 1, 7);
  }

  /** As written, an extent that does not start at zero combined with a spacing other than
      one puts the first point at origin + extent_min instead of VTK's origin +
      spacing * extent_min. */
  lemma PointsAsWrittenMisplaced(g: Geometry)
    requires g == Geometry([2, 5, 2, 5, 2, 5], (2.0, 2.0, 2.0), (0.0, 0.0, 0.0))
    ensures PointsAsWritten(g).Ok? && |PointsAsWritten(g).value| == 64
    ensures PointsAsWritten(g).value[0] == (2.0, 2.0, 2.0)
    ensures VtkPoint(g, 0, 0, 0) == (4.0, 4.0, 4.0)
  {
    var o := (2.0, 2.0, 2.0);
    assert Dims(g) == (4, 4, 4);
    PointsFromLayout(g, o, 0, 0, 0, 0);
    AxisSteps(4, 2.0, 2.0, 0);
  }

  /** `x`, `y` and `z`: columns 0, 1 and 2 of the points. */
  function Column(r: Result<seq<Grid.Point3>>, axis: nat): (c: Result<seq<real>>)
    requires axis < 3
    ensures c.Ok? <==> r.Ok?
    ensures r.Err? ==> c.error == r.error
    ensures r.Ok? ==> |c.value| == |r.value|
  {
    if r.Err? then Err(r.error)
    else
      var pts := r.value;
      Ok(seq(|pts|, p requires 0 <= p < |pts| =>
        if axis == 0 then pts[p].0 else if axis == 1 then pts[p].1 else pts[p].2))
  }

  /** The x column only depends on the x index, the y column on the y index, the z column
      on the z index: each is VTK's coordinate along its own axis. */
  lemma ColumnsFollowIndices(g: Geometry, i: nat, j: nat, k: nat, p: nat)
    requires i < Dims(g).0 && j < Dims(g).1 && k < Dims(g).2
    requires p == i + Dims(g).0 * (j + Dims(g).1 * k)
    ensures Column(Points(g), 0).Ok? && p < |Column(Points(g), 0).value|
    ensures Column(Points(g), 0).value[p] == VtkCoord(g.origin.0, g.extent[0], i, g.spacing.0)
    ensures Column(Points(g), 1).value[p] == VtkCoord(g.origin.1, g.extent[2], j, g.spacing.1)
    ensures Column(Points(g), 2).value[p] == VtkCoord(g.origin.2, g.extent[4], k, g.spacing.2)
  {
    PointsLayout(g, i, j, k, p);
  }

  // ---------------------------------------------------------------------------------
  // The wrapped image

  /** A `vtkImageData` (or structured points, or uniform grid) and its modification time,
      which counts the `Modified()` calls the wrapper makes. */
  class ImageData {
    var extent: Explicit.Extent
    var spacing: Triple
    var origin: Triple
    var mtime: nat

    /** VTK's initial state: an empty extent, unit spacing, origin at zero. */
    constructor ()
      ensures extent == [0, -1, 0, -1, 0, -1] && spacing == (1.0, 1.0, 1.0)
      ensures origin == (0.0, 0.0, 0.0) && mtime == 0
    {
      extent := [0, -1, 0, -1, 0, -1];
      spacing := (1.0, 1.0, 1.0);
      origin := (0.0, 0.0, 0.0);
      mtime := 0;
    }

    function Current(): Geometry
      reads this
    {
      Geometry(extent, spacing, origin)
    }

    /** `dimensions`. */
    function Dimensions(): (d: (int, int, int))
      reads this
      ensures d == (extent[1] - extent[0] + 1, extent[3] - extent[2] + 1, extent[5] - extent[4] + 1)
    {
      Dims(Current())
    }

    method Assign(c: Change)
      modifies this
      ensures Current() == Apply(old(Current()), c) && mtime == old(mtime)
    {
      match c
      case ExtentTo(e) => extent := e;
      case SpacingTo(s) => spacing := s;
      case OriginTo(o) => origin := o;
    }

    /** `set_property`: build the setter name, then call it with the value unpacked when it is
        iterable. */
    method SetProperty(name: string, value: PropertyValue) returns (r: Outcome)
      modifies this
      ensures var c := Native(SetterName(name), Args(value));
              && (c.Err? ==> r == Fail(c.error) && Current() == old(Current()))
              && (c.Ok? ==> r == Pass && Current() == Apply(old(Current()), c.value))
      ensures mtime == old(mtime)
    {
      var setter := MethodName(name);
      var c := Native(setter, Args(value));
      if c.Err? {
        return Fail(c.error);
      }
      Assign(c.value);
      return Pass;
    }

    /** The body of `__init__`: `set_property` for each keyword in order. */
    method SetProperties(props: seq<(string, PropertyValue)>) returns (r: Outcome)
      modifies this
      ensures var g := ApplyProperties(old(Current()), props);
              && (g.Ok? ==> r == Pass && Current() == g.value)
              && (g.Err? ==> r == Fail(g.error))
    {
      for k := 0 to |props|
        invariant ApplyProperties(old(Current()), props[..k]) == Ok(Current())
      {
        assert props[..k + 1][..k] == props[..k];
        r := SetProperty(props[k].0, props[k].1);
        if r.Fail? {
          ApplyPropertiesStops(old(Current()), props, k + 1);
          return;
        }
      }
      assert props[..|props|] == props;
      return Pass;
    }

    /** The `dimensions` setter: `SetDimensions(*dims)`, then `Modified()`. */
    method SetDimensions(dims: seq<Scalar>) returns (r: Outcome)
      modifies this
      ensures r.Pass? <==> |dims| == 3 && AllInts(dims)
      ensures r.Fail? ==> r.error == TypeError && Current() == old(Current()) && mtime == old(mtime)
      ensures r.Pass? ==> Dimensions() == (AsInt(dims[0]).value, AsInt(dims[1]).value, AsInt(dims[2]).value)
                          && extent[0] == 0 && extent[2] == 0 && extent[4] == 0
                          && spacing == old(spacing) && origin == old(origin) && mtime == old(mtime) + 1
    {
      var c := Native("SetDimensions", dims);
      if c.Err? {
        return Fail(c.error);
      }
      Assign(c.value);
      Explicit.DimensionsOfZeroBased(AsInt(dims[0]).value, AsInt(dims[1]).value, AsInt(dims[2]).value);
      mtime := mtime + 1;
      return Pass;
    }

    /** The `spacing` setter: ValueError for an empty sequence (`min` of nothing) or a
        negative component, TypeError for a non-number, then `SetSpacing(*spacing)` and
        `Modified()`. */
    method SetSpacing(s: seq<Scalar>) returns (r: Outcome)
      modifies this
      ensures r.Pass? <==> |s| == 3 && AllReals(s) && forall i :: 0 <= i < 3 ==> AsReal(s[i]).value >= 0.0
      ensures r.Pass? ==> spacing == (AsReal(s[0]).value, AsReal(s[1]).value, AsReal(s[2]).value)
                          && extent == old(extent) && origin == old(origin) && mtime == old(mtime) + 1
      ensures r.Fail? ==> Current() == old(Current()) && mtime == old(mtime)
      ensures |s| == 0 ==> r == Fail(ValueError)
      ensures AllReals(s) && (exists i :: 0 <= i < |s| && AsReal(s[i]).value < 0.0) ==> r == Fail(ValueError)
      ensures 0 < |s| != 3 && AllReals(s) && (forall i :: 0 <= i < |s| ==> AsReal(s[i]).value >= 0.0) ==>
                r == Fail(TypeError)
      ensures |s| > 0 && !AllReals(s) ==> r == Fail(TypeError)
    {
      if |s| == 0 {
        return Fail(ValueError);
      }
      if !AllReals(s) {
        return Fail(TypeError);
      }
      var i := 0;
      while i < |s|
        invariant 0 <= i <= |s|
        invariant forall j :: 0 <= j < i ==> AsReal(s[j]).value >= 0.0
      {
        if AsReal(s[i]).value < 0.0 {
          return Fail(ValueError);
        }
        i := i + 1;
      }
      var c := Native("SetSpacing", s);
      if c.Err? {
        return Fail(c.error);
      }
      Assign(c.value);
      mtime := mtime + 1;
      return Pass;
    }

    /** The `origin` setter: `SetOrigin(origin[0], origin[1], origin[2])` (IndexError for fewer
        than three values, later values ignored), then `Modified()`. */
    method SetOrigin(o: seq<Scalar>) returns (r: Outcome)
      modifies this
      ensures |o| < 3 ==> r == Fail(IndexError)
      ensures r.Pass? <==> |o| >= 3 && AllReals(o[..3])
      ensures r.Pass? ==> origin == (AsReal(o[0]).value, AsReal(o[1]).value, AsReal(o[2]).value)
                          && extent == old(extent) && spacing == old(spacing) && mtime == old(mtime) + 1
      ensures |o| >= 3 && r.Fail? ==> r == Fail(TypeError)
      ensures r.Fail? ==> Current() == old(Current()) && mtime == old(mtime)
    {
      if |o| < 3 {
        return Fail(IndexError);
      }
      var c := Native("SetOrigin", [o[0], o[1], o[2]]);
      if c.Err? {
        return Fail(c.error);
      }
      Assign(c.value);
      mtime := mtime + 1;
      return Pass;
    }

    /** The `extent` setter: ValueError unless there are exactly six values, then
        `SetExtent(new_extent)`; it does not call `Modified()` itself. */
    method SetExtent(e: seq<Scalar>) returns (r: Outcome)
      modifies this
      ensures |e| != 6 ==> r == Fail(ValueError)
      ensures r.Pass? <==> |e| == 6 && AllInts(e)
      ensures r.Pass? ==> (forall i :: 0 <= i < 6 ==> extent[i] == AsInt(e[i]).value)
                          && spacing == old(spacing) && origin == old(origin)
      ensures |e| == 6 && r.Fail? ==> r == Fail(TypeError)
      ensures r.Fail? ==> Current() == old(Current())
      ensures mtime == old(mtime)
    {
      if |e| != 6 {
        return Fail(ValueError);
      }
      var c := Native("SetExtent", e);
      if c.Err? {
        return Fail(c.error);
      }
      Assign(c.value);
      return Pass;
    }

    /** The `points` setter: the points are implicit and cannot be assigned. */
    method SetPoints(points: seq<Grid.Point3>) returns (r: Outcome)
      ensures r == Fail(AttributeError)
    {
      return Fail(AttributeError);
    }
  }

  /** Once a keyword fails, construction has failed with that keyword's error. */
  lemma {:induction false} ApplyPropertiesStops(g: Geometry, props: seq<(string, PropertyValue)>, n: nat)
    requires 1 <= n <= |props|
    requires ApplyProperties(g, props[..n - 1]).Ok?
    requires Native(SetterName(props[n - 1].0), Args(props[n - 1].1)).Err?
    ensures ApplyProperties(g, props) == Err(Native(SetterName(props[n - 1].0), Args(props[n - 1].1)).error)
    decreases |props|
  {
    if n < |props| {
      assert props[..|props| - 1][..n - 1] == props[..n - 1];
      assert props[..|props| - 1][n - 1] == props[n - 1];
      ApplyPropertiesStops(g, props[..|props| - 1], n);
    } else {
      assert props[..n - 1] == props[..|props| - 1];
    }
  }
}
