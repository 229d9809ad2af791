/** Multi-block datasets (vtk_override/datamodel/composite/composite.py) and the attribute
    union over their leaf blocks (`CompositeDataSetAttributes` in
    vtk_override/datamodel/fields.py). */
module Composite {
  import opened Wrappers
  import opened Shapes
  import opened Fields

  /** A non-empty leaf block: its three attribute tables and what `ds.Points` yields (None when
      the block has no points). */
  class Leaf {
    const pointData: FieldData
    const cellData: FieldData
    const fieldData: FieldData
    const points: Option<NdArray>

    constructor (pointData: FieldData, cellData: FieldData, fieldData: FieldData, points: Option<NdArray>)
      ensures this.pointData == pointData && this.cellData == cellData
      ensures this.fieldData == fieldData && this.points == points
    {
      this.pointData, this.cellData, this.fieldData, this.points := pointData, cellData, fieldData, points;
    }

    /** `GetAttributes(association)`. */
    function Attributes(a: Association): FieldData {
      if a == Point then pointData else if a == Cell then cellData else fieldData
    }
  }

  /** `CompositeDataIterator`: walks the leaves of a composite dataset in traversal order; a
      null VTK iterator yields nothing. */
  class CompositeDataIterator {
    const items: seq<Leaf>
    const isNull: bool
    var pos: nat

    constructor (cds: CompositeDataSet)
      ensures items == cds.leaves && isNull == !cds.hasIterator && pos == 0
    {
      items := cds.leaves;
      isNull := !cds.hasIterator;
      pos := 0;
    }

    /** `__next__`: StopIteration (None here) when the iterator is null or traversal is done;
        otherwise the current leaf, after which the iterator advances. */
    method Next() returns (r: Option<Leaf>)
      modifies this
      ensures isNull || old(pos) >= |items| ==> r.None? && pos == old(pos)
      ensures !isNull && old(pos) < |items| ==> r == Some(items[old(pos)]) && pos == old(pos) + 1
    {
      if isNull || pos >= |items| {
        return None;
      }
      r := Some(items[pos]);
      pos := pos + 1;
    }
  }

  /** A composite `points` value: `NoneArray`, or a composite array of per-leaf points. */
  class CompositePoints {
    const parts: seq<Option<NdArray>>
    var alive: bool

    constructor (parts: seq<Option<NdArray>>)
      ensures this.parts == parts && alive
    {
      this.parts := parts;
      alive := true;
    }
  }

  /** The `_Points` cache: empty, the `NoneArray` singleton (never collected), or a weak
      reference to a composite array. */
  datatype PointsCache = NoCache | CachedNone | Cached(arr: CompositePoints)

  datatype PointsResult = NonePoints | Points(arr: CompositePoints)

  /** At least one leaf contributed points. */
  predicate AnyPoints(parts: seq<Option<NdArray>>) {
    exists i :: 0 <= i < |parts| && parts[i].Some?
  }

  class CompositeDataSet {
    const leaves: seq<Leaf>
    const hasIterator: bool
    var pointDataCache: CompositeAttributes?
    var cellDataCache: CompositeAttributes?
    var fieldDataCache: CompositeAttributes?
    var pointsCache: PointsCache

    constructor (leaves: seq<Leaf>, hasIterator: bool)
      ensures this.leaves == leaves && this.hasIterator == hasIterator
      ensures pointDataCache == null && cellDataCache == null && fieldDataCache == null
      ensures pointsCache == NoCache
    {
      this.leaves, this.hasIterator := leaves, hasIterator;
      pointDataCache, cellDataCache, fieldDataCache := null, null, null;
      pointsCache := NoCache;
    }

    /** The leaves `for ds in self` visits. */
    function Visited(): seq<Leaf> {
      if hasIterator then leaves else []
    }

    /** The leaves' tables for an association are distinct objects. */
    ghost predicate DistinctTables(a: Association) {
      forall i, j :: 0 <= i < j < |leaves| ==> leaves[i].Attributes(a) != leaves[j].Attributes(a)
    }

    /** `for ds in self`: drain a fresh iterator. */
    method Blocks() returns (bs: seq<Leaf>)
      ensures bs == Visited()
    {
      var it := new CompositeDataIterator(this);
      bs := [];
      while true
        invariant it.items == leaves && it.isNull == !hasIterator
        invariant it.pos <= |it.items|
        invariant bs == if it.isNull then [] else it.items[..it.pos]
        decreases |it.items| - it.pos
      {
        var x := it.Next();
        if x.None? {
          break;
        }
        assert it.items[..it.pos] == it.items[..it.pos - 1] + [x.value];
        bs := bs + [x.value];
      }
      assert !it.isNull ==> it.items[..it.pos] == it.items;
    }

    function Cache(a: Association): CompositeAttributes?
      reads this
    {
      if a == Point then pointDataCache else if a == Cell then cellDataCache else fieldDataCache
    }

    /** `point_data`, `cell_data` and `field_data`: the cached union for the association while
        its weak handle is alive, otherwise a new union, which is cached. */
    method AttributesOf(a: Association) returns (u: CompositeAttributes)
      requires a == Point || a == Cell || a == Field
      modifies this
      ensures old(Cache(a)) != null && old(Cache(a).alive) ==>
                u == old(Cache(a)) && pointDataCache == old(pointDataCache)
                && cellDataCache == old(cellDataCache) && fieldDataCache == old(fieldDataCache)
      ensures !(old(Cache(a)) != null && old(Cache(a).alive)) ==>
                fresh(u) && u.dataSet == this && u.association == a && u.alive && u.arrays == map[]
                && u.arrayNames == Dedupe(AllKeys(TablesOf(Visited(), a)))
                && Cache(a) == u
                && forall b :: b != a && (b == Point || b == Cell || b == Field) ==> Cache(b) == old(Cache(b))
      ensures pointsCache == old(pointsCache)
    {
      var c := Cache(a);
      if c != null && c.alive {
        return c;
      }
      ghost var tables := TablesOf(Visited(), a);
      u := new CompositeAttributes(this, a);
      assert forall i :: 0 <= i < |tables| ==> tables[i] as object != this;
      Install(a, u);
    }

    /** Cache `u` as the union for association `a`. */
    method Install(a: Association, u: CompositeAttributes)
      requires a == Point || a == Cell || a == Field
      modifies this
      ensures Cache(a) == u && pointsCache == old(pointsCache)
      ensures forall b :: b != a && (b == Point || b == Cell || b == Field) ==> Cache(b) == old(Cache(b))
    {
      if a == Point {
        pointDataCache := u;
      } else if a == Cell {
        cellDataCache := u;
      } else {
        fieldDataCache := u;
      }
    }

    /** `points`: one entry per visited leaf, None for a leaf without points; `NoneArray` when
        there is no leaf or no leaf has points. Cached like the attribute unions. */
    method GetPoints() returns (r: PointsResult)
      modifies this
      ensures old(pointsCache).CachedNone? ==> r == NonePoints && pointsCache == old(pointsCache)
      ensures old(pointsCache).Cached? && old(pointsCache.arr.alive) ==>
                r == Points(old(pointsCache).arr) && pointsCache == old(pointsCache)
      ensures old(pointsCache).NoCache? || (old(pointsCache).Cached? && !old(pointsCache.arr.alive)) ==>
                var parts := seq(|Visited()|, i requires 0 <= i < |Visited()| => Visited()[i].points);
                && (!AnyPoints(parts) ==> r == NonePoints && pointsCache == CachedNone)
                && (AnyPoints(parts) ==>
                      r.Points? && fresh(r.arr) && r.arr.parts == parts && r.arr.alive
                      && pointsCache == Cached(r.arr))
      ensures pointDataCache == old(pointDataCache) && cellDataCache == old(cellDataCache)
      ensures fieldDataCache == old(fieldDataCache)
    {
      if pointsCache.CachedNone? {
        return NonePoints;
      }
      if pointsCache.Cached? && pointsCache.arr.alive {
        return Points(pointsCache.arr);
      }
      var blocks := Blocks();
      var pts: seq<Option<NdArray>> := [];
      for i := 0 to |blocks|
        invariant pts == seq(i, k requires 0 <= k < i => blocks[k].points)
      {
        pts := pts + [blocks[i].points];
      }
      assert pts == seq(|Visited()|, i requires 0 <= i < |Visited()| => Visited()[i].points);
      if |pts| == 0 || !(exists i :: 0 <= i < |pts| && pts[i].Some?) {
        pointsCache := CachedNone;
        return NonePoints;
      }
      var cpts := new CompositePoints(pts);
      pointsCache := Cached(cpts);
      return Points(cpts);
    }
  }

  // ---------------------------------------------------------------------------------
  // The union of array names

  /** Each leaf's table for an association, leaf after leaf. */
  function TablesOf(blocks: seq<Leaf>, a: Association): (ts: seq<FieldData>)
    ensures |ts| == |blocks|
    ensures forall k :: 0 <= k < |blocks| ==> ts[k] == blocks[k].Attributes(a)
  {
    seq(|blocks|, k requires 0 <= k < |blocks| => blocks[k].Attributes(a))
  }

  /** The keys of each table, table after table. */
  function AllKeys(tables: seq<FieldData>): (ks: seq<string>)
    reads set i | 0 <= i < |tables| :: tables[i]
    ensures forall i, k :: 0 <= i < |tables| && k in Names(tables[i].arrays) ==> k in ks
    ensures forall k :: k in ks ==> exists i :: 0 <= i < |tables| && k in Names(tables[i].arrays)
  {
    if tables == [] then []
    else AllKeys(tables[..|tables| - 1]) + Names(tables[|tables| - 1].arrays)
  }

  /** The distinct elements of `s` in order of first appearance. */
  function Dedupe(s: seq<string>): (d: seq<string>)
    ensures |d| <= |s|
    ensures s != [] ==> d != [] && d[0] == s[0]
  {
    if s == [] then []
    else
      var init := s[..|s| - 1];
      Dedupe(init) + (if s[|s| - 1] in init then [] else [s[|s| - 1]])
  }

  predicate NoDup(s: seq<string>) {
    forall i, j :: 0 <= i < j < |s| ==> s[i] != s[j]
  }

  /** The union holds each name found in some leaf, exactly once. */
  lemma {:induction false} DedupeUnion(s: seq<string>)
    ensures forall x :: x in Dedupe(s) <==> x in s
    ensures NoDup(Dedupe(s))
  {
    if s != [] {
      var init := s[..|s| - 1];
      DedupeUnion(init);
      assert s == init + [s[|s| - 1]];
    }
  }

  /** First-seen order: a name comes before another in the union exactly when its first
      occurrence among the leaves' keys comes first. */
  lemma {:induction false} DedupeFirstSeen(s: seq<string>, i: nat, j: nat)
    requires i < j < |Dedupe(s)|
    ensures Dedupe(s)[i] in s && Dedupe(s)[j] in s
    ensures FirstIndex(s, Dedupe(s)[i]) < FirstIndex(s, Dedupe(s)[j])
  {
    DedupeUnion(s);
    var init := s[..|s| - 1];
    var last := s[|s| - 1];
    assert s == init + [last];
    DedupeUnion(init);
    var d := Dedupe(s);
    if j < |Dedupe(init)| {
      DedupeFirstSeen(init, i, j);
      FirstIndexPrefix(init, last, d[i]);
      FirstIndexPrefix(init, last, d[j]);
    } else {
      // d[j] is `last`, seen for the first time at the end
      assert d[j] == last && last !in init;
      assert d[i] in init;
      FirstIndexPrefix(init, last, d[i]);
      FirstIndexOfLast(init, last);
    }
  }

  function FirstIndex(s: seq<string>, x: string): (k: nat)
    requires x in s
    ensures k < |s| && s[k] == x && forall j :: 0 <= j < k ==> s[j] != x
  {
    if s[0] == x then 0 else 1 + FirstIndex(s[1..], x)
  }

  lemma FirstIndexPrefix(s: seq<string>, y: string, x: string)
    requires x in s
    ensures x in s + [y] && FirstIndex(s + [y], x) == FirstIndex(s, x)
  {
    var k := FirstIndex(s, x);
    assert (s + [y])[k] == x;
  }

  lemma FirstIndexOfLast(s: seq<string>, y: string)
    requires y !in s
    ensures y in s + [y] && FirstIndex(s + [y], y) == |s|
  {
    assert (s + [y])[|s|] == y;
  }

  // ---------------------------------------------------------------------------------
  // CompositeDataSetAttributes

  /** Where a composite array's per-block arrays come from: given parts (a value passed to
      `set_array`), or read from the blocks by name (an array `get_array` synthesized). */
  datatype ArraySource = FromParts(parts: seq<Option<Value>>) | FromBlocks(name: string, association: Association)

  /** A `VTKCompositeDataArray`, with a flag telling whether something still references it. */
  class CompositeArray {
    const source: ArraySource
    var alive: bool

    constructor (source: ArraySource)
      ensures this.source == source && alive
    {
      this.source := source;
      alive := true;
    }
  }

  /** `set_array`'s value: a plain value (possibly `NoneArray`) or a composite array. */
  datatype CompositeValue = Plain(v: Value) | Many(arr: CompositeArray)

  /** The leaf's table rejects the value: `set_array` on it raises. */
  predicate Rejects(t: FieldData, ov: Option<Value>) {
    ov.Some? && WellFormed(ov.value) && !ov.value.NoneValue?
    && Prepare(t.association, t.owner, ov.value).Err?
  }

  /** A leaf table's arrays after `set_array(name, value)` on it (None: not called). */
  function Effect(cols: seq<Column>, t: FieldData, ov: Option<Value>, name: string): seq<Column> {
    if ov.None? || !WellFormed(ov.value) || ov.value.NoneValue? then cols
    else if Prepare(t.association, t.owner, ov.value).Err? then cols
    else Store(cols, Column(Some(name), Prepare(t.association, t.owner, ov.value).value, true))
  }

  /** What `set_array` accepts: a plain value, or a composite array built from parts. */
  predicate WellFormedValue(value: CompositeValue) {
    && (value.Plain? ==> WellFormed(value.v))
    && (value.Many? ==>
          value.arr.source.FromParts?
          && forall i :: 0 <= i < |value.arr.source.parts| && value.arr.source.parts[i].Some? ==>
               WellFormed(value.arr.source.parts[i].value))
  }

  /** The value each of the first `n` visited blocks is given: a plain value goes to every
      block, a composite value's parts are zipped with the blocks. */
  function Parts(value: CompositeValue, n: nat): (ps: seq<Option<Value>>)
    requires WellFormedValue(value)
    ensures |ps| <= n
    ensures forall i :: 0 <= i < |ps| && ps[i].Some? ==> WellFormed(ps[i].value)
  {
    if value.Plain? then seq(n, _ => Some(value.v))
    else
      var parts := value.arr.source.parts;
      if |parts| < n then parts else parts[..n]
  }

  /** Appending one name extends the deduplicated sequence by that name exactly when it is new. */
  lemma DedupeSnoc(s: seq<string>, name: string)
    ensures Dedupe(s + [name]) == Dedupe(s) + (if name in s then [] else [name])
  {
    assert (s + [name])[..|s|] == s;
  }

  /** The keys of one more table come after those of the tables before it. */
  lemma AllKeysSnoc(tables: seq<FieldData>, i: nat)
    requires i < |tables|
    ensures AllKeys(tables[..i + 1]) == AllKeys(tables[..i]) + Names(tables[i].arrays)
  {
    assert tables[..i + 1][..i] == tables[..i];
  }

  /** `__determine_arraynames`: walk the blocks and their keys, keeping each name the first
      time it is seen. */
  method DetermineArrayNames(blocks: seq<Leaf>, a: Association) returns (names: seq<string>)
    ensures names == Dedupe(AllKeys(TablesOf(blocks, a)))
  {
    ghost var tables := TablesOf(blocks, a);
    var seen: set<string> := {};
    names := [];
    for i := 0 to |blocks|
      invariant names == Dedupe(AllKeys(tables[..i]))
      invariant forall x :: x in seen <==> x in AllKeys(tables[..i])
    {
      // dsa.keys(), whose result FieldData.Keys computes
      var ks := Names(blocks[i].Attributes(a).arrays);
      ghost var before := AllKeys(tables[..i]);
      AllKeysSnoc(tables, i);
      assert AllKeys(tables[..i + 1]) == before + ks;
      names, seen := AddUnseen(names, seen, ks, before);
    }
    assert tables[..|blocks|] == tables;
  }

  /** The inner loop of `__determine_arraynames`: append each of `ks` not seen yet. */
  method AddUnseen(names0: seq<string>, seen0: set<string>, ks: seq<string>, ghost before: seq<string>)
    returns (names: seq<string>, seen: set<string>)
    requires names0 == Dedupe(before)
    requires forall x :: x in seen0 <==> x in before
    ensures names == Dedupe(before + ks)
    ensures forall x :: x in seen <==> x in before + ks
  {
    names, seen := names0, seen0;
    assert before + ks[..0] == before;
    for j := 0 to |ks|
      invariant names == Dedupe(before + ks[..j])
      invariant forall x :: x in seen <==> x in before + ks[..j]
    {
      var name := ks[j];
      assert before + ks[..j + 1] == (before + ks[..j]) + [name];
      DedupeSnoc(before + ks[..j], name);
      if name !in seen {
        seen := seen + {name};
        names := names + [name];
      }
    }
    assert ks[..|ks|] == ks;
  }

  class CompositeAttributes {
    const dataSet: CompositeDataSet
    const association: Association
    var arrayNames: seq<string>
    var arrays: map<string, CompositeArray>
    var alive: bool

    /** `__init__` with `__determine_arraynames`: the union, in first-seen order, of the keys of
        every visited leaf's table. */
    constructor (ds: CompositeDataSet, association: Association)
      ensures dataSet == ds && this.association == association && arrays == map[] && alive
      ensures arrayNames == Dedupe(AllKeys(TablesOf(ds.Visited(), association)))
    {
      dataSet := ds;
      this.association := association;
      arrayNames := [];
      arrays := map[];
      alive := true;
      new;
      var blocks := ds.Blocks();
      arrayNames := DetermineArrayNames(blocks, association);
      assert forall i :: 0 <= i < |blocks| ==> blocks[i].Attributes(association) as object != this;
    }

    /** `keys()`. */
    function Keys(): seq<string>
      reads this
    {
      arrayNames
    }

    /** The tables the union writes to, leaf by leaf. */
    function Table(b: Leaf): FieldData {
      b.Attributes(association)
    }

    ghost function Tables(): set<FieldData>
      reads this
    {
      set i | 0 <= i < |dataSet.leaves| :: dataSet.leaves[i].Attributes(association)
    }

    /** Call `set_array(name, vals[i])` on block i's table, for each i with a value, stopping
        at the first table that raises. */
    method FanOut(name: string, blocks: seq<Leaf>, vals: seq<Option<Value>>) returns (r: Outcome, added: bool)
      requires blocks == dataSet.Visited() && dataSet.DistinctTables(association)
      requires |vals| <= |blocks|
      requires forall i :: 0 <= i < |vals| && vals[i].Some? ==> WellFormed(vals[i].value)
      modifies Tables()
      ensures r.Pass? ==>
                forall i :: 0 <= i < |vals| ==>
                  !Rejects(Table(blocks[i]), vals[i])
                  && Table(blocks[i]).arrays == Effect(old(Table(blocks[i]).arrays), Table(blocks[i]), vals[i], name)
      ensures r.Pass? ==> forall i :: |vals| <= i < |blocks| ==> Table(blocks[i]).arrays == old(Table(blocks[i]).arrays)
      ensures r.Pass? ==> (added <==> exists i :: 0 <= i < |vals| && vals[i].Some?)
      ensures r.Fail? ==>
                exists k :: 0 <= k < |vals| && Rejects(Table(blocks[k]), vals[k])
                  && r.error == Prepare(Table(blocks[k]).association, Table(blocks[k]).owner, vals[k].value).error
                  && (forall i :: 0 <= i < k ==>
                        !Rejects(Table(blocks[i]), vals[i])
                        && Table(blocks[i]).arrays == Effect(old(Table(blocks[i]).arrays), Table(blocks[i]), vals[i], name))
                  && (forall i :: k <= i < |blocks| ==> Table(blocks[i]).arrays == old(Table(blocks[i]).arrays))
    {
      added := false;
      for i := 0 to |vals|
        invariant forall j :: 0 <= j < i ==>
                    !Rejects(Table(blocks[j]), vals[j])
                    && Table(blocks[j]).arrays == Effect(old(Table(blocks[j]).arrays), Table(blocks[j]), vals[j], name)
        invariant forall j :: i <= j < |blocks| ==> Table(blocks[j]).arrays == old(Table(blocks[j]).arrays)
        invariant added <==> exists j :: 0 <= j < i && vals[j].Some?
      {
        var t := Table(blocks[i]);
        assert forall j :: 0 <= j < |blocks| && j != i ==> Table(blocks[j]) != t;
        if vals[i].Some? {
          var o := t.SetArray(Some(name), vals[i].value);
          if o.Fail? {
            return o, added;
          }
          added := true;
        }
      }
      return Pass, added;
    }

    /** Fan the values out over the blocks; when some block took its value, append the name
        to the keys and cache `cached` (the composite value, if any) under it. */
    method Distribute(name: string, blocks: seq<Leaf>, vals: seq<Option<Value>>, cached: Option<CompositeArray>)
      returns (r: Outcome)
      requires blocks == dataSet.Visited() && dataSet.DistinctTables(association)
      requires |vals| <= |blocks|
      requires forall i :: 0 <= i < |vals| && vals[i].Some? ==> WellFormed(vals[i].value)
      modifies this, Tables()
      ensures r.Pass? ==>
                (forall i :: 0 <= i < |vals| ==>
                   var t := Table(blocks[i]);
                   t.arrays == Effect(old(t.arrays), t, vals[i], name))
                && (forall i :: |vals| <= i < |blocks| ==>
                      var t := Table(blocks[i]);
                      t.arrays == old(t.arrays))
                && var added := exists i :: 0 <= i < |vals| && vals[i].Some?;
                   && arrayNames == old(arrayNames) + (if added then [name] else [])
                   && arrays == (if added && cached.Some? then old(arrays)[name := cached.value] else old(arrays))
      ensures r.Fail? ==>
                arrayNames == old(arrayNames) && arrays == old(arrays)
                && exists k :: 0 <= k < |vals| && Rejects(Table(blocks[k]), vals[k])
                     && r.error == Prepare(Table(blocks[k]).association, Table(blocks[k]).owner, vals[k].value).error
                     && (forall i :: k <= i < |blocks| ==>
                           var t := Table(blocks[i]);
                           t.arrays == old(t.arrays))
    {
      var added: bool;
      r, added := FanOut(name, blocks, vals);
      if r.Pass? && added {
        arrayNames := arrayNames + [name];
        if cached.Some? {
          arrays := arrays[name := cached.value];
        }
      }
    }

    /** `set_array`, as the composite branch is written and with the plain branch calling each
        block's `set_array`: nothing for `NoneArray`; a plain value goes to every visited
        block, a composite one part by part (blocks and parts zipped, None parts skipped); when
        some block took the value the name is appended to the keys, and a composite value is
        cached under it. A block that raises stops the fan-out and the error propagates. */
    method SetArray(name: string, value: CompositeValue) returns (r: Outcome)
      requires dataSet.DistinctTables(association)
      requires WellFormedValue(value)
      modifies this, Tables()
      ensures value == Plain(NoneValue) ==>
                r == Pass && arrayNames == old(arrayNames) && arrays == old(arrays)
                && forall t :: t in Tables() ==> t.arrays == old(t.arrays)
      ensures value != Plain(NoneValue) && r.Pass? ==>
                var ps := Parts(value, |dataSet.Visited()|);
                var added := exists i :: 0 <= i < |ps| && ps[i].Some?;
                && (forall i :: 0 <= i < |ps| ==>
                      var t := Table(dataSet.Visited()[i]);
                      t.arrays == Effect(old(t.arrays), t, ps[i], name))
                && (forall i :: |ps| <= i < |dataSet.Visited()| ==>
                      var t := Table(dataSet.Visited()[i]);
                      t.arrays == old(t.arrays))
                && arrayNames == old(arrayNames) + (if added then [name] else [])
                && arrays == (if added && value.Many? then old(arrays)[name := value.arr] else old(arrays))
      ensures value.Plain? && !value.v.NoneValue? && r.Pass? ==>
                arrayNames == old(arrayNames) + (if |dataSet.Visited()| > 0 then [name] else [])
      ensures r.Fail? ==>
                arrayNames == old(arrayNames) && arrays == old(arrays)
                && var ps := Parts(value, |dataSet.Visited()|);
                   exists k :: 0 <= k < |ps| && Rejects(Table(dataSet.Visited()[k]), ps[k])
                     && r.error == Prepare(Table(dataSet.Visited()[k]).association,
                                           Table(dataSet.Visited()[k]).owner, ps[k].value).error
                     && (forall i :: k <= i < |dataSet.Visited()| ==>
                           var t := Table(dataSet.Visited()[i]);
                           t.arrays == old(t.arrays))
    {
      if value == Plain(NoneValue) {
        return Pass;
      }
      var blocks := dataSet.Blocks();
      var vals := Parts(value, |blocks|);
      if value.Plain? && |blocks| > 0 {
        assert vals[0].Some?;
      }
      r := Distribute(name, blocks, vals, if value.Many? then Some(value.arr) else None);
    }

    /** `set_array` exactly as written: the plain branch calls `append(narray, name)` on each
        block's table, which attribute tables do not define, so any plain value other than
        `NoneArray` raises AttributeError as soon as there is a block. */
    method SetArrayAsWritten(name: string, value: CompositeValue) returns (r: Outcome)
      requires dataSet.DistinctTables(association)
      requires WellFormedValue(value)
      modifies this, Tables()
      ensures value.Plain? && !value.v.NoneValue? && |dataSet.Visited()| > 0 ==>
                r == Fail(AttributeError) && arrayNames == old(arrayNames) && arrays == old(arrays)
                && forall t :: t in Tables() ==> t.arrays == old(t.arrays)
      ensures value.Plain? && (value.v.NoneValue? || |dataSet.Visited()| == 0) ==>
                r == Pass && arrayNames == old(arrayNames) && arrays == old(arrays)
                && forall t :: t in Tables() ==> t.arrays == old(t.arrays)
      ensures value.Many? && r.Pass? ==>
                var ps := Parts(value, |dataSet.Visited()|);
                var added := exists i :: 0 <= i < |ps| && ps[i].Some?;
                && (forall i :: 0 <= i < |ps| ==>
                      var t := Table(dataSet.Visited()[i]);
                      t.arrays == Effect(old(t.arrays), t, ps[i], name))
                && arrayNames == old(arrayNames) + (if added then [name] else [])
                && arrays == (if added then old(arrays)[name := value.arr] else old(arrays))
    {
      if value.Plain? {
        if value.v.NoneValue? {
          return Pass;
        }
        var blocks := dataSet.Blocks();
        if |blocks| > 0 {
          // the first block's table has no `append`
          return Fail(AttributeError);
        }
        return Pass;
      }
      var blocks := dataSet.Blocks();
      r := Distribute(name, blocks, Parts(value, |blocks|), Some(value.arr));
    }

    /** `get_array`: `NoneArray` (None here) for a name that is not a key; otherwise the cached
        composite array while its weak handle is alive, else a new one read from the blocks by
        name, which is cached. */
    method GetArray(name: string) returns (r: Option<CompositeArray>)
      modifies this
      ensures arrayNames == old(arrayNames)
      ensures name !in arrayNames ==> r.None? && arrays == old(arrays)
      ensures name in arrayNames && name in old(arrays) && old(arrays[name].alive) ==>
                r == Some(old(arrays[name])) && arrays == old(arrays)
      ensures name in arrayNames && !(name in old(arrays) && old(arrays[name].alive)) ==>
                r.Some? && fresh(r.value) && r.value.alive
                && r.value.source == FromBlocks(name, association)
                && arrays == old(arrays)[name := r.value]
    {
      if name !in arrayNames {
        return None;
      }
      if name !in arrays || !arrays[name].alive {
        var arr := new CompositeArray(FromBlocks(name, association));
        arrays := arrays[name := arr];
        return Some(arr);
      }
      return Some(arrays[name]);
    }

    /** Two lookups of the same key in a row give the same composite array. */
    method GetArrayTwice(name: string) returns (r1: Option<CompositeArray>, r2: Option<CompositeArray>)
      modifies this
      ensures r1 == r2
      ensures r1.Some? <==> name in arrayNames
    {
      r1 := GetArray(name);
      r2 := GetArray(name);
    }
  }
}
