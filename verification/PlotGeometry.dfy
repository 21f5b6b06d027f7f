/**
 * The pure part of src/more_dimensions/plot/PlotConfine.cpp: plot identifiers, their packed keys,
 * the merge graph, and which plot a column of blocks belongs to.
 */
module PlotGeometry {
  import opened Machine
  import opened Walks

  /** Grid number of one plot. */
  datatype PlotXZ = PlotXZ(x: int32, z: int32)

  /** A four-bit merge mask as the set of directions whose bit is on. */
  type Mask = set<Dir>

  /** Merge markers: packed plot key to the directions this plot claims. */
  type Merges = map<uint64, Mask>

  datatype Grid = Grid(plotSize: int, roadWidth: int, merges: Merges)

  const GROUP_SCAN_LIMIT := 4096

  // ---------------------------------------------------------------- packed keys

  function Pk(x: int32, z: int32): uint64 {
    ToU32(x) * TWO32 + ToU32(z)
  }

  function Unpk(k: uint64): PlotXZ {
    PlotXZ(Wrap32(k / TWO32), Wrap32(k % TWO32))
  }

  function KeyOf(p: PlotXZ): uint64 {
    Pk(p.x, p.z)
  }

  lemma PackedHalves(hi: uint32, lo: uint32)
    ensures (hi * TWO32 + lo) / TWO32 == hi && (hi * TWO32 + lo) % TWO32 == lo
  {}

  lemma WrapOfU32(v: int32, u: uint32)
    ensures Wrap32(ToU32(v)) == v && ToU32(Wrap32(u)) == u
  {}

  /** Packing is a bijection between plots and 64-bit keys: no two plots share a table entry. */
  lemma PackedKeysRoundTrip(p: PlotXZ, k: uint64)
    ensures Unpk(KeyOf(p)) == p
    ensures KeyOf(Unpk(k)) == k
  {
    PackedHalves(ToU32(p.x), ToU32(p.z));
    WrapOfU32(p.x, k / TWO32);
    WrapOfU32(p.z, k % TWO32);
  }

  lemma KeyInjective(p: PlotXZ, q: PlotXZ)
    requires KeyOf(p) == KeyOf(q)
    ensures p == q
  {
    PackedKeysRoundTrip(p, 0);
    PackedKeysRoundTrip(q, 0);
  }

  // ---------------------------------------------------------------- merge graph

  type Dir = d: int | 0 <= d < 4

  function BitOf(dir: Dir): (b: int)
    ensures b > 0
  {
    match dir
    case 0 => 1
    case 1 => 2
    case 2 => 4
    case _ => 8
  }

  /** `static_cast<uint32_t>(entry) & 0xF` */
  function MaskOf(entry: int32): Mask {
    set d: Dir | 0 <= d < 4 && ToU32(entry) / BitOf(d) % 2 == 1
  }

  /** North, east, south, west. A step over the edge of the int32 range wraps. */
  function NeighbourOf(p: PlotXZ, dir: Dir): PlotXZ {
    match dir
    case 0 => PlotXZ(p.x, Wrap32(p.z - 1))
    case 1 => PlotXZ(Wrap32(p.x + 1), p.z)
    case 2 => PlotXZ(p.x, Wrap32(p.z + 1))
    case _ => PlotXZ(Wrap32(p.x - 1), p.z)
  }

  function Opposite(dir: Dir): Dir {
    (dir + 2) % 4
  }

  predicate Claims(m: Merges, p: PlotXZ, dir: Dir) {
    KeyOf(p) in m && dir in m[KeyOf(p)]
  }

  /** Either side's claim joins two neighbours. */
  predicate Connected(m: Merges, p: PlotXZ, dir: Dir) {
    Claims(m, p, dir) || Claims(m, NeighbourOf(p, dir), Opposite(dir))
  }

  /** `q` is a neighbour of `p` and the two are merged. */
  ghost predicate Touches(m: Merges, p: PlotXZ, q: PlotXZ) {
    exists d: Dir :: q == NeighbourOf(p, d) && Connected(m, p, d)
  }

  /** The bits of an entry, lowest first: north, east, south, west; x grows to the east and z to the south. */
  lemma EntryMerges(m: Merges, p: PlotXZ, entry: int32)
    requires m == map[KeyOf(p) := MaskOf(entry)]
    requires -0x8000_0000 < p.x < 0x7FFF_FFFF && -0x8000_0000 < p.z < 0x7FFF_FFFF
    ensures Touches(m, p, PlotXZ(p.x, p.z - 1)) <==> ToU32(entry) % 2 == 1
    ensures Touches(m, p, PlotXZ(p.x + 1, p.z)) <==> ToU32(entry) / 2 % 2 == 1
    ensures Touches(m, p, PlotXZ(p.x, p.z + 1)) <==> ToU32(entry) / 4 % 2 == 1
    ensures Touches(m, p, PlotXZ(p.x - 1, p.z)) <==> ToU32(entry) / 8 % 2 == 1
  {
    WrapSteps(p.x);
    WrapSteps(p.z);
    forall d: Dir
      ensures Connected(m, p, d) <==> ToU32(entry) / BitOf(d) % 2 == 1
    {
      assert NeighbourOf(p, d) != p;
      if KeyOf(NeighbourOf(p, d)) == KeyOf(p) { KeyInjective(NeighbourOf(p, d), p); }
    }
    assert NeighbourOf(p, 0) == PlotXZ(p.x, p.z - 1) && NeighbourOf(p, 1) == PlotXZ(p.x + 1, p.z);
    assert NeighbourOf(p, 2) == PlotXZ(p.x, p.z + 1) && NeighbourOf(p, 3) == PlotXZ(p.x - 1, p.z);
  }

  ghost function Edge(m: Merges): (PlotXZ, PlotXZ) -> bool {
    (p, q) => Touches(m, p, q)
  }

  lemma NeighbourBack(p: PlotXZ, d: Dir)
    ensures NeighbourOf(NeighbourOf(p, d), Opposite(d)) == p && Opposite(Opposite(d)) == d
  {
    WrapSteps(p.x);
    WrapSteps(p.z);
    WrapSteps(NeighbourOf(p, d).x);
    WrapSteps(NeighbourOf(p, d).z);
  }

  /** One-sided claims still give the same answer from both sides. */
  lemma ConnectedBack(m: Merges, p: PlotXZ, d: Dir)
    ensures Connected(m, NeighbourOf(p, d), Opposite(d)) == Connected(m, p, d)
  {
    NeighbourBack(p, d);
  }

  lemma TouchesSym(m: Merges, p: PlotXZ, q: PlotXZ)
    requires Touches(m, p, q)
    ensures Touches(m, q, p)
  {
    var d: Dir :| q == NeighbourOf(p, d) && Connected(m, p, d);
    NeighbourBack(p, d);
    ConnectedBack(m, p, d);
    var o := Opposite(d);
    assert p == NeighbourOf(q, o) && Connected(m, q, o);
  }

  ghost predicate Linked(m: Merges, p: PlotXZ, q: PlotXZ) {
    Joined(Edge(m), p, q)
  }

  lemma LinkedSym(m: Merges, p: PlotXZ, q: PlotXZ)
    requires Linked(m, p, q)
    ensures Linked(m, q, p)
  {
    forall x, y | Edge(m)(x, y)
      ensures Edge(m)(y, x)
    {
      TouchesSym(m, x, y);
    }
    JoinedSym(Edge(m), p, q);
  }

  // ---------------------------------------------------------------- merge groups

  ghost function AllPlots(): set<PlotXZ> {
    set x, z | -0x8000_0000 <= x < 0x8000_0000 && -0x8000_0000 <= z < 0x8000_0000 :: PlotXZ(x, z)
  }

  /** Every plot that belongs to the same merge group as `p`. */
  ghost function Component(m: Merges, p: PlotXZ): (c: set<PlotXZ>)
    ensures p in c
    ensures forall q :: q in c <==> Linked(m, p, q)
  {
    JoinedRefl(Edge(m), p);
    assert forall q: PlotXZ :: q == PlotXZ(q.x, q.z) && q in AllPlots();
    set q | q in AllPlots() && Linked(m, p, q)
  }

  predicate LessThan(a: PlotXZ, b: PlotXZ) {
    if a.x != b.x then a.x < b.x else a.z < b.z
  }

  ghost predicate IsLeast(p: PlotXZ, s: set<PlotXZ>) {
    p in s && forall q :: q in s ==> q == p || LessThan(p, q)
  }

  lemma {:induction false} LeastExists(s: set<PlotXZ>)
    requires s != {}
    ensures exists p :: IsLeast(p, s)
    decreases s
  {
    var q :| q in s;
    if s == {q} {
      assert IsLeast(q, s);
    } else {
      var t := s - {q};
      assert s == {q} + t;
      LeastExists(t);
      var p :| IsLeast(p, t);
      if LessThan(p, q) {
        assert IsLeast(p, s);
      } else {
        forall r | r in s
          ensures r == q || LessThan(q, r)
        {
          assert r == q || r in t;
        }
        assert IsLeast(q, s);
      }
    }
  }

  ghost function Least(s: set<PlotXZ>): (p: PlotXZ)
    requires s != {}
    ensures IsLeast(p, s)
  {
    LeastExists(s);
    var p :| IsLeast(p, s);
    p
  }

  /** The representative of a merge group, unknown when the group has more than 4096 plots. */
  ghost function GroupRoot(m: Merges, p: PlotXZ): Option<PlotXZ> {
    var c := Component(m, p);
    if |c| <= GROUP_SCAN_LIMIT then Some(Least(c)) else None
  }

  /** The root is the westernmost plot of the group, and the northernmost of those. */
  lemma RootIsFirst(m: Merges, p: PlotXZ, q: PlotXZ)
    requires GroupRoot(m, p).Some? && Linked(m, p, q)
    ensures var r := GroupRoot(m, p).value; Linked(m, p, r) && (r.x < q.x || (r.x == q.x && r.z <= q.z))
  {
    assert q in Component(m, p);
  }

  /** A set that holds `p`, stays inside its group and is closed is the group. */
  lemma ClosedIsComponent(m: Merges, p: PlotXZ, v: set<PlotXZ>)
    requires p in v && v <= Component(m, p) && Closed(Edge(m), v)
    ensures v == Component(m, p)
  {
    forall q | q in Component(m, p)
      ensures q in v
    {
      ClosedContains(Edge(m), v, p, q);
    }
  }

  lemma LinkedSameComponent(m: Merges, p: PlotXZ, q: PlotXZ)
    requires Linked(m, p, q)
    ensures Component(m, p) == Component(m, q)
  {
    LinkedSym(m, p, q);
    forall r
      ensures r in Component(m, p) <==> r in Component(m, q)
    {
      if Linked(m, p, r) { JoinedTrans(Edge(m), q, p, r); }
      if Linked(m, q, r) { JoinedTrans(Edge(m), p, q, r); }
    }
  }

  /** Two plots get the same root exactly when they are in one group and that group is small enough. */
  lemma RootsAgreeIffLinked(m: Merges, p: PlotXZ, q: PlotXZ)
    ensures GroupRoot(m, p).Some? && GroupRoot(m, p) == GroupRoot(m, q)
       <==> Linked(m, p, q) && |Component(m, p)| <= GROUP_SCAN_LIMIT
  {
    if Linked(m, p, q) {
      LinkedSameComponent(m, p, q);
    }
    if GroupRoot(m, p).Some? && GroupRoot(m, p) == GroupRoot(m, q) {
      var r := GroupRoot(m, p).value;
      assert Linked(m, p, r) && Linked(m, q, r);
      LinkedSym(m, q, r);
      JoinedTrans(Edge(m), p, r, q);
    }
  }

  // ---------------------------------------------------------------- columns

  function PositiveModLocal(value: int, modulus: int): int
    requires modulus > 0
  {
    var r := TruncMod(value, modulus);
    if r < 0 then r + modulus else r
  }

  function FloorDivLocal(value: int, divisor: int): int
    requires divisor > 0
  {
    var q := TruncDiv(value, divisor);
    if TruncMod(value, divisor) != 0 && value < 0 then q - 1 else q
  }

  /** The two helpers turn the truncating C++ operators into floor division with its remainder. */
  lemma FloorDivision(value: int, divisor: int)
    requires divisor > 0
    ensures value == divisor * FloorDivLocal(value, divisor) + PositiveModLocal(value, divisor)
    ensures 0 <= PositiveModLocal(value, divisor) < divisor
    ensures FloorDivLocal(value, divisor) == value / divisor
    ensures PositiveModLocal(value, divisor) == value % divisor
  {
    TruncModBounds(value, divisor);
    var q, r := FloorDivLocal(value, divisor), PositiveModLocal(value, divisor);
    assert value == divisor * q + r;
    DivisionUnique(value, divisor, q, r);
  }

  /** A quotient of an int32 by a positive divisor is an int32. */
  lemma FloorDivFits(value: int32, divisor: int)
    requires divisor > 0
    ensures -0x8000_0000 <= FloorDivLocal(value, divisor) < 0x8000_0000
  {
    FloorDivision(value, divisor);
    QuotientShrinks(value, divisor);
  }

  lemma QuotientShrinks(v: int, d: int)
    requires d > 0
    ensures if v >= 0 then 0 <= v / d <= v else v <= v / d < 0
  {
    var q := v / d;
    MultipleAtLeast(d, q);
    MultipleAtLeast(d, q + 1);
    assert d * (q + 1) == d * q + d;
  }

  /** The plot whose cell holds the column (plot square plus its east and south road). */
  function BasePlot(g: Grid, x: int32, z: int32): PlotXZ
    requires g.plotSize + g.roadWidth > 0
  {
    var cell := g.plotSize + g.roadWidth;
    FloorDivFits(x, cell);
    FloorDivFits(z, cell);
    PlotXZ(FloorDivLocal(x, cell), FloorDivLocal(z, cell))
  }

  predicate OnRoad(g: Grid, v: int)
    requires g.plotSize + g.roadWidth > 0
  {
    PositiveModLocal(v, g.plotSize + g.roadWidth) >= g.plotSize
  }

  /** Which plot owns a column; None on the open road. */
  function OwningPlot(g: Grid, x: int32, z: int32): Option<PlotXZ> {
    if g.plotSize + g.roadWidth <= 0 then None
    else
      var base := BasePlot(g, x, z);
      var onRoadX, onRoadZ := OnRoad(g, x), OnRoad(g, z);
      if !onRoadX && !onRoadZ then Some(base)
      else if onRoadX && !onRoadZ then
        if !Connected(g.merges, base, 1) then None else Some(base)
      else if !onRoadX && onRoadZ then
        if !Connected(g.merges, base, 2) then None else Some(base)
      else
        var ne, sw := NeighbourOf(base, 1), NeighbourOf(base, 2);
        if !(Connected(g.merges, base, 1) && Connected(g.merges, base, 2)
             && Connected(g.merges, ne, 2) && Connected(g.merges, sw, 1))
        then None else Some(base)
  }

  /** A seam belongs to the plot on its west or north side: that of the cell, counted from the origin. */
  lemma OwnerIsOfTheCell(g: Grid, x: int32, z: int32)
    requires g.plotSize + g.roadWidth > 0 && OwningPlot(g, x, z).Some?
    ensures var p, cell := OwningPlot(g, x, z).value, g.plotSize + g.roadWidth; p.x == x / cell && p.z == z / cell
  {
    FloorDivision(x, g.plotSize + g.roadWidth);
    FloorDivision(z, g.plotSize + g.roadWidth);
  }

  /** `q` borders the column: it is the plot of the cell, or lies across a road the column is on. */
  ghost predicate Borders(g: Grid, x: int32, z: int32, q: PlotXZ)
    requires g.plotSize + g.roadWidth > 0
  {
    var base := BasePlot(g, x, z);
    var east, south := NeighbourOf(base, 1), NeighbourOf(base, 2);
    || q == base
    || (OnRoad(g, x) && q == east)
    || (OnRoad(g, z) && q == south)
    || (OnRoad(g, x) && OnRoad(g, z) && q == NeighbourOf(east, 2))
  }

  /** An owned column, seam and junction included, is linked to every plot it borders. */
  lemma OwnedColumnJoinsItsBorders(g: Grid, x: int32, z: int32, q: PlotXZ)
    requires g.plotSize + g.roadWidth > 0
    requires OwningPlot(g, x, z).Some? && Borders(g, x, z, q)
    ensures Linked(g.merges, OwningPlot(g, x, z).value, q)
  {
    var m, base := g.merges, BasePlot(g, x, z);
    var east, south := NeighbourOf(base, 1), NeighbourOf(base, 2);
    var edge := Edge(m);
    JoinedRefl(edge, base);
    if OnRoad(g, x) {
      assert edge(base, east);
      JoinedStep(edge, base, east);
    }
    if OnRoad(g, z) {
      assert edge(base, south);
      JoinedStep(edge, base, south);
    }
    if OnRoad(g, x) && OnRoad(g, z) {
      assert edge(east, NeighbourOf(east, 2));
      JoinedStep(edge, east, NeighbourOf(east, 2));
      JoinedTrans(edge, base, east, NeighbourOf(east, 2));
    }
  }

  /** Two steps east or south of a plot there is a different plot. */
  lemma NeighboursDiffer(p: PlotXZ)
    ensures NeighbourOf(p, 1).x != p.x && NeighbourOf(NeighbourOf(p, 1), 1).x !in {p.x, NeighbourOf(p, 1).x}
    ensures NeighbourOf(p, 2).z != p.z && NeighbourOf(NeighbourOf(p, 2), 2).z !in {p.z, NeighbourOf(p, 2).z}
  {
    WrapSteps(p.x);
    WrapSteps(p.z);
    WrapSteps(NeighbourOf(p, 1).x);
    WrapSteps(NeighbourOf(p, 2).z);
  }

  /** The only neighbouring pairs among the bordering plots are the four sides of the 2x2 block. */
  lemma BorderingPairs(g: Grid, x: int32, z: int32, p: PlotXZ, d: Dir)
    requires g.plotSize + g.roadWidth > 0 && (d == 1 || d == 2)
    requires Borders(g, x, z, p) && Borders(g, x, z, NeighbourOf(p, d))
    ensures OnRoad(g, if d == 1 then x else z)
    ensures p == BasePlot(g, x, z) || (p == NeighbourOf(BasePlot(g, x, z), 3 - d) && OnRoad(g, x) && OnRoad(g, z))
  {
    NeighboursDiffer(BasePlot(g, x, z));
    NeighboursDiffer(NeighbourOf(BasePlot(g, x, z), 1));
    NeighboursDiffer(NeighbourOf(BasePlot(g, x, z), 2));
  }

  /** A column is owned exactly when any two neighbours among the plots it borders are merged. */
  lemma OwnedIffAllBordersMerged(g: Grid, x: int32, z: int32)
    requires g.plotSize + g.roadWidth > 0
    ensures OwningPlot(g, x, z).Some? <==>
            forall p, d: Dir :: (d == 1 || d == 2) && Borders(g, x, z, p) && Borders(g, x, z, NeighbourOf(p, d))
              ==> Connected(g.merges, p, d)
  {
    var m, base := g.merges, BasePlot(g, x, z);
    var east, south := NeighbourOf(base, 1), NeighbourOf(base, 2);
    if OwningPlot(g, x, z).Some? {
      forall p, d: Dir | (d == 1 || d == 2) && Borders(g, x, z, p) && Borders(g, x, z, NeighbourOf(p, d))
        ensures Connected(m, p, d)
      {
        BorderingPairs(g, x, z, p, d);
      }
    } else {
      assert NeighbourOf(south, 1) == NeighbourOf(east, 2);
      assert Borders(g, x, z, base);
      assert OnRoad(g, x) ==> Borders(g, x, z, east);
      assert OnRoad(g, z) ==> Borders(g, x, z, south);
      assert OnRoad(g, x) && OnRoad(g, z) ==> Borders(g, x, z, NeighbourOf(east, 2));
    }
  }
}
