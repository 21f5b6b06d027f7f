/**
 * What "the same area" means, independently of how the cached search computes it, and the
 * guarantees that follow from it.
 */
module PlotArea {
  import opened Machine
  import opened Walks
  import opened PlotGeometry

  datatype Column = Column(x: int32, z: int32)

  function Owner(g: Grid, c: Column): Option<PlotXZ> {
    OwningPlot(g, c.x, c.z)
  }

  /** One plot, or two plots of one merge group that is small enough to be searched. */
  ghost predicate SameGroup(m: Merges, p: PlotXZ, q: PlotXZ) {
    p == q || (Linked(m, p, q) && |Component(m, p)| <= GROUP_SCAN_LIMIT)
  }

  /** Open road on both sides, or owned on both sides by one group; without a grid everything is. */
  ghost predicate SameArea(g: Option<Grid>, a: Column, b: Column) {
    g.None? ||
    match (Owner(g.value, a), Owner(g.value, b))
    case (None, None) => true
    case (Some(p), Some(q)) => SameGroup(g.value.merges, p, q)
    case _ => false
  }

  /** The area test is an equivalence relation, groups beyond the search limit included. */
  lemma SameAreaEquivalence(g: Option<Grid>, a: Column, b: Column, c: Column)
    ensures SameArea(g, a, a)
    ensures SameArea(g, a, b) ==> SameArea(g, b, a)
    ensures SameArea(g, a, b) && SameArea(g, b, c) ==> SameArea(g, a, c)
  {
    if g.Some? && Owner(g.value, a).Some? && Owner(g.value, b).Some? {
      var m, p, q := g.value.merges, Owner(g.value, a).value, Owner(g.value, b).value;
      if Linked(m, p, q) {
        LinkedSym(m, p, q);
        LinkedSameComponent(m, p, q);
      }
      if Owner(g.value, c).Some? {
        var r := Owner(g.value, c).value;
        if Linked(m, p, q) && Linked(m, q, r) {
          JoinedTrans(Edge(m), p, q, r);
        }
      }
    }
  }

  // ---------------------------------------------------------------- merged rectangles

  predicate InRectangle(p: PlotXZ, lo: PlotXZ, hi: PlotXZ) {
    lo.x <= p.x <= hi.x && lo.z <= p.z <= hi.z
  }

  /** Every two neighbouring plots inside the rectangle are merged. */
  ghost predicate FullyMerged(m: Merges, lo: PlotXZ, hi: PlotXZ) {
    forall p :: InRectangle(p, lo, hi) ==>
      && (p.x < hi.x ==> Connected(m, p, 1))
      && (p.z < hi.z ==> Connected(m, p, 2))
  }

  lemma {:induction false} RectangleLinked(m: Merges, lo: PlotXZ, hi: PlotXZ, p: PlotXZ)
    requires FullyMerged(m, lo, hi) && InRectangle(p, lo, hi)
    ensures Linked(m, lo, p)
    decreases p.x - lo.x, p.z - lo.z
  {
    if p == lo {
      JoinedRefl(Edge(m), lo);
    } else {
      var d: Dir := if p.x > lo.x then 1 else 2;
      var prev := if p.x > lo.x then PlotXZ(p.x - 1, p.z) else PlotXZ(p.x, p.z - 1);
      RectangleLinked(m, lo, hi, prev);
      assert InRectangle(prev, lo, hi);
      assert NeighbourOf(prev, d) == p by {
        WrapSteps(prev.x);
        WrapSteps(prev.z);
      }
      assert Edge(m)(prev, p);
      JoinedStep(Edge(m), prev, p);
      JoinedTrans(Edge(m), lo, prev, p);
    }
  }

  /** One axis: inside the box the cell is inside the rectangle, and off its far side when on a road. */
  lemma BoxAxis(cell: int, plotSize: int, v: int, lo: int, hi: int)
    requires 0 < plotSize <= cell
    requires cell * lo <= v < cell * hi + plotSize
    ensures lo <= FloorDivLocal(v, cell) <= hi
    ensures PositiveModLocal(v, cell) >= plotSize ==> FloorDivLocal(v, cell) < hi
  {
    FloorDivision(v, cell);
    BoxBounds(cell, plotSize, FloorDivLocal(v, cell), PositiveModLocal(v, cell), lo, hi);
  }

  lemma BoxBounds(cell: int, plotSize: int, q: int, r: int, lo: int, hi: int)
    requires 0 < plotSize <= cell && 0 <= r < cell
    requires cell * lo <= cell * q + r < cell * hi + plotSize
    ensures lo <= q <= hi
    ensures r >= plotSize ==> q < hi
  {
    if q < lo {
      var k := lo - q - 1;
      assert cell * lo == cell * q + cell + cell * k;
    }
    if q >= hi {
      var k := q - hi;
      assert cell * q == cell * hi + cell * k;
      MultipleAtLeast(cell, k);
    }
  }

  /** A column of the bounding box of a fully merged rectangle is owned by one of its plots. */
  lemma BoxColumnOwned(g: Grid, lo: PlotXZ, hi: PlotXZ, c: Column)
    requires g.plotSize > 0 && g.roadWidth >= 0
    requires FullyMerged(g.merges, lo, hi) && InBox(g, lo, hi, c)
    ensures Owner(g, c).Some? && InRectangle(Owner(g, c).value, lo, hi)
  {
    var cell := g.plotSize + g.roadWidth;
    BoxAxis(cell, g.plotSize, c.x, lo.x, hi.x);
    BoxAxis(cell, g.plotSize, c.z, lo.z, hi.z);
    var base := BasePlot(g, c.x, c.z);
    WrapSteps(base.x);
    WrapSteps(base.z);
    assert InRectangle(base, lo, hi);
    if OnRoad(g, c.x) && OnRoad(g, c.z) {
      assert InRectangle(NeighbourOf(base, 1), lo, hi) && InRectangle(NeighbourOf(base, 2), lo, hi);
    }
  }

  predicate InBox(g: Grid, lo: PlotXZ, hi: PlotXZ, c: Column) {
    var cell := g.plotSize + g.roadWidth;
    && cell * lo.x <= c.x < cell * hi.x + g.plotSize
    && cell * lo.z <= c.z < cell * hi.z + g.plotSize
  }

  /** Plots, seams and junctions inside a fully merged rectangle are one area. */
  lemma MergedRectangleIsOneArea(g: Grid, lo: PlotXZ, hi: PlotXZ, a: Column, b: Column)
    requires g.plotSize > 0 && g.roadWidth >= 0
    requires FullyMerged(g.merges, lo, hi) && |Component(g.merges, lo)| <= GROUP_SCAN_LIMIT
    requires InBox(g, lo, hi, a) && InBox(g, lo, hi, b)
    ensures SameArea(Some(g), a, b)
  {
    BoxColumnOwned(g, lo, hi, a);
    BoxColumnOwned(g, lo, hi, b);
    var m, p, q := g.merges, Owner(g, a).value, Owner(g, b).value;
    RectangleLinked(m, lo, hi, p);
    RectangleLinked(m, lo, hi, q);
    LinkedSym(m, lo, p);
    LinkedSameComponent(m, lo, p);
    JoinedTrans(Edge(m), p, lo, q);
  }
}
