/**
 * The grid table of src/more_dimensions/plot/PlotConfine.cpp with the two hooks that ask it: entity
 * moves, and the piston check of src/more_dimensions/dim/DimensionRules.cpp.
 */
module PlotConfine {
  import opened Machine
  import opened PlotGeometry
  import opened PlotArea
  import opened DimGrids
  import opened DimensionRules

  /** What the table says, without memos: the grid of every registered dimension. */
  type GridView = map<int32, Grid>

  function GridOf(v: GridView, dim: int32): Option<Grid> {
    if dim in v then Some(v[dim]) else None
  }

  class GridTable {
    var grids: map<int32, DimGrid>
    ghost var Repr: set<DimGrid>
    ghost var View: GridView  // the grids as values

    ghost predicate Valid()
      reads this, Repr
    {
      && View.Keys == grids.Keys
      && (forall d :: d in grids ==> grids[d] in Repr && grids[d].Valid() && View[d] == grids[d].AsGrid())
      && (forall d, e :: d in grids && e in grids && d != e ==> grids[d] != grids[e])
    }

    constructor ()
      ensures Valid() && View == map[]
    {
      grids, Repr, View := map[], {}, map[];
    }

    method SetPlotGrid(dim: int32, plotSize: int32, roadWidth: int32)
      requires Valid()
      modifies this, Repr
      ensures Valid() && fresh(Repr - old(Repr))
      ensures View == if plotSize <= 0 then old(View) - {dim}
                        else
                          var size := if plotSize > 512 then 512 else plotSize;
                          var road := if roadWidth < 0 then 0 else if roadWidth > 64 then 64 else roadWidth;
                          old(View)[dim := Grid(size, road, if dim in old(View) then old(View)[dim].merges else map[])]
    {
      if plotSize <= 0 {
        ClearPlotGrid(dim);
        return;
      }
      var road: int := if roadWidth < 0 then 0 else roadWidth;
      var size: int := if plotSize > 512 then 512 else plotSize;
      road := if road > 64 then 64 else road;
      if dim !in grids {
        AddGrid(dim, size, road);
      } else {
        UpdateGrid(dim, size, road);
      }
    }

    method AddGrid(dim: int32, plotSize: int, roadWidth: int)
      requires Valid() && dim !in View && 1 <= plotSize <= 512 && 0 <= roadWidth <= 64
      modifies this
      ensures Valid() && fresh(Repr - old(Repr))
      ensures View == old(View)[dim := Grid(plotSize, roadWidth, map[])]
    {
      var g := new DimGrid(plotSize, roadWidth);
      grids, Repr := grids[dim := g], Repr + {g};
      View := View[dim := Grid(plotSize, roadWidth, map[])];
    }

    method UpdateGrid(dim: int32, plotSize: int, roadWidth: int)
      requires Valid() && dim in View && 1 <= plotSize <= 512 && 0 <= roadWidth <= 64
      modifies this`View, Repr
      ensures Valid()
      ensures View == old(View)[dim := Grid(plotSize, roadWidth, old(View)[dim].merges)]
    {
      grids[dim].SetGeometry(plotSize, roadWidth);
      View := View[dim := Grid(plotSize, roadWidth, View[dim].merges)];
    }

    method ClearPlotGrid(dim: int32)
      requires Valid()
      modifies this
      ensures Valid() && Repr == old(Repr)
      ensures View == old(View) - {dim}
    {
      if dim in grids {
        grids := grids - {dim};
      }
      View := View - {dim};
    }

    /** Replaces one dimension's merge table; a dimension without a grid ignores it. */
    method SetPlotMerges(dim: int32, entries: seq<int32>, count: int32)
      requires Valid() && 3 * count <= |entries|
      modifies this`View, Repr
      ensures Valid()
      ensures dim !in old(View) ==> View == old(View)
      ensures dim in old(View) ==>
                && dim in View
                && View == old(View)[dim := old(View)[dim].(merges := View[dim].merges)]
                && TableHolds(View[dim].merges, entries, if count < 0 then 0 else count)
    {
      var n := if count < 0 then 0 else count;
      if dim !in grids { return; }
      grids[dim].SetMerges(entries, n);
      View := View[dim := View[dim].(merges := grids[dim].merges)];
    }

    method HasPlotGrid(dim: int32) returns (r: bool)
      requires Valid()
      ensures r == (dim in View)
    {
      r := dim in grids && grids[dim].plotSize > 0;
    }

    method OwningPlotOf(dim: int32, x: int32, z: int32) returns (r: Option<PlotXZ>)
      requires Valid()
      ensures r == if dim in View then OwningPlot(View[dim], x, z) else None
    {
      if dim !in grids { return None; }
      r := grids[dim].OwningPlotLocked(x, z);
    }

    /** Whatever was asked before, the answer is the one the tables give, and the tables stay. */
    method InSameArea(dim: int32, a: Column, b: Column) returns (r: bool)
      requires Valid()
      modifies Repr
      ensures Valid()
      ensures r == SameArea(GridOf(View, dim), a, b)
    {
      if dim !in grids { return true; }
      r := grids[dim].SameAreaLocked(a, b);
    }
  }

  // ---------------------------------------------------------------- entity moves

  datatype Vec3 = Vec3(x: real, y: real, z: real)

  /** What the hook reads from an entity; `readable` is false when reading throws. */
  datatype Actor = Actor(readable: bool, isPlayer: bool, hasPassenger: bool, isRemoved: bool, dim: int32, pos: Vec3)

  predicate Fits(v: Vec3) {
    -0x8000_0000 <= v.x.Floor < 0x8000_0000 && -0x8000_0000 <= v.z.Floor < 0x8000_0000
  }

  function BlockOf(v: Vec3): Column
    requires Fits(v)
  {
    Column(v.x.Floor, v.z.Floor)
  }

  function Plus(a: Vec3, b: Vec3): Vec3 {
    Vec3(a.x + b.x, a.y + b.y, a.z + b.z)
  }

  /** The entity is held to its area: neither player nor ridden nor removed, and crossing is forbidden. */
  predicate Confined(v: GridView, t: RuleTable, a: Actor) {
    && a.readable && !a.isPlayer && !a.hasPassenger && !a.isRemoved && a.dim >= 0
    && Rule(t, a.dim, ENTITY_CROSS_PLOT) == Some(false)
    && a.dim in v
  }

  /** The displacement that reaches the engine: all of it, or only its vertical part. */
  ghost function Applied(v: GridView, t: RuleTable, a: Actor, delta: Vec3): Vec3
    requires Fits(a.pos) && Fits(Plus(a.pos, delta))
  {
    if Confined(v, t, a) && !SameArea(GridOf(v, a.dim), BlockOf(a.pos), BlockOf(Plus(a.pos, delta)))
    then Vec3(0.0, delta.y, 0.0) else delta
  }

  method ActorMove(table: GridTable, rules: RuleStore, a: Actor, delta: Vec3) returns (applied: Vec3, stopped: bool)
    requires table.Valid() && Fits(a.pos) && Fits(Plus(a.pos, delta))
    modifies table.Repr
    ensures table.Valid()
    ensures applied == Applied(table.View, rules.AsTable(), a, delta)
    ensures applied.y == delta.y
    ensures if stopped then applied.x == 0.0 && applied.z == 0.0 else applied == delta
    ensures stopped <==>
              && a.readable && !a.isPlayer && !a.hasPassenger && !a.isRemoved
              && a.dim >= 0 && a.dim in table.View && Rule(rules.AsTable(), a.dim, 12) == Some(false)
              && !SameArea(Some(table.View[a.dim]), Column(a.pos.x.Floor, a.pos.z.Floor),
                           Column((a.pos.x + delta.x).Floor, (a.pos.z + delta.z).Floor))
  {
    var from, to := BlockOf(a.pos), BlockOf(Plus(a.pos, delta));
    SameAreaEquivalence(GridOf(table.View, a.dim), from, from, from);
    if table.grids == map[] { return delta, false; }
    if delta.x == 0.0 && delta.z == 0.0 { return delta, false; }
    if !a.readable { return delta, false; }
    var ridden := a.hasPassenger || a.isRemoved;
    if a.isPlayer || ridden || a.dim < 0 { return delta, false; }
    var rule := rules.GetDimensionRule(a.dim, ENTITY_CROSS_PLOT);
    var hasGrid := table.HasPlotGrid(a.dim);
    if rule.None? || rule.value || !hasGrid { return delta, false; }
    if from == to { return delta, false; }
    var same := table.InSameArea(a.dim, from, to);
    if same { return delta, false; }
    return Vec3(0.0, delta.y, 0.0), true;
  }

  /** Every position of the run lies where block coordinates are representable. */
  ghost predicate RunFits(v: GridView, t: RuleTable, a: Actor, deltas: seq<Vec3>)
    decreases |deltas|
  {
    Fits(a.pos) && (deltas != [] ==>
      && Fits(Plus(a.pos, deltas[0]))
      && RunFits(v, t, a.(pos := Plus(a.pos, Applied(v, t, a, deltas[0]))), deltas[1..]))
  }

  ghost function AfterMoves(v: GridView, t: RuleTable, a: Actor, deltas: seq<Vec3>): Actor
    requires RunFits(v, t, a, deltas)
    decreases |deltas|
  {
    if deltas == [] then a
    else AfterMoves(v, t, a.(pos := Plus(a.pos, Applied(v, t, a, deltas[0]))), deltas[1..])
  }

  /** A confined entity ends every sequence of moves in the area it started in. */
  lemma {:induction false} ConfinedEntityStays(v: GridView, t: RuleTable, a: Actor, deltas: seq<Vec3>)
    requires RunFits(v, t, a, deltas) && Confined(v, t, a)
    ensures var b := AfterMoves(v, t, a, deltas);
            Fits(b.pos) && SameArea(GridOf(v, a.dim), BlockOf(a.pos), BlockOf(b.pos))
    decreases |deltas|
  {
    var g := GridOf(v, a.dim);
    SameAreaEquivalence(g, BlockOf(a.pos), BlockOf(a.pos), BlockOf(a.pos));
    if deltas != [] {
      var next := a.(pos := Plus(a.pos, Applied(v, t, a, deltas[0])));
      ConfinedEntityStays(v, t, next, deltas[1..]);
      var b := AfterMoves(v, t, next, deltas[1..]);
      assert SameArea(g, BlockOf(a.pos), BlockOf(next.pos));
      SameAreaEquivalence(g, BlockOf(a.pos), BlockOf(next.pos), BlockOf(b.pos));
    }
  }

  // ---------------------------------------------------------------- pistons

  datatype Facing = Facing(x: int, z: int)

  function Shifted(c: Column, f: Facing): Column {
    Column(Wrap32(c.x + f.x), Wrap32(c.z + f.z))
  }

  /** A block is moved by the facing, away from the end of the coordinate range. */
  lemma ShiftedLands(c: Column, f: Facing)
    ensures -0x8000_0000 <= c.x + f.x < 0x8000_0000 ==> Shifted(c, f).x == c.x + f.x
    ensures -0x8000_0000 <= c.z + f.z < 0x8000_0000 ==> Shifted(c, f).z == c.z + f.z
  {}

  ghost predicate Inside(g: Option<Grid>, self: Column, f: Facing, block: Column) {
    SameArea(g, self, block) && SameArea(g, self, Shifted(block, f))
  }

  /** Both the present place and the landing place of every attached block are in the piston's area. */
  ghost predicate AllInside(g: Option<Grid>, self: Column, f: Facing, attached: seq<Column>) {
    forall i :: 0 <= i < |attached| ==> Inside(g, self, f, attached[i])
  }

  /** `dim` is negative when it cannot be read; `engineOk` is the engine's own verdict. */
  method CheckAttachedBlocks(table: GridTable, rules: RuleStore, dim: int32, engineOk: bool, readable: bool,
                             self: Column, f: Facing, attached: seq<Column>) returns (ok: bool)
    requires table.Valid()
    modifies table.Repr
    ensures table.Valid()
    ensures var t := rules.AsTable();
            var managed := dim >= 0 && Count(t, dim) > 0;
            ok <==> && engineOk
                    && (managed ==> Rule(t, dim, PISTON_PUSH) != Some(false))
                    && (managed && Rule(t, dim, PISTON_CROSS_PLOT) == Some(false) && dim in table.View
                        ==> readable && AllInside(GridOf(table.View, dim), self, f, attached))
  {
    var any := rules.AnyRuleFor(dim);
    var managed := dim >= 0 && any;
    var push := rules.Allowed(dim, PISTON_PUSH);
    if managed && !push { return false; }
    if !engineOk { return false; }
    var cross := rules.Allowed(dim, PISTON_CROSS_PLOT);
    var hasGrid := table.HasPlotGrid(dim);
    if !managed || cross || !hasGrid { return true; }
    if !readable { return false; }
    ok := AttachedInside(table, dim, self, f, attached);
  }

  /** The loop over the attached blocks, leaving at the first one outside. */
  method AttachedInside(table: GridTable, dim: int32, self: Column, f: Facing, attached: seq<Column>)
    returns (ok: bool)
    requires table.Valid()
    modifies table.Repr
    ensures table.Valid()
    ensures ok == AllInside(GridOf(table.View, dim), self, f, attached)
  {
    ghost var g := GridOf(table.View, dim);
    for i := 0 to |attached|
      invariant table.Valid() && table.View == old(table.View)
      invariant forall j :: 0 <= j < i ==> Inside(g, self, f, attached[j])
    {
      var inside := BlockInside(table, dim, self, f, attached[i]);
      if !inside { return false; }
    }
    return true;
  }

  method BlockInside(table: GridTable, dim: int32, self: Column, f: Facing, block: Column) returns (ok: bool)
    requires table.Valid()
    modifies table.Repr
    ensures table.Valid() && table.View == old(table.View) && table.Repr == old(table.Repr)
    ensures ok == Inside(GridOf(table.View, dim), self, f, block)
  {
    ok := table.InSameArea(dim, self, block);
    if ok {
      ok := table.InSameArea(dim, self, Shifted(block, f));
    }
  }

  /** No block moved by an accepted push changes its area. */
  lemma AcceptedPushKeepsAreas(g: Option<Grid>, self: Column, f: Facing, attached: seq<Column>, i: nat)
    requires AllInside(g, self, f, attached) && i < |attached|
    ensures SameArea(g, attached[i], Shifted(attached[i], f))
  {
    SameAreaEquivalence(g, self, attached[i], self);
    SameAreaEquivalence(g, attached[i], self, Shifted(attached[i], f));
  }
}
