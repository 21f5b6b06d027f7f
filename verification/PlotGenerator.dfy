/**
 * The plot-world chunk generator of src/more_dimensions/plot/PlotGenerator.cpp: one flat block buffer
 * per thread, reused by every generator and only partly reset between chunks.
 */
module PlotGenerator {
  import opened Machine
  import PlotGeometry

  const CHUNK_WIDTH := 16
  const MIN_Y := -512
  const MAX_Y := 320
  const BEDROCK_Y := -64
  const TOTAL_HEIGHT := 832
  const COLUMNS := 256
  const BUFFER_SIZE := 212992

  type Block = int

  // ---------------------------------------------------------------- layout

  datatype PlotLayout = PlotLayout(plotSize: int, roadWidth: int, borderWidth: int, floorY: int)

  predicate InSafeRange(l: PlotLayout) {
    && 4 <= l.plotSize <= 512 && 0 <= l.roadWidth <= 64
    && 0 <= l.borderWidth && (2 * l.borderWidth < l.plotSize || l.borderWidth == 0)
    && MIN_Y < l.floorY && l.floorY + 1 < MAX_Y
  }

  /** Brings any layout into the safe range and leaves a safe one alone. */
  function Clamped(l: PlotLayout): (r: PlotLayout)
    ensures InSafeRange(r)
    ensures InSafeRange(l) ==> r == l
  {
    var plotSize := if l.plotSize < 4 then 4 else if l.plotSize > 512 then 512 else l.plotSize;
    var roadWidth := if l.roadWidth < 0 then 0 else if l.roadWidth > 64 then 64 else l.roadWidth;
    var borderWidth := if l.borderWidth < 0 || l.borderWidth * 2 >= plotSize then 0 else l.borderWidth;
    var floorY := if l.floorY <= MIN_Y then MIN_Y + 1 else if l.floorY >= MAX_Y - 1 then MAX_Y - 2 else l.floorY;
    PlotLayout(plotSize, roadWidth, borderWidth, floorY)
  }

  function Distance(a: int, b: int): nat {
    if a < b then b - a else a - b
  }

  /** Clamping takes the nearest plot size, road width and floor; a border too wide for its plot is left out. */
  lemma ClampedIsNearest(l: PlotLayout, other: PlotLayout)
    requires InSafeRange(other)
    ensures var r := Clamped(l);
            && Distance(r.plotSize, l.plotSize) <= Distance(other.plotSize, l.plotSize)
            && Distance(r.roadWidth, l.roadWidth) <= Distance(other.roadWidth, l.roadWidth)
            && Distance(r.floorY, l.floorY) <= Distance(other.floorY, l.floorY)
            && r.borderWidth == if 0 <= l.borderWidth && 2 * l.borderWidth < r.plotSize then l.borderWidth else 0
  {}

  /** What a generator works with: its constructor clamps whatever it is given. */
  type SafeLayout = l: PlotLayout | InSafeRange(l) witness PlotLayout(64, 7, 1, 64)

  datatype PlotArea1D = Plot | Border | Road

  function Classify1D(offset: int, l: SafeLayout): PlotArea1D {
    if offset >= l.plotSize then Road
    else if l.borderWidth > 0 && (offset < l.borderWidth || offset >= l.plotSize - l.borderWidth) then Border
    else Plot
  }

  function Combine2D(x: PlotArea1D, z: PlotArea1D): PlotArea1D {
    if x == Road || z == Road then Road
    else if x == Plot && z == Plot then Plot
    else Border
  }

  function AxisArea(v: int, l: SafeLayout): PlotArea1D
  {
    Classify1D(PlotGeometry.PositiveModLocal(v, l.plotSize + l.roadWidth), l)
  }

  /** What a world column is: road, border or the inside of a plot. */
  function Area(x: int, z: int, l: SafeLayout): PlotArea1D
  {
    Combine2D(AxisArea(x, l), AxisArea(z, l))
  }

  /** The generator paints road exactly where the boundary rules see road. */
  lemma RoadsAgree(l: SafeLayout, g: PlotGeometry.Grid, x: int32, z: int32)
    requires g.plotSize == l.plotSize && g.roadWidth == l.roadWidth
    ensures Area(x, z, l) == Road <==> PlotGeometry.OnRoad(g, x) || PlotGeometry.OnRoad(g, z)
    ensures g.merges == map[] ==> (Area(x, z, l) == Road <==> PlotGeometry.OwningPlot(g, x, z).None?)
  {}

  // ---------------------------------------------------------------- the pure column

  datatype Palette = Palette(air: Block, bedrock: Block, floor: Block, fill: Block, road: Block, border: Block)

  /** The block at world position (x, y, z). */
  function Cell(l: SafeLayout, p: Palette, x: int, y: int, z: int): Block
  {
    if y == l.floorY then (if Area(x, z, l) == Road then p.road else p.floor)
    else if y == l.floorY + 1 then (if Area(x, z, l) == Border then p.border else p.air)
    else if y > l.floorY || y < BEDROCK_Y then p.air
    else if y == BEDROCK_Y then p.bedrock
    else p.fill
  }

  /** Within the border width of either side of a plot. */
  predicate NearEdge(l: SafeLayout, offset: int) {
    offset < l.borderWidth || offset >= l.plotSize - l.borderWidth
  }

  /** What a block is, by its height and by how far into the cell its column is: the layout in plain words. */
  predicate BlockLaw(l: SafeLayout, p: Palette, dx: int, y: int, dz: int, b: Block) {
    && (y > l.floorY + 1 ==> b == p.air)
    && (y == l.floorY + 1 ==>
          b == if dx < l.plotSize && dz < l.plotSize && (NearEdge(l, dx) || NearEdge(l, dz)) then p.border else p.air)
    && (y == l.floorY ==> b == if dx >= l.plotSize || dz >= l.plotSize then p.road else p.floor)
    && (y < l.floorY ==> b == if y > -64 then p.fill else if y == -64 then p.bedrock else p.air)
  }

  lemma CellLaw(l: SafeLayout, p: Palette, x: int, y: int, z: int)
    ensures var cell := l.plotSize + l.roadWidth;
            BlockLaw(l, p, x % cell, y, z % cell, Cell(l, p, x, y, z))
  {
    PlotGeometry.FloorDivision(x, l.plotSize + l.roadWidth);
    PlotGeometry.FloorDivision(z, l.plotSize + l.roadWidth);
  }

  /** A column has its bedrock block if and only if the floor lies above the bedrock height. */
  lemma BedrockIffFloorAbove(l: SafeLayout, p: Palette, x: int, z: int)
    requires p.bedrock !in {p.air, p.floor, p.fill, p.road, p.border}
    ensures (exists y :: MIN_Y <= y < MAX_Y && Cell(l, p, x, y, z) == p.bedrock) <==> l.floorY > BEDROCK_Y
  {
    if l.floorY > BEDROCK_Y {
      assert Cell(l, p, x, BEDROCK_Y, z) == p.bedrock;
    }
  }

  // ---------------------------------------------------------------- the flat buffer

  function BufferIndex(x: int, yIdx: int, z: int): int {
    (x * CHUNK_WIDTH + z) * TOTAL_HEIGHT + yIdx
  }

  /** Cells of a chunk and places in the buffer correspond one to one. */
  lemma BufferIndexBijection(x: int, y: int, z: int, k: int)
    ensures 0 <= x < CHUNK_WIDTH && 0 <= z < CHUNK_WIDTH && 0 <= y < TOTAL_HEIGHT ==>
              var i := BufferIndex(x, y, z);
              && 0 <= i < BUFFER_SIZE
              && i / TOTAL_HEIGHT / CHUNK_WIDTH == x && i / TOTAL_HEIGHT % CHUNK_WIDTH == z && i % TOTAL_HEIGHT == y
    ensures 0 <= k < BUFFER_SIZE ==>
              var (a, b, c) := (k / TOTAL_HEIGHT / CHUNK_WIDTH, k % TOTAL_HEIGHT, k / TOTAL_HEIGHT % CHUNK_WIDTH);
              && 0 <= a < CHUNK_WIDTH && 0 <= b < TOTAL_HEIGHT && 0 <= c < CHUNK_WIDTH && BufferIndex(a, b, c) == k
  {}

  /** Puts one block into a whole layer. */
  method FillLayer(buf: array<Block>, block: Block, yIdx: int)
    requires buf.Length == BUFFER_SIZE && 0 <= yIdx < TOTAL_HEIGHT
    modifies buf
    ensures forall k :: 0 <= k < BUFFER_SIZE ==> buf[k] == if k % TOTAL_HEIGHT == yIdx then block else old(buf[k])
  {
    for i := 0 to COLUMNS
      invariant forall k :: 0 <= k < BUFFER_SIZE ==>
                  buf[k] == if k % TOTAL_HEIGHT == yIdx && k / TOTAL_HEIGHT < i then block else old(buf[k])
    {
      buf[yIdx + i * TOTAL_HEIGHT] := block;
    }
  }

  method FillRange(buf: array<Block>, block: Block, from: int, toExclusive: int)
    requires buf.Length == BUFFER_SIZE && 0 <= from && toExclusive <= TOTAL_HEIGHT
    modifies buf
    ensures forall k :: 0 <= k < BUFFER_SIZE ==>
              buf[k] == if from <= k % TOTAL_HEIGHT < toExclusive then block else old(buf[k])
  {
    var y := from;
    while y < toExclusive
      invariant from <= y
      invariant forall k :: 0 <= k < BUFFER_SIZE ==>
                  var h := k % TOTAL_HEIGHT;
                  buf[k] == if from <= h < y && h < toExclusive then block else old(buf[k])
    {
      FillLayer(buf, block, y);
      y := y + 1;
    }
  }

  class ThreadBuffer {
    var blocks: array<Block>
    var owner: Generator?

    /** Below and above the two changing layers the buffer holds its owner's blocks. */
    ghost predicate Valid()
      reads this, blocks
    {
      owner != null ==> blocks.Length == BUFFER_SIZE && owner.HoldsStatic(blocks[..])
    }

    constructor ()
      ensures Valid() && fresh(blocks)
    {
      blocks := new Block[0];
      owner := null;
    }
  }

  class Generator {
    const layout: SafeLayout
    const palette: Palette

    constructor (layout: PlotLayout, palette: Palette)
      ensures this.layout == Clamped(layout) && this.palette == palette
    {
      this.layout, this.palette := Clamped(layout), palette;
    }

    function FloorIndexY(): int {
      layout.floorY - MIN_Y
    }

    /** What the layer would hold if no column were painted. */
    function StaticBlock(yIdx: int): Block {
      if yIdx >= FloorIndexY() || yIdx < BEDROCK_Y - MIN_Y then palette.air
      else if yIdx == BEDROCK_Y - MIN_Y then palette.bedrock
      else palette.fill
    }

    ghost predicate HoldsStatic(s: seq<Block>) {
      |s| == BUFFER_SIZE &&
      forall k :: 0 <= k < BUFFER_SIZE && k % TOTAL_HEIGHT != FloorIndexY() && k % TOTAL_HEIGHT != FloorIndexY() + 1
        ==> s[k] == StaticBlock(k % TOTAL_HEIGHT)
    }

    method RefillStatic(buf: ThreadBuffer)
      requires buf.blocks.Length == BUFFER_SIZE
      modifies buf.blocks
      ensures HoldsStatic(buf.blocks[..])
    {
      var bedrockIdx := BEDROCK_Y - MIN_Y;
      FillRange(buf.blocks, palette.air, 0, bedrockIdx);
      FillLayer(buf.blocks, palette.bedrock, bedrockIdx);
      FillRange(buf.blocks, palette.fill, bedrockIdx + 1, FloorIndexY());
      FillRange(buf.blocks, palette.air, FloorIndexY(), TOTAL_HEIGHT);
    }

    /** Another generator's buffer is filled anew, one's own is kept. */
    method AcquireBuffer(buf: ThreadBuffer)
      requires buf.Valid()
      modifies buf, buf.blocks
      ensures buf.Valid() && buf.owner == this && (buf.blocks == old(buf.blocks) || fresh(buf.blocks))
    {
      if buf.blocks.Length != BUFFER_SIZE {
        buf.blocks := new Block[BUFFER_SIZE];
        buf.owner := null;
      }
      if buf.owner != this {
        RefillStatic(buf);
        buf.owner := this;
      }
    }

    /** The final block at place `k` of the buffer. */
    function Target(startX: int, startZ: int, k: int): Block
    {
      Cell(layout, palette, startX + k / TOTAL_HEIGHT / CHUNK_WIDTH, k % TOTAL_HEIGHT + MIN_Y,
           startZ + k / TOTAL_HEIGHT % CHUNK_WIDTH)
    }

    /** The block at place `k` after the two changing layers have been reset. */
    function Blank(k: int): Block {
      if k % TOTAL_HEIGHT == FloorIndexY() then palette.floor
      else if k % TOTAL_HEIGHT == FloorIndexY() + 1 then palette.air
      else StaticBlock(k % TOTAL_HEIGHT)
    }

    /** The first `n` columns are painted, the others blank. */
    ghost predicate Painted(s: seq<Block>, startX: int, startZ: int, n: int)
    {
      |s| == BUFFER_SIZE &&
      forall k :: 0 <= k < BUFFER_SIZE ==>
        s[k] == if k / TOTAL_HEIGHT < n then Target(startX, startZ, k) else Blank(k)
    }

    /** The buffer holds, at the place of chunk cell (x, y, z), the block of its world position. */
    ghost predicate CellMatches(s: seq<Block>, startX: int, startZ: int, x: int, y: int, z: int)
    {
      var i := BufferIndex(x, y - MIN_Y, z);
      0 <= i < |s| && s[i] == Cell(layout, palette, startX + x, y, startZ + z)
    }

    ghost predicate PureChunk(s: seq<Block>, startX: int, startZ: int)
    {
      forall x, y, z :: 0 <= x < CHUNK_WIDTH && MIN_Y <= y < MAX_Y && 0 <= z < CHUNK_WIDTH
        ==> CellMatches(s, startX, startZ, x, y, z)
    }

    /** Every block of the chunk is what the layout says. */
    ghost predicate FollowsLayout(s: seq<Block>, startX: int, startZ: int) {
      forall x, y, z :: 0 <= x < CHUNK_WIDTH && MIN_Y <= y < MAX_Y && 0 <= z < CHUNK_WIDTH
        ==> BlockFollows(s, startX, startZ, x, y, z)
    }

    ghost predicate BlockFollows(s: seq<Block>, startX: int, startZ: int, x: int, y: int, z: int) {
      var i, cell := BufferIndex(x, y - MIN_Y, z), layout.plotSize + layout.roadWidth;
      0 <= i < |s| && BlockLaw(layout, palette, (startX + x) % cell, y, (startZ + z) % cell, s[i])
    }

    lemma PureFollowsLayout(s: seq<Block>, startX: int, startZ: int)
      requires PureChunk(s, startX, startZ)
      ensures FollowsLayout(s, startX, startZ)
    {
      forall x, y, z | 0 <= x < CHUNK_WIDTH && MIN_Y <= y < MAX_Y && 0 <= z < CHUNK_WIDTH
        ensures BlockFollows(s, startX, startZ, x, y, z)
      {
        assert CellMatches(s, startX, startZ, x, y, z);
        CellLaw(layout, palette, startX + x, y, startZ + z);
      }
    }

    /**
     * Whatever chunks by whatever generators came before, every cell is the pure function of its
     * world position, and so what the layout says.
     */
    method LoadChunk(buf: ThreadBuffer, chunkX: int, chunkZ: int)
      requires buf.Valid()
      modifies buf, buf.blocks
      ensures buf.Valid() && buf.owner == this && buf.blocks.Length == BUFFER_SIZE
      ensures buf.blocks == old(buf.blocks) || fresh(buf.blocks)
      ensures PureChunk(buf.blocks[..], CHUNK_WIDTH * chunkX, CHUNK_WIDTH * chunkZ)
      ensures FollowsLayout(buf.blocks[..], CHUNK_WIDTH * chunkX, CHUNK_WIDTH * chunkZ)
    {
      AcquireBuffer(buf);
      FillLayer(buf.blocks, palette.floor, FloorIndexY());
      FillLayer(buf.blocks, palette.air, FloorIndexY() + 1);
      var startX, startZ := chunkX * CHUNK_WIDTH, chunkZ * CHUNK_WIDTH;
      for x := 0 to CHUNK_WIDTH
        invariant buf.owner == this && (buf.blocks == old(buf.blocks) || fresh(buf.blocks))
        invariant Painted(buf.blocks[..], startX, startZ, x * CHUNK_WIDTH)
      {
        PaintRow(buf, startX, startZ, x);
      }
      PaintedIsPure(buf.blocks[..], startX, startZ);
      PureFollowsLayout(buf.blocks[..], startX, startZ);
    }

    /** One row of columns: road replaces the floor, border is put on top of it. */
    method PaintRow(buf: ThreadBuffer, startX: int, startZ: int, x: int)
      requires 0 <= x < CHUNK_WIDTH
      requires Painted(buf.blocks[..], startX, startZ, x * CHUNK_WIDTH)
      modifies buf.blocks
      ensures Painted(buf.blocks[..], startX, startZ, (x + 1) * CHUNK_WIDTH)
    {
      var ax := AxisArea(startX + x, layout);
      for z := 0 to CHUNK_WIDTH
        invariant Painted(buf.blocks[..], startX, startZ, x * CHUNK_WIDTH + z)
      {
        var az := AxisArea(startZ + z, layout);
        ghost var before := buf.blocks[..];
        match Combine2D(ax, az) {
          case Road => buf.blocks[BufferIndex(x, FloorIndexY(), z)] := palette.road;
          case Border => buf.blocks[BufferIndex(x, FloorIndexY() + 1, z)] := palette.border;
          case Plot =>
        }
        ColumnPainted(before, buf.blocks[..], startX, startZ, x, z);
      }
    }

    lemma ColumnPainted(before: seq<Block>, after: seq<Block>, startX: int, startZ: int, x: int, z: int)
      requires 0 <= x < CHUNK_WIDTH && 0 <= z < CHUNK_WIDTH
      requires Painted(before, startX, startZ, x * CHUNK_WIDTH + z)
      requires var area := Area(startX + x, startZ + z, layout);
               after == match area
                        case Road => before[BufferIndex(x, FloorIndexY(), z) := palette.road]
                        case Border => before[BufferIndex(x, FloorIndexY() + 1, z) := palette.border]
                        case Plot => before
      ensures Painted(after, startX, startZ, x * CHUNK_WIDTH + z + 1)
    {}

    lemma PaintedIsPure(s: seq<Block>, startX: int, startZ: int)
      requires Painted(s, startX, startZ, COLUMNS)
      ensures HoldsStatic(s)
      ensures PureChunk(s, startX, startZ)
    {
      forall x, y, z | 0 <= x < CHUNK_WIDTH && MIN_Y <= y < MAX_Y && 0 <= z < CHUNK_WIDTH
        ensures CellMatches(s, startX, startZ, x, y, z)
      {
        BufferIndexBijection(x, y - MIN_Y, z, 0);
      }
    }
  }
}
