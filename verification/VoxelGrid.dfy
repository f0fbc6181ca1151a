/** The grid over the point cloud: which points take part, and which cell each of them lies in. */
module VoxelGrid {
  import FlatIndex

  /** `frame` is the room for points per batch, `values` the numbers per point. */
  datatype Params = Params(batches: nat, frame: nat, values: nat, perVoxel: nat, maxPillars: nat,
                           minX: real, maxX: real, minY: real, maxY: real, minZ: real, maxZ: real,
                           sizeX: real, sizeY: real, sizeZ: real)
  {
    predicate Sane() {
      frame > 0 && (values == 4 || values == 5) && minX < maxX && minY < maxY && sizeX > 0.0 && sizeY > 0.0
    }

    function GridX(): (n: nat)
      requires Sane()
      ensures (n - 1) as real * sizeX < maxX - minX <= n as real * sizeX
    {
      Cells(maxX - minX, sizeX)
    }

    function GridY(): (n: nat)
      requires Sane()
      ensures (n - 1) as real * sizeY < maxY - minY <= n as real * sizeY
    {
      Cells(maxY - minY, sizeY)
    }

    /** Number of cells of all batches. */
    function Grid(): nat
      requires Sane()
    {
      batches * GridY() * GridX()
    }

    function Cell(b: nat, y: nat, x: nat): nat
      requires Sane()
    {
      (b * GridY() + y) * GridX() + x
    }
  }

  function Ceil(r: real): int {
    -((-r).Floor)
  }

  /** The distance of the k-th cell edge from the first. */
  function Edge(k: int, size: real): real {
    k as real * size
  }

  function Cells(extent: real, size: real): (n: nat)
    requires extent > 0.0 && size > 0.0
    ensures n > 0 && Edge(n - 1, size) < extent <= Edge(n, size)
  {
    var n := Ceil(extent / size);
    EdgeByQuotient(n, extent, size);
    EdgeByQuotient(n - 1, extent, size);
    EdgeByQuotient(0, extent, size);
    n
  }

  lemma Product(a: real, b: real, c: real)
    requires a < b && c > 0.0
    ensures a * c < b * c
  {
    assert (b - a) * c > 0.0;
  }

  lemma Quotient(a: real, extent: real, size: real)
    requires size > 0.0
    ensures (a < extent / size <==> a * size < extent) && (a > extent / size <==> a * size > extent)
  {
    var q := extent / size;
    assert q * size == extent;
    if a < q { Product(a, q, size); }
    if q < a { Product(q, a, size); }
  }

  lemma EdgeByQuotient(k: int, extent: real, size: real)
    requires size > 0.0
    ensures (k as real < extent / size <==> Edge(k, size) < extent)
    ensures (k as real > extent / size <==> Edge(k, size) > extent)
    ensures Edge(0, size) == 0.0
  {
    Quotient(k as real, extent, size);
  }

  lemma EdgesIncrease(j: int, k: int, size: real)
    requires size > 0.0 && j <= k
    ensures Edge(j, size) <= Edge(k, size) && Edge(0, size) == 0.0
  {
    if j < k { Product(j as real, k as real, size); }
  }

  /** The point cloud: flat point values and how many points of each batch are present. */
  datatype Cloud = Cloud(points: seq<real>, sizes: seq<nat>)
  {
    predicate For(p: Params) {
      |points| == p.batches * p.frame * p.values && |sizes| == p.batches
    }
  }

  lemma PointBounds(p: Params, c: Cloud, t: nat, k: nat)
    requires p.Sane() && c.For(p) && t < p.batches * p.frame && k < p.values
    ensures t / p.frame < |c.sizes| && t * p.values + k < |c.points|
  {
    FlatIndex.Join(p.frame, p.batches, t);
    FlatIndex.Bound(p.values, p.batches * p.frame, t, k);
  }

  function At(p: Params, c: Cloud, t: nat, k: nat): real
    requires p.Sane() && c.For(p) && t < p.batches * p.frame && k < p.values
  {
    PointBounds(p, c, t, k);
    c.points[t * p.values + k]
  }

  predicate Present(p: Params, c: Cloud, t: nat)
    requires p.Sane() && c.For(p) && t < p.batches * p.frame
  {
    PointBounds(p, c, t, 0);
    t % p.frame < c.sizes[t / p.frame]
  }

  predicate InRange(p: Params, c: Cloud, t: nat)
    requires p.Sane() && c.For(p) && t < p.batches * p.frame
  {
    p.minX <= At(p, c, t, 0) < p.maxX && p.minY <= At(p, c, t, 1) < p.maxY && p.minZ <= At(p, c, t, 2) < p.maxZ
  }

  function Column(v: real, low: real, size: real): int
    requires size > 0.0
  {
    ((v - low) / size).Floor
  }

  /** v lies in the k-th interval of the given size counted from `low`. */
  ghost predicate Between(v: real, low: real, size: real, k: int) {
    low + k as real * size <= v < low + (k + 1) as real * size
  }

  lemma ColumnIsCell(v: real, low: real, size: real, k: int)
    requires size > 0.0
    ensures Column(v, low, size) == k <==> Between(v, low, size, k)
  {
    EdgeByQuotient(k, v - low, size);
    EdgeByQuotient(k + 1, v - low, size);
    assert Edge(k, size) == k as real * size && Edge(k + 1, size) == (k + 1) as real * size;
    hide Edge;
  }

  lemma ColumnInGrid(v: real, low: real, high: real, size: real)
    requires size > 0.0 && low <= v < high
    ensures 0 <= Column(v, low, size) < Cells(high - low, size)
  {
    var k, n := Column(v, low, size), Cells(high - low, size);
    ColumnIsCell(v, low, size, k);
    assert Edge(k, size) == k as real * size && Edge(k + 1, size) == (k + 1) as real * size;
    hide Edge, Column, Cells;
    if k >= n { EdgesIncrease(n, k, size); }
    if k < 0 { EdgesIncrease(k + 1, 0, size); }
  }

  /** Point t is one of batch b's points, in range, and geometrically inside the cell of row y and column x; its
      coordinates are the first three of its values. */
  ghost predicate LiesIn(p: Params, c: Cloud, t: nat, b: nat, y: nat, x: nat) {
    && t < p.batches * p.frame && p.frame > 0 && t / p.frame == b < |c.sizes| && t % p.frame < c.sizes[b]
    && t * p.values + 3 < |c.points|
    && var px, py, pz := c.points[t * p.values], c.points[t * p.values + 1], c.points[t * p.values + 2];
       && p.minX <= px < p.maxX && p.minY <= py < p.maxY && p.minZ <= pz < p.maxZ
       && Between(px, p.minX, p.sizeX, x) && Between(py, p.minY, p.sizeY, y)
  }

  lemma LiesInIff(p: Params, c: Cloud, t: nat, b: nat, y: nat, x: nat)
    requires p.Sane() && c.For(p) && t < p.batches * p.frame
    ensures LiesIn(p, c, t, b, y, x)
            <==> t / p.frame == b && Present(p, c, t) && InRange(p, c, t)
                 && Between(At(p, c, t, 0), p.minX, p.sizeX, x) && Between(At(p, c, t, 1), p.minY, p.sizeY, y)
  {
    PointBounds(p, c, t, 0);
    PointBounds(p, c, t, 3);
    hide Between;
  }

  /** Cells are numbered row by row, batch after batch. */
  lemma CellIs(p: Params, b: nat, y: nat, x: nat)
    requires p.Sane()
    ensures p.Cell(b, y, x) == (b * p.GridY() + y) * p.GridX() + x
  {
  }

  lemma CellSplits(p: Params, b: nat, y: nat, x: nat)
    requires p.Sane() && b < p.batches && y < p.GridY() && x < p.GridX()
    ensures var v := p.Cell(b, y, x);
            && v < p.Grid() && v % p.GridX() == x && (v / p.GridX()) % p.GridY() == y
            && v / (p.GridY() * p.GridX()) == b
  {
    var gy, gx := p.GridY(), p.GridX();
    var v := p.Cell(b, y, x);
    FlatIndex.Split(gx, b * gy + y, x);
    FlatIndex.Split(gy, b, y);
    FlatIndex.Bound(gy, p.batches, b, y);
    FlatIndex.Bound(gx, p.batches * gy, b * gy + y, x);
    FlatIndex.Bound(gx, gy, y, x);
    assert v == b * (gy * gx) + (y * gx + x);
    FlatIndex.Split(gy * gx, b, y * gx + x);
  }

  lemma EveryCell(p: Params, v: nat)
    requires p.Sane() && v < p.Grid()
    ensures var x, y, b := v % p.GridX(), (v / p.GridX()) % p.GridY(), v / (p.GridY() * p.GridX());
            && b < p.batches && y < p.GridY() && x < p.GridX() && v == p.Cell(b, y, x)
  {
    var gy, gx := p.GridY(), p.GridX();
    FlatIndex.Join(gx, p.batches * gy, v);
    FlatIndex.Join(gy, p.batches, v / gx);
    CellSplits(p, v / gx / gy, (v / gx) % gy, v % gx);
  }
}
