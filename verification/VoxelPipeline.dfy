/** The three kernels together: what a pillar's features say about the point cloud. */
module VoxelPipeline {
  import FlatIndex
  import opened ThreadOrder
  import opened VoxelGrid
  import SlotClaim
  import Voxels
  import opened Pillars
  import opened PillarFeatures
  import opened RowBuffer

  /** Feature k of point j of a slot. */
  function Feature(p: Params, features: seq<real>, slot: nat, j: nat, k: nat): real {
    var at := (slot * p.perVoxel + j) * 10 + k;
    if at < |features| then features[at] else 0.0
  }

  /** One feature of the first n points of a slot. */
  function FeatureColumn(p: Params, features: seq<real>, slot: nat, n: nat, k: nat): (r: seq<real>)
    ensures |r| == n
  {
    seq(n, j requires 0 <= j < n => Feature(p, features, slot, j, k))
  }

  function Mean(xs: seq<real>): real
    requires |xs| > 0
  {
    Sum(xs) / |xs| as real
  }

  /** Within half a cell of the centre, the lower edge included. */
  predicate Near(x: real, size: real) {
    -(size / 2.0) <= x < size / 2.0
  }

  /** Row j of a pillar shows the point t of the cell in row y and column x: its four values as they are in the cloud,
      and where it lies from the cell's centre. */
  ghost predicate Shows(p: Params, c: Cloud, features: seq<real>, slot: nat, y: nat, x: nat, j: nat, t: nat) {
    var row, point := (slot * p.perVoxel + j) * 10, t * p.values;
    && row + 10 <= |features| && point + 4 <= |c.points|
    && features[row] == c.points[point] && features[row + 1] == c.points[point + 1]
    && features[row + 2] == c.points[point + 2] && features[row + 3] == c.points[point + 3]
    && features[row + 7] == c.points[point] - (p.minX + x as real * p.sizeX + p.sizeX / 2.0)
    && features[row + 8] == c.points[point + 1] - (p.minY + y as real * p.sizeY + p.sizeY / 2.0)
    && features[row + 9] == c.points[point + 2] - (p.minZ + p.sizeZ / 2.0)
    && Near(features[row + 7], p.sizeX) && Near(features[row + 8], p.sizeY)
  }

  /** Features 4 to 6 of the first n rows are features 0 to 2 less their mean, and so cancel. */
  ghost predicate Centred(p: Params, features: seq<real>, slot: nat, n: nat, k: nat) {
    var xs, ys := FeatureColumn(p, features, slot, n, k), FeatureColumn(p, features, slot, n, 4 + k);
    n > 0 && Sum(ys) == 0.0 && forall j: nat | j < n :: ys[j] == xs[j] - Mean(xs)
  }

  /** A row of ten zeros. */
  ghost predicate Blank(p: Params, features: seq<real>, slot: nat, j: nat) {
    var row := (slot * p.perVoxel + j) * 10;
    row + 10 <= |features| && features[row..row + 10] == [0.0, 0.0, 0.0, 0.0, 0.0, 0.0, 0.0, 0.0, 0.0, 0.0]
  }

  /** The pillar in a slot shows min(number of points in the cell, maximum) distinct points of that cell, its
      mean-centred features cancel, and its remaining rows are zero. */
  ghost predicate Portrays(p: Params, c: Cloud, features: seq<real>, slot: nat, b: nat, y: nat, x: nat,
                           points: seq<nat>) {
    && (forall t: nat :: t in points <==> LiesIn(p, c, t, b, y, x))
    && (forall i, j | 0 <= i < j < |points| :: points[i] != points[j])
    && var n := if |points| < p.perVoxel then |points| else p.perVoxel;
       && (forall j: nat | n <= j < p.perVoxel :: Blank(p, features, slot, j))
       && (forall j: nat | j < n :: Shows(p, c, features, slot, y, x, j, points[j]))
       && forall k: nat | k < 3 && n > 0 :: Centred(p, features, slot, n, k)
  }

  // ── Reading the second kernel's buffers ──────────────────────────────

  lemma PlaceIs(d: Buffers, i: nat, n: nat, x: real)
    ensures Has(Places(d.counts, d.coords, d.values), CountAt(i), Number(n)) ==> i < |d.counts| && d.counts[i] == n
    ensures Has(Places(d.counts, d.coords, d.values), CoordAt(i), Number(n)) ==> i < |d.coords| && d.coords[i] == n
    ensures Has(Places(d.counts, d.coords, d.values), ValueAt(i), Value(x)) ==> i < |d.values| && d.values[i] == x
  {
  }

  lemma DescribesParts(p: Params, g: Grid, out: map<Place, Pillars.Word>, b: nat, i: nat, y: nat, x: nat)
    requires p.Sane() && Describes(p, g, out, b, i, y, x)
    ensures DescribesVoxel(p, g, out, Slot(p, b, i), p.Cell(b, y, x), y, x)
  {
    hide DescribesVoxel, Params.GridX, Params.GridY;
  }

  lemma GatheredParts(p: Params, c: Cloud, mask: seq<nat>, voxels: map<nat, real>, b: nat, y: nat, x: nat,
                      points: seq<nat>, j: nat)
    requires p.Sane() && Voxels.Gathered(p, c, mask, voxels, b, y, x, points) && j < |points| && j < p.perVoxel
    ensures var v := p.Cell(b, y, x);
            && v < |mask| && mask[v] == |points| && LiesIn(p, c, points[j], b, y, x)
            && points[j] < p.batches * p.frame && Voxels.Copied(p, c, voxels, v, j, points[j])
  {
    hide Voxels.Copied, Params.GridX, Params.GridY, Between;
    assert points[j] in points;
  }

  /** The points of a pillar that describes a cell are the first points gathered in the cell. */
  lemma PillarHoldsPoints(p: Params, c: Cloud, g: Grid, d: Buffers, b: nat, i: nat, y: nat, x: nat, points: seq<nat>,
                          j: nat, k: nat)
    requires p.Sane() && c.For(p) && g.For(p) && d.For(p) && Slot(p, b, i) < |d.counts|
    requires Describes(p, g, Places(d.counts, d.coords, d.values), b, i, y, x)
    requires Voxels.Gathered(p, c, g.mask, Voxels.AsMap(g.voxels), b, y, x, points)
    requires j < Min(|points|, p.perVoxel) && k < 4
    ensures points[j] < p.batches * p.frame && Coordinate(p, d, Slot(p, b, i), j, k) == At(p, c, points[j], k)
  {
    hide Params.Cell, Params.GridX, Params.GridY, Places, Has, LiesIn, Voxels.Copied, CopiedRow, Describes,
         Voxels.Gathered, Slot, Voxels.Word, At;
    var v, s, out := p.Cell(b, y, x), Slot(p, b, i), Places(d.counts, d.coords, d.values);
    DescribesParts(p, g, out, b, i, y, x);
    GatheredParts(p, c, g.mask, Voxels.AsMap(g.voxels), b, y, x, points, j);
    CopiedRowAt(p, g, out, v, s, Min(g.mask[v], p.perVoxel), j, k);
    Voxels.CopiedAt(p, c, Voxels.AsMap(g.voxels), v, j, points[j], k);
    PlaceIs(d, Voxels.Word(p, s, j, k), 0, g.voxels[Voxels.Word(p, v, j, k)]);
  }

  lemma PillarHead(p: Params, g: Grid, d: Buffers, b: nat, i: nat, y: nat, x: nat)
    requires p.Sane() && g.For(p) && d.For(p) && Slot(p, b, i) < |d.counts|
    requires Describes(p, g, Places(d.counts, d.coords, d.values), b, i, y, x)
    ensures var s, v := Slot(p, b, i), p.Cell(b, y, x);
            && v < |g.mask| && d.counts[s] == Min(g.mask[v], p.perVoxel)
            && d.coords[s * 4 + 1] == 0 && d.coords[s * 4 + 2] == y && d.coords[s * 4 + 3] == x
  {
    hide Params.Cell, Params.GridX, Params.GridY, CopiedRow, Places, Has, Describes, Slot;
    var s, v := Slot(p, b, i), p.Cell(b, y, x);
    DescribesParts(p, g, Places(d.counts, d.coords, d.values), b, i, y, x);
    PlaceIs(d, s, Min(g.mask[v], p.perVoxel), 0.0);
    PlaceIs(d, s * 4 + 1, 0, 0.0);
    PlaceIs(d, s * 4 + 2, y, 0.0);
    PlaceIs(d, s * 4 + 3, x, 0.0);
  }

  // ── Arithmetic ───────────────────────────────────────────────────────

  /** A point of the cell is within half a cell of the centre the kernel computes. */
  lemma NearTheCentre(v: real, low: real, size: real, k: nat)
    requires Between(v, low, size, k)
    ensures Near(v - Centre(low, size, k), size)
  {
    assert Edge(k + 1, size) == Edge(k, size) + size;
  }

  lemma Quotient(s: real, n: real)
    requires n > 0.0
    ensures s - n * (s / n) == 0.0
  {
  }

  lemma DeviationsCancel(xs: seq<real>, ys: seq<real>)
    requires |xs| == |ys| > 0 && forall i | 0 <= i < |xs| :: ys[i] == xs[i] - Mean(xs)
    ensures Sum(ys) == 0.0
  {
    var n, s := |xs| as real, Sum(xs);
    hide Sum;
    SumShift(xs, ys, s / n);
    Quotient(s, n);
  }

  // ── End to end ───────────────────────────────────────────────────────

  lemma CellPoint(p: Params, c: Cloud, g: Grid, d: Buffers, b: nat, i: nat, y: nat, x: nat, points: seq<nat>, j: nat)
    requires p.Sane() && c.For(p) && g.For(p) && d.For(p) && Slot(p, b, i) < |d.counts|
    requires Describes(p, g, Places(d.counts, d.coords, d.values), b, i, y, x)
    requires Voxels.Gathered(p, c, g.mask, Voxels.AsMap(g.voxels), b, y, x, points)
    requires j < Min(|points|, p.perVoxel)
    ensures var s, t := Slot(p, b, i), points[j];
            && t < p.batches * p.frame && j < d.counts[s] <= p.perVoxel && d.coords[s * 4 + 1] == 0
            && d.coords[s * 4 + 2] == y && d.coords[s * 4 + 3] == x
            && (forall k: nat | k < 4 :: Coordinate(p, d, s, j, k) == At(p, c, t, k))
            && Between(At(p, c, t, 0), p.minX, p.sizeX, x) && Between(At(p, c, t, 1), p.minY, p.sizeY, y)
  {
    hide Describes, Places, LiesIn, At, Coordinate, Between, Params.Cell, Params.GridX, Params.GridY, Slot,
         Voxels.Gathered, Voxels.Copied;
    var s, t := Slot(p, b, i), points[j];
    PillarHead(p, g, d, b, i, y, x);
    GatheredParts(p, c, g.mask, Voxels.AsMap(g.voxels), b, y, x, points, j);
    LiesInIff(p, c, t, b, y, x);
    forall k: nat | k < 4 ensures Coordinate(p, d, s, j, k) == At(p, c, t, k) {
      PillarHoldsPoints(p, c, g, d, b, i, y, x, points, j, k);
    }
  }

  lemma RowValues(p: Params, d: Buffers, features: seq<real>, slot: nat, j: nat)
    requires d.For(p) && slot < |d.counts| && j < p.perVoxel && Featured(p, d, features, slot)
    ensures Base(p, slot, j) + Columns <= |features|
    ensures forall k: nat | k < Columns :: features[Base(p, slot, j) + k] == FeatureRow(p, d, slot, j)[k]
  {
    hide FeatureRow;
    var row := FeatureRow(p, d, slot, j);
    assert RowAt(features, Base(p, slot, j), row);
    forall k: nat | k < Columns ensures features[Base(p, slot, j) + k] == row[k] {
      assert features[Base(p, slot, j)..Base(p, slot, j) + |row|][k] == row[k];
    }
  }

  lemma RowContents(p: Params, d: Buffers, slot: nat, j: nat)
    requires d.For(p) && slot < |d.counts| && j < d.counts[slot] <= p.perVoxel
    ensures var r := FeatureRow(p, d, slot, j);
            && (forall k: nat | k < 4 :: r[k] == Coordinate(p, d, slot, j, k))
            && (forall k: nat | k < 3 :: r[4 + k] == r[k] - Mean(Axis(p, d, slot, k)))
            && r[7] == Coordinate(p, d, slot, j, 0) - Centre(p.minX, p.sizeX, d.coords[slot * 4 + 3])
            && r[8] == Coordinate(p, d, slot, j, 1) - Centre(p.minY, p.sizeY, d.coords[slot * 4 + 2])
            && r[9] == Coordinate(p, d, slot, j, 2) - Centre(p.minZ, p.sizeZ, d.coords[slot * 4 + 1])
  {
    hide Coordinate, Centre, Sum, Axis;
  }

  lemma RowOfPoint(p: Params, c: Cloud, d: Buffers, features: seq<real>, s: nat, j: nat, t: nat, y: nat, x: nat)
    requires p.Sane() && c.For(p) && d.For(p) && s < |d.counts| && Featured(p, d, features, s)
    requires t < p.batches * p.frame && j < d.counts[s] <= p.perVoxel && d.coords[s * 4 + 1] == 0
    requires d.coords[s * 4 + 2] == y && d.coords[s * 4 + 3] == x
    requires forall k: nat | k < 4 :: Coordinate(p, d, s, j, k) == At(p, c, t, k)
    requires Between(At(p, c, t, 0), p.minX, p.sizeX, x) && Between(At(p, c, t, 1), p.minY, p.sizeY, y)
    ensures Shows(p, c, features, s, y, x, j, t)
  {
    hide Featured, Coordinate, Between, Near, FeatureRow;
    PointBounds(p, c, t, 3);
    RowValues(p, d, features, s, j);
    RowContents(p, d, s, j);
    NearTheCentre(At(p, c, t, 0), p.minX, p.sizeX, x);
    NearTheCentre(At(p, c, t, 1), p.minY, p.sizeY, y);
    var row, point := Base(p, s, j), t * p.values;
    var r := FeatureRow(p, d, s, j);
    assert forall k: nat | k < 10 :: features[row + k] == r[k];
    assert At(p, c, t, 0) == c.points[point] && At(p, c, t, 1) == c.points[point + 1]
        && At(p, c, t, 2) == c.points[point + 2] && At(p, c, t, 3) == c.points[point + 3];
    hide Base, At, Centre;
    ShowsWhen(p, c, features, s, y, x, j, t, r);
  }

  lemma ShowsWhen(p: Params, c: Cloud, features: seq<real>, s: nat, y: nat, x: nat, j: nat, t: nat, r: seq<real>)
    requires p.values == 4 && |r| == 10 && t * p.values + 4 <= |c.points|
    requires var row := (s * p.perVoxel + j) * 10;
             row + 10 <= |features| && forall k: nat | k < 10 :: features[row + k] == r[k]
    requires var point := t * p.values;
             && r[0] == c.points[point] && r[1] == c.points[point + 1] && r[2] == c.points[point + 2]
             && r[3] == c.points[point + 3] && r[7] == c.points[point] - Centre(p.minX, p.sizeX, x)
             && r[8] == c.points[point + 1] - Centre(p.minY, p.sizeY, y)
             && r[9] == c.points[point + 2] - Centre(p.minZ, p.sizeZ, 0)
    requires Near(r[7], p.sizeX) && Near(r[8], p.sizeY)
    ensures Shows(p, c, features, s, y, x, j, t)
  {
    hide Near;
    var row := (s * p.perVoxel + j) * 10;
    assert features[row + 0] == r[0];
  }

  lemma RowShows(p: Params, c: Cloud, g: Grid, d: Buffers, features: seq<real>, b: nat, i: nat, y: nat, x: nat,
                 points: seq<nat>, j: nat)
    requires p.Sane() && c.For(p) && g.For(p) && d.For(p) && Slot(p, b, i) < |d.counts|
    requires Describes(p, g, Places(d.counts, d.coords, d.values), b, i, y, x)
    requires Voxels.Gathered(p, c, g.mask, Voxels.AsMap(g.voxels), b, y, x, points)
    requires Featured(p, d, features, Slot(p, b, i)) && j < Min(|points|, p.perVoxel)
    ensures Shows(p, c, features, Slot(p, b, i), y, x, j, points[j])
  {
    hide Describes, Voxels.Gathered, Places, Featured, At, Coordinate, Between, Slot, Shows;
    CellPoint(p, c, g, d, b, i, y, x, points, j);
    RowOfPoint(p, c, d, features, Slot(p, b, i), j, points[j], y, x);
  }

  lemma ColumnCancels(p: Params, d: Buffers, features: seq<real>, slot: nat, k: nat)
    requires d.For(p) && slot < |d.counts| && Featured(p, d, features, slot) && 0 < d.counts[slot] <= p.perVoxel
    requires k < 3
    ensures Centred(p, features, slot, d.counts[slot], k)
  {
    var n := d.counts[slot];
    var xs, ys := FeatureColumn(p, features, slot, n, k), FeatureColumn(p, features, slot, n, 4 + k);
    hide Sum, Mean, Coordinate, Base, FeatureRow, Featured;
    forall j: nat | j < n ensures xs[j] == Axis(p, d, slot, k)[j] && ys[j] == xs[j] - Mean(Axis(p, d, slot, k)) {
      RowValues(p, d, features, slot, j);
      RowContents(p, d, slot, j);
    }
    assert xs == Axis(p, d, slot, k);
    DeviationsCancel(xs, ys);
  }

  /** The pillar in a slot portrays voxel v, which is not empty. */
  ghost predicate PortraysCell(p: Params, c: Cloud, features: seq<real>, b: nat, i: nat, v: nat)
    requires p.Sane()
  {
    var s, y, x := b * p.maxPillars + i, (v / p.GridX()) % p.GridY(), v % p.GridX();
    exists points: seq<nat> :: |points| > 0 && Portrays(p, c, features, s, b, y, x, points)
  }

  /** Whatever the interleavings of the three kernels: pillar i of a batch portrays the i-th of its nonempty voxels. */
  lemma PillarsPortrayTheCloud(p: Params, c: Cloud, g: Grid, pillars: seq<nat>, d: Buffers, features: seq<real>, b: nat,
                               cells: seq<nat>, i: nat)
    requires p.Sane() && p.values == 4 && c.For(p) && g.For(p) && d.For(p) && b < p.batches && |pillars| == p.batches
    requires Voxels.Voxelized(p, c, g.mask, Voxels.AsMap(g.voxels))
    requires Compacted(p, g, pillars, Places(d.counts, d.coords, d.values), b, cells)
    requires i < pillars[b] <= p.maxPillars && p.perVoxel > 0
    requires Served(p, d, pillars, features, Slot(p, b, i))
    ensures i < |cells| && PortraysCell(p, c, features, b, i, cells[i])
  {
    hide Featured, Portrays, Describes, Places, LiesIn, Nonempty, Voxels.Gathered, Voxels.AsMap, Params.GridX,
         Params.GridY, Params.Cell;
    FlatIndex.Split(p.maxPillars, b, i);
    var s := Slot(p, b, i);
    assert Featured(p, d, features, s);
    hide Slot, Compacted, Served;
    var y, x := CompactedCell(p, g, pillars, Places(d.counts, d.coords, d.values), b, cells, i);
    var points := GatheredCell(p, c, g, b, y, x);
    PillarPortrays(p, c, g, d, features, b, i, y, x, points);
  }

  lemma GatheredCell(p: Params, c: Cloud, g: Grid, b: nat, y: nat, x: nat) returns (points: seq<nat>)
    requires p.Sane() && c.For(p) && g.For(p) && Voxels.Voxelized(p, c, g.mask, Voxels.AsMap(g.voxels))
    requires b < p.batches && y < p.GridY() && x < p.GridX() && p.Cell(b, y, x) < p.Grid()
    requires g.mask[p.Cell(b, y, x)] > 0
    ensures Voxels.Gathered(p, c, g.mask, Voxels.AsMap(g.voxels), b, y, x, points) && |points| > 0
  {
    CellIs(p, b, y, x);
    hide Params.Cell, Params.GridX, Params.GridY, Params.Grid, LiesIn, Voxels.Copied, Voxels.AsMap;
    assert Voxels.IsGathered(p, c, g.mask, Voxels.AsMap(g.voxels), b, y, x);
    points :| Voxels.Gathered(p, c, g.mask, Voxels.AsMap(g.voxels), b, y, x, points);
  }

  lemma CompactedCell(p: Params, g: Grid, pillars: seq<nat>, out: map<Place, Pillars.Word>, b: nat, cells: seq<nat>,
                      i: nat)
    returns (y: nat, x: nat)
    requires p.Sane() && g.For(p) && b < |pillars| && i < pillars[b] && Compacted(p, g, pillars, out, b, cells)
    ensures i < |cells| && y == (cells[i] / p.GridX()) % p.GridY() && x == cells[i] % p.GridX()
    ensures Describes(p, g, out, b, i, y, x) && y < p.GridY() && x < p.GridX()
    ensures p.Cell(b, y, x) < p.Grid() && g.mask[p.Cell(b, y, x)] > 0
  {
    var v := cells[i];
    assert v in cells && v in Nonempty(p, g, b);
    EveryCell(p, v);
    y, x := (v / p.GridX()) % p.GridY(), v % p.GridX();
    hide Params.Cell, Params.GridX, Params.GridY, Params.Grid, Describes;
  }

  lemma PillarPortrays(p: Params, c: Cloud, g: Grid, d: Buffers, features: seq<real>, b: nat, i: nat, y: nat, x: nat,
                       points: seq<nat>)
    requires p.Sane() && p.values == 4 && c.For(p) && g.For(p) && d.For(p) && Slot(p, b, i) < |d.counts|
    requires p.perVoxel > 0
    requires Describes(p, g, Places(d.counts, d.coords, d.values), b, i, y, x)
    requires Voxels.Gathered(p, c, g.mask, Voxels.AsMap(g.voxels), b, y, x, points)
    requires Featured(p, d, features, Slot(p, b, i)) && |points| > 0
    ensures Portrays(p, c, features, Slot(p, b, i), b, y, x, points)
  {
    hide Describes, LiesIn, FeatureRow, Shows, Params.Cell, Params.GridX, Params.GridY, Slot, Blank, Centred, Featured,
         Voxels.Copied, Base, Places;
    var s, n := Slot(p, b, i), Min(|points|, p.perVoxel);
    PillarHead(p, g, d, b, i, y, x);
    GatheredParts(p, c, g.mask, Voxels.AsMap(g.voxels), b, y, x, points, 0);
    forall j: nat | j < n ensures Shows(p, c, features, s, y, x, j, points[j]) {
      RowShows(p, c, g, d, features, b, i, y, x, points, j);
    }
    forall j: nat | n <= j < p.perVoxel ensures Blank(p, features, s, j) {
      BlankRow(p, d, features, s, j);
    }
    forall k: nat | k < 3 ensures Centred(p, features, s, n, k) {
      ColumnCancels(p, d, features, s, k);
    }
  }

  lemma BlankRow(p: Params, d: Buffers, features: seq<real>, s: nat, j: nat)
    requires d.For(p) && s < |d.counts| && d.counts[s] <= j < p.perVoxel && Featured(p, d, features, s)
    ensures Blank(p, features, s, j)
  {
    ZeroRow(p, d, s, j);
    hide FeatureRow;
    assert RowAt(features, Base(p, s, j), FeatureRow(p, d, s, j));
  }

  // ── The three launches on one set of buffers ─────────────────────────

  ghost predicate SomePointIn(p: Params, c: Cloud, b: nat, y: nat, x: nat) {
    exists t: nat :: LiesIn(p, c, t, b, y, x)
  }

  /** The numbers of a batch's cells that some point lies in. */
  ghost function Occupied(p: Params, c: Cloud, b: nat): set<nat>
    requires p.Sane()
  {
    set y: nat, x: nat | y < p.GridY() && x < p.GridX() && SomePointIn(p, c, b, y, x) ::
      (b * p.GridY() + y) * p.GridX() + x
  }

  lemma OccupiedAreNonempty(p: Params, c: Cloud, g: Grid, b: nat)
    requires p.Sane() && c.For(p) && g.For(p) && Voxels.Voxelized(p, c, g.mask, Voxels.AsMap(g.voxels)) && b < p.batches
    ensures Nonempty(p, g, b) == Occupied(p, c, b)
  {
    hide Voxels.Voxelized, SomePointIn, Params.GridX, Params.GridY, Params.Cell, Voxels.AsMap;
    forall v: nat | v in Nonempty(p, g, b) ensures v in Occupied(p, c, b) {
      EveryCell(p, v);
      var y, x := (v / p.GridX()) % p.GridY(), v % p.GridX();
      CellIs(p, b, y, x);
      OccupiedIffCounted(p, c, g, b, y, x);
    }
    forall y: nat, x: nat | y < p.GridY() && x < p.GridX() && SomePointIn(p, c, b, y, x)
      ensures (b * p.GridY() + y) * p.GridX() + x in Nonempty(p, g, b)
    {
      CellSplits(p, b, y, x);
      CellIs(p, b, y, x);
      OccupiedIffCounted(p, c, g, b, y, x);
    }
  }

  lemma OccupiedIffCounted(p: Params, c: Cloud, g: Grid, b: nat, y: nat, x: nat)
    requires p.Sane() && c.For(p) && g.For(p) && Voxels.Voxelized(p, c, g.mask, Voxels.AsMap(g.voxels))
    requires b < p.batches && y < p.GridY() && x < p.GridX()
    ensures p.Cell(b, y, x) < |g.mask| && (g.mask[p.Cell(b, y, x)] > 0 <==> SomePointIn(p, c, b, y, x))
  {
    CellIs(p, b, y, x);
    hide Params.Cell, Params.GridX, Params.GridY, LiesIn, Voxels.AsMap, Voxels.Copied;
    assert Voxels.IsGathered(p, c, g.mask, Voxels.AsMap(g.voxels), b, y, x);
    var points :| Voxels.Gathered(p, c, g.mask, Voxels.AsMap(g.voxels), b, y, x, points);
    if points != [] { assert points[0] in points; }
    assert SomePointIn(p, c, b, y, x) <==> exists t: nat :: t in points;
  }

  /** Orders in which the atomic steps of the three launches happen; later ones may depend on earlier results. */
  datatype Orders = Orders(points: seq<nat>, cells: Grid -> seq<nat>, pillars: seq<nat>,
                           arrivals: (nat, nat) -> Arrivals, threads: nat -> seq<nat>)

  ghost predicate Complete(p: Params, c: Cloud, o: Orders, voxels: map<nat, real>, out: map<Place, Pillars.Word>)
    requires p.Sane() && c.For(p)
  {
    && SlotClaim.Finished(Voxels.PointTasks(p, c), Voxels.VoxelLayout(p), Voxels.RunKernel(p, c, voxels, o.points))
    && (forall i | 0 <= i < |o.points| :: o.points[i] < p.batches * p.frame)
    && (forall g: Grid | g.For(p) :: CompleteCells(p, g, o.cells(g), out))
    && Listing(o.pillars, p.batches * p.maxPillars)
    && (forall slot: nat, n: nat :: o.arrivals(slot, n).List(n))
    && (forall slot: nat :: Listing(o.threads(slot), p.perVoxel))
  }

  ghost predicate CompleteCells(p: Params, g: Grid, schedule: seq<nat>, out: map<Place, Pillars.Word>)
    requires p.Sane() && g.For(p)
  {
    && (forall i | 0 <= i < |schedule| :: schedule[i] < Threads(p))
    && SlotClaim.Finished(CellTasks(p, g), PillarLayout(p), Pillars.RunKernel(p, g, out, schedule))
  }

  // ── Such orders exist ────────────────────────────────────────────────

  function InTurn(n: nat): seq<nat> {
    seq(n, i => i)
  }

  lemma InTurnLists(n: nat)
    ensures Listing(InTurn(n), n)
  {
    forall t: nat | t < n ensures t in InTurn(n) { assert InTurn(n)[t] == t; }
  }

  lemma CellsCanFinish(p: Params, g: Grid, out: map<Place, Pillars.Word>)
    requires p.Sane() && g.For(p)
    ensures exists schedule :: CompleteCells(p, g, schedule, out)
  {
    Pillars.TasksFit(p, g);
    hide SlotClaim.Run, SlotClaim.Finished, SlotClaim.Fits;
    var schedule := SlotClaim.EveryRunCanFinish(CellTasks(p, g), PillarLayout(p), p.batches, out, []);
    assert [] + schedule == schedule;
    assert CompleteCells(p, g, schedule, out);
  }

  ghost function SomeCells(p: Params, out: map<Place, Pillars.Word>, g: Grid): (schedule: seq<nat>)
    requires p.Sane()
    ensures g.For(p) ==> CompleteCells(p, g, schedule, out)
  {
    if g.For(p) then
      CellsCanFinish(p, g, out);
      var schedule :| CompleteCells(p, g, schedule, out);
      schedule
    else []
  }

  lemma PointsCanFinish(p: Params, c: Cloud, voxels: map<nat, real>) returns (schedule: seq<nat>)
    requires p.Sane() && c.For(p)
    ensures SlotClaim.Finished(Voxels.PointTasks(p, c), Voxels.VoxelLayout(p), Voxels.RunKernel(p, c, voxels, schedule))
    ensures forall i | 0 <= i < |schedule| :: schedule[i] < p.batches * p.frame
  {
    Voxels.TasksFit(p, c);
    hide SlotClaim.Run, SlotClaim.Finished, SlotClaim.Fits;
    schedule := SlotClaim.EveryRunCanFinish(Voxels.PointTasks(p, c), Voxels.VoxelLayout(p), p.Grid(), voxels, []);
    assert [] + schedule == schedule;
  }

  /** No cloud and no contents of the buffers leave the launches without a complete order. */
  lemma OrdersExist(p: Params, c: Cloud, voxels: map<nat, real>, out: map<Place, Pillars.Word>) returns (o: Orders)
    requires p.Sane() && c.For(p)
    ensures Complete(p, c, o, voxels, out)
  {
    var points := PointsCanFinish(p, c, voxels);
    forall n: nat ensures Listing(InTurn(n), n) { InTurnLists(n); }
    hide Listing, InTurn, CompleteCells, SlotClaim.Finished, SlotClaim.Run, Voxels.RunKernel, Voxels.PointTasks,
         Voxels.VoxelLayout, Cloud.For, SomeCells;
    o := Orders(points, (g: Grid) => SomeCells(p, out, g), InTurn(p.batches * p.maxPillars),
                (slot: nat, n: nat) => Arrivals(InTurn(n), InTurn(n), InTurn(n)),
                (slot: nat) => InTurn(p.perVoxel));
    assert forall g: Grid | g.For(p) :: CompleteCells(p, g, o.cells(g), out);
  }

  /** `cells` are the occupied voxels of the batch, each once, and pillar i portrays the i-th. */
  ghost predicate PortraysBatch(p: Params, c: Cloud, features: seq<real>, b: nat, cells: seq<nat>)
    requires p.Sane() && c.For(p) && p.values == 4
  {
    && (forall v: nat :: v in cells <==> v in Occupied(p, c, b))
    && (forall i, j | 0 <= i < j < |cells| :: cells[i] != cells[j])
    && forall i: nat | i < |cells| :: PortraysCell(p, c, features, b, i, cells[i])
  }

  /** The batch's pillars, n of them, portray its occupied voxels, each once. */
  ghost predicate Portrayed(p: Params, c: Cloud, features: seq<real>, b: nat, n: nat)
    requires p.Sane() && c.For(p) && p.values == 4
  {
    exists cells :: |cells| == n && PortraysBatch(p, c, features, b, cells)
  }

  method GenerateVoxelizationFeature(p: Params, c: Cloud, o: Orders, mask: array<nat>, voxels: array<real>,
                                     pillars: array<nat>,
                                     counts: array<nat>, coords: array<nat>, values: array<real>, features: array<real>)
    requires p.Sane() && p.values == 4 && 0 < p.perVoxel <= SharedPoints && p.maxPillars > 0 && c.For(p)
    requires mask.Length == p.Grid() && voxels.Length == p.Grid() * p.perVoxel * p.values
    requires pillars.Length == p.batches && counts.Length == p.batches * p.maxPillars
    requires coords.Length == p.batches * p.maxPillars * 4
    requires values.Length == p.batches * p.maxPillars * (p.perVoxel * p.values)
    requires features.Length == p.batches * p.maxPillars * p.perVoxel * Columns
    requires mask != pillars && mask != counts && mask != coords && pillars != counts && pillars != coords
    requires counts != coords
    requires voxels != values && voxels != features && values != features
    requires (forall v | 0 <= v < mask.Length :: mask[v] == 0)
    requires (forall b | 0 <= b < pillars.Length :: pillars[b] == 0)
    requires forall b: nat | b < p.batches :: |Occupied(p, c, b)| <= p.maxPillars
    requires Complete(p, c, o, Voxels.AsMap(voxels[..]), Places(counts[..], coords[..], values[..]))
    modifies mask, voxels, pillars, counts, coords, values, features
    ensures forall b: nat | b < p.batches ::
              pillars[b] == |Occupied(p, c, b)| && Portrayed(p, c, features[..], b, pillars[b])
  {
    hide Occupied, Nonempty, Listing, Places, Voxels.AsMap, Voxels.Voxelized, IsCompacted, CompleteCells, Served,
         Portrayed;
    hide SlotClaim.Finished, SlotClaim.Run;
    ghost var out := Places(counts[..], coords[..], values[..]);
    var first := new Voxels.VoxelKernel(p, c, mask, voxels);
    first.Launch(o.points);
    var g := Grid(mask[..], voxels[..]);
    forall b: nat | b < p.batches ensures |Nonempty(p, g, b)| <= p.maxPillars {
      OccupiedAreNonempty(p, c, g, b);
    }
    assert CompleteCells(p, g, o.cells(g), out);
    RunCells(p, g, o.cells(g), out, pillars, counts, coords, values);
    var d := Buffers(counts[..], coords[..], values[..]);
    ghost var numbers := pillars[..];
    var arrivals := (slot: nat) => if slot < |d.counts| then o.arrivals(slot, Min(d.counts[slot], p.perVoxel))
      else Arrivals([], [], []);
    PillarFeatures.Launch(p, d, pillars, o.pillars, arrivals, o.threads, features);
    forall b: nat | b < p.batches
      ensures pillars[b] == |Occupied(p, c, b)| && Portrayed(p, c, features[..], b, pillars[b])
    {
      OccupiedAreNonempty(p, c, g, b);
      BatchPortrayed(p, c, g, numbers, d, features[..], b);
    }
  }

  method RunCells(p: Params, g: Grid, schedule: seq<nat>, ghost out: map<Place, Pillars.Word>, pillars: array<nat>,
                  counts: array<nat>, coords: array<nat>, values: array<real>)
    requires p.Sane() && g.For(p) && CompleteCells(p, g, schedule, out)
    requires out == Places(counts[..], coords[..], values[..])
    requires pillars.Length == p.batches && counts.Length == p.batches * p.maxPillars
    requires coords.Length == p.batches * p.maxPillars * 4
    requires values.Length == p.batches * p.maxPillars * (p.perVoxel * p.values)
    requires pillars != counts && counts != coords && pillars != coords
    requires forall b | 0 <= b < pillars.Length :: pillars[b] == 0
    requires forall b: nat | b < p.batches :: |Nonempty(p, g, b)| <= p.maxPillars
    modifies pillars, counts, coords, values
    ensures forall b: nat | b < p.batches ::
              IsCompacted(p, g, pillars[..], Places(counts[..], coords[..], values[..]), b)
  {
    hide Nonempty, Places, IsCompacted, SlotClaim.Finished, SlotClaim.Run;
    var second := new PillarKernel(p, g, pillars, counts, coords, values);
    second.Launch(schedule);
  }

  lemma BatchPortrayed(p: Params, c: Cloud, g: Grid, numbers: seq<nat>, d: Buffers, features: seq<real>, b: nat)
    requires p.Sane() && p.values == 4 && c.For(p) && g.For(p) && d.For(p) && b < p.batches && |numbers| == p.batches
    requires p.perVoxel > 0
    requires Voxels.Voxelized(p, c, g.mask, Voxels.AsMap(g.voxels))
    requires IsCompacted(p, g, numbers, Places(d.counts, d.coords, d.values), b) && |Nonempty(p, g, b)| <= p.maxPillars
    requires forall slot: nat | slot < |d.counts| :: Served(p, d, numbers, features, slot)
    ensures numbers[b] == |Occupied(p, c, b)| && Portrayed(p, c, features, b, numbers[b])
  {
    hide Voxels.Voxelized, Nonempty, Occupied, Served, Places, Describes, PortraysCell;
    OccupiedAreNonempty(p, c, g, b);
    var cells :| Compacted(p, g, numbers, Places(d.counts, d.coords, d.values), b, cells);
    forall i: nat | i < |cells| ensures PortraysCell(p, c, features, b, i, cells[i]) {
      FlatIndex.Bound(p.maxPillars, p.batches, b, i);
      PillarsPortrayTheCloud(p, c, g, numbers, d, features, b, cells, i);
    }
    assert PortraysBatch(p, c, features, b, cells);
  }
}
