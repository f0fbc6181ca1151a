/** Third kernel: the features of a pillar's points, from the sums its threads accumulate in any order. */
module PillarFeatures {
  import FlatIndex
  import opened ThreadOrder
  import opened RowBuffer
  import opened VoxelGrid
  import Voxels
  import Pillars

  const Columns := 10

  /** The rows a pillar has in a block's shared memory. */
  const SharedPoints := 64

  /** What the second kernel leaves behind, for points of four values. */
  datatype Buffers = Buffers(counts: seq<nat>, coords: seq<nat>, values: seq<real>)
  {
    ghost predicate For(p: Params) {
      && p.Sane() && p.values == 4
      && |counts| == p.batches * p.maxPillars && |coords| == p.batches * p.maxPillars * 4
      && |values| == p.batches * p.maxPillars * (p.perVoxel * p.values)
    }
  }

  lemma ValueInBuffer(p: Params, slot: nat, j: nat, k: nat)
    requires slot < p.batches * p.maxPillars && j < p.perVoxel && k < p.values
    ensures Voxels.Word(p, slot, j, k) < p.batches * p.maxPillars * (p.perVoxel * p.values)
  {
    Pillars.WordIsRow(p, slot, j, k);
    FlatIndex.Bound(p.perVoxel * p.values, p.batches * p.maxPillars, slot, j * p.values + k);
  }

  /** Value k of point j of the pillar in a slot. */
  function Coordinate(p: Params, d: Buffers, slot: nat, j: nat, k: nat): real
    requires d.For(p) && slot < |d.counts| && j < p.perVoxel && k < 4
  {
    ValueInBuffer(p, slot, j, k);
    d.values[Voxels.Word(p, slot, j, k)]
  }

  /** Value k of the points that threads add up, in slot order. */
  function Axis(p: Params, d: Buffers, slot: nat, k: nat): (r: seq<real>)
    requires d.For(p) && slot < |d.counts| && k < 4
    ensures |r| == Pillars.Min(d.counts[slot], p.perVoxel)
  {
    seq(Pillars.Min(d.counts[slot], p.perVoxel),
        j requires 0 <= j < Pillars.Min(d.counts[slot], p.perVoxel) => Coordinate(p, d, slot, j, k))
  }

  function Centre(low: real, size: real, cell: nat): real {
    size / 2.0 + cell as real * size + low
  }

  /** What one thread computes from its point and the three sums. */
  function ThreadRow(p: Params, d: Buffers, slot: nat, j: nat, sx: real, sy: real, sz: real): (r: seq<real>)
    requires d.For(p) && slot < |d.counts| && j < p.perVoxel
    ensures |r| == Columns
  {
    if j < d.counts[slot] then
      var n := d.counts[slot] as real;
      var x, y, z := Coordinate(p, d, slot, j, 0), Coordinate(p, d, slot, j, 1), Coordinate(p, d, slot, j, 2);
      [x, y, z, Coordinate(p, d, slot, j, 3), x - sx / n, y - sy / n, z - sz / n,
       x - Centre(p.minX, p.sizeX, d.coords[slot * 4 + 3]),
       y - Centre(p.minY, p.sizeY, d.coords[slot * 4 + 2]),
       z - Centre(p.minZ, p.sizeZ, d.coords[slot * 4 + 1])]
    else Zeros
  }

  function FeatureRow(p: Params, d: Buffers, slot: nat, j: nat): (r: seq<real>)
    requires d.For(p) && slot < |d.counts| && j < p.perVoxel
    ensures |r| == Columns
  {
    ThreadRow(p, d, slot, j, Sum(Axis(p, d, slot, 0)), Sum(Axis(p, d, slot, 1)), Sum(Axis(p, d, slot, 2)))
  }

  const Zeros := [0.0, 0.0, 0.0, 0.0, 0.0, 0.0, 0.0, 0.0, 0.0, 0.0]

  lemma ZeroRow(p: Params, d: Buffers, slot: nat, j: nat)
    requires d.For(p) && slot < |d.counts| && d.counts[slot] <= j < p.perVoxel
    ensures FeatureRow(p, d, slot, j) == Zeros
  {
  }

  function Base(p: Params, slot: nat, j: nat): nat {
    (slot * p.perVoxel + j) * Columns
  }

  lemma BaseInBuffer(p: Params, slot: nat, j: nat)
    requires slot < p.batches * p.maxPillars && j < p.perVoxel
    ensures Base(p, slot, j) + Columns <= p.batches * p.maxPillars * p.perVoxel * Columns
  {
    FlatIndex.Bound(p.perVoxel, p.batches * p.maxPillars, slot, j);
    FlatIndex.Grows(Columns, slot * p.perVoxel + j, p.batches * p.maxPillars * p.perVoxel);
  }

  lemma RowsAreApart(p: Params, slot: nat, j: nat, slot': nat, j': nat)
    requires j < p.perVoxel && j' < p.perVoxel && (slot != slot' || j != j')
    ensures Base(p, slot, j) + Columns <= Base(p, slot', j') || Base(p, slot', j') + Columns <= Base(p, slot, j)
  {
    var a, b := slot * p.perVoxel + j, slot' * p.perVoxel + j';
    if a == b { FlatIndex.Unique(p.perVoxel, slot, j, slot', j'); }
    if a < b { FlatIndex.Grows(Columns, a, b); } else { FlatIndex.Grows(Columns, b, a); }
  }

  /** The features of all the points of a slot are in place. */
  ghost predicate Featured(p: Params, d: Buffers, features: seq<real>, slot: nat)
    requires d.For(p) && slot < |d.counts|
  {
    forall j: nat | j < p.perVoxel :: RowAt(features, Base(p, slot, j), FeatureRow(p, d, slot, j))
  }

  // ── The kernel on its buffers ────────────────────────────────────────

  /** The threads of a pillar add up one coordinate, in their order of arrival. */
  method SumAxis(p: Params, d: Buffers, slot: nat, k: nat, arrivals: seq<nat>) returns (sum: real)
    requires d.For(p) && slot < |d.counts| && k < 4 && Listing(arrivals, Pillars.Min(d.counts[slot], p.perVoxel))
    ensures sum == Sum(Axis(p, d, slot, k))
  {
    ghost var xs := Axis(p, d, slot, k);
    sum := 0.0;
    var i := 0;
    while i < |arrivals|
      invariant i <= |arrivals| && sum == Sum(Arranged(xs, arrivals)[..i])
    {
      assert Arranged(xs, arrivals)[..i + 1][..i] == Arranged(xs, arrivals)[..i];
      sum := sum + Coordinate(p, d, slot, arrivals[i], k);
      i := i + 1;
    }
    assert Arranged(xs, arrivals)[..i] == Arranged(xs, arrivals);
    AnyOrderSums(xs, arrivals);
  }

  method WriteRow(features: array<real>, base: nat, row: seq<real>)
    requires base + |row| <= features.Length
    modifies features
    ensures Overwritten(old(features[..]), features[..], base, row)
  {
    var k := 0;
    while k < |row|
      invariant k <= |row| && features[base..base + k] == row[..k]
      invariant features[..base] == old(features[..base]) && features[base + |row|..] == old(features[base + |row|..])
    {
      features[base + k] := row[k];
      assert features[base..base + (k + 1)] == features[base..base + k] + [row[k]];
      k := k + 1;
    }
  }

  /** The rows already in place for the other slots stay in place. */
  ghost predicate OthersStay(p: Params, d: Buffers, before: seq<real>, after: seq<real>, slot: nat)
    requires d.For(p)
  {
    forall other: nat | other < |d.counts| && other != slot && Featured(p, d, before, other) ::
      Featured(p, d, after, other)
  }

  lemma RowWritten(p: Params, d: Buffers, before: seq<real>, after: seq<real>, slot: nat, j: nat)
    requires d.For(p) && slot < |d.counts| && j < p.perVoxel
    requires Overwritten(before, after, Base(p, slot, j), FeatureRow(p, d, slot, j))
    ensures forall j': nat | j' < p.perVoxel && j' != j
            && RowAt(before, Base(p, slot, j'), FeatureRow(p, d, slot, j')) ::
              RowAt(after, Base(p, slot, j'), FeatureRow(p, d, slot, j'))
    ensures OthersStay(p, d, before, after, slot)
  {
    hide Overwritten, FeatureRow, Base, RowAt;
    forall s: nat, j': nat | s < |d.counts| && j' < p.perVoxel && (s != slot || j' != j)
      ensures RowAt(after, Base(p, s, j'), FeatureRow(p, d, s, j')) <==>
                RowAt(before, Base(p, s, j'), FeatureRow(p, d, s, j'))
    {
      RowsAreApart(p, s, j', slot, j);
      OverwrittenKeeps(before, after, Base(p, slot, j), FeatureRow(p, d, slot, j), Base(p, s, j'),
                       FeatureRow(p, d, s, j'));
    }
  }

  /** The row in a block's shared memory for a point of one of its four pillars. */
  function SharedRow(pillar: nat, point: nat): nat {
    pillar * SharedPoints + point
  }

  ghost predicate SharedRowsApart(perVoxel: nat) {
    forall q: nat, j: nat, q': nat, j': nat |
      q < 4 && j < perVoxel && q' < 4 && j' < perVoxel && SharedRow(q, j) == SharedRow(q', j') :: q == q' && j == j'
  }

  /** The threads of a block, one per point slot of four pillars, keep out of each other's shared rows exactly when a
      pillar has no more points than rows; then the phases below say what the kernel does. */
  lemma SharedRowsApartIff(perVoxel: nat)
    ensures SharedRowsApart(perVoxel) <==> perVoxel <= SharedPoints
    ensures perVoxel <= SharedPoints ==> forall q: nat, j: nat | q < 4 && j < perVoxel ::
              SharedRow(q, j) < 4 * SharedPoints
  {
    if perVoxel > SharedPoints {
      assert SharedRow(0, SharedPoints) == SharedRow(1, 0);
    }
  }

  /** The orders in which a pillar's atomic additions arrive, each coordinate's for itself. */
  datatype Arrivals = Arrivals(x: seq<nat>, y: seq<nat>, z: seq<nat>)
  {
    ghost predicate List(n: nat) {
      Listing(x, n) && Listing(y, n) && Listing(z, n)
    }
  }

  /** One pillar's block phase: sums first, then each thread writes its row. */
  method Pillar(p: Params, d: Buffers, slot: nat, arrivals: Arrivals, threads: seq<nat>, features: array<real>)
    requires d.For(p) && slot < |d.counts| && arrivals.List(Pillars.Min(d.counts[slot], p.perVoxel))
    requires Listing(threads, p.perVoxel) && p.perVoxel <= SharedPoints
    requires features.Length == p.batches * p.maxPillars * p.perVoxel * Columns
    modifies features
    ensures Featured(p, d, features[..], slot) && OthersStay(p, d, old(features[..]), features[..], slot)
  {
    var sx := SumAxis(p, d, slot, 0, arrivals.x);
    var sy := SumAxis(p, d, slot, 1, arrivals.y);
    var sz := SumAxis(p, d, slot, 2, arrivals.z);
    WriteRows(p, d, slot, sx, sy, sz, threads, features);
  }

  /** The rows of the listed threads are in place. */
  ghost predicate RowsDone(p: Params, d: Buffers, features: seq<real>, slot: nat, done: seq<nat>)
    requires d.For(p) && slot < |d.counts|
  {
    forall j: nat | j in done && j < p.perVoxel :: RowAt(features, Base(p, slot, j), FeatureRow(p, d, slot, j))
  }

  lemma OneRowMore(p: Params, d: Buffers, start: seq<real>, before: seq<real>, after: seq<real>, slot: nat,
                   done: seq<nat>, j: nat)
    requires d.For(p) && slot < |d.counts| && j < p.perVoxel && RowsDone(p, d, before, slot, done)
    requires OthersStay(p, d, start, before, slot)
    requires Overwritten(before, after, Base(p, slot, j), FeatureRow(p, d, slot, j))
    ensures RowsDone(p, d, after, slot, done + [j]) && OthersStay(p, d, start, after, slot)
  {
    RowWritten(p, d, before, after, slot, j);
    hide RowAt, FeatureRow, Base, Featured, Buffers.For;
  }

  lemma AllRowsDone(p: Params, d: Buffers, features: seq<real>, slot: nat, threads: seq<nat>)
    requires d.For(p) && slot < |d.counts| && Listing(threads, p.perVoxel) && RowsDone(p, d, features, slot, threads)
    ensures Featured(p, d, features, slot)
  {
    hide RowAt, FeatureRow, Base;
  }

  method WriteRows(p: Params, d: Buffers, slot: nat, sx: real, sy: real, sz: real, threads: seq<nat>,
                   features: array<real>)
    requires d.For(p) && slot < |d.counts| && Listing(threads, p.perVoxel)
    requires sx == Sum(Axis(p, d, slot, 0)) && sy == Sum(Axis(p, d, slot, 1)) && sz == Sum(Axis(p, d, slot, 2))
    requires features.Length == p.batches * p.maxPillars * p.perVoxel * Columns
    modifies features
    ensures Featured(p, d, features[..], slot) && OthersStay(p, d, old(features[..]), features[..], slot)
  {
    ghost var start := features[..];
    assert RowsDone(p, d, start, slot, threads[..0]) && OthersStay(p, d, start, start, slot);
    assert forall i | 0 <= i < |threads| :: threads[i] < p.perVoxel;
    assert slot < p.batches * p.maxPillars;
    hide Listing, RowsDone, OthersStay, ThreadRow, Overwritten, Base, RowAt, Axis, Sum, Buffers.For;
    var i := 0;
    while i < |threads|
      invariant i <= |threads|
      invariant RowsDone(p, d, features[..], slot, threads[..i]) && OthersStay(p, d, start, features[..], slot)
    {
      var j := threads[i];
      ghost var before := features[..];
      BaseInBuffer(p, slot, j);
      WriteRow(features, Base(p, slot, j), ThreadRow(p, d, slot, j, sx, sy, sz));
      OneRowMore(p, d, start, before, features[..], slot, threads[..i], j);
      assert threads[..i + 1] == threads[..i] + [j];
      i := i + 1;
    }
    assert threads[..i] == threads;
    AllRowsDone(p, d, features[..], slot, threads);
  }

  /** Blocks of four pillars enough for all of them, with a thread for every point slot. */
  function Blocks(p: Params): nat {
    (p.batches * p.maxPillars + 3) / 4
  }

  /** The thread of a block serves point j of the pillar in a slot. */
  predicate Serves(p: Params, block: nat, thread: nat, slot: nat, j: nat)
    requires p.perVoxel > 0
  {
    block * 4 + thread / p.perVoxel == slot && thread % p.perVoxel == j
  }

  lemma ServesIff(p: Params, slot: nat, j: nat, block: nat, thread: nat)
    requires j < p.perVoxel && thread < 4 * p.perVoxel
    ensures Serves(p, block, thread, slot, j) <==> block == slot / 4 && thread == (slot % 4) * p.perVoxel + j
  {
    FlatIndex.Join(p.perVoxel, 4, thread);
    FlatIndex.Split(p.perVoxel, slot % 4, j);
    if Serves(p, block, thread, slot, j) {
      FlatIndex.Unique(4, block, thread / p.perVoxel, slot / 4, slot % 4);
    }
  }

  /** Every point slot of every pillar has exactly one thread. */
  lemma OneThreadPerPoint(p: Params, slot: nat, j: nat)
    requires slot < p.batches * p.maxPillars && j < p.perVoxel
    ensures slot / 4 < Blocks(p) && (slot % 4) * p.perVoxel + j < 4 * p.perVoxel
    ensures forall block: nat, thread: nat | thread < 4 * p.perVoxel ::
              Serves(p, block, thread, slot, j) <==> block == slot / 4 && thread == (slot % 4) * p.perVoxel + j
  {
    FlatIndex.Bound(p.perVoxel, 4, slot % 4, j);
    hide Serves;
    forall block: nat, thread: nat | thread < 4 * p.perVoxel
      ensures Serves(p, block, thread, slot, j) <==> block == slot / 4 && thread == (slot % 4) * p.perVoxel + j
    {
      ServesIff(p, slot, j, block, thread);
    }
  }

  ghost predicate Ready(p: Params, d: Buffers, arrivals: nat -> Arrivals, threads: nat -> seq<nat>)
    requires d.For(p)
  {
    forall slot: nat | slot < |d.counts| ::
      arrivals(slot).List(Pillars.Min(d.counts[slot], p.perVoxel)) && Listing(threads(slot), p.perVoxel)
  }

  /** If the slot holds one of its batch's pillars, that pillar's features are in place. */
  ghost predicate Served(p: Params, d: Buffers, numbers: seq<nat>, features: seq<real>, slot: nat)
    requires d.For(p) && |numbers| == p.batches
  {
    slot < |d.counts| && p.maxPillars > 0 && slot / p.maxPillars < p.batches
    && (slot % p.maxPillars < Pillars.Min(numbers[slot / p.maxPillars], p.maxPillars) ==>
          Featured(p, d, features, slot))
  }

  lemma OthersServed(p: Params, d: Buffers, numbers: seq<nat>, before: seq<real>, after: seq<real>, slot: nat,
                     other: nat)
    requires d.For(p) && |numbers| == p.batches && OthersStay(p, d, before, after, slot)
    requires slot != other && Served(p, d, numbers, before, other)
    ensures Served(p, d, numbers, after, other)
  {
  }

  /** The pillar numbers while the launch runs: clamped once the first pillar of the batch has been there. */
  ghost predicate Clamping(p: Params, before: seq<nat>, now: seq<nat>, done: seq<nat>) {
    && |before| == |now|
    && (forall b | 0 <= b < |now| :: now[b] == before[b] || now[b] == Pillars.Min(before[b], p.maxPillars))
    && forall b | 0 <= b < |now| && b * p.maxPillars in done :: now[b] == Pillars.Min(before[b], p.maxPillars)
  }

  lemma ClampOne(p: Params, before: seq<nat>, now: seq<nat>, done: seq<nat>, slot: nat)
    requires Clamping(p, before, now, done) && p.maxPillars > 0 && slot / p.maxPillars < |now|
    ensures var b := slot / p.maxPillars;
            Clamping(p, before, if slot % p.maxPillars == 0 then now[b := Pillars.Min(now[b], p.maxPillars)]
                     else now, done + [slot])
  {
    var b := slot / p.maxPillars;
    forall b' | 0 <= b' < |now| && b' * p.maxPillars == slot ensures b' == b && slot % p.maxPillars == 0 {
      FlatIndex.Split(p.maxPillars, b', 0);
    }
  }

  lemma ClampNothing(p: Params, numbers: seq<nat>)
    ensures Clamping(p, numbers, numbers, [])
  {
  }

  lemma ClampedCount(p: Params, before: seq<nat>, now: seq<nat>, done: seq<nat>, b: nat)
    requires Clamping(p, before, now, done) && b < |now|
    ensures Pillars.Min(now[b], p.maxPillars) == Pillars.Min(before[b], p.maxPillars)
  {
  }

  lemma AllClamped(p: Params, before: seq<nat>, now: seq<nat>, order: seq<nat>)
    requires Clamping(p, before, now, order) && |now| == p.batches && Listing(order, p.batches * p.maxPillars)
    ensures p.maxPillars > 0 ==> forall b | 0 <= b < p.batches :: now[b] == Pillars.Min(before[b], p.maxPillars)
  {
    if p.maxPillars > 0 {
      forall b | 0 <= b < p.batches ensures now[b] == Pillars.Min(before[b], p.maxPillars) {
        FlatIndex.Bound(p.maxPillars, p.batches, b, 0);
        assert b * p.maxPillars in order;
      }
    }
  }

  /** The whole launch, its pillars in any order.  The first pillar of a batch also clamps the batch's pillar number. */
  method Launch(p: Params, d: Buffers, pillars: array<nat>, order: seq<nat>, arrivals: nat -> Arrivals,
                threads: nat -> seq<nat>,
                features: array<real>)
    requires d.For(p) && pillars.Length == p.batches && Listing(order, p.batches * p.maxPillars)
    requires Ready(p, d, arrivals, threads) && p.perVoxel <= SharedPoints
    requires features.Length == p.batches * p.maxPillars * p.perVoxel * Columns
    modifies features, pillars
    ensures forall slot: nat | slot < |d.counts| :: Served(p, d, old(pillars[..]), features[..], slot)
    ensures p.maxPillars > 0 ==>
              forall b | 0 <= b < p.batches :: pillars[b] == Pillars.Min(old(pillars[b]), p.maxPillars)
  {
    hide Featured, OthersStay, Clamping;
    ghost var numbers := pillars[..];
    assert Clamping(p, numbers, pillars[..], order[..0]) by { ClampNothing(p, numbers); }
    var n := 0;
    while n < |order|
      invariant n <= |order|
      invariant Clamping(p, numbers, pillars[..], order[..n])
      invariant forall k | 0 <= k < n :: Served(p, d, numbers, features[..], order[k])
    {
      var slot := order[n];
      FlatIndex.Join(p.maxPillars, p.batches, slot);
      var b, i := slot / p.maxPillars, slot % p.maxPillars;
      ghost var now, before := pillars[..], features[..];
      var count := Pillars.Min(pillars[b], p.maxPillars);
      ClampOne(p, numbers, now, order[..n], slot);
      ClampedCount(p, numbers, now, order[..n], b);
      if i == 0 {
        pillars[b] := count;
        assert pillars[..] == now[b := count];
      }
      if i < count {
        Pillar(p, d, slot, arrivals(slot), threads(slot), features);
        forall k | 0 <= k < n ensures Served(p, d, numbers, features[..], order[k]) {
          OthersServed(p, d, numbers, before, features[..], slot, order[k]);
        }
      }
      assert order[..n + 1] == order[..n] + [slot];
      n := n + 1;
    }
    assert order[..n] == order;
    AllClamped(p, numbers, pillars[..], order);
    forall slot: nat | slot < |d.counts| ensures Served(p, d, numbers, features[..], slot) {
      assert slot in order;
    }
  }
}
