/** Bird's-eye-view pooling: points are sorted into intervals of one output cell each, and a thread per interval and
    channel adds the interval's products up. Addition and multiplication are any two operations: nothing is
    reordered. */
module BevPool {
  import FlatIndex
  import opened ThreadOrder

  datatype Arithmetic<!F> = Arithmetic(zero: F, add: (F, F) -> F, mul: (F, F) -> F)

  datatype Input<!F> = Input(op: Arithmetic<F>, channels: nat, cells: nat, depth: seq<F>, feat: seq<F>,
                            ranksDepth: seq<nat>, ranksFeat: seq<nat>, ranksBev: seq<nat>, starts: seq<nat>,
                             lengths: seq<nat>)
  {
    function Points(): nat {
      |ranksBev|
    }

    /** Ranks point into their tensors. */
    ghost predicate Sane() {
      && channels > 0 && |ranksDepth| == Points() == |ranksFeat| && |starts| == |lengths|
      && forall p | 0 <= p < Points() ::
           ranksDepth[p] < |depth| && ranksFeat[p] * channels + channels <= |feat| && ranksBev[p] < cells
    }

    predicate Within(i: nat, p: nat)
      requires i < |starts| == |lengths|
    {
      starts[i] <= p < starts[i] + lengths[i]
    }

    function BevOf(i: nat): nat
      requires Sane() && i < |starts| && starts[i] < Points()
    {
      ranksBev[starts[i]]
    }

    ghost predicate Covered(p: nat)
      requires Sane()
    {
      exists i: nat :: i < |starts| && Within(i, p)
    }

    /** The intervals are nonempty and in bounds, every point is in one of them, points of one interval are for the same
        output cell, and different intervals are for different cells. */
    ghost predicate Partitioned()
      requires Sane()
    {
      && (forall i: nat | i < |starts| :: lengths[i] > 0 && starts[i] + lengths[i] <= Points())
      && (forall p: nat | p < Points() :: Covered(p))
      && (forall i: nat, p: nat | i < |starts| && p < Points() && Within(i, p) :: ranksBev[p] == BevOf(i))
      && forall i, j | 0 <= i < j < |starts| :: BevOf(i) != BevOf(j)
    }

    function Product(p: nat, ch: nat): F
      requires Sane() && p < Points() && ch < channels
    {
      op.mul(feat[ranksFeat[p] * channels + ch], depth[ranksDepth[p]])
    }
  }

  lemma CellIsInterval<F>(x: Input<F>, i: nat, p: nat)
    requires x.Sane() && x.Partitioned() && i < |x.starts| && p < x.Points()
    ensures x.Within(i, p) <==> x.ranksBev[p] == x.BevOf(i)
  {
    assert x.Covered(p);
    var j: nat :| j < |x.starts| && x.Within(j, p);
    assert x.BevOf(i) == x.BevOf(j) ==> i == j;
  }

  // ── Scatter-add: one point after the other ───────────────────────────

  /** The output buffer after adding the first n points, one by one, each to its cell. */
  function Scattered<F>(x: Input<F>, n: nat): (out: seq<F>)
    requires x.Sane() && n <= x.Points()
    ensures |out| == x.cells * x.channels
  {
    if n == 0 then seq(x.cells * x.channels, _ => x.op.zero)
    else
      var before := Scattered(x, n - 1);
      seq(x.cells * x.channels, a requires 0 <= a < x.cells * x.channels =>
        if a / x.channels == x.ranksBev[n - 1] then x.op.add(before[a], x.Product(n - 1, a % x.channels))
          else before[a])
  }

  // ── Pooling: one interval after the other ────────────────────────────

  function PartialSum<F>(x: Input<F>, start: nat, length: nat, ch: nat): F
    requires x.Sane() && start + length <= x.Points() && ch < x.channels
  {
    if length == 0 then x.op.zero
    else x.op.add(PartialSum(x, start, length - 1, ch), x.Product(start + length - 1, ch))
  }

  /** A cell collects nothing outside its interval, and its products in order inside. */
  lemma {:induction false} ScatterIsPartialSum<F>(x: Input<F>, i: nat, n: nat, a: nat)
    requires x.Sane() && x.Partitioned() && i < |x.starts| && n <= x.Points() && a < x.cells * x.channels
    requires a / x.channels == x.BevOf(i)
    ensures var s, l := x.starts[i], x.lengths[i];
            Scattered(x, n)[a] == PartialSum(x, s, if n <= s then 0 else if n < s + l then n - s else l, a % x.channels)
  {
    if n > 0 {
      ScatterIsPartialSum(x, i, n - 1, a);
      CellIsInterval(x, i, n - 1);
    }
  }

  lemma {:induction false} UntouchedCellsStayZero<F>(x: Input<F>, n: nat, a: nat)
    requires x.Sane() && n <= x.Points() && a < x.cells * x.channels
    requires forall p | 0 <= p < n :: x.ranksBev[p] != a / x.channels
    ensures Scattered(x, n)[a] == x.op.zero
  {
    if n > 0 { UntouchedCellsStayZero(x, n - 1, a); }
  }

  // ── What a cell holds ────────────────────────────────────────────────

  /** Adding up from zero, in order. */
  ghost function Fold<F>(op: Arithmetic<F>, xs: seq<F>): F {
    if xs == [] then op.zero else op.add(Fold(op, xs[..|xs| - 1]), xs[|xs| - 1])
  }

  /** Channel ch of the features of an interval's first n points, each times its depth. */
  ghost function Products<F>(x: Input<F>, i: nat, n: nat, ch: nat): seq<F>
    requires x.Sane() && i < |x.starts| && ch < x.channels && x.starts[i] + n <= |x.ranksBev|
  {
    seq(n, k requires 0 <= k < n =>
      x.op.mul(x.feat[x.ranksFeat[x.starts[i] + k] * x.channels + ch], x.depth[x.ranksDepth[x.starts[i] + k]]))
  }

  /** The cell of interval i holds, for channel ch, the sum of the interval's products. */
  ghost predicate Pools<F>(x: Input<F>, out: seq<F>, i: nat, ch: nat)
    requires x.Sane() && i < |x.starts| && ch < x.channels
  {
    var s, l := x.starts[i], x.lengths[i];
    && l > 0 && s + l <= |x.ranksBev|
    && var at := x.ranksBev[s] * x.channels + ch;
       at < |out| && out[at] == Fold(x.op, Products(x, i, l, ch))
  }

  /** Cell r, if it belongs to no interval, is zero in channel ch. */
  ghost predicate ZeroUnlessPooled<F>(x: Input<F>, out: seq<F>, r: nat, ch: nat) {
    (exists i :: 0 <= i < |x.starts| && x.starts[i] < |x.ranksBev| && x.ranksBev[x.starts[i]] == r)
    || (r * x.channels + ch < |out| && out[r * x.channels + ch] == x.op.zero)
  }

  /** The whole output: a sum for every interval and channel, zero elsewhere. */
  ghost predicate PooledCells<F>(x: Input<F>, out: seq<F>)
    requires x.Sane()
  {
    && (forall i: nat, ch: nat | i < |x.starts| && ch < x.channels :: Pools(x, out, i, ch))
    && forall r: nat, ch: nat | r < x.cells && ch < x.channels :: ZeroUnlessPooled(x, out, r, ch)
  }

  lemma {:induction false} PartialSumFolds<F>(x: Input<F>, i: nat, n: nat, ch: nat)
    requires x.Sane() && i < |x.starts| && ch < x.channels && x.starts[i] + n <= |x.ranksBev|
    ensures PartialSum(x, x.starts[i], n, ch) == Fold(x.op, Products(x, i, n, ch))
  {
    if n > 0 {
      PartialSumFolds(x, i, n - 1, ch);
      assert Products(x, i, n, ch)[..n - 1] == Products(x, i, n - 1, ch);
    }
  }

  /** Adding point after point leaves just that. */
  lemma ScatteredCells<F>(x: Input<F>)
    requires x.Sane() && x.Partitioned()
    ensures PooledCells(x, Scattered(x, x.Points()))
  {
    var out := Scattered(x, x.Points());
    forall i: nat, ch: nat | i < |x.starts| && ch < x.channels ensures Pools(x, out, i, ch) {
      IntervalPools(x, i, ch);
    }
    forall r: nat, ch: nat | r < x.cells && ch < x.channels ensures ZeroUnlessPooled(x, out, r, ch) {
      CellIsZero(x, r, ch);
    }
  }

  lemma IntervalPools<F>(x: Input<F>, i: nat, ch: nat)
    requires x.Sane() && x.Partitioned() && i < |x.starts| && ch < x.channels
    ensures Pools(x, Scattered(x, x.Points()), i, ch)
  {
    var r := x.ranksBev[x.starts[i]];
    FlatIndex.Bound(x.channels, x.cells, r, ch);
    FlatIndex.Split(x.channels, r, ch);
    ScatterIsPartialSum(x, i, x.Points(), r * x.channels + ch);
    PartialSumFolds(x, i, x.lengths[i], ch);
    hide Scattered, PartialSum, Products, Fold, Input.Covered, Input.Within;
  }

  lemma CellIsZero<F>(x: Input<F>, r: nat, ch: nat)
    requires x.Sane() && x.Partitioned() && r < x.cells && ch < x.channels
    ensures ZeroUnlessPooled(x, Scattered(x, x.Points()), r, ch)
  {
    FlatIndex.Bound(x.channels, x.cells, r, ch);
    FlatIndex.Split(x.channels, r, ch);
    if !(exists i :: 0 <= i < |x.starts| && x.starts[i] < |x.ranksBev| && x.ranksBev[x.starts[i]] == r) {
      forall p: nat | p < x.Points() ensures x.ranksBev[p] != r {
        assert x.Covered(p);
        var j: nat :| j < |x.starts| && x.Within(j, p);
        assert x.ranksBev[p] == x.BevOf(j);
      }
      UntouchedCellsStayZero(x, x.Points(), r * x.channels + ch);
    }
  }

  // ── Threads ──────────────────────────────────────────────────────────

  function Blocks(n: nat): nat {
    (n + 255) / 256
  }

  function Threads<F>(x: Input<F>): nat {
    Blocks(|x.starts| * x.channels) * 256
  }

  function ThreadOf(index: nat, ch: nat, channels: nat): nat {
    index * channels + ch
  }

  /** Every interval and channel has exactly one thread, and the launch contains it. */
  lemma OneThreadPerIntervalAndChannel<F>(x: Input<F>, index: nat, ch: nat)
    requires x.channels > 0 && index < |x.starts| && ch < x.channels
    ensures ThreadOf(index, ch, x.channels) < Threads(x)
    ensures forall t: nat :: t / x.channels == index && t % x.channels == ch <==> t == ThreadOf(index, ch, x.channels)
  {
    FlatIndex.Bound(x.channels, |x.starts|, index, ch);
    FlatIndex.Split(x.channels, index, ch);
    forall t: nat ensures t == (t / x.channels) * x.channels + t % x.channels {}
  }

  /** Where thread t of an interval writes. */
  function Target<F>(x: Input<F>, t: nat): (a: nat)
    requires x.Sane() && x.Partitioned() && t / x.channels < |x.starts|
    ensures a < x.cells * x.channels
  {
    var cell := x.BevOf(t / x.channels);
    FlatIndex.Bound(x.channels, x.cells, cell, t % x.channels);
    cell * x.channels + t % x.channels
  }

  lemma TargetSplits<F>(x: Input<F>, t: nat)
    requires x.Sane() && x.Partitioned() && t / x.channels < |x.starts|
    ensures Target(x, t) / x.channels == x.BevOf(t / x.channels) && Target(x, t) % x.channels == t % x.channels
  {
    var i, ch := t / x.channels, t % x.channels;
    FlatIndex.Split(x.channels, x.BevOf(i), ch);
  }

  lemma SameInterval<F>(x: Input<F>, i: nat, j: nat)
    requires x.Sane() && x.Partitioned() && i < |x.starts| && j < |x.starts| && x.BevOf(i) == x.BevOf(j)
    ensures i == j
  {
  }

  lemma TargetsDiffer<F>(x: Input<F>, t: nat, u: nat)
    requires x.Sane() && x.Partitioned() && t / x.channels < |x.starts| && u / x.channels < |x.starts|
    ensures Target(x, t) == Target(x, u) <==> t == u
  {
    TargetSplits(x, t);
    TargetSplits(x, u);
    if Target(x, t) == Target(x, u) {
      SameInterval(x, t / x.channels, u / x.channels);
      hide *;
      FlatIndex.Same(x.channels, t, u);
    }
  }

  // ── The kernels on the output buffer ─────────────────────────────────

  method SetZero<F>(op: Arithmetic<F>, out: array<F>, n: nat, order: seq<nat>)
    requires n == out.Length && Listing(order, Blocks(n) * 256)
    modifies out
    ensures forall a | 0 <= a < n :: out[a] == op.zero
  {
    var k := 0;
    while k < |order|
      invariant k <= |order|
      invariant forall i | 0 <= i < k && order[i] < n :: out[order[i]] == op.zero
    {
      var t := order[k];
      if t < n { out[t] := op.zero; }
      k := k + 1;
    }
    forall a | 0 <= a < n ensures out[a] == op.zero {
      assert a in order;
    }
  }

  method PoolThread<F>(x: Input<F>, t: nat, out: array<F>)
    requires x.Sane() && x.Partitioned() && out.Length == x.cells * x.channels
    modifies out
    ensures if t / x.channels < |x.starts|
            then out[..] == old(out[..])[Target(x, t) := Pooled(x, t)]
            else out[..] == old(out[..])
  {
    var index, ch := t / x.channels, t % x.channels;
    if index >= |x.starts| { return; }
    var start, length := x.starts[index], x.lengths[index];
    var sum := x.op.zero;
    var i := 0;
    while i < length
      invariant i <= length && sum == PartialSum(x, start, i, ch)
    {
      sum := x.op.add(sum, x.Product(start + i, ch));
      i := i + 1;
    }
    FlatIndex.Bound(x.channels, x.cells, x.ranksBev[start], ch);
    out[x.ranksBev[start] * x.channels + ch] := sum;
  }

  function Pooled<F>(x: Input<F>, t: nat): F
    requires x.Sane() && x.Partitioned() && t / x.channels < |x.starts|
  {
    PartialSum(x, x.starts[t / x.channels], x.lengths[t / x.channels], t % x.channels)
  }

  /** The listed threads have written their sums; a cell that none of them writes is still zero. */
  ghost predicate PooledSoFar<F>(x: Input<F>, out: seq<F>, done: seq<nat>)
    requires x.Sane() && x.Partitioned() && |out| == x.cells * x.channels
  {
    && (forall t: nat | t in done && t / x.channels < |x.starts| :: out[Target(x, t)] == Pooled(x, t))
    && forall a: nat | a < |out| && (forall t: nat | t in done && t / x.channels < |x.starts| :: Target(x, t) != a) ::
      out[a] == x.op.zero
  }

  lemma OneMore<F>(x: Input<F>, out: seq<F>, done: seq<nat>, t: nat)
    requires x.Sane() && x.Partitioned() && |out| == x.cells * x.channels && PooledSoFar(x, out, done) && t !in done
    ensures PooledSoFar(x, if t / x.channels < |x.starts| then out[Target(x, t) := Pooled(x, t)] else out, done + [t])
  {
    var out' := if t / x.channels < |x.starts| then out[Target(x, t) := Pooled(x, t)] else out;
    forall u: nat | u in done + [t] && u / x.channels < |x.starts| ensures out'[Target(x, u)] == Pooled(x, u) {
      if t / x.channels < |x.starts| { TargetsDiffer(x, t, u); }
    }
    forall a: nat | a < |out| && (forall u: nat | u in done + [t] && u / x.channels < |x.starts| :: Target(x, u) != a)
      ensures out'[a] == x.op.zero
    {
      forall u: nat | u in done && u / x.channels < |x.starts| ensures Target(x, u) != a {
        assert u in done + [t];
      }
      assert t in done + [t];
    }
  }

  /** When all threads are done, the buffer is the one that adding point after point gives. */
  lemma PooledIsScattered<F>(x: Input<F>, out: seq<F>, order: seq<nat>)
    requires x.Sane() && x.Partitioned() && |out| == x.cells * x.channels && Listing(order, Threads(x))
    requires PooledSoFar(x, out, order)
    ensures out == Scattered(x, x.Points())
  {
    forall a: nat | a < |out| ensures out[a] == Scattered(x, x.Points())[a] {
      CellPooled(x, out, order, a);
    }
  }

  lemma CellPooled<F>(x: Input<F>, out: seq<F>, order: seq<nat>, a: nat)
    requires x.Sane() && x.Partitioned() && |out| == x.cells * x.channels && Listing(order, Threads(x))
    requires PooledSoFar(x, out, order)
    requires a < |out|
    ensures out[a] == Scattered(x, x.Points())[a]
  {
    if i: nat :| i < |x.starts| && x.BevOf(i) == a / x.channels {
      IntervalCellPooled(x, out, order, a, i);
    } else {
      OtherCellZero(x, out, order, a);
    }
  }

  lemma IntervalCellPooled<F>(x: Input<F>, out: seq<F>, order: seq<nat>, a: nat, i: nat)
    requires x.Sane() && x.Partitioned() && |out| == x.cells * x.channels && Listing(order, Threads(x))
    requires PooledSoFar(x, out, order)
    requires a < |out| && i < |x.starts| && x.BevOf(i) == a / x.channels
    ensures out[a] == Scattered(x, x.Points())[a]
  {
    var t := ThreadOf(i, a % x.channels, x.channels);
    OneThreadPerIntervalAndChannel(x, i, a % x.channels);
    assert t in order;
    TargetIs(x, t, a);
    ScatterIsPartialSum(x, i, x.Points(), a);
    hide Scattered, Target, ThreadOf, Threads, Listing;
  }

  lemma TargetIs<F>(x: Input<F>, t: nat, a: nat)
    requires x.Sane() && x.Partitioned() && t / x.channels < |x.starts| && x.BevOf(t / x.channels) == a / x.channels
    requires t % x.channels == a % x.channels
    ensures Target(x, t) == a
  {
  }

  lemma OtherCellZero<F>(x: Input<F>, out: seq<F>, order: seq<nat>, a: nat)
    requires x.Sane() && x.Partitioned() && |out| == x.cells * x.channels && PooledSoFar(x, out, order)
    requires a < |out| && forall i: nat | i < |x.starts| :: x.BevOf(i) != a / x.channels
    ensures out[a] == Scattered(x, x.Points())[a]
  {
    forall t: nat | t in order && t / x.channels < |x.starts| ensures Target(x, t) != a {
      TargetSplits(x, t);
      hide Target, Input.BevOf;
    }
    forall p: nat | p < x.Points() ensures x.ranksBev[p] != a / x.channels {
      assert x.Covered(p);
      var j: nat :| j < |x.starts| && x.Within(j, p);
    }
    UntouchedCellsStayZero(x, x.Points(), a);
  }

  /** Zeroing and then pooling, the threads of each launch in any order, is scatter-add. */
  method Enqueue<F>(x: Input<F>, isFloat: bool, out: array<F>, zeroing: seq<nat>, pooling: seq<nat>)
    returns (status: int)
    requires x.Sane() && x.Partitioned() && out.Length == x.cells * x.channels
    requires Listing(zeroing, Blocks(out.Length) * 256) && Listing(pooling, Threads(x))
    modifies out
    ensures isFloat ==> status == 0 && out[..] == Scattered(x, x.Points()) && PooledCells(x, out[..])
    ensures !isFloat ==> status == 1 && out[..] == old(out[..])
  {
    if !isFloat { return 1; }
    SetZero(x.op, out, out.Length, zeroing);
    hide Input.Sane, Input.Partitioned, Target, Pooled, PooledSoFar, PooledCells;
    assert PooledSoFar(x, out[..], []) by { ZeroIsNothingPooled(x, out[..]); }
    var k := 0;
    while k < |pooling|
      invariant k <= |pooling| && PooledSoFar(x, out[..], pooling[..k])
    {
      OneMore(x, out[..], pooling[..k], pooling[k]);
      PoolThread(x, pooling[k], out);
      assert pooling[..k + 1] == pooling[..k] + [pooling[k]];
      k := k + 1;
    }
    assert pooling[..k] == pooling;
    PooledIsScattered(x, out[..], pooling);
    ScatteredCells(x);
    return 0;
  }

  lemma ZeroIsNothingPooled<F>(x: Input<F>, out: seq<F>)
    requires x.Sane() && x.Partitioned() && |out| == x.cells * x.channels
    requires forall a | 0 <= a < |out| :: out[a] == x.op.zero
    ensures PooledSoFar(x, out, [])
  {
  }
}
