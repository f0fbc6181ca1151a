/** First kernel: every point in range claims a slot of its voxel and copies its values there. */
module Voxels {
  import FlatIndex
  import opened SlotClaim
  import opened VoxelGrid

  /** Index in the voxel buffer of value j of slot i of voxel v. */
  function Word(p: Params, v: nat, i: nat, j: nat): nat {
    (v * p.perVoxel + i) * p.values + j
  }

  function VoxelLayout(p: Params): Layout<nat> {
    Layout(p.perVoxel, p.values, (v, i, j) => Word(p, v, i, j))
  }

  function Values(p: Params, c: Cloud, t: nat): (r: seq<real>)
    requires p.Sane() && c.For(p) && t < p.batches * p.frame
    ensures |r| == p.values && forall k | 0 <= k < p.values :: r[k] == At(p, c, t, k)
  {
    seq(p.values, k requires 0 <= k < p.values => At(p, c, t, k))
  }

  function PointTask(p: Params, c: Cloud, t: nat): Task<real>
    requires p.Sane() && c.For(p) && t < p.batches * p.frame
  {
    if !Present(p, c, t) || !InRange(p, c, t) then Idle
    else
      PointInGrid(p, c, t);
      Task(p.Cell(t / p.frame, Column(At(p, c, t, 1), p.minY, p.sizeY), Column(At(p, c, t, 0), p.minX, p.sizeX)),
           Values(p, c, t))
  }

  function PointTasks(p: Params, c: Cloud): seq<Task<real>>
    requires p.Sane() && c.For(p)
  {
    seq(p.batches * p.frame, t requires 0 <= t < p.batches * p.frame => PointTask(p, c, t))
  }

  lemma CellsDiffer(p: Params, b: nat, y: nat, x: nat, b': nat, y': nat, x': nat)
    requires p.Sane() && b < p.batches && y < p.GridY() && x < p.GridX() && b' < p.batches && y' < p.GridY()
    requires x' < p.GridX()
    ensures p.Cell(b, y, x) == p.Cell(b', y', x') <==> (b == b' && y == y' && x == x')
  {
    CellSplits(p, b, y, x);
    CellSplits(p, b', y', x');
  }

  lemma PointInGrid(p: Params, c: Cloud, t: nat)
    requires p.Sane() && c.For(p) && t < p.batches * p.frame && InRange(p, c, t)
    ensures t / p.frame < p.batches
    ensures 0 <= Column(At(p, c, t, 0), p.minX, p.sizeX) < p.GridX()
    ensures 0 <= Column(At(p, c, t, 1), p.minY, p.sizeY) < p.GridY()
  {
    FlatIndex.Join(p.frame, p.batches, t);
    ColumnInGrid(At(p, c, t, 0), p.minX, p.maxX, p.sizeX);
    ColumnInGrid(At(p, c, t, 1), p.minY, p.maxY, p.sizeY);
  }

  lemma PointBucket(p: Params, c: Cloud, t: nat, b: nat, y: nat, x: nat)
    requires p.Sane() && c.For(p) && t < p.batches * p.frame && b < p.batches && y < p.GridY() && x < p.GridX()
    ensures PointTask(p, c, t).Task? && PointTask(p, c, t).bucket == p.Cell(b, y, x) <==> LiesIn(p, c, t, b, y, x)
  {
    LiesInIff(p, c, t, b, y, x);
    hide LiesIn;
    if Present(p, c, t) && InRange(p, c, t) {
      PointInGrid(p, c, t);
      hide At, Present, InRange, Between, Values, Params.Cell, Params.GridX, Params.GridY, Column;
      var px, py := At(p, c, t, 0), At(p, c, t, 1);
      ColumnIsCell(px, p.minX, p.sizeX, x);
      ColumnIsCell(py, p.minY, p.sizeY, y);
      CellsDiffer(p, t / p.frame, Column(py, p.minY, p.sizeY), Column(px, p.minX, p.sizeX), b, y, x);
    }
  }

  function VoxelOf(p: Params, c: Cloud, t: nat): (v: nat)
    requires p.Sane() && c.For(p) && t < p.batches * p.frame && Present(p, c, t) && InRange(p, c, t)
    ensures PointTask(p, c, t) == Task(v, Values(p, c, t)) && v < p.Grid()
  {
    PointInGrid(p, c, t);
    CellSplits(p, t / p.frame, Column(At(p, c, t, 1), p.minY, p.sizeY), Column(At(p, c, t, 0), p.minX, p.sizeX));
    p.Cell(t / p.frame, Column(At(p, c, t, 1), p.minY, p.sizeY), Column(At(p, c, t, 0), p.minX, p.sizeX))
  }

  lemma IdleTask(p: Params, c: Cloud, t: nat)
    requires p.Sane() && c.For(p) && t < p.batches * p.frame && !(Present(p, c, t) && InRange(p, c, t))
    ensures PointTask(p, c, t).Idle?
  {
  }

  lemma TaskPayload(p: Params, c: Cloud, t: nat)
    requires p.Sane() && c.For(p) && t < p.batches * p.frame && PointTask(p, c, t).Task?
    ensures PointTask(p, c, t).payload == Values(p, c, t)
  {
  }

  lemma RecordIs(p: Params, c: Cloud, t: nat)
    requires p.Sane() && c.For(p) && t < p.batches * p.frame
    ensures t * p.values + p.values <= |c.points|
    ensures Values(p, c, t) == c.points[t * p.values..t * p.values + p.values]
  {
    PointBounds(p, c, t, p.values - 1);
  }

  /** The voxel a point claims a slot of is the cell it geometrically lies in, and the record it writes there is its
      values in the cloud. */
  lemma BucketIsCell(p: Params, c: Cloud, t: nat, b: nat, y: nat, x: nat)
    requires p.Sane() && c.For(p) && b < p.batches && y < p.GridY() && x < p.GridX()
    ensures t in Members(PointTasks(p, c), (b * p.GridY() + y) * p.GridX() + x) <==> LiesIn(p, c, t, b, y, x)
    ensures LiesIn(p, c, t, b, y, x) ==>
              t * p.values + p.values <= |c.points| && t < |PointTasks(p, c)|
              && PointTasks(p, c)[t] == Task((b * p.GridY() + y) * p.GridX() + x,
                                             c.points[t * p.values..t * p.values + p.values])
  {
    CellIs(p, b, y, x);
    if LiesIn(p, c, t, b, y, x) { RecordIs(p, c, t); }
    hide PointTask;
    if t < p.batches * p.frame {
      PointBucket(p, c, t, b, y, x);
    }
    hide LiesIn, Params.Cell;
  }

  lemma WordsAreDistinct(p: Params)
    requires p.Sane()
    ensures Distinct(VoxelLayout(p), p.Grid())
  {
    forall v: nat, i: nat, j: nat, v': nat, i': nat, j': nat |
      i < p.perVoxel && i' < p.perVoxel && j < p.values && j' < p.values && Word(p, v, i, j) == Word(p, v', i', j')
      ensures v == v' && i == i' && j == j'
    {
      FlatIndex.Unique(p.values, v * p.perVoxel + i, j, v' * p.perVoxel + i', j');
      FlatIndex.Unique(p.perVoxel, v, i, v', i');
    }
  }

  lemma WordInBuffer(p: Params, v: nat, i: nat, j: nat)
    requires p.Sane() && v < p.Grid() && i < p.perVoxel && j < p.values
    ensures Word(p, v, i, j) < p.Grid() * p.perVoxel * p.values
  {
    FlatIndex.Bound(p.perVoxel, p.Grid(), v, i);
    FlatIndex.Bound(p.values, p.Grid() * p.perVoxel, v * p.perVoxel + i, j);
  }

  lemma TasksFit(p: Params, c: Cloud)
    requires p.Sane() && c.For(p)
    ensures Fits(PointTasks(p, c), VoxelLayout(p), p.Grid())
  {
    WordsAreDistinct(p);
    hide Distinct, PointTask, Params.Grid;
    forall t: nat | t < p.batches * p.frame && PointTask(p, c, t).Task?
      ensures PointTask(p, c, t).bucket < p.Grid() && |PointTask(p, c, t).payload| == p.values
    {
      TaskInGrid(p, c, t);
    }
  }

  lemma TaskInGrid(p: Params, c: Cloud, t: nat)
    requires p.Sane() && c.For(p) && t < p.batches * p.frame && PointTask(p, c, t).Task?
    ensures PointTask(p, c, t).bucket < p.Grid() && |PointTask(p, c, t).payload| == p.values
  {
    var v := VoxelOf(p, c, t);
    hide Params.Grid, Params.Cell, Present, InRange, Column;
  }

  // ── Result ───────────────────────────────────────────────────────────

  /** Slot i of voxel v holds the values of point t, in their order. */
  ghost predicate Copied(p: Params, c: Cloud, voxels: map<nat, real>, v: nat, i: nat, t: nat) {
    var from, to := t * p.values, (v * p.perVoxel + i) * p.values;
    from + p.values <= |c.points|
    && forall w: nat | to <= w < to + p.values :: w in voxels && voxels[w] == c.points[from + (w - to)]
  }

  lemma CopiedAt(p: Params, c: Cloud, voxels: map<nat, real>, v: nat, i: nat, t: nat, j: nat)
    requires p.Sane() && c.For(p) && t < p.batches * p.frame && j < p.values && Copied(p, c, voxels, v, i, t)
    ensures Word(p, v, i, j) in voxels && voxels[Word(p, v, i, j)] == At(p, c, t, j)
  {
    PointBounds(p, c, t, j);
  }

  /** `owners` are the points of the cell, each once, counted by the mask; the first of them are in the voxel's
      slots. */
  ghost predicate Gathered(p: Params, c: Cloud, mask: seq<nat>, voxels: map<nat, real>, b: nat, y: nat, x: nat,
                           owners: seq<nat>)
    requires p.Sane()
  {
    var v := (b * p.GridY() + y) * p.GridX() + x;
    && v < |mask| && mask[v] == |owners|
    && (forall t: nat :: t in owners <==> LiesIn(p, c, t, b, y, x))
    && (forall i, j | 0 <= i < j < |owners| :: owners[i] != owners[j])
    && forall i | 0 <= i < |owners| && i < p.perVoxel :: Copied(p, c, voxels, v, i, owners[i])
  }

  ghost predicate IsGathered(p: Params, c: Cloud, mask: seq<nat>, voxels: map<nat, real>, b: nat, y: nat, x: nat)
    requires p.Sane() && c.For(p)
  {
    exists owners :: Gathered(p, c, mask, voxels, b, y, x, owners)
  }

  ghost predicate Voxelized(p: Params, c: Cloud, mask: seq<nat>, voxels: map<nat, real>)
    requires p.Sane() && c.For(p)
  {
    |mask| == p.Grid()
    && forall b: nat, y: nat, x: nat | b < p.batches && y < p.GridY() && x < p.GridX() ::
         IsGathered(p, c, mask, voxels, b, y, x)
  }

  function RunKernel(p: Params, c: Cloud, voxels: map<nat, real>, schedule: seq<nat>): State<nat, real>
    requires p.Sane() && c.For(p)
  {
    Run(PointTasks(p, c), VoxelLayout(p), Start(p.batches * p.frame, p.Grid(), voxels), schedule)
  }

  lemma WordRecorded(p: Params, c: Cloud, mem: map<nat, real>, v: nat, i: nat, t: nat, j: nat)
    requires p.Sane() && c.For(p) && t < p.batches * p.frame && Record(VoxelLayout(p), mem, v, i, Values(p, c, t))
    requires j < p.values
    ensures var w := (v * p.perVoxel + i) * p.values + j;
            w in mem && t * p.values + j < |c.points| && mem[w] == c.points[t * p.values + j]
  {
    PointBounds(p, c, t, j);
    assert VoxelLayout(p).at(v, i, j) == Word(p, v, i, j);
  }

  lemma RecordIsCopied(p: Params, c: Cloud, mem: map<nat, real>, v: nat, i: nat, t: nat)
    requires p.Sane() && c.For(p) && t < p.batches * p.frame && PointTask(p, c, t).Task?
    requires Record(VoxelLayout(p), mem, v, i, PointTask(p, c, t).payload)
    ensures Copied(p, c, mem, v, i, t)
  {
    TaskPayload(p, c, t);
    PointBounds(p, c, t, p.values - 1);
    var from, to := t * p.values, (v * p.perVoxel + i) * p.values;
    forall w: nat | to <= w < to + p.values ensures w in mem && mem[w] == c.points[from + (w - to)] {
      WordRecorded(p, c, mem, v, i, t, w - to);
    }
  }

  lemma FilledIsGathered(p: Params, c: Cloud, s: State<nat, real>, b: nat, y: nat, x: nat, owners: seq<nat>)
    requires p.Sane() && c.For(p) && b < p.batches && y < p.GridY() && x < p.GridX()
    requires Filled(PointTasks(p, c), VoxelLayout(p), s, p.Cell(b, y, x), owners)
    ensures Gathered(p, c, s.counters, s.mem, b, y, x, owners)
  {
    CellIs(p, b, y, x);
    hide LiesIn, PointTask, Params.Cell, Params.GridX, Params.GridY, Word, Copied;
    var tasks, v := PointTasks(p, c), p.Cell(b, y, x);
    forall t: nat ensures t in owners <==> LiesIn(p, c, t, b, y, x) {
      BucketIsCell(p, c, t, b, y, x);
    }
    forall i | 0 <= i < |owners| && i < p.perVoxel ensures Copied(p, c, s.mem, v, i, owners[i]) {
      assert owners[i] in Members(tasks, v);
      RecordIsCopied(p, c, s.mem, v, i, owners[i]);
    }
  }

  /** Whatever the interleaving of the threads, when all are done every voxel's counter is the number of points that
      lie in its cell and its slots hold the values of distinct such points. */
  lemma EveryScheduleVoxelizes(p: Params, c: Cloud, voxels: map<nat, real>, schedule: seq<nat>)
    requires p.Sane() && c.For(p)
    requires Finished(PointTasks(p, c), VoxelLayout(p), RunKernel(p, c, voxels, schedule))
    ensures var s := RunKernel(p, c, voxels, schedule); Voxelized(p, c, s.counters, s.mem)
  {
    var s := RunKernel(p, c, voxels, schedule);
    TasksFit(p, c);
    hide Run, Finished, Fits, Filled, Gathered;
    EveryScheduleFills(PointTasks(p, c), VoxelLayout(p), p.Grid(), voxels, schedule);
    forall b: nat, y: nat, x: nat | b < p.batches && y < p.GridY() && x < p.GridX()
      ensures IsGathered(p, c, s.counters, s.mem, b, y, x)
    {
      CellSplits(p, b, y, x);
      assert Complete(PointTasks(p, c), VoxelLayout(p), s, p.Cell(b, y, x));
      var owners :| Filled(PointTasks(p, c), VoxelLayout(p), s, p.Cell(b, y, x), owners);
      FilledIsGathered(p, c, s, b, y, x, owners);
    }
  }

  // ── The kernel on its buffers ────────────────────────────────────────

  function AsMap<V>(buffer: seq<V>): map<nat, V> {
    map a: nat | a < |buffer| :: buffer[a]
  }

  lemma MapUpdate<V>(buffer: seq<V>, a: nat, v: V)
    requires a < |buffer|
    ensures AsMap(buffer[a := v]) == AsMap(buffer)[a := v]
  {
  }

  /** The buffers of one launch, and how far each of its threads has come. */
  class VoxelKernel {
    const p: Params
    const c: Cloud
    const mask: array<nat>
    const voxels: array<real>
    const threads: array<Progress>

    ghost predicate Valid() {
      && p.Sane() && c.For(p) && mask.Length == p.Grid() && voxels.Length == p.Grid() * p.perVoxel * p.values
      && threads.Length == p.batches * p.frame
    }

    constructor (p: Params, c: Cloud, mask: array<nat>, voxels: array<real>)
      requires p.Sane() && c.For(p) && mask.Length == p.Grid() && voxels.Length == p.Grid() * p.perVoxel * p.values
      ensures Valid() && this.p == p && this.c == c && this.mask == mask && this.voxels == voxels && fresh(threads)
      ensures threads[..] == seq(p.batches * p.frame, _ => Ready)
    {
      this.p, this.c, this.mask, this.voxels := p, c, mask, voxels;
      threads := new Progress[p.batches * p.frame](_ => Ready);
    }

    ghost function State(): State<nat, real>
      reads mask, voxels, threads
    {
      SlotClaim.State(mask[..], AsMap(voxels[..]), threads[..])
    }

    method Claim(t: nat, v: nat)
      requires t < threads.Length && v < mask.Length
      modifies mask, threads
      ensures var s := old(State());
              State() == s.(counters := s.counters[v := s.counters[v] + 1],
                            progress := s.progress[t := Holds(s.counters[v], 0)])
    {
      threads[t] := Holds(mask[v], 0);
      mask[v] := mask[v] + 1;
    }

    method Store(t: nat, a: nat, value: real, progress: Progress)
      requires t < threads.Length && a < voxels.Length
      modifies voxels, threads
      ensures var s := old(State()); State() == s.(mem := s.mem[a := value], progress := s.progress[t := progress])
    {
      MapUpdate(voxels[..], a, value);
      voxels[a] := value;
      threads[t] := progress;
      assert voxels[..] == old(voxels[..])[a := value];
    }

    /** One atomic step of thread t: the increment of its voxel's counter, or the write of one value. */
    method StepThread(t: nat)
      requires Valid() && t < threads.Length
      modifies mask, voxels, threads
      ensures State() == Step(PointTasks(p, c), VoxelLayout(p), old(State()), t)
    {
      hide PointTask, AsMap, Word, Params.Grid, Params.Cell, Present, InRange, At;
      ghost var tasks := PointTasks(p, c);
      assert tasks[t] == PointTask(p, c, t);
      if !Present(p, c, t) || !InRange(p, c, t) {
        IdleTask(p, c, t);
        return;
      }
      var v := VoxelOf(p, c, t);
      match threads[t] {
        case Ready =>
          Claim(t, v);
        case Holds(id, k) =>
          if id < p.perVoxel && k < p.values {
            WordInBuffer(p, v, id, k);
            assert VoxelLayout(p).at(v, id, k) == Word(p, v, id, k);
            Store(t, Word(p, v, id, k), At(p, c, t, k), Holds(id, k + 1));
          }
      }
    }

    /** The whole launch, its threads interleaved as `schedule` says. */
    method Launch(schedule: seq<nat>)
      requires Valid() && (forall i | 0 <= i < |schedule| :: schedule[i] < threads.Length)
      requires forall v | 0 <= v < mask.Length :: mask[v] == 0
      requires forall t | 0 <= t < threads.Length :: threads[t] == Ready
      modifies mask, voxels, threads
      ensures State() == RunKernel(p, c, AsMap(old(voxels[..])), schedule)
      ensures Finished(PointTasks(p, c), VoxelLayout(p), State()) ==> Voxelized(p, c, mask[..], AsMap(voxels[..]))
    {
      ghost var start := Start(p.batches * p.frame, p.Grid(), AsMap(voxels[..]));
      assert State() == start;
      var n := 0;
      while n < |schedule|
        invariant n <= |schedule|
        invariant State() == Run(PointTasks(p, c), VoxelLayout(p), start, schedule[..n])
      {
        assert schedule[..n + 1][..n] == schedule[..n];
        StepThread(schedule[n]);
        n := n + 1;
      }
      assert schedule[..n] == schedule;
      hide Voxelized, Finished;
      if Finished(PointTasks(p, c), VoxelLayout(p), State()) {
        EveryScheduleVoxelizes(p, c, AsMap(old(voxels[..])), schedule);
      }
    }
  }
}
