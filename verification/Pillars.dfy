/** Second kernel: every nonempty voxel claims a pillar of its batch and copies its points there. */
module Pillars {
  import FlatIndex
  import opened SlotClaim
  import opened VoxelGrid
  import Voxels

  /** A word of one of the three output buffers. */
  datatype Place = CountAt(i: nat) | CoordAt(i: nat) | ValueAt(i: nat)
  datatype Word = Number(n: nat) | Value(x: real)

  /** The output of the first kernel. */
  datatype Grid = Grid(mask: seq<nat>, voxels: seq<real>)
  {
    predicate For(p: Params)
      requires p.Sane()
    {
      |mask| == p.Grid() && |voxels| == p.Grid() * p.perVoxel * p.values
    }
  }

  function Min(a: nat, b: nat): nat {
    if a < b then a else b
  }

  function Slot(p: Params, b: nat, i: nat): nat {
    b * p.maxPillars + i
  }

  function PlaceOf(p: Params, b: nat, i: nat, k: nat): Place {
    if k == 0 then CountAt(Slot(p, b, i))
    else if k < 5 then CoordAt(Slot(p, b, i) * 4 + (k - 1))
    else ValueAt(Slot(p, b, i) * (p.perVoxel * p.values) + (k - 5))
  }

  function PillarLayout(p: Params): Layout<Place> {
    Layout(p.maxPillars, 5 + p.perVoxel * p.values, (b, i, k) => PlaceOf(p, b, i, k))
  }

  /** Blocks of 1024 threads enough for all cells. */
  function Threads(p: Params): nat
    requires p.Sane()
  {
    (p.Grid() + 1023) / 1024 * 1024
  }

  function Batch(p: Params, t: nat): nat
    requires p.Sane()
  {
    t / (p.GridY() * p.GridX())
  }

  lemma GuardIsBound(p: Params, t: nat)
    requires p.Sane()
    ensures Batch(p, t) >= p.batches <==> t >= p.Grid()
  {
    var n := p.GridY() * p.GridX();
    assert p.Grid() == p.batches * n && n > 0 && Batch(p, t) == t / n;
    hide *;
    QuotientBelow(t, n, p.batches);
  }

  lemma QuotientBelow(t: nat, n: nat, m: nat)
    requires n > 0
    ensures t / n >= m <==> t >= m * n
  {
    var b := t / n;
    assert t == b * n + t % n;
    if t < m * n { FlatIndex.Join(n, m, t); }
    if b < m { FlatIndex.Bound(n, m, b, t % n); }
  }

  lemma RowInVoxels(p: Params, v: nat, k: nat)
    requires p.Sane() && v < p.Grid() && k < p.perVoxel * p.values
    ensures v * (p.perVoxel * p.values) + k < p.Grid() * p.perVoxel * p.values
  {
    FlatIndex.Bound(p.perVoxel * p.values, p.Grid(), v, k);
    assert p.Grid() * (p.perVoxel * p.values) == p.Grid() * p.perVoxel * p.values;
  }

  function Kept(p: Params, g: Grid, v: nat): (n: nat)
    requires p.Sane() && g.For(p) && v < p.Grid()
    ensures n * p.values <= p.perVoxel * p.values
  {
    Min(g.mask[v], p.perVoxel)
  }

  function PointWord(p: Params, g: Grid, v: nat, k: nat): Word
    requires p.Sane() && g.For(p) && v < p.Grid() && k < p.perVoxel * p.values
  {
    RowInVoxels(p, v, k);
    Value(g.voxels[v * (p.perVoxel * p.values) + k])
  }

  function PillarRecord(p: Params, g: Grid, v: nat): (r: seq<Word>)
    requires p.Sane() && g.For(p) && v < p.Grid()
    ensures |r| == 5 + Kept(p, g, v) * p.values
    ensures forall k | 0 <= k < Kept(p, g, v) * p.values :: r[5 + k] == PointWord(p, g, v, k)
  {
    [Number(Kept(p, g, v)), Number(0), Number(0), Number((v / p.GridX()) % p.GridY()), Number(v % p.GridX())]
    + seq(Kept(p, g, v) * p.values, k requires 0 <= k < Kept(p, g, v) * p.values => PointWord(p, g, v, k))
  }

  function CellTask(p: Params, g: Grid, t: nat): Task<Word>
    requires p.Sane() && g.For(p)
  {
    GuardIsBound(p, t);
    if Batch(p, t) >= p.batches || g.mask[t] == 0 then Idle else Task(Batch(p, t), PillarRecord(p, g, t))
  }

  function CellTasks(p: Params, g: Grid): seq<Task<Word>>
    requires p.Sane() && g.For(p)
  {
    seq(Threads(p), t requires 0 <= t < Threads(p) => CellTask(p, g, t))
  }

  ghost function Nonempty(p: Params, g: Grid, b: nat): set<nat>
    requires p.Sane() && g.For(p)
  {
    set v: nat | v < |g.mask| && v / (p.GridY() * p.GridX()) == b && g.mask[v] > 0
  }

  lemma MembersAreNonempty(p: Params, g: Grid, b: nat)
    requires p.Sane() && g.For(p) && b < p.batches
    ensures Members(CellTasks(p, g), b) == Nonempty(p, g, b)
  {
    hide PillarRecord;
    forall v: nat ensures v in Members(CellTasks(p, g), b) <==> v in Nonempty(p, g, b) {
      GuardIsBound(p, v);
    }
  }

  lemma PlacesAreDistinct(p: Params)
    ensures Distinct(PillarLayout(p), p.batches)
  {
    var w := p.perVoxel * p.values;
    forall b: nat, i: nat, k: nat, b': nat, i': nat, k': nat |
      i < p.maxPillars && i' < p.maxPillars && k < 5 + w && k' < 5 + w && PlaceOf(p, b, i, k) == PlaceOf(p, b', i', k')
      ensures b == b' && i == i' && k == k'
    {
      var s, s' := Slot(p, b, i), Slot(p, b', i');
      if k >= 5 {
        FlatIndex.Unique(w, s, k - 5, s', k' - 5);
      }
      FlatIndex.Unique(p.maxPillars, b, i, b', i');
    }
  }

  lemma TasksFit(p: Params, g: Grid)
    requires p.Sane() && g.For(p)
    ensures Fits(CellTasks(p, g), PillarLayout(p), p.batches)
  {
    PlacesAreDistinct(p);
    hide Distinct;
  }

  // ── Result ───────────────────────────────────────────────────────────

  ghost predicate Has(out: map<Place, Word>, at: Place, w: Word) {
    at in out && out[at] == w
  }

  /** Pillar i of batch b describes the cell in row y and column x: its clamped count, its coordinates, its points. */
  ghost predicate Describes(p: Params, g: Grid, out: map<Place, Word>, b: nat, i: nat, y: nat, x: nat)
    requires p.Sane()
  {
    b < p.batches && y < p.GridY() && x < p.GridX()
    && DescribesVoxel(p, g, out, b * p.maxPillars + i, (b * p.GridY() + y) * p.GridX() + x, y, x)
  }

  /** The pillar in slot s describes voxel v, in row y and column x. */
  ghost predicate DescribesVoxel(p: Params, g: Grid, out: map<Place, Word>, s: nat, v: nat, y: nat, x: nat) {
    var row := p.perVoxel * p.values;
    && v < |g.mask|
    && var n := if g.mask[v] < p.perVoxel then g.mask[v] else p.perVoxel;
       && Has(out, CountAt(s), Number(n))
       && Has(out, CoordAt(s * 4), Number(0)) && Has(out, CoordAt(s * 4 + 1), Number(0))
       && Has(out, CoordAt(s * 4 + 2), Number(y)) && Has(out, CoordAt(s * 4 + 3), Number(x))
       && CopiedRow(g, out, v * row, s * row, n * p.values)
  }

  /** The n words from `to` on are the voxel buffer's from `from` on. */
  ghost predicate CopiedRow(g: Grid, out: map<Place, Word>, from: int, to: int, n: int) {
    0 <= from <= from + n <= |g.voxels| && 0 <= to
    && forall u: nat | from <= u < from + n :: Has(out, ValueAt(to + (u - from)), Value(g.voxels[u]))
  }

  lemma CopiedRowAt(p: Params, g: Grid, out: map<Place, Word>, v: nat, s: nat, n: nat, k: nat, j: nat)
    requires CopiedRow(g, out, v * (p.perVoxel * p.values), s * (p.perVoxel * p.values), n * p.values)
    requires k < n <= p.perVoxel && j < p.values
    ensures Voxels.Word(p, v, k, j) < |g.voxels|
    ensures Has(out, ValueAt(Voxels.Word(p, s, k, j)), Value(g.voxels[Voxels.Word(p, v, k, j)]))
  {
    WordIsRow(p, v, k, j);
    WordIsRow(p, s, k, j);
    FlatIndex.Bound(p.values, n, k, j);
  }

  /** `cells` are the nonempty voxels of the batch, each once, in the order of the pillars that describe them. */
  ghost predicate Compacted(p: Params, g: Grid, pillars: seq<nat>, out: map<Place, Word>, b: nat, cells: seq<nat>)
    requires p.Sane() && g.For(p)
  {
    && b < |pillars| && pillars[b] == |cells| == |Nonempty(p, g, b)|
    && (forall v: nat :: v in cells <==> v in Nonempty(p, g, b))
    && (forall i, j | 0 <= i < j < |cells| :: cells[i] != cells[j])
    && forall i | 0 <= i < |cells| ::
         Describes(p, g, out, b, i, (cells[i] / p.GridX()) % p.GridY(), cells[i] % p.GridX())
         && cells[i] == p.Cell(b, (cells[i] / p.GridX()) % p.GridY(), cells[i] % p.GridX())
  }

  ghost predicate IsCompacted(p: Params, g: Grid, pillars: seq<nat>, out: map<Place, Word>, b: nat)
    requires p.Sane() && g.For(p)
  {
    exists cells :: Compacted(p, g, pillars, out, b, cells)
  }

  lemma WordIsRow(p: Params, v: nat, k: nat, j: nat)
    requires k < p.perVoxel && j < p.values
    ensures Voxels.Word(p, v, k, j) == v * (p.perVoxel * p.values) + (k * p.values + j)
    ensures k * p.values + j < p.perVoxel * p.values
  {
    FlatIndex.Bound(p.values, p.perVoxel, k, j);
    assert (v * p.perVoxel + k) * p.values == v * (p.perVoxel * p.values) + k * p.values;
  }

  lemma RecordDescribes(p: Params, g: Grid, out: map<Place, Word>, b: nat, i: nat, y: nat, x: nat)
    requires p.Sane() && g.For(p) && b < p.batches && y < p.GridY() && x < p.GridX() && p.Cell(b, y, x) < p.Grid()
    requires Record(PillarLayout(p), out, b, i, PillarRecord(p, g, p.Cell(b, y, x)))
    ensures Describes(p, g, out, b, i, y, x)
  {
    CellSplits(p, b, y, x);
    CellIs(p, b, y, x);
    var v := p.Cell(b, y, x);
    hide Params.Cell, Params.GridX, Params.GridY, Has, CopiedRow, Record;
    RecordCopies(p, g, out, b, i, v);
    RecordHeads(p, g, out, b, i, v);
  }

  lemma RecordHeads(p: Params, g: Grid, out: map<Place, Word>, b: nat, i: nat, v: nat)
    requires p.Sane() && g.For(p) && v < p.Grid() && Record(PillarLayout(p), out, b, i, PillarRecord(p, g, v))
    ensures var s := b * p.maxPillars + i;
            && Has(out, CountAt(s), Number(Kept(p, g, v)))
            && Has(out, CoordAt(s * 4), Number(0)) && Has(out, CoordAt(s * 4 + 1), Number(0))
            && Has(out, CoordAt(s * 4 + 2), Number((v / p.GridX()) % p.GridY()))
            && Has(out, CoordAt(s * 4 + 3), Number(v % p.GridX()))
  {
    hide Params.Cell, Params.GridX, Params.GridY, PointWord;
    var s, l := b * p.maxPillars + i, PillarLayout(p);
    assert l.at(b, i, 0) == CountAt(s) && l.at(b, i, 1) == CoordAt(s * 4) && l.at(b, i, 2) == CoordAt(s * 4 + 1)
        && l.at(b, i, 3) == CoordAt(s * 4 + 2) && l.at(b, i, 4) == CoordAt(s * 4 + 3);
  }

  lemma RowEnds(p: Params, v: nat)
    requires p.Sane() && v < p.Grid()
    ensures v * (p.perVoxel * p.values) + p.perVoxel * p.values <= p.Grid() * p.perVoxel * p.values
  {
    FlatIndex.Grows(p.perVoxel * p.values, v, p.Grid());
    assert p.Grid() * (p.perVoxel * p.values) == p.Grid() * p.perVoxel * p.values;
  }

  /** Word w of a pillar's points. */
  lemma RecordWord(p: Params, g: Grid, out: map<Place, Word>, b: nat, i: nat, v: nat, w: nat, from: nat, to: nat)
    requires p.Sane() && g.For(p) && v < p.Grid() && Record(PillarLayout(p), out, b, i, PillarRecord(p, g, v))
    requires w < Kept(p, g, v) * p.values && from == v * (p.perVoxel * p.values)
    requires to == (b * p.maxPillars + i) * (p.perVoxel * p.values)
    ensures from + w < |g.voxels| && Has(out, ValueAt(to + w), Value(g.voxels[from + w]))
  {
    hide Params.Grid, Params.GridX, Params.GridY, PillarRecord, Kept;
    RowInVoxels(p, v, w);
    assert PillarRecord(p, g, v)[5 + w] == PointWord(p, g, v, w);
    assert PillarLayout(p).at(b, i, 5 + w) == PlaceOf(p, b, i, 5 + w) == ValueAt(to + w);
  }

  lemma RecordCopies(p: Params, g: Grid, out: map<Place, Word>, b: nat, i: nat, v: nat)
    requires p.Sane() && g.For(p) && v < p.Grid() && Record(PillarLayout(p), out, b, i, PillarRecord(p, g, v))
    ensures var row := p.perVoxel * p.values;
            CopiedRow(g, out, v * row, (b * p.maxPillars + i) * row, Kept(p, g, v) * p.values)
  {
    hide Params.Grid, Params.GridX, Params.GridY, PillarRecord, PlaceOf, Kept, Record, Has;
    RowEnds(p, v);
    var from: nat, to: nat := v * (p.perVoxel * p.values), (b * p.maxPillars + i) * (p.perVoxel * p.values);
    var n: nat := Kept(p, g, v) * p.values;
    forall u: nat | from <= u < from + n ensures Has(out, ValueAt(to + (u - from)), Value(g.voxels[u])) {
      RecordWord(p, g, out, b, i, v, u - from, from, to);
    }
  }

  function RunKernel(p: Params, g: Grid, out: map<Place, Word>, schedule: seq<nat>): State<Place, Word>
    requires p.Sane() && g.For(p)
  {
    Run(CellTasks(p, g), PillarLayout(p), Start(Threads(p), p.batches, out), schedule)
  }

  lemma FilledIsCompacted(p: Params, g: Grid, s: State<Place, Word>, b: nat, cells: seq<nat>)
    requires p.Sane() && g.For(p) && b < p.batches && |Nonempty(p, g, b)| <= p.maxPillars
    requires Filled(CellTasks(p, g), PillarLayout(p), s, b, cells)
    ensures Compacted(p, g, s.counters, s.mem, b, cells)
  {
    MembersAreNonempty(p, g, b);
    hide PillarRecord, Describes, Params.Cell, Params.Grid;
    var tasks := CellTasks(p, g);
    forall i | 0 <= i < |cells|
      ensures var y, x := (cells[i] / p.GridX()) % p.GridY(), cells[i] % p.GridX();
              Describes(p, g, s.mem, b, i, y, x) && cells[i] == p.Cell(b, y, x)
    {
      assert cells[i] in Members(tasks, b);
      assert cells[i] in Nonempty(p, g, b);
      EveryCell(p, cells[i]);
      var y, x := (cells[i] / p.GridX()) % p.GridY(), cells[i] % p.GridX();
      assert Record(PillarLayout(p), s.mem, b, i, tasks[cells[i]].payload);
      RecordDescribes(p, g, s.mem, b, i, y, x);
    }
  }

  /** Whatever the interleaving, when all threads are done the pillars of each batch are a numbering of its nonempty
      voxels. */
  lemma EveryScheduleCompacts(p: Params, g: Grid, out: map<Place, Word>, schedule: seq<nat>)
    requires p.Sane() && g.For(p)
    requires forall b: nat | b < p.batches :: |Nonempty(p, g, b)| <= p.maxPillars
    requires Finished(CellTasks(p, g), PillarLayout(p), RunKernel(p, g, out, schedule))
    ensures var s := RunKernel(p, g, out, schedule);
            |s.counters| == p.batches && forall b: nat | b < p.batches :: IsCompacted(p, g, s.counters, s.mem, b)
  {
    var s := RunKernel(p, g, out, schedule);
    TasksFit(p, g);
    hide Run, Finished, Fits, Filled, Compacted, Nonempty;
    EveryScheduleFills(CellTasks(p, g), PillarLayout(p), p.batches, out, schedule);
    forall b: nat | b < p.batches ensures IsCompacted(p, g, s.counters, s.mem, b) {
      assert Complete(CellTasks(p, g), PillarLayout(p), s, b);
      var cells :| Filled(CellTasks(p, g), PillarLayout(p), s, b, cells);
      FilledIsCompacted(p, g, s, b, cells);
    }
  }

  /** The kernel does not test a pillar number against the maximum. When no batch has more nonempty voxels than that,
      no thread ever claims a number at or above it. */
  lemma PillarNumbersStayBelowTheMaximum(p: Params, g: Grid, out: map<Place, Word>, schedule: seq<nat>,
                                         s: State<Place, Word>, t: nat)
    requires p.Sane() && g.For(p) && s == RunKernel(p, g, out, schedule)
    requires forall b: nat | b < p.batches :: |Nonempty(p, g, b)| <= p.maxPillars
    requires t < |s.progress| && s.progress[t].Holds?
    ensures s.progress[t].id < p.maxPillars
  {
    var tasks := CellTasks(p, g);
    TasksFit(p, g);
    hide Run, CellTask, Distinct, Nonempty;
    RunKeeps(tasks, PillarLayout(p), p.batches, out, schedule);
    SlotNumbersAreBounded(tasks, PillarLayout(p), out, p.batches, s, t);
    MembersAreNonempty(p, g, tasks[t].bucket);
  }

  // ── The kernel on its buffers ────────────────────────────────────────

  function Places(counts: seq<nat>, coords: seq<nat>, values: seq<real>): map<Place, Word> {
    (map i: nat | i < |counts| :: CountAt(i) := Number(counts[i]))
    + (map i: nat | i < |coords| :: CoordAt(i) := Number(coords[i]))
    + (map i: nat | i < |values| :: ValueAt(i) := Value(values[i]))
  }

  lemma CountUpdate(counts: seq<nat>, coords: seq<nat>, values: seq<real>, i: nat, n: nat)
    requires i < |counts|
    ensures Places(counts[i := n], coords, values) == Places(counts, coords, values)[CountAt(i) := Number(n)]
  {
  }

  lemma CoordUpdate(counts: seq<nat>, coords: seq<nat>, values: seq<real>, i: nat, n: nat)
    requires i < |coords|
    ensures Places(counts, coords[i := n], values) == Places(counts, coords, values)[CoordAt(i) := Number(n)]
  {
  }

  lemma ValueUpdate(counts: seq<nat>, coords: seq<nat>, values: seq<real>, i: nat, x: real)
    requires i < |values|
    ensures Places(counts, coords, values[i := x]) == Places(counts, coords, values)[ValueAt(i) := Value(x)]
  {
  }

  predicate InBuffers(p: Params, place: Place) {
    match place
    case CountAt(at) => at < p.batches * p.maxPillars
    case CoordAt(at) => at < p.batches * p.maxPillars * 4
    case ValueAt(at) => at < p.batches * p.maxPillars * (p.perVoxel * p.values)
  }

  lemma RecordInBuffers(p: Params, g: Grid, v: nat, b: nat, i: nat, k: nat)
    requires p.Sane() && g.For(p) && v < p.Grid() && b < p.batches && i < p.maxPillars && k < |PillarRecord(p, g, v)|
    ensures InBuffers(p, PlaceOf(p, b, i, k))
    ensures PlaceOf(p, b, i, k).ValueAt? <==> PillarRecord(p, g, v)[k].Value?
  {
    FlatIndex.Bound(p.maxPillars, p.batches, b, i);
    if k >= 5 {
      FlatIndex.Bound(p.perVoxel * p.values, p.batches * p.maxPillars, Slot(p, b, i), k - 5);
      assert PillarRecord(p, g, v)[5 + (k - 5)] == PointWord(p, g, v, k - 5);
    }
  }

  class PillarKernel {
    const p: Params
    const g: Grid
    const pillars: array<nat>
    const counts: array<nat>
    const coords: array<nat>
    const values: array<real>
    const threads: array<Progress>

    ghost predicate Valid() {
      && p.Sane() && g.For(p) && pillars.Length == p.batches && counts.Length == p.batches * p.maxPillars
      && coords.Length == p.batches * p.maxPillars * 4
      && values.Length == p.batches * p.maxPillars * (p.perVoxel * p.values)
      && threads.Length == Threads(p) && pillars != counts && counts != coords && pillars != coords
      && forall b: nat | b < p.batches :: |Nonempty(p, g, b)| <= p.maxPillars
    }

    constructor (p: Params, g: Grid, pillars: array<nat>, counts: array<nat>, coords: array<nat>, values: array<real>)
      requires p.Sane() && g.For(p) && pillars.Length == p.batches && counts.Length == p.batches * p.maxPillars
      requires coords.Length == p.batches * p.maxPillars * 4
      requires values.Length == p.batches * p.maxPillars * (p.perVoxel * p.values)
      requires pillars != counts && counts != coords && pillars != coords
      requires forall b: nat | b < p.batches :: |Nonempty(p, g, b)| <= p.maxPillars
      ensures Valid() && this.p == p && this.g == g && fresh(threads)
      ensures this.pillars == pillars && this.counts == counts && this.coords == coords && this.values == values
      ensures threads[..] == seq(Threads(p), _ => Ready)
    {
      this.p, this.g, this.pillars, this.counts, this.coords, this.values := p, g, pillars, counts, coords, values;
      threads := new Progress[Threads(p)](_ => Ready);
    }

    ghost function State(): State<Place, Word>
      reads pillars, counts, coords, values, threads
    {
      SlotClaim.State(pillars[..], Places(counts[..], coords[..], values[..]), threads[..])
    }

    method Claim(t: nat, b: nat)
      requires Valid() && t < threads.Length && b < pillars.Length
      modifies pillars, threads
      ensures var s := old(State());
              State() == s.(counters := s.counters[b := s.counters[b] + 1],
                            progress := s.progress[t := Holds(s.counters[b], 0)])
    {
      hide Nonempty, Places;
      threads[t] := Holds(pillars[b], 0);
      pillars[b] := pillars[b] + 1;
    }

    method StoreCount(at: nat, n: nat)
      requires Valid() && at < counts.Length
      modifies counts
      ensures State() == old(State()).(mem := old(State()).mem[CountAt(at) := Number(n)])
    {
      hide Nonempty, Places;
      CountUpdate(counts[..], coords[..], values[..], at, n);
      counts[at] := n;
      assert counts[..] == old(counts[..])[at := n];
    }

    method StoreCoord(at: nat, n: nat)
      requires Valid() && at < coords.Length
      modifies coords
      ensures State() == old(State()).(mem := old(State()).mem[CoordAt(at) := Number(n)])
    {
      hide Nonempty, Places;
      CoordUpdate(counts[..], coords[..], values[..], at, n);
      coords[at] := n;
      assert coords[..] == old(coords[..])[at := n];
    }

    method StoreValue(at: nat, x: real)
      requires Valid() && at < values.Length
      modifies values
      ensures State() == old(State()).(mem := old(State()).mem[ValueAt(at) := Value(x)])
    {
      hide Nonempty, Places;
      ValueUpdate(counts[..], coords[..], values[..], at, x);
      values[at] := x;
      assert values[..] == old(values[..])[at := x];
    }

    method Store(place: Place, w: Word)
      requires Valid() && InBuffers(p, place) && (place.ValueAt? <==> w.Value?)
      modifies counts, coords, values
      ensures State() == old(State()).(mem := old(State()).mem[place := w])
    {
      hide Nonempty, Places;
      match place {
        case CountAt(at) => StoreCount(at, w.n);
        case CoordAt(at) => StoreCoord(at, w.n);
        case ValueAt(at) => StoreValue(at, w.x);
      }
    }

    /** One atomic step of thread t: the increment of its batch's pillar counter, or the write of one word. */
    method StepThread(t: nat)
      requires Valid() && t < threads.Length
      requires threads[t].Holds? ==> threads[t].id < p.maxPillars
      modifies pillars, counts, coords, values, threads
      ensures State() == Step(CellTasks(p, g), PillarLayout(p), old(State()), t)
    {
      GuardIsBound(p, t);
      hide Nonempty, Places, PillarRecord, PlaceOf, Params.Grid;
      assert CellTasks(p, g)[t] == CellTask(p, g, t);
      var b := Batch(p, t);
      if b >= p.batches || g.mask[t] == 0 { return; }
      match threads[t] {
        case Ready =>
          Claim(t, b);
        case Holds(i, k) =>
          if k < 5 + Kept(p, g, t) * p.values {
            assert PillarLayout(p).at(b, i, k) == PlaceOf(p, b, i, k);
            RecordInBuffers(p, g, t, b, i, k);
            Store(PlaceOf(p, b, i, k), PillarRecord(p, g, t)[k]);
            threads[t] := Holds(i, k + 1);
          }
      }
    }

    /** The whole launch, its threads interleaved as `schedule` says. */
    method Launch(schedule: seq<nat>)
      requires Valid() && (forall i | 0 <= i < |schedule| :: schedule[i] < threads.Length)
      requires forall b | 0 <= b < pillars.Length :: pillars[b] == 0
      requires forall t | 0 <= t < threads.Length :: threads[t] == Ready
      modifies pillars, counts, coords, values, threads
      ensures State() == RunKernel(p, g, old(State()).mem, schedule)
      ensures Finished(CellTasks(p, g), PillarLayout(p), State())
              ==> forall b: nat | b < p.batches :: IsCompacted(p, g, pillars[..], State().mem, b)
    {
      ghost var out := State().mem;
      ghost var start := Start(Threads(p), p.batches, out);
      assert State() == start;
      hide Nonempty, Places, IsCompacted, Finished;
      var n := 0;
      while n < |schedule|
        invariant n <= |schedule|
        invariant State() == Run(CellTasks(p, g), PillarLayout(p), start, schedule[..n])
      {
        assert schedule[..n + 1][..n] == schedule[..n];
        var t := schedule[n];
        if threads[t].Holds? {
          PillarNumbersStayBelowTheMaximum(p, g, out, schedule[..n], State(), t);
        }
        StepThread(t);
        n := n + 1;
      }
      assert schedule[..n] == schedule;
      if Finished(CellTasks(p, g), PillarLayout(p), State()) {
        EveryScheduleCompacts(p, g, out, schedule);
      }
    }
  }
}
