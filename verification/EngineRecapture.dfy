/** How often a frozen engine captures: reading outputs may refresh their shapes once, which makes the first capture
    stale, but the refresh is idempotent, so a second capture is the last. */
module EngineRecapture {
  import opened Streams
  import opened CudaMemory
  import opened TensorModel
  import opened EngineSpec
  import EngineInvariants
  import EngineCapacity
  import opened EngineShapes

  /** Bindings and tensors agree on what is an input. */
  ghost predicate Matching(m: Model, tensors: Tensors) {
    forall i | 0 <= i < |m.io| && m.io[i].name in tensors :: tensors[m.io[i].name].isInput == m.io[i].isInput
  }

  ghost predicate SameOutputs(t: Tensors, u: Tensors) {
    && u.Keys == t.Keys
    && (forall name | name in t :: u[name].isInput == t[name].isInput)
    && (forall name | name in t && !t[name].isInput :: u[name] == t[name])
  }

  // ── The frozen refresh is idempotent ─────────────────────────────────

  function NoMemory(name: string): Allocation { OutOfMemory }

  /** What reading an output does to the tensors of a frozen engine. */
  function Refresh(m: Model, shapes: map<string, Dims>, t: Tensors, i: nat): Updated {
    UpdateOutputShapes(m, true, shapes, t, map[], i, NoMemory)
  }

  lemma ReshapeTwice(t: TensorState, d: Dims)
    ensures var (u, ok) := t.Reshape(d);
            u.Reshape(d) == (u, ok) && u.capacity == t.capacity && u.elementSize == t.elementSize
            && u.isInput == t.isInput
  {
  }

  /** A frozen refresh of one binding touches that binding's tensor only, never allocates, and fails without effect. */
  lemma FrozenUpdateOutput(m: Model, shapes: map<string, Dims>, b: Binding, t: Tensors, addresses: map<string, Ptr>,
                           a: Allocation)
    ensures var r := UpdateOutput(m, true, shapes, b, t, addresses, a);
            var q := UpdateOutput(m, true, shapes, b, t, map[], OutOfMemory);
            && r == q.(addresses := addresses)
            && (!r.ok || b.isInput ==> r.tensors == t)
            && (forall name | name in t && name != b.name :: r.tensors[name] == t[name])
  {
    var d := ContextShape(m, shapes, b.name);
    if b.name in t && d.Some? { EngineInvariants.ReshapeKeepsMemory(t[b.name], d.value); }
    hide TensorState.ResizeBytes, TensorState.Reshape, Product, ContextShape, AllPositive;
  }

  /** A binding already refreshed is left as it is. */
  lemma RefreshedStays(m: Model, shapes: map<string, Dims>, b: Binding, t: Tensors, u: Tensors)
    requires var r := UpdateOutput(m, true, shapes, b, t, map[], OutOfMemory);
             r.ok && u.Keys == t.Keys && (b.name in t ==> u[b.name] == r.tensors[b.name])
    ensures UpdateOutput(m, true, shapes, b, u, map[], OutOfMemory) == Updated(u, map[], true)
  {
    var d := ContextShape(m, shapes, b.name);
    if b.name in t && d.Some? && !b.isInput {
      ReshapeTwice(t[b.name], d.value);
      hide TensorState.ResizeBytes, TensorState.Reshape, Product, ContextShape, AllPositive;
      if !(-1 in d.value) { assert u[b.name := u[b.name]] == u; }
    }
  }

  lemma {:induction false} RefreshKeepsOthers(m: Model, shapes: map<string, Dims>, t: Tensors, i: nat)
    ensures var r := Refresh(m, shapes, t, i);
            && r.addresses == map[]
            && (forall name | name in t && EngineCapacity.Absent(m, i, name, true) :: r.tensors[name] == t[name])
    decreases |m.io| - i
  {
    hide UpdateOutput;
    if i < |m.io| {
      FrozenUpdateOutput(m, shapes, m.io[i], t, map[], OutOfMemory);
      var r := UpdateOutput(m, true, shapes, m.io[i], t, map[], OutOfMemory);
      if r.ok { RefreshKeepsOthers(m, shapes, r.tensors, i + 1); }
    }
  }

  lemma {:induction false} RefreshIsIdempotent(m: Model, shapes: map<string, Dims>, t: Tensors, i: nat)
    requires WellFormed(m)
    ensures var r := Refresh(m, shapes, t, i); Refresh(m, shapes, r.tensors, i) == r
    decreases |m.io| - i
  {
    hide UpdateOutput;
    if i < |m.io| {
      var b := m.io[i];
      var u := UpdateOutput(m, true, shapes, b, t, map[], OutOfMemory);
      FrozenUpdateOutput(m, shapes, b, t, map[], OutOfMemory);
      if u.ok {
        var r := Refresh(m, shapes, u.tensors, i + 1);
        RefreshIsIdempotent(m, shapes, u.tensors, i + 1);
        RefreshKeepsOthers(m, shapes, u.tensors, i + 1);
        assert EngineCapacity.Absent(m, i + 1, b.name, true);
        RefreshedStays(m, shapes, b, t, r.tensors);
      }
    }
  }

  /** Whatever the addresses and the allocator, a frozen engine refreshes in the same way. */
  lemma {:induction false} FrozenUpdateIsRefresh(m: Model, shapes: map<string, Dims>, t: Tensors,
                                                 addresses: map<string, Ptr>,
                                                 i: nat, alloc: string -> Allocation)
    ensures UpdateOutputShapes(m, true, shapes, t, addresses, i, alloc)
            == Refresh(m, shapes, t, i).(addresses := addresses)
    decreases |m.io| - i
  {
    hide UpdateOutput;
    if i < |m.io| {
      FrozenUpdateOutput(m, shapes, m.io[i], t, addresses, alloc(m.io[i].name));
      FrozenUpdateOutput(m, shapes, m.io[i], t, map[], OutOfMemory);
      var r := UpdateOutput(m, true, shapes, m.io[i], t, addresses, alloc(m.io[i].name));
      if r.ok { FrozenUpdateIsRefresh(m, shapes, r.tensors, addresses, i + 1, alloc); }
    }
  }

  lemma UpdateOutputAlike(m: Model, shapes: map<string, Dims>, b: Binding, t: Tensors, u: Tensors)
    requires SameOutputs(t, u) && (b.name in t ==> t[b.name].isInput == b.isInput)
    ensures var r := UpdateOutput(m, true, shapes, b, t, map[], OutOfMemory);
            var q := UpdateOutput(m, true, shapes, b, u, map[], OutOfMemory);
            && r.ok == q.ok && SameOutputs(r.tensors, q.tensors)
            && (forall name | name in t :: r.tensors[name].isInput == t[name].isInput)
  {
    var d := ContextShape(m, shapes, b.name);
    if b.name in t && d.Some? {
      EngineInvariants.ReshapeKeepsMemory(t[b.name], d.value);
      EngineInvariants.ReshapeKeepsMemory(u[b.name], d.value);
    }
    hide TensorState.ResizeBytes, TensorState.Reshape, Product, ContextShape, AllPositive;
  }

  /** The refresh looks at outputs only. */
  lemma {:induction false} RefreshDependsOnOutputs(m: Model, shapes: map<string, Dims>, t: Tensors, u: Tensors, i: nat)
    requires Matching(m, t) && SameOutputs(t, u)
    ensures SameOutputs(Refresh(m, shapes, t, i).tensors, Refresh(m, shapes, u, i).tensors)
    decreases |m.io| - i
  {
    hide UpdateOutput;
    if i < |m.io| {
      UpdateOutputAlike(m, shapes, m.io[i], t, u);
      FrozenUpdateOutput(m, shapes, m.io[i], t, map[], OutOfMemory);
      FrozenUpdateOutput(m, shapes, m.io[i], u, map[], OutOfMemory);
      var r := UpdateOutput(m, true, shapes, m.io[i], t, map[], OutOfMemory);
      var q := UpdateOutput(m, true, shapes, m.io[i], u, map[], OutOfMemory);
      if r.ok { RefreshDependsOnOutputs(m, shapes, r.tensors, q.tensors, i + 1); }
    }
  }

  lemma RefreshKeepsMatching(m: Model, shapes: map<string, Dims>, t: Tensors)
    requires Matching(m, t)
    ensures Matching(m, Refresh(m, shapes, t, 0).tensors)
  {
    EngineInvariants.FrozenUpdate(m, shapes, t, map[], 0, NoMemory);
  }

  // ── What each streaming call does to graph and outputs ───────────────

  ghost predicate Works(e: CaptureEnv) {
    e.beginOk && e.enqueueOk && e.endOk && e.graphNonNull && e.instantiateOk
  }

  /** The calls of an inference loop, when capturing does not fail. */
  ghost predicate Streaming(c: Call) {
    c.SetInput? || c.GetOutput? || (c.Infer? && Works(c.inferEnv.capture))
  }

  ghost predicate CanCapture(s: State) {
    s.mode.loaded && s.mode.frozen && s.mode.enabled
  }

  lemma SnapshotOfOutputs(m: Model, shapes: map<string, Dims>, t: Tensors, u: Tensors)
    requires SameOutputs(t, u)
    ensures Snapshot(m, shapes, u) == Snapshot(m, shapes, t)
  {
  }

  /** A cache that is as before, or holds one more executable, taken for the shapes as they are. */
  ghost predicate CapturedOnce(c: Cache, r: Cache, snapshot: map<string, Option<Dims>>) {
    || r == c
    || (r.graph.captured && r.graph.shapes == snapshot && r.ledger.execs == c.ledger.execs + 1)
  }

  lemma LaunchCaptures(m: Model, mode: Mode, ctx: Context, tensors: Tensors, c: Cache, env: InferEnv)
    requires ShouldUseCudaGraph(mode) && Works(env.capture)
    ensures var r, snapshot := LaunchInference(m, mode, ctx, tensors, c, env), Snapshot(m, ctx.shapes, tensors);
            && CapturedOnce(c, r.cache, snapshot)
            && (c.graph.captured && c.graph.shapes == snapshot ==> r.cache == c)
  {
    var snapshot := Snapshot(m, ctx.shapes, tensors);
    CaptureWorks(mode, ctx, snapshot, c, env.capture);
    assert c.graph.captured && c.graph.shapes == snapshot ==> CudaGraphShapesMatch(m, ctx.shapes, tensors, c.graph);
    hide Snapshot, CudaGraphShapesMatch, CaptureOn;
  }

  /** One inference captures at most once, and not at all when the graph was taken for the shapes as they are. */
  lemma InferCaptures(m: Model, s: State, env: InferEnv)
    requires CanCapture(s) && Works(env.capture)
    ensures var r, snapshot := InferAsync(m, s, env).s, Snapshot(m, s.ctx.shapes, s.tensors);
            && r.tensors == s.tensors && r.ctx == s.ctx && r.mode == s.mode
            && CapturedOnce(s.cache, r.cache, snapshot)
            && (s.cache.graph.captured && s.cache.graph.shapes == snapshot ==> r.cache == s.cache)
  {
    LaunchCaptures(m, s.mode, s.ctx, s.tensors, s.cache, env);
    hide WaitInputs, RecordOutputs, Snapshot, LaunchInference;
    assert s.ctx.(addresses := s.ctx.addresses) == s.ctx;
  }

  lemma CaptureWorks(mode: Mode, ctx: Context, snapshot: map<string, Option<Dims>>, c: Cache, e: CaptureEnv)
    requires ShouldUseCudaGraph(mode) && Works(e)
    ensures var r := CaptureOn(mode, ctx, snapshot, c, e);
            r.ok && r.cache.graph.captured && r.cache.graph.shapes == snapshot
            && r.cache.ledger.execs == c.ledger.execs + 1
  {
  }

  // ── The invariant of an inference loop ───────────────────────────────

  ghost function Later(m: Model, s: State): Tensors {
    if HasDynamic(m) then Refresh(m, s.ctx.shapes, s.tensors, 0).tensors else s.tensors
  }

  /** `t` was reached from the uncaptured `s`; outputs are as at the start or refreshed, and after a second capture
      outputs and graph are both refreshed. */
  ghost predicate Loop(m: Model, s: State, t: State) {
    var later := Later(m, s);
    && t.mode == s.mode && t.ctx == s.ctx && (SameOutputs(s.tensors, t.tensors) || SameOutputs(later, t.tensors))
    && Captures(t.cache, t.cache.ledger.execs - s.cache.ledger.execs, Snapshot(m, s.ctx.shapes, s.tensors),
                Snapshot(m, s.ctx.shapes, later), SameOutputs(later, t.tensors))
  }

  ghost predicate Captures(c: Cache, n: int, first: map<string, Option<Dims>>, refreshed: map<string, Option<Dims>>,
                           outputsRefreshed: bool) {
    || (n == 0 && !c.graph.captured)
    || (n == 1 && c.graph.captured && (c.graph.shapes == first || (outputsRefreshed && c.graph.shapes == refreshed)))
    || (n == 2 && c.graph.captured && outputsRefreshed && c.graph.shapes == refreshed)
  }

  lemma LoopInput(m: Model, s: State, t: State, c: Call)
    requires CanCapture(s) && Loop(m, s, t) && c.SetInput?
    ensures Loop(m, s, Step(m, t, c).s)
  {
    InputKeepsRest(m, t, c.name, c.data, c.dims, c.setEnv);
    hide SetInputData, Later, Snapshot;
  }

  lemma InputKeepsRest(m: Model, s: State, name: string, data: Bytes, dims: Dims, env: SetEnv)
    requires s.mode.frozen
    ensures var r := SetInputData(m, s, name, data, dims, env).s;
            SameOutputs(s.tensors, r.tensors) && r.ctx == s.ctx && r.cache == s.cache && r.mode == s.mode
  {
    if name in s.tensors { EngineInvariants.ReshapeKeepsMemory(s.tensors[name], dims); }
    hide TensorState.Resize, TensorState.Reshape, Product, AllPositive, CopyIn;
    assert s.ctx.(addresses := s.ctx.addresses) == s.ctx;
  }

  lemma OutputKeepsRest(m: Model, s: State, name: string, dst: nat, size: nat, env: GetEnv)
    requires s.mode.frozen
    ensures var r := GetOutputData(m, s, name, dst, size, env).s;
            && r.ctx == s.ctx && r.cache == s.cache && r.mode == s.mode
            && r.tensors == if s.mode.loaded && name in s.tensors && !s.tensors[name].isInput then Later(m, s)
               else s.tensors
  {
    FrozenUpdateIsRefresh(m, s.ctx.shapes, s.tensors, s.ctx.addresses, 0, env.alloc);
    hide UpdateOutputShapes, Refresh, CopyOut;
    assert s.ctx.(addresses := s.ctx.addresses) == s.ctx;
  }

  /** Refreshing what has the outputs as at the start or as refreshed gives them as refreshed. */
  lemma LaterAgain(m: Model, s: State, t: State)
    requires WellFormed(m) && Matching(m, s.tensors) && t.ctx == s.ctx
    requires SameOutputs(s.tensors, t.tensors) || SameOutputs(Later(m, s), t.tensors)
    ensures SameOutputs(Later(m, s), Later(m, t))
  {
    var shapes := s.ctx.shapes;
    if HasDynamic(m) {
      if SameOutputs(s.tensors, t.tensors) {
        RefreshDependsOnOutputs(m, shapes, s.tensors, t.tensors, 0);
      } else {
        RefreshKeepsMatching(m, shapes, s.tensors);
        RefreshDependsOnOutputs(m, shapes, Later(m, s), t.tensors, 0);
        RefreshIsIdempotent(m, shapes, s.tensors, 0);
      }
    }
    hide Refresh, SameOutputs, Matching, HasDynamic;
  }

  lemma LoopOutput(m: Model, s: State, t: State, c: Call)
    requires WellFormed(m) && Matching(m, s.tensors) && CanCapture(s) && Loop(m, s, t) && c.GetOutput?
    ensures Loop(m, s, Step(m, t, c).s)
  {
    OutputKeepsRest(m, t, c.name, c.dst, c.size, c.getEnv);
    LaterAgain(m, s, t);
    var later, r := Later(m, s), Step(m, t, c).s;
    hide GetOutputData, Later, Snapshot, Captures, SameOutputs, Matching;
    assert SameOutputs(later, t.tensors) ==> SameOutputs(later, r.tensors);
    CapturesMonotone(t.cache, t.cache.ledger.execs - s.cache.ledger.execs, Snapshot(m, s.ctx.shapes, s.tensors),
                     Snapshot(m, s.ctx.shapes, later), SameOutputs(later, t.tensors), SameOutputs(later, r.tensors));
  }

  lemma CapturesMonotone(c: Cache, n: int, first: map<string, Option<Dims>>, refreshed: map<string, Option<Dims>>,
                         before: bool, after: bool)
    requires Captures(c, n, first, refreshed, before) && (before ==> after)
    ensures Captures(c, n, first, refreshed, after)
  {
  }

  lemma LoopInfer(m: Model, s: State, t: State, c: Call)
    requires CanCapture(s) && Loop(m, s, t) && c.Infer? && Works(c.inferEnv.capture)
    ensures Loop(m, s, Step(m, t, c).s)
  {
    InferCaptures(m, t, c.inferEnv);
    if SameOutputs(s.tensors, t.tensors) { SnapshotOfOutputs(m, s.ctx.shapes, s.tensors, t.tensors); }
    if SameOutputs(Later(m, s), t.tensors) { SnapshotOfOutputs(m, s.ctx.shapes, Later(m, s), t.tensors); }
    hide InferAsync, Later, Snapshot, SameOutputs;
  }

  lemma {:induction false} LoopRuns(m: Model, s: State, calls: seq<Call>)
    requires WellFormed(m) && Matching(m, s.tensors) && CanCapture(s) && !s.cache.graph.captured
    requires forall i | 0 <= i < |calls| :: Streaming(calls[i])
    ensures Loop(m, s, Run(m, s, calls))
    decreases |calls|
  {
    hide Later, Snapshot, Step, Matching;
    if calls != [] {
      var n := |calls| - 1;
      LoopRuns(m, s, calls[..n]);
      var t := Run(m, s, calls[..n]);
      match calls[n] {
        case SetInput(_, _, _, _) => LoopInput(m, s, t, calls[n]);
        case GetOutput(_, _, _, _) => LoopOutput(m, s, t, calls[n]);
        case Infer(_) => LoopInfer(m, s, t, calls[n]);
      }
    }
  }

  // ── Roles never change ───────────────────────────────────────────────

  /** The same bindings, inputs and outputs as they were. */
  ghost predicate SameRoles(t: Tensors, u: Tensors) {
    u.Keys == t.Keys && forall name | name in t :: u[name].isInput == t[name].isInput
  }

  lemma TensorKeepsRole(t: TensorState, d: Dims, n: nat, a: Allocation)
    ensures t.Reshape(d).0.isInput == t.Resize(d, t.dtype, a).0.isInput == t.ResizeBytes(n, a).0.isInput == t.isInput
  {
    hide Elements, FirstNegative, MemState.Allocate;
  }

  lemma UpdateOutputKeepsRoles(m: Model, frozen: bool, shapes: map<string, Dims>, b: Binding, t: Tensors,
                               addresses: map<string, Ptr>, a: Allocation)
    ensures SameRoles(t, UpdateOutput(m, frozen, shapes, b, t, addresses, a).tensors)
  {
    var d := ContextShape(m, shapes, b.name);
    if b.name in t && d.Some? && AllPositive(d.value) {
      PositiveShape(d.value);
      var n := Product(d.value) * t[b.name].elementSize;
      TensorKeepsRole(t[b.name], d.value, n, a);
    }
    hide TensorState.Reshape, TensorState.ResizeBytes, Product, ContextShape, AllPositive;
  }

  lemma {:induction false} UpdateKeepsRoles(m: Model, frozen: bool, shapes: map<string, Dims>, t: Tensors,
                                            addresses: map<string, Ptr>, i: nat, alloc: string -> Allocation)
    ensures SameRoles(t, UpdateOutputShapes(m, frozen, shapes, t, addresses, i, alloc).tensors)
    decreases |m.io| - i
  {
    hide UpdateOutput;
    if i < |m.io| {
      UpdateOutputKeepsRoles(m, frozen, shapes, m.io[i], t, addresses, alloc(m.io[i].name));
      var r := UpdateOutput(m, frozen, shapes, m.io[i], t, addresses, alloc(m.io[i].name));
      if r.ok { UpdateKeepsRoles(m, frozen, shapes, r.tensors, r.addresses, i + 1, alloc); }
    }
  }

  lemma InputKeepsRoles(m: Model, s: State, name: string, data: Bytes, dims: Dims, env: SetEnv)
    ensures SameRoles(s.tensors, SetInputData(m, s, name, data, dims, env).s.tensors)
  {
    if name in s.tensors { TensorKeepsRole(s.tensors[name], dims, 0, env.alloc); }
    hide TensorState.Reshape, TensorState.Resize, Product, AllPositive, CopyIn;
  }

  /** Whatever the runtime answers. */
  lemma StepKeepsRoles(m: Model, s: State, c: Call)
    ensures SameRoles(s.tensors, Step(m, s, c).s.tensors)
  {
    hide SetInputData, UpdateOutputShapes, BindIOAddresses, WaitInputs, RecordOutputs, LaunchInference, CaptureOn,
         CopyOut, Snapshot, ResetCudaGraph, AllPositive, HasDynamic;
    match c
    case SetInput(name, data, dims, env) => InputKeepsRoles(m, s, name, data, dims, env);
    case GetOutput(name, dst, size, env) =>
      UpdateKeepsRoles(m, s.mode.frozen, s.ctx.shapes, s.tensors, s.ctx.addresses, 0, env.alloc);
    case Freeze(alloc) => UpdateKeepsRoles(m, false, s.ctx.shapes, s.tensors, s.ctx.addresses, 0, alloc);
    case _ =>
  }

  lemma {:induction false} RunKeepsRoles(m: Model, s: State, calls: seq<Call>)
    ensures SameRoles(s.tensors, Run(m, s, calls).tensors)
    decreases |calls|
  {
    hide Step;
    if calls != [] {
      RunKeepsRoles(m, s, calls[..|calls| - 1]);
      StepKeepsRoles(m, Run(m, s, calls[..|calls| - 1]), calls[|calls| - 1]);
    }
  }

  lemma AddMatches(m: Model, s: Allocated, i: nat, d: Dims, a: Allocation)
    requires WellFormed(m) && Matching(m, s.tensors) && i < |m.io|
    ensures Matching(m, s.tensors[m.io[i].name := NewTensor(m.io[i], d, a)])
  {
    hide Elements, FirstNegative, MemState.Allocate;
  }

  lemma {:induction false} AllocationMatches(m: Model, s: Allocated, i: nat, maxProfile: bool,
                                             alloc: string -> Allocation)
    requires WellFormed(m) && Matching(m, s.tensors)
    ensures Matching(m, AllocateInputs(m, s, i, maxProfile, alloc).tensors)
    ensures Matching(m, AllocateOutputs(m, s, i, maxProfile, alloc).tensors)
    decreases |m.io| - i
  {
    hide NewTensor, InputShape, OutputShape, IsDynamic, MemState.Address, Matching;
    if i < |m.io| {
      var b := m.io[i];
      var d := OutputShape(m, s.ctx.shapes, b, maxProfile);
      AddMatches(m, s, i, InputShape(b, maxProfile), alloc(b.name));
      AddMatches(m, s, i, d, alloc(b.name));
      AllocationMatches(m, if b.isInput then AllocateInput(m, s, b, maxProfile, alloc(b.name)) else s, i + 1,
                        maxProfile, alloc);
      AllocationMatches(m, if b.isInput then s else AddTensor(m, s, b, d, alloc(b.name)), i + 1, maxProfile, alloc);
    }
  }

  lemma RolesMatch(m: Model, t: Tensors, u: Tensors)
    requires Matching(m, t) && SameRoles(t, u)
    ensures Matching(m, u)
  {
  }

  /** In every state an engine reaches, whatever fails on the way, bindings and tensors agree on what is an input. */
  lemma ReachedMatches(m: Model, config: Config, alloc: string -> Allocation, calls: seq<Call>)
    requires WellFormed(m)
    ensures Matching(m, Run(m, Construct(m, config, alloc), calls).tensors)
  {
    var max, empty := Normalised(config).maxProfile, Allocated(map[], Context(map[], map[]));
    var inputs := AllocateInputs(m, empty, 0, max, alloc);
    var a := AllocateOutputs(m, inputs, 0, max, alloc);
    AllocationMatches(m, empty, 0, max, alloc);
    AllocationMatches(m, inputs, 0, max, alloc);
    UpdateKeepsRoles(m, false, a.ctx.shapes, a.tensors, a.ctx.addresses, 0, alloc);
    var s := Construct(m, config, alloc);
    assert SameRoles(a.tensors, s.tensors) by {
      hide AllocateInputs, AllocateOutputs, UpdateOutputShapes, BindIOAddresses, ResetCudaGraph, Matching;
    }
    RunKeepsRoles(m, s, calls);
    hide Construct, AllocateInputs, AllocateOutputs, Run, Matching, SameRoles;
    RolesMatch(m, a.tensors, s.tensors);
    RolesMatch(m, s.tensors, Run(m, s, calls).tensors);
  }

  /** Recapture stability: from any frozen, enabled, uncaptured state an engine reaches, a run of inputs, inferences
      and reads in any order, any number of each, captures at most twice. */
  lemma AtMostTwoCaptures(m: Model, config: Config, alloc: string -> Allocation, before: seq<Call>, calls: seq<Call>)
    requires WellFormed(m)
    requires var s := Run(m, Construct(m, config, alloc), before); CanCapture(s) && !s.cache.graph.captured
    requires forall i | 0 <= i < |calls| :: Streaming(calls[i])
    ensures var s := Run(m, Construct(m, config, alloc), before);
            s.cache.ledger.execs <= Run(m, s, calls).cache.ledger.execs <= s.cache.ledger.execs + 2
  {
    var s := Run(m, Construct(m, config, alloc), before);
    ReachedMatches(m, config, alloc, before);
    LoopRuns(m, s, calls);
    hide Construct, Run, Snapshot, Later, Matching;
  }

  // ── When one inference captures ──────────────────────────────────────

  lemma {:induction false} WaitsSucceed(m: Model, tensors: Tensors, events: map<string, nat>, a: Agent, k: nat,
                                        waitOk: string -> bool)
    requires forall name :: waitOk(name)
    ensures WaitInputs(m, tensors, events, a, k, waitOk).ok
    decreases |m.order| - k
  {
    if k < |m.order| { WaitsSucceed(m, tensors, events, a, k + 1, waitOk); }
  }

  lemma MatchIsSnapshot(m: Model, shapes: map<string, Dims>, t: Tensors, g: Graph)
    requires g.captured && g.shapes.Keys == t.Keys
    ensures CudaGraphShapesMatch(m, shapes, t, g) <==> g.shapes == Snapshot(m, shapes, t)
  {
  }

  /** An inference that gets past its waits captures exactly when it has no graph for the shapes as they are. */
  lemma CapturesExactly(m: Model, s: State, env: InferEnv)
    requires CanCapture(s) && Works(env.capture) && (forall name :: env.waitOk(name))
    requires s.cache.graph.captured ==> s.cache.graph.shapes.Keys == s.tensors.Keys
    ensures var r := InferAsync(m, s, env).s;
            var snapshot := Snapshot(m, s.ctx.shapes, s.tensors);
            if s.cache.graph.captured && s.cache.graph.shapes == snapshot then r.cache == s.cache
            else
              && r.cache.graph.captured && r.cache.graph.shapes == snapshot
              && r.cache.ledger.execs == s.cache.ledger.execs + 1
  {
    InferCaptures(m, s, env);
    WaitsSucceed(m, s.tensors, s.events.inputs, ExecStream(s.mode), 0, env.waitOk);
    if s.cache.graph.captured { MatchIsSnapshot(m, s.ctx.shapes, s.tensors, s.cache.graph); }
    CaptureWorks(s.mode, s.ctx, Snapshot(m, s.ctx.shapes, s.tensors), s.cache, env.capture);
    hide WaitInputs, RecordOutputs, Snapshot, CudaGraphShapesMatch, CaptureOn, Works;
    assert s.ctx.(addresses := s.ctx.addresses) == s.ctx;
  }

  // ── When a read's refresh changes an output ──────────────────────────

  /** The engine has a dynamic binding, the shape inferred for some output differs from its tensor's, and the refresh
      gets as far. */
  ghost predicate Stale(m: Model, s: State) {
    HasDynamic(m) && exists j | 0 <= j < |m.io| ::
      ChangesShape(m, s.ctx.shapes, s.tensors, m.io[j])
      && Reaches(m, true, s.ctx.shapes, s.tensors, 0, j, NoMemory)
  }

  ghost predicate OutputChanges(t: Tensors, u: Tensors, name: string) {
    name in t && name in u && !t[name].isInput && u[name].dims != t[name].dims
  }

  lemma LaterChangesIff(m: Model, s: State)
    requires WellFormed(m) && Matching(m, s.tensors)
    ensures (exists name :: OutputChanges(s.tensors, Later(m, s), name)) <==> Stale(m, s)
  {
    LaterKeepsRoles(m, s);
    if HasDynamic(m) {
      var shapes := s.ctx.shapes;
      hide HasDynamic, Refresh, ChangesShape, Reaches;
      if name :| OutputChanges(s.tensors, Later(m, s), name) {
        RefreshKeepsOthers(m, shapes, s.tensors, 0);
        var j :| 0 <= j < |m.io| && m.io[j].name == name;
        RefreshReshapes(m, shapes, s.tensors, j);
      }
      if Stale(m, s) {
        var j :| 0 <= j < |m.io| && ChangesShape(m, shapes, s.tensors, m.io[j])
                 && Reaches(m, true, shapes, s.tensors, 0, j, NoMemory);
        ChangingIsOutput(m, shapes, s.tensors, m.io[j]);
        RefreshReshapes(m, shapes, s.tensors, j);
        assert OutputChanges(s.tensors, Later(m, s), m.io[j].name);
      }
    }
  }

  lemma RefreshReshapes(m: Model, shapes: map<string, Dims>, t: Tensors, j: nat)
    requires WellFormed(m) && j < |m.io| && m.io[j].name in t
    ensures Refresh(m, shapes, t, 0).tensors[m.io[j].name].dims != t[m.io[j].name].dims
            <==> ChangesShape(m, shapes, t, m.io[j]) && Reaches(m, true, shapes, t, 0, j, NoMemory)
  {
    RefreshReshapesIff(m, true, shapes, t, map[], 0, NoMemory, j);
    hide UpdateOutputShapes, ChangesShape, Reaches;
  }

  lemma ChangingIsOutput(m: Model, shapes: map<string, Dims>, t: Tensors, b: Binding)
    requires ChangesShape(m, shapes, t, b)
    ensures !b.isInput && b.name in t
  {
  }

  lemma SnapshotChangesIff(m: Model, s: State)
    requires WellFormed(m) && Matching(m, s.tensors)
    ensures Snapshot(m, s.ctx.shapes, s.tensors) != Snapshot(m, s.ctx.shapes, Later(m, s)) <==> Stale(m, s)
  {
    LaterKeepsRoles(m, s);
    LaterChangesIff(m, s);
    SnapshotsDiffer(m, s.ctx.shapes, s.tensors, Later(m, s));
    hide Later, Snapshot, Stale, Matching;
  }

  lemma ThreeCalls(m: Model, s: State, first: InferEnv, name: string, dst: nat, size: nat, read: GetEnv,
                   second: InferEnv)
    requires CanCapture(s) && !s.cache.graph.captured && name in s.tensors && !s.tensors[name].isInput
    requires Works(first.capture) && Works(second.capture) && forall n :: first.waitOk(n) && second.waitOk(n)
    ensures var shapes := s.ctx.shapes;
            InferAsync(m, GetOutputData(m, InferAsync(m, s, first).s, name, dst, size, read).s,
                       second).s.cache.ledger.execs
            == s.cache.ledger.execs
              + if Snapshot(m, shapes, s.tensors) != Snapshot(m, shapes, Later(m, s)) then 2 else 1
  {
    var s1 := InferAsync(m, s, first).s;
    InferCaptures(m, s, first);
    CapturesExactly(m, s, first);
    OutputKeepsRest(m, s1, name, dst, size, read);
    LaterKeepsRoles(m, s);
    CapturesExactly(m, GetOutputData(m, s1, name, dst, size, read).s, second);
    hide InferAsync, GetOutputData, Refresh, HasDynamic, WatchedShape, Works;
  }

  /** Inference, read, inference, from an uncaptured state: the first captures, and the second captures again if and
      only if the shape inferred for some output is not its tensor's and the read's refresh gets as far. */
  lemma SecondCaptureIff(m: Model, s: State, first: InferEnv, name: string, dst: nat, size: nat, read: GetEnv,
                         second: InferEnv)
    requires WellFormed(m) && Matching(m, s.tensors)
    requires CanCapture(s) && !s.cache.graph.captured && name in s.tensors && !s.tensors[name].isInput
    requires Works(first.capture) && Works(second.capture) && forall n :: first.waitOk(n) && second.waitOk(n)
    ensures var t := Run(m, s, [Infer(first), GetOutput(name, dst, size, read), Infer(second)]);
            t.cache.ledger.execs == s.cache.ledger.execs + if Stale(m, s) then 2 else 1
  {
    ThreeCalls(m, s, first, name, dst, size, read, second);
    SnapshotChangesIff(m, s);
    hide InferAsync, GetOutputData, Later, Snapshot, Works, Stale, Matching;
    RunThree(m, s, Infer(first), GetOutput(name, dst, size, read), Infer(second));
  }

  lemma RunThree(m: Model, s: State, a: Call, b: Call, c: Call)
    ensures Run(m, s, [a, b, c]) == Step(m, Step(m, Step(m, s, a).s, b).s, c).s
  {
    hide Step;
    assert [a, b, c][..2] == [a, b] && [a, b][..1] == [a] && [a][..0] == [];
    assert Run(m, s, [a]) == Step(m, Run(m, s, []), a).s;
    assert Run(m, s, [a, b]) == Step(m, Run(m, s, [a]), b).s;
  }

  lemma LaterKeepsRoles(m: Model, s: State)
    ensures var later := Later(m, s); later.Keys == s.tensors.Keys && forall n | n in s.tensors ::
              later[n].isInput == s.tensors[n].isInput
  {
    EngineInvariants.FrozenUpdate(m, s.ctx.shapes, s.tensors, map[], 0, NoMemory);
    hide UpdateOutputShapes;
  }

  lemma SnapshotsDiffer(m: Model, shapes: map<string, Dims>, t: Tensors, u: Tensors)
    requires u.Keys == t.Keys && forall n | n in t :: u[n].isInput == t[n].isInput
    ensures Snapshot(m, shapes, t) != Snapshot(m, shapes, u) <==> exists name :: OutputChanges(t, u, name)
  {
    hide ContextShape;
    var a, b := Snapshot(m, shapes, t), Snapshot(m, shapes, u);
    forall n | n in t ensures a[n] != b[n] <==> OutputChanges(t, u, n) {}
  }
}
