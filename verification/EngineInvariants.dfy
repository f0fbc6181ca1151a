/** What every state reached through the engine's own calls satisfies: a captured graph always equals a fresh
    enqueue, addresses resolve as intended, frozen I/O never moves, and no graph handle leaks or dies twice. */
module EngineInvariants {
  import opened Streams
  import opened CudaMemory
  import opened TensorModel
  import opened EngineSpec

  // ── The invariant ────────────────────────────────────────────────────

  /** A captured graph is usable, and what is baked into it is the context as it is now. */
  ghost predicate GraphIsCurrent(mode: Mode, ctx: Context, c: Cache) {
    if c.graph.captured then
      mode.loaded && mode.enabled && mode.frozen && c.graph.graph != 0 && c.graph.exec != 0 && c.graph.baked == ctx
    else c.graph == NoGraph
  }

  /** Every handle ever handed out has been destroyed exactly once, except the one still held, which is live. */
  ghost predicate HandlesConserved(c: Cache) {
    && c.graph.graph <= c.ledger.graphs && c.graph.exec <= c.ledger.execs
    && (forall h :: c.ledger.graphsDestroyed[h] == if 1 <= h <= c.ledger.graphs && h != c.graph.graph then 1 else 0)
    && (forall h :: c.ledger.execsDestroyed[h] == if 1 <= h <= c.ledger.execs && h != c.graph.exec then 1 else 0)
  }

  /** Every binding's context address is the user's override, or else the tensor's own memory. */
  ghost predicate AddressesResolved(s: State) {
    forall name | name in s.tensors ::
      name in s.ctx.addresses && s.ctx.addresses[name] == Resolved(s.user, name, s.tensors[name])
  }

  ghost predicate Inv(m: Model, s: State) {
    && (forall name | name in s.tensors :: name in m.order)
    && GraphIsCurrent(s.mode, s.ctx, s.cache)
    && HandlesConserved(s.cache)
    && (s.mode.frozen ==> s.mode.loaded && AddressesResolved(s))
  }

  // ── Graph operations ─────────────────────────────────────────────────

  lemma ResetKeeps(c: Cache)
    requires HandlesConserved(c)
    ensures HandlesConserved(ResetCudaGraph(c))
  {
  }

  /** A capture loses no handle and destroys none twice, succeeds exactly when nothing failed, then holds a current
      graph, and otherwise leaves no graph. */
  ghost predicate CapturesSoundly(mode: Mode, ctx: Context, c: Cache, env: CaptureEnv, r: Captured) {
    && HandlesConserved(r.cache)
    && (GraphIsCurrent(mode, ctx, c) ==> GraphIsCurrent(mode, ctx, r.cache))
    && (r.ok ==> r.cache.graph.captured && GraphIsCurrent(mode, ctx, r.cache))
    && (!r.ok && ShouldUseCudaGraph(mode) ==> r.cache.graph == NoGraph)
    && r.ok == (ShouldUseCudaGraph(mode) && env.beginOk && env.enqueueOk && env.endOk && env.graphNonNull
                && env.instantiateOk)
  }

  lemma CaptureKeeps(mode: Mode, ctx: Context, snapshot: map<string, Option<Dims>>, c: Cache, env: CaptureEnv)
    requires HandlesConserved(c)
    ensures CapturesSoundly(mode, ctx, c, env, CaptureOn(mode, ctx, snapshot, c, env))
  {
    ResetKeeps(c);
  }

  /** Whether the inference reaches the device, as the runtime's answers decide. */
  ghost predicate Launches(m: Model, mode: Mode, ctx: Context, tensors: Tensors, c: Cache, env: InferEnv) {
    var e := env.capture;
    if ShouldUseCudaGraph(mode) &&
       (CudaGraphShapesMatch(m, ctx.shapes, tensors, c.graph)
        || (e.beginOk && e.enqueueOk && e.endOk && e.graphNonNull && e.instantiateOk))
    then env.launchOk else mode.loaded && env.enqueueOk
  }

  /** A launch that issues what a direct enqueue would issue and leaves a current cache. */
  ghost predicate LaunchesDirectly(m: Model, mode: Mode, ctx: Context, tensors: Tensors, c: Cache, env: InferEnv,
                                   r: Launched) {
    && r.ok == Launches(m, mode, ctx, tensors, c, env)
    && r.ops == Enqueue(mode, ctx, c, r.ok).ops
    && GraphIsCurrent(mode, ctx, r.cache) && HandlesConserved(r.cache)
  }

  /** Replay, fresh capture and fallback all issue exactly the launch a direct enqueue would issue. */
  lemma LaunchIsEnqueue(m: Model, mode: Mode, ctx: Context, tensors: Tensors, c: Cache, env: InferEnv)
    requires GraphIsCurrent(mode, ctx, c) && HandlesConserved(c)
    ensures LaunchesDirectly(m, mode, ctx, tensors, c, env, LaunchInference(m, mode, ctx, tensors, c, env))
  {
    var r := CaptureOn(mode, ctx, Snapshot(m, ctx.shapes, tensors), c, env.capture);
    if ShouldUseCudaGraph(mode) && !CudaGraphShapesMatch(m, ctx.shapes, tensors, c.graph) {
      CaptureKeeps(mode, ctx, Snapshot(m, ctx.shapes, tensors), c, env.capture);
      ResetKeeps(r.cache);
      ResetIsEmpty(r.cache);
      hide CaptureOn, Snapshot, HandlesConserved, CudaGraphShapesMatch, ResetCudaGraph;
    } else {
      hide CaptureOn, Snapshot, HandlesConserved, ResetCudaGraph;
    }
  }

  /** Inference as it would be without any CUDA graph, with the launch itself succeeding or not. */
  ghost function InferDirect(m: Model, s: State, env: InferEnv, enqueueOk: bool): Out {
    if !s.mode.loaded then Out(s, false)
    else
      var w := WaitInputs(m, s.tensors, s.events.inputs, ExecStream(s.mode), 0, env.waitOk);
      if !w.ok then Out(s.(log := s.log + w.ops), false)
      else
        var b := if s.mode.frozen then Bound(s.ctx.addresses, true)
                 else BindIOAddresses(m, s.tensors, s.user, s.ctx.addresses, 0);
        var ctx := s.ctx.(addresses := b.addresses);
        if !b.ok then Out(s.(ctx := ctx, log := s.log + w.ops), false)
        else if !enqueueOk then Out(s.(ctx := ctx, log := s.log + w.ops), false)
        else
          var r := RecordOutputs(m, s.tensors, ExecStream(s.mode), s.events.outputs, s.events.next, 0, env.recordOk);
          Out(s.(ctx := ctx, events := s.events.(outputs := r.events, next := r.next),
                 log := s.log + w.ops + LaunchOp(ExecStream(s.mode), ctx) + r.ops), r.ok)
  }

  /** The context an inference launches with. */
  ghost function LaunchContext(m: Model, s: State): Context {
    if s.mode.frozen then s.ctx
    else s.ctx.(addresses := BindIOAddresses(m, s.tensors, s.user, s.ctx.addresses, 0).addresses)
  }

  /** An inference whose success, state and device operations are those of one without graphs; only the cache may
      differ. */
  ghost predicate ActsDirectly(m: Model, s: State, env: InferEnv, r: Out) {
    var d := InferDirect(m, s, env, Launches(m, s.mode, LaunchContext(m, s), s.tensors, s.cache, env));
    r.ok == d.ok && r.s == d.s.(cache := r.s.cache)
  }

  /** Graph replay refines plain enqueueing: from every state with the invariant, InferAsync leaves exactly the state,
      and so the program of device operations, that inference without graphs would leave — apart from the graph. */
  lemma ReplayRefinesEnqueue(m: Model, s: State, env: InferEnv)
    requires Inv(m, s)
    ensures ActsDirectly(m, s, env, InferAsync(m, s, env))
  {
    var ctx := LaunchContext(m, s);
    LaunchIsEnqueue(m, s.mode, ctx, s.tensors, s.cache, env);
    hide WaitInputs, BindIOAddresses, RecordOutputs, LaunchInference, Launches, Inv;
    var w := WaitInputs(m, s.tensors, s.events.inputs, ExecStream(s.mode), 0, env.waitOk);
    assert s.log + w.ops + [] == s.log + w.ops;
    assert s.ctx.(addresses := s.ctx.addresses) == s.ctx;
  }

  lemma InferChanges(m: Model, s: State, env: InferEnv)
    ensures var r, ctx := InferAsync(m, s, env).s, LaunchContext(m, s);
            && r.mode == s.mode && r.user == s.user && r.tensors == s.tensors
            && (r.ctx == s.ctx || r.ctx == ctx)
            && (r.cache == s.cache
                || (r.ctx == ctx && r.cache == LaunchInference(m, s.mode, ctx, s.tensors, s.cache, env).cache))
  {
    hide WaitInputs, BindIOAddresses, RecordOutputs, LaunchInference;
    assert s.ctx.(addresses := s.ctx.addresses) == s.ctx;
  }

  lemma InferKeeps(m: Model, s: State, env: InferEnv)
    requires Inv(m, s)
    ensures Inv(m, InferAsync(m, s, env).s)
  {
    LaunchIsEnqueue(m, s.mode, LaunchContext(m, s), s.tensors, s.cache, env);
    InferChanges(m, s, env);
    hide InferAsync, BindIOAddresses, LaunchInference, Launches, HandlesConserved, Resolved;
  }

  // ── Binding and refreshing ───────────────────────────────────────────

  /** Binding gives the addresses still to be visited their resolved value and spoils none that has it. */
  lemma {:induction false} BindResolves(m: Model, tensors: Tensors, user: map<string, Ptr>,
                                        addresses: map<string, Ptr>, k: nat)
    requires k <= |m.order|
    ensures var r := BindIOAddresses(m, tensors, user, addresses, k);
            r.ok ==> forall name | name in tensors && (name in m.order[k..] ||
                         (name in addresses && addresses[name] == Resolved(user, name, tensors[name]))) ::
                       name in r.addresses && r.addresses[name] == Resolved(user, name, tensors[name])
    decreases |m.order| - k
  {
    if k < |m.order| {
      var name := m.order[k];
      assert m.order[k..] == [name] + m.order[k + 1..];
      if name in tensors {
        BindResolves(m, tensors, user, SetAddress(m, addresses, name, Resolved(user, name, tensors[name])).addresses,
                     k + 1);
      } else {
        BindResolves(m, tensors, user, addresses, k + 1);
      }
    }
  }

  lemma LaunchContextResolved(m: Model, s: State)
    requires Inv(m, s)
    requires s.mode.frozen || BindIOAddresses(m, s.tensors, s.user, s.ctx.addresses, 0).ok
    ensures AddressesResolved(s.(ctx := LaunchContext(m, s)))
  {
    BindResolves(m, s.tensors, s.user, s.ctx.addresses, 0);
    assert m.order[0..] == m.order;
  }

  /** A tensor may be reshaped, but its memory does not move. */
  ghost predicate SameMemory(t: Tensors, u: Tensors) {
    && t.Keys == u.Keys
    && (forall name | name in t :: u[name].mem == t[name].mem && u[name].isInput == t[name].isInput)
  }

  lemma ReshapeKeepsMemory(t: TensorState, d: Dims)
    ensures var u := t.Reshape(d).0;
            && u.mem == t.mem && u.isInput == t.isInput && u.capacity == t.capacity && u.elementSize == t.elementSize
            && u.dtype == t.dtype && (!t.Reshape(d).1 ==> u == t)
  {
  }

  lemma FrozenUpdateOne(m: Model, shapes: map<string, Dims>, b: Binding, tensors: Tensors, addresses: map<string, Ptr>,
                        a: Allocation)
    ensures var r := UpdateOutput(m, true, shapes, b, tensors, addresses, a);
            r.addresses == addresses && SameMemory(tensors, r.tensors)
  {
    var d := ContextShape(m, shapes, b.name);
    if b.name in tensors && d.Some? { ReshapeKeepsMemory(tensors[b.name], d.value); }
    hide TensorState.ResizeBytes, TensorState.Reshape, Product, AllPositive, ContextShape;
  }

  lemma {:induction false} FrozenUpdate(m: Model, shapes: map<string, Dims>, tensors: Tensors,
                                        addresses: map<string, Ptr>,
                                        i: nat, alloc: string -> Allocation)
    ensures var r := UpdateOutputShapes(m, true, shapes, tensors, addresses, i, alloc);
            r.addresses == addresses && SameMemory(tensors, r.tensors)
    decreases |m.io| - i
  {
    hide UpdateOutput;
    if i < |m.io| {
      var r := UpdateOutput(m, true, shapes, m.io[i], tensors, addresses, alloc(m.io[i].name));
      FrozenUpdateOne(m, shapes, m.io[i], tensors, addresses, alloc(m.io[i].name));
      if r.ok { FrozenUpdate(m, shapes, r.tensors, r.addresses, i + 1, alloc); }
    }
  }

  // ── Every call keeps the invariant ───────────────────────────────────

  /** With the same mode, cache and addresses, only where tensors live matters. */
  lemma SameMemoryKeeps(m: Model, s: State, t: State)
    requires Inv(m, s) && t.mode == s.mode && t.ctx == s.ctx && t.user == s.user && t.cache == s.cache
    requires SameMemory(s.tensors, t.tensors)
    ensures Inv(m, t)
  {
  }

  /** While nothing is frozen there is no graph, and only the handle count matters. */
  lemma UnfrozenKeeps(m: Model, s: State, t: State)
    requires Inv(m, s) && !s.mode.frozen && !t.mode.frozen && t.tensors.Keys == s.tensors.Keys
    requires t.cache == s.cache || t.cache == ResetCudaGraph(s.cache)
    ensures Inv(m, t)
  {
    ResetKeeps(s.cache);
    assert s.cache.graph == NoGraph;
    hide HandlesConserved, ResetCudaGraph;
    assert t.cache.graph == NoGraph by { ResetIsEmpty(s.cache); }
  }

  lemma ResetIsEmpty(c: Cache)
    ensures ResetCudaGraph(c).graph == NoGraph
  {
  }

  lemma SetInputChanges(m: Model, s: State, name: string, data: Bytes, dims: Dims, env: SetEnv)
    ensures var r := SetInputData(m, s, name, data, dims, env).s;
            && r.mode == s.mode && r.user == s.user && r.tensors.Keys == s.tensors.Keys
            && (r.cache == s.cache || r.cache == ResetCudaGraph(s.cache))
            && (s.mode.frozen ==> r.ctx == s.ctx && r.cache == s.cache && SameMemory(s.tensors, r.tensors))
  {
    if name in s.tensors { ReshapeKeepsMemory(s.tensors[name], dims); }
    hide TensorState.Resize, TensorState.Reshape, Product, AllPositive, CopyIn, ResetCudaGraph;
    assert s.ctx.(addresses := s.ctx.addresses) == s.ctx;
  }

  lemma SetInputKeeps(m: Model, s: State, name: string, data: Bytes, dims: Dims, env: SetEnv)
    requires Inv(m, s)
    ensures Inv(m, SetInputData(m, s, name, data, dims, env).s)
  {
    var r := SetInputData(m, s, name, data, dims, env).s;
    SetInputChanges(m, s, name, data, dims, env);
    hide SetInputData, Inv, SameMemory, ResetCudaGraph;
    if s.mode.frozen { SameMemoryKeeps(m, s, r); } else { UnfrozenKeeps(m, s, r); }
  }

  lemma RefreshForReadChanges(m: Model, s: State, alloc: string -> Allocation)
    ensures var u := RefreshForRead(m, s, alloc);
            s.mode.frozen ==> u.addresses == s.ctx.addresses && SameMemory(s.tensors, u.tensors)
  {
    FrozenUpdate(m, s.ctx.shapes, s.tensors, s.ctx.addresses, 0, alloc);
    hide UpdateOutputShapes, HasDynamic;
  }

  lemma GetOutputChanges(m: Model, s: State, name: string, dst: nat, size: nat, env: GetEnv)
    ensures var r := GetOutputData(m, s, name, dst, size, env).s;
            && r.mode == s.mode && r.user == s.user && r.tensors.Keys == s.tensors.Keys && r.cache == s.cache
            && (s.mode.frozen ==> r.ctx == s.ctx && SameMemory(s.tensors, r.tensors))
  {
    RefreshForReadChanges(m, s, env.alloc);
    assert SameMemory(s.tensors, s.tensors);
    hide RefreshForRead, CopyOut, SameMemory;
    assert s.ctx.(addresses := s.ctx.addresses) == s.ctx;
  }

  lemma GetOutputKeeps(m: Model, s: State, name: string, dst: nat, size: nat, env: GetEnv)
    requires Inv(m, s)
    ensures Inv(m, GetOutputData(m, s, name, dst, size, env).s)
  {
    var r := GetOutputData(m, s, name, dst, size, env).s;
    GetOutputChanges(m, s, name, dst, size, env);
    hide GetOutputData, Inv, SameMemory;
    if s.mode.frozen { SameMemoryKeeps(m, s, r); } else { UnfrozenKeeps(m, s, r); }
  }

  lemma FreezeKeeps(m: Model, s: State, alloc: string -> Allocation)
    requires Inv(m, s)
    ensures Inv(m, FreezeIO(m, s, alloc).s)
  {
    var r := FreezeIO(m, s, alloc).s;
    if !s.mode.frozen {
      var u := UpdateOutputShapes(m, false, s.ctx.shapes, s.tensors, s.ctx.addresses, 0, alloc);
      BindResolves(m, u.tensors, s.user, u.addresses, 0);
      assert m.order[0..] == m.order;
      ResetKeeps(s.cache);
      hide UpdateOutputShapes, BindIOAddresses, Resolved, HandlesConserved;
    }
  }

  lemma SwitchKeeps(m: Model, s: State, c: Call)
    requires Inv(m, s) && (c.BindShape? || c.SwitchProfile? || c.BindAddress? || c.UseStream? || c.EnableGraph?)
    ensures Inv(m, Step(m, s, c).s)
  {
    ResetKeeps(s.cache);
    ResetIsEmpty(s.cache);
    hide AllPositive, HasDynamic, HandlesConserved, ResetCudaGraph;
  }

  lemma CaptureCallKeeps(m: Model, s: State, env: InferEnv)
    requires Inv(m, s)
    ensures Inv(m, CaptureCudaGraph(m, s, env).s)
  {
    CaptureKeeps(s.mode, s.ctx, Snapshot(m, s.ctx.shapes, s.tensors), s.cache, env.capture);
    hide CaptureOn, Snapshot, WaitInputs, HandlesConserved;
  }

  lemma StepKeeps(m: Model, s: State, c: Call)
    requires Inv(m, s)
    ensures Inv(m, Step(m, s, c).s)
  {
    hide Inv, SetInputData, GetOutputData, InferAsync, FreezeIO, CaptureCudaGraph;
    match c
    case SetInput(name, data, dims, env) => SetInputKeeps(m, s, name, data, dims, env);
    case GetOutput(name, dst, size, env) => GetOutputKeeps(m, s, name, dst, size, env);
    case Infer(env) => InferKeeps(m, s, env);
    case Freeze(alloc) => FreezeKeeps(m, s, alloc);
    case CaptureGraph(env) => CaptureCallKeeps(m, s, env);
    case _ => SwitchKeeps(m, s, c);
  }

  lemma {:induction false} AllocatesKnownNames(m: Model, s: Allocated, i: nat, maxProfile: bool,
                                               alloc: string -> Allocation)
    requires WellFormed(m) && forall name | name in s.tensors :: name in m.order
    ensures forall name | name in AllocateInputs(m, s, i, maxProfile, alloc).tensors :: name in m.order
    ensures forall name | name in AllocateOutputs(m, s, i, maxProfile, alloc).tensors :: name in m.order
    decreases |m.io| - i
  {
    hide NewTensor, InputShape, OutputShape, IsDynamic, MemState.Address;
    if i < |m.io| {
      var b := m.io[i];
      AllocatesKnownNames(m, if b.isInput then AllocateInput(m, s, b, maxProfile, alloc(b.name))
                          else s, i + 1, maxProfile, alloc);
      AllocatesKnownNames(m, if b.isInput then s
                          else AddTensor(m, s, b, OutputShape(m, s.ctx.shapes, b, maxProfile), alloc(b.name)),
                          i + 1, maxProfile, alloc);
    }
  }

  lemma ConstructEstablishes(m: Model, config: Config, alloc: string -> Allocation)
    requires WellFormed(m)
    ensures Inv(m, Construct(m, config, alloc))
  {
    var c := Normalised(config);
    var empty := Allocated(map[], Context(map[], map[]));
    AllocatesKnownNames(m, empty, 0, c.maxProfile, alloc);
    AllocatesKnownNames(m, AllocateInputs(m, empty, 0, c.maxProfile, alloc), 0, c.maxProfile, alloc);
    var a := Allocate(m, c.maxProfile, alloc);
    hide AllocateInputs, AllocateOutputs, FreezeIO;
    var s := State(Mode(true, c.persistent, false, c.cudaGraph, 0), a.ctx, map[], a.tensors, Events(map[], map[], 0),
                   Cache(NoGraph, Ledger(0, 0, multiset{}, multiset{})), []);
    assert Inv(m, s);
    FreezeKeeps(m, s, alloc);
  }

  lemma {:induction false} RunKeeps(m: Model, s: State, calls: seq<Call>)
    requires Inv(m, s)
    ensures Inv(m, Run(m, s, calls))
    decreases |calls|
  {
    hide Inv, Step;
    if calls != [] {
      RunKeeps(m, s, calls[..|calls| - 1]);
      StepKeeps(m, Run(m, s, calls[..|calls| - 1]), calls[|calls| - 1]);
    }
  }

  // ── Main results over whole runs ─────────────────────────────────────

  /** After any calls on a constructed engine, an inference does to the device what it would do without graphs. */
  lemma EveryInferenceActsLikeEnqueue(m: Model, config: Config, alloc: string -> Allocation, calls: seq<Call>,
                                      env: InferEnv, k: Kernel, w: World)
    requires WellFormed(m)
    ensures var s := Run(m, Construct(m, config, alloc), calls);
            var launches := Launches(m, s.mode, LaunchContext(m, s), s.tensors, s.cache, env);
            InOrder(k, InferAsync(m, s, env).s.log, w) == InOrder(k, InferDirect(m, s, env, launches).s.log, w)
  {
    ConstructEstablishes(m, config, alloc);
    RunKeeps(m, Construct(m, config, alloc), calls);
    ReplayRefinesEnqueue(m, Run(m, Construct(m, config, alloc), calls), env);
    hide Inv, InferAsync, InferDirect, Construct, Run;
  }

  /** After any calls, a successful inference issues one launch, and each binding's address in it is the user's
      override if one was set and the tensor's memory otherwise. */
  lemma EveryLaunchUsesResolvedAddresses(m: Model, config: Config, alloc: string -> Allocation, calls: seq<Call>,
                                         env: InferEnv)
    returns (before: Program, launch: Op, after: Program)
    requires WellFormed(m)
    requires InferAsync(m, Run(m, Construct(m, config, alloc), calls), env).ok
    ensures var s := Run(m, Construct(m, config, alloc), calls);
            && InferAsync(m, s, env).s.log == s.log + before + [Item(ExecStream(s.mode), launch)] + after
            && before == WaitInputs(m, s.tensors, s.events.inputs, ExecStream(s.mode), 0, env.waitOk).ops
            && after
              == RecordOutputs(m, s.tensors, ExecStream(s.mode), s.events.outputs, s.events.next, 0, env.recordOk).ops
            && launch.Launch? && launch.shapes == s.ctx.shapes
            && (forall name | name in s.tensors ::
                  name in launch.addresses && launch.addresses[name] == Resolved(s.user, name, s.tensors[name]))
  {
    ConstructEstablishes(m, config, alloc);
    RunKeeps(m, Construct(m, config, alloc), calls);
    var s := Run(m, Construct(m, config, alloc), calls);
    ReplayRefinesEnqueue(m, s, env);
    LaunchContextResolved(m, s);
    var ctx := LaunchContext(m, s);
    before := WaitInputs(m, s.tensors, s.events.inputs, ExecStream(s.mode), 0, env.waitOk).ops;
    after := RecordOutputs(m, s.tensors, ExecStream(s.mode), s.events.outputs, s.events.next, 0, env.recordOk).ops;
    launch := Launch(ctx.shapes, ctx.addresses);
    hide Inv, InferAsync, Construct, Run, WaitInputs, RecordOutputs, BindIOAddresses, Launches, Resolved;
  }

  /** Nothing an inference can observe about where data lives has changed. */
  ghost predicate Unmoved(s: State, r: State) {
    r.mode.frozen && r.ctx.addresses == s.ctx.addresses && r.user == s.user && SameMemory(s.tensors, r.tensors)
  }

  lemma FrozenStep(m: Model, s: State, c: Call)
    requires s.mode.frozen
    ensures Unmoved(s, Step(m, s, c).s)
  {
    hide SetInputData, GetOutputData, InferAsync, UpdateOutputShapes, AllPositive, HasDynamic, WaitInputs,
         BindIOAddresses, CaptureOn, Snapshot, ResetCudaGraph;
    match c
    case SetInput(name, data, dims, env) => SetInputChanges(m, s, name, data, dims, env);
    case GetOutput(name, dst, size, env) => GetOutputChanges(m, s, name, dst, size, env);
    case Infer(env) => InferChanges(m, s, env);
    case _ =>
  }

  /** Once frozen, always frozen: no call moves a tensor's memory, an override, or a context address. */
  lemma {:induction false} FrozenNeverMoves(m: Model, s: State, calls: seq<Call>)
    requires s.mode.frozen
    ensures Unmoved(s, Run(m, s, calls))
    decreases |calls|
  {
    hide Step;
    if calls != [] {
      FrozenNeverMoves(m, s, calls[..|calls| - 1]);
      FrozenStep(m, Run(m, s, calls[..|calls| - 1]), calls[|calls| - 1]);
    }
  }

  /** After any calls, the live handles are exactly those a captured graph holds; after the destructor as well, every
      graph and executable ever created has been destroyed exactly once. */
  lemma NoHandleLeaks(m: Model, config: Config, alloc: string -> Allocation, calls: seq<Call>)
    requires WellFormed(m)
    ensures var s := Run(m, Construct(m, config, alloc), calls);
            && (s.cache.graph.captured <==> s.cache.graph.graph != 0)
            && (s.cache.graph.captured <==> s.cache.graph.exec != 0)
            && HandlesConserved(s.cache)
    ensures AllDestroyed(Cleanup(Run(m, Construct(m, config, alloc), calls)).cache.ledger)
  {
    ConstructEstablishes(m, config, alloc);
    RunKeeps(m, Construct(m, config, alloc), calls);
    hide Construct, Run;
  }

  // ── What single calls promise a caller ───────────────────────────────

  /** From handles conserved to handles conserved. */
  ghost predicate Conserves(c: Cache, r: Cache) {
    HandlesConserved(c) ==> HandlesConserved(r)
  }

  ghost predicate CaptureRefines(mode: Mode, ctx: Context, c: Cache, env: CaptureEnv, r: Captured) {
    HandlesConserved(c) ==> CapturesSoundly(mode, ctx, c, env, r)
  }

  ghost predicate LaunchRefines(m: Model, mode: Mode, ctx: Context, tensors: Tensors, c: Cache, env: InferEnv,
                                r: Launched) {
    GraphIsCurrent(mode, ctx, c) && HandlesConserved(c) ==> LaunchesDirectly(m, mode, ctx, tensors, c, env, r)
  }

  ghost predicate InferenceRefines(m: Model, s: State, env: InferEnv, r: Out) {
    Inv(m, s) ==> ActsDirectly(m, s, env, r)
  }

  /** From a state with the invariant to a state with it. */
  ghost predicate Keeps(m: Model, s: State, r: State) {
    Inv(m, s) ==> Inv(m, r)
  }

  /** Every handle ever handed out has been destroyed exactly once. */
  ghost predicate AllDestroyed(l: Ledger) {
    && (forall h :: l.graphsDestroyed[h] == if 1 <= h <= l.graphs then 1 else 0)
    && (forall h :: l.execsDestroyed[h] == if 1 <= h <= l.execs then 1 else 0)
  }

  ghost predicate Settles(m: Model, s: State, r: State) {
    Inv(m, s) ==> AllDestroyed(r.cache.ledger)
  }

  lemma ResetConserves(c: Cache)
    ensures Conserves(c, ResetCudaGraph(c))
  {
    if HandlesConserved(c) { ResetKeeps(c); }
  }

  lemma CaptureIsSound(mode: Mode, ctx: Context, snapshot: map<string, Option<Dims>>, c: Cache, env: CaptureEnv)
    ensures CaptureRefines(mode, ctx, c, env, CaptureOn(mode, ctx, snapshot, c, env))
  {
    hide CaptureOn;
    if HandlesConserved(c) { CaptureKeeps(mode, ctx, snapshot, c, env); }
  }

  lemma LaunchIsDirect(m: Model, mode: Mode, ctx: Context, tensors: Tensors, c: Cache, env: InferEnv)
    ensures LaunchRefines(m, mode, ctx, tensors, c, env, LaunchInference(m, mode, ctx, tensors, c, env))
  {
    hide LaunchInference;
    if GraphIsCurrent(mode, ctx, c) && HandlesConserved(c) { LaunchIsEnqueue(m, mode, ctx, tensors, c, env); }
  }

  lemma InferPromises(m: Model, s: State, env: InferEnv)
    ensures Keeps(m, s, InferAsync(m, s, env).s) && InferenceRefines(m, s, env, InferAsync(m, s, env))
  {
    hide InferAsync;
    if Inv(m, s) {
      InferKeeps(m, s, env);
      ReplayRefinesEnqueue(m, s, env);
    }
  }

  lemma SetInputPromises(m: Model, s: State, name: string, data: Bytes, dims: Dims, env: SetEnv)
    ensures Keeps(m, s, SetInputData(m, s, name, data, dims, env).s)
  {
    hide SetInputData;
    if Inv(m, s) { SetInputKeeps(m, s, name, data, dims, env); }
  }

  lemma GetOutputPromises(m: Model, s: State, name: string, dst: nat, size: nat, env: GetEnv)
    ensures Keeps(m, s, GetOutputData(m, s, name, dst, size, env).s)
  {
    hide GetOutputData;
    if Inv(m, s) { GetOutputKeeps(m, s, name, dst, size, env); }
  }

  lemma FreezePromises(m: Model, s: State, alloc: string -> Allocation)
    ensures Keeps(m, s, FreezeIO(m, s, alloc).s)
  {
    hide FreezeIO;
    if Inv(m, s) { FreezeKeeps(m, s, alloc); }
  }

  lemma CapturePromises(m: Model, s: State, env: InferEnv)
    ensures Keeps(m, s, CaptureCudaGraph(m, s, env).s)
  {
    hide CaptureCudaGraph;
    if Inv(m, s) { CaptureCallKeeps(m, s, env); }
  }

  lemma BindShapePromises(m: Model, s: State, name: string, dims: Dims)
    ensures Keeps(m, s, SetBindingShape(m, s, name, dims).s)
  {
    hide Inv, SetBindingShape;
    if Inv(m, s) { SwitchKeeps(m, s, BindShape(name, dims)); }
  }

  lemma SwitchProfilePromises(m: Model, s: State, accepted: Option<map<string, Dims>>)
    ensures Keeps(m, s, SetOptimizationProfile(s, accepted).s)
  {
    hide Inv, SetOptimizationProfile;
    if Inv(m, s) { SwitchKeeps(m, s, SwitchProfile(accepted)); }
  }

  lemma BindAddressPromises(m: Model, s: State, name: string, p: Ptr)
    ensures Keeps(m, s, SetBindingAddress(m, s, name, p).s)
  {
    hide Inv, SetBindingAddress;
    if Inv(m, s) { SwitchKeeps(m, s, BindAddress(name, p)); }
  }

  lemma UseStreamPromises(m: Model, s: State, stream: nat)
    ensures Keeps(m, s, SetStream(s, stream).s)
  {
    hide Inv, SetStream;
    if Inv(m, s) { SwitchKeeps(m, s, UseStream(stream)); }
  }

  lemma EnableGraphPromises(m: Model, s: State, enable: bool)
    ensures Keeps(m, s, EnableCudaGraph(s, enable).s)
  {
    hide Inv, EnableCudaGraph;
    if Inv(m, s) { SwitchKeeps(m, s, EnableGraph(enable)); }
  }

  lemma CleanupSettles(m: Model, s: State)
    ensures Settles(m, s, Cleanup(s))
  {
  }
}
