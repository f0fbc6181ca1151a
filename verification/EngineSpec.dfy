/** The inference engine as a state machine on values: what each public call does to the engine, its context, its
    captured graph and its events, and which device operations it issues.  Answers of the CUDA runtime and of TensorRT
    that the engine cannot predict are parameters.  The loops over the binding table are functions of just the fields
    they read, returning just the fields they change. */
module EngineSpec {
  import opened Streams
  import opened CudaMemory
  import opened TensorModel

  datatype Option<+T> = None | Some(value: T)

  // ── What the loaded model fixes ──────────────────────────────────────

  datatype Binding = Binding(name: string, isInput: bool, dtype: DataType, hostLocated: bool,
                             shape: Dims, maxProfile: Option<Dims>)

  /** `order` is the iteration order of the binding table, `inferShape` the context's shape query. */
  datatype Model = Model(io: seq<Binding>, order: seq<string>,
                         inferShape: (map<string, Dims>, string) -> Option<Dims>,
                         acceptsShape: (string, Dims) -> bool,
                         acceptsAddress: (string, Ptr) -> bool)

  ghost predicate WellFormed(m: Model) {
    && (forall i, j | 0 <= i < j < |m.io| :: m.io[i].name != m.io[j].name)
    && (forall i, j | 0 <= i < j < |m.order| :: m.order[i] != m.order[j])
    && (forall i | 0 <= i < |m.io| :: m.io[i].name in m.order)
  }

  predicate IsDynamic(b: Binding) {
    exists j | 0 <= j < |b.shape| :: b.shape[j] < 0
  }

  predicate HasDynamic(m: Model) {
    exists i | 0 <= i < |m.io| :: IsDynamic(m.io[i])
  }

  datatype Config = Config(persistent: bool, maxProfile: bool, autoFreeze: bool, cudaGraph: bool)

  // ── State ────────────────────────────────────────────────────────────

  type Tensors = map<string, TensorState>

  datatype Mode = Mode(loaded: bool, persistent: bool, frozen: bool, enabled: bool, external: nat)

  datatype Context = Context(shapes: map<string, Dims>, addresses: map<string, Ptr>)

  datatype Events = Events(inputs: map<string, nat>, outputs: map<string, nat>, next: nat)

  /** The captured graph: handles (0 when absent), the context baked into it, the shapes it is valid for. */
  datatype Graph = Graph(captured: bool, graph: nat, exec: nat, baked: Context, shapes: map<string, Option<Dims>>)

  const NoGraph := Graph(false, 0, 0, Context(map[], map[]), map[])

  /** Handles the runtime has given out (numbered from 1) and how often each was destroyed. */
  datatype Ledger = Ledger(graphs: nat, execs: nat, graphsDestroyed: multiset<nat>, execsDestroyed: multiset<nat>)

  datatype Cache = Cache(graph: Graph, ledger: Ledger)

  datatype State = State(mode: Mode, ctx: Context, user: map<string, Ptr>, tensors: Tensors, events: Events,
                         cache: Cache, log: Program)

  datatype Out = Out(s: State, ok: bool)

  // ── Answers of the runtime ───────────────────────────────────────────

  datatype CaptureEnv = CaptureEnv(beginOk: bool, enqueueOk: bool, endOk: bool, graphNonNull: bool, instantiateOk: bool)
  datatype InferEnv = InferEnv(waitOk: string -> bool, enqueueOk: bool, capture: CaptureEnv, launchOk: bool,
                               recordOk: string -> bool)
  datatype SetEnv = SetEnv(alloc: Allocation, copyOk: bool, recordOk: bool)
  datatype GetEnv = GetEnv(alloc: string -> Allocation, waitOk: bool, copyOk: bool)

  // ── Streams and the context ──────────────────────────────────────────

  const Internal := Stream(0)

  function ExecStream(mode: Mode): Agent {
    Stream(mode.external)
  }

  function ContextShape(m: Model, shapes: map<string, Dims>, name: string): Option<Dims> {
    if name in shapes then Some(shapes[name]) else m.inferShape(shapes, name)
  }

  datatype Bound = Bound(addresses: map<string, Ptr>, ok: bool)

  function SetAddress(m: Model, addresses: map<string, Ptr>, name: string, p: Ptr): Bound {
    if m.acceptsAddress(name, p) then Bound(addresses[name := p], true) else Bound(addresses, false)
  }

  // ── Graph ────────────────────────────────────────────────────────────

  function ResetCudaGraph(c: Cache): Cache {
    Cache(NoGraph, c.ledger.(
      execsDestroyed := c.ledger.execsDestroyed + if c.graph.exec != 0 then multiset{c.graph.exec} else multiset{},
      graphsDestroyed := c.ledger.graphsDestroyed + if c.graph.graph != 0 then multiset{c.graph.graph} else multiset{}))
  }

  predicate ShouldUseCudaGraph(mode: Mode) {
    mode.enabled && mode.frozen && mode.loaded
  }

  /** Shape a graph is checked against: the context's for an input, the tensor's for an output. */
  function WatchedShape(m: Model, shapes: map<string, Dims>, t: TensorState, name: string): Option<Dims> {
    if t.isInput then ContextShape(m, shapes, name) else Some(t.dims)
  }

  function Snapshot(m: Model, shapes: map<string, Dims>, tensors: Tensors): map<string, Option<Dims>> {
    map name | name in tensors :: WatchedShape(m, shapes, tensors[name], name)
  }

  predicate CudaGraphShapesMatch(m: Model, shapes: map<string, Dims>, tensors: Tensors, g: Graph) {
    g.captured && forall name | name in tensors ::
      name in g.shapes && WatchedShape(m, shapes, tensors[name], name) == g.shapes[name]
  }

  datatype Captured = Captured(cache: Cache, ok: bool)

  function CaptureOn(mode: Mode, ctx: Context, snapshot: map<string, Option<Dims>>, c: Cache,
                     env: CaptureEnv): Captured {
    if !ShouldUseCudaGraph(mode) then Captured(c, false)
    else
      var r := ResetCudaGraph(c);
      if !env.beginOk then Captured(r, false)
      else
        var g := if env.graphNonNull then r.ledger.graphs + 1 else 0;
        var l := if env.graphNonNull then r.ledger.(graphs := g) else r.ledger;
        var dropped := if env.graphNonNull then l.(graphsDestroyed := l.graphsDestroyed + multiset{g}) else l;
        if !env.enqueueOk || !env.endOk || !env.graphNonNull then Captured(Cache(NoGraph, dropped), false)
        else if !env.instantiateOk then Captured(Cache(NoGraph, dropped), false)
        else Captured(Cache(Graph(true, g, l.execs + 1, ctx, snapshot), l.(execs := l.execs + 1)), true)
  }

  datatype Launched = Launched(ops: Program, cache: Cache, ok: bool)

  function LaunchOp(stream: Agent, ctx: Context): Program {
    [Item(stream, Launch(ctx.shapes, ctx.addresses))]
  }

  function LaunchGraph(stream: Agent, c: Cache, launchOk: bool): Launched {
    if c.graph.exec == 0 || !launchOk then Launched([], c, false)
    else Launched(LaunchOp(stream, c.graph.baked), c, true)
  }

  function Enqueue(mode: Mode, ctx: Context, c: Cache, enqueueOk: bool): Launched {
    if !mode.loaded || !enqueueOk then Launched([], c, false) else Launched(LaunchOp(ExecStream(mode), ctx), c, true)
  }

  /** Replay, capture and replay, or plain enqueue. */
  function LaunchInference(m: Model, mode: Mode, ctx: Context, tensors: Tensors, c: Cache, env: InferEnv): Launched {
    if ShouldUseCudaGraph(mode) then
      if !c.graph.captured || !CudaGraphShapesMatch(m, ctx.shapes, tensors, c.graph) then
        var r := CaptureOn(mode, ctx, Snapshot(m, ctx.shapes, tensors), c, env.capture);
        if !r.ok then Enqueue(mode, ctx, ResetCudaGraph(r.cache), env.enqueueOk)
        else LaunchGraph(ExecStream(mode), r.cache, env.launchOk)
      else LaunchGraph(ExecStream(mode), c, env.launchOk)
    else Enqueue(mode, ctx, c, env.enqueueOk)
  }

  // ── Loops over the binding table ─────────────────────────────────────

  datatype Waits = Waits(ops: Program, ok: bool)

  function WaitInputs(m: Model, tensors: Tensors, events: map<string, nat>, stream: Agent, k: nat,
                      waitOk: string -> bool): Waits
    decreases |m.order| - k
  {
    if k >= |m.order| then Waits([], true)
    else
      var name := m.order[k];
      if name in tensors && tensors[name].isInput && name in events then
        if !waitOk(name) then Waits([], false)
        else
          var r := WaitInputs(m, tensors, events, stream, k + 1, waitOk);
          Waits([Item(stream, Wait(events[name]))] + r.ops, r.ok)
      else WaitInputs(m, tensors, events, stream, k + 1, waitOk)
  }

  /** The address an inference should use for a binding. */
  function Resolved(user: map<string, Ptr>, name: string, t: TensorState): Ptr {
    if name in user then user[name] else t.mem.Address()
  }

  function BindIOAddresses(m: Model, tensors: Tensors, user: map<string, Ptr>, addresses: map<string, Ptr>,
                           k: nat): Bound
    decreases |m.order| - k
  {
    if k >= |m.order| then Bound(addresses, true)
    else
      var name := m.order[k];
      if name !in tensors then BindIOAddresses(m, tensors, user, addresses, k + 1)
      else
        var r := SetAddress(m, addresses, name, Resolved(user, name, tensors[name]));
        if !r.ok then r else BindIOAddresses(m, tensors, user, r.addresses, k + 1)
  }

  datatype Recorded = Recorded(ops: Program, events: map<string, nat>, next: nat, ok: bool)

  function RecordOutputs(m: Model, tensors: Tensors, stream: Agent, events: map<string, nat>, next: nat, k: nat,
                         recordOk: string -> bool): Recorded
    decreases |m.order| - k
  {
    if k >= |m.order| then Recorded([], events, next, true)
    else
      var name := m.order[k];
      if name in tensors && !tensors[name].isInput then
        if !recordOk(name) then Recorded([], events, next, false)
        else
          var r := RecordOutputs(m, tensors, stream, events[name := next], next + 1, k + 1, recordOk);
          r.(ops := [Item(stream, Record(next))] + r.ops)
      else RecordOutputs(m, tensors, stream, events, next, k + 1, recordOk)
  }

  datatype Updated = Updated(tensors: Tensors, addresses: map<string, Ptr>, ok: bool)

  function UpdateOutput(m: Model, frozen: bool, shapes: map<string, Dims>, b: Binding, tensors: Tensors,
                        addresses: map<string, Ptr>, a: Allocation): (r: Updated)
    ensures r.tensors.Keys == tensors.Keys
  {
    if b.isInput then Updated(tensors, addresses, true)
    else
      match ContextShape(m, shapes, b.name)
      case None => Updated(tensors, addresses, false)
      case Some(d) =>
        if -1 in d || b.name !in tensors then Updated(tensors, addresses, true)
        else if !AllPositive(d) then Updated(tensors, addresses, false)
        else
          var t := tensors[b.name];
          var n := Product(d) * t.elementSize;
          if n > t.capacity then
            if frozen then Updated(tensors, addresses, false)
            else
              var (u, ok) := t.ResizeBytes(n, a);
              if !ok then Updated(tensors[b.name := u], addresses, false)
              else
                var r := SetAddress(m, addresses, b.name, u.mem.Address());
                Updated(tensors[b.name := u], r.addresses, r.ok)
          else
            var (u, ok) := t.Reshape(d);
            Updated(tensors[b.name := u], addresses, ok)
  }

  function UpdateOutputShapes(m: Model, frozen: bool, shapes: map<string, Dims>, tensors: Tensors,
                              addresses: map<string, Ptr>, i: nat, alloc: string -> Allocation): (r: Updated)
    ensures r.tensors.Keys == tensors.Keys
    decreases |m.io| - i
  {
    if i >= |m.io| then Updated(tensors, addresses, true)
    else
      var r := UpdateOutput(m, frozen, shapes, m.io[i], tensors, addresses, alloc(m.io[i].name));
      if !r.ok then r else UpdateOutputShapes(m, frozen, shapes, r.tensors, r.addresses, i + 1, alloc)
  }

  // ── Copies ───────────────────────────────────────────────────────────

  /** A copy into device memory is queued on the internal stream; one into host memory happens at once. */
  function CopyIn(t: TensorState, data: Bytes, copyOk: bool): Waits {
    match t.mem.Copy(0, t.byteSize)
    case Nothing => Waits([], true)
    case Copies(p) =>
      if t.mem.kind == Device && !copyOk then Waits([], false)
      else Waits([Item(if t.mem.kind == Device then Internal else Host, Upload(p, data))], true)
    case _ => Waits([], false)
  }

  function CopyOut(t: TensorState, dst: nat, copyOk: bool): Waits {
    match t.mem.Copy(0, t.byteSize)
    case Nothing => Waits([], true)
    case Copies(p) =>
      if t.mem.kind == Device && !copyOk then Waits([], false)
      else Waits([Item(if t.mem.kind == Device then Internal else Host, Download(p, dst))], true)
    case _ => Waits([], false)
  }

  // ── Public calls ─────────────────────────────────────────────────────

  function InferAsync(m: Model, s: State, env: InferEnv): Out {
    if !s.mode.loaded then Out(s, false)
    else
      var w := WaitInputs(m, s.tensors, s.events.inputs, ExecStream(s.mode), 0, env.waitOk);
      if !w.ok then Out(s.(log := s.log + w.ops), false)
      else
        var b := if s.mode.frozen then Bound(s.ctx.addresses, true)
                 else BindIOAddresses(m, s.tensors, s.user, s.ctx.addresses, 0);
        var ctx := s.ctx.(addresses := b.addresses);
        if !b.ok then Out(s.(ctx := ctx, log := s.log + w.ops), false)
        else
          var l := LaunchInference(m, s.mode, ctx, s.tensors, s.cache, env);
          if !l.ok then Out(s.(ctx := ctx, cache := l.cache, log := s.log + w.ops + l.ops), false)
          else
            var r := RecordOutputs(m, s.tensors, ExecStream(s.mode), s.events.outputs, s.events.next, 0, env.recordOk);
            Out(s.(ctx := ctx, cache := l.cache, events := s.events.(outputs := r.events, next := r.next),
                   log := s.log + w.ops + l.ops + r.ops), r.ok)
  }

  datatype Room = Room(tensor: TensorState, addresses: map<string, Ptr>, cache: Cache, ok: bool)

  /** Give an input tensor its new shape, reallocating when it does not fit and I/O is not frozen. */
  function MakeRoom(m: Model, s: State, name: string, t: TensorState, dims: Dims, a: Allocation): Room {
    var (u, fits) := t.Reshape(dims);
    if fits then Room(u, s.ctx.addresses, s.cache, true)
    else if s.mode.frozen then Room(t, s.ctx.addresses, s.cache, false)
    else
      var (v, ok) := t.Resize(dims, t.dtype, a);
      if !ok then Room(v, s.ctx.addresses, s.cache, false)
      else
        var r := SetAddress(m, s.ctx.addresses, name, v.mem.Address());
        Room(v, r.addresses, if r.ok then ResetCudaGraph(s.cache) else s.cache, r.ok)
  }

  function SetInputData(m: Model, s: State, name: string, data: Bytes, dims: Dims, env: SetEnv): Out {
    if name !in s.tensors || !s.tensors[name].isInput || !AllPositive(dims)
       || |data| != Product(dims) * s.tensors[name].elementSize then Out(s, false)
    else
      var r := MakeRoom(m, s, name, s.tensors[name], dims, env.alloc);
      var s' := s.(tensors := s.tensors[name := r.tensor], ctx := s.ctx.(addresses := r.addresses), cache := r.cache);
      if !r.ok then Out(s', false)
      else
        var c := CopyIn(r.tensor, data, env.copyOk);
        if !c.ok || !env.recordOk then Out(s'.(log := s.log + c.ops), false)
        else Out(s'.(log := s.log + c.ops + [Item(Internal, Record(s.events.next))],
                     events := s.events.(inputs := s.events.inputs[name := s.events.next],
                                         next := s.events.next + 1)), true)
  }

  /** The refresh GetOutputData makes first; its success is not looked at. */
  function RefreshForRead(m: Model, s: State, alloc: string -> Allocation): (r: Updated)
    ensures r.tensors.Keys == s.tensors.Keys
  {
    if !s.mode.frozen || HasDynamic(m)
    then UpdateOutputShapes(m, s.mode.frozen, s.ctx.shapes, s.tensors, s.ctx.addresses, 0, alloc)
    else Updated(s.tensors, s.ctx.addresses, true)
  }

  function GetOutputData(m: Model, s: State, name: string, dst: nat, size: nat, env: GetEnv): Out {
    if !s.mode.loaded || name !in s.tensors || s.tensors[name].isInput then Out(s, false)
    else
      var u := RefreshForRead(m, s, env.alloc);
      var r := s.(tensors := u.tensors, ctx := s.ctx.(addresses := u.addresses));
      if size != u.tensors[name].byteSize || name !in s.events.outputs || !env.waitOk then Out(r, false)
      else
        var c := CopyOut(u.tensors[name], dst, env.copyOk);
        Out(r.(log := s.log + [Item(Internal, Wait(s.events.outputs[name]))] + c.ops), c.ok)
  }

  function SetBindingShape(m: Model, s: State, name: string, dims: Dims): Out {
    if !s.mode.loaded || (s.mode.frozen && !HasDynamic(m)) || !AllPositive(dims) || !m.acceptsShape(name, dims)
    then Out(s, false)
    else Out(s.(ctx := s.ctx.(shapes := s.ctx.shapes[name := dims]),
                cache := if s.mode.frozen then ResetCudaGraph(s.cache) else s.cache), true)
  }

  /** A profile switch replaces the context's shapes with whatever TensorRT chooses. */
  function SetOptimizationProfile(s: State, accepted: Option<map<string, Dims>>): Out {
    if !s.mode.loaded || s.mode.frozen then Out(s, false)
    else
      match accepted
      case None => Out(s.(cache := ResetCudaGraph(s.cache)), false)
      case Some(shapes) => Out(s.(cache := ResetCudaGraph(s.cache), ctx := s.ctx.(shapes := shapes)), true)
  }

  function SetBindingAddress(m: Model, s: State, name: string, p: Ptr): Out {
    if !s.mode.loaded || s.mode.frozen then Out(s, false)
    else
      var r := SetAddress(m, s.ctx.addresses, name, p);
      if !r.ok then Out(s, false)
      else Out(s.(ctx := s.ctx.(addresses := r.addresses), user := s.user[name := p],
                  cache := ResetCudaGraph(s.cache)), true)
  }

  function FreezeIO(m: Model, s: State, alloc: string -> Allocation): Out {
    if !s.mode.loaded || !s.mode.persistent then Out(s, false)
    else if s.mode.frozen then Out(s, true)
    else
      var u := UpdateOutputShapes(m, false, s.ctx.shapes, s.tensors, s.ctx.addresses, 0, alloc);
      if !u.ok then Out(s.(tensors := u.tensors, ctx := s.ctx.(addresses := u.addresses)), false)
      else
        var b := BindIOAddresses(m, u.tensors, s.user, u.addresses, 0);
        var r := s.(tensors := u.tensors, ctx := s.ctx.(addresses := b.addresses));
        if !b.ok then Out(r, false)
        else Out(r.(cache := ResetCudaGraph(s.cache), mode := s.mode.(frozen := true)), true)
  }

  function SetStream(s: State, stream: nat): Out {
    if stream == 0 then Out(s, false)
    else Out(s.(cache := ResetCudaGraph(s.cache), mode := s.mode.(external := stream)), true)
  }

  function EnableCudaGraph(s: State, enable: bool): Out {
    Out(s.(mode := s.mode.(enabled := enable), cache := if enable then s.cache else ResetCudaGraph(s.cache)), true)
  }

  function CaptureCudaGraph(m: Model, s: State, env: InferEnv): Out {
    if !s.mode.loaded then Out(s, false)
    else
      var w := WaitInputs(m, s.tensors, s.events.inputs, ExecStream(s.mode), 0, env.waitOk);
      if !w.ok then Out(s.(log := s.log + w.ops), false)
      else
        var c := CaptureOn(s.mode, s.ctx, Snapshot(m, s.ctx.shapes, s.tensors), s.cache, env.capture);
        Out(s.(cache := c.cache, log := s.log + w.ops), c.ok)
  }

  function Cleanup(s: State): State {
    s.(cache := ResetCudaGraph(s.cache), tensors := map[], user := map[],
       events := s.events.(inputs := map[], outputs := map[]), mode := s.mode.(loaded := false),
       ctx := Context(map[], map[]))
  }

  // ── Construction ─────────────────────────────────────────────────────

  function Concrete(d: Dims): Dims {
    seq(|d|, j requires 0 <= j < |d| => if d[j] <= 0 then 1 else d[j])
  }

  function InputShape(b: Binding, maxProfile: bool): Dims {
    if IsDynamic(b) && maxProfile && b.maxProfile.Some? && AllPositive(b.maxProfile.value)
       && |b.maxProfile.value| == |b.shape|
    then b.maxProfile.value
    else Concrete(b.shape)
  }

  /** Static axes of the engine shape, dynamic ones from a shorter inferred shape. */
  function Merge(engine: Dims, inferred: Dims): Dims
  {
    if 0 < |inferred| < |engine| then
      seq(|engine|, j requires 0 <= j < |engine| => if engine[j] < 0 && j < |inferred| then inferred[j] else engine[j])
    else inferred
  }

  function OutputShape(m: Model, shapes: map<string, Dims>, b: Binding, maxProfile: bool): Dims {
    var inferred := ContextShape(m, shapes, b.name);
    var d :=
      if inferred.Some? && AllPositive(inferred.value) then inferred.value
      else if maxProfile && b.maxProfile.Some? && AllPositive(b.maxProfile.value) then b.maxProfile.value
      else b.shape;
    Concrete(Merge(b.shape, d))
  }

  function NewTensor(b: Binding, d: Dims, a: Allocation): TensorState {
    Unallocated(if b.hostLocated then Pinned else Device, b.isInput).Resize(d, b.dtype, a).0
  }

  /** What allocation builds up: the tensors and the context. */
  datatype Allocated = Allocated(tensors: Tensors, ctx: Context)

  function AddTensor(m: Model, s: Allocated, b: Binding, d: Dims, a: Allocation): Allocated {
    var t := NewTensor(b, d, a);
    var addresses := if t.mem.Address() == 0 then s.ctx.addresses
                     else SetAddress(m, s.ctx.addresses, b.name, t.mem.Address()).addresses;
    Allocated(s.tensors[b.name := t], s.ctx.(addresses := addresses))
  }

  function AllocateInput(m: Model, s: Allocated, b: Binding, maxProfile: bool, a: Allocation): Allocated {
    var d := InputShape(b, maxProfile);
    var r := AddTensor(m, s, b, d, a);
    if IsDynamic(b) && m.acceptsShape(b.name, d) then r.(ctx := r.ctx.(shapes := r.ctx.shapes[b.name := d])) else r
  }

  function AllocateInputs(m: Model, s: Allocated, i: nat, maxProfile: bool, alloc: string -> Allocation): Allocated
    decreases |m.io| - i
  {
    if i >= |m.io| then s
    else
      var b := m.io[i];
      AllocateInputs(m, if b.isInput then AllocateInput(m, s, b, maxProfile, alloc(b.name))
                     else s, i + 1, maxProfile, alloc)
  }

  function AllocateOutputs(m: Model, s: Allocated, i: nat, maxProfile: bool, alloc: string -> Allocation): Allocated
    decreases |m.io| - i
  {
    if i >= |m.io| then s
    else
      var b := m.io[i];
      AllocateOutputs(m, if b.isInput then s
                      else AddTensor(m, s, b, OutputShape(m, s.ctx.shapes, b, maxProfile), alloc(b.name)),
                      i + 1, maxProfile, alloc)
  }

  function Normalised(c: Config): Config {
    if c.persistent then c else Config(false, false, false, false)
  }

  function Allocate(m: Model, maxProfile: bool, alloc: string -> Allocation): Allocated {
    AllocateOutputs(m, AllocateInputs(m, Allocated(map[], Context(map[], map[])), 0, maxProfile, alloc), 0,
                    maxProfile, alloc)
  }

  function Construct(m: Model, config: Config, alloc: string -> Allocation): State {
    var c := Normalised(config);
    var a := Allocate(m, c.maxProfile, alloc);
    var s := State(Mode(true, c.persistent, false, c.cudaGraph, 0), a.ctx, map[], a.tensors, Events(map[], map[], 0),
                   Cache(NoGraph, Ledger(0, 0, multiset{}, multiset{})), []);
    if c.autoFreeze then FreezeIO(m, s, alloc).s else s
  }

  // ── Runs ─────────────────────────────────────────────────────────────

  datatype Call =
    | SetInput(name: string, data: Bytes, dims: Dims, setEnv: SetEnv)
    | GetOutput(name: string, dst: nat, size: nat, getEnv: GetEnv)
    | Infer(inferEnv: InferEnv)
    | BindShape(name: string, dims: Dims)
    | SwitchProfile(accepted: Option<map<string, Dims>>)
    | BindAddress(name: string, ptr: Ptr)
    | Freeze(alloc: string -> Allocation)
    | UseStream(stream: nat)
    | EnableGraph(enable: bool)
    | CaptureGraph(captureEnv: InferEnv)

  function Step(m: Model, s: State, c: Call): Out {
    match c
    case SetInput(name, data, dims, env) => SetInputData(m, s, name, data, dims, env)
    case GetOutput(name, dst, size, env) => GetOutputData(m, s, name, dst, size, env)
    case Infer(env) => InferAsync(m, s, env)
    case BindShape(name, dims) => SetBindingShape(m, s, name, dims)
    case SwitchProfile(accepted) => SetOptimizationProfile(s, accepted)
    case BindAddress(name, p) => SetBindingAddress(m, s, name, p)
    case Freeze(alloc) => FreezeIO(m, s, alloc)
    case UseStream(stream) => SetStream(s, stream)
    case EnableGraph(enable) => EnableCudaGraph(s, enable)
    case CaptureGraph(env) => CaptureCudaGraph(m, s, env)
  }

  /** The state after any sequence of calls, whether or not each one succeeded. */
  function Run(m: Model, s: State, calls: seq<Call>): State {
    if calls == [] then s else Step(m, Run(m, s, calls[..|calls| - 1]), calls[|calls| - 1]).s
  }
}
