/** Sizes across the two layers, tensor and memory, over whole runs: they always agree, so no copy is refused, and an
    input allocated for its largest profile shape never needs to grow. */
module EngineCapacity {
  import opened Streams
  import opened CudaMemory
  import opened TensorModel
  import opened EngineSpec

  ghost predicate Supported(m: Model) {
    forall i | 0 <= i < |m.io| :: ElementSize(m.io[i].dtype) > 0
  }

  ghost predicate AllGot(alloc: string -> Allocation) {
    forall name :: alloc(name).Got?
  }

  /** Whatever the call allocates, it gets. */
  ghost predicate AllocatesOk(c: Call) {
    match c
    case SetInput(_, _, _, env) => env.alloc.Got?
    case GetOutput(_, _, _, env) => AllGot(env.alloc)
    case Freeze(alloc) => AllGot(alloc)
    case _ => true
  }

  ghost predicate Sound(t: TensorState) {
    t.Agrees() && t.elementSize == ElementSize(t.dtype)
  }

  ghost predicate AllSound(tensors: Tensors) {
    forall name | name in tensors :: Sound(tensors[name])
  }

  /** One tensor after another in the same binding: sizes agree, nothing shrank, type and place are the same. */
  ghost predicate Grew(t: TensorState, u: TensorState) {
    Sound(u) && u.capacity >= t.capacity && u.dtype == t.dtype && u.isInput == t.isInput && u.mem.kind == t.mem.kind
  }

  ghost predicate AllGrew(t: Tensors, u: Tensors) {
    u.Keys == t.Keys && forall name | name in t :: Grew(t[name], u[name])
  }

  // ── One tensor at a time ─────────────────────────────────────────────

  lemma ReshapeGrows(t: TensorState, d: Dims)
    requires Sound(t) && AllPositive(d)
    ensures var (u, ok) := t.Reshape(d);
            && Grew(t, u)
            && (ok <==> Product(d) * t.elementSize <= t.capacity)
            && (ok ==> u.byteSize == Product(d) * t.elementSize && u.mem == t.mem)
  {
    PositiveShape(d);
    assert Product(d) * t.elementSize > 0;
  }

  lemma ResizeGrows(t: TensorState, d: Dims, a: Allocation)
    requires Sound(t) && AllPositive(d) && a.Got? && Product(d) * t.elementSize > t.capacity
    ensures var (u, ok) := t.Resize(d, t.dtype, a);
            ok && Grew(t, u) && u.byteSize == Product(d) * t.elementSize && u.mem.Address() == a.ptr
    ensures var (u, ok) := t.ResizeBytes(Product(d) * t.elementSize, a); ok && Grew(t, u)
  {
    PositiveShape(d);
  }

  lemma NewTensorIsSound(b: Binding, d: Dims, a: Allocation)
    requires AllPositive(d) && a.Got? && ElementSize(b.dtype) > 0
    ensures var t := NewTensor(b, d, a);
            Sound(t) && t.capacity == Product(d) * ElementSize(b.dtype) && Describes(b, t)
  {
    PositiveShape(d);
    assert Product(d) * ElementSize(b.dtype) > 0;
  }

  lemma CopyAccepted(t: TensorState, data: Bytes, dst: nat, copyOk: bool)
    requires Sound(t)
    ensures var p, agent := t.mem.Address(), if t.mem.kind == Device then Internal else Host;
            && t.mem.Copy(0, t.byteSize) == Copies(p)
            && CopyIn(t, data, copyOk) == (if t.mem.kind == Device && !copyOk then Waits([], false)
                                           else Waits([Item(agent, Upload(p, data))], true))
            && CopyOut(t, dst, copyOk) == (if t.mem.kind == Device && !copyOk then Waits([], false)
                                           else Waits([Item(agent, Download(p, dst))], true))
  {
  }

  // ── One call at a time ───────────────────────────────────────────────

  lemma AllGrewTransitive(t: Tensors, u: Tensors, v: Tensors)
    requires AllGrew(t, u) && AllGrew(u, v)
    ensures AllGrew(t, v) && AllSound(v)
  {
  }

  lemma UpdateOutputGrows(m: Model, frozen: bool, shapes: map<string, Dims>, b: Binding, tensors: Tensors,
                          addresses: map<string, Ptr>, a: Allocation)
    requires AllSound(tensors) && a.Got?
    ensures AllGrew(tensors, UpdateOutput(m, frozen, shapes, b, tensors, addresses, a).tensors)
  {
    var q := ContextShape(m, shapes, b.name);
    if b.name in tensors && q.Some? && AllPositive(q.value) {
      ReshapeGrows(tensors[b.name], q.value);
      if Product(q.value) * tensors[b.name].elementSize > tensors[b.name].capacity {
        ResizeGrows(tensors[b.name], q.value, a);
      }
    }
    hide TensorState.Reshape, TensorState.ResizeBytes, AllPositive, Product, ContextShape, TensorState.Agrees;
  }

  lemma {:induction false} UpdateGrows(m: Model, frozen: bool, shapes: map<string, Dims>, tensors: Tensors,
                                       addresses: map<string, Ptr>, i: nat, alloc: string -> Allocation)
    requires AllSound(tensors) && AllGot(alloc)
    ensures AllGrew(tensors, UpdateOutputShapes(m, frozen, shapes, tensors, addresses, i, alloc).tensors)
    decreases |m.io| - i
  {
    hide UpdateOutput, Sound;
    if i < |m.io| {
      var r := UpdateOutput(m, frozen, shapes, m.io[i], tensors, addresses, alloc(m.io[i].name));
      UpdateOutputGrows(m, frozen, shapes, m.io[i], tensors, addresses, alloc(m.io[i].name));
      if r.ok {
        UpdateGrows(m, frozen, shapes, r.tensors, r.addresses, i + 1, alloc);
        AllGrewTransitive(tensors, r.tensors,
                          UpdateOutputShapes(m, frozen, shapes, tensors, addresses, i, alloc).tensors);
      }
    }
  }

  /** Whether an input tensor can take a shape: it fits, or the tensor may still be reallocated and rebound. */
  ghost predicate HasRoom(m: Model, s: State, name: string, t: TensorState, dims: Dims, a: Allocation)
    requires a.Got?
  {
    || Product(dims) * t.elementSize <= t.capacity
    || (!s.mode.frozen && m.acceptsAddress(name, a.ptr))
  }

  lemma MakeRoomGrows(m: Model, s: State, name: string, t: TensorState, dims: Dims, a: Allocation)
    requires Sound(t) && AllPositive(dims) && a.Got?
    ensures var r := MakeRoom(m, s, name, t, dims, a);
            && Grew(t, r.tensor)
            && (r.ok <==> HasRoom(m, s, name, t, dims, a))
            && (r.ok ==> r.tensor.byteSize == Product(dims) * t.elementSize)
            && (Product(dims) * t.elementSize <= t.capacity ==> r.tensor.mem == t.mem)
  {
    ReshapeGrows(t, dims);
    if Product(dims) * t.elementSize > t.capacity { ResizeGrows(t, dims, a); }
    hide TensorState.Reshape, TensorState.Resize, Product, AllPositive;
  }

  /** What the calls to MakeRoom and CopyIn inside SetInputData do. */
  lemma InputStored(m: Model, s: State, name: string, data: Bytes, dims: Dims, env: SetEnv)
    requires AllSound(s.tensors) && env.alloc.Got? && name in s.tensors && AllPositive(dims)
    ensures var t := s.tensors[name];
            var r := MakeRoom(m, s, name, t, dims, env.alloc);
            var c := CopyIn(r.tensor, data, env.copyOk);
            && Grew(t, r.tensor) && (r.ok <==> HasRoom(m, s, name, t, dims, env.alloc))
            && (r.ok ==> (c.ok <==> (t.mem.kind == Device ==> env.copyOk))
                         && (c.ok ==> c.ops == [Item(if t.mem.kind == Device then Internal else Host,
                                                     Upload(r.tensor.mem.Address(), data))]))
  {
    var r := MakeRoom(m, s, name, s.tensors[name], dims, env.alloc);
    MakeRoomGrows(m, s, name, s.tensors[name], dims, env.alloc);
    CopyAccepted(r.tensor, data, 0, env.copyOk);
    hide MakeRoom, AllPositive, Product, HasRoom, CopyIn, TensorState.Agrees, MemState.Copy;
  }

  lemma SetInputGrows(m: Model, s: State, name: string, data: Bytes, dims: Dims, env: SetEnv)
    requires AllSound(s.tensors) && env.alloc.Got?
    ensures var r := SetInputData(m, s, name, data, dims, env);
            && AllGrew(s.tensors, r.s.tensors)
            && (r.ok <==> name in s.tensors && s.tensors[name].isInput && AllPositive(dims)
                          && |data| == Product(dims) * s.tensors[name].elementSize
                          && HasRoom(m, s, name, s.tensors[name], dims, env.alloc)
                          && (s.tensors[name].mem.kind == Device ==> env.copyOk) && env.recordOk)
  {
    if name in s.tensors && AllPositive(dims) { InputStored(m, s, name, data, dims, env); }
    hide MakeRoom, AllPositive, Product, HasRoom, CopyIn, Sound;
  }

  lemma SetInputIssues(m: Model, s: State, name: string, data: Bytes, dims: Dims, env: SetEnv)
    requires AllSound(s.tensors) && env.alloc.Got? && SetInputData(m, s, name, data, dims, env).ok
    ensures var r := SetInputData(m, s, name, data, dims, env);
            var t := r.s.tensors[name].mem;
            && r.s.log == s.log + [Item(if t.kind == Device then Internal else Host, Upload(t.Address(), data)),
                                   Item(Internal, Record(s.events.next))]
            && r.s.events
              == s.events.(inputs := s.events.inputs[name := s.events.next], next := s.events.next + 1)
  {
    InputStored(m, s, name, data, dims, env);
    hide MakeRoom, AllPositive, Product, HasRoom, CopyIn, Sound;
  }

  /** Exactly when SetInputData succeeds, and what it then issues: the data itself, to the tensor's memory, and the
      event.  The bounds check of the memory layer does not appear: it never refuses. */
  lemma SetInputSucceedsIff(m: Model, s: State, name: string, data: Bytes, dims: Dims, env: SetEnv)
    requires AllSound(s.tensors) && env.alloc.Got?
    ensures var r := SetInputData(m, s, name, data, dims, env);
            && AllGrew(s.tensors, r.s.tensors)
            && (r.ok <==> name in s.tensors && s.tensors[name].isInput && AllPositive(dims)
                          && |data| == Product(dims) * s.tensors[name].elementSize
                          && HasRoom(m, s, name, s.tensors[name], dims, env.alloc)
                          && (s.tensors[name].mem.kind == Device ==> env.copyOk) && env.recordOk)
            && (r.ok ==>
                  var t := r.s.tensors[name].mem;
                  r.s.log == s.log + [Item(if t.kind == Device then Internal else Host, Upload(t.Address(), data)),
                                      Item(Internal, Record(s.events.next))]
                  && r.s.events
                    == s.events.(inputs := s.events.inputs[name := s.events.next], next := s.events.next + 1))
  {
    SetInputGrows(m, s, name, data, dims, env);
    if SetInputData(m, s, name, data, dims, env).ok { SetInputIssues(m, s, name, data, dims, env); }
    hide SetInputData, AllPositive, Product, HasRoom, Sound, MemState.Address;
  }

  lemma RefreshForReadGrows(m: Model, s: State, alloc: string -> Allocation)
    requires AllSound(s.tensors) && AllGot(alloc)
    ensures AllGrew(s.tensors, RefreshForRead(m, s, alloc).tensors)
  {
    UpdateGrows(m, s.mode.frozen, s.ctx.shapes, s.tensors, s.ctx.addresses, 0, alloc);
    hide UpdateOutputShapes;
  }

  /** Exactly when GetOutputData succeeds, and what it then issues. */
  lemma GetOutputSucceedsIff(m: Model, s: State, name: string, dst: nat, size: nat, env: GetEnv)
    requires AllSound(s.tensors) && AllGot(env.alloc)
    ensures var g := GetOutputData(m, s, name, dst, size, env);
            var r := RefreshForRead(m, s, env.alloc).tensors;
            && AllGrew(s.tensors, g.s.tensors)
            && (g.ok <==> s.mode.loaded && name in s.tensors && !s.tensors[name].isInput && size == r[name].byteSize
                          && name in s.events.outputs && env.waitOk
                          && (s.tensors[name].mem.kind == Device ==> env.copyOk))
            && (g.ok ==>
                  var t := r[name].mem;
                  g.s.events == s.events &&
                  g.s.log == s.log + [Item(Internal, Wait(s.events.outputs[name])),
                                      Item(if t.kind == Device then Internal else Host, Download(t.Address(), dst))])
  {
    RefreshForReadGrows(m, s, env.alloc);
    var u := RefreshForRead(m, s, env.alloc).tensors;
    if name in s.tensors {
      CopyAccepted(u[name], [], dst, env.copyOk);
      assert Grew(s.tensors[name], u[name]);
    }
    hide RefreshForRead, CopyOut, Sound, MemState.Copy, MemState.Address;
  }

  lemma StepGrows(m: Model, s: State, c: Call)
    requires AllSound(s.tensors) && AllocatesOk(c)
    ensures AllGrew(s.tensors, Step(m, s, c).s.tensors)
  {
    hide SetInputData, GetOutputData, UpdateOutputShapes, BindIOAddresses, WaitInputs, RecordOutputs, LaunchInference,
         CaptureOn, Snapshot, ResetCudaGraph, AllPositive, HasDynamic, Sound;
    match c
    case SetInput(name, data, dims, env) => SetInputSucceedsIff(m, s, name, data, dims, env);
    case GetOutput(name, dst, size, env) => GetOutputSucceedsIff(m, s, name, dst, size, env);
    case Freeze(alloc) => UpdateGrows(m, false, s.ctx.shapes, s.tensors, s.ctx.addresses, 0, alloc);
    case _ =>
  }

  lemma {:induction false} RunGrows(m: Model, s: State, calls: seq<Call>)
    requires AllSound(s.tensors) && forall i | 0 <= i < |calls| :: AllocatesOk(calls[i])
    ensures AllGrew(s.tensors, Run(m, s, calls).tensors) && AllSound(Run(m, s, calls).tensors)
    decreases |calls|
  {
    hide Step, Sound, AllocatesOk;
    if calls != [] {
      var n := |calls| - 1;
      RunGrows(m, s, calls[..n]);
      StepGrows(m, Run(m, s, calls[..n]), calls[n]);
      AllGrewTransitive(s.tensors, Run(m, s, calls[..n]).tensors, Run(m, s, calls).tensors);
    }
  }

  // ── Construction ─────────────────────────────────────────────────────

  /** The tensor of a binding as the model describes it. */
  ghost predicate Describes(b: Binding, t: TensorState) {
    t.dtype == b.dtype && t.isInput == b.isInput && t.mem.kind == if b.hostLocated then Pinned else Device
  }

  lemma ShapesArePositive(m: Model, shapes: map<string, Dims>, b: Binding, maxProfile: bool)
    ensures AllPositive(InputShape(b, maxProfile)) && AllPositive(OutputShape(m, shapes, b, maxProfile))
  {
  }

  /** No binding from index `i` on (no output, if `outputsOnly`) has this name. */
  ghost predicate Absent(m: Model, i: nat, name: string, outputsOnly: bool) {
    forall j | i <= j < |m.io| && !(outputsOnly && m.io[j].isInput) :: m.io[j].name != name
  }

  /** The tensor of binding `b` is sound, is what the model describes, and has at least the capacity of its shape. */
  ghost predicate Equips(b: Binding, tensors: Tensors, maxProfile: bool) {
    && b.name in tensors && Describes(b, tensors[b.name])
    && (b.isInput ==> tensors[b.name].capacity >= Product(InputShape(b, maxProfile)) * ElementSize(b.dtype))
  }

  lemma AllocateInputAdds(m: Model, s: Allocated, b: Binding, maxProfile: bool, a: Allocation)
    ensures AllocateInput(m, s, b, maxProfile, a).tensors
            == s.tensors[b.name := NewTensor(b, InputShape(b, maxProfile), a)]
  {
  }

  lemma {:induction false} AllocateInputsSound(m: Model, s: Allocated, i: nat, maxProfile: bool,
                                               alloc: string -> Allocation)
    requires WellFormed(m) && Supported(m) && AllGot(alloc) && AllSound(s.tensors)
    ensures var r := AllocateInputs(m, s, i, maxProfile, alloc).tensors;
            && AllSound(r)
            && (forall name | name in s.tensors && Absent(m, i, name, false) :: name in r && r[name] == s.tensors[name])
            && (forall j | i <= j < |m.io| && m.io[j].isInput :: Equips(m.io[j], r, maxProfile))
    decreases |m.io| - i
  {
    if i < |m.io| {
      var b := m.io[i];
      var t := if b.isInput then AllocateInput(m, s, b, maxProfile, alloc(b.name)) else s;
      ShapesArePositive(m, s.ctx.shapes, b, maxProfile);
      NewTensorIsSound(b, InputShape(b, maxProfile), alloc(b.name));
      AllocateInputAdds(m, s, b, maxProfile, alloc(b.name));
      hide NewTensor, InputShape, AllocateInput, Product, Sound, AllPositive, Describes;
      AllocateInputsSound(m, t, i + 1, maxProfile, alloc);
    }
  }

  lemma {:induction false} AllocateOutputsSound(m: Model, s: Allocated, i: nat, maxProfile: bool,
                                                alloc: string -> Allocation)
    requires WellFormed(m) && Supported(m) && AllGot(alloc) && AllSound(s.tensors)
    ensures var r := AllocateOutputs(m, s, i, maxProfile, alloc).tensors;
            && AllSound(r)
            && (forall name | name in s.tensors && Absent(m, i, name, true) :: name in r && r[name] == s.tensors[name])
            && (forall j | i <= j < |m.io| && !m.io[j].isInput :: Equips(m.io[j], r, maxProfile))
    decreases |m.io| - i
  {
    if i < |m.io| {
      var b := m.io[i];
      var d := OutputShape(m, s.ctx.shapes, b, maxProfile);
      var t := if b.isInput then s else AddTensor(m, s, b, d, alloc(b.name));
      ShapesArePositive(m, s.ctx.shapes, b, maxProfile);
      NewTensorIsSound(b, d, alloc(b.name));
      hide NewTensor, OutputShape, Product, Sound, AllPositive, Describes;
      AllocateOutputsSound(m, t, i + 1, maxProfile, alloc);
    }
  }

  ghost predicate Equipped(m: Model, tensors: Tensors, maxProfile: bool) {
    AllSound(tensors) && forall j | 0 <= j < |m.io| :: Equips(m.io[j], tensors, maxProfile)
  }

  lemma EquipsLooksAtOne(b: Binding, t: Tensors, u: Tensors, maxProfile: bool)
    requires Equips(b, t, maxProfile) && b.name in u && u[b.name] == t[b.name]
    ensures Equips(b, u, maxProfile)
  {
    hide Product, InputShape, Describes;
  }

  lemma InputIsAbsent(m: Model, j: nat)
    requires WellFormed(m) && j < |m.io| && m.io[j].isInput
    ensures Absent(m, 0, m.io[j].name, true)
  {
  }

  lemma AllocationIsSound(m: Model, maxProfile: bool, alloc: string -> Allocation)
    requires WellFormed(m) && Supported(m) && AllGot(alloc)
    ensures AllSound(Allocate(m, maxProfile, alloc).tensors)
  {
    var empty := Allocated(map[], Context(map[], map[]));
    AllocateInputsSound(m, empty, 0, maxProfile, alloc);
    AllocateOutputsSound(m, AllocateInputs(m, empty, 0, maxProfile, alloc), 0, maxProfile, alloc);
    hide AllocateInputs, AllocateOutputs, WellFormed, Supported, AllGot, Equips, Absent, Sound;
  }

  lemma BindingIsEquipped(m: Model, maxProfile: bool, alloc: string -> Allocation, j: nat)
    requires WellFormed(m) && Supported(m) && AllGot(alloc) && j < |m.io|
    ensures Equips(m.io[j], Allocate(m, maxProfile, alloc).tensors, maxProfile)
  {
    var empty, b := Allocated(map[], Context(map[], map[])), m.io[j];
    var a := AllocateInputs(m, empty, 0, maxProfile, alloc);
    var r := AllocateOutputs(m, a, 0, maxProfile, alloc).tensors;
    AllocateInputsSound(m, empty, 0, maxProfile, alloc);
    AllocateOutputsSound(m, a, 0, maxProfile, alloc);
    hide AllocateInputs, AllocateOutputs, AllSound, Describes, Product, InputShape;
    if b.isInput {
      InputIsAbsent(m, j);
      hide Absent;
      assert Equips(b, a.tensors, maxProfile);
      EquipsLooksAtOne(b, a.tensors, r, maxProfile);
    }
  }

  lemma AllocationEquips(m: Model, maxProfile: bool, alloc: string -> Allocation)
    requires WellFormed(m) && Supported(m) && AllGot(alloc)
    ensures Equipped(m, Allocate(m, maxProfile, alloc).tensors, maxProfile)
  {
    var r := Allocate(m, maxProfile, alloc).tensors;
    AllocationIsSound(m, maxProfile, alloc);
    hide Allocate, WellFormed, Supported, AllGot, AllSound, Equips;
    forall j | 0 <= j < |m.io| ensures Equips(m.io[j], r, maxProfile) {
      BindingIsEquipped(m, maxProfile, alloc, j);
    }
  }

  lemma EquippedGrows(m: Model, t: Tensors, u: Tensors, maxProfile: bool)
    requires Equipped(m, t, maxProfile) && AllGrew(t, u)
    ensures Equipped(m, u, maxProfile)
  {
    hide Product, InputShape;
  }

  lemma RunIsEquipped(m: Model, config: Config, alloc: string -> Allocation, calls: seq<Call>)
    requires WellFormed(m) && Supported(m) && AllGot(alloc) && forall i | 0 <= i < |calls| :: AllocatesOk(calls[i])
    ensures Equipped(m, Run(m, Construct(m, config, alloc), calls).tensors, Normalised(config).maxProfile)
  {
    var c := Normalised(config);
    var a := Allocate(m, c.maxProfile, alloc);
    AllocationEquips(m, c.maxProfile, alloc);
    UpdateGrows(m, false, a.ctx.shapes, a.tensors, a.ctx.addresses, 0, alloc);
    var s := Construct(m, config, alloc);
    assert s.tensors == a.tensors || AllGrew(a.tensors, s.tensors) by {
      hide Allocate, UpdateOutputShapes, BindIOAddresses, ResetCudaGraph, Equipped, AllSound;
    }
    hide Construct, AllGrew, Equipped;
    if s.tensors != a.tensors { EquippedGrows(m, a.tensors, s.tensors, c.maxProfile); }
    EquippedIsSound(m, s.tensors, c.maxProfile);
    RunGrows(m, s, calls);
    EquippedGrows(m, s.tensors, Run(m, s, calls).tensors, c.maxProfile);
  }

  lemma EquippedIsSound(m: Model, tensors: Tensors, maxProfile: bool)
    requires Equipped(m, tensors, maxProfile)
    ensures AllSound(tensors)
  {
  }

  // ── Main results over whole runs ─────────────────────────────────────

  /** Two-layer agreement: after any run whose allocations succeed, each tensor's memory has equal logical size and
      capacity, the tensor's capacity is the same number, and its byte count lies within it, so copying the whole
      tensor is accepted. */
  lemma LayersAlwaysAgree(m: Model, config: Config, alloc: string -> Allocation, calls: seq<Call>)
    requires WellFormed(m) && Supported(m) && AllGot(alloc) && forall i | 0 <= i < |calls| :: AllocatesOk(calls[i])
    ensures var s := Run(m, Construct(m, config, alloc), calls);
            forall name | name in s.tensors ::
              var t := s.tensors[name];
              t.mem.byteSize == t.mem.capacity == t.capacity >= t.byteSize > 0 && t.mem.Copy(0, t.byteSize).Copies?
  {
    RunIsEquipped(m, config, alloc, calls);
    hide Construct, Run, Equips;
  }

  /** Max-profile sufficiency: a dynamic input of a max-profile engine accepts, after any run, data of every shape
      within its profile, without moving its memory; only the copy or the event can still fail. */
  lemma MaxProfileNeverGrows(m: Model, config: Config, alloc: string -> Allocation, calls: seq<Call>, j: nat,
                             data: Bytes, dims: Dims, env: SetEnv)
    requires WellFormed(m) && Supported(m) && AllGot(alloc) && forall i | 0 <= i < |calls| :: AllocatesOk(calls[i])
    requires config.persistent && config.maxProfile && j < |m.io| && m.io[j].isInput && IsDynamic(m.io[j])
    requires m.io[j].maxProfile.Some? && |m.io[j].maxProfile.value| == |m.io[j].shape| == |dims|
    requires forall x | 0 <= x < |dims| :: 0 < dims[x] <= m.io[j].maxProfile.value[x]
    requires |data| == Product(dims) * ElementSize(m.io[j].dtype) && env.alloc.Got?
    ensures var s := Run(m, Construct(m, config, alloc), calls);
            var name := m.io[j].name;
            var r := SetInputData(m, s, name, data, dims, env);
            && name in s.tensors && name in r.s.tensors
            && (r.ok <==> (s.tensors[name].mem.kind == Device ==> env.copyOk) && env.recordOk)
            && r.s.tensors[name].mem == s.tensors[name].mem
  {
    var b := m.io[j];
    var s := Run(m, Construct(m, config, alloc), calls);
    RunIsEquipped(m, config, alloc, calls);
    assert AllPositive(b.maxProfile.value) && InputShape(b, true) == b.maxProfile.value;
    assert Equips(b, s.tensors, true);
    ProductMonotone(dims, b.maxProfile.value);
    MulMonotone(Product(dims), Product(b.maxProfile.value), ElementSize(b.dtype));
    SetInputSucceedsIff(m, s, b.name, data, dims, env);
    MakeRoomGrows(m, s, b.name, s.tensors[b.name], dims, env.alloc);
    hide Product, InputShape, MakeRoom, Construct, Run, CopyIn, TensorState.Agrees;
  }

  lemma MulMonotone(x: int, y: int, z: nat)
    requires x <= y
    ensures x * z <= y * z
  {
  }
}
