/** Whether an inference fits its output buffers. Inference never refreshes outputs, so the size its shapes ask for
    and the size an output has are two things; this is when they agree. */
module EngineBuffers {
  import opened Streams
  import opened CudaMemory
  import opened TensorModel
  import opened EngineSpec
  import opened EngineCapacity
  import opened EngineShapes
  import opened EngineSettings
  import EngineInvariants
  import EngineRounds

  // ── What construction allocates ──────────────────────────────────────

  function ShapeAtAllocation(m: Model, shapes: map<string, Dims>, b: Binding, maxProfile: bool): Dims {
    if b.isInput then InputShape(b, maxProfile) else OutputShape(m, shapes, b, maxProfile)
  }

  lemma {:induction false} InputsAllocated(m: Model, s: Allocated, i: nat, maxProfile: bool,
                                           alloc: string -> Allocation)
    requires WellFormed(m)
    ensures var r := AllocateInputs(m, s, i, maxProfile, alloc).tensors;
            && (forall j | i <= j < |m.io| && m.io[j].isInput ::
                  m.io[j].name in r
                  && r[m.io[j].name] == NewTensor(m.io[j], InputShape(m.io[j], maxProfile), alloc(m.io[j].name)))
            && (forall name | name in s.tensors && Absent(m, i, name, false) :: name in r && r[name] == s.tensors[name])
    decreases |m.io| - i
  {
    if i < |m.io| {
      var b := m.io[i];
      AllocateInputAdds(m, s, b, maxProfile, alloc(b.name));
      hide NewTensor, InputShape, AllocateInput;
      InputsAllocated(m, if b.isInput then AllocateInput(m, s, b, maxProfile, alloc(b.name))
                      else s, i + 1, maxProfile, alloc);
      assert Absent(m, i + 1, b.name, false);
    }
  }

  lemma {:induction false} OutputsAllocated(m: Model, s: Allocated, i: nat, maxProfile: bool,
                                            alloc: string -> Allocation)
    requires WellFormed(m)
    ensures var r := AllocateOutputs(m, s, i, maxProfile, alloc);
            && r.ctx.shapes == s.ctx.shapes
            && (forall j | i <= j < |m.io| && !m.io[j].isInput ::
                  m.io[j].name in r.tensors && r.tensors[m.io[j].name]
                    == NewTensor(m.io[j], OutputShape(m, s.ctx.shapes, m.io[j], maxProfile), alloc(m.io[j].name)))
            && (forall name | name in s.tensors && Absent(m, i, name, true) ::
                  name in r.tensors && r.tensors[name] == s.tensors[name])
    decreases |m.io| - i
  {
    if i < |m.io| {
      var b := m.io[i];
      hide NewTensor, OutputShape;
      var d := OutputShape(m, s.ctx.shapes, b, maxProfile);
      OutputsAllocated(m, if b.isInput then s else AddTensor(m, s, b, d, alloc(b.name)), i + 1, maxProfile, alloc);
      assert Absent(m, i + 1, b.name, true);
    }
  }

  /** Every binding's tensor is the one allocated for it at its shape, outputs with all input shapes set. */
  lemma EverythingAllocated(m: Model, maxProfile: bool, alloc: string -> Allocation, j: nat)
    requires WellFormed(m) && j < |m.io|
    ensures var a, b := Allocate(m, maxProfile, alloc), m.io[j];
            b.name in a.tensors
            && a.tensors[b.name] == NewTensor(b, ShapeAtAllocation(m, a.ctx.shapes, b, maxProfile), alloc(b.name))
  {
    var empty := Allocated(map[], Context(map[], map[]));
    var a := AllocateInputs(m, empty, 0, maxProfile, alloc);
    InputsAllocated(m, empty, 0, maxProfile, alloc);
    OutputsAllocated(m, a, 0, maxProfile, alloc);
    if m.io[j].isInput { InputIsAbsent(m, j); }
    hide NewTensor, OutputShape, InputShape, AllocateInputs, AllocateOutputs, Absent;
  }

  lemma NewTensorTakes(b: Binding, d: Dims, a: Allocation)
    requires AllPositive(d) && a.Got? && ElementSize(b.dtype) > 0
    ensures var t := NewTensor(b, d, a);
            t.dims == d && t.byteSize == t.capacity == Product(d) * ElementSize(b.dtype)
            && t.elementSize == ElementSize(b.dtype)
  {
    PositiveShape(d);
    PositiveProduct(Product(d), ElementSize(b.dtype));
    hide Product, Elements, FirstNegative;
  }

  /** A constructed engine, frozen or not, has each dynamic input at its max profile when asked to and the profile has
      all its axes, and each static input at its own shape. */
  lemma ConstructedInputs(m: Model, config: Config, alloc: string -> Allocation, j: nat)
    requires WellFormed(m) && Supported(m) && AllGot(alloc) && j < |m.io| && m.io[j].isInput
    ensures var b, s, max := m.io[j], Construct(m, config, alloc), Normalised(config).maxProfile;
            && b.name in s.tensors
            && s.tensors[b.name].dims == InputShape(b, max) && s.tensors[b.name].elementSize == ElementSize(b.dtype)
            && s.tensors[b.name].capacity == Product(s.tensors[b.name].dims) * ElementSize(b.dtype)
            && (!IsDynamic(b) && AllPositive(b.shape) ==> s.tensors[b.name].dims == b.shape)
            && (IsDynamic(b) && max && b.maxProfile.Some? && AllPositive(b.maxProfile.value)
                ==> |b.maxProfile.value| == |b.shape| ==> s.tensors[b.name].dims == b.maxProfile.value)
  {
    hide NewTensor, Allocate, InputShape, Product, AllPositive, IsDynamic, Absent, Construct;
    var b, c := m.io[j], Normalised(config);
    EverythingAllocated(m, c.maxProfile, alloc, j);
    ShapesArePositive(m, map[], b, c.maxProfile);
    NewTensorTakes(b, InputShape(b, c.maxProfile), alloc(b.name));
    InputShapeFollows(b, c.maxProfile);
    InputIsAbsent(m, j);
    ConstructKeepsInput(m, config, alloc, b);
  }

  lemma ConstructKeepsInput(m: Model, config: Config, alloc: string -> Allocation, b: Binding)
    requires Absent(m, 0, b.name, true) && b.name in Allocate(m, Normalised(config).maxProfile, alloc).tensors
    ensures var a, s := Allocate(m, Normalised(config).maxProfile, alloc), Construct(m, config, alloc);
            b.name in s.tensors && s.tensors[b.name] == a.tensors[b.name]
  {
    hide Allocate, UpdateOutputShapes, BindIOAddresses, ResetCudaGraph, Absent;
    var a := Allocate(m, Normalised(config).maxProfile, alloc);
    UpdateKeepsOthers(m, false, a.ctx.shapes, a.tensors, a.ctx.addresses, 0, alloc);
  }

  // ── When an inference fits ───────────────────────────────────────────

  /** An inference goes past the end of a binding's buffer: it is launched with the tensor's own memory, which is
      smaller than the shape it is launched with there needs. */
  ghost predicate Overruns(m: Model, s: State, launch: Op, b: Binding) {
    && b in m.io && b.name in s.tensors && launch.Launch? && b.name in launch.addresses
    && launch.addresses[b.name] == s.tensors[b.name].mem.Address()
    && var q := ContextShape(m, launch.shapes, b.name);
       q.Some? && AllPositive(q.value)
       && Product(q.value) * s.tensors[b.name].elementSize > s.tensors[b.name].mem.capacity
  }

  /** The context infers, if anything concrete, all the axes the engine declares. */
  ghost predicate InfersAllAxes(m: Model, shapes: map<string, Dims>, b: Binding) {
    var q := ContextShape(m, shapes, b.name);
    q.Some? && AllPositive(q.value) ==> |q.value| == 0 || |q.value| >= |b.shape|
  }

  /** A constructed engine's outputs fit the shapes inferred for them. */
  lemma ConstructedOutputsFit(m: Model, config: Config, alloc: string -> Allocation, j: nat)
    requires WellFormed(m) && Supported(m) && AllGot(alloc) && j < |m.io| && !m.io[j].isInput
    requires InfersAllAxes(m, Construct(m, config, alloc).ctx.shapes, m.io[j])
    ensures var s := Construct(m, config, alloc); Fits(m, s.ctx.shapes, s.tensors, m.io[j])
  {
    var b, c := m.io[j], Normalised(config);
    var a := Allocate(m, c.maxProfile, alloc);
    var s := Construct(m, config, alloc);
    EverythingAllocated(m, c.maxProfile, alloc, j);
    ConstructGrows(m, config, alloc);
    hide Construct, Allocate;
    var q := ContextShape(m, a.ctx.shapes, b.name);
    if q.Some? && AllPositive(q.value) {
      OutputShapeFollows(m, a.ctx.shapes, b, c.maxProfile);
      NewTensorTakes(b, q.value, alloc(b.name));
    }
    assert Fits(m, a.ctx.shapes, a.tensors, b);
    hide NewTensor, OutputShape, Fits, AllGrew, AllSound;
    if s.tensors != a.tensors { GrownStillFits(m, a.ctx.shapes, a.tensors, s.tensors, b); }
  }

  lemma {:induction false} InputShapesSet(m: Model, s: Allocated, i: nat, maxProfile: bool,
                                          alloc: string -> Allocation)
    requires WellFormed(m)
    ensures var r := AllocateInputs(m, s, i, maxProfile, alloc).ctx.shapes;
            && (forall j | i <= j < |m.io| && m.io[j].isInput && IsDynamic(m.io[j])
                  && m.acceptsShape(m.io[j].name, InputShape(m.io[j], maxProfile)) ::
                  m.io[j].name in r && r[m.io[j].name] == InputShape(m.io[j], maxProfile))
            && (forall name | name in s.ctx.shapes && Absent(m, i, name, false) ::
                  name in r && r[name] == s.ctx.shapes[name])
    decreases |m.io| - i
  {
    if i < |m.io| {
      var b := m.io[i];
      var t := if b.isInput then AllocateInput(m, s, b, maxProfile, alloc(b.name)) else s;
      SetsItsShape(m, s, b, maxProfile, alloc(b.name));
      hide AllocateInput, InputShape, IsDynamic;
      InputShapesSet(m, t, i + 1, maxProfile, alloc);
      assert Absent(m, i + 1, b.name, false);
    }
  }

  lemma SetsItsShape(m: Model, s: Allocated, b: Binding, maxProfile: bool, a: Allocation)
    ensures AllocateInput(m, s, b, maxProfile, a).ctx.shapes
            == if IsDynamic(b) && m.acceptsShape(b.name, InputShape(b, maxProfile))
               then s.ctx.shapes[b.name := InputShape(b, maxProfile)] else s.ctx.shapes
  {
    hide NewTensor, InputShape, IsDynamic;
  }

  lemma InputShapeIsSet(m: Model, config: Config, alloc: string -> Allocation, j: nat)
    requires WellFormed(m) && Supported(m) && AllGot(alloc) && j < |m.io| && m.io[j].isInput && IsDynamic(m.io[j])
    requires m.acceptsShape(m.io[j].name, InputShape(m.io[j], Normalised(config).maxProfile))
    ensures ContextShape(m, Construct(m, config, alloc).ctx.shapes, m.io[j].name)
            == Some(InputShape(m.io[j], Normalised(config).maxProfile))
  {
    var max, empty := Normalised(config).maxProfile, Allocated(map[], Context(map[], map[]));
    InputShapesSet(m, empty, 0, max, alloc);
    OutputsAllocated(m, AllocateInputs(m, empty, 0, max, alloc), 0, max, alloc);
    ConstructGrows(m, config, alloc);
    hide Construct, InputShape, NewTensor, OutputShape, AllGrew, AllSound, AllocateInputs, AllocateOutputs, IsDynamic;
  }

  /** A constructed engine's dynamic inputs fit the shapes set for them, which are those they are allocated at. */
  lemma ConstructedInputsFit(m: Model, config: Config, alloc: string -> Allocation, j: nat)
    requires WellFormed(m) && Supported(m) && AllGot(alloc) && j < |m.io| && m.io[j].isInput && IsDynamic(m.io[j])
    requires m.acceptsShape(m.io[j].name, InputShape(m.io[j], Normalised(config).maxProfile))
    ensures var s, b := Construct(m, config, alloc), m.io[j];
            && b.name in s.tensors && ContextShape(m, s.ctx.shapes, b.name) == Some(s.tensors[b.name].dims)
            && Fits(m, s.ctx.shapes, s.tensors, b)
  {
    InputShapeIsSet(m, config, alloc, j);
    ConstructedInputs(m, config, alloc, j);
    hide Construct, InputShape, ContextShape, Product, IsDynamic, AllPositive;
  }

  lemma ConstructGrows(m: Model, config: Config, alloc: string -> Allocation)
    requires WellFormed(m) && Supported(m) && AllGot(alloc)
    ensures var a, s := Allocate(m, Normalised(config).maxProfile, alloc), Construct(m, config, alloc);
            AllSound(a.tensors) && s.ctx.shapes == a.ctx.shapes
            && (s.tensors == a.tensors || AllGrew(a.tensors, s.tensors))
  {
    var c := Normalised(config);
    var a := Allocate(m, c.maxProfile, alloc);
    AllocationEquips(m, c.maxProfile, alloc);
    EquippedIsSound(m, a.tensors, c.maxProfile);
    UpdateGrows(m, false, a.ctx.shapes, a.tensors, a.ctx.addresses, 0, alloc);
    hide Allocate, UpdateOutputShapes, BindIOAddresses, ResetCudaGraph, Equipped, AllSound, AllGrew;
  }

  lemma GrownStillFits(m: Model, shapes: map<string, Dims>, t: Tensors, u: Tensors, b: Binding)
    requires AllSound(t) && AllGrew(t, u) && Fits(m, shapes, t, b)
    ensures Fits(m, shapes, u, b)
  {
    hide Product, AllPositive, ContextShape, TensorState.Agrees;
  }

  lemma StepKeepsShapes(m: Model, s: State, c: Call)
    requires !c.BindShape? && !c.SwitchProfile?
    ensures Step(m, s, c).s.ctx.shapes == s.ctx.shapes
  {
    hide UpdateOutputShapes, TensorState.Resize, TensorState.Reshape, Product, AllPositive, HasDynamic, CopyIn, CopyOut,
         WaitInputs, BindIOAddresses, RecordOutputs, LaunchInference, CaptureOn, Snapshot, ResetCudaGraph, ContextShape;
  }

  /** While no shape or profile is changed, a binding that fits goes on fitting: over any run, capacities never
      shrink. */
  lemma {:induction false} RunKeepsFitting(m: Model, s: State, calls: seq<Call>, b: Binding)
    requires AllSound(s.tensors) && Fits(m, s.ctx.shapes, s.tensors, b)
    requires forall i | 0 <= i < |calls| :: AllocatesOk(calls[i]) && !calls[i].BindShape? && !calls[i].SwitchProfile?
    ensures var r := Run(m, s, calls); Fits(m, r.ctx.shapes, r.tensors, b)
    decreases |calls|
  {
    hide Step, AllocatesOk, Sound, Fits;
    if calls != [] {
      var n := |calls| - 1;
      RunKeepsFitting(m, s, calls[..n], b);
      RunGrows(m, s, calls[..n]);
      var t := Run(m, s, calls[..n]);
      StepGrows(m, t, calls[n]);
      StepKeepsShapes(m, t, calls[n]);
      GrownStillFits(m, t.ctx.shapes, t.tensors, Run(m, s, calls).tensors, b);
    }
  }

  /** A successful refresh makes every output fit, whatever shapes were set before. */
  lemma RefreshFits(m: Model, s: State, frozen: bool, alloc: string -> Allocation)
    requires WellFormed(m) && AllSound(s.tensors) && AllGot(alloc)
    requires UpdateOutputShapes(m, frozen, s.ctx.shapes, s.tensors, s.ctx.addresses, 0, alloc).ok
    ensures var u := UpdateOutputShapes(m, frozen, s.ctx.shapes, s.tensors, s.ctx.addresses, 0, alloc).tensors;
            forall j | 0 <= j < |m.io| && !m.io[j].isInput :: Fits(m, s.ctx.shapes, u, m.io[j])
  {
    var u := UpdateOutputShapes(m, frozen, s.ctx.shapes, s.tensors, s.ctx.addresses, 0, alloc).tensors;
    UpdateGrows(m, frozen, s.ctx.shapes, s.tensors, s.ctx.addresses, 0, alloc);
    forall j | 0 <= j < |m.io| && !m.io[j].isInput ensures Fits(m, s.ctx.shapes, u, m.io[j]) {
      RefreshedOutputsFollow(m, frozen, s.ctx.shapes, s.tensors, s.ctx.addresses, 0, alloc, j);
      FollowsFits(m, s.ctx.shapes, m.io[j], s.tensors, u);
    }
  }

  lemma FollowsFits(m: Model, shapes: map<string, Dims>, b: Binding, before: Tensors, after: Tensors)
    requires !b.isInput && AllSound(before) && AllGrew(before, after) && Follows(m, shapes, b, before, after)
    ensures Fits(m, shapes, after, b)
  {
    hide Product, ContextShape;
    if b.name in after { assert Grew(before[b.name], after[b.name]); }
  }

  // ── Exactly when a launch overruns a buffer ──────────────────────────

  /** After any run, the launch of a successful inference overruns a binding that has no override if and only if its
      tensor does not fit the shape the context has for it. That is so for inputs as well: SetInputData gives a tensor
      its data's shape and never tells the context. */
  lemma LaunchOverrunsIff(m: Model, config: Config, alloc: string -> Allocation, calls: seq<Call>, env: InferEnv,
                          b: Binding)
    returns (before: Program, launch: Op, after: Program)
    requires WellFormed(m) && Supported(m) && AllGot(alloc) && forall i | 0 <= i < |calls| :: AllocatesOk(calls[i])
    requires InferAsync(m, Run(m, Construct(m, config, alloc), calls), env).ok
    requires b in m.io && b.name !in Run(m, Construct(m, config, alloc), calls).user
    ensures var s := Run(m, Construct(m, config, alloc), calls);
            && InferAsync(m, s, env).s.log == s.log + before + [Item(ExecStream(s.mode), launch)] + after
            && (Overruns(m, s, launch, b) <==> !Fits(m, s.ctx.shapes, s.tensors, b))
  {
    before, launch, after := EngineInvariants.EveryLaunchUsesResolvedAddresses(m, config, alloc, calls, env);
    RunIsEquipped(m, config, alloc, calls);
    var s := Run(m, Construct(m, config, alloc), calls);
    assert Equips(b, s.tensors, Normalised(config).maxProfile);
    assert Sound(s.tensors[b.name]);
    hide Run, Construct, InferAsync, Product, AllPositive, ContextShape, InputShape;
  }

  /** The shapes a binding is allocated and launched with agree at construction: an input is dynamic and its shape
      accepted, for an output the context infers all axes. */
  ghost predicate AllocatedAsInferred(m: Model, config: Config, alloc: string -> Allocation, b: Binding) {
    if b.isInput then IsDynamic(b) && m.acceptsShape(b.name, InputShape(b, Normalised(config).maxProfile))
    else InfersAllAxes(m, Construct(m, config, alloc).ctx.shapes, b)
  }

  /** While the shapes stay as they were at construction, no inference overruns such a binding. */
  lemma UnchangedShapesNeverOverrun(m: Model, config: Config, alloc: string -> Allocation, calls: seq<Call>,
                                    env: InferEnv, b: Binding)
    returns (before: Program, launch: Op, after: Program)
    requires WellFormed(m) && Supported(m) && AllGot(alloc)
    requires forall i | 0 <= i < |calls| :: AllocatesOk(calls[i]) && !calls[i].BindShape? && !calls[i].SwitchProfile?
    requires InferAsync(m, Run(m, Construct(m, config, alloc), calls), env).ok
    requires b in m.io && b.name !in Run(m, Construct(m, config, alloc), calls).user
    requires AllocatedAsInferred(m, config, alloc, b)
    ensures var s := Run(m, Construct(m, config, alloc), calls);
            && InferAsync(m, s, env).s.log == s.log + before + [Item(ExecStream(s.mode), launch)] + after
            && !Overruns(m, s, launch, b)
  {
    var s := Construct(m, config, alloc);
    RunIsEquipped(m, config, alloc, []);
    EquippedIsSound(m, s.tensors, Normalised(config).maxProfile);
    var j :| 0 <= j < |m.io| && m.io[j] == b;
    if b.isInput { ConstructedInputsFit(m, config, alloc, j); } else { ConstructedOutputsFit(m, config, alloc, j); }
    hide Construct, Run, InferAsync, Overruns, Fits, InfersAllAxes, Equipped, Sound;
    RunKeepsFitting(m, s, calls, b);
    before, launch, after := LaunchOverrunsIff(m, config, alloc, calls, env, b);
  }

  // ── Whether an input is launched with the shape of its data ──────────

  ghost predicate Refills(c: Call, name: string) {
    c.SetInput? && c.name == name
  }

  /** Only SetInputData changes an input's tensor. */
  lemma StepKeepsInput(m: Model, s: State, c: Call, b: Binding)
    requires WellFormed(m) && b in m.io && b.isInput && b.name in s.tensors && !Refills(c, b.name)
    ensures var r := Step(m, s, c).s; b.name in r.tensors && r.tensors[b.name] == s.tensors[b.name]
  {
    assert Absent(m, 0, b.name, true);
    if c.Freeze? { UpdateKeepsOthers(m, false, s.ctx.shapes, s.tensors, s.ctx.addresses, 0, c.alloc); }
    if c.GetOutput? { EngineRounds.ReadKeepsInputs(m, s, c, b); }
    hide UpdateOutputShapes, MakeRoom, CopyIn, GetOutputData, WaitInputs, BindIOAddresses, RecordOutputs,
         LaunchInference, CaptureOn, Snapshot, ResetCudaGraph, AllPositive, HasDynamic, Product, Absent;
  }

  lemma {:induction false} RunKeepsInput(m: Model, s: State, calls: seq<Call>, b: Binding)
    requires WellFormed(m) && b in m.io && b.isInput && b.name in s.tensors
    requires forall i | 0 <= i < |calls| :: !Refills(calls[i], b.name)
    ensures var r := Run(m, s, calls); b.name in r.tensors && r.tensors[b.name] == s.tensors[b.name]
    decreases |calls|
  {
    hide Step, Refills;
    if calls != [] {
      var n := |calls| - 1;
      RunKeepsInput(m, s, calls[..n], b);
      StepKeepsInput(m, Run(m, s, calls[..n]), calls[n], b);
    }
  }

  /** The data last set stays in the tensor, in its own shape and size. */
  lemma LatestDataStays(m: Model, config: Config, alloc: string -> Allocation, calls: seq<Call>, k: nat, b: Binding,
                        data: Bytes, dims: Dims, fill: SetEnv)
    requires WellFormed(m) && Supported(m) && AllGot(alloc) && forall i | 0 <= i < |calls| :: AllocatesOk(calls[i])
    requires b in m.io && b.isInput && k < |calls| && calls[k] == SetInput(b.name, data, dims, fill)
    requires After(m, Construct(m, config, alloc), calls, k).ok
    requires forall i | k < i < |calls| :: !Refills(calls[i], b.name)
    ensures var s := Run(m, Construct(m, config, alloc), calls);
            b.name in s.tensors && s.tensors[b.name].dims == dims && s.tensors[b.name].byteSize == |data|
  {
    var start := Construct(m, config, alloc);
    var before := calls[..k];
    RunIsEquipped(m, config, alloc, before);
    EquippedIsSound(m, Run(m, start, before).tensors, Normalised(config).maxProfile);
    hide Construct, Run, SetInputData, Equipped, Sound, AllocatesOk;
    InputTakesShape(m, Run(m, start, before), b.name, data, dims, fill);
    RunAfter(m, start, calls, k);
    var rest := calls[k + 1..];
    assert forall i | 0 <= i < |rest| :: rest[i] == calls[k + 1 + i];
    RunKeepsInput(m, After(m, start, calls, k).s, rest, b);
  }

  /** An inference is launched with the shape last set by SetBindingShape and finds data of the shape last set by
      SetInputData, so the two agree exactly when the caller made the same shape of both calls. */
  lemma LaunchedAsSetIff(m: Model, config: Config, alloc: string -> Allocation, calls: seq<Call>, n: nat, k: nat,
                         b: Binding, shape: Dims, data: Bytes, dims: Dims, fill: SetEnv, env: InferEnv)
    returns (before: Program, launch: Op, after: Program)
    requires WellFormed(m) && Supported(m) && AllGot(alloc) && forall i | 0 <= i < |calls| :: AllocatesOk(calls[i])
    requires b in m.io && b.isInput && n < |calls| && calls[n] == BindShape(b.name, shape)
    requires k < |calls| && calls[k] == SetInput(b.name, data, dims, fill)
    requires After(m, Construct(m, config, alloc), calls, n).ok && After(m, Construct(m, config, alloc), calls, k).ok
    requires forall i | n < i < |calls| :: !Reshapes(calls[i], b.name)
    requires forall i | k < i < |calls| :: !Refills(calls[i], b.name)
    requires InferAsync(m, Run(m, Construct(m, config, alloc), calls), env).ok
    ensures var s := Run(m, Construct(m, config, alloc), calls);
            && InferAsync(m, s, env).s.log == s.log + before + [Item(ExecStream(s.mode), launch)] + after
            && launch.Launch? && b.name in launch.shapes && b.name in s.tensors
            && s.tensors[b.name].byteSize == |data|
            && (launch.shapes[b.name] == s.tensors[b.name].dims <==> shape == dims)
  {
    LatestDataStays(m, config, alloc, calls, k, b, data, dims, fill);
    before, launch, after := LatestShapeIsLaunched(m, config, alloc, calls, n, b.name, shape, env);
    hide Construct, Run, InferAsync, After;
  }
}
