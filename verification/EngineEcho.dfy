/** Runs from construction that break a promise, on a small engine: one dynamic input and one output of its shape. */
module EngineEcho {
  import opened Streams
  import opened CudaMemory
  import opened TensorModel
  import opened EngineSpec
  import opened EngineCapacity
  import opened EngineShapes
  import opened EngineBuffers
  import opened EngineDelivery
  import EngineInvariants
  import EngineRecapture
  import EngineRounds
  import HostSchedules
  import EngineFrees
  import opened EngineSchedules

  function X(profile: Option<Dims>): Binding {
    Binding("x", true, Float, false, [-1], profile)
  }

  const Y := Binding("y", false, Float, false, [-1], None)

  /** One dynamic input, with or without a profile, and one output of the same shape. */
  function Echo(profile: Option<Dims>): Model {
    Model([X(profile), Y], ["x", "y"], (shapes, name) => if "x" in shapes then Some(shapes["x"]) else None,
          (name, dims) => true, (name, p) => true)
  }

  const Plain := Config(false, false, false, false)
  const Full := Config(true, true, true, true)

  lemma EchoIsWellFormed(profile: Option<Dims>)
    ensures WellFormed(Echo(profile)) && Supported(Echo(profile))
    ensures IsDynamic(X(profile)) && HasDynamic(Echo(profile)) && EngineRounds.Accepting(Echo(profile))
  {
    var m := Echo(profile);
    assert m.order[0] == "x" && m.order[1] == "y";
    assert X(profile).shape[0] < 0;
    assert m.io[0] == X(profile);
  }

  /** Both tensors are allocated for the profile's elements, or for one. */
  lemma EchoAllocates(profile: Option<Dims>, max: bool, n: int, alloc: string -> Allocation)
    requires AllGot(alloc) && n > 0 && InputShape(X(profile), max) == [n]
    ensures var m := Echo(profile); var a := Allocate(m, max, alloc);
            && a.ctx.shapes == map["x" := [n]] && a.tensors.Keys == {"x", "y"}
            && a.tensors["x"] == NewTensor(X(profile), [n], alloc("x"))
            && a.tensors["y"] == NewTensor(Y, [n], alloc("y"))
  {
    var m := Echo(profile);
    var empty := Allocated(map[], Context(map[], map[]));
    EchoIsWellFormed(profile);
    EchoInputs(profile, max, n, alloc);
    var a := AllocateInputs(m, empty, 0, max, alloc);
    assert ContextShape(m, a.ctx.shapes, "y") == Some([n]);
    OutputShapeFollows(m, a.ctx.shapes, Y, max);
    hide NewTensor, AllocateInputs, InputShape, OutputShape, MemState.Address;
    assert AllocateOutputs(m, a, 1, max, alloc) == AddTensor(m, a, Y, [n], alloc("y")) by {
      assert AllocateOutputs(m, AddTensor(m, a, Y, [n], alloc("y")), 2, max, alloc)
             == AddTensor(m, a, Y, [n], alloc("y"));
    }
  }

  lemma EchoInputs(profile: Option<Dims>, max: bool, n: int, alloc: string -> Allocation)
    requires n > 0 && InputShape(X(profile), max) == [n]
    ensures var a := AllocateInputs(Echo(profile), Allocated(map[], Context(map[], map[])), 0, max, alloc);
            a.ctx.shapes == map["x" := [n]] && a.tensors == map["x" := NewTensor(X(profile), [n], alloc("x"))]
  {
    var m, x := Echo(profile), X(profile);
    var empty := Allocated(map[], Context(map[], map[]));
    EchoIsWellFormed(profile);
    var s1 := AllocateInput(m, empty, x, max, alloc("x"));
    AllocateInputAdds(m, empty, x, max, alloc("x"));
    SetsItsShape(m, empty, x, max, alloc("x"));
    hide NewTensor, AllocateInput, InputShape;
    assert AllocateInputs(m, s1, 2, max, alloc) == s1;
    assert AllocateInputs(m, s1, 1, max, alloc) == s1;
  }

  lemma ProductOfOne(n: int)
    ensures Product([n]) == n
  {
    assert [n][..0] == [];
    assert Product([n]) == Product([]) * n;
  }

  /** A tensor for n floats. */
  ghost predicate Holds(t: TensorState, n: int, a: Allocation, isInput: bool) {
    Sound(t) && t.dims == [n] && t.elementSize == 4 && t.capacity == t.byteSize == 4 * n && t.isInput == isInput
    && a.Got? && t.mem.Address() == a.ptr && t.mem.kind == Device && t.mem.pooled == a.pooled
  }

  lemma NewTensorHolds(b: Binding, n: int, a: Allocation)
    requires a.Got? && n > 0 && b.dtype == Float && !b.hostLocated
    ensures Holds(NewTensor(b, [n], a), n, a, b.isInput)
  {
    ProductOfOne(n);
    PositiveShape([n]);
    NewTensorTakes(b, [n], a);
    NewTensorIsSound(b, [n], a);
    hide Product, Elements, FirstNegative;
  }

  /** Both tensors are for n elements, in the memory the allocator gave, and the input's shape is set. */
  ghost predicate Sized(shapes: map<string, Dims>, tensors: Tensors, n: int, alloc: string -> Allocation) {
    && shapes == map["x" := [n]] && tensors.Keys == {"x", "y"}
    && Holds(tensors["x"], n, alloc("x"), true) && Holds(tensors["y"], n, alloc("y"), false)
  }

  lemma EchoIsSized(profile: Option<Dims>, max: bool, n: int, alloc: string -> Allocation)
    requires AllGot(alloc) && n > 0 && InputShape(X(profile), max) == [n]
    ensures var a := Allocate(Echo(profile), max, alloc); Sized(a.ctx.shapes, a.tensors, n, alloc)
  {
    EchoAllocates(profile, max, n, alloc);
    NewTensorHolds(X(profile), n, alloc("x"));
    NewTensorHolds(Y, n, alloc("y"));
    hide Allocate, NewTensor, InputShape, Holds;
  }

  /** A fresh engine with tensors for n elements. */
  ghost predicate Started(s: State, n: int, alloc: string -> Allocation) {
    && Sized(s.ctx.shapes, s.tensors, n, alloc) && s.user == map[] && s.log == [] && s.mode.loaded
    && s.cache.ledger.execs == 0 && s.cache.graph == NoGraph
  }

  lemma SizedIsSound(tensors: Tensors, n: int, alloc: string -> Allocation)
    requires Sized(map["x" := [n]], tensors, n, alloc)
    ensures AllSound(tensors)
  {
  }

  /** An engine that is not frozen, its tensors for one element. */
  lemma PlainEcho(alloc: string -> Allocation)
    requires AllGot(alloc)
    ensures var m := Echo(None); var s := Construct(m, Plain, alloc);
            Started(s, 1, alloc) && EngineInvariants.Inv(m, s) && !s.mode.frozen
  {
    EchoIsWellFormed(None);
    assert Concrete([-1]) == [1];
    EchoIsSized(None, false, 1, alloc);
    EngineInvariants.ConstructEstablishes(Echo(None), Plain, alloc);
    hide Allocate, EngineInvariants.Inv, Sized;
  }

  const Profile := Some([4])

  /** Refreshing a tensor that has the inferred shape keeps it. */
  lemma RefreshKeepsHolding(n: int, t: Tensors, addresses: map<string, Ptr>, alloc: string -> Allocation)
    requires n > 0 && Sized(map["x" := [n]], t, n, alloc)
    ensures var shapes := map["x" := [n]];
            var r := UpdateOutputShapes(Echo(Profile), false, shapes, t, addresses, 0, alloc);
            r.ok && r.addresses == addresses && Sized(shapes, r.tensors, n, alloc)
  {
    var m, shapes, y := Echo(Profile), map["x" := [n]], t["y"];
    ProductOfOne(n);
    ReshapeIff(y, [n]);
    ReshapeGrows(y, [n]);
    EngineInvariants.ReshapeKeepsMemory(y, [n]);
    hide Product, TensorState.Reshape, TensorState.Agrees, MemState.Address;
    var u := t["y" := y.Reshape([n]).0];
    assert UpdateOutput(m, false, shapes, Y, t, addresses, alloc("y")) == Updated(u, addresses, true);
    assert UpdateOutputShapes(m, false, shapes, u, addresses, 2, alloc) == Updated(u, addresses, true);
    assert UpdateOutputShapes(m, false, shapes, t, addresses, 1, alloc) == Updated(u, addresses, true);
  }

  /** A frozen engine with graphs, its tensors for the four elements of the profile. */
  lemma FrozenEcho(alloc: string -> Allocation)
    requires AllGot(alloc)
    ensures var s := Construct(Echo(Profile), Full, alloc); Started(s, 4, alloc) && s.mode.frozen && s.mode.enabled
  {
    var m := Echo(Profile);
    var a := Allocate(m, true, alloc);
    EchoIsWellFormed(Profile);
    assert InputShape(X(Profile), true) == [4];
    EchoIsSized(Profile, true, 4, alloc);
    assert a.ctx.shapes == map["x" := [4]];
    RefreshKeepsHolding(4, a.tensors, a.ctx.addresses, alloc);
    var u := UpdateOutputShapes(m, false, a.ctx.shapes, a.tensors, a.ctx.addresses, 0, alloc);
    EngineRounds.BindsSucceed(m, u.tensors, map[], u.addresses, 0);
    hide Allocate, InputShape, Sized, UpdateOutputShapes, BindIOAddresses;
  }

  // ── Two captures ─────────────────────────────────────────────────────

  /** Setting the input's shape to two elements, as the first call. */
  lemma SetsTwo(profile: Option<Dims>, s: State)
    requires s.mode.loaded && s.cache.graph == NoGraph
    ensures var r := Run(Echo(profile), s, [BindShape("x", [2])]);
            r.tensors == s.tensors && r.mode == s.mode && r.ctx.shapes == s.ctx.shapes["x" := [2]] && r.user == s.user
            && r.cache.graph == NoGraph && r.cache.ledger.execs == s.cache.ledger.execs && r.log == s.log
  {
    EchoIsWellFormed(profile);
    assert [BindShape("x", [2])][..0] == [];
    assert AllPositive([2]);
    hide HasDynamic;
  }

  /** A frozen engine whose shape is made smaller, run with an inference, a read and an inference, captures twice. */
  lemma TwoCapturesHappen(alloc: string -> Allocation, dst: nat, size: nat, read: GetEnv)
    returns (before: seq<Call>, loop: seq<Call>)
    requires AllGot(alloc)
    ensures var m := Echo(Profile); var s := Run(m, Construct(m, Full, alloc), before);
            && before == [BindShape("x", [2])]
            && loop == [Infer(EngineRounds.Yes), GetOutput("y", dst, size, read), Infer(EngineRounds.Yes)]
            && EngineRecapture.CanCapture(s) && !s.cache.graph.captured
            && Run(m, s, loop).cache.ledger.execs == s.cache.ledger.execs + 2
  {
    var m := Echo(Profile);
    before := [BindShape("x", [2])];
    loop := [Infer(EngineRounds.Yes), GetOutput("y", dst, size, read), Infer(EngineRounds.Yes)];
    var start := Construct(m, Full, alloc);
    EchoIsWellFormed(Profile);
    FrozenEcho(alloc);
    SetsTwo(Profile, start);
    EngineRecapture.ReachedMatches(m, Full, alloc, before);
    var s := Run(m, start, before);
    hide Construct, Run, HasDynamic;
    StaleEcho(s, alloc);
    hide EngineRecapture.Stale, Sized;
    EngineRecapture.SecondCaptureIff(m, s, EngineRounds.Yes, "y", dst, size, read, EngineRounds.Yes);
  }

  /** Shape two is set, and the output's tensor is for four elements. */
  lemma StaleEcho(s: State, alloc: string -> Allocation)
    requires s.ctx.shapes == map["x" := [2]] && Sized(map["x" := [4]], s.tensors, 4, alloc)
    ensures EngineRecapture.Stale(Echo(Profile), s)
    ensures "y" in s.tensors && !s.tensors["y"].isInput
  {
    var m := Echo(Profile);
    EchoIsWellFormed(Profile);
    ProductOfOne(2);
    assert ChangesShape(m, s.ctx.shapes, s.tensors, m.io[1]) by { hide Product; }
    assert Reaches(m, true, s.ctx.shapes, s.tensors, 0, 1, EngineRecapture.NoMemory);
    hide ChangesShape, Sized, HasDynamic, Reaches;
  }

  // ── Launches that overrun ────────────────────────────────────────────

  /** An engine made for one element and told of two. */
  lemma ToldOfTwo(alloc: string -> Allocation) returns (calls: seq<Call>)
    requires AllGot(alloc)
    ensures var m := Echo(None); var s := Run(m, Construct(m, Plain, alloc), calls);
            && calls == [BindShape("x", [2])] && EngineInvariants.Inv(m, s) && InferAsync(m, s, EngineRounds.Yes).ok
            && s.ctx.shapes == map["x" := [2]] && Sized(map["x" := [1]], s.tensors, 1, alloc) && s.user == map[]
            && s.mode.loaded && !s.mode.frozen
  {
    hide Echo, Construct, Run, EngineInvariants.Inv, Holds, InferAsync, HasDynamic, WellFormed, Supported;
    var m := Echo(None);
    calls := [BindShape("x", [2])];
    var start := Construct(m, Plain, alloc);
    EchoIsWellFormed(None);
    PlainEcho(alloc);
    SetsTwo(None, start);
    EngineInvariants.RunKeeps(m, start, calls);
    EngineRounds.InferSucceeds(m, Run(m, start, calls));
  }

  lemma TwoDoNotFit(shapes: map<string, Dims>, tensors: Tensors, b: Binding, a: Allocation)
    requires shapes == map["x" := [2]] && b in Echo(None).io && b.name in tensors
    requires Holds(tensors[b.name], 1, a, b.isInput)
    ensures !Fits(Echo(None), shapes, tensors, b)
  {
    ProductOfOne(2);
    assert b == X(None) || b == Y;
    hide Product, TensorState.Agrees;
  }

  lemma NeitherFits(shapes: map<string, Dims>, tensors: Tensors, b: Binding, alloc: string -> Allocation)
    requires shapes == map["x" := [2]] && Sized(map["x" := [1]], tensors, 1, alloc) && b in Echo(None).io
    ensures b.name in tensors && !Fits(Echo(None), shapes, tensors, b)
  {
    assert b == X(None) || b == Y;
    TwoDoNotFit(shapes, tensors, b, alloc(b.name));
    hide Fits;
  }

  /** The output has room for one element. */
  ghost predicate OutputOfOne(tensors: Tensors, a: Allocation) {
    AllSound(tensors) && tensors.Keys == {"x", "y"} && Holds(tensors["y"], 1, a, false)
  }

  /** Setting a larger shape and inferring at once, without a freeze or a read in between, launches into an output, and
      from an input, with room for half of what the shape needs; whatever the allocator gave. */
  lemma LargerShapeOverruns(alloc: string -> Allocation, b: Binding)
    returns (calls: seq<Call>, before: Program, launch: Op, after: Program)
    requires AllGot(alloc) && b in Echo(None).io
    ensures var m := Echo(None); var s := Run(m, Construct(m, Plain, alloc), calls);
            && calls == [BindShape("x", [2])] && InferAsync(m, s, EngineRounds.Yes).ok
            && InferAsync(m, s, EngineRounds.Yes).s.log
              == s.log + before + [Item(ExecStream(s.mode), launch)] + after
            && Overruns(m, s, launch, b)
  {
    hide Echo, HasDynamic, WellFormed, Supported, Construct, Run, InferAsync, EngineInvariants.Inv, Overruns, Fits,
         Sized;
    var m := Echo(None);
    EchoIsWellFormed(None);
    calls := ToldOfTwo(alloc);
    var s := Run(m, Construct(m, Plain, alloc), calls);
    NeitherFits(s.ctx.shapes, s.tensors, b, alloc);
    before, launch, after := LaunchOverrunsIff(m, Plain, alloc, calls, EngineRounds.Yes, b);
  }

  // ── Copies that miss the launch ──────────────────────────────────────

  lemma SetsAddress(s: State, p: Ptr)
    requires s.mode.loaded && !s.mode.frozen
    ensures var r := Run(Echo(None), s, [BindAddress("x", p)]);
            r.tensors == s.tensors && r.mode == s.mode && r.user == s.user["x" := p] && r.log == s.log
  {
    assert [BindAddress("x", p)][..0] == [];
    hide ResetCudaGraph;
  }

  /** With the input at an address of the user's, data set is copied elsewhere and the inference is launched with an
      address that holds what it held at first. */
  lemma OverrideMissesData(alloc: string -> Allocation, p: Ptr, data: Bytes, a: Allocation, k: Kernel, w: World)
    returns (calls: seq<Call>, fill: SetEnv)
    requires AllGot(alloc) && p != alloc("x").ptr && |data| == 4 && a.Got?
    ensures var m := Echo(None); var s := Run(m, Construct(m, Plain, alloc), calls);
            var r := SetInputData(m, s, "x", data, [1], fill);
            && calls == [BindAddress("x", p)] && r.ok && InferAsync(m, r.s, EngineRounds.Yes).ok
            && "x" in EngineInvariants.LaunchContext(m, r.s).addresses
            && LaunchAddress(m, r.s, "x") == p && At(InOrder(k, r.s.log, w).mem, p) == At(w.mem, p)
  {
    var m := Echo(None);
    calls, fill := [BindAddress("x", p)], SetEnv(a, true, true);
    var start := Construct(m, Plain, alloc);
    PlainEcho(alloc);
    SetsAddress(start, p);
    EngineInvariants.RunKeeps(m, start, calls);
    var s := Run(m, start, calls);
    hide Construct, Run, EngineInvariants.Inv;
    FillsElsewhere(s, p, data, fill, alloc, k, w);
  }

  lemma FillsTensor(s: State, data: Bytes, fill: SetEnv, alloc: string -> Allocation)
    requires Sized(map["x" := [1]], s.tensors, 1, alloc) && |data| == 4
    requires fill.alloc.Got? && fill.copyOk && fill.recordOk
    ensures var r := SetInputData(Echo(None), s, "x", data, [1], fill);
            && r.ok && "x" in r.s.tensors && r.s.tensors["x"].mem == s.tensors["x"].mem
            && r.s.log == s.log + [Item(Internal, Upload(alloc("x").ptr, data)), Item(Internal, Record(s.events.next))]
  {
    var m := Echo(None);
    ProductOfOne(1);
    SizedIsSound(s.tensors, 1, alloc);
    assert AllPositive([1]);
    assert HasRoom(m, s, "x", s.tensors["x"], [1], fill.alloc);
    hide SetInputData, Product, HasRoom, AllPositive, Sound;
    SetInputSucceedsIff(m, s, "x", data, [1], fill);
    EngineRounds.FittingInputStays(m, s, "x", data, [1], fill);
  }

  lemma ArrivesThere(k: Kernel, up: Item, record: Item, p: Ptr, w: World)
    requires up.op.Upload? && record.op.Record? && up.op.ptr != p
    ensures At(InOrder(k, [up, record], w).mem, p) == At(w.mem, p)
  {
    assert [up, record] == [] + [up] + [record];
    HostSchedules.InOrderAppend(k, [], up, w);
    HostSchedules.InOrderAppend(k, [] + [up], record, w);
  }

  lemma FillsElsewhere(s: State, p: Ptr, data: Bytes, fill: SetEnv, alloc: string -> Allocation, k: Kernel, w: World)
    requires EngineInvariants.Inv(Echo(None), s) && Sized(map["x" := [1]], s.tensors, 1, alloc) && s.log == []
    requires s.mode.loaded && "x" in s.user && s.user["x"] == p != alloc("x").ptr && |data| == 4
    requires fill.alloc.Got? && fill.copyOk && fill.recordOk
    ensures var m := Echo(None); var r := SetInputData(m, s, "x", data, [1], fill);
            && r.ok && InferAsync(m, r.s, EngineRounds.Yes).ok
            && "x" in EngineInvariants.LaunchContext(m, r.s).addresses
            && LaunchAddress(m, r.s, "x") == p && At(InOrder(k, r.s.log, w).mem, p) == At(w.mem, p)
  {
    var m := Echo(None);
    var r := SetInputData(m, s, "x", data, [1], fill).s;
    FillsTensor(s, data, fill, alloc);
    EngineInvariants.SetInputKeeps(m, s, "x", data, [1], fill);
    EngineInvariants.SetInputChanges(m, s, "x", data, [1], fill);
    hide SetInputData, InOrder, InferAsync, EngineInvariants.Inv, LaunchAddress, EngineInvariants.LaunchContext, Sized;
    EngineRounds.InferSucceeds(m, r);
    LaunchAddressIsResolved(m, r, EngineRounds.Yes, "x");
    ArrivesThere(k, Item(Internal, Upload(alloc("x").ptr, data)), Item(Internal, Record(s.events.next)), p, w);
  }

  /** With a shape too large for the output, the read grows it and copies from new memory, not from where the inference
      wrote its result. */
  lemma GrowthMissesResult(alloc: string -> Allocation, more: string -> Allocation, dst: nat, k: Kernel, w: World)
    returns (calls: seq<Call>, read: GetEnv, launch: Op)
    requires AllGot(alloc) && AllGot(more) && more("y").ptr != alloc("y").ptr
    ensures var m := Echo(None); var s := Run(m, Construct(m, Plain, alloc), calls);
            var s1 := InferAsync(m, s, EngineRounds.Yes); var s2 := GetOutputData(m, s1.s, "y", dst, 8, read);
            && calls == [BindShape("x", [2])] && s1.ok && s2.ok
            && launch.Launch? && "y" in launch.addresses && launch.addresses["y"] == alloc("y").ptr
            && At(InOrder(k, s2.s.log, w).host, dst)
              == At(k(launch.shapes, launch.addresses, InOrder(k, s.log, w).mem), more("y").ptr)
  {
    var m := Echo(None);
    EchoIsWellFormed(None);
    calls := ToldOfTwo(alloc);
    read := GetEnv(more, true, true);
    var s := Run(m, Construct(m, Plain, alloc), calls);
    hide Construct, Run, EngineInvariants.Inv;
    launch := GrowsAndMisses(s, alloc, dst, read, k, w);
  }

  lemma InferKeepsRest(m: Model, s: State, env: InferEnv)
    ensures var r := InferAsync(m, s, env).s;
            r.tensors == s.tensors && r.mode == s.mode && r.ctx.shapes == s.ctx.shapes && r.user == s.user
  {
    hide WaitInputs, BindIOAddresses, LaunchInference, RecordOutputs;
  }

  /** A read of eight bytes makes the output large enough for two elements. */
  lemma RefreshOfTwo(t: Tensors, addresses: map<string, Ptr>, a: Allocation, more: string -> Allocation)
    requires OutputOfOne(t, a) && AllGot(more)
    ensures var r := UpdateOutputShapes(Echo(None), false, map["x" := [2]], t, addresses, 0, more);
            r.tensors["y"].byteSize == 8
  {
    var m, shapes := Echo(None), map["x" := [2]];
    TwoDoNotFit(shapes, t, Y, a);
    ProductOfOne(2);
    var r := UpdateOutput(m, false, shapes, Y, t, addresses, more("y"));
    UpdateOutputOkIff(m, false, shapes, Y, t, addresses, more("y"));
    if r.ok { UpdatedFollows(m, false, shapes, Y, t, addresses, more("y")); }
    hide UpdateOutput, Product, Sound;
    assert UpdateOutputShapes(m, false, shapes, r.tensors, r.addresses, 2, more)
           == Updated(r.tensors, r.addresses, true);
    assert UpdateOutputShapes(m, false, shapes, t, addresses, 1, more) == r;
  }

  lemma ReadOfTwo(s: State, a: Allocation, dst: nat, read: GetEnv)
    requires s.ctx.shapes == map["x" := [2]] && OutputOfOne(s.tensors, a) && s.mode.loaded
    requires !s.mode.frozen && "y" in s.events.outputs && AllGot(read.alloc) && read.waitOk && read.copyOk
    ensures GetOutputData(Echo(None), s, "y", dst, 8, read).ok && GrownByRead(Echo(None), s, 1, read.alloc)
  {
    var m := Echo(None);
    TwoDoNotFit(s.ctx.shapes, s.tensors, Y, a);
    RefreshOfTwo(s.tensors, s.ctx.addresses, a, read.alloc);
    assert Reaches(m, false, s.ctx.shapes, s.tensors, 0, 1, read.alloc);
    hide GetOutputData, UpdateOutputShapes, Fits, Sound, Reaches;
    GetOutputSucceedsIff(m, s, "y", dst, 8, read);
  }

  lemma GrowsAndMisses(s: State, alloc: string -> Allocation, dst: nat, read: GetEnv, k: Kernel, w: World)
    returns (launch: Op)
    requires EngineInvariants.Inv(Echo(None), s) && InferAsync(Echo(None), s, EngineRounds.Yes).ok
    requires s.ctx.shapes == map["x" := [2]] && Sized(map["x" := [1]], s.tensors, 1, alloc) && s.user == map[]
    requires s.mode.loaded && !s.mode.frozen
    requires AllGot(read.alloc) && read.waitOk && read.copyOk && read.alloc("y").ptr != alloc("y").ptr
    ensures "y" in s.tensors && s.tensors["y"].mem.Address() == alloc("y").ptr
    ensures var m := Echo(None); var s1 := InferAsync(m, s, EngineRounds.Yes).s;
            var s2 := GetOutputData(m, s1, "y", dst, 8, read);
            && s2.ok && launch.Launch? && "y" in launch.addresses && launch.addresses["y"] == alloc("y").ptr
            && At(InOrder(k, s2.s.log, w).host, dst)
              == At(k(launch.shapes, launch.addresses, InOrder(k, s.log, w).mem), read.alloc("y").ptr)
  {
    var m := Echo(None);
    EchoIsWellFormed(None);
    SizedIsSound(s.tensors, 1, alloc);
    var s1 := InferAsync(m, s, EngineRounds.Yes).s;
    var waits, item, records := EngineRounds.InferIssues(m, s, EngineRounds.Yes);
    InferKeepsRest(m, s, EngineRounds.Yes);
    hide InferAsync, EngineInvariants.Inv, EngineInvariants.LaunchContext;
    ReadOfTwo(s1, alloc("y"), dst, read);
    ReadAddressIff(m, s1, 1, read.alloc);
    hide GetOutputData, Sized, Sound, GrownByRead, ReadAddress, RefreshForRead;
    launch := ReadDeliversIff(m, s, EngineRounds.Yes, 1, dst, 8, read, k, w);
  }

  // ── A free that does not wait ────────────────────────────────────────

  const Used := {"x", "y"}

  lemma EchoIsOnDevice()
    ensures DeviceLocated(Echo(None), Used)
  {
  }

  function FirstFill(data: Bytes): Call {
    SetInput("x", data, [1], SetEnv(Got(1, true), true, true))
  }

  /** A stream of the user's, an input, and a larger shape. */
  lemma ThreeSteps(s: State, data: Bytes, alloc: string -> Allocation)
    requires Started(s, 1, alloc) && !s.mode.frozen && |data| == 4 && EngineInvariants.Inv(Echo(None), s)
    ensures var m := Echo(None); var s1 := Step(m, s, UseStream(7)).s; var s2 := Step(m, s1, FirstFill(data));
            var s3 := Step(m, s2.s, BindShape("x", [2])).s;
            && Step(m, s, UseStream(7)).ok && s2.ok && Step(m, s2.s, BindShape("x", [2])).ok
            && s3.ctx.shapes == map["x" := [2]] && OutputOfOne(s3.tensors, alloc("y")) && s3.mode.loaded
            && !s3.mode.frozen && ExecStream(s3.mode) == Stream(7) && EngineInvariants.Inv(m, s3)
  {
    hide Holds, SetInputData, HasDynamic, Sized, OutputOfOne, EngineInvariants.Inv, ResetCudaGraph;
    var m := Echo(None);
    var s1 := Step(m, s, UseStream(7)).s;
    FillsTensor(s1, data, FirstFill(data).setEnv, alloc) by { OneElement(s, alloc); }
    FilledOfOne(s1, data, FirstFill(data).setEnv, alloc);
    var s2 := Step(m, s1, FirstFill(data)).s;
    ToldTwo(s2) by { OneElement(s, alloc); }
    EngineInvariants.StepKeeps(m, s, UseStream(7));
    EngineInvariants.StepKeeps(m, s1, FirstFill(data));
    EngineInvariants.StepKeeps(m, s2, BindShape("x", [2]));
  }

  lemma OneElement(s: State, alloc: string -> Allocation)
    requires Sized(s.ctx.shapes, s.tensors, 1, alloc)
    ensures s.ctx.shapes == map["x" := [1]]
  {
  }

  /** Those calls and an inference, as a run of the loop. */
  lemma BeforeTheRead(alloc: string -> Allocation, data: Bytes) returns (calls: seq<Call>)
    requires AllGot(alloc) && |data| == 4
    ensures var m := Echo(None); var start := Construct(m, Plain, alloc); var s := Run(m, start, calls);
            && EngineRounds.LoopRun(m, start, calls, Used) && PhaseAfter(m, start, calls) == Some(Inferred)
            && (forall i | 0 <= i < |calls| :: !calls[i].Freeze?)
            && s.ctx.shapes == map["x" := [2]] && OutputOfOne(s.tensors, alloc("y")) && s.mode.loaded && !s.mode.frozen
            && "y" in s.events.outputs && ExecStream(s.mode) == Stream(7)
  {
    hide Construct, Run, PhaseAfter, EngineRounds.LoopRun, EngineInvariants.Inv, InferAsync, SetInputData, OutputOfOne,
         SetBindingShape, SetStream, HasDynamic, WellFormed, Supported, Sized;
    var m := Echo(None);
    var start := Construct(m, Plain, alloc);
    EchoIsWellFormed(None);
    PlainEcho(alloc);
    ThreeSteps(start, data, alloc);
    var c1, c2, c3, c4 := UseStream(7), FirstFill(data), BindShape("x", [2]), Infer(EngineRounds.Yes);
    var s1 := Step(m, start, c1).s;
    var s2 := Step(m, s1, c2).s;
    var s3 := Step(m, s2, c3).s;
    EngineRounds.InferSucceeds(m, s3);
    InferOfTwo(s3, alloc("y"));
    hide Step;
    EngineRounds.NoCalls(m, start, Used);
    EngineRounds.Extend(m, start, [], c1, Used);
    EngineRounds.Extend(m, start, [] + [c1], c2, Used);
    EngineRounds.Extend(m, start, [] + [c1] + [c2], c3, Used);
    EngineRounds.Extend(m, start, [] + [c1] + [c2] + [c3], c4, Used);
    calls := [] + [c1] + [c2] + [c3] + [c4];
  }

  lemma InferOfTwo(s: State, a: Allocation)
    requires EngineInvariants.Inv(Echo(None), s) && InferAsync(Echo(None), s, EngineRounds.Yes).ok
    requires OutputOfOne(s.tensors, a)
    ensures var r := InferAsync(Echo(None), s, EngineRounds.Yes).s;
            && r.tensors == s.tensors && r.mode == s.mode && r.ctx.shapes == s.ctx.shapes && "y" in r.events.outputs
  {
    hide InferAsync, EngineInvariants.Inv, EngineInvariants.LaunchContext;
    InferKeepsRest(Echo(None), s, EngineRounds.Yes);
    var waits, item, records := EngineRounds.InferIssues(Echo(None), s, EngineRounds.Yes);
  }

  lemma ToldTwo(s: State)
    requires s.mode.loaded && !s.mode.frozen && s.ctx.shapes == map["x" := [1]]
    ensures Step(Echo(None), s, BindShape("x", [2])).ok
    ensures var r := Step(Echo(None), s, BindShape("x", [2])).s;
            r.ctx.shapes == map["x" := [2]] && r.tensors == s.tensors && r.mode == s.mode
  {
    assert AllPositive([2]);
    hide HasDynamic;
  }

  /** Setting the input leaves the output as it was. */
  lemma FilledOfOne(s: State, data: Bytes, fill: SetEnv, alloc: string -> Allocation)
    requires Sized(s.ctx.shapes, s.tensors, 1, alloc) && |data| == 4
    requires fill.alloc.Got? && fill.copyOk && fill.recordOk
    ensures var r := SetInputData(Echo(None), s, "x", data, [1], fill).s;
            OutputOfOne(r.tensors, alloc("y")) && r.mode == s.mode && r.ctx.shapes == s.ctx.shapes
  {
    hide SetInputData, HasRoom, AllPositive, Product, TensorState.Agrees;
    OneElement(s, alloc);
    SizedIsSound(s.tensors, 1, alloc);
    FillsTensor(s, data, fill, alloc);
    SetInputSucceedsIff(Echo(None), s, "x", data, [1], fill);
    InputTakesShape(Echo(None), s, "x", data, [1], fill);
    EngineInvariants.SetInputChanges(Echo(None), s, "x", data, [1], fill);
    var r := SetInputData(Echo(None), s, "x", data, [1], fill).s;
    assert r.tensors["y"] == s.tensors["y"];
    assert AllSound(r.tensors);
  }

  /** With memory from the pool and a stream of the user's, the read after a larger shape gives the output's memory back
      while the inference may still be writing to it. */
  lemma EarlyFreeHappens(alloc: string -> Allocation, more: string -> Allocation, data: Bytes, dst: nat)
    returns (calls: seq<Call>)
    requires AllGot(alloc) && AllGot(more) && alloc("y").pooled && |data| == 4
    ensures var m := Echo(None); var start := Construct(m, Plain, alloc);
            && EngineFrees.DeviceLoop(m, start, calls, Used)
            && !RaceFree(EngineFrees.FreeingRun(m, start, calls).log)
  {
    hide Construct, Run, PhaseAfter, EngineRounds.LoopRun, GetOutputData, RaceFree, EngineFrees.FreeingRun,
         EngineFrees.Freed, WellFormed, Supported, OutputOfOne, DeviceLocated;
    var m := Echo(None);
    var start := Construct(m, Plain, alloc);
    EchoIsWellFormed(None);
    EchoIsOnDevice();
    var before := BeforeTheRead(alloc, data);
    var s := Run(m, start, before);
    var read := GetOutput("y", dst, 8, GetEnv(more, true, true));
    ReadOfTwo(s, alloc("y"), dst, read.getEnv);
    ReadOfTwoFrees(s, alloc("y"), read);
    EngineRounds.Extend(m, start, before, read, Used);
    calls := before + [read];
    assert calls[..|before|] == before;
    assert EngineFrees.EarlyAt(m, start, calls, |before|);
    EngineFrees.FreesAreOrderedIff(m, Plain, alloc, Used, calls);
  }

  lemma ReadOfTwoFrees(s: State, a: Allocation, read: Call)
    requires OutputOfOne(s.tensors, a) && a.Got? && a.pooled && read.GetOutput? && AllocatesOk(read)
    requires Step(Echo(None), s, read).ok && GrownByRead(Echo(None), s, 1, read.getEnv.alloc)
    ensures EngineFrees.Freed(Echo(None), s, read) != []
  {
    hide GetOutputData, GrownByRead, WellFormed, EngineFrees.Freed, TensorState.Agrees;
    EchoIsWellFormed(None);
    EngineFrees.ReadFreesIff(Echo(None), s, read);
    assert Echo(None).io[1].name == "y";
    assert EngineFrees.ReadFrees(Echo(None), s, read.getEnv.alloc, 0);
  }
}
