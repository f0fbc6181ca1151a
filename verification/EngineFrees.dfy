/** Freeing is work for a stream too. When a binding outgrows its memory, the stream-ordered allocator is given the old
    memory back on the internal stream, at once: whether that waits for the inference that still uses it. */
module EngineFrees {
  import opened Streams
  import opened CudaMemory
  import opened TensorModel
  import opened EngineSpec
  import opened EngineCapacity
  import opened EngineShapes
  import opened EngineSchedules
  import opened EngineDelivery
  import opened EngineRounds
  import EngineInvariants
  import HostRaces

  // ── The program with its frees ───────────────────────────────────────

  /** Nothing is found in memory given back: to the device, freeing is writing nothing. */
  function Free(p: Ptr): Item {
    Item(Internal, Upload(p, []))
  }

  /** The binding's memory was from the pool and has been given back. */
  predicate GivenBack(t: Tensors, u: Tensors, name: string) {
    name in t && name in u && t[name].mem.kind == Device && t[name].mem.pooled
    && u[name].mem.capacity != t[name].mem.capacity
  }

  /** What is freed between two states of the tensors, in table order. */
  function Frees(m: Model, t: Tensors, u: Tensors, i: nat): Program
    decreases |m.io| - i
  {
    if i >= |m.io| then []
    else
      var name := m.io[i].name;
      (if GivenBack(t, u, name) then [Free(t[name].mem.Address())] else []) + Frees(m, t, u, i + 1)
  }

  function Freed(m: Model, s: State, c: Call): Program {
    Frees(m, s.tensors, Step(m, s, c).s.tensors, 0)
  }

  /** A call with its frees, which come before anything else it issues. */
  function FreeingStep(m: Model, s: State, c: Call): State {
    Step(m, s.(log := s.log + Freed(m, s, c)), c).s
  }

  function FreeingRun(m: Model, s: State, calls: seq<Call>): State {
    if calls == [] then s else FreeingStep(m, FreeingRun(m, s, calls[..|calls| - 1]), calls[|calls| - 1])
  }

  ghost predicate SameButLog(s: State, r: State) {
    r == s.(log := r.log)
  }

  lemma RoomIgnoresLog(m: Model, s: State, r: State, name: string, dims: Dims, a: Allocation)
    requires SameButLog(s, r)
    ensures name in s.tensors ==>
              MakeRoom(m, r, name, s.tensors[name], dims, a) == MakeRoom(m, s, name, s.tensors[name], dims, a)
  {
    hide TensorState.Reshape, TensorState.Resize, ResetCudaGraph;
  }

  lemma RefreshIgnoresLog(m: Model, s: State, r: State, alloc: string -> Allocation)
    requires SameButLog(s, r)
    ensures RefreshForRead(m, r, alloc) == RefreshForRead(m, s, alloc)
  {
    hide UpdateOutputShapes, HasDynamic;
  }

  lemma InputIgnoresLog(m: Model, s: State, r: State, name: string, data: Bytes, dims: Dims, env: SetEnv)
    requires SameButLog(s, r)
    ensures var x, y := SetInputData(m, s, name, data, dims, env), SetInputData(m, r, name, data, dims, env);
            y.ok == x.ok && SameButLog(x.s, y.s)
  {
    RoomIgnoresLog(m, s, r, name, dims, env.alloc);
    hide MakeRoom, CopyIn, AllPositive, Product;
  }

  lemma ReadIgnoresLog(m: Model, s: State, r: State, name: string, dst: nat, size: nat, env: GetEnv)
    requires SameButLog(s, r)
    ensures var x, y := GetOutputData(m, s, name, dst, size, env), GetOutputData(m, r, name, dst, size, env);
            y.ok == x.ok && SameButLog(x.s, y.s)
  {
    RefreshIgnoresLog(m, s, r, env.alloc);
    hide RefreshForRead, CopyOut;
  }

  lemma InferIgnoresLog(m: Model, s: State, r: State, env: InferEnv)
    requires SameButLog(s, r)
    ensures InferAsync(m, r, env).ok == InferAsync(m, s, env).ok
    ensures SameButLog(InferAsync(m, s, env).s, InferAsync(m, r, env).s)
  {
    hide BindIOAddresses, WaitInputs, RecordOutputs, LaunchInference;
  }

  /** No call looks at what has been issued. */
  lemma StepIgnoresLog(m: Model, s: State, r: State, c: Call)
    requires SameButLog(s, r)
    ensures Step(m, r, c).ok == Step(m, s, c).ok && SameButLog(Step(m, s, c).s, Step(m, r, c).s)
  {
    hide SetInputData, GetOutputData, InferAsync, UpdateOutputShapes, BindIOAddresses, WaitInputs, CaptureOn, Snapshot,
         ResetCudaGraph, AllPositive, HasDynamic;
    match c
    case SetInput(name, data, dims, env) => InputIgnoresLog(m, s, r, name, data, dims, env);
    case GetOutput(name, dst, size, env) => ReadIgnoresLog(m, s, r, name, dst, size, env);
    case Infer(env) => InferIgnoresLog(m, s, r, env);
    case _ =>
  }

  lemma {:induction false} FreeingRunIsRun(m: Model, s: State, calls: seq<Call>)
    ensures SameButLog(Run(m, s, calls), FreeingRun(m, s, calls))
    decreases |calls|
  {
    hide Step, Frees;
    if calls != [] {
      var n := |calls| - 1;
      FreeingRunIsRun(m, s, calls[..n]);
      var t := FreeingRun(m, s, calls[..n]);
      StepIgnoresLog(m, Run(m, s, calls[..n]), t.(log := t.log + Freed(m, t, calls[n])), calls[n]);
    }
  }

  // ── Frees the internal stream may issue ──────────────────────────────

  lemma FreesAreFrees(m: Model, t: Tensors, u: Tensors, i: nat)
    ensures forall x | x in Frees(m, t, u, i) :: x.agent == Internal && x.op.Upload?
    decreases |m.io| - i
  {
  }

  /** When the internal stream has waited for everything, it may free. */
  lemma {:induction false} FreesInOrder(p: Program, frees: Program)
    requires RaceFree(p) && Full(p, Internal) && forall x | x in frees :: x.agent == Internal && x.op.Upload?
    ensures RaceFree(p + frees) && Full(p + frees, Internal)
    decreases |frees|
  {
    hide RaceFree, Full;
    if frees == [] {
      assert p + frees == p;
    } else {
      var q := frees[0];
      assert q in frees;
      IssueMemory(p, q);
      FreesInOrder(p + [q], frees[1..]);
      assert p + [q] + frees[1..] == p + frees;
    }
  }

  ghost predicate NoHost(p: Program) {
    forall x | x in p :: x.agent != Host
  }

  /** The internal stream has not waited for some inference. */
  ghost predicate Unseen(p: Program) {
    exists i :: 0 <= i < |p| && p[i].op.Launch? && i !in Known(p, Internal)
  }

  /** When it has not, a free races with that inference. */
  lemma FreeRaces(p: Program, q: Item, rest: Program)
    requires NoHost(p) && Unseen(p) && q.agent == Internal && q.op.Upload?
    ensures !RaceFree(p + [q] + rest)
  {
    var r, all := p + [q], p + [q] + rest;
    var i :| 0 <= i < |p| && p[i].op.Launch? && i !in Known(p, Internal);
    forall n | 0 <= n < |p| && MustPrecede(r, n, |p|) ensures i !in Before(r, n) + {n} {
      assert r[n] == p[n] && p[n] in p && r[|p|] == q && r[..|p|] == p;
      BeforePrefix(r, |p|, n);
    }
    assert i !in Before(r, |p|);
    assert all[..|r|] == r;
    BeforePrefix(all, |r|, |p|);
    assert all[i] == p[i] && all[|p|] == q;
  }

  /** What is issued elsewhere the internal stream does not know. */
  lemma {:induction false} StaysUnseen(p: Program, ops: Program)
    requires Unseen(p) && forall x | x in ops :: x.agent != Internal
    ensures Unseen(p + ops)
    decreases |ops|
  {
    if ops == [] {
      assert p + ops == p;
    } else {
      var q := ops[0];
      assert q in ops;
      KnownElsewhere(p, q);
      var i :| 0 <= i < |p| && p[i].op.Launch? && i !in Known(p, Internal);
      assert (p + [q])[i] == p[i];
      hide Known;
      StaysUnseen(p + [q], ops[1..]);
      assert p + [q] + ops[1..] == p + ops;
    }
  }

  lemma KnownElsewhere(p: Program, q: Item)
    requires q.agent != Internal
    ensures Known(p + [q], Internal) <= Known(p, Internal) && forall i | i in Known(p, Internal) :: i < |p|
  {
    var r := p + [q];
    assert r[..|p|] == p;
    forall j, x | 0 <= j < |r| && r[j].agent == Internal && x in Before(r, j) + {j} ensures x in Known(p, Internal) {
      assert j < |p|;
      BeforePrefix(r, |p|, j);
    }
  }

  lemma LaunchIsUnseen(p: Program, launch: Item)
    requires launch.op.Launch? && launch.agent != Internal
    ensures Unseen(p + [launch])
  {
    KnownElsewhere(p, launch);
    assert (p + [launch])[|p|] == launch;
    assert |p| !in Known(p + [launch], Internal);
  }

  // ── The loop with its frees ──────────────────────────────────────────

  /** What the streams know in each phase, and that after an inference the internal stream knows of it only if it ran
      there. */
  ghost predicate Ordered(m: Model, s: State, p: Phase) {
    && Synchronised(m, s, p) && NoHost(s.log)
    && (p == Inferred ==> if ExecStream(s.mode) == Internal then Full(s.log, Internal) else Unseen(s.log))
  }

  /** Past an inference on another stream, this call frees. */
  ghost predicate FreesEarly(m: Model, s: State, p: Phase, c: Call) {
    p == Inferred && ExecStream(s.mode) != Internal && c.GetOutput? && Freed(m, s, c) != []
  }

  /** With everything waited for, frees leave nothing unordered. */
  lemma FreesKeepFull(m: Model, s: State, frees: Program)
    requires RaceFree(s.log) && Full(s.log, Internal) && NoHost(s.log)
    requires forall x | x in frees :: x.agent == Internal && x.op.Upload?
    ensures var r := s.(log := s.log + frees); Synchronised(m, r, Reading) && NoHost(r.log)
  {
    FreesInOrder(s.log, frees);
    hide RaceFree, Full;
  }

  lemma InternalKnows(m: Model, s: State, p: Phase)
    requires Ordered(m, s, p) && (p == Inferred ==> ExecStream(s.mode) == Internal)
    ensures RaceFree(s.log) && Full(s.log, Internal) && NoHost(s.log)
  {
  }

  lemma InputOrdered(m: Model, s: State, p: Phase, c: Call)
    requires Ordered(m, s, p) && p != Inferred && AllSound(s.tensors) && AllocatesOk(c) && c.SetInput?
    requires c.name in s.tensors ==> s.tensors[c.name].mem.kind == Device
    requires Step(m, s, c).ok
    ensures Ordered(m, FreeingStep(m, s, c), Setting)
  {
    hide Step, RaceFree, Full, Signalled, Sound, Frees;
    var frees := Freed(m, s, c);
    var r := s.(log := s.log + frees);
    InternalKnows(m, s, p);
    FreesAreFrees(m, s.tensors, Step(m, s, c).s.tensors, 0);
    FreesKeepFull(m, s, frees);
    StepIgnoresLog(m, s, r, c);
    InputSynchronises(m, r, Reading, c);
    InputNoHost(m, r, c);
  }

  lemma InputNoHost(m: Model, s: State, c: Call)
    requires NoHost(s.log) && AllSound(s.tensors) && AllocatesOk(c) && c.SetInput? && Step(m, s, c).ok
    requires c.name in s.tensors ==> s.tensors[c.name].mem.kind == Device
    ensures NoHost(Step(m, s, c).s.log)
  {
    SetInputSucceedsIff(m, s, c.name, c.data, c.dims, c.setEnv);
    hide SetInputData, HasRoom, AllPositive, Product, Sound, MemState.Address;
  }

  lemma ReadOrdered(m: Model, s: State, p: Phase, c: Call)
    requires Ordered(m, s, p) && (p == Inferred || p == Reading) && AllSound(s.tensors) && AllocatesOk(c)
    requires c.GetOutput? && (c.name in s.tensors ==> s.tensors[c.name].mem.kind == Device)
    requires Step(m, s, c).ok && !FreesEarly(m, s, p, c)
    ensures Ordered(m, FreeingStep(m, s, c), Reading)
  {
    hide Step, RaceFree, Full, Signalled, Sound, Frees, Unseen;
    var frees := Freed(m, s, c);
    var r := s.(log := s.log + frees);
    FreesAreFrees(m, s.tensors, Step(m, s, c).s.tensors, 0);
    StepIgnoresLog(m, s, r, c);
    if frees == [] {
      assert r == s;
      ReadSynchronises(m, s, p, c);
    } else {
      InternalKnows(m, s, p);
      FreesKeepFull(m, s, frees);
      ReadSynchronises(m, r, Reading, c);
    }
    ReadNoHost(m, r, c);
  }

  lemma ReadNoHost(m: Model, s: State, c: Call)
    requires NoHost(s.log) && AllSound(s.tensors) && AllocatesOk(c) && c.GetOutput? && Step(m, s, c).ok
    requires c.name in s.tensors ==> s.tensors[c.name].mem.kind == Device
    ensures NoHost(Step(m, s, c).s.log)
  {
    GetOutputSucceedsIff(m, s, c.name, c.dst, c.size, c.getEnv);
    RefreshForReadGrows(m, s, c.getEnv.alloc);
    assert RefreshForRead(m, s, c.getEnv.alloc).tensors[c.name].mem.kind == Device;
    hide GetOutputData, RefreshForRead, Sound, MemState.Address;
  }

  lemma NothingFreed(m: Model, t: Tensors, i: nat)
    ensures Frees(m, t, t, i) == []
    decreases |m.io| - i
  {
  }

  lemma InferOrdered(m: Model, s: State, c: Call)
    requires Ordered(m, s, Setting) && EngineInvariants.Inv(m, s) && c.Infer? && Step(m, s, c).ok
    ensures Ordered(m, FreeingStep(m, s, c), Inferred)
  {
    hide InferAsync, RaceFree, Full, Signalled, Frees, Unseen, Memory, EngineInvariants.Inv,
         EngineInvariants.LaunchContext;
    var waits, launch, records := InferIssues(m, s, c.inferEnv);
    NothingFreed(m, s.tensors, 0);
    assert s.(log := s.log + []) == s;
    EngineInvariants.InferChanges(m, s, c.inferEnv);
    InferSynchronises(m, s, c);
    if ExecStream(s.mode) == Internal {
      IssueEvents(s.log, waits);
      IssueMemory(s.log + waits, launch);
      IssueEvents(s.log + waits + [launch], records);
    } else {
      LaunchIsUnseen(s.log + waits, launch);
      StaysUnseen(s.log + waits + [launch], records);
    }
  }

  lemma OtherIssues(m: Model, s: State, c: Call) returns (ops: Program)
    requires !c.SetInput? && !c.Infer? && !c.GetOutput? && !c.Freeze?
    ensures var r := Step(m, s, c).s;
            && r.log == s.log + ops && r.tensors == s.tensors && (c.UseStream? || r.mode.external == s.mode.external)
            && Quiet(ops) && IssuedOn(ops, ExecStream(s.mode))
  {
    hide WaitInputs, CaptureOn, Snapshot, ResetCudaGraph, AllPositive, HasDynamic;
    if c.CaptureGraph? {
      WaitsAreQuiet(m, s.tensors, s.events.inputs, ExecStream(s.mode), 0, c.captureEnv.waitOk);
    }
    ops := Step(m, s, c).s.log[|s.log|..];
  }

  lemma OtherOrdered(m: Model, s: State, p: Phase, c: Call)
    requires Ordered(m, s, p) && AllSound(s.tensors) && Next(p, c).Some?
    requires !c.SetInput? && !c.Infer? && !c.GetOutput? && !c.Freeze?
    ensures Ordered(m, FreeingStep(m, s, c), p) && Next(p, c) == Some(p)
  {
    hide Step, RaceFree, Full, Signalled, Frees, Unseen, Memory, Sound;
    var ops := OtherIssues(m, s, c);
    NothingFreed(m, s.tensors, 0);
    assert s.(log := s.log + []) == s;
    OtherSynchronises(m, s, p, c);
    IssueEvents(s.log, ops);
    if p == Inferred && ExecStream(s.mode) != Internal { StaysUnseen(s.log, ops); }
  }

  // ── Exactly when frees are ordered ───────────────────────────────────

  lemma FreedIgnoresLog(m: Model, s: State, r: State, p: Phase, c: Call)
    requires SameButLog(s, r)
    ensures Freed(m, r, c) == Freed(m, s, c) && (FreesEarly(m, r, p, c) <==> FreesEarly(m, s, p, c))
  {
    hide Step, Frees;
    StepIgnoresLog(m, s, r, c);
  }

  /** In this run no read frees past an inference on another stream. */
  ghost predicate NoEarlyFree(m: Model, s: State, calls: seq<Call>) {
    forall n | 0 <= n < |calls| :: !EarlyAt(m, s, calls, n)
  }

  ghost predicate EarlyAt(m: Model, s: State, calls: seq<Call>, n: nat)
    requires n < |calls|
  {
    PhaseAfter(m, s, calls[..n]).Some?
    && FreesEarly(m, Run(m, s, calls[..n]), PhaseAfter(m, s, calls[..n]).value, calls[n])
  }

  /** A run of the loop on the device, without a freeze in it. */
  ghost predicate DeviceLoop(m: Model, s: State, calls: seq<Call>, used: set<string>) {
    LoopRun(m, s, calls, used) && forall i | 0 <= i < |calls| :: !calls[i].Freeze?
  }

  lemma OneMore(m: Model, s: State, p: Phase, c: Call, used: set<string>)
    requires Ordered(m, s, p) && EngineInvariants.Inv(m, s) && AllSound(s.tensors) && OnDevice(s.tensors, used)
    requires AllocatesOk(c) && Uses(c, used) && !c.Freeze? && Next(p, c).Some?
    requires c.SetInput? || c.Infer? || c.GetOutput? ==> Step(m, s, c).ok
    requires !FreesEarly(m, s, p, c)
    ensures Ordered(m, FreeingStep(m, s, c), Next(p, c).value)
  {
    hide Step, Ordered, FreesEarly, FreeingStep, AllocatesOk, Sound, EngineInvariants.Inv;
    match c
    case SetInput(_, _, _, _) => InputOrdered(m, s, p, c);
    case Infer(_) => InferOrdered(m, s, c);
    case GetOutput(_, _, _, _) => ReadOrdered(m, s, p, c);
    case _ => OtherOrdered(m, s, p, c);
  }

  lemma IgnoresLog(m: Model, s: State, r: State)
    requires SameButLog(s, r) && EngineInvariants.Inv(m, s)
    ensures EngineInvariants.Inv(m, r)
  {
  }

  /** Where every loop run starts. */
  ghost predicate Fresh(m: Model, s: State, used: set<string>) {
    EngineInvariants.Inv(m, s) && s.log == [] && AllSound(s.tensors) && OnDevice(s.tensors, used)
  }

  lemma StartsOrdered(m: Model, s: State)
    requires s.log == []
    ensures Ordered(m, s, Start)
  {
    NothingIssued(m, s);
  }

  lemma {:induction false} LoopIsOrdered(m: Model, s: State, calls: seq<Call>, used: set<string>)
    requires Fresh(m, s, used) && DeviceLoop(m, s, calls, used) && NoEarlyFree(m, s, calls)
    ensures Ordered(m, FreeingRun(m, s, calls), PhaseAfter(m, s, calls).value)
    decreases |calls|
  {
    hide Step, Ordered, FreesEarly, FreeingStep, AllocatesOk, Sound, EngineInvariants.Inv;
    if calls == [] {
      StartsOrdered(m, s);
    } else {
      var n := |calls| - 1;
      var c, r, t := calls[n], Run(m, s, calls[..n]), FreeingRun(m, s, calls[..n]);
      PrefixIsLoop(m, s, calls, n, used);
      LoopIsOrdered(m, s, calls[..n], used);
      FreeingRunIsRun(m, s, calls[..n]);
      RunGrows(m, s, calls[..n]);
      GrewOnDevice(s.tensors, r.tensors, used);
      EngineInvariants.RunKeeps(m, s, calls[..n]);
      IgnoresLog(m, r, t);
      StepIgnoresLog(m, r, t, c);
      FreedIgnoresLog(m, r, t, PhaseAfter(m, s, calls[..n]).value, c);
      assert !EarlyAt(m, s, calls, n);
      OneMore(m, t, PhaseAfter(m, s, calls[..n]).value, c, used);
    }
  }

  /** A shorter run of a loop is a loop, with no earlier free. */
  lemma PrefixIsLoop(m: Model, s: State, calls: seq<Call>, n: nat, used: set<string>)
    requires DeviceLoop(m, s, calls, used) && n == |calls| - 1
    ensures DeviceLoop(m, s, calls[..n], used)
    ensures NoEarlyFree(m, s, calls[..n]) <==> forall i | 0 <= i < n :: !EarlyAt(m, s, calls, i)
  {
    hide Step, AllocatesOk, Uses, FreesEarly, Next;
    forall i | 0 <= i < n ensures EarlyAt(m, s, calls[..n], i) <==> EarlyAt(m, s, calls, i) {
      assert calls[..n][..i] == calls[..i];
    }
    hide EarlyAt;
  }

  lemma FreeingRunExtends(m: Model, s: State, calls: seq<Call>, n: nat) returns (rest: Program)
    requires EngineInvariants.Inv(m, s) && n <= |calls|
    ensures FreeingRun(m, s, calls).log == FreeingRun(m, s, calls[..n]).log + rest
    decreases |calls|
  {
    hide Step, Frees, HostRaces.Mine, EngineInvariants.Inv;
    if n == |calls| {
      assert calls[..n] == calls;
      rest := [];
    } else {
      var k := |calls| - 1;
      var t := FreeingRun(m, s, calls[..k]);
      var before := FreeingRunExtends(m, s, calls[..k], n);
      assert calls[..k][..n] == calls[..n];
      EngineInvariants.RunKeeps(m, s, calls[..k]);
      FreeingRunIsRun(m, s, calls[..k]);
      var u := t.(log := t.log + Freed(m, t, calls[k]));
      IgnoresLog(m, Run(m, s, calls[..k]), u);
      var ops := HostRaces.StepIssues(m, u, calls[k]);
      rest := before + Freed(m, t, calls[k]) + ops;
    }
  }

  /** A free past an inference on another stream is a race, whatever follows. */
  lemma EarlyFreeRaces(m: Model, s: State, p: Phase, c: Call, after: Program)
    requires Ordered(m, s, p) && EngineInvariants.Inv(m, s) && FreesEarly(m, s, p, c)
    ensures !RaceFree(FreeingStep(m, s, c).log + after)
  {
    hide Step, Frees, RaceFree, Unseen, HostRaces.Mine, Synchronised, EngineInvariants.Inv;
    var frees := Freed(m, s, c);
    var r := s.(log := s.log + frees);
    IgnoresLog(m, s, r);
    var ops := HostRaces.StepIssues(m, r, c);
    FreesAreFrees(m, s.tensors, Step(m, s, c).s.tensors, 0);
    assert frees[0] in frees;
    FreeRaces(s.log, frees[0], frees[1..] + ops + after);
    assert s.log + [frees[0]] + (frees[1..] + ops + after) == s.log + frees + ops + after;
  }

  /** The first call that frees early, if one does. */
  lemma {:induction false} FirstEarly(m: Model, s: State, calls: seq<Call>, used: set<string>) returns (n: nat)
    requires DeviceLoop(m, s, calls, used) && !NoEarlyFree(m, s, calls)
    ensures n < |calls| && EarlyAt(m, s, calls, n)
    ensures DeviceLoop(m, s, calls[..n], used) && NoEarlyFree(m, s, calls[..n])
    decreases |calls|
  {
    hide EarlyAt, DeviceLoop;
    var k := |calls| - 1;
    PrefixIsLoop(m, s, calls, k, used);
    if NoEarlyFree(m, s, calls[..k]) {
      n := k;
    } else {
      n := FirstEarly(m, s, calls[..k], used);
      assert calls[..k][..n] == calls[..n];
      EarlyInPrefix(m, s, calls, k, n);
    }
  }

  lemma EarlyInPrefix(m: Model, s: State, calls: seq<Call>, k: nat, n: nat)
    requires n < k <= |calls|
    ensures EarlyAt(m, s, calls[..k], n) <==> EarlyAt(m, s, calls, n)
  {
    hide PhaseAfter, Run, FreesEarly;
    assert calls[..k][..n] == calls[..n];
  }

  /** With its frees, the program of a run of the loop is free of races if and only if no read frees memory right after
      an inference on another stream than the internal one. */
  lemma FreesAreOrderedIff(m: Model, config: Config, alloc: string -> Allocation, used: set<string>, calls: seq<Call>)
    requires WellFormed(m) && Supported(m) && AllGot(alloc) && DeviceLocated(m, used)
    requires DeviceLoop(m, Construct(m, config, alloc), calls, used)
    ensures var s := Construct(m, config, alloc);
            RaceFree(FreeingRun(m, s, calls).log) <==> NoEarlyFree(m, s, calls)
  {
    hide Construct, FreeingRun, PhaseAfter, Step, Ordered, EarlyAt, DeviceLoop, NoEarlyFree, Equipped, Sound, OnDevice,
         RaceFree, EngineInvariants.Inv;
    var s := Construct(m, config, alloc);
    ConstructOnDevice(m, config, alloc, used);
    ConstructIsReady(m, config, alloc);
    EquippedIsSound(m, s.tensors, Normalised(config).maxProfile);
    if NoEarlyFree(m, s, calls) {
      LoopIsOrdered(m, s, calls, used);
      OrderedIsRaceFree(m, s, calls, used);
    } else {
      var n := FirstEarly(m, s, calls, used);
      LoopIsOrdered(m, s, calls[..n], used);
      EarlyLoopRaces(m, s, calls, n);
    }
  }

  /** Then every schedule is sequential, frees included. */
  lemma EveryScheduleIsSequentialWithFrees(m: Model, config: Config, alloc: string -> Allocation, used: set<string>,
                                           calls: seq<Call>, k: Kernel, schedule: seq<nat>, w: World)
    requires WellFormed(m) && Supported(m) && AllGot(alloc) && DeviceLocated(m, used)
    requires DeviceLoop(m, Construct(m, config, alloc), calls, used)
    requires NoEarlyFree(m, Construct(m, config, alloc), calls)
    requires Legal(FreeingRun(m, Construct(m, config, alloc), calls).log, schedule)
    ensures var p := FreeingRun(m, Construct(m, config, alloc), calls).log;
            Exec(k, p, schedule, w) == InOrder(k, p, w)
  {
    hide *;
    FreesAreOrderedIff(m, config, alloc, used, calls);
    RaceFreeIsDeterministic(k, FreeingRun(m, Construct(m, config, alloc), calls).log, schedule, w);
  }

  lemma OrderedIsRaceFree(m: Model, s: State, calls: seq<Call>, used: set<string>)
    requires DeviceLoop(m, s, calls, used) && Ordered(m, FreeingRun(m, s, calls), PhaseAfter(m, s, calls).value)
    ensures RaceFree(FreeingRun(m, s, calls).log)
  {
    hide RaceFree, FreeingRun, PhaseAfter;
  }

  lemma EarlyLoopRaces(m: Model, s: State, calls: seq<Call>, n: nat)
    requires EngineInvariants.Inv(m, s) && n < |calls| && EarlyAt(m, s, calls, n)
    requires Ordered(m, FreeingRun(m, s, calls[..n]), PhaseAfter(m, s, calls[..n]).value)
    ensures !RaceFree(FreeingRun(m, s, calls).log)
  {
    hide Run, PhaseAfter, Step, Ordered, FreesEarly, FreeingStep, RaceFree, EngineInvariants.Inv;
    var r, t, p := Run(m, s, calls[..n]), FreeingRun(m, s, calls[..n]), PhaseAfter(m, s, calls[..n]).value;
    EngineInvariants.RunKeeps(m, s, calls[..n]);
    FreeingRunIsRun(m, s, calls[..n]);
    IgnoresLog(m, r, t);
    FreedIgnoresLog(m, r, t, p, calls[n]);
    var rest := FreeingRunExtends(m, s, calls, n + 1);
    assert calls[..n + 1][..n] == calls[..n];
    EarlyFreeRaces(m, t, p, calls[n], rest);
  }

  // ── When a read frees ────────────────────────────────────────────────

  /** Some output from the i-th on is from the pool and has outgrown its memory, as far as the refresh gets. */
  ghost predicate ReadFrees(m: Model, s: State, alloc: string -> Allocation, i: nat) {
    exists j | i <= j < |m.io| ::
      m.io[j].name in s.tensors && s.tensors[m.io[j].name].mem.kind == Device && s.tensors[m.io[j].name].mem.pooled
      && GrownByRead(m, s, j, alloc)
  }

  lemma {:induction false} FreesIff(m: Model, t: Tensors, u: Tensors, i: nat)
    ensures Frees(m, t, u, i) != [] <==> exists j | i <= j < |m.io| :: GivenBack(t, u, m.io[j].name)
    decreases |m.io| - i
  {
    hide GivenBack;
    if i < |m.io| { FreesIff(m, t, u, i + 1); }
  }

  lemma GivenBackIff(m: Model, s: State, j: nat, alloc: string -> Allocation)
    requires WellFormed(m) && AllSound(s.tensors) && AllGot(alloc) && j < |m.io|
    ensures GivenBack(s.tensors, RefreshForRead(m, s, alloc).tensors, m.io[j].name)
            <==> m.io[j].name in s.tensors && s.tensors[m.io[j].name].mem.kind == Device
                 && s.tensors[m.io[j].name].mem.pooled && GrownByRead(m, s, j, alloc)
  {
    var name, u := m.io[j].name, RefreshForRead(m, s, alloc).tensors;
    RefreshForReadGrows(m, s, alloc);
    if name in s.tensors {
      assert Sound(s.tensors[name]) && Grew(s.tensors[name], u[name]);
      RefreshGrowsIff(m, s.mode.frozen, s.ctx.shapes, s.tensors, s.ctx.addresses, 0, alloc, j);
    }
    hide UpdateOutputShapes, Reaches, Fits, HasDynamic, MemState.Address;
  }

  /** A successful read frees exactly when an output from the pool outgrows its memory; a frozen engine's reads never
      do. */
  lemma ReadFreesIff(m: Model, s: State, c: Call)
    requires WellFormed(m) && AllSound(s.tensors) && c.GetOutput? && AllocatesOk(c) && Step(m, s, c).ok
    ensures Freed(m, s, c) != [] <==> ReadFrees(m, s, c.getEnv.alloc, 0)
    ensures s.mode.frozen ==> Freed(m, s, c) == []
  {
    var alloc := c.getEnv.alloc;
    var u := RefreshForRead(m, s, alloc).tensors;
    assert Step(m, s, c).s.tensors == u by { hide RefreshForRead, CopyOut; }
    FreesIff(m, s.tensors, u, 0);
    hide RefreshForRead, GivenBack, Frees, Step, GrownByRead, Sound;
    forall j | 0 <= j < |m.io|
      ensures GivenBack(s.tensors, u, m.io[j].name)
              <==> m.io[j].name in s.tensors && s.tensors[m.io[j].name].mem.kind == Device
                   && s.tensors[m.io[j].name].mem.pooled && GrownByRead(m, s, j, alloc)
    {
      GivenBackIff(m, s, j, alloc);
    }
    if s.mode.frozen { FrozenReadsFreeNothing(m, s, alloc); }
  }

  lemma FrozenReadsFreeNothing(m: Model, s: State, alloc: string -> Allocation)
    requires s.mode.frozen
    ensures !ReadFrees(m, s, alloc, 0)
  {
    hide Reaches, Fits;
  }
}
