/** What a user sets stays set: the latest address, shape and stream are the ones every later inference uses. */
module EngineSettings {
  import opened Streams
  import opened CudaMemory
  import opened TensorModel
  import opened EngineSpec
  import opened EngineInvariants

  ghost predicate SameEntry<T>(a: map<string, T>, b: map<string, T>, name: string) {
    (name in a <==> name in b) && (name in a ==> a[name] == b[name])
  }

  ghost predicate Readdresses(c: Call, name: string) {
    c.BindAddress? && c.name == name
  }

  ghost predicate Reshapes(c: Call, name: string) {
    c.SwitchProfile? || (c.BindShape? && c.name == name)
  }

  /** One call changes an override, a context shape or the stream only if it is the call for it. */
  lemma StepKeepsSettings(m: Model, s: State, c: Call, name: string)
    ensures var r := Step(m, s, c).s;
            && (!c.UseStream? ==> r.mode.external == s.mode.external)
            && (!Readdresses(c, name) ==> SameEntry(r.user, s.user, name))
            && (!Reshapes(c, name) ==> SameEntry(r.ctx.shapes, s.ctx.shapes, name))
  {
    hide UpdateOutputShapes, TensorState.Resize, TensorState.Reshape, Product, AllPositive, HasDynamic, CopyIn, CopyOut,
         WaitInputs, BindIOAddresses, RecordOutputs, LaunchInference, CaptureOn, Snapshot, ResetCudaGraph, ContextShape;
    match c
    case SetInput(_, _, _, _) =>
    case GetOutput(_, _, _, _) =>
    case Infer(_) =>
    case Freeze(_) =>
    case CaptureGraph(_) =>
    case _ =>
  }

  lemma {:induction false} RunKeepsSettings(m: Model, s: State, calls: seq<Call>, name: string)
    ensures var r := Run(m, s, calls);
            && ((forall i | 0 <= i < |calls| :: !calls[i].UseStream?) ==> r.mode.external == s.mode.external)
            && ((forall i | 0 <= i < |calls| :: !Readdresses(calls[i], name)) ==> SameEntry(r.user, s.user, name))
            && ((forall i | 0 <= i < |calls| :: !Reshapes(calls[i], name)) ==>
                  SameEntry(r.ctx.shapes, s.ctx.shapes, name))
    decreases |calls|
  {
    hide Step, Readdresses, Reshapes;
    if calls != [] {
      var n := |calls| - 1;
      RunKeepsSettings(m, s, calls[..n], name);
      StepKeepsSettings(m, Run(m, s, calls[..n]), calls[n], name);
      assert forall i | 0 <= i < n :: calls[..n][i] == calls[i];
    }
  }

  lemma {:induction false} RunSplits(m: Model, s: State, calls: seq<Call>, n: nat)
    requires n <= |calls|
    ensures Run(m, s, calls) == Run(m, Run(m, s, calls[..n]), calls[n..])
    decreases |calls|
  {
    hide Step;
    if n == |calls| {
      assert calls[..n] == calls && calls[n..] == [];
    } else {
      var k := |calls| - 1;
      RunSplits(m, s, calls[..k], n);
      assert calls[..k][..n] == calls[..n] && calls[..k][n..] == calls[n..][..k - n];
      assert calls[n..][|calls[n..]| - 1] == calls[k];
    }
  }

  /** The state after the n-th call of a run. */
  function After(m: Model, s: State, calls: seq<Call>, n: nat): Out
    requires n < |calls|
  {
    Step(m, Run(m, s, calls[..n]), calls[n])
  }

  lemma RunAfter(m: Model, s: State, calls: seq<Call>, n: nat)
    requires n < |calls|
    ensures Run(m, s, calls) == Run(m, After(m, s, calls, n).s, calls[n + 1..])
  {
    hide Step;
    RunSplits(m, s, calls, n + 1);
    assert calls[..n + 1][..n] == calls[..n];
  }

  /** The last address set for a binding that succeeded is the one every later inference launches with, whatever was
      called in between: growth of the tensor, freezing, graphs. */
  lemma LatestAddressIsLaunched(m: Model, config: Config, alloc: string -> Allocation, calls: seq<Call>, n: nat,
                                name: string, p: Ptr, env: InferEnv)
    returns (before: Program, launch: Op, after: Program)
    requires WellFormed(m) && n < |calls| && calls[n] == BindAddress(name, p)
    requires After(m, Construct(m, config, alloc), calls, n).ok
    requires forall i | n < i < |calls| :: !Readdresses(calls[i], name)
    requires var s := Run(m, Construct(m, config, alloc), calls); name in s.tensors && InferAsync(m, s, env).ok
    ensures var s := Run(m, Construct(m, config, alloc), calls);
            && InferAsync(m, s, env).s.log == s.log + before + [Item(ExecStream(s.mode), launch)] + after
            && launch.Launch? && name in launch.addresses && launch.addresses[name] == p
  {
    var start := Construct(m, config, alloc);
    var t := After(m, start, calls, n).s;
    assert name in t.user && t.user[name] == p by { hide Run, Construct; }
    RunAfter(m, start, calls, n);
    var rest := calls[n + 1..];
    assert forall i | 0 <= i < |rest| :: rest[i] == calls[n + 1 + i];
    RunKeepsSettings(m, t, rest, name);
    before, launch, after := EveryLaunchUsesResolvedAddresses(m, config, alloc, calls, env);
    hide Run, Construct, Step, InferAsync, After;
  }

  /** The last shape set for a binding that was accepted is the one every later inference launches with. */
  lemma LatestShapeIsLaunched(m: Model, config: Config, alloc: string -> Allocation, calls: seq<Call>, n: nat,
                              name: string, dims: Dims, env: InferEnv)
    returns (before: Program, launch: Op, after: Program)
    requires WellFormed(m) && n < |calls| && calls[n] == BindShape(name, dims)
    requires After(m, Construct(m, config, alloc), calls, n).ok
    requires forall i | n < i < |calls| :: !Reshapes(calls[i], name)
    requires InferAsync(m, Run(m, Construct(m, config, alloc), calls), env).ok
    ensures var s := Run(m, Construct(m, config, alloc), calls);
            && InferAsync(m, s, env).s.log == s.log + before + [Item(ExecStream(s.mode), launch)] + after
            && launch.Launch? && name in launch.shapes && launch.shapes[name] == dims
  {
    var start := Construct(m, config, alloc);
    var t := After(m, start, calls, n).s;
    assert name in t.ctx.shapes
           && t.ctx.shapes[name] == dims by { hide Run, Construct, AllPositive, HasDynamic, ResetCudaGraph; }
    RunAfter(m, start, calls, n);
    var rest := calls[n + 1..];
    assert forall i | 0 <= i < |rest| :: rest[i] == calls[n + 1 + i];
    RunKeepsSettings(m, t, rest, name);
    before, launch, after := EveryLaunchUsesResolvedAddresses(m, config, alloc, calls, env);
    hide Run, Construct, Step, InferAsync, After;
  }

  /** The last stream that was accepted is the one every later inference launches on. */
  lemma LatestStreamIsUsed(m: Model, config: Config, alloc: string -> Allocation, calls: seq<Call>, k: nat, stream: nat)
    requires k < |calls| && calls[k] == UseStream(stream) && stream != 0
    requires forall i | k < i < |calls| :: !calls[i].UseStream?
    ensures ExecStream(Run(m, Construct(m, config, alloc), calls).mode) == Stream(stream)
  {
    var start := Construct(m, config, alloc);
    var u := After(m, start, calls, k).s;
    assert u.mode.external == stream by { hide Run, Construct, ResetCudaGraph; }
    RunAfter(m, start, calls, k);
    var rest := calls[k + 1..];
    assert forall i | 0 <= i < |rest| :: rest[i] == calls[k + 1 + i];
    RunKeepsSettings(m, u, rest, "");
    hide Run, Construct, Step, After;
  }

  /** The last shape set for a binding, and the last stream, that were accepted are those every later inference launches
      with. */
  lemma LatestShapeAndStreamAreLaunched(m: Model, config: Config, alloc: string -> Allocation, calls: seq<Call>, n: nat,
                                        k: nat, name: string, dims: Dims, stream: nat, env: InferEnv)
    returns (before: Program, launch: Op, after: Program)
    requires WellFormed(m) && n < |calls| && calls[n] == BindShape(name, dims)
    requires After(m, Construct(m, config, alloc), calls, n).ok
    requires k < |calls| && calls[k] == UseStream(stream) && stream != 0
    requires forall i | n < i < |calls| :: !Reshapes(calls[i], name)
    requires forall i | k < i < |calls| :: !calls[i].UseStream?
    requires InferAsync(m, Run(m, Construct(m, config, alloc), calls), env).ok
    ensures var s := Run(m, Construct(m, config, alloc), calls);
            && InferAsync(m, s, env).s.log == s.log + before + [Item(Stream(stream), launch)] + after
            && launch.Launch? && name in launch.shapes && launch.shapes[name] == dims
  {
    before, launch, after := LatestShapeIsLaunched(m, config, alloc, calls, n, name, dims, env);
    LatestStreamIsUsed(m, config, alloc, calls, k, stream);
    hide Run, Construct, Step, InferAsync, After;
  }
}
