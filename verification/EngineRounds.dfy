/** Rounds of the inference loop on real engines: when the runtime and TensorRT say yes, a round of one input, one
    inference and one read succeeds on every engine, again and again, and this is what it issues. */
module EngineRounds {
  import opened Streams
  import opened CudaMemory
  import opened TensorModel
  import opened EngineSpec
  import opened EngineCapacity
  import EngineInvariants
  import EngineRecapture
  import EngineShapes
  import opened EngineSchedules

  lemma {:induction false} BindsSucceed(m: Model, tensors: Tensors, user: map<string, Ptr>,
                                        addresses: map<string, Ptr>, k: nat)
    requires forall name, p :: m.acceptsAddress(name, p)
    ensures BindIOAddresses(m, tensors, user, addresses, k).ok
    decreases |m.order| - k
  {
    if k < |m.order| {
      var name := m.order[k];
      if name in tensors {
        BindsSucceed(m, tensors, user, addresses[name := Resolved(user, name, tensors[name])], k + 1);
      } else {
        BindsSucceed(m, tensors, user, addresses, k + 1);
      }
    }
  }

  lemma {:induction false} RecordsSucceed(m: Model, tensors: Tensors, a: Agent, events: map<string, nat>, next: nat,
                                          k: nat,
                                          recordOk: string -> bool)
    requires forall name :: recordOk(name)
    ensures RecordOutputs(m, tensors, a, events, next, k, recordOk).ok
    decreases |m.order| - k
  {
    if k < |m.order| {
      var name := m.order[k];
      if name in tensors && !tensors[name].isInput {
        RecordsSucceed(m, tensors, a, events[name := next], next + 1, k + 1, recordOk);
      } else {
        RecordsSucceed(m, tensors, a, events, next, k + 1, recordOk);
      }
    }
  }

  const Yes := InferEnv(name => true, true, CaptureEnv(true, true, true, true, true), true, name => true)

  /** With a willing runtime an inference succeeds on every loaded engine. */
  lemma InferSucceeds(m: Model, s: State)
    requires EngineInvariants.Inv(m, s) && s.mode.loaded && forall name, p :: m.acceptsAddress(name, p)
    ensures InferAsync(m, s, Yes).ok
  {
    EngineInvariants.ReplayRefinesEnqueue(m, s, Yes);
    EngineRecapture.WaitsSucceed(m, s.tensors, s.events.inputs, ExecStream(s.mode), 0, Yes.waitOk);
    BindsSucceed(m, s.tensors, s.user, s.ctx.addresses, 0);
    RecordsSucceed(m, s.tensors, ExecStream(s.mode), s.events.outputs, s.events.next, 0, Yes.recordOk);
    hide InferAsync, WaitInputs, BindIOAddresses, RecordOutputs, EngineInvariants.Inv;
  }

  lemma StepStaysLoaded(m: Model, s: State, c: Call)
    ensures Step(m, s, c).s.mode.loaded == s.mode.loaded
  {
    hide UpdateOutputShapes, MakeRoom, CopyIn, CopyOut, WaitInputs, BindIOAddresses, RecordOutputs, LaunchInference,
         CaptureOn,
         Snapshot, ResetCudaGraph, AllPositive, HasDynamic, Product;
  }

  // ── Engines ready for a round ────────────────────────────────────────

  ghost predicate Accepting(m: Model) {
    forall name, p :: m.acceptsAddress(name, p)
  }

  /** What every state of a loaded engine satisfies. */
  ghost predicate Ready(m: Model, s: State, maxProfile: bool) {
    EngineInvariants.Inv(m, s) && Equipped(m, s.tensors, maxProfile) && s.mode.loaded
  }

  lemma ConstructIsReady(m: Model, config: Config, alloc: string -> Allocation)
    requires WellFormed(m) && Supported(m) && AllGot(alloc)
    ensures var s := Construct(m, config, alloc); Ready(m, s, Normalised(config).maxProfile) && s.log == []
  {
    EngineInvariants.ConstructEstablishes(m, config, alloc);
    RunIsEquipped(m, config, alloc, []);
    hide Allocate, UpdateOutputShapes, BindIOAddresses, ResetCudaGraph, Equipped, EngineInvariants.Inv;
  }

  lemma StepStaysReady(m: Model, s: State, c: Call, maxProfile: bool)
    requires Ready(m, s, maxProfile) && AllocatesOk(c)
    ensures Ready(m, Step(m, s, c).s, maxProfile)
  {
    EquippedIsSound(m, s.tensors, maxProfile);
    EngineInvariants.StepKeeps(m, s, c);
    StepStaysLoaded(m, s, c);
    StepGrows(m, s, c);
    EquippedGrows(m, s.tensors, Step(m, s, c).s.tensors, maxProfile);
    hide Step, EngineInvariants.Inv, Equipped, AllGrew;
  }

  // ── The three calls of a round ───────────────────────────────────────

  function Filled(n: nat, v: int): (data: Bytes)
    ensures |data| == n && forall i | 0 <= i < n :: data[i] == v
  {
    seq(n, _ => v)
  }

  /** The call that fills an input with one value, in the shape it was allocated with. */
  function FillCall(b: Binding, maxProfile: bool, v: int): (c: Call)
    requires ElementSize(b.dtype) > 0
    ensures c.SetInput? && AllocatesOk(c)
  {
    var dims := InputShape(b, maxProfile);
    var n := Product(dims) * ElementSize(b.dtype);
    SetInput(b.name, Filled(if n >= 0 then n else 0, v), dims, SetEnv(Got(1, true), true, true))
  }

  lemma FillSucceeds(m: Model, s: State, b: Binding, maxProfile: bool, v: int)
    requires AllSound(s.tensors) && b.isInput && Equips(b, s.tensors, maxProfile)
    ensures ElementSize(b.dtype) > 0
    ensures var c := FillCall(b, maxProfile, v); var r := Step(m, s, c);
            && r.ok && |c.data| > 0 && (forall i | 0 <= i < |c.data| :: c.data[i] == v)
            && r.s.tensors[b.name].mem == s.tensors[b.name].mem
            && r.s.log
              == s.log + [Item(if b.hostLocated then Host
                               else Internal, Upload(s.tensors[b.name].mem.Address(), c.data)),
                                   Item(Internal, Record(s.events.next))]
  {
    var t, dims := s.tensors[b.name], InputShape(b, maxProfile);
    assert Sound(t);
    ShapesArePositive(m, s.ctx.shapes, b, maxProfile);
    PositiveShape(dims);
    PositiveProduct(Product(dims), ElementSize(b.dtype));
    var c := FillCall(b, maxProfile, v);
    hide InputShape, Product, AllPositive;
    SetInputSucceedsIff(m, s, b.name, c.data, dims, c.setEnv);
    FittingInputStays(m, s, b.name, c.data, dims, c.setEnv);
    hide SetInputData, TensorState.Agrees, MemState.Address, FillCall;
  }

  lemma FittingInputStays(m: Model, s: State, name: string, data: Bytes, dims: Dims, env: SetEnv)
    requires name in s.tensors && Sound(s.tensors[name]) && AllPositive(dims) && env.alloc.Got?
    requires Product(dims) * s.tensors[name].elementSize <= s.tensors[name].capacity
    ensures name in SetInputData(m, s, name, data, dims, env).s.tensors
    ensures SetInputData(m, s, name, data, dims, env).s.tensors[name].mem == s.tensors[name].mem
  {
    MakeRoomGrows(m, s, name, s.tensors[name], dims, env.alloc);
    hide MakeRoom, Product, AllPositive, CopyIn, Sound;
  }

  /** Waits and records, all on streams. */
  ghost predicate Quiet(p: Program) {
    forall q | q in p :: !IsMemory(q.op) && q.agent != Host
  }

  ghost predicate IssuedOn(p: Program, a: Agent) {
    forall q | q in p :: q.agent == a
  }

  lemma {:induction false} WaitsAreQuiet(m: Model, tensors: Tensors, events: map<string, nat>, a: Agent, k: nat,
                                         waitOk: string -> bool)
    requires a != Host
    ensures var w := WaitInputs(m, tensors, events, a, k, waitOk).ops; Quiet(w) && IssuedOn(w, a)
    decreases |m.order| - k
  {
    if k < |m.order| { WaitsAreQuiet(m, tensors, events, a, k + 1, waitOk); }
  }

  lemma {:induction false} RecordsAreQuiet(m: Model, tensors: Tensors, a: Agent, events: map<string, nat>, next: nat,
                                           k: nat,
                                           recordOk: string -> bool)
    requires a != Host
    ensures var r := RecordOutputs(m, tensors, a, events, next, k, recordOk).ops; Quiet(r) && IssuedOn(r, a)
    decreases |m.order| - k
  {
    if k < |m.order| {
      RecordsAreQuiet(m, tensors, a, events[m.order[k] := next], next + 1, k + 1, recordOk);
      RecordsAreQuiet(m, tensors, a, events, next, k + 1, recordOk);
    }
  }

  lemma {:induction false} RecordsKnowOutputs(m: Model, tensors: Tensors, a: Agent, events: map<string, nat>,
                                              next: nat, k: nat,
                                              recordOk: string -> bool)
    requires k <= |m.order|
    ensures var r := RecordOutputs(m, tensors, a, events, next, k, recordOk);
            r.ok ==> forall name | name in tensors && !tensors[name].isInput
            && (name in m.order[k..] || name in events) :: name in r.events
    decreases |m.order| - k
  {
    if k < |m.order| {
      var name := m.order[k];
      assert m.order[k..] == [name] + m.order[k + 1..];
      RecordsKnowOutputs(m, tensors, a, events[name := next], next + 1, k + 1, recordOk);
      RecordsKnowOutputs(m, tensors, a, events, next, k + 1, recordOk);
    }
  }

  /** What a successful inference issues: waits, one launch, and an event for every output. */
  lemma InferIssues(m: Model, s: State, env: InferEnv) returns (waits: Program, launch: Item, records: Program)
    requires EngineInvariants.Inv(m, s) && InferAsync(m, s, env).ok
    ensures var r := InferAsync(m, s, env).s;
            && r.log == s.log + waits + [launch] + records && Quiet(waits) && Quiet(records)
            && launch == Item(ExecStream(s.mode), Launch(s.ctx.shapes, EngineInvariants.LaunchContext(m, s).addresses))
            && IssuedOn(waits, ExecStream(s.mode)) && IssuedOn(records, ExecStream(s.mode))
            && r.tensors == s.tensors
            && (forall name | name in s.tensors && !s.tensors[name].isInput :: name in r.events.outputs)
  {
    var a := ExecStream(s.mode);
    var ctx := EngineInvariants.LaunchContext(m, s);
    EngineInvariants.ReplayRefinesEnqueue(m, s, env);
    waits := WaitInputs(m, s.tensors, s.events.inputs, a, 0, env.waitOk).ops;
    records := RecordOutputs(m, s.tensors, a, s.events.outputs, s.events.next, 0, env.recordOk).ops;
    launch := Item(a, Launch(ctx.shapes, ctx.addresses));
    WaitsAreQuiet(m, s.tensors, s.events.inputs, a, 0, env.waitOk);
    RecordsAreQuiet(m, s.tensors, a, s.events.outputs, s.events.next, 0, env.recordOk);
    RecordsKnowOutputs(m, s.tensors, a, s.events.outputs, s.events.next, 0, env.recordOk);
    assert m.order[0..] == m.order;
    hide InferAsync, WaitInputs, RecordOutputs, BindIOAddresses, EngineInvariants.Launches,
         EngineInvariants.HandlesConserved,
         EngineInvariants.GraphIsCurrent, EngineInvariants.AddressesResolved;
  }

  /** A read of the size the refresh gives succeeds once the output's event is there. */
  lemma GetOutputSucceeds(m: Model, s: State, name: string, dst: nat) returns (c: Call, p: Ptr)
    requires AllSound(s.tensors) && s.mode.loaded && name in s.tensors && !s.tensors[name].isInput
    requires name in s.events.outputs
    ensures c.GetOutput? && AllocatesOk(c) && c.name == name && Step(m, s, c).ok
    ensures Step(m, s, c).s.log
            == s.log + [Item(Internal, Wait(s.events.outputs[name])),
                        Item(if s.tensors[name].mem.kind == Device then Internal else Host, Download(p, dst))]
  {
    var env := GetEnv(n => Got(1, true), true, true);
    UpdateGrows(m, s.mode.frozen, s.ctx.shapes, s.tensors, s.ctx.addresses, 0, env.alloc);
    var t := RefreshForRead(m, s, env.alloc).tensors[name];
    assert t.mem.kind == s.tensors[name].mem.kind;
    hide RefreshForRead, GetOutputData, UpdateOutputShapes;
    GetOutputSucceedsIff(m, s, name, dst, t.byteSize, env);
    c, p := GetOutput(name, dst, t.byteSize, env), t.mem.Address();
  }

  /** A read moves no input. */
  lemma ReadKeepsInputs(m: Model, s: State, c: Call, b: Binding)
    requires WellFormed(m) && c.GetOutput? && b in m.io && b.isInput && b.name in s.tensors
    ensures var r := Step(m, s, c).s; b.name in r.tensors && r.tensors[b.name] == s.tensors[b.name]
  {
    EngineShapes.UpdateKeepsOthers(m, s.mode.frozen, s.ctx.shapes, s.tensors, s.ctx.addresses, 0, c.getEnv.alloc);
    assert Absent(m, 0, b.name, true);
    hide UpdateOutputShapes, CopyOut;
  }

  // ── Runs of the loop ─────────────────────────────────────────────────

  /** The calls follow the loop, allocate, and copy only to and from these bindings. */
  ghost predicate LoopRun(m: Model, s: State, calls: seq<Call>, used: set<string>) {
    (forall i | 0 <= i < |calls| :: AllocatesOk(calls[i]) && Uses(calls[i], used)) && PhaseAfter(m, s, calls).Some?
  }

  lemma Extend(m: Model, s: State, calls: seq<Call>, c: Call, used: set<string>)
    requires LoopRun(m, s, calls, used) && AllocatesOk(c) && Uses(c, used) && Step(m, Run(m, s, calls), c).ok
    requires Next(PhaseAfter(m, s, calls).value, c).Some?
    ensures LoopRun(m, s, calls + [c], used) && PhaseAfter(m, s, calls + [c]) == Next(PhaseAfter(m, s, calls).value, c)
    ensures Run(m, s, calls + [c]) == Step(m, Run(m, s, calls), c).s
  {
    hide Step, AllocatesOk, Uses, Next;
    assert (calls + [c])[..|calls|] == calls;
  }

  /** One round appended to a run: an input filled with one value, an inference, a read. Its operations, apart from
      waits and records, are the upload, the launch and the download. */
  ghost predicate Rounded(before: Program, after: Program, up: Item, e1: Program, launch: Item, e2: Program,
                          down: Item) {
    && after == before + ([up] + e1) + [launch] + e2 + [down] && Quiet(e1) && Quiet(e2)
    && launch.op.Launch? && launch.agent != Host
  }

  function UploadOf(s: State, b: Binding, c: Call): Item
    requires c.SetInput? && b.name in s.tensors
  {
    Item(if b.hostLocated then Host else Internal, Upload(s.tensors[b.name].mem.Address(), c.data))
  }

  lemma FillStep(m: Model, s: State, maxProfile: bool, b: Binding, v: int) returns (record: Item)
    requires Ready(m, s, maxProfile) && b in m.io && b.isInput && ElementSize(b.dtype) > 0
    ensures var c := FillCall(b, maxProfile, v); var r := Step(m, s, c);
            && r.ok && Ready(m, r.s, maxProfile) && (|c.data| > 0 && forall i | 0 <= i < |c.data| :: c.data[i] == v)
            && b.name in s.tensors && b.name in r.s.tensors && r.s.tensors[b.name].mem == s.tensors[b.name].mem
            && r.s.log == s.log + [UploadOf(s, b, c), record] && Quiet([record])
  {
    assert Equips(b, s.tensors, maxProfile);
    EquippedIsSound(m, s.tensors, maxProfile);
    FillSucceeds(m, s, b, maxProfile, v);
    StepStaysReady(m, s, FillCall(b, maxProfile, v), maxProfile);
    record := Item(Internal, Record(s.events.next));
    assert Equips(b, Step(m, s, FillCall(b, maxProfile, v)).s.tensors, maxProfile);
    hide Step, FillCall, Equipped, AllSound, EngineInvariants.Inv;
  }

  lemma InferStep(m: Model, s: State, maxProfile: bool) returns (waits: Program, launch: Item, records: Program)
    requires Ready(m, s, maxProfile) && Accepting(m)
    ensures var r := Step(m, s, Infer(Yes));
            && r.ok && Ready(m, r.s, maxProfile) && r.s.tensors == s.tensors
            && r.s.log == s.log + waits + [launch] + records && Quiet(waits) && Quiet(records)
            && launch.op.Launch? && launch.agent != Host
            && (forall name | name in s.tensors && !s.tensors[name].isInput :: name in r.s.events.outputs)
  {
    InferSucceeds(m, s);
    StepStaysReady(m, s, Infer(Yes), maxProfile);
    waits, launch, records := InferIssues(m, s, Yes);
    hide Equipped, EngineInvariants.Inv, InferAsync, EngineInvariants.LaunchContext;
  }

  lemma ReadStep(m: Model, s: State, maxProfile: bool, o: Binding, dst: nat, b: Binding)
    returns (c: Call, wait: Item, down: Item)
    requires WellFormed(m) && Ready(m, s, maxProfile) && o in m.io && !o.isInput && b in m.io && b.isInput
    requires o.name in s.tensors && !s.tensors[o.name].isInput ==> o.name in s.events.outputs
    ensures c.GetOutput? && AllocatesOk(c) && c.name == o.name
    ensures var r := Step(m, s, c);
            && r.ok && Ready(m, r.s, maxProfile)
            && b.name in s.tensors && b.name in r.s.tensors && r.s.tensors[b.name].mem == s.tensors[b.name].mem
            && r.s.log == s.log + [wait, down] && Quiet([wait])
            && down.agent == (if o.hostLocated then Host else Internal) && down.op.Download? && down.op.dst == dst
  {
    assert Equips(o, s.tensors, maxProfile) && Equips(b, s.tensors, maxProfile);
    EquippedIsSound(m, s.tensors, maxProfile);
    var p;
    c, p := GetOutputSucceeds(m, s, o.name, dst);
    StepStaysReady(m, s, c, maxProfile);
    ReadKeepsInputs(m, s, c, b);
    wait := Item(Internal, Wait(s.events.outputs[o.name]));
    down := Item(if o.hostLocated then Host else Internal, Download(p, dst));
    hide Step, Equipped, AllSound, EngineInvariants.Inv;
  }

  lemma OutputIsKnown(m: Model, s: State, maxProfile: bool, o: Binding)
    requires Ready(m, s, maxProfile) && o in m.io && !o.isInput
    ensures o.name in s.tensors && !s.tensors[o.name].isInput
  {
    assert Equips(o, s.tensors, maxProfile);
  }

  lemma RoundSucceeds(m: Model, s: State, maxProfile: bool, b: Binding, v: int, o: Binding, dst: nat)
    returns (read: Call, e1: Program, launch: Item, e2: Program, down: Item)
    requires WellFormed(m) && Ready(m, s, maxProfile) && Accepting(m)
    requires b in m.io && b.isInput && o in m.io && !o.isInput && ElementSize(b.dtype) > 0
    ensures read.GetOutput? && AllocatesOk(read) && read.name == o.name
    ensures var fill := FillCall(b, maxProfile, v);
            var s1 := Step(m, s, fill).s; var s2 := Step(m, s1, Infer(Yes)).s; var s3 := Step(m, s2, read).s;
            && b.name in s.tensors && b.name in s3.tensors && s3.tensors[b.name].mem == s.tensors[b.name].mem
            && Step(m, s, fill).ok && Step(m, s1, Infer(Yes)).ok && Step(m, s2, read).ok && Ready(m, s3, maxProfile)
            && Rounded(s.log, s3.log, UploadOf(s, b, fill), e1, launch, e2, down)
            && down.agent == (if o.hostLocated then Host else Internal) && down.op.Download? && down.op.dst == dst
  {
    var fill := FillCall(b, maxProfile, v);
    hide *;
    var record := FillStep(m, s, maxProfile, b, v);
    var s1 := Step(m, s, fill).s;
    var waits, records;
    waits, launch, records := InferStep(m, s1, maxProfile);
    var s2 := Step(m, s1, Infer(Yes)).s;
    OutputIsKnown(m, s1, maxProfile, o);
    var wait;
    read, wait, down := ReadStep(m, s2, maxProfile, o, dst, b);
    e1, e2 := [record] + waits, records + [wait];
    var s3 := Step(m, s2, read).s;
    RoundLog(s.log, s1.log, s2.log, s3.log, UploadOf(s, b, fill), record, waits, launch, records, wait, down);
  }

  lemma RoundLog(l: Program, l1: Program, l2: Program, l3: Program, up: Item, record: Item, waits: Program,
                 launch: Item,
                 records: Program, wait: Item, down: Item)
    requires l1 == l + [up, record] && l2 == l1 + waits + [launch] + records && l3 == l2 + [wait, down]
    requires Quiet([record]) && Quiet(waits) && Quiet(records) && Quiet([wait]) && launch.op.Launch?
    requires launch.agent != Host
    ensures Rounded(l, l3, up, [record] + waits, launch, records + [wait], down)
  {
    assert [record][0] == record && [wait][0] == wait;
    assert [up] + ([record] + waits) == [up, record] + waits;
  }

  /** Any run of the loop that is between rounds can go on with one more. */
  lemma AddRound(m: Model, start: State, calls: seq<Call>, used: set<string>, maxProfile: bool, b: Binding, v: int,
                 o: Binding,
                 dst: nat)
    returns (longer: seq<Call>, e1: Program, launch: Item, e2: Program, down: Item)
    requires WellFormed(m) && Accepting(m) && LoopRun(m, start, calls, used)
    requires Ready(m, Run(m, start, calls), maxProfile)
    requires PhaseAfter(m, start, calls) == Some(Start) || PhaseAfter(m, start, calls) == Some(Reading)
    requires b in m.io && b.isInput && o in m.io && !o.isInput && ElementSize(b.dtype) > 0 && b.name in used
    requires o.name in used
    ensures LoopRun(m, start, longer, used) && PhaseAfter(m, start, longer) == Some(Reading)
    ensures var s, t := Run(m, start, calls), Run(m, start, longer);
            && Ready(m, t, maxProfile) && b.name in s.tensors && b.name in t.tensors
            && t.tensors[b.name].mem == s.tensors[b.name].mem
            && Rounded(s.log, t.log, UploadOf(s, b, FillCall(b, maxProfile, v)), e1, launch, e2, down)
            && down.agent == (if o.hostLocated then Host else Internal) && down.op.Download? && down.op.dst == dst
  {
    var s, fill, infer := Run(m, start, calls), FillCall(b, maxProfile, v), Infer(Yes);
    var read;
    read, e1, launch, e2, down := RoundSucceeds(m, s, maxProfile, b, v, o, dst);
    assert fill.name == b.name;
    hide FillCall, Step, AllocatesOk, Ready, Run, PhaseAfter, LoopRun, Rounded, Accepting, WellFormed, UploadOf;
    longer := ExtendRound(m, start, calls, fill, infer, read, used);
  }

  /** Three calls that succeed one after the other, the next round of the loop. */
  lemma ExtendRound(m: Model, start: State, calls: seq<Call>, fill: Call, infer: Call, read: Call, used: set<string>)
    returns (longer: seq<Call>)
    requires LoopRun(m, start, calls, used)
    requires PhaseAfter(m, start, calls) == Some(Start) || PhaseAfter(m, start, calls) == Some(Reading)
    requires fill.SetInput? && infer.Infer? && read.GetOutput? && fill.name in used && read.name in used
    requires AllocatesOk(fill) && AllocatesOk(read)
    requires var s := Run(m, start, calls); var s1 := Step(m, s, fill); var s2 := Step(m, s1.s, infer);
             s1.ok && s2.ok && Step(m, s2.s, read).ok
    ensures LoopRun(m, start, longer, used) && PhaseAfter(m, start, longer) == Some(Reading)
    ensures var s1 := Step(m, Run(m, start, calls), fill).s;
            Run(m, start, longer) == Step(m, Step(m, s1, infer).s, read).s
  {
    assert AllocatesOk(infer);
    hide Step, AllocatesOk, Run, PhaseAfter, LoopRun;
    Extend(m, start, calls, fill, used);
    Extend(m, start, calls + [fill], infer, used);
    Extend(m, start, calls + [fill] + [infer], read, used);
    longer := calls + [fill] + [infer] + [read];
  }

  /** From a fresh engine with an input and an output, the schedule theorem's loop can be run. */
  lemma ARoundSucceeds(m: Model, config: Config, alloc: string -> Allocation, used: set<string>, b: Binding,
                       o: Binding, dst: nat)
    returns (calls: seq<Call>)
    requires WellFormed(m) && Supported(m) && AllGot(alloc) && Accepting(m)
    requires b in m.io && b.isInput && o in m.io && !o.isInput && b.name in used && o.name in used
    ensures LoopRun(m, Construct(m, config, alloc), calls, used)
    ensures PhaseAfter(m, Construct(m, config, alloc), calls) == Some(Reading)
  {
    var s, max := Construct(m, config, alloc), Normalised(config).maxProfile;
    ConstructIsReady(m, config, alloc);
    NoCalls(m, s, used);
    assert ElementSize(b.dtype) > 0;
    hide *;
    var e1, launch, e2, down;
    calls, e1, launch, e2, down := AddRound(m, s, [], used, max, b, 0, o, dst);
  }

  lemma NoCalls(m: Model, s: State, used: set<string>)
    ensures LoopRun(m, s, [], used) && PhaseAfter(m, s, []) == Some(Start) && Run(m, s, []) == s
  {
  }
}
