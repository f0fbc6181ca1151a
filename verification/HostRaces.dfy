/** Why the schedule theorem asks for bindings on the device, and that it asks for no more: an engine keeps the
    promise that every schedule gives the host the sequential bytes exactly when the bindings it copies to and from
    are on the device. */
module HostRaces {
  import opened Streams
  import opened CudaMemory
  import opened TensorModel
  import opened EngineSpec
  import opened EngineCapacity
  import EngineInvariants
  import opened EngineSchedules
  import opened EngineRounds
  import opened EngineDelivery
  import opened HostSchedules

  // ── What a loop run has issued ───────────────────────────────────────

  /** The host only copies, reads follow an inference, and between an inference and the next input nothing is
      uploaded. */
  ghost predicate LoopShape(p: Program, phase: Phase) {
    HostCopies(p) && ReadsSettled(p) && (phase == Inferred || phase == Reading ==> Settled(p))
  }

  lemma ItemAppends(p: Program, x: Item)
    requires HostCopies(p) && ReadsSettled(p) && (x.agent == Host ==> x.op.Upload? || x.op.Download?)
    requires x.op.Download? ==> Settled(p)
    ensures HostCopies(p + [x]) && ReadsSettled(p + [x])
    ensures Settled(p + [x]) <==> x.op.Launch? || (!x.op.Upload? && Settled(p))
  {
    assert (p + [x])[..|p|] == p;
  }

  lemma {:induction false} QuietAppends(p: Program, q: Program)
    requires Quiet(q) && HostCopies(p) && ReadsSettled(p)
    ensures HostCopies(p + q) && ReadsSettled(p + q) && (Settled(p + q) <==> Settled(p))
    decreases |q|
  {
    if q == [] {
      assert p + q == p;
    } else {
      var n := |q| - 1;
      assert q[n] in q;
      QuietAppends(p, q[..n]);
      ItemAppends(p + q[..n], q[n]);
      assert p + q == p + q[..n] + [q[n]];
    }
  }

  lemma StepShapes(m: Model, s: State, c: Call, phase: Phase)
    requires EngineInvariants.Inv(m, s) && AllSound(s.tensors) && AllocatesOk(c) && LoopShape(s.log, phase)
    requires Next(phase, c).Some? && ((c.SetInput? || c.Infer? || c.GetOutput?) ==> Step(m, s, c).ok)
    ensures LoopShape(Step(m, s, c).s.log, Next(phase, c).value)
  {
    hide SetInputData, GetOutputData, InferAsync, HostCopies, Settled, ReadsSettled, Quiet, EngineInvariants.Inv, Sound;
    match c
    case SetInput(name, data, dims, env) =>
      SetInputSucceedsIff(m, s, name, data, dims, env);
      hide Product, AllPositive, HasRoom;
      var r := Step(m, s, c).s;
      var up, record := r.log[|s.log|], Item(Internal, Record(s.events.next));
      assert r.log == s.log + [up] + [record];
      ItemAppends(s.log, up);
      OneQuiet(record);
      QuietAppends(s.log + [up], [record]);
    case Infer(env) =>
      var waits, launch, records := InferIssues(m, s, env);
      QuietAppends(s.log, waits);
      ItemAppends(s.log + waits, launch);
      QuietAppends(s.log + waits + [launch], records);
    case GetOutput(name, dst, size, env) =>
      GetOutputSucceedsIff(m, s, name, dst, size, env);
      hide RefreshForRead;
      var r := Step(m, s, c).s;
      var wait, down := Item(Internal, Wait(s.events.outputs[name])), r.log[|s.log| + 1];
      assert r.log == s.log + [wait] + [down];
      OneQuiet(wait);
      QuietAppends(s.log, [wait]);
      ItemAppends(s.log + [wait], down);
    case _ =>
      OtherShapes(m, s, c, phase);
  }

  lemma OneQuiet(x: Item)
    requires !IsMemory(x.op) && x.agent != Host
    ensures Quiet([x])
  {
  }

  lemma OtherShapes(m: Model, s: State, c: Call, phase: Phase)
    requires !c.SetInput? && !c.Infer? && !c.GetOutput? && LoopShape(s.log, phase) && Next(phase, c).Some?
    ensures LoopShape(Step(m, s, c).s.log, Next(phase, c).value)
  {
    if c.CaptureGraph? {
      var w := WaitInputs(m, s.tensors, s.events.inputs, ExecStream(s.mode), 0, c.captureEnv.waitOk);
      WaitsAreQuiet(m, s.tensors, s.events.inputs, ExecStream(s.mode), 0, c.captureEnv.waitOk);
      QuietAppends(s.log, w.ops);
      hide WaitInputs, CaptureOn, Snapshot, HostCopies, Settled, ReadsSettled, Quiet;
    } else {
      hide UpdateOutputShapes, BindIOAddresses, ResetCudaGraph, AllPositive, HasDynamic, HostCopies, Settled,
           ReadsSettled;
    }
  }

  lemma {:induction false} RunShapes(m: Model, s: State, calls: seq<Call>)
    requires EngineInvariants.Inv(m, s) && AllSound(s.tensors) && s.log == [] && PhaseAfter(m, s, calls).Some?
    requires forall i | 0 <= i < |calls| :: AllocatesOk(calls[i])
    ensures LoopShape(Run(m, s, calls).log, PhaseAfter(m, s, calls).value)
    decreases |calls|
  {
    hide Step, Sound, AllocatesOk, EngineInvariants.Inv;
    if calls != [] {
      var n := |calls| - 1;
      RunShapes(m, s, calls[..n]);
      RunGrows(m, s, calls[..n]);
      EngineInvariants.RunKeeps(m, s, calls[..n]);
      StepShapes(m, Run(m, s, calls[..n]), calls[n], PhaseAfter(m, s, calls[..n]).value);
    }
  }

  // ── Every read of a host-located output races ────────────────────────

  ghost predicate HostLocated(m: Model, name: string) {
    exists i :: 0 <= i < |m.io| && m.io[i].name == name && m.io[i].hostLocated
  }

  /** The host's bytes at some destination differ from those of sequential execution. */
  ghost predicate Differs(k: Kernel, p: Program, schedule: seq<nat>, w: World, dst: nat) {
    Legal(p, schedule) && At(Exec(k, p, schedule, w).host, dst) != At(InOrder(k, p, w).host, dst)
  }

  lemma HostReadIssues(m: Model, s: State, c: Call) returns (wait: Item)
    requires AllSound(s.tensors) && c.GetOutput? && AllocatesOk(c) && Step(m, s, c).ok
    requires c.name in s.tensors ==> s.tensors[c.name].mem.kind == Pinned
    ensures c.name in s.tensors && Quiet([wait])
    ensures Step(m, s, c).s.log
            == s.log + [wait] + [Item(Host, Download(ReadAddress(m, s, c.name, c.getEnv.alloc), c.dst))]
  {
    var env := c.getEnv;
    GetOutputSucceedsIff(m, s, c.name, c.dst, c.size, env);
    UpdateGrows(m, s.mode.frozen, s.ctx.shapes, s.tensors, s.ctx.addresses, 0, env.alloc);
    var t := RefreshForRead(m, s, env.alloc).tensors[c.name].mem;
    assert t.kind == Pinned;
    hide GetOutputData, RefreshForRead, UpdateOutputShapes, Sound;
    wait := Item(Internal, Wait(s.events.outputs[c.name]));
    assert Step(m, s, c).s.log == s.log + [wait] + [Item(Host, Download(t.Address(), c.dst))];
  }

  lemma HostReadOfStateRaces(m: Model, s: State, c: Call) returns (k: Kernel, schedule: seq<nat>, w: World)
    requires AllSound(s.tensors) && c.GetOutput? && AllocatesOk(c) && Step(m, s, c).ok
    requires c.name in s.tensors && s.tensors[c.name].mem.kind == Pinned && LoopShape(s.log, Reading)
    requires Unread(s.log, ReadAddress(m, s, c.name, c.getEnv.alloc), c.dst)
    ensures Differs(k, Step(m, s, c).s.log, schedule, w, c.dst)
  {
    var wait := HostReadIssues(m, s, c);
    var q, p := s.log + [wait], ReadAddress(m, s, c.name, c.getEnv.alloc);
    QuietAppends(s.log, [wait]);
    assert Unread(q, p, c.dst) by {
      assert q[|s.log|] == wait && wait in [wait];
      assert forall i | 0 <= i < |s.log| :: q[i] == s.log[i];
    }
    hide Step, AllSound, HostCopies, Settled, ReadsSettled, Quiet, ReadAddress, Unread;
    k, w := HostReadRaces(q, p, c.dst);
    schedule := HostFirst(Step(m, s, c).s.log);
  }

  /** Host-located bindings have page-locked memory after any run, others device memory. */
  lemma PlacedAfterRun(m: Model, config: Config, alloc: string -> Allocation, calls: seq<Call>, name: string)
    requires WellFormed(m) && Supported(m) && AllGot(alloc) && forall i | 0 <= i < |calls| :: AllocatesOk(calls[i])
    ensures var s := Run(m, Construct(m, config, alloc), calls);
            && AllSound(s.tensors)
            && (HostLocated(m, name) ==> name in s.tensors && s.tensors[name].mem.kind == Pinned)
            && (DeviceLocated(m, {name}) && name in s.tensors ==> s.tensors[name].mem.kind == Device)
  {
    RunIsEquipped(m, config, alloc, calls);
    var start, s, max := Construct(m, config, alloc), Run(m, Construct(m, config, alloc), calls),
                         Normalised(config).maxProfile;
    EquippedIsSound(m, s.tensors, max);
    if HostLocated(m, name) {
      var j :| 0 <= j < |m.io| && m.io[j].name == name && m.io[j].hostLocated;
      assert Equips(m.io[j], s.tensors, max);
    }
    if DeviceLocated(m, {name}) {
      ConstructOnDevice(m, config, alloc, {name});
      RunIsEquipped(m, config, alloc, []);
      EquippedIsSound(m, start.tensors, max);
      RunGrows(m, start, calls);
      GrewOnDevice(start.tensors, s.tensors, {name});
    }
    hide Run, Construct, AllSound, AllGrew, Equipped;
  }

  lemma ShapeAfterRun(m: Model, config: Config, alloc: string -> Allocation, calls: seq<Call>)
    requires WellFormed(m) && Supported(m) && AllGot(alloc) && (forall i | 0 <= i < |calls| :: AllocatesOk(calls[i]))
    requires PhaseAfter(m, Construct(m, config, alloc), calls).Some?
    ensures LoopShape(Run(m, Construct(m, config, alloc), calls).log,
                      PhaseAfter(m, Construct(m, config, alloc), calls).value)
  {
    var s := Construct(m, config, alloc);
    ConstructIsReady(m, config, alloc);
    EquippedIsSound(m, s.tensors, Normalised(config).maxProfile);
    hide Construct, Run, PhaseAfter, AllSound, Equipped, EngineInvariants.Inv, LoopShape;
    RunShapes(m, s, calls);
  }

  /** The last call of a loop run follows a loop run. */
  lemma LastCall(m: Model, s: State, calls: seq<Call>, c: Call)
    requires PhaseAfter(m, s, calls + [c]).Some?
    ensures PhaseAfter(m, s, calls).Some? && Next(PhaseAfter(m, s, calls).value, c).Some?
    ensures c.SetInput? || c.Infer? || c.GetOutput? ==> Step(m, Run(m, s, calls), c).ok
    ensures Run(m, s, calls + [c]) == Step(m, Run(m, s, calls), c).s
  {
    hide Step;
    assert (calls + [c])[..|calls|] == calls;
  }

  /** Whatever loop an engine has run, and however often: reading a host-located output lets some schedule give the host
      other bytes, unless a read on a stream has already copied that same memory to the same destination. */
  lemma EveryHostReadRaces(m: Model, config: Config, alloc: string -> Allocation, calls: seq<Call>, read: Call)
    returns (k: Kernel, schedule: seq<nat>, w: World)
    requires WellFormed(m) && Supported(m) && AllGot(alloc) && read.GetOutput? && HostLocated(m, read.name)
    requires AllocatesOk(read) && forall i | 0 <= i < |calls| :: AllocatesOk(calls[i])
    requires PhaseAfter(m, Construct(m, config, alloc), calls + [read]).Some?
    requires var s := Run(m, Construct(m, config, alloc), calls);
             read.name in s.tensors ==> Unread(s.log, ReadAddress(m, s, read.name, read.getEnv.alloc), read.dst)
    ensures Differs(k, Run(m, Construct(m, config, alloc), calls + [read]).log, schedule, w, read.dst)
  {
    var s := Construct(m, config, alloc);
    LastCall(m, s, calls, read);
    ShapeAfterRun(m, config, alloc, calls);
    PlacedAfterRun(m, config, alloc, calls, read.name);
    hide Construct, Run, PhaseAfter, Step, AllSound, Settled, ReadsSettled, HostCopies, Unread, Differs, AllocatesOk,
         ReadAddress;
    k, schedule, w := HostReadOfStateRaces(m, Run(m, s, calls), read);
  }

  // ── Every write of other data to a host-located input races ──────────

  /** What a call may issue: launches are inferences, uploads set inputs, downloads read outputs. */
  ghost predicate Mine(c: Call, x: Item) {
    && (x.op.Launch? ==> c.Infer?) && (x.op.Upload? ==> c.SetInput?)
    && (x.op.Download? ==> c.GetOutput? && x.op.dst == c.dst)
  }

  lemma StepIssues(m: Model, s: State, c: Call) returns (ops: Program)
    requires EngineInvariants.Inv(m, s)
    ensures Step(m, s, c).s.log == s.log + ops && forall x | x in ops :: Mine(c, x)
  {
    hide Product, AllPositive, MakeRoom, RefreshForRead, UpdateOutputShapes, BindIOAddresses, WaitInputs, RecordOutputs,
         LaunchInference, CaptureOn, Snapshot, ResetCudaGraph, HasDynamic, InferAsync, EngineInvariants.Inv,
         EngineInvariants.InferDirect, MemState.Copy;
    ops := [];
    match c
    case SetInput(_, _, _, _) => ops := Step(m, s, c).s.log[|s.log|..];
    case GetOutput(_, _, _, _) => ops := Step(m, s, c).s.log[|s.log|..];
    case Infer(env) => ops := InferIssuesOwn(m, s, env);
    case CaptureGraph(env) =>
      WaitsAreQuiet(m, s.tensors, s.events.inputs, ExecStream(s.mode), 0, env.waitOk);
      ops := Step(m, s, c).s.log[|s.log|..];
    case _ =>
  }

  lemma InferIssuesOwn(m: Model, s: State, env: InferEnv) returns (ops: Program)
    requires EngineInvariants.Inv(m, s)
    ensures InferAsync(m, s, env).s.log == s.log + ops && forall x | x in ops :: Mine(Infer(env), x)
  {
    hide InferAsync, WaitInputs, RecordOutputs, BindIOAddresses, EngineInvariants.Launches, EngineInvariants.Inv;
    EngineInvariants.ReplayRefinesEnqueue(m, s, env);
    WaitsAreQuiet(m, s.tensors, s.events.inputs, ExecStream(s.mode), 0, env.waitOk);
    RecordsAreQuiet(m, s.tensors, ExecStream(s.mode), s.events.outputs, s.events.next, 0, env.recordOk);
    ops := InferAsync(m, s, env).s.log[|s.log|..];
  }

  lemma {:induction false} RunIssues(m: Model, s: State, calls: seq<Call>, i: nat, j: nat) returns (ops: Program)
    requires EngineInvariants.Inv(m, s) && i <= j <= |calls|
    ensures Run(m, s, calls[..j]).log == Run(m, s, calls[..i]).log + ops
    ensures forall x | x in ops :: exists n :: i <= n < j && Mine(calls[n], x)
    decreases j
  {
    hide Step, EngineInvariants.Inv, Mine;
    if i == j {
      ops := [];
    } else {
      var before := RunIssues(m, s, calls, i, j - 1);
      EngineInvariants.RunKeeps(m, s, calls[..j - 1]);
      var last := StepIssues(m, Run(m, s, calls[..j - 1]), calls[j - 1]);
      RunNext(m, s, calls, j - 1);
      ops := before + last;
      forall x | x in ops ensures exists n :: i <= n < j && Mine(calls[n], x) {
        assert x in before || x in last;
      }
    }
  }

  lemma RunNext(m: Model, s: State, calls: seq<Call>, n: nat)
    requires n < |calls|
    ensures Run(m, s, calls[..n + 1]) == Step(m, Run(m, s, calls[..n]), calls[n]).s
  {
    hide Step;
    assert calls[..n + 1][..n] == calls[..n];
  }

  /** Every prefix of a loop run is one, and its inputs, inferences and reads succeed. */
  lemma {:induction false} PhasePrefix(m: Model, s: State, calls: seq<Call>, n: nat)
    requires n < |calls| && PhaseAfter(m, s, calls).Some?
    ensures PhaseAfter(m, s, calls[..n]).Some?
    ensures calls[n].SetInput? || calls[n].Infer? || calls[n].GetOutput? ==> Step(m, Run(m, s, calls[..n]), calls[n]).ok
    decreases |calls|
  {
    hide Step;
    var k := |calls| - 1;
    if n < k {
      PhasePrefix(m, s, calls[..k], n);
      assert calls[..k][..n] == calls[..n];
    }
  }

  /** The last copy to the memory was of other data, if there was one. */
  ghost predicate HeldOther(l: Program, p: Ptr, data: Bytes) {
    Uploads(l, p) ==> LastUpload(l, p, []) != data
  }

  ghost predicate Uploadless(q: Program) {
    forall x | x in q :: !x.op.Upload?
  }

  lemma {:induction false} UploadlessKeepsLast(p: Program, q: Program, ptr: Ptr)
    requires Uploadless(q)
    ensures LastUpload(p + q, ptr, []) == LastUpload(p, ptr, [])
    decreases |q|
  {
    if q == [] {
      assert p + q == p;
    } else {
      assert (p + q)[..|p + q| - 1] == p + q[..|q| - 1];
      UploadlessKeepsLast(p, q[..|q| - 1], ptr);
      assert q[|q| - 1] in q;
    }
  }

  lemma UploadlessAddsNone(l: Program, q: Program, p: Ptr)
    requires Uploadless(q) && !Uploads(l, p)
    ensures !Uploads(l + q, p)
  {
    var r := l + q;
    forall i | 0 <= i < |r| ensures !(r[i].op.Upload? && r[i].op.ptr == p) {
      assert if i < |l| then r[i] == l[i] else r[i] in q;
    }
  }

  /** What an inference, the read of its result and a later write on the host issue, with what is issued before, between
      and after them, and the race among them. */
  lemma WriteRaces(before: Program, waits: Program, launch: Item, mid: Program, down: Item, rest: Program, up: Item,
                   after: Program)
    returns (k: Kernel, w: World)
    requires launch.op.Launch? && launch.agent != Host && down.op.Download? && down.agent != Host && up.op.Upload?
    requires var q := before + waits + [launch] + mid + [down] + rest + [up] + after;
             HostCopies(q) && UploadedOnHost(q, up.op.ptr)
    requires Uploadless(waits) && Uploadless(mid) && Uploadless(after) && forall x | x in mid :: !x.op.Launch?
    requires Spares(rest, down.op.dst) && Spares(after, down.op.dst)
    requires HeldOther(before, up.op.ptr, up.op.data)
    ensures var q := before + waits + [launch] + mid + [down] + rest + [up] + after;
            Differs(k, q, HostFirst(q), w, down.op.dst)
  {
    var p := up.op.ptr;
    var q := before + waits + [launch] + mid + [down] + rest + [up] + after;
    var a, c := before + waits, rest + [up] + after;
    assert q == a + [launch] + mid + [down] + c;
    assert Leaves(mid, down.op.ptr) && Spares(c, down.op.dst);
    UploadlessKeepsLast(before, waits, p);
    UploadlessKeepsLast(rest + [up], after, p);
    UploadLast(rest, [up], p, []);
    assert Uploads(c, p) by { assert c[|rest|] == up; }
    if !Uploads(before, p) { UploadlessAddsNone(before, waits, p); }
    hide Uploadless, HostCopies, UploadedOnHost, Leaves, Spares, Uploads, Legal, Exec, InOrder, HostFirst, LastUpload;
    k, w := HostWriteRaces(a, launch, mid, down, c, p, up.op.data);
  }

  /** Where a call to SetInputData puts its data. */
  ghost function WriteAddress(m: Model, s: State, c: Call): Ptr
    requires c.SetInput? && Step(m, s, c).ok && c.name in Step(m, s, c).s.tensors
  {
    Step(m, s, c).s.tensors[c.name].mem.Address()
  }

  lemma HostWriteIssues(m: Model, s: State, c: Call) returns (record: Item)
    requires AllSound(s.tensors) && c.SetInput? && AllocatesOk(c) && Step(m, s, c).ok
    requires c.name in s.tensors ==> s.tensors[c.name].mem.kind == Pinned
    ensures c.name in Step(m, s, c).s.tensors && Quiet([record])
    ensures Step(m, s, c).s.log == s.log + [Item(Host, Upload(WriteAddress(m, s, c), c.data))] + [record]
  {
    SetInputSucceedsIff(m, s, c.name, c.data, c.dims, c.setEnv);
    hide SetInputData, HasRoom, AllPositive, Product, Sound, MemState.Address;
    record := Item(Internal, Record(s.events.next));
    var r := Step(m, s, c).s;
    assert r.log == s.log + [Item(Host, Upload(WriteAddress(m, s, c), c.data))] + [record];
  }

  lemma DeviceReadIssues(m: Model, s: State, c: Call) returns (wait: Item, down: Item)
    requires AllSound(s.tensors) && c.GetOutput? && AllocatesOk(c) && Step(m, s, c).ok
    requires c.name in s.tensors ==> s.tensors[c.name].mem.kind == Device
    ensures Quiet([wait]) && down.op.Download? && down.agent != Host && down.op.dst == c.dst
    ensures Step(m, s, c).s.log == s.log + [wait] + [down]
  {
    GetOutputSucceedsIff(m, s, c.name, c.dst, c.size, c.getEnv);
    UpdateGrows(m, s.mode.frozen, s.ctx.shapes, s.tensors, s.ctx.addresses, 0, c.getEnv.alloc);
    var t := RefreshForRead(m, s, c.getEnv.alloc).tensors[c.name].mem;
    assert t.kind == Device;
    hide GetOutputData, RefreshForRead, UpdateOutputShapes, Sound, MemState.Address;
    wait := Item(Internal, Wait(s.events.outputs[c.name]));
    down := Item(Internal, Download(t.Address(), c.dst));
    assert Step(m, s, c).s.log == s.log + [wait] + [down];
  }

  /** Calls i, j and n, the last, of a loop run are an inference, a read of its result from a device-located output, and
      a write to a host-located input; the result is not read over in between. */
  ghost predicate RewritesInput(m: Model, calls: seq<Call>, i: nat, j: nat) {
    && i < j < |calls| - 1 && calls[i].Infer? && calls[j].GetOutput? && calls[|calls| - 1].SetInput?
    && DeviceLocated(m, {calls[j].name}) && HostLocated(m, calls[|calls| - 1].name)
    && (forall x | i < x < j :: !calls[x].SetInput? && !calls[x].Infer?)
    && forall x | j < x < |calls| :: !(calls[x].GetOutput? && calls[x].dst == calls[j].dst)
  }

  /** After the i-th call the run issues these operations, then the data of its last call and a record. */
  ghost predicate EndsWithWrite(m: Model, start: State, calls: seq<Call>, i: nat, ops: Program, record: Item)
    requires i < |calls|
  {
    var n := |calls| - 1;
    var s, c := Run(m, start, calls[..n]), calls[n];
    && c.SetInput? && Step(m, s, c).ok && c.name in Step(m, s, c).s.tensors
    && Run(m, start, calls).log
      == Run(m, start, calls[..i]).log + ops + [Item(Host, Upload(WriteAddress(m, s, c), c.data))] + [record]
  }

  /** What the three calls issue, and what is issued between them. */
  lemma RewriteIssues(m: Model, config: Config, alloc: string -> Allocation, calls: seq<Call>, i: nat, j: nat)
    returns (waits: Program, launch: Item, mid: Program, down: Item, rest: Program, record: Item)
    requires WellFormed(m) && Supported(m) && AllGot(alloc) && forall x | 0 <= x < |calls| :: AllocatesOk(calls[x])
    requires PhaseAfter(m, Construct(m, config, alloc), calls).Some? && RewritesInput(m, calls, i, j)
    ensures EndsWithWrite(m, Construct(m, config, alloc), calls, i,
                          waits + [launch] + mid + [down] + rest, record)
    ensures Quiet(waits) && Quiet([record])
    ensures launch.op.Launch? && launch.agent != Host && down.op.Download? && down.agent != Host
    ensures down.op.dst == calls[j].dst && Uploadless(mid) && (forall x | x in mid :: !x.op.Launch?)
    ensures Spares(rest, down.op.dst)
  {
    hide Construct, Run, PhaseAfter, Step, AllSound, DeviceLocated, HostLocated, WriteAddress, EngineInvariants.Inv;
    var start, n := Construct(m, config, alloc), |calls| - 1;
    EngineInvariants.ConstructEstablishes(m, config, alloc);
    EngineInvariants.RunKeeps(m, start, calls[..i]);
    PhasePrefix(m, start, calls, i);
    PhasePrefix(m, start, calls, j);
    PhasePrefix(m, start, calls, n);
    PlacedAfterRun(m, config, alloc, calls[..j], calls[j].name);
    PlacedAfterRun(m, config, alloc, calls[..n], calls[n].name);
    var records, wait;
    waits, launch, records := InferStepIssues(m, Run(m, start, calls[..i]), calls[i]);
    var between := RunIssues(m, start, calls, i + 1, j);
    wait, down := DeviceReadIssues(m, Run(m, start, calls[..j]), calls[j]);
    rest := RunIssues(m, start, calls, j + 1, n);
    record := HostWriteIssues(m, Run(m, start, calls[..n]), calls[n]);
    mid := records + between + [wait];
    RunNext(m, start, calls, i);
    RunNext(m, start, calls, j);
    RunNext(m, start, calls, n);
    assert calls[..n + 1] == calls;
    Flatten(Run(m, start, calls[..i]).log, waits, [launch], records, between, [wait], [down], rest);
  }

  lemma Flatten(l: Program, a: Program, b: Program, c: Program, d: Program, e: Program, f: Program, g: Program)
    ensures l + a + b + c + d + e + f + g == l + (a + b + (c + d + e) + f + g)
  {
  }

  lemma InferStepIssues(m: Model, s: State, c: Call) returns (waits: Program, launch: Item, records: Program)
    requires EngineInvariants.Inv(m, s) && c.Infer? && Step(m, s, c).ok
    ensures Step(m, s, c).s.log == s.log + waits + [launch] + records && Quiet(waits) && Quiet(records)
    ensures launch.op.Launch? && launch.agent != Host
  {
    hide EngineInvariants.Inv, InferAsync, EngineInvariants.LaunchContext;
    waits, launch, records := InferIssues(m, s, c.inferEnv);
  }

  /** The memory the last call writes to, on the host only, was last given other data before the i-th call, or none. */
  ghost predicate WritesOther(m: Model, start: State, calls: seq<Call>, i: nat)
    requires i < |calls|
  {
    var n := |calls| - 1;
    var s, c := Run(m, start, calls[..n]), calls[n];
    c.SetInput? && Step(m, s, c).ok && c.name in Step(m, s, c).s.tensors ==>
      && HeldOther(Run(m, start, calls[..i]).log, WriteAddress(m, s, c), c.data)
      && UploadedOnHost(Run(m, start, calls).log, WriteAddress(m, s, c))
  }

  lemma QuietIsUploadless(p: Program, q: Program, dst: nat)
    requires Quiet(p) && Quiet(q)
    ensures Uploadless(p) && Uploadless(q) && Spares(q, dst)
  {
  }

  /** Whatever loop an engine has run, and however often: writing other data to a host-located input, after the result
      of an inference has been read from the device, lets some schedule give the host other bytes for that result. */
  lemma EveryHostWriteRaces(m: Model, config: Config, alloc: string -> Allocation, calls: seq<Call>, i: nat, j: nat)
    returns (k: Kernel, schedule: seq<nat>, w: World)
    requires WellFormed(m) && Supported(m) && AllGot(alloc) && forall x | 0 <= x < |calls| :: AllocatesOk(calls[x])
    requires PhaseAfter(m, Construct(m, config, alloc), calls).Some? && RewritesInput(m, calls, i, j)
    requires WritesOther(m, Construct(m, config, alloc), calls, i)
    ensures Differs(k, Run(m, Construct(m, config, alloc), calls).log, schedule, w, calls[j].dst)
  {
    hide Construct, Run, PhaseAfter, Step, Quiet, Differs, HeldOther, UploadedOnHost, WriteAddress;
    var start, n := Construct(m, config, alloc), |calls| - 1;
    var waits, launch, mid, down, rest, record := RewriteIssues(m, config, alloc, calls, i, j);
    QuietIsUploadless(waits, [record], calls[j].dst);
    ShapeAfterRun(m, config, alloc, calls);
    var s, c := Run(m, start, calls[..n]), calls[n];
    var up := Item(Host, Upload(WriteAddress(m, s, c), c.data));
    Flatten(Run(m, start, calls[..i]).log, waits, [launch], mid, [], [], [down], rest);
    assert mid + [] + [] == mid;
    assert Run(m, start, calls[..i]).log + waits + [launch] + mid + [] + [] + [down] + rest
      == Run(m, start, calls[..i]).log + waits + [launch] + mid + [down] + rest;
    k, w := WriteRaces(Run(m, start, calls[..i]).log, waits, launch, mid, down, rest, up, [record]);
    schedule := HostFirst(Run(m, start, calls).log);
  }

  // ── The runs that fail ───────────────────────────────────────────────

  /** One round with a host-located output. */
  lemma OutputRun(m: Model, config: Config, alloc: string -> Allocation, used: set<string>, b: Binding, o: Binding)
    returns (calls: seq<Call>, k: Kernel, schedule: seq<nat>, w: World)
    requires WellFormed(m) && Supported(m) && AllGot(alloc) && Accepting(m)
    requires b in m.io && b.isInput && o in m.io && !o.isInput && b.name in used && o.name in used && o.hostLocated
    ensures LoopRun(m, Construct(m, config, alloc), calls, used)
    ensures Differs(k, Run(m, Construct(m, config, alloc), calls).log, schedule, w, 0)
  {
    hide Construct, Run, LoopRun, FillCall, HostCopies, Settled, ReadsSettled, Ready, Legal, Exec, InOrder, HostFirst;
    var s, max := Construct(m, config, alloc), Normalised(config).maxProfile;
    ConstructIsReady(m, config, alloc);
    NoCalls(m, s, used);
    assert ElementSize(b.dtype) > 0;
    var e1, launch, e2, down;
    calls, e1, launch, e2, down := AddRound(m, s, [], used, max, b, 0, o, 0);
    var up := UploadOf(s, b, FillCall(b, max, 0));
    RoundShape(up, e1, launch, e2, down.op.ptr);
    var q := [up] + e1 + [launch] + e2;
    assert Run(m, s, calls).log == q + [Item(Host, Download(down.op.ptr, 0))] by {
      assert [] + ([up] + e1) == [up] + e1;
    }
    k, w := HostReadRaces(q, down.op.ptr, 0);
    schedule := HostFirst(Run(m, s, calls).log);
  }

  lemma RoundShape(up: Item, e1: Program, launch: Item, e2: Program, p: Ptr)
    requires up.op.Upload? && launch.op.Launch? && launch.agent != Host && Quiet(e1) && Quiet(e2)
    ensures var q := [up] + e1 + [launch] + e2; HostCopies(q) && ReadsSettled(q) && Settled(q) && Unread(q, p, 0)
  {
    var q := [up] + e1 + [launch] + e2;
    assert [] + [up] == [up];
    ItemAppends([], up);
    QuietAppends([up], e1);
    ItemAppends([up] + e1, launch);
    QuietAppends([up] + e1 + [launch], e2);
    forall i | 0 <= i < |q| ensures !q[i].op.Download? {
      assert q[i] == up || q[i] in e1 || q[i] == launch || q[i] in e2;
    }
  }

  /** Two rounds with a host-located input, filled with other data the second time. */
  lemma InputRun(m: Model, config: Config, alloc: string -> Allocation, used: set<string>, b: Binding, o: Binding)
    returns (calls: seq<Call>, k: Kernel, schedule: seq<nat>, w: World)
    requires WellFormed(m) && Supported(m) && AllGot(alloc) && Accepting(m)
    requires b in m.io && b.isInput && o in m.io && !o.isInput && b.name in used && o.name in used
    requires b.hostLocated && !o.hostLocated
    ensures LoopRun(m, Construct(m, config, alloc), calls, used)
    ensures Differs(k, Run(m, Construct(m, config, alloc), calls).log, schedule, w, 0)
  {
    var s, max := Construct(m, config, alloc), Normalised(config).maxProfile;
    ConstructIsReady(m, config, alloc);
    NoCalls(m, s, used);
    FillsDiffer(m, s, b, max);
    var up, up2 := UploadOf(s, b, FillCall(b, max, 0)), UploadOf(s, b, FillCall(b, max, 1));
    assert up.op.ptr == up2.op.ptr && up.op.data != up2.op.data && up.agent == Host == up2.agent;
    hide Construct, Run, LoopRun, FillCall, Ready, PhaseAfter, Rounded, Step;
    var first, e1, launch, e2, down := AddRound(m, s, [], used, max, b, 0, o, 0);
    var e3, launch2, e4, down2;
    calls, e3, launch2, e4, down2 := AddRound(m, s, first, used, max, b, 1, o, 1);
    assert UploadOf(Run(m, s, first), b, FillCall(b, max, 1)) == up2;
    hide *;
    k, w := TwoRoundsRace(Run(m, s, first).log, Run(m, s, calls).log, up, e1, launch, e2, down, up2, e3, launch2, e4,
                          down2);
    schedule := HostFirst(Run(m, s, calls).log);
  }

  lemma TwoRoundsRace(l1: Program, l2: Program, up: Item, e1: Program, launch: Item, e2: Program, down: Item, up2: Item,
                      e3: Program, launch2: Item, e4: Program, down2: Item)
    returns (k: Kernel, w: World)
    requires Rounded([], l1, up, e1, launch, e2, down) && Rounded(l1, l2, up2, e3, launch2, e4, down2)
    requires up.op.Upload? && up2.op.Upload? && up.agent == Host == up2.agent && up.op.ptr == up2.op.ptr
    requires up.op.data != up2.op.data && down.agent != Host && down2.agent != Host
    requires down.op.Download? && down2.op.Download? && down.op.dst == 0 && down2.op.dst != 0
    ensures Differs(k, l2, HostFirst(l2), w, 0)
  {
    var after := e3 + [launch2] + e4 + [down2];
    var q := [up] + e1 + [launch] + e2 + [down] + [] + [up2] + after;
    assert l2 == q by { assert [] + ([up] + e1) == [up] + e1; }
    forall x | x in q
      ensures (x.agent == Host ==> x.op.Upload? || x.op.Download?) && (x.op.Upload? ==> x.agent == Host)
    {
      assert x in [up, launch, down, up2, launch2, down2] || x in e1 || x in e2 || x in e3 || x in e4;
    }
    assert forall i | 0 <= i < |q| :: q[i] in q;
    assert LastUpload([up], up.op.ptr, []) == up.op.data;
    hide Legal, Exec, InOrder, HostFirst, LastUpload, Differs;
    k, w := WriteRaces([up], e1, launch, e2, down, [], up2, after);
  }

  lemma FillsDiffer(m: Model, s: State, b: Binding, maxProfile: bool)
    requires Ready(m, s, maxProfile) && b in m.io && b.isInput
    ensures ElementSize(b.dtype) > 0 && FillCall(b, maxProfile, 0).data != FillCall(b, maxProfile, 1).data
  {
    assert Equips(b, s.tensors, maxProfile);
    EquippedIsSound(m, s.tensors, maxProfile);
    assert Sound(s.tensors[b.name]);
    var zeros := FillStep(m, s, maxProfile, b, 0);
    var ones := FillStep(m, s, maxProfile, b, 1);
    hide Step, FillCall, Ready;
    assert FillCall(b, maxProfile, 0).data[0] == 0 && FillCall(b, maxProfile, 1).data[0] == 1;
  }

  // ── Exactly when every schedule is sequential for the host ───────────

  ghost predicate SameHostBytes(k: Kernel, p: Program, schedule: seq<nat>, w: World) {
    Legal(p, schedule) ==> Exec(k, p, schedule, w).host == InOrder(k, p, w).host
  }

  /** All loop runs over these bindings give the host the sequential bytes, whatever the inference computes, whatever
      order the device chooses and whatever memory holds at first. */
  ghost predicate AlwaysSequential(m: Model, s: State, used: set<string>) {
    forall calls: seq<Call>, k: Kernel, schedule: seq<nat>, w: World | LoopRun(m, s, calls, used) ::
      SameHostBytes(k, Run(m, s, calls).log, schedule, w)
  }

  /** An engine gives the host the sequential bytes under every schedule of every loop over some of its bindings if
      and only if TensorRT locates none of those bindings on the host. */
  lemma SequentialIffOnDevice(m: Model, config: Config, alloc: string -> Allocation, used: set<string>, b: Binding,
                              o: Binding)
    requires WellFormed(m) && Supported(m) && AllGot(alloc) && Accepting(m)
    requires b in m.io && b.isInput && o in m.io && !o.isInput && b.name in used && o.name in used
    ensures AlwaysSequential(m, Construct(m, config, alloc), used) <==> DeviceLocated(m, used)
  {
    var s := Construct(m, config, alloc);
    if DeviceLocated(m, used) {
      forall calls: seq<Call>, k: Kernel, schedule: seq<nat>, w: World | LoopRun(m, s, calls, used)
        ensures SameHostBytes(k, Run(m, s, calls).log, schedule, w)
      {
        if Legal(Run(m, s, calls).log, schedule) {
          EveryScheduleIsSequential(m, config, alloc, used, calls, k, schedule, w);
        }
        hide Construct, Run, Legal, Exec, InOrder;
      }
    } else {
      var j :| 0 <= j < |m.io| && m.io[j].name in used && m.io[j].hostLocated;
      var calls, k, schedule, w;
      if !m.io[j].isInput {
        calls, k, schedule, w := OutputRun(m, config, alloc, used, b, m.io[j]);
      } else if o.hostLocated {
        calls, k, schedule, w := OutputRun(m, config, alloc, used, b, o);
      } else {
        calls, k, schedule, w := InputRun(m, config, alloc, used, m.io[j], o);
      }
      assert !SameHostBytes(k, Run(m, s, calls).log, schedule, w) by { hide Construct, Run, Legal, Exec, InOrder; }
    }
  }
}
