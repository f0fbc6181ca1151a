/** Copies run on the internal stream, inference may run on another, and only recorded events order the two.  For an
    inference loop of inputs, one inference and reads, the program the engine issues is free of races, so every order
    the device may choose gives the host the same bytes as running each call to completion. */
module EngineSchedules {
  import opened Streams
  import opened CudaMemory
  import opened TensorModel
  import opened EngineSpec
  import opened EngineCapacity
  import EngineInvariants

  // ── Knowledge of a stream ────────────────────────────────────────────

  /** What is certain to be complete before anything issued next on `a` starts. */
  ghost function Known(p: Program, a: Agent): set<nat> {
    set j, x | 0 <= j < |p| && p[j].agent == a && x in Before(p, j) + {j} :: x
  }

  ghost function Memory(p: Program): set<nat> {
    set i | 0 <= i < |p| && IsMemory(p[i].op)
  }

  /** `a` has waited, directly or not, for every memory operation issued. */
  ghost predicate Full(p: Program, a: Agent) {
    Memory(p) <= Known(p, a)
  }

  /** Waiting for the event is waiting for every memory operation issued. */
  ghost predicate Signalled(p: Program, e: nat) {
    exists r | 0 <= r < |p| :: p[r].op == Record(e) && Memory(p) <= Before(p, r)
  }

  lemma BeforeIssue(p: Program, q: Item)
    ensures forall j | 0 <= j < |p| :: Before(p + [q], j) == Before(p, j)
    ensures Known(p, q.agent) <= Before(p + [q], |p|)
    ensures Before(p + [q], |p|) + {|p|} <= Known(p + [q], q.agent)
    ensures forall a :: Known(p, a) <= Known(p + [q], a)
    ensures Memory(p + [q]) == if IsMemory(q.op) then Memory(p) + {|p|} else Memory(p)
  {
    var r := p + [q];
    assert r[..|p|] == p;
    forall j | 0 <= j < |p| ensures Before(r, j) == Before(p, j) { BeforePrefix(r, |p|, j); }
    forall j, x | 0 <= j < |p| && p[j].agent == q.agent && x in Before(p, j) + {j} ensures x in Before(r, |p|) {
      assert MustPrecede(r, j, |p|);
      DirectIsBefore(r, j, |p|);
    }
    hide Before;
    forall a, x | x in Known(p, a) ensures x in Known(r, a) {
      var j :| 0 <= j < |p| && p[j].agent == a && x in Before(p, j) + {j};
      assert r[j] == p[j];
    }
    assert r[|p|] == q;
  }

  lemma {:induction false} IssueEvent(p: Program, q: Item, a: Agent, e: nat)
    requires !IsMemory(q.op)
    ensures RaceFree(p) ==> RaceFree(p + [q])
    ensures Full(p, a) ==> Full(p + [q], a)
    ensures Signalled(p, e) ==> Signalled(p + [q], e)
    ensures q.op == Wait(e) && Signalled(p, e) ==> Full(p + [q], q.agent)
    ensures q.op == Record(e) && Full(p, q.agent) ==> Signalled(p + [q], e)
  {
    var r := p + [q];
    BeforeIssue(p, q);
    if Signalled(p, e) {
      var i :| 0 <= i < |p| && p[i].op == Record(e) && Memory(p) <= Before(p, i);
      assert r[i] == p[i];
      if q.op == Wait(e) { DirectIsBefore(r, i, |p|); }
    }
    if q.op == Record(e) { assert r[|p|].op == Record(e); }
    hide Known, Before;
    if RaceFree(p) {
      forall i, j | 0 <= i < j < |r| && IsMemory(r[i].op) && IsMemory(r[j].op) ensures i in Before(r, j) {
        assert r[j] == p[j] && r[i] == p[i];
      }
    }
  }

  lemma {:induction false} IssueMemory(p: Program, q: Item)
    requires IsMemory(q.op) && Full(p, q.agent) && RaceFree(p)
    ensures RaceFree(p + [q]) && Full(p + [q], q.agent)
  {
    var r := p + [q];
    BeforeIssue(p, q);
    hide Known, Before;
    forall i, j | 0 <= i < j < |r| && IsMemory(r[i].op) && IsMemory(r[j].op) ensures i in Before(r, j) {
      assert i in Memory(p);
    }
  }

  // ── The loop ─────────────────────────────────────────────────────────

  datatype Phase = Start | Setting | Inferred | Reading

  /** The inference loop: inputs, one inference, reads, again; other calls may come anywhere, a change of stream only
      before the first input. */
  function Next(p: Phase, c: Call): Option<Phase> {
    match c
    case SetInput(_, _, _, _) => if p == Inferred then None else Some(Setting)
    case Infer(_) => if p == Setting then Some(Inferred) else None
    case GetOutput(_, _, _, _) => if p == Inferred || p == Reading then Some(Reading) else None
    case UseStream(_) => if p == Start then Some(Start) else None
    case _ => Some(p)
  }

  /** Where in the loop the calls end, if they follow it and every input, inference and read succeeds. */
  function PhaseAfter(m: Model, s: State, calls: seq<Call>): Option<Phase> {
    if calls == [] then Some(Start)
    else
      var n := |calls| - 1;
      var c := calls[n];
      match PhaseAfter(m, s, calls[..n])
      case None => None
      case Some(p) =>
        if (c.SetInput? || c.Infer? || c.GetOutput?) && !Step(m, Run(m, s, calls[..n]), c).ok then None else Next(p, c)
  }

  /** The tensors of these bindings are in device memory. */
  ghost predicate OnDevice(tensors: Tensors, used: set<string>) {
    forall name | name in tensors && name in used :: tensors[name].mem.kind == Device
  }

  /** The call copies to or from no other bindings than these. */
  ghost predicate Uses(c: Call, used: set<string>) {
    c.SetInput? || c.GetOutput? ==> c.name in used
  }

  /** The invariant: what the streams know in each phase. */
  ghost predicate Synchronised(m: Model, s: State, p: Phase) {
    && RaceFree(s.log)
    && match p
       case Start => Memory(s.log) == {}
       case Setting =>
         && Full(s.log, Internal)
         && exists name | name in s.events.inputs ::
              name in s.tensors && s.tensors[name].isInput && Signalled(s.log, s.events.inputs[name])
       case Inferred =>
         forall name | name in s.tensors && !s.tensors[name].isInput ::
           name in s.events.outputs && Signalled(s.log, s.events.outputs[name])
       case Reading => Full(s.log, Internal)
  }

  lemma InputSynchronises(m: Model, s: State, p: Phase, c: Call)
    requires Synchronised(m, s, p) && p != Inferred && AllSound(s.tensors) && AllocatesOk(c)
    requires c.SetInput? && c.name in s.tensors ==> s.tensors[c.name].mem.kind == Device
    requires c.SetInput? && Step(m, s, c).ok
    ensures Synchronised(m, Step(m, s, c).s, Setting)
  {
    SetInputSucceedsIff(m, s, c.name, c.data, c.dims, c.setEnv);
    hide SetInputData, Product, AllPositive, HasRoom, Known;
    var r := Step(m, s, c).s;
    var up := Item(Internal, Upload(r.tensors[c.name].mem.Address(), c.data));
    var rec := Item(Internal, Record(s.events.next));
    IssueMemory(s.log, up);
    IssueEvent(s.log + [up], rec, Internal, s.events.next);
    assert r.log == s.log + [up] + [rec];
    assert r.events.inputs[c.name] == s.events.next;
  }

  lemma ReadSynchronises(m: Model, s: State, p: Phase, c: Call)
    requires Synchronised(m, s, p) && (p == Inferred || p == Reading) && AllSound(s.tensors)
    requires c.GetOutput? && c.name in s.tensors ==> s.tensors[c.name].mem.kind == Device
    requires c.GetOutput? && Step(m, s, c).ok && AllocatesOk(c)
    ensures Synchronised(m, Step(m, s, c).s, Reading)
  {
    GetOutputSucceedsIff(m, s, c.name, c.dst, c.size, c.getEnv);
    var u := RefreshForRead(m, s, c.getEnv.alloc).tensors;
    UpdateGrows(m, s.mode.frozen, s.ctx.shapes, s.tensors, s.ctx.addresses, 0, c.getEnv.alloc);
    assert u[c.name].mem.kind == Device;
    hide GetOutputData, RefreshForRead, Known, UpdateOutputShapes;
    var e := s.events.outputs[c.name];
    var wait, down := Item(Internal, Wait(e)), Item(Internal, Download(u[c.name].mem.Address(), c.dst));
    IssueEvent(s.log, wait, Internal, e);
    IssueMemory(s.log + [wait], down);
    assert Step(m, s, c).s.log == s.log + [wait] + [down];
  }

  /** Waiting for all input events includes waiting for the latest one. */
  lemma {:induction false} WaitsSynchronise(m: Model, p: Program, tensors: Tensors, events: map<string, nat>, a: Agent,
                                            k: nat, waitOk: string -> bool, name: string)
    requires RaceFree(p) && name in tensors && tensors[name].isInput && name in events && Signalled(p, events[name])
    requires k <= |m.order| && (name in m.order[k..] || Full(p, a))
    ensures var w := WaitInputs(m, tensors, events, a, k, waitOk);
            RaceFree(p + w.ops) && (w.ok ==> Full(p + w.ops, a))
    decreases |m.order| - k
  {
    hide Known, Signalled, Full, RaceFree;
    if k >= |m.order| {
      assert p + [] == p;
    } else {
      var n := m.order[k];
      assert m.order[k..] == [n] + m.order[k + 1..];
      if n in tensors && tensors[n].isInput && n in events {
        if waitOk(n) {
          var q := Item(a, Wait(events[n]));
          IssueEvent(p, q, a, events[name]);
          WaitsSynchronise(m, p + [q], tensors, events, a, k + 1, waitOk, name);
          var w := WaitInputs(m, tensors, events, a, k + 1, waitOk);
          assert p + ([q] + w.ops) == p + [q] + w.ops;
        } else {
          assert p + [] == p;
        }
      } else {
        WaitsSynchronise(m, p, tensors, events, a, k + 1, waitOk, name);
      }
    }
  }

  /** Every output event recorded after a launch signals that launch and all it waited for. */
  lemma {:induction false} RecordsSynchronise(m: Model, p: Program, tensors: Tensors, a: Agent,
                                              events: map<string, nat>,
                                              next: nat, k: nat, recordOk: string -> bool)
    requires RaceFree(p) && Full(p, a) && k <= |m.order|
    ensures var r := RecordOutputs(m, tensors, a, events, next, k, recordOk);
            && RaceFree(p + r.ops)
            && (r.ok ==> forall name | name in tensors && !tensors[name].isInput &&
                           (name in m.order[k..] || (name in events && Signalled(p, events[name]))) ::
                           name in r.events && Signalled(p + r.ops, r.events[name]))
    decreases |m.order| - k
  {
    hide Known, Signalled, Full, RaceFree;
    if k >= |m.order| {
      assert p + [] == p;
    } else {
      var n := m.order[k];
      assert m.order[k..] == [n] + m.order[k + 1..];
      if n in tensors && !tensors[n].isInput {
        if recordOk(n) {
          var q := Item(a, Record(next));
          IssueEvent(p, q, a, next);
          forall e | Signalled(p, e) ensures Signalled(p + [q], e) { IssueEvent(p, q, a, e); }
          RecordsSynchronise(m, p + [q], tensors, a, events[n := next], next + 1, k + 1, recordOk);
          var r := RecordOutputs(m, tensors, a, events[n := next], next + 1, k + 1, recordOk);
          assert p + ([q] + r.ops) == p + [q] + r.ops;
        } else {
          assert p + [] == p;
        }
      } else {
        RecordsSynchronise(m, p, tensors, a, events, next, k + 1, recordOk);
      }
    }
  }

  lemma InferSynchronises(m: Model, s: State, c: Call)
    requires Synchronised(m, s, Setting) && EngineInvariants.Inv(m, s) && c.Infer? && Step(m, s, c).ok
    ensures Synchronised(m, Step(m, s, c).s, Inferred)
  {
    var env := c.inferEnv;
    var a := ExecStream(s.mode);
    var ctx := EngineInvariants.LaunchContext(m, s);
    var name :| name in s.events.inputs && name in s.tensors && s.tensors[name].isInput
                && Signalled(s.log, s.events.inputs[name]);
    assert m.order[0..] == m.order;
    EngineInvariants.ReplayRefinesEnqueue(m, s, env);
    WaitsSynchronise(m, s.log, s.tensors, s.events.inputs, a, 0, env.waitOk, name);
    var w := WaitInputs(m, s.tensors, s.events.inputs, a, 0, env.waitOk);
    var launch := Item(a, Launch(ctx.shapes, ctx.addresses));
    assert w.ok by { hide WaitInputs, Known, Signalled, EngineInvariants.InferDirect, EngineInvariants.Inv; }
    IssueMemory(s.log + w.ops, launch);
    RecordsSynchronise(m, s.log + w.ops + [launch], s.tensors, a, s.events.outputs, s.events.next, 0, env.recordOk);
    hide InferAsync, WaitInputs, RecordOutputs, BindIOAddresses, Known, Signalled, Full, RaceFree,
         EngineInvariants.Launches, EngineInvariants.HandlesConserved, EngineInvariants.AddressesResolved;
  }

  /** Any other call issues at most waits. */
  lemma OtherSynchronises(m: Model, s: State, p: Phase, c: Call)
    requires Synchronised(m, s, p) && !c.SetInput? && !c.Infer? && !c.GetOutput? && AllSound(s.tensors)
    requires AllocatesOk(c)
    ensures Synchronised(m, Step(m, s, c).s, p)
  {
    StepGrows(m, s, c);
    var r := Step(m, s, c).s;
    if c.CaptureGraph? {
      var w := WaitInputs(m, s.tensors, s.events.inputs, ExecStream(s.mode), 0, c.captureEnv.waitOk);
      WaitsAreEvents(m, s.tensors, s.events.inputs, ExecStream(s.mode), 0, c.captureEnv.waitOk);
      hide WaitInputs, CaptureOn, Snapshot, Sound, Signalled, Full, RaceFree, Memory;
      assert r.log == s.log + w.ops || r.log == s.log;
      if r.log == s.log + w.ops { EventsSynchronise(m, s, r, w.ops, p); }
    } else {
      hide UpdateOutputShapes, BindIOAddresses, ResetCudaGraph, AllPositive, HasDynamic, Sound, Signalled, Full,
           RaceFree, Memory;
      assert r.log == s.log && r.events == s.events;
      EventsSynchronise(m, s, r, [], p);
    }
  }

  lemma {:induction false} WaitsAreEvents(m: Model, tensors: Tensors, events: map<string, nat>, a: Agent, k: nat,
                                          waitOk: string -> bool)
    ensures forall q | q in WaitInputs(m, tensors, events, a, k, waitOk).ops :: !IsMemory(q.op)
    decreases |m.order| - k
  {
    if k < |m.order| { WaitsAreEvents(m, tensors, events, a, k + 1, waitOk); }
  }

  lemma {:induction false} IssueEvents(p: Program, ops: Program)
    requires forall q | q in ops :: !IsMemory(q.op)
    ensures RaceFree(p) ==> RaceFree(p + ops)
    ensures Full(p, Internal) ==> Full(p + ops, Internal)
    ensures forall e | Signalled(p, e) :: Signalled(p + ops, e)
    ensures Memory(p + ops) == Memory(p)
    decreases |ops|
  {
    hide Known, Signalled, Full, RaceFree;
    if ops == [] {
      assert p + ops == p;
    } else {
      var q := ops[0];
      IssueEvent(p, q, Internal, 0);
      BeforeIssue(p, q);
      forall e | Signalled(p, e) ensures Signalled(p + [q], e) { IssueEvent(p, q, Internal, e); }
      IssueEvents(p + [q], ops[1..]);
      assert p + [q] + ops[1..] == p + ops;
    }
  }

  lemma EventsSynchronise(m: Model, s: State, r: State, ops: Program, p: Phase)
    requires Synchronised(m, s, p) && forall q | q in ops :: !IsMemory(q.op)
    requires r.log == s.log + ops && r.events == s.events && AllGrew(s.tensors, r.tensors)
    ensures Synchronised(m, r, p)
  {
    IssueEvents(s.log, ops);
    hide Known, Signalled, Full, RaceFree, Memory, Sound;
  }

  // ── Whole runs ───────────────────────────────────────────────────────

  lemma GrewOnDevice(t: Tensors, u: Tensors, used: set<string>)
    requires OnDevice(t, used) && AllGrew(t, u)
    ensures OnDevice(u, used)
  {
  }

  lemma {:induction false} RunSynchronises(m: Model, s: State, calls: seq<Call>, used: set<string>)
    requires EngineInvariants.Inv(m, s) && s.log == [] && AllSound(s.tensors) && OnDevice(s.tensors, used)
    requires forall i | 0 <= i < |calls| :: AllocatesOk(calls[i]) && Uses(calls[i], used)
    requires PhaseAfter(m, s, calls).Some?
    ensures Synchronised(m, Run(m, s, calls), PhaseAfter(m, s, calls).value)
    decreases |calls|
  {
    hide Sound, Step, Synchronised, AllocatesOk, EngineInvariants.Inv;
    if calls == [] {
      assert Synchronised(m, s, Start) by { NothingIssued(m, s); }
    } else {
      var n := |calls| - 1;
      var c := calls[n];
      var t := Run(m, s, calls[..n]);
      RunSynchronises(m, s, calls[..n], used);
      RunGrows(m, s, calls[..n]);
      GrewOnDevice(s.tensors, t.tensors, used);
      assert (c.SetInput? || c.GetOutput?) && c.name in t.tensors ==> t.tensors[c.name].mem.kind == Device;
      EngineInvariants.RunKeeps(m, s, calls[..n]);
      var p := PhaseAfter(m, s, calls[..n]).value;
      match c {
        case SetInput(_, _, _, _) => InputSynchronises(m, t, p, c);
        case Infer(_) => InferSynchronises(m, t, c);
        case GetOutput(_, _, _, _) => ReadSynchronises(m, t, p, c);
        case _ => OtherSynchronises(m, t, p, c);
      }
    }
  }

  lemma NothingIssued(m: Model, s: State)
    requires s.log == []
    ensures Synchronised(m, s, Start)
  {
  }

  /** TensorRT locates none of these bindings on the host. */
  ghost predicate DeviceLocated(m: Model, used: set<string>) {
    forall i | 0 <= i < |m.io| && m.io[i].name in used :: !m.io[i].hostLocated
  }

  lemma AddTensorOnDevice(m: Model, s: Allocated, b: Binding, d: Dims, a: Allocation, used: set<string>)
    requires OnDevice(s.tensors, used) && (b.name in used ==> !b.hostLocated) && AllPositive(d) && a.Got?
    requires ElementSize(b.dtype) > 0
    ensures OnDevice(AddTensor(m, s, b, d, a).tensors, used)
  {
    NewTensorIsSound(b, d, a);
    hide NewTensor, Product, Sound;
  }

  lemma {:induction false} AllocatesOnDevice(m: Model, s: Allocated, i: nat, maxProfile: bool,
                                             alloc: string -> Allocation,
                                             used: set<string>)
    requires DeviceLocated(m, used) && Supported(m) && AllGot(alloc) && OnDevice(s.tensors, used)
    ensures OnDevice(AllocateInputs(m, s, i, maxProfile, alloc).tensors, used)
    ensures OnDevice(AllocateOutputs(m, s, i, maxProfile, alloc).tensors, used)
    decreases |m.io| - i
  {
    hide AddTensor, InputShape, OutputShape, IsDynamic, AllPositive, OnDevice;
    if i < |m.io| {
      var b := m.io[i];
      var d := OutputShape(m, s.ctx.shapes, b, maxProfile);
      ShapesArePositive(m, s.ctx.shapes, b, maxProfile);
      AddTensorOnDevice(m, s, b, InputShape(b, maxProfile), alloc(b.name), used);
      AddTensorOnDevice(m, s, b, d, alloc(b.name), used);
      AllocatesOnDevice(m, if b.isInput then AllocateInput(m, s, b, maxProfile, alloc(b.name))
                        else s, i + 1, maxProfile, alloc, used);
      AllocatesOnDevice(m, if b.isInput then s
                        else AddTensor(m, s, b, d, alloc(b.name)), i + 1, maxProfile, alloc, used);
    }
  }

  lemma ConstructOnDevice(m: Model, config: Config, alloc: string -> Allocation, used: set<string>)
    requires DeviceLocated(m, used) && WellFormed(m) && Supported(m) && AllGot(alloc)
    ensures var s := Construct(m, config, alloc); OnDevice(s.tensors, used) && s.log == []
  {
    var c := Normalised(config);
    var empty := Allocated(map[], Context(map[], map[]));
    AllocatesOnDevice(m, empty, 0, c.maxProfile, alloc, used);
    AllocatesOnDevice(m, AllocateInputs(m, empty, 0, c.maxProfile, alloc), 0, c.maxProfile, alloc, used);
    var a := Allocate(m, c.maxProfile, alloc);
    AllocationEquips(m, c.maxProfile, alloc);
    UpdateGrows(m, false, a.ctx.shapes, a.tensors, a.ctx.addresses, 0, alloc);
    GrewOnDevice(a.tensors, UpdateOutputShapes(m, false, a.ctx.shapes, a.tensors, a.ctx.addresses, 0, alloc).tensors,
                 used);
    hide AllocateInputs, AllocateOutputs, UpdateOutputShapes, BindIOAddresses, ResetCudaGraph, AllGrew, Equips,
         AllSound;
  }

  /** Stream-schedule refinement: for any number of rounds of inputs, one inference and reads that copy to and from
      bindings on the device only, whichever stream inference runs on and whatever other calls come in between, every
      order the device may choose leaves the host and device memory as running every call to completion would. */
  lemma EveryScheduleIsSequential(m: Model, config: Config, alloc: string -> Allocation, used: set<string>,
                                  calls: seq<Call>, k: Kernel, schedule: seq<nat>, w: World)
    requires WellFormed(m) && Supported(m) && DeviceLocated(m, used) && AllGot(alloc)
    requires forall i | 0 <= i < |calls| :: AllocatesOk(calls[i]) && Uses(calls[i], used)
    requires PhaseAfter(m, Construct(m, config, alloc), calls).Some?
    requires Legal(Run(m, Construct(m, config, alloc), calls).log, schedule)
    ensures var p := Run(m, Construct(m, config, alloc), calls).log;
            Exec(k, p, schedule, w) == InOrder(k, p, w)
  {
    var s := Construct(m, config, alloc);
    ConstructOnDevice(m, config, alloc, used);
    EngineInvariants.ConstructEstablishes(m, config, alloc);
    RunIsEquipped(m, config, alloc, []);
    EquippedIsSound(m, s.tensors, Normalised(config).maxProfile);
    RunSynchronises(m, s, calls, used);
    RaceFreeIsDeterministic(k, Run(m, s, calls).log, schedule, w);
    hide Construct, Step, PhaseAfter, Legal, Exec, InOrder, Equipped, RaceFree, EngineInvariants.Inv;
  }
}
