/** The engine as an object: fields updated in place, tensors shared by reference, loops over the binding table.  Each
    method is proved to do to the object's state exactly what the state machine of EngineSpec says. */
module Engine {
  import opened Streams
  import opened CudaMemory
  import opened TensorModel
  import Spec = EngineSpec
  import Invariants = EngineInvariants
  import Calls = EngineCalls

  class TensorRTEngine {
    const m: Spec.Model
    var mode: Spec.Mode
    var ctx: Spec.Context
    var user: map<string, Ptr>
    var tensors: map<string, Tensor>
    var inputEvents: map<string, nat>
    var outputEvents: map<string, nat>
    var nextEvent: nat
    var graph: Spec.Graph
    var ledger: Spec.Ledger
    var log: Program

    /** No two bindings share a tensor or its memory. */
    ghost predicate Valid()
      reads `tensors
    {
      forall a, b | a in tensors && b in tensors && a != b ::
        tensors[a] != tensors[b] && tensors[a].data != tensors[b].data
    }

    ghost function Objects(): set<object>
      reads `tensors
    {
      (set n | n in tensors :: tensors[n] as object) + (set n | n in tensors :: tensors[n].data as object)
    }

    function Table(): Spec.Tensors
      reads `tensors, tensors.Values, set n | n in tensors :: tensors[n].data
    {
      map n | n in tensors :: tensors[n].State()
    }

    function State(): Spec.State
      reads this, tensors.Values, set n | n in tensors :: tensors[n].data
    {
      Spec.State(mode, ctx, user, Table(), Spec.Events(inputEvents, outputEvents, nextEvent),
                 Spec.Cache(graph, ledger), log)
    }

    twostate lemma TableAfter(name: string)
      requires old(Valid()) && name in old(tensors) && tensors == old(tensors)
      requires forall n | n in tensors && n != name :: unchanged(tensors[n]) && unchanged(tensors[n].data)
      ensures Table() == old(Table())[name := tensors[name].State()]
    {
      forall n | n in tensors && n != name ensures Table()[n] == old(Table())[n] {
        assert tensors[n].State() == old(tensors[n].State());
      }
    }

    twostate lemma TableWith(name: string)
      requires name !in old(tensors) && name in tensors && tensors == old(tensors)[name := tensors[name]]
      requires forall n | n in old(tensors) :: unchanged(old(tensors)[n]) && unchanged(old(tensors)[n].data)
      ensures Table() == old(Table())[name := tensors[name].State()]
    {
      assert Table().Keys == old(Table()).Keys + {name};
      forall n | n in old(tensors) ensures Table()[n] == old(Table())[n] {
        assert tensors[n].State() == old(tensors[n].State());
      }
    }

    lemma TableAt(name: string)
      ensures name in Table() <==> name in tensors
      ensures name in tensors ==> Table()[name] == tensors[name].State()
    {
    }

    // ── Graph ──────────────────────────────────────────────────────────

    method ResetCudaGraph()
      modifies `graph, `ledger
      ensures Spec.Cache(graph, ledger) == Spec.ResetCudaGraph(old(Spec.Cache(graph, ledger)))
      ensures graph == Spec.NoGraph && Invariants.Conserves(old(Spec.Cache(graph, ledger)), Spec.Cache(graph, ledger))
    {
      hide Invariants.Conserves;
      Invariants.ResetConserves(Spec.Cache(graph, ledger));
      if graph.exec != 0 {
        ledger := ledger.(execsDestroyed := ledger.execsDestroyed + multiset{graph.exec});
        graph := graph.(exec := 0);
      }
      if graph.graph != 0 {
        ledger := ledger.(graphsDestroyed := ledger.graphsDestroyed + multiset{graph.graph});
        graph := graph.(graph := 0);
      }
      graph := Spec.NoGraph;
    }

    method CaptureOn(env: Spec.CaptureEnv) returns (ok: bool)
      modifies `graph, `ledger
      ensures Spec.Captured(Spec.Cache(graph, ledger), ok)
              == Spec.CaptureOn(mode, ctx, Spec.Snapshot(m, ctx.shapes, Table()), old(Spec.Cache(graph, ledger)), env)
      ensures Invariants.CaptureRefines(mode, ctx, old(Spec.Cache(graph, ledger)), env,
                                        Spec.Captured(Spec.Cache(graph, ledger), ok))
    {
      hide Invariants.CaptureRefines, Invariants.Conserves;
      Invariants.CaptureIsSound(mode, ctx, Spec.Snapshot(m, ctx.shapes, Table()), Spec.Cache(graph, ledger), env);
      hide Table, Spec.Snapshot;
      if !Spec.ShouldUseCudaGraph(mode) { return false; }
      ResetCudaGraph();
      if !env.beginOk { return false; }
      var captured := 0;
      if env.graphNonNull {
        captured := ledger.graphs + 1;
        ledger := ledger.(graphs := captured);
      }
      if !env.enqueueOk || !env.endOk || captured == 0 {
        if captured != 0 { ledger := ledger.(graphsDestroyed := ledger.graphsDestroyed + multiset{captured}); }
        return false;
      }
      if !env.instantiateOk {
        ledger := ledger.(graphsDestroyed := ledger.graphsDestroyed + multiset{captured});
        return false;
      }
      ledger := ledger.(execs := ledger.execs + 1);
      graph := Spec.Graph(true, captured, ledger.execs, ctx, Spec.Snapshot(m, ctx.shapes, Table()));
      return true;
    }

    method LaunchGraph(launchOk: bool) returns (ok: bool)
      modifies `log
      ensures var l := Spec.LaunchGraph(Spec.ExecStream(mode), Spec.Cache(graph, ledger), launchOk);
              ok == l.ok && log == old(log) + l.ops
    {
      if graph.exec == 0 || !launchOk { return false; }
      log := log + [Item(Spec.ExecStream(mode), Launch(graph.baked.shapes, graph.baked.addresses))];
      return true;
    }

    method Enqueue(enqueueOk: bool) returns (ok: bool)
      modifies `log
      ensures var l := Spec.Enqueue(mode, ctx, Spec.Cache(graph, ledger), enqueueOk);
              ok == l.ok && log == old(log) + l.ops
    {
      if !mode.loaded || !enqueueOk { return false; }
      log := log + [Item(Spec.ExecStream(mode), Launch(ctx.shapes, ctx.addresses))];
      return true;
    }

    method LaunchInference(env: Spec.InferEnv) returns (ok: bool)
      modifies `log, `graph, `ledger
      ensures var l := Spec.LaunchInference(m, mode, ctx, Table(), old(Spec.Cache(graph, ledger)), env);
              && ok == l.ok && log == old(log) + l.ops && Spec.Cache(graph, ledger) == l.cache
              && Invariants.LaunchRefines(m, mode, ctx, Table(), old(Spec.Cache(graph, ledger)), env, l)
    {
      hide Invariants.LaunchRefines, Invariants.CaptureRefines, Invariants.Conserves;
      Invariants.LaunchIsDirect(m, mode, ctx, Table(), Spec.Cache(graph, ledger), env);
      hide Table, Spec.CudaGraphShapesMatch, Spec.Snapshot, Spec.CaptureOn, Spec.ResetCudaGraph;
      if Spec.ShouldUseCudaGraph(mode) {
        if !graph.captured || !Spec.CudaGraphShapesMatch(m, ctx.shapes, Table(), graph) {
          var captured := CaptureOn(env.capture);
          if !captured {
            ResetCudaGraph();
            ok := Enqueue(env.enqueueOk);
          } else {
            ok := LaunchGraph(env.launchOk);
          }
        } else {
          ok := LaunchGraph(env.launchOk);
        }
      } else {
        ok := Enqueue(env.enqueueOk);
      }
    }

    // ── Loops over the binding table ───────────────────────────────────

    method WaitInputs(waitOk: string -> bool) returns (ok: bool)
      modifies `log
      ensures var w := Spec.WaitInputs(m, Table(), inputEvents, Spec.ExecStream(mode), 0, waitOk);
              ok == w.ok && log == old(log) + w.ops
    {
      hide Table;
      var stream := Spec.ExecStream(mode);
      var k := 0;
      while k < |m.order|
        invariant k <= |m.order|
        invariant var w, rest := Spec.WaitInputs(m, Table(), inputEvents, stream, 0, waitOk),
                                 Spec.WaitInputs(m, Table(), inputEvents, stream, k, waitOk);
                  rest.ok == w.ok && log + rest.ops == old(log) + w.ops
      {
        var name := m.order[k];
        TableAt(name);
        if name in tensors && tensors[name].isInput && name in inputEvents {
          ghost var rest := Spec.WaitInputs(m, Table(), inputEvents, stream, k + 1, waitOk);
          if !waitOk(name) {
            assert log + [] == log;
            return false;
          }
          assert log + ([Item(stream, Wait(inputEvents[name]))] + rest.ops)
              == log + [Item(stream, Wait(inputEvents[name]))] + rest.ops;
          log := log + [Item(stream, Wait(inputEvents[name]))];
        }
        k := k + 1;
      }
      assert log + [] == log;
      return true;
    }

    method BindIOAddresses() returns (ok: bool)
      modifies `ctx
      ensures var b := Spec.BindIOAddresses(m, Table(), user, old(ctx.addresses), 0);
              ok == b.ok && ctx == old(ctx).(addresses := b.addresses)
    {
      var k := 0;
      while k < |m.order|
        invariant k <= |m.order| && ctx.shapes == old(ctx.shapes)
        invariant Spec.BindIOAddresses(m, Table(), user, ctx.addresses, k)
               == Spec.BindIOAddresses(m, Table(), user, old(ctx.addresses), 0)
      {
        var name := m.order[k];
        if name in tensors {
          var address := tensors[name].State().mem.Address();
          if name in user { address := user[name]; }
          assert address == Spec.Resolved(user, name, Table()[name]);
          if !m.acceptsAddress(name, address) { return false; }
          ctx := ctx.(addresses := ctx.addresses[name := address]);
        }
        k := k + 1;
      }
      return true;
    }

    method RecordOutputs(recordOk: string -> bool) returns (ok: bool)
      modifies `log, `outputEvents, `nextEvent
      ensures var r := Spec.RecordOutputs(m, Table(), Spec.ExecStream(mode), old(outputEvents), old(nextEvent), 0,
                                          recordOk);
              ok == r.ok && log == old(log) + r.ops && outputEvents == r.events && nextEvent == r.next
    {
      hide Table;
      var stream := Spec.ExecStream(mode);
      var k := 0;
      while k < |m.order|
        invariant k <= |m.order|
        invariant var r, rest := Spec.RecordOutputs(m, Table(), stream, old(outputEvents), old(nextEvent), 0, recordOk),
                                 Spec.RecordOutputs(m, Table(), stream, outputEvents, nextEvent, k, recordOk);
                  rest.ok == r.ok && log + rest.ops == old(log) + r.ops && rest.events == r.events
                  && rest.next == r.next
      {
        var name := m.order[k];
        TableAt(name);
        if name in tensors && !tensors[name].isInput {
          if !recordOk(name) {
            assert log + [] == log;
            return false;
          }
          ghost var rest := Spec.RecordOutputs(m, Table(), stream, outputEvents[name := nextEvent], nextEvent + 1,
                                               k + 1, recordOk);
          assert log + ([Item(stream, Record(nextEvent))] + rest.ops)
                 == log + [Item(stream, Record(nextEvent))] + rest.ops;
          log := log + [Item(stream, Record(nextEvent))];
          outputEvents := outputEvents[name := nextEvent];
          nextEvent := nextEvent + 1;
        }
        k := k + 1;
      }
      assert log + [] == log;
      return true;
    }

    method UpdateOutput(b: Spec.Binding, a: Allocation) returns (ok: bool)
      requires Valid()
      modifies `ctx, Objects()
      ensures var u := Spec.UpdateOutput(m, mode.frozen, old(ctx.shapes), b, old(Table()), old(ctx.addresses), a);
              ok == u.ok && Table() == u.tensors && ctx == old(ctx).(addresses := u.addresses)
    {
      if b.isInput { return true; }
      match Spec.ContextShape(m, ctx.shapes, b.name) {
        case None => return false;
        case Some(d) =>
          if -1 in d || b.name !in tensors { return true; }
          if !AllPositive(d) { return false; }
          TableAt(b.name);
          hide TensorState.ResizeBytes, TensorState.Reshape, Product, AllPositive, Table, Valid;
          var n := Product(d) * tensors[b.name].elementSize;
          if n > tensors[b.name].capacity {
            if mode.frozen { return false; }
            ok := GrowBinding(b.name, n, a);
          } else {
            ok := ReshapeBinding(b.name, d);
          }
      }
    }

    /** Give a binding more memory, and the context its address. */
    method GrowBinding(name: string, n: nat, a: Allocation) returns (ok: bool)
      requires Valid() && name in tensors
      modifies `ctx, Objects()
      ensures var (u, grown) := old(tensors[name].State()).ResizeBytes(n, a);
              var r := if grown then Spec.SetAddress(m, old(ctx.addresses), name, u.mem.Address())
                       else Spec.Bound(old(ctx.addresses), false);
              && Table() == old(Table())[name := u] && ok == r.ok && ctx == old(ctx).(addresses := r.addresses)
    {
      hide TensorState.ResizeBytes, Table, MemState.Address;
      var t := tensors[name];
      ok := t.ResizeBytes(n, a);
      TableAfter(name);
      if !ok { return; }
      var address := t.State().mem.Address();
      ok := m.acceptsAddress(name, address);
      if ok { ctx := ctx.(addresses := ctx.addresses[name := address]); }
    }

    method UpdateOutputShapes(alloc: string -> Allocation) returns (ok: bool)
      requires Valid()
      modifies `ctx, Objects()
      ensures var u := Spec.UpdateOutputShapes(m, mode.frozen, old(ctx.shapes), old(Table()), old(ctx.addresses), 0,
                                               alloc);
              ok == u.ok && Table() == u.tensors && ctx == old(ctx).(addresses := u.addresses)
    {
      hide Spec.UpdateOutput;
      var i := 0;
      while i < |m.io|
        invariant i <= |m.io| && ctx.shapes == old(ctx.shapes)
        invariant Spec.UpdateOutputShapes(m, mode.frozen, ctx.shapes, Table(), ctx.addresses, i, alloc)
               == Spec.UpdateOutputShapes(m, mode.frozen, old(ctx.shapes), old(Table()), old(ctx.addresses), 0, alloc)
      {
        ok := UpdateOutput(m.io[i], alloc(m.io[i].name));
        if !ok { return; }
        i := i + 1;
      }
      return true;
    }

    // ── Public calls ───────────────────────────────────────────────────

    method InferAsync(env: Spec.InferEnv) returns (ok: bool)
      requires Valid()
      modifies this
      ensures tensors == old(tensors) && Spec.Out(State(), ok) == Spec.InferAsync(m, old(State()), env)
      ensures Invariants.Keeps(m, old(State()), State())
      ensures Invariants.InferenceRefines(m, old(State()), env, Spec.Out(State(), ok))
    {
      hide Invariants.Keeps, Invariants.InferenceRefines;
      Invariants.InferPromises(m, State(), env);
      hide Spec.WaitInputs, Spec.BindIOAddresses, Spec.RecordOutputs, Spec.LaunchInference, Table, Valid,
           Invariants.LaunchRefines, Spec.ExecStream;
      if !mode.loaded { return false; }
      ok := WaitInputs(env.waitOk);
      if !ok { return; }
      if !mode.frozen {
        ok := BindIOAddresses();
        if !ok { return; }
      }
      assert old(ctx).(addresses := ctx.addresses) == ctx;
      ok := LaunchAndRecord(env);
    }

    /** The rest of an inference, once the addresses are bound. */
    method LaunchAndRecord(env: Spec.InferEnv) returns (ok: bool)
      modifies `log, `graph, `ledger, `outputEvents, `nextEvent
      ensures var l := Spec.LaunchInference(m, mode, ctx, Table(), old(Spec.Cache(graph, ledger)), env);
              var r := Spec.RecordOutputs(m, Table(), Spec.ExecStream(mode), old(outputEvents), old(nextEvent), 0,
                                          env.recordOk);
              && ok == (l.ok && r.ok) && Spec.Cache(graph, ledger) == l.cache
              && log == old(log) + l.ops + (if l.ok then r.ops else [])
              && outputEvents == (if l.ok then r.events else old(outputEvents))
              && nextEvent == if l.ok then r.next else old(nextEvent)
    {
      hide Spec.LaunchInference, Spec.RecordOutputs, Table, Invariants.LaunchRefines;
      ok := LaunchInference(env);
      if ok {
        ok := RecordOutputs(env.recordOk);
      } else {
        assert log + [] == log;
      }
    }

    method CopyIn(t: Tensor, data: Bytes, copyOk: bool) returns (ok: bool)
      modifies `log
      ensures var c := Spec.CopyIn(t.State(), data, copyOk); ok == c.ok && log == old(log) + c.ops
    {
      var mem := t.data.State();
      match mem.Copy(0, t.byteSize) {
        case Nothing => return true;
        case Copies(p) =>
          if mem.kind == Device {
            if !copyOk { return false; }
            log := log + [Item(Spec.Internal, Upload(p, data))];
          } else {
            log := log + [Item(Host, Upload(p, data))];
          }
          return true;
        case _ => return false;
      }
    }

    method CopyOut(t: Tensor, dst: nat, copyOk: bool) returns (ok: bool)
      modifies `log
      ensures var c := Spec.CopyOut(t.State(), dst, copyOk); ok == c.ok && log == old(log) + c.ops
    {
      var mem := t.data.State();
      match mem.Copy(0, t.byteSize) {
        case Nothing => return true;
        case Copies(p) =>
          if mem.kind == Device {
            if !copyOk { return false; }
            log := log + [Item(Spec.Internal, Download(p, dst))];
          } else {
            log := log + [Item(Host, Download(p, dst))];
          }
          return true;
        case _ => return false;
      }
    }

    method ReshapeBinding(name: string, dims: Dims) returns (ok: bool)
      requires Valid() && name in tensors
      modifies Objects()
      ensures (tensors[name].State(), ok) == old(tensors[name].State()).Reshape(dims)
      ensures Table() == old(Table())[name := tensors[name].State()]
      ensures !ok ==> tensors[name].State() == old(tensors[name].State()) && Table() == old(Table())
    {
      TableAt(name);
      ReshapeFailsWithoutEffect(tensors[name].State(), dims);
      hide TensorState.Reshape, Table;
      ok := tensors[name].Reshape(dims);
      TableAfter(name);
    }

    method ResizeBinding(name: string, dims: Dims, a: Allocation) returns (ok: bool)
      requires Valid() && name in tensors
      modifies Objects()
      ensures (tensors[name].State(), ok) == old(tensors[name].State()).Resize(dims, old(tensors[name].dtype), a)
      ensures Table() == old(Table())[name := tensors[name].State()]
    {
      hide TensorState.Resize, Table;
      ok := tensors[name].Resize(dims, tensors[name].dtype, a);
      TableAfter(name);
    }

    /** Reallocate a binding for a shape, and give the context its address. */
    method ReallocateBinding(name: string, dims: Dims, a: Allocation) returns (ok: bool)
      requires Valid() && name in tensors
      modifies `ctx, `graph, `ledger, Objects()
      ensures var (v, grown) := old(tensors[name].State()).Resize(dims, old(tensors[name].dtype), a);
              var r := if grown then Spec.SetAddress(m, old(ctx.addresses), name, v.mem.Address())
                       else Spec.Bound(old(ctx.addresses), false);
              && tensors[name].State() == v && Table() == old(Table())[name := v] && ok == r.ok
              && ctx == old(ctx).(addresses := r.addresses)
              && Spec.Cache(graph, ledger)
                 == if ok then Spec.ResetCudaGraph(old(Spec.Cache(graph, ledger))) else old(Spec.Cache(graph, ledger))
    {
      hide TensorState.Resize, Table, Spec.ResetCudaGraph, Valid, MemState.Address;
      ok := ResizeBinding(name, dims, a);
      if ok { ok := Rebind(name); }
    }

    method MakeRoom(name: string, dims: Dims, a: Allocation) returns (ok: bool)
      requires Valid() && name in tensors
      modifies `ctx, `graph, `ledger, Objects()
      ensures var r := Spec.MakeRoom(m, old(State()), name, old(tensors[name].State()), dims, a);
              && ok == r.ok && Table() == old(Table())[name := r.tensor] && tensors[name].State() == r.tensor
              && ctx == old(ctx).(addresses := r.addresses) && Spec.Cache(graph, ledger) == r.cache
    {
      hide TensorState.Resize, TensorState.Reshape, Table, Spec.ResetCudaGraph, Valid, MemState.Address;
      ok := ReshapeBinding(name, dims);
      if ok || mode.frozen { return; }
      ok := ReallocateBinding(name, dims, a);
    }

    /** Give the context the tensor's new address; a graph with the old one is dropped. */
    method Rebind(name: string) returns (ok: bool)
      requires name in tensors
      modifies `ctx, `graph, `ledger
      ensures var r := Spec.SetAddress(m, old(ctx.addresses), name, tensors[name].State().mem.Address());
              && ok == r.ok && ctx == old(ctx).(addresses := r.addresses)
              && Spec.Cache(graph, ledger)
                 == if ok then Spec.ResetCudaGraph(old(Spec.Cache(graph, ledger))) else old(Spec.Cache(graph, ledger))
    {
      hide Spec.ResetCudaGraph, Invariants.Conserves;
      var address := tensors[name].State().mem.Address();
      if !m.acceptsAddress(name, address) { return false; }
      ctx := ctx.(addresses := ctx.addresses[name := address]);
      ResetCudaGraph();
      return true;
    }

    method SetInputData(name: string, data: Bytes, dims: Dims, env: Spec.SetEnv) returns (ok: bool)
      requires Valid()
      modifies this, Objects()
      ensures tensors == old(tensors)
      ensures Spec.Out(State(), ok) == Spec.SetInputData(m, old(State()), name, data, dims, env)
      ensures Invariants.Keeps(m, old(State()), State())
    {
      hide Invariants.Keeps;
      Invariants.SetInputPromises(m, State(), name, data, dims, env);
      hide Spec.MakeRoom, Product, AllPositive, Spec.CopyIn, Table, Valid;
      TableAt(name);
      if name !in tensors || !tensors[name].isInput { return false; }
      if !AllPositive(dims) { return false; }
      if |data| != Product(dims) * tensors[name].elementSize { return false; }
      ok := MakeRoom(name, dims, env.alloc);
      if !ok { return; }
      ok := CopyAndRecord(name, data, env);
    }

    /** The rest of setting an input: the copy and its event. */
    method CopyAndRecord(name: string, data: Bytes, env: Spec.SetEnv) returns (ok: bool)
      requires name in tensors
      modifies `log, `inputEvents, `nextEvent
      ensures var c := Spec.CopyIn(tensors[name].State(), data, env.copyOk);
              && ok == (c.ok && env.recordOk)
              && (ok ==>
                    && log == old(log) + c.ops + [Item(Spec.Internal, Record(old(nextEvent)))]
                    && inputEvents == old(inputEvents)[name := old(nextEvent)] && nextEvent == old(nextEvent) + 1)
              && (!ok ==>
                    log == old(log) + c.ops && inputEvents == old(inputEvents) && nextEvent == old(nextEvent))
    {
      hide Spec.CopyIn;
      ok := CopyIn(tensors[name], data, env.copyOk);
      if ok { ok := RecordInput(name, env.recordOk); }
    }

    method RecordInput(name: string, recordOk: bool) returns (ok: bool)
      modifies `log, `inputEvents, `nextEvent
      ensures ok == recordOk
      ensures ok ==>
                && log == old(log) + [Item(Spec.Internal, Record(old(nextEvent)))]
                && inputEvents == old(inputEvents)[name := old(nextEvent)] && nextEvent == old(nextEvent) + 1
      ensures !ok ==> log == old(log) && inputEvents == old(inputEvents) && nextEvent == old(nextEvent)
    {
      if !recordOk { return false; }
      log := log + [Item(Spec.Internal, Record(nextEvent))];
      inputEvents := inputEvents[name := nextEvent];
      nextEvent := nextEvent + 1;
      return true;
    }

    /** The refresh before a read; its success is not looked at. */
    method RefreshForRead(alloc: string -> Allocation)
      requires Valid()
      modifies `ctx, Objects()
      ensures var u := Spec.RefreshForRead(m, old(State()), alloc);
              Table() == u.tensors && ctx == old(ctx).(addresses := u.addresses)
    {
      hide Spec.UpdateOutputShapes, Table, Valid, Spec.HasDynamic;
      if !mode.frozen || Spec.HasDynamic(m) {
        var _ := UpdateOutputShapes(alloc);
      }
      assert old(ctx).(addresses := ctx.addresses) == ctx;
    }

    method GetOutputData(name: string, dst: nat, size: nat, env: Spec.GetEnv) returns (ok: bool)
      requires Valid()
      modifies this, Objects()
      ensures tensors == old(tensors)
      ensures Spec.Out(State(), ok) == Spec.GetOutputData(m, old(State()), name, dst, size, env)
      ensures Invariants.Keeps(m, old(State()), State())
    {
      hide Invariants.Keeps;
      Invariants.GetOutputPromises(m, State(), name, dst, size, env);
      hide Spec.RefreshForRead, Spec.CopyOut, Table, Valid;
      TableAt(name);
      if !mode.loaded { return false; }
      if name !in tensors || tensors[name].isInput { return false; }
      RefreshForRead(env.alloc);
      TableAt(name);
      ok := CopyWhenReady(name, dst, size, env);
    }

    /** The rest of a read: the size check, the wait and the copy. */
    method CopyWhenReady(name: string, dst: nat, size: nat, env: Spec.GetEnv) returns (ok: bool)
      requires name in tensors
      modifies `log
      ensures var t := tensors[name].State();
              if size != t.byteSize || name !in outputEvents || !env.waitOk then !ok && log == old(log)
              else
                var c := Spec.CopyOut(t, dst, env.copyOk);
                ok == c.ok && log == old(log) + [Item(Spec.Internal, Wait(outputEvents[name]))] + c.ops
    {
      hide Spec.CopyOut;
      var t := tensors[name];
      if size != t.byteSize { return false; }
      ok := WaitOutput(name, env.waitOk);
      if ok { ok := CopyOut(t, dst, env.copyOk); }
    }

    method WaitOutput(name: string, waitOk: bool) returns (ok: bool)
      modifies `log
      ensures ok <==> name in outputEvents && waitOk
      ensures log == if ok then old(log) + [Item(Spec.Internal, Wait(outputEvents[name]))] else old(log)
    {
      if name !in outputEvents || !waitOk { return false; }
      log := log + [Item(Spec.Internal, Wait(outputEvents[name]))];
      return true;
    }

    method SetBindingShape(name: string, dims: Dims) returns (ok: bool)
      requires Valid()
      modifies this
      ensures tensors == old(tensors) && Spec.Out(State(), ok) == Spec.SetBindingShape(m, old(State()), name, dims)
      ensures Invariants.Keeps(m, old(State()), State())
    {
      hide Invariants.Keeps;
      Invariants.BindShapePromises(m, State(), name, dims);
      hide AllPositive;
      if !mode.loaded { return false; }
      if mode.frozen && !Spec.HasDynamic(m) { return false; }
      if !AllPositive(dims) || !m.acceptsShape(name, dims) { return false; }
      ctx := ctx.(shapes := ctx.shapes[name := dims]);
      if mode.frozen { ResetCudaGraph(); }
      return true;
    }

    method SetOptimizationProfile(accepted: Spec.Option<map<string, Dims>>) returns (ok: bool)
      requires Valid()
      modifies this
      ensures tensors == old(tensors) && Spec.Out(State(), ok) == Spec.SetOptimizationProfile(old(State()), accepted)
      ensures Invariants.Keeps(m, old(State()), State())
    {
      hide Invariants.Keeps;
      Invariants.SwitchProfilePromises(m, State(), accepted);
      if !mode.loaded || mode.frozen { return false; }
      ResetCudaGraph();
      if accepted.None? { return false; }
      ctx := ctx.(shapes := accepted.value);
      return true;
    }

    method SetBindingAddress(name: string, p: Ptr) returns (ok: bool)
      requires Valid()
      modifies this
      ensures tensors == old(tensors) && Spec.Out(State(), ok) == Spec.SetBindingAddress(m, old(State()), name, p)
      ensures Invariants.Keeps(m, old(State()), State())
    {
      hide Invariants.Keeps;
      Invariants.BindAddressPromises(m, State(), name, p);
      hide Table, Valid, Spec.ResetCudaGraph, Invariants.Conserves;
      if !mode.loaded || mode.frozen { return false; }
      if !m.acceptsAddress(name, p) { return false; }
      ctx := ctx.(addresses := ctx.addresses[name := p]);
      user := user[name := p];
      ResetCudaGraph();
      return true;
    }

    method FreezeIO(alloc: string -> Allocation) returns (ok: bool)
      requires Valid()
      modifies this, Objects()
      ensures tensors == old(tensors) && Spec.Out(State(), ok) == Spec.FreezeIO(m, old(State()), alloc)
      ensures Invariants.Keeps(m, old(State()), State())
      ensures Calls.FreezePromise(m, old(State()), alloc, Spec.Out(State(), ok))
    {
      hide Invariants.Keeps, Calls.FreezePromise;
      Invariants.FreezePromises(m, State(), alloc);
      Calls.FreezeCallPromises(m, State(), alloc);
      hide Spec.UpdateOutputShapes, Spec.BindIOAddresses, Spec.ResetCudaGraph, Invariants.Conserves, Table, Valid;
      if !mode.loaded || !mode.persistent { return false; }
      if !mode.frozen {
        ok := UpdateOutputShapes(alloc);
        if !ok { return; }
        ok := BindIOAddresses();
        if !ok { return; }
        ResetCudaGraph();
        mode := mode.(frozen := true);
      }
      return mode.frozen;
    }

    method SetStream(stream: nat) returns (ok: bool)
      requires Valid()
      modifies this
      ensures tensors == old(tensors) && Spec.Out(State(), ok) == Spec.SetStream(old(State()), stream)
      ensures Invariants.Keeps(m, old(State()), State())
    {
      hide Invariants.Keeps;
      Invariants.UseStreamPromises(m, State(), stream);
      hide Table, Valid, Invariants.Conserves, Spec.ResetCudaGraph;
      if stream == 0 { return false; }
      ResetCudaGraph();
      mode := mode.(external := stream);
      return true;
    }

    method EnableCudaGraph(enable: bool)
      requires Valid()
      modifies this
      ensures tensors == old(tensors) && Spec.Out(State(), true) == Spec.EnableCudaGraph(old(State()), enable)
      ensures Invariants.Keeps(m, old(State()), State())
    {
      hide Invariants.Keeps;
      Invariants.EnableGraphPromises(m, State(), enable);
      hide Table, Valid, Invariants.Conserves, Spec.ResetCudaGraph;
      mode := mode.(enabled := enable);
      if !mode.enabled { ResetCudaGraph(); }
    }

    method CaptureCudaGraph(env: Spec.InferEnv) returns (ok: bool)
      requires Valid()
      modifies this
      ensures tensors == old(tensors) && Spec.Out(State(), ok) == Spec.CaptureCudaGraph(m, old(State()), env)
      ensures Invariants.Keeps(m, old(State()), State())
      ensures Calls.CapturePromise(m, old(State()), env, Spec.Out(State(), ok))
    {
      hide Invariants.Keeps, Calls.CapturePromise;
      Invariants.CapturePromises(m, State(), env);
      Calls.CaptureCallPromises(m, State(), env);
      hide Spec.WaitInputs, Spec.CaptureOn, Spec.Snapshot, Table, Valid, Invariants.CaptureRefines;
      if !mode.loaded { return false; }
      ok := WaitInputs(env.waitOk);
      if !ok { return; }
      ok := CaptureOn(env.capture);
    }

    method Cleanup()
      requires Valid()
      modifies this
      ensures Valid() && State() == Spec.Cleanup(old(State()))
      ensures Invariants.Settles(m, old(State()), State())
    {
      hide Invariants.Settles;
      Invariants.CleanupSettles(m, State());
      ResetCudaGraph();
      tensors := map[];
      user := map[];
      inputEvents := map[];
      outputEvents := map[];
      ctx := Spec.Context(map[], map[]);
      mode := mode.(loaded := false);
    }

    // ── Construction ───────────────────────────────────────────────────

    function Allocated(): Spec.Allocated
      reads `tensors, `ctx, tensors.Values, set n | n in tensors :: tensors[n].data
    {
      Spec.Allocated(Table(), ctx)
    }

    method AddTensor(b: Spec.Binding, d: Dims, a: Allocation)
      requires Valid() && b.name !in tensors
      modifies `tensors, `ctx
      ensures Valid() && tensors.Keys == old(tensors.Keys) + {b.name}
      ensures forall n | n in old(tensors) :: tensors[n] == old(tensors[n])
      ensures fresh(tensors[b.name]) && fresh(tensors[b.name].data)
      ensures Allocated() == Spec.AddTensor(m, old(Allocated()), b, d, a)
    {
      hide TensorState.Resize, Table;
      var t := new Tensor(d, b.dtype, if b.hostLocated then Pinned else Device, b.isInput, a);
      assert t.State() == Spec.NewTensor(b, d, a);
      tensors := tensors[b.name := t];
      TableWith(b.name);
      var address := t.State().mem.Address();
      if address != 0 && m.acceptsAddress(b.name, address) {
        ctx := ctx.(addresses := ctx.addresses[b.name := address]);
      }
    }

    method AllocateInput(b: Spec.Binding, maxProfile: bool, a: Allocation)
      requires Valid() && b.name !in tensors
      modifies `tensors, `ctx
      ensures Valid() && tensors.Keys == old(tensors.Keys) + {b.name}
      ensures forall n | n in old(tensors) :: tensors[n] == old(tensors[n])
      ensures fresh(tensors[b.name]) && fresh(tensors[b.name].data)
      ensures Allocated() == Spec.AllocateInput(m, old(Allocated()), b, maxProfile, a)
    {
      hide Spec.AddTensor, Spec.InputShape, Spec.IsDynamic, Table, Valid;
      var d := Spec.InputShape(b, maxProfile);
      AddTensor(b, d, a);
      if Spec.IsDynamic(b) && m.acceptsShape(b.name, d) { ctx := ctx.(shapes := ctx.shapes[b.name := d]); }
    }

    /** No binding from the i-th on, outputs only if so asked, has a tensor yet. */
    ghost predicate Unallocated(i: nat, outputsOnly: bool)
      reads `tensors
    {
      forall j | i <= j < |m.io| && !(outputsOnly && m.io[j].isInput) :: m.io[j].name !in tensors
    }

    method AllocateInputs(maxProfile: bool, alloc: string -> Allocation)
      requires Valid() && tensors == map[] && Spec.WellFormed(m)
      modifies `tensors, `ctx
      ensures Valid() && Allocated() == Spec.AllocateInputs(m, old(Allocated()), 0, maxProfile, alloc)
      ensures forall n | n in tensors :: fresh(tensors[n]) && fresh(tensors[n].data)
      ensures Unallocated(0, true)
    {
      hide Spec.AllocateInput, Table, Valid;
      var i := 0;
      while i < |m.io|
        invariant i <= |m.io| && Valid() && Unallocated(i, false) && Unallocated(0, true)
        invariant forall n | n in tensors :: fresh(tensors[n]) && fresh(tensors[n].data)
        invariant Spec.AllocateInputs(m, Allocated(), i, maxProfile, alloc)
               == Spec.AllocateInputs(m, old(Allocated()), 0, maxProfile, alloc)
      {
        if m.io[i].isInput {
          AllocateInput(m.io[i], maxProfile, alloc(m.io[i].name));
        }
        i := i + 1;
      }
    }

    method AllocateOutputs(maxProfile: bool, alloc: string -> Allocation)
      requires Valid() && Spec.WellFormed(m) && Unallocated(0, true)
      modifies `tensors, `ctx
      ensures Valid() && Allocated() == Spec.AllocateOutputs(m, old(Allocated()), 0, maxProfile, alloc)
      ensures forall n | n in tensors :: (n in old(tensors) && tensors[n] == old(tensors[n]))
                                         || (fresh(tensors[n]) && fresh(tensors[n].data))
    {
      hide Spec.AddTensor, Spec.OutputShape, Table, Valid;
      var i := 0;
      while i < |m.io|
        invariant i <= |m.io| && Valid() && Unallocated(i, true)
        invariant forall n | n in tensors :: (n in old(tensors) && tensors[n] == old(tensors[n]))
                                             || (fresh(tensors[n]) && fresh(tensors[n].data))
        invariant Spec.AllocateOutputs(m, Allocated(), i, maxProfile, alloc)
               == Spec.AllocateOutputs(m, old(Allocated()), 0, maxProfile, alloc)
      {
        var b := m.io[i];
        if !b.isInput {
          AddTensor(b, Spec.OutputShape(m, ctx.shapes, b, maxProfile), alloc(b.name));
        }
        i := i + 1;
      }
    }

    method AllocateIOBindingsMemory(maxProfile: bool, alloc: string -> Allocation)
      requires Valid() && tensors == map[] && ctx == Spec.Context(map[], map[]) && Spec.WellFormed(m)
      modifies `tensors, `ctx
      ensures Valid() && Allocated() == Spec.Allocate(m, maxProfile, alloc)
      ensures forall n | n in tensors :: fresh(tensors[n]) && fresh(tensors[n].data)
    {
      assert Table() == map[];
      hide Spec.AllocateInputs, Spec.AllocateOutputs, Table, Valid, Spec.WellFormed, Unallocated;
      AllocateInputs(maxProfile, alloc);
      AllocateOutputs(maxProfile, alloc);
    }

    constructor (m: Spec.Model, config: Spec.Config, alloc: string -> Allocation)
      requires Spec.WellFormed(m)
      ensures Valid() && this.m == m && State() == Spec.Construct(m, config, alloc)
      ensures Invariants.Inv(m, State())
    {
      this.m := m;
      var c := Spec.Normalised(config);
      mode := Spec.Mode(true, c.persistent, false, c.cudaGraph, 0);
      ctx, user, tensors := Spec.Context(map[], map[]), map[], map[];
      inputEvents, outputEvents, nextEvent := map[], map[], 0;
      graph, ledger, log := Spec.NoGraph, Spec.Ledger(0, 0, multiset{}, multiset{}), [];
      new;
      hide Invariants.Inv, Invariants.Keeps;
      Invariants.ConstructEstablishes(m, config, alloc);
      hide Spec.Allocate, Spec.FreezeIO, Table, Spec.WellFormed;
      AllocateIOBindingsMemory(c.maxProfile, alloc);
      if c.autoFreeze {
        var _ := FreezeIO(alloc);
      }
    }
  }
}
