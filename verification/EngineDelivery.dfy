/** What a round delivers: the inference sees the data that was set, and the read returns what the inference computed,
    as long as the addresses the copies use are the addresses the launch uses; and exactly when they are. */
module EngineDelivery {
  import opened Streams
  import opened CudaMemory
  import opened TensorModel
  import opened EngineSpec
  import opened EngineCapacity
  import opened EngineShapes
  import EngineInvariants
  import opened EngineRounds
  import opened HostSchedules

  // ── Inputs ───────────────────────────────────────────────────────────

  /** The address an inference would launch with for a binding. */
  ghost function LaunchAddress(m: Model, s: State, name: string): Ptr
    requires name in EngineInvariants.LaunchContext(m, s).addresses
  {
    EngineInvariants.LaunchContext(m, s).addresses[name]
  }

  lemma LaunchAddressIsResolved(m: Model, s: State, env: InferEnv, name: string)
    requires EngineInvariants.Inv(m, s) && InferAsync(m, s, env).ok && name in s.tensors
    ensures name in EngineInvariants.LaunchContext(m, s).addresses
    ensures LaunchAddress(m, s, name) == Resolved(s.user, name, s.tensors[name])
  {
    EngineInvariants.ReplayRefinesEnqueue(m, s, env);
    assert s.mode.frozen || BindIOAddresses(m, s.tensors, s.user, s.ctx.addresses, 0).ok by {
      hide WaitInputs, RecordOutputs, InferAsync, EngineInvariants.Inv;
    }
    EngineInvariants.LaunchContextResolved(m, s);
    hide InferAsync, EngineInvariants.Inv, EngineInvariants.LaunchContext, Resolved;
  }

  /** An inference right after SetInputData finds exactly that data at the address it is launched with for the input,
      unless the user has given the input another address: SetInputData always copies to the tensor's own memory. */
  lemma InputArrivesIff(m: Model, s: State, name: string, data: Bytes, dims: Dims, fill: SetEnv, infer: InferEnv,
                        k: Kernel, w: World)
    requires EngineInvariants.Inv(m, s) && AllSound(s.tensors) && fill.alloc.Got?
    requires SetInputData(m, s, name, data, dims, fill).ok
    requires InferAsync(m, SetInputData(m, s, name, data, dims, fill).s, infer).ok
    ensures var r := SetInputData(m, s, name, data, dims, fill).s;
            && name in r.tensors && name in EngineInvariants.LaunchContext(m, r).addresses
            && At(InOrder(k, r.log, w).mem, r.tensors[name].mem.Address()) == data
            && (LaunchAddress(m, r, name) == r.tensors[name].mem.Address()
                <==> (name in s.user ==> s.user[name] == r.tensors[name].mem.Address()))
  {
    var r := SetInputData(m, s, name, data, dims, fill).s;
    SetInputSucceedsIff(m, s, name, data, dims, fill);
    EngineInvariants.SetInputKeeps(m, s, name, data, dims, fill);
    InputKeepsUser(m, s, name, data, dims, fill);
    LaunchAddressIsResolved(m, r, infer, name);
    var p := r.tensors[name].mem.Address();
    var up, record := r.log[|s.log|], r.log[|s.log| + 1];
    assert r.log == s.log + [up] + [record];
    InOrderAppend(k, s.log, up, w);
    InOrderAppend(k, s.log + [up], record, w);
    hide SetInputData, Product, AllPositive, HasRoom, Sound, InOrder, InferAsync, LaunchAddress, EngineInvariants.Inv,
         EngineInvariants.LaunchContext;
  }

  lemma InputKeepsUser(m: Model, s: State, name: string, data: Bytes, dims: Dims, env: SetEnv)
    ensures SetInputData(m, s, name, data, dims, env).s.user == s.user
  {
    hide MakeRoom, Product, AllPositive, CopyIn;
  }

  // ── Outputs ──────────────────────────────────────────────────────────

  /** A refresh leaves an output's memory, or grows it, and then it is where the allocator put it. */
  ghost predicate MovedByGrowth(t: TensorState, u: TensorState, a: Allocation) {
    if u.capacity > t.capacity then a.Got? && u.mem.Address() == a.ptr else u.mem == t.mem
  }

  lemma UpdateMoves(m: Model, frozen: bool, shapes: map<string, Dims>, b: Binding, tensors: Tensors,
                    addresses: map<string, Ptr>,
                    a: Allocation)
    requires AllSound(tensors) && a.Got? && b.name in tensors
    ensures MovedByGrowth(tensors[b.name], UpdateOutput(m, frozen, shapes, b, tensors, addresses, a).tensors[b.name], a)
  {
    var t := tensors[b.name];
    var q := ContextShape(m, shapes, b.name);
    assert Sound(t);
    if q.Some? && AllPositive(q.value) {
      PositiveShape(q.value);
      EngineInvariants.ReshapeKeepsMemory(t, q.value);
      PositiveProduct(Product(q.value), t.elementSize);
      hide TensorState.Reshape, Product, Elements, ContextShape, AllPositive;
    } else {
      hide TensorState.Reshape, TensorState.ResizeBytes, Product, ContextShape, AllPositive;
    }
  }

  lemma {:induction false} RefreshMoves(m: Model, frozen: bool, shapes: map<string, Dims>, tensors: Tensors,
                                        addresses: map<string, Ptr>, i: nat, alloc: string -> Allocation, name: string)
    requires WellFormed(m) && AllSound(tensors) && AllGot(alloc) && name in tensors
    ensures MovedByGrowth(tensors[name],
                          UpdateOutputShapes(m, frozen, shapes, tensors, addresses, i,
                                             alloc).tensors[name], alloc(name))
    decreases |m.io| - i
  {
    hide UpdateOutput, Sound;
    if i < |m.io| {
      var b := m.io[i];
      var r := UpdateOutput(m, frozen, shapes, b, tensors, addresses, alloc(b.name));
      UpdateTouchesOne(m, frozen, shapes, b, tensors, addresses, alloc(b.name));
      UpdateOutputGrows(m, frozen, shapes, b, tensors, addresses, alloc(b.name));
      if b.name == name {
        UpdateMoves(m, frozen, shapes, b, tensors, addresses, alloc(b.name));
        UpdateKeepsOthers(m, frozen, shapes, r.tensors, r.addresses, i + 1, alloc);
        assert Absent(m, i + 1, name, true);
      } else if r.ok {
        RefreshMoves(m, frozen, shapes, r.tensors, r.addresses, i + 1, alloc, name);
      }
    }
  }

  /** The read's refresh gives output j new, larger memory: it may reallocate, the inferred shape does not fit, and the
      refresh gets as far. */
  ghost predicate GrownByRead(m: Model, s: State, j: nat, alloc: string -> Allocation)
    requires j < |m.io|
  {
    && Outgrown(m, s.mode.frozen, s.ctx.shapes, s.tensors, m.io[j])
    && Reaches(m, s.mode.frozen, s.ctx.shapes, s.tensors, 0, j, alloc)
  }

  /** Where a read takes its bytes from. */
  ghost function ReadAddress(m: Model, s: State, name: string, alloc: string -> Allocation): Ptr
    requires name in s.tensors
  {
    RefreshForRead(m, s, alloc).tensors[name].mem.Address()
  }

  /** A read takes its bytes from where the output was before, or from what the allocator gave it, exactly when it
      outgrew its memory. */
  lemma ReadAddressIff(m: Model, s: State, j: nat, alloc: string -> Allocation)
    requires WellFormed(m) && AllSound(s.tensors) && AllGot(alloc) && j < |m.io| && m.io[j].name in s.tensors
    ensures var name := m.io[j].name;
            ReadAddress(m, s, name, alloc)
            == if GrownByRead(m, s, j, alloc) then alloc(name).ptr else s.tensors[name].mem.Address()
  {
    var name := m.io[j].name;
    RefreshMoves(m, s.mode.frozen, s.ctx.shapes, s.tensors, s.ctx.addresses, 0, alloc, name);
    RefreshGrowsIff(m, s.mode.frozen, s.ctx.shapes, s.tensors, s.ctx.addresses, 0, alloc, j);
    hide UpdateOutputShapes, MemState.Address, Reaches, Fits, Sound, HasDynamic;
  }

  /** A read right after an inference returns what the inference left at the address the read copies from. When the
      allocator does not hand out memory still in use, that is the address the inference was launched with for the
      output exactly when the user gave the output no other address and the read does not grow it. */
  lemma ReadDeliversIff(m: Model, s: State, infer: InferEnv, j: nat, dst: nat, size: nat, read: GetEnv,
                        k: Kernel, w: World)
    returns (launch: Op)
    requires WellFormed(m) && EngineInvariants.Inv(m, s) && AllSound(s.tensors) && AllGot(read.alloc) && j < |m.io|
    requires m.io[j].name in s.tensors && read.alloc(m.io[j].name).ptr != s.tensors[m.io[j].name].mem.Address()
    requires InferAsync(m, s, infer).ok
    requires GetOutputData(m, InferAsync(m, s, infer).s, m.io[j].name, dst, size, read).ok
    ensures var name, s1 := m.io[j].name, InferAsync(m, s, infer).s;
            var s2 := GetOutputData(m, s1, name, dst, size, read).s;
            && launch.Launch? && name in s1.tensors && name in launch.addresses
            && launch.addresses[name] == Resolved(s.user, name, s.tensors[name])
            && var q := ReadAddress(m, s1, name, read.alloc);
               && At(InOrder(k, s2.log, w).host, dst)
                 == At(k(launch.shapes, launch.addresses, InOrder(k, s.log, w).mem), q)
               && (q == launch.addresses[name]
                   <==> if name in s.user then s.user[name] == q else !GrownByRead(m, s1, j, read.alloc))
  {
    var name := m.io[j].name;
    var waits, item, records := InferIssues(m, s, infer);
    launch := item.op;
    LaunchAddressIsResolved(m, s, infer, name);
    var s1 := InferAsync(m, s, infer).s;
    GetOutputSucceedsIff(m, s1, name, dst, size, read);
    ReadAddressIff(m, s1, j, read.alloc);
    var s2 := GetOutputData(m, s1, name, dst, size, read).s;
    hide InferAsync, GetOutputData, RefreshForRead, UpdateOutputShapes, EngineInvariants.Inv, Sound, GrownByRead,
         EngineInvariants.LaunchContext;
    var wait, down := s2.log[|s1.log|], s2.log[|s1.log| + 1];
    assert s2.log == s.log + waits + [item] + records + [wait] + [down];
    Delivered(k, s.log, waits, item, records, wait, down, w);
  }

  lemma Delivered(k: Kernel, before: Program, waits: Program, item: Item, records: Program, wait: Item, down: Item,
                  w: World)
    requires Quiet(waits) && Quiet(records) && item.op.Launch? && !IsMemory(wait.op) && down.op.Download?
    ensures At(InOrder(k, before + waits + [item] + records + [wait] + [down], w).host, down.op.dst)
            == At(k(item.op.shapes, item.op.addresses, InOrder(k, before, w).mem), down.op.ptr)
  {
    QuietDoesNothing(k, before, waits, w);
    InOrderAppend(k, before + waits, item, w);
    QuietDoesNothing(k, before + waits + [item], records, w);
    InOrderAppend(k, before + waits + [item] + records, wait, w);
    InOrderAppend(k, before + waits + [item] + records + [wait], down, w);
    hide InOrder;
  }

  lemma {:induction false} QuietDoesNothing(k: Kernel, p: Program, q: Program, w: World)
    requires Quiet(q)
    ensures InOrder(k, p + q, w) == InOrder(k, p, w)
    decreases |q|
  {
    if q == [] {
      assert p + q == p;
    } else {
      assert (p + q)[..|p + q| - 1] == p + q[..|q| - 1];
      assert q[|q| - 1] in q;
      QuietDoesNothing(k, p, q[..|q| - 1], w);
    }
  }
}
