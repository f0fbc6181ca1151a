/** What each call promises its caller, in terms of the state before it and of the runtime's answers: exactly when it
    succeeds, and what it leaves behind. */
module EngineCalls {
  import opened Streams
  import opened CudaMemory
  import opened TensorModel
  import opened EngineSpec
  import opened EngineCapacity
  import opened EngineShapes
  import EngineInvariants
  import EngineDelivery
  import EngineRecapture
  import EngineBuffers
  import EngineSettings

  // ── The loops over the binding table ─────────────────────────────────

  /** The address an inference uses for a binding: the user's, or else that of the tensor's device or host memory. */
  ghost function AddressFor(user: map<string, Ptr>, name: string, t: TensorState): Ptr {
    if name in user then user[name]
    else if t.mem.kind == Device then t.mem.device
    else if t.mem.kind == Invalid then 0
    else t.mem.host
  }

  ghost predicate AwaitsInput(tensors: Tensors, events: map<string, nat>, name: string) {
    name in tensors && tensors[name].isInput && name in events
  }

  /** The waits are one for every input that has an event, and nothing else; they succeed if each of them does. */
  lemma {:induction false} WaitsExactly(m: Model, tensors: Tensors, events: map<string, nat>, a: Agent, k: nat,
                                        waitOk: string -> bool)
    requires k <= |m.order|
    ensures var w := WaitInputs(m, tensors, events, a, k, waitOk);
            && (w.ok <==> forall name | name in m.order[k..] && AwaitsInput(tensors, events, name) :: waitOk(name))
            && (w.ok ==> forall name | name in m.order[k..] && AwaitsInput(tensors, events, name) ::
                  Item(a, Wait(events[name])) in w.ops)
            && forall x | x in w.ops :: exists name :: name in m.order[k..] && AwaitsInput(tensors, events, name)
                                                      && x == Item(a, Wait(events[name]))
    decreases |m.order| - k
  {
    if k < |m.order| {
      assert m.order[k..] == [m.order[k]] + m.order[k + 1..];
      WaitsExactly(m, tensors, events, a, k + 1, waitOk);
      var w, rest := WaitInputs(m, tensors, events, a, k, waitOk), WaitInputs(m, tensors, events, a, k + 1, waitOk);
      assert forall x | x in w.ops :: x in rest.ops || x == w.ops[0];
    }
  }

  /** Binding succeeds if every address is accepted; then each tensor's address is the one an inference should use. */
  lemma {:induction false} BindsExactly(m: Model, tensors: Tensors, user: map<string, Ptr>,
                                        addresses: map<string, Ptr>, k: nat)
    requires k <= |m.order|
    ensures var r := BindIOAddresses(m, tensors, user, addresses, k);
            && (r.ok <==> forall name | name in m.order[k..] && name in tensors ::
                  m.acceptsAddress(name, AddressFor(user, name, tensors[name])))
            && (r.ok ==> forall name | name in m.order[k..] && name in tensors ::
                  name in r.addresses && r.addresses[name] == AddressFor(user, name, tensors[name]))
            && (forall name | name !in m.order[k..] || name !in tensors ::
                  (name in r.addresses <==> name in addresses)
                  && (name in addresses ==> r.addresses[name] == addresses[name]))
    decreases |m.order| - k
  {
    if k < |m.order| {
      var name := m.order[k];
      assert m.order[k..] == [name] + m.order[k + 1..];
      if name in tensors {
        var p := Resolved(user, name, tensors[name]);
        assert p == AddressFor(user, name, tensors[name]);
        hide AddressFor, Resolved;
        BindsExactly(m, tensors, user, SetAddress(m, addresses, name, p).addresses, k + 1);
      } else {
        hide AddressFor, Resolved;
        BindsExactly(m, tensors, user, addresses, k + 1);
      }
    }
  }

  ghost predicate IsOutput(tensors: Tensors, name: string) {
    name in tensors && !tensors[name].isInput
  }

  ghost predicate SameEvent(a: map<string, nat>, b: map<string, nat>, name: string) {
    (name in a <==> name in b) && (name in a ==> a[name] == b[name])
  }

  /** The output's event is new and recorded by these operations. */
  ghost predicate NewlyRecorded(r: Recorded, a: Agent, next: nat, name: string) {
    name in r.events && next <= r.events[name] < r.next && Item(a, Record(r.events[name])) in r.ops
  }

  /** Recording gives every output an event that is new and recorded, and touches no other. */
  lemma {:induction false} RecordsExactly(m: Model, tensors: Tensors, a: Agent, events: map<string, nat>, next: nat,
                                          k: nat, recordOk: string -> bool)
    requires WellFormed(m) && k <= |m.order|
    ensures var r := RecordOutputs(m, tensors, a, events, next, k, recordOk);
            && next <= r.next
            && (r.ok ==> forall name | name in m.order[k..] && IsOutput(tensors, name) ::
                  NewlyRecorded(r, a, next, name))
            && (forall name | name !in m.order[k..] || !IsOutput(tensors, name) :: SameEvent(r.events, events, name))
    decreases |m.order| - k
  {
    hide IsOutput;
    if k < |m.order| {
      var name := m.order[k];
      assert m.order[k..] == [name] + m.order[k + 1..];
      NamesDiffer(m, k);
      OutputIs(tensors, name);
      RecordsExactly(m, tensors, a, events, next, k + 1, recordOk);
      RecordsExactly(m, tensors, a, events[name := next], next + 1, k + 1, recordOk);
    }
  }

  /** And no two outputs the same. */
  lemma {:induction false} RecordsApart(m: Model, tensors: Tensors, a: Agent, events: map<string, nat>, next: nat,
                                        k: nat, recordOk: string -> bool, x: string, y: string)
    requires WellFormed(m) && k <= |m.order| && x != y && x in m.order[k..] && y in m.order[k..]
    requires IsOutput(tensors, x) && IsOutput(tensors, y)
    requires RecordOutputs(m, tensors, a, events, next, k, recordOk).ok
    ensures var r := RecordOutputs(m, tensors, a, events, next, k, recordOk).events;
            x in r && y in r && r[x] != r[y]
    decreases |m.order| - k
  {
    var name := m.order[k];
    assert m.order[k..] == [name] + m.order[k + 1..];
    NamesDiffer(m, k);
    RecordsExactly(m, tensors, a, events[name := next], next + 1, k + 1, recordOk);
    if name != x && name != y {
      if IsOutput(tensors, name) {
        RecordsApart(m, tensors, a, events[name := next], next + 1, k + 1, recordOk, x, y);
      } else {
        RecordsApart(m, tensors, a, events, next, k + 1, recordOk, x, y);
      }
    }
  }

  lemma OutputIs(tensors: Tensors, name: string)
    ensures IsOutput(tensors, name) <==> name in tensors && !tensors[name].isInput
  {
  }

  lemma NamesDiffer(m: Model, k: nat)
    requires WellFormed(m) && k < |m.order|
    ensures m.order[k] !in m.order[k + 1..]
  {
  }

  // ── The runtime's answers, as conditions ─────────────────────────────

  ghost predicate WaitsPass(m: Model, s: State, waitOk: string -> bool) {
    forall name | name in m.order && AwaitsInput(s.tensors, s.events.inputs, name) :: waitOk(name)
  }

  ghost predicate AddressesPass(m: Model, user: map<string, Ptr>, tensors: Tensors) {
    forall name | name in m.order && name in tensors ::
      m.acceptsAddress(name, AddressFor(user, name, tensors[name]))
  }

  ghost predicate RecordsPass(m: Model, s: State, recordOk: string -> bool) {
    forall name | name in m.order && IsOutput(s.tensors, name) :: recordOk(name)
  }

  ghost predicate CaptureWorks(e: CaptureEnv) {
    e.beginOk && e.enqueueOk && e.endOk && e.graphNonNull && e.instantiateOk
  }

  /** The shape a graph depends on: what the context has for an input, what the tensor has for an output. */
  ghost function ShapeNow(m: Model, s: State, name: string): Option<Dims>
    requires name in s.tensors
  {
    if !s.tensors[name].isInput then Some(s.tensors[name].dims)
    else if name in s.ctx.shapes then Some(s.ctx.shapes[name])
    else m.inferShape(s.ctx.shapes, name)
  }

  /** A graph is held that was taken for the shapes as they are. */
  ghost predicate HoldsGraph(m: Model, s: State) {
    s.cache.graph.captured && forall name | name in s.tensors ::
      name in s.cache.graph.shapes && s.cache.graph.shapes[name] == ShapeNow(m, s, name)
  }

  lemma HoldsIff(m: Model, s: State)
    ensures CudaGraphShapesMatch(m, s.ctx.shapes, s.tensors, s.cache.graph) <==> HoldsGraph(m, s)
  {
  }

  // ── Inference ────────────────────────────────────────────────────────

  /** A held graph is replayed; otherwise a frozen engine with graphs captures one if it can, and any other enqueues. */
  ghost predicate LaunchPasses(m: Model, s: State, env: InferEnv) {
    if s.mode.enabled && s.mode.frozen && (HoldsGraph(m, s) || CaptureWorks(env.capture)) then env.launchOk
    else env.enqueueOk
  }

  /** Exactly when an inference succeeds. */
  lemma InferSucceedsIff(m: Model, s: State, env: InferEnv)
    requires EngineInvariants.Inv(m, s)
    ensures InferAsync(m, s, env).ok
            <==> s.mode.loaded && WaitsPass(m, s, env.waitOk)
                 && (s.mode.frozen || AddressesPass(m, s.user, s.tensors)) && LaunchPasses(m, s, env)
                 && RecordsPass(m, s, env.recordOk)
  {
    var a, ctx := ExecStream(s.mode), EngineInvariants.LaunchContext(m, s);
    assert m.order[0..] == m.order;
    EngineInvariants.ReplayRefinesEnqueue(m, s, env);
    WaitsExactly(m, s.tensors, s.events.inputs, a, 0, env.waitOk);
    BindsExactly(m, s.tensors, s.user, s.ctx.addresses, 0);
    RecordsOk(m, s.tensors, a, s.events.outputs, s.events.next, 0, env.recordOk);
    HoldsIff(m, s);
    hide InferAsync, WaitInputs, BindIOAddresses, RecordOutputs, CudaGraphShapesMatch, HoldsGraph, AddressFor,
         EngineInvariants.Inv;
  }

  lemma {:induction false} RecordsOk(m: Model, tensors: Tensors, a: Agent, events: map<string, nat>, next: nat, k: nat,
                                     recordOk: string -> bool)
    requires k <= |m.order|
    ensures RecordOutputs(m, tensors, a, events, next, k, recordOk).ok
            <==> forall name | name in m.order[k..] && IsOutput(tensors, name) :: recordOk(name)
    decreases |m.order| - k
  {
    if k < |m.order| {
      var name := m.order[k];
      assert m.order[k..] == [name] + m.order[k + 1..];
      RecordsOk(m, tensors, a, events, next, k + 1, recordOk);
      RecordsOk(m, tensors, a, events[name := next], next + 1, k + 1, recordOk);
    }
  }

  // ── Capturing by hand ────────────────────────────────────────────────

  /** A graph that is held, newly made, and equal to the context. */
  ghost predicate NewGraph(m: Model, s: State, r: State) {
    && HoldsGraph(m, r) && r.cache.graph.baked == s.ctx
    && r.cache.ledger.execs == s.cache.ledger.execs + 1 && r.cache.graph.exec == r.cache.ledger.execs
    && r.cache.ledger.graphs == s.cache.ledger.graphs + 1 && r.cache.graph.graph == r.cache.ledger.graphs
  }

  ghost predicate CapturesByHand(m: Model, s: State, env: InferEnv, r: Out) {
    && r.s == s.(cache := r.s.cache, log := r.s.log)
    && (r.ok <==> s.mode.loaded && WaitsPass(m, s, env.waitOk) && s.mode.enabled && s.mode.frozen
                  && CaptureWorks(env.capture))
    && (r.ok ==> NewGraph(m, s, r.s))
    && (!r.ok && s.mode.loaded && WaitsPass(m, s, env.waitOk) ==> r.s.cache.graph == NoGraph)
    && (!(s.mode.loaded && WaitsPass(m, s, env.waitOk)) ==> r.s.cache == s.cache)
  }

  /** What CaptureCudaGraph promises in a state with the invariant. */
  ghost predicate CapturePromise(m: Model, s: State, env: InferEnv, r: Out) {
    EngineInvariants.Inv(m, s) ==> CapturesByHand(m, s, env, r)
  }

  lemma CaptureOnExactly(m: Model, s: State, env: CaptureEnv)
    requires EngineInvariants.GraphIsCurrent(s.mode, s.ctx, s.cache)
    ensures var r := CaptureOn(s.mode, s.ctx, Snapshot(m, s.ctx.shapes, s.tensors), s.cache, env);
            && (r.ok <==> s.mode.loaded && s.mode.enabled && s.mode.frozen && CaptureWorks(env))
            && (r.ok ==> NewGraph(m, s, s.(cache := r.cache)))
            && (!r.ok ==> r.cache.graph == NoGraph)
  {
  }

  lemma CaptureCallPromises(m: Model, s: State, env: InferEnv)
    ensures CapturePromise(m, s, env, CaptureCudaGraph(m, s, env))
  {
    if EngineInvariants.Inv(m, s) {
      assert m.order[0..] == m.order;
      WaitsExactly(m, s.tensors, s.events.inputs, ExecStream(s.mode), 0, env.waitOk);
      CaptureOnExactly(m, s, env.capture);
      hide WaitInputs, CaptureOn, Snapshot, AwaitsInput, EngineInvariants.HandlesConserved,
           EngineInvariants.AddressesResolved, ShapeNow;
    }
  }

  /** Replaying a held graph leaves it held. */
  lemma InferKeepsGraph(m: Model, s: State, env: InferEnv)
    requires EngineInvariants.Inv(m, s) && HoldsGraph(m, s)
    ensures var r := InferAsync(m, s, env).s; r.cache == s.cache && HoldsGraph(m, r)
  {
    HoldsIff(m, s);
    EngineInvariants.InferChanges(m, s, env);
    assert EngineInvariants.GraphIsCurrent(s.mode, s.ctx, s.cache);
    assert s.mode.loaded && s.mode.enabled && s.mode.frozen;
    hide InferAsync, CudaGraphShapesMatch, EngineInvariants.Inv, CaptureOn, Snapshot;
  }

  lemma InputKeepsGraph(m: Model, s: State, name: string, data: Bytes, dims: Dims, env: SetEnv)
    requires EngineInvariants.Inv(m, s) && HoldsGraph(m, s)
    ensures var r := SetInputData(m, s, name, data, dims, env).s; r.cache == s.cache && HoldsGraph(m, r)
  {
    EngineInvariants.SetInputChanges(m, s, name, data, dims, env);
    EngineRecapture.InputKeepsRest(m, s, name, data, dims, env);
    hide SetInputData, EngineInvariants.HandlesConserved, EngineInvariants.AddressesResolved;
  }

  /** After a capture by hand no inference captures again, however many inputs are set and inferences made. */
  lemma {:induction false} HeldGraphLasts(m: Model, s: State, calls: seq<Call>)
    requires EngineInvariants.Inv(m, s) && HoldsGraph(m, s)
    requires forall i | 0 <= i < |calls| :: calls[i].SetInput? || calls[i].Infer?
    ensures var r := Run(m, s, calls); r.cache == s.cache && HoldsGraph(m, r)
    decreases |calls|
  {
    hide Step, HoldsGraph, EngineInvariants.Inv;
    if calls != [] {
      var n := |calls| - 1;
      HeldGraphLasts(m, s, calls[..n]);
      EngineInvariants.RunKeeps(m, s, calls[..n]);
      CallKeepsGraph(m, Run(m, s, calls[..n]), calls[n]);
    }
  }

  lemma CallKeepsGraph(m: Model, s: State, c: Call)
    requires EngineInvariants.Inv(m, s) && HoldsGraph(m, s) && (c.SetInput? || c.Infer?)
    ensures var r := Step(m, s, c).s; r.cache == s.cache && HoldsGraph(m, r)
  {
    hide SetInputData, InferAsync, HoldsGraph, EngineInvariants.Inv;
    match c
    case SetInput(name, data, dims, env) => InputKeepsGraph(m, s, name, data, dims, env);
    case Infer(env) => InferKeepsGraph(m, s, env);
  }

  /** A capture by hand that succeeds is the last one of any run of inputs and inferences after it. */
  lemma CapturedByHandOnce(m: Model, s: State, env: InferEnv, calls: seq<Call>)
    requires EngineInvariants.Inv(m, s) && CaptureCudaGraph(m, s, env).ok
    requires forall i | 0 <= i < |calls| :: calls[i].SetInput? || calls[i].Infer?
    ensures var r := CaptureCudaGraph(m, s, env).s;
            && Run(m, r, calls).cache == r.cache && r.cache.ledger.execs == s.cache.ledger.execs + 1
            && HoldsGraph(m, Run(m, r, calls))
  {
    hide CaptureCudaGraph, Run, HoldsGraph, EngineInvariants.Inv;
    CaptureCallPromises(m, s, env);
    EngineInvariants.CaptureCallKeeps(m, s, env);
    HeldGraphLasts(m, CaptureCudaGraph(m, s, env).s, calls);
  }

  // ── Refreshing and freezing ──────────────────────────────────────────

  /** A refresh succeeds if and only if no binding stops it. */
  lemma {:induction false} RefreshSucceedsIff(m: Model, frozen: bool, shapes: map<string, Dims>, tensors: Tensors,
                                              addresses: map<string, Ptr>, i: nat, alloc: string -> Allocation)
    requires WellFormed(m) && (frozen || (AllSound(tensors) && AllGot(alloc)))
    ensures UpdateOutputShapes(m, frozen, shapes, tensors, addresses, i, alloc).ok
            <==> Reaches(m, frozen, shapes, tensors, i, |m.io|, alloc)
    decreases |m.io| - i
  {
    hide UpdateOutput, Passes, Sound;
    if i < |m.io| {
      var b := m.io[i];
      var r := UpdateOutput(m, frozen, shapes, b, tensors, addresses, alloc(b.name));
      UpdateOutputOkIff(m, frozen, shapes, b, tensors, addresses, alloc(b.name));
      if !frozen { UpdateOutputGrows(m, frozen, shapes, b, tensors, addresses, alloc(b.name)); }
      UpdateTouchesOne(m, frozen, shapes, b, tensors, addresses, alloc(b.name));
      RestReaches(m, frozen, shapes, tensors, r.tensors, i, alloc);
      if r.ok { RefreshSucceedsIff(m, frozen, shapes, r.tensors, r.addresses, i + 1, alloc); }
    }
  }

  lemma RestReaches(m: Model, frozen: bool, shapes: map<string, Dims>, t: Tensors, u: Tensors, i: nat,
                    alloc: string -> Allocation)
    requires WellFormed(m) && i < |m.io| && u.Keys == t.Keys
    requires forall name | name in t && name != m.io[i].name :: u[name] == t[name]
    ensures Reaches(m, frozen, shapes, t, i, |m.io|, alloc)
            <==> (Passes(m, frozen, shapes, t, m.io[i], alloc(m.io[i].name))
                  && Reaches(m, frozen, shapes, u, i + 1, |m.io|, alloc))
  {
    forall k | i < k < |m.io|
      ensures Passes(m, frozen, shapes, u, m.io[k], alloc(m.io[k].name))
              <==> Passes(m, frozen, shapes, t, m.io[k], alloc(m.io[k].name))
    {
      LooksAtOne(m, frozen, shapes, t, u, m.io[k], alloc(m.io[k].name));
    }
    hide Passes;
  }

  /** A refresh gives the context the new address of an output that grew, and leaves every other address. */
  lemma {:induction false} RefreshRebinds(m: Model, frozen: bool, shapes: map<string, Dims>, tensors: Tensors,
                                          addresses: map<string, Ptr>, i: nat, alloc: string -> Allocation,
                                          name: string)
    requires WellFormed(m) && AllSound(tensors) && AllGot(alloc) && name in tensors
    requires UpdateOutputShapes(m, frozen, shapes, tensors, addresses, i, alloc).ok
    ensures var r := UpdateOutputShapes(m, frozen, shapes, tensors, addresses, i, alloc);
            if r.tensors[name].capacity > tensors[name].capacity
            then name in r.addresses && r.addresses[name] == r.tensors[name].mem.Address()
            else (name in r.addresses <==> name in addresses)
                 && (name in addresses ==> r.addresses[name] == addresses[name])
    decreases |m.io| - i
  {
    hide UpdateOutput, Sound;
    if i < |m.io| {
      var b := m.io[i];
      var r := UpdateOutput(m, frozen, shapes, b, tensors, addresses, alloc(b.name));
      UpdateTouchesOne(m, frozen, shapes, b, tensors, addresses, alloc(b.name));
      UpdateOutputGrows(m, frozen, shapes, b, tensors, addresses, alloc(b.name));
      UpdateRebinds(m, frozen, shapes, b, tensors, addresses, alloc(b.name), name);
      RefreshRebinds(m, frozen, shapes, r.tensors, r.addresses, i + 1, alloc, name);
      UpdateKeepsOthers(m, frozen, shapes, r.tensors, r.addresses, i + 1, alloc);
      if b.name == name { assert Absent(m, i + 1, name, true); }
    }
  }

  lemma UpdateRebinds(m: Model, frozen: bool, shapes: map<string, Dims>, b: Binding, tensors: Tensors,
                      addresses: map<string, Ptr>, a: Allocation, name: string)
    requires AllSound(tensors) && a.Got? && name in tensors
    requires UpdateOutput(m, frozen, shapes, b, tensors, addresses, a).ok
    ensures var r := UpdateOutput(m, frozen, shapes, b, tensors, addresses, a);
            if r.tensors[name].capacity > tensors[name].capacity
            then name in r.addresses && r.addresses[name] == r.tensors[name].mem.Address()
            else (name in r.addresses <==> name in addresses)
                 && (name in addresses ==> r.addresses[name] == addresses[name])
  {
    var q := ContextShape(m, shapes, b.name);
    if b.name in tensors && q.Some? && AllPositive(q.value) {
      var t := tensors[b.name];
      ReshapeIff(t, q.value);
      if Product(q.value) * t.elementSize > t.capacity { GrowthIff(t, q.value, a); }
    }
    hide TensorState.ResizeBytes, TensorState.Reshape, Product, ContextShape, AllPositive, Sound, MemState.Address;
  }

  /** Some output of this name must be given more memory. */
  ghost predicate MustGrow(m: Model, s: State, name: string) {
    exists j :: 0 <= j < |m.io| && m.io[j].name == name && Outgrown(m, false, s.ctx.shapes, s.tensors, m.io[j])
  }

  /** The address an inference will use for a binding once the outputs are refreshed. */
  ghost function AddressAfter(m: Model, s: State, alloc: string -> Allocation, name: string): Ptr
    requires name in s.tensors && AllGot(alloc)
  {
    if name in s.user then s.user[name]
    else if MustGrow(m, s, name) then alloc(name).ptr
    else AddressFor(s.user, name, s.tensors[name])
  }

  /** Every output passes the refresh, and every address the inference will use is accepted. */
  ghost predicate FreezePasses(m: Model, s: State, alloc: string -> Allocation)
    requires AllGot(alloc)
  {
    && Reaches(m, false, s.ctx.shapes, s.tensors, 0, |m.io|, alloc)
    && forall name | name in s.tensors :: m.acceptsAddress(name, AddressAfter(m, s, alloc, name))
  }

  /** Every output has room for the shape the context has for it, and its size, and its dimensions unless it grew; every
      address is the one an inference should use; nothing else has changed but the mode. */
  ghost predicate FrozenWell(m: Model, s: State, r: State) {
    && r.mode == s.mode.(frozen := true) && r.cache.graph == NoGraph && r.user == s.user && r.events == s.events
    && r.log == s.log && r.ctx.shapes == s.ctx.shapes && r.tensors.Keys == s.tensors.Keys
    && (forall j | 0 <= j < |m.io| && !m.io[j].isInput ::
          Fits(m, s.ctx.shapes, r.tensors, m.io[j]) && Follows(m, s.ctx.shapes, m.io[j], s.tensors, r.tensors))
    && (forall j | 0 <= j < |m.io| && m.io[j].isInput && m.io[j].name in s.tensors ::
          r.tensors[m.io[j].name] == s.tensors[m.io[j].name])
    && forall name | name in s.tensors ::
         name in r.ctx.addresses && r.ctx.addresses[name] == AddressFor(s.user, name, r.tensors[name])
  }

  ghost predicate Freezes(m: Model, s: State, alloc: string -> Allocation, r: Out)
    requires AllGot(alloc)
  {
    if !s.mode.loaded || !s.mode.persistent then r == Out(s, false)
    else if s.mode.frozen then r == Out(s, true)
    else
      && (r.ok <==> FreezePasses(m, s, alloc))
      && (r.ok ==> FrozenWell(m, s, r.s))
      && (!r.ok ==> !r.s.mode.frozen)
  }

  /** What FreezeIO promises in a state with the invariant whose sizes agree, when allocations succeed. */
  ghost predicate FreezePromise(m: Model, s: State, alloc: string -> Allocation, r: Out) {
    WellFormed(m) && EngineInvariants.Inv(m, s) && AllSound(s.tensors) && AllGot(alloc) ==> Freezes(m, s, alloc, r)
  }

  /** The address after the refresh is the one foreseen. */
  lemma AddressForeseen(m: Model, s: State, alloc: string -> Allocation, name: string)
    requires WellFormed(m) && AllSound(s.tensors) && AllGot(alloc) && name in s.tensors
    requires Reaches(m, false, s.ctx.shapes, s.tensors, 0, |m.io|, alloc)
    ensures var u := UpdateOutputShapes(m, false, s.ctx.shapes, s.tensors, s.ctx.addresses, 0, alloc).tensors;
            AddressFor(s.user, name, u[name]) == AddressAfter(m, s, alloc, name)
  {
    hide UpdateOutputShapes, Passes, Outgrown, Sound;
    var u := UpdateOutputShapes(m, false, s.ctx.shapes, s.tensors, s.ctx.addresses, 0, alloc).tensors;
    EngineDelivery.RefreshMoves(m, false, s.ctx.shapes, s.tensors, s.ctx.addresses, 0, alloc, name);
    UpdateGrows(m, false, s.ctx.shapes, s.tensors, s.ctx.addresses, 0, alloc);
    if j :| 0 <= j < |m.io| && m.io[j].name == name {
      RefreshGrowsIff(m, false, s.ctx.shapes, s.tensors, s.ctx.addresses, 0, alloc, j);
      assert Reaches(m, false, s.ctx.shapes, s.tensors, 0, j, alloc);
    } else {
      UpdateKeepsOthers(m, false, s.ctx.shapes, s.tensors, s.ctx.addresses, 0, alloc);
      assert Absent(m, 0, name, true);
    }
  }

  /** The refresh in a freeze, or before a read. */
  lemma RefreshedWell(m: Model, s: State, frozen: bool, alloc: string -> Allocation)
    requires WellFormed(m) && AllSound(s.tensors) && AllGot(alloc)
    ensures var u := UpdateOutputShapes(m, frozen, s.ctx.shapes, s.tensors, s.ctx.addresses, 0, alloc);
            && (u.ok <==> Reaches(m, frozen, s.ctx.shapes, s.tensors, 0, |m.io|, alloc))
            && (u.ok ==> forall j | 0 <= j < |m.io| && !m.io[j].isInput ::
                  Fits(m, s.ctx.shapes, u.tensors, m.io[j])
                  && Follows(m, s.ctx.shapes, m.io[j], s.tensors, u.tensors))
            && (forall j | 0 <= j < |m.io| && m.io[j].isInput && m.io[j].name in s.tensors ::
                  u.tensors[m.io[j].name] == s.tensors[m.io[j].name])
  {
    hide UpdateOutputShapes, Passes, Fits, Follows, Sound;
    var u := UpdateOutputShapes(m, frozen, s.ctx.shapes, s.tensors, s.ctx.addresses, 0, alloc);
    RefreshSucceedsIff(m, frozen, s.ctx.shapes, s.tensors, s.ctx.addresses, 0, alloc);
    if u.ok {
      EngineBuffers.RefreshFits(m, s, frozen, alloc);
      forall j | 0 <= j < |m.io| && !m.io[j].isInput ensures Follows(m, s.ctx.shapes, m.io[j], s.tensors, u.tensors) {
        RefreshedOutputsFollow(m, frozen, s.ctx.shapes, s.tensors, s.ctx.addresses, 0, alloc, j);
      }
    }
    UpdateKeepsOthers(m, frozen, s.ctx.shapes, s.tensors, s.ctx.addresses, 0, alloc);
    forall j | 0 <= j < |m.io| && m.io[j].isInput ensures Absent(m, 0, m.io[j].name, true) { InputIsAbsent(m, j); }
    hide Absent;
  }

  lemma FreezeBinds(m: Model, s: State, alloc: string -> Allocation)
    requires WellFormed(m) && EngineInvariants.Inv(m, s) && AllSound(s.tensors) && AllGot(alloc)
    requires UpdateOutputShapes(m, false, s.ctx.shapes, s.tensors, s.ctx.addresses, 0, alloc).ok
    ensures var u := UpdateOutputShapes(m, false, s.ctx.shapes, s.tensors, s.ctx.addresses, 0, alloc);
            var b := BindIOAddresses(m, u.tensors, s.user, u.addresses, 0);
            && (b.ok <==> forall name | name in s.tensors :: m.acceptsAddress(name, AddressAfter(m, s, alloc, name)))
            && (b.ok ==> forall name | name in s.tensors ::
                  name in b.addresses && b.addresses[name] == AddressFor(s.user, name, u.tensors[name]))
  {
    hide UpdateOutputShapes, BindIOAddresses, AddressFor, AddressAfter, Reaches, Sound,
         EngineInvariants.HandlesConserved, EngineInvariants.GraphIsCurrent, EngineInvariants.AddressesResolved;
    var u := UpdateOutputShapes(m, false, s.ctx.shapes, s.tensors, s.ctx.addresses, 0, alloc);
    RefreshedWell(m, s, false, alloc);
    BindsExactly(m, u.tensors, s.user, u.addresses, 0);
    assert m.order[0..] == m.order;
    forall name | name in s.tensors
      ensures AddressFor(s.user, name, u.tensors[name]) == AddressAfter(m, s, alloc, name)
    {
      AddressForeseen(m, s, alloc, name);
    }
  }

  lemma FreezeCallPromises(m: Model, s: State, alloc: string -> Allocation)
    ensures FreezePromise(m, s, alloc, FreezeIO(m, s, alloc))
  {
    if WellFormed(m) && EngineInvariants.Inv(m, s) && AllSound(s.tensors) && AllGot(alloc) && !s.mode.frozen {
      var u := UpdateOutputShapes(m, false, s.ctx.shapes, s.tensors, s.ctx.addresses, 0, alloc);
      RefreshedWell(m, s, false, alloc);
      if u.ok { FreezeBinds(m, s, alloc); }
      EngineInvariants.ResetIsEmpty(s.cache);
      hide UpdateOutputShapes, BindIOAddresses, ResetCudaGraph, AddressFor, AddressAfter, Reaches, Sound, Fits, Follows,
           EngineInvariants.Inv;
    }
  }

  /** After any calls: once a freeze succeeds, no later inference goes past the end of an output, until a shape is
      changed. */
  lemma FrozenNeverOverruns(m: Model, config: Config, alloc: string -> Allocation, before: seq<Call>,
                            more: string -> Allocation, later: seq<Call>, env: InferEnv, b: Binding)
    returns (waits: Program, launch: Op, records: Program)
    requires WellFormed(m) && Supported(m) && AllGot(alloc) && AllGot(more) && b in m.io && !b.isInput
    requires forall i | 0 <= i < |before| :: AllocatesOk(before[i])
    requires forall i | 0 <= i < |later| :: AllocatesOk(later[i]) && !later[i].BindShape? && !later[i].SwitchProfile?
    requires var s := Run(m, Construct(m, config, alloc), before); !s.mode.frozen && FreezeIO(m, s, more).ok
    requires InferAsync(m, Run(m, Construct(m, config, alloc), before + [Freeze(more)] + later), env).ok
    requires b.name !in Run(m, Construct(m, config, alloc), before + [Freeze(more)] + later).user
    ensures var s := Run(m, Construct(m, config, alloc), before + [Freeze(more)] + later);
            && InferAsync(m, s, env).s.log == s.log + waits + [Item(ExecStream(s.mode), launch)] + records
            && !EngineBuffers.Overruns(m, s, launch, b)
  {
    hide Construct, Run, FreezeIO, InferAsync, EngineBuffers.Overruns, Equipped, Sound, Fits, AllocatesOk, Supported,
         EngineInvariants.Inv;
    var start, calls := Construct(m, config, alloc), before + [Freeze(more)] + later;
    var s := Run(m, start, before);
    RunIsEquipped(m, config, alloc, before);
    EquippedIsSound(m, s.tensors, Normalised(config).maxProfile);
    EngineInvariants.ConstructEstablishes(m, config, alloc);
    EngineInvariants.RunKeeps(m, start, before);
    FreezeFits(m, s, more, b);
    FreezeAllocates(more);
    assert calls[..|before|] == before && calls[|before|] == Freeze(more) && calls[|before| + 1..] == later;
    EngineSettings.RunAfter(m, start, calls, |before|);
    StepGrows(m, s, Freeze(more));
    EngineBuffers.RunKeepsFitting(m, FreezeIO(m, s, more).s, later, b);
    waits, launch, records := EngineBuffers.LaunchOverrunsIff(m, config, alloc, calls, env, b);
  }

  lemma FreezeAllocates(more: string -> Allocation)
    requires AllGot(more)
    ensures AllocatesOk(Freeze(more))
  {
  }

  lemma FreezeFits(m: Model, s: State, alloc: string -> Allocation, b: Binding)
    requires WellFormed(m) && EngineInvariants.Inv(m, s) && AllSound(s.tensors) && AllGot(alloc)
    requires b in m.io && !b.isInput && !s.mode.frozen && FreezeIO(m, s, alloc).ok
    ensures var r := FreezeIO(m, s, alloc).s; AllSound(r.tensors) && Fits(m, r.ctx.shapes, r.tensors, b)
  {
    FreezeCallPromises(m, s, alloc);
    StepGrows(m, s, Freeze(alloc)) by { FreezeAllocates(alloc); }
    assert s.mode.loaded && s.mode.persistent by { hide UpdateOutputShapes, BindIOAddresses, ResetCudaGraph; }
    hide FreezeIO, Fits, Follows, Sound, FreezePasses, EngineInvariants.Inv;
    var j :| 0 <= j < |m.io| && m.io[j] == b;
  }

  // ── Reading and writing ──────────────────────────────────────────────

  /** A read that gets to its refresh leaves the outputs refreshed, whether or not it succeeds: as a freeze would leave
      them if nothing stops it, and on a frozen engine without dynamic axes as they were. Nothing else changes. */
  lemma ReadRefreshes(m: Model, s: State, name: string, dst: nat, size: nat, env: GetEnv)
    requires WellFormed(m) && AllSound(s.tensors) && AllGot(env.alloc)
    requires s.mode.loaded && name in s.tensors && !s.tensors[name].isInput
    ensures var r := GetOutputData(m, s, name, dst, size, env).s;
            && r == s.(tensors := r.tensors, ctx := Context(s.ctx.shapes, r.ctx.addresses), log := r.log)
            && r.tensors.Keys == s.tensors.Keys
            && (s.mode.frozen && !HasDynamicAxis(m) ==> r.tensors == s.tensors && r.ctx == s.ctx)
            && ((s.mode.frozen ==> HasDynamicAxis(m))
                && Reaches(m, s.mode.frozen, s.ctx.shapes, s.tensors, 0, |m.io|, env.alloc) ==>
                  && (forall j | 0 <= j < |m.io| && !m.io[j].isInput ::
                        Fits(m, s.ctx.shapes, r.tensors, m.io[j])
                        && Follows(m, s.ctx.shapes, m.io[j], s.tensors, r.tensors))
                  && forall other | other in s.tensors && r.tensors[other].capacity > s.tensors[other].capacity ::
                       other in r.ctx.addresses && r.ctx.addresses[other] == r.tensors[other].mem.Address())
  {
    hide UpdateOutputShapes, Fits, Follows, Passes, Reaches, HasDynamic, HasDynamicAxis, Sound, CopyOut,
         MemState.Address;
    DynamicIff(m);
    RefreshedWell(m, s, s.mode.frozen, env.alloc);
    var u := UpdateOutputShapes(m, s.mode.frozen, s.ctx.shapes, s.tensors, s.ctx.addresses, 0, env.alloc);
    if u.ok {
      forall other | other in s.tensors && u.tensors[other].capacity > s.tensors[other].capacity
        ensures other in u.addresses && u.addresses[other] == u.tensors[other].mem.Address()
      {
        RefreshRebinds(m, s.mode.frozen, s.ctx.shapes, s.tensors, s.ctx.addresses, 0, env.alloc, other);
      }
    }
    ReadTakesRefresh(m, s, name, dst, size, env);
    hide GetOutputData;
    assert s.ctx.(addresses := s.ctx.addresses) == s.ctx;
  }

  lemma ReadTakesRefresh(m: Model, s: State, name: string, dst: nat, size: nat, env: GetEnv)
    requires s.mode.loaded && name in s.tensors && !s.tensors[name].isInput
    ensures var r, u := GetOutputData(m, s, name, dst, size, env).s, RefreshForRead(m, s, env.alloc);
            r == s.(tensors := u.tensors, ctx := s.ctx.(addresses := u.addresses), log := r.log)
  {
    hide RefreshForRead, CopyOut;
  }

  /** Data is taken for an input of a positive shape and of that shape's size, when the tensor has the room or may still
      be given it, and the copy and the event work. */
  lemma InputTakenIff(m: Model, s: State, name: string, data: Bytes, dims: Dims, env: SetEnv)
    requires AllSound(s.tensors) && env.alloc.Got?
    ensures SetInputData(m, s, name, data, dims, env).ok
            <==> name in s.tensors && s.tensors[name].isInput && Positive(dims)
                 && |data| == Product(dims) * TypeBytes(s.tensors[name].dtype)
                 && (|data| <= s.tensors[name].capacity || (!s.mode.frozen && m.acceptsAddress(name, env.alloc.ptr)))
                 && (s.tensors[name].mem.kind == Device ==> env.copyOk) && env.recordOk
  {
    SetInputSucceedsIff(m, s, name, data, dims, env);
    if name in s.tensors { assert Sound(s.tensors[name]); }
    hide SetInputData, Product, TensorState.Agrees;
  }

  // ── Settings ─────────────────────────────────────────────────────────

  /** Some axis of some binding is dynamic. */
  ghost predicate HasDynamicAxis(m: Model) {
    exists i, j :: 0 <= i < |m.io| && 0 <= j < |m.io[i].shape| && m.io[i].shape[j] < 0
  }

  /** A shape is accepted on a loaded engine that is not frozen or has a dynamic axis, if its axes are positive and
      TensorRT accepts it; then it is the context's, and a frozen engine holds no graph. */
  lemma BindShapeIff(m: Model, s: State, name: string, dims: Dims)
    ensures var r := SetBindingShape(m, s, name, dims);
            && (r.ok <==> s.mode.loaded && (s.mode.frozen ==> HasDynamicAxis(m))
                          && (forall i | 0 <= i < |dims| :: dims[i] > 0) && m.acceptsShape(name, dims))
            && (r.ok ==> r.s == s.(ctx := Context(s.ctx.shapes[name := dims], s.ctx.addresses), cache := r.s.cache)
                         && (s.mode.frozen ==> r.s.cache.graph == NoGraph) && (!s.mode.frozen ==> r.s.cache == s.cache))
            && (!r.ok ==> r.s == s)
  {
    assert HasDynamic(m) <==> HasDynamicAxis(m) by { DynamicIff(m); }
    EngineInvariants.ResetIsEmpty(s.cache);
    hide HasDynamic, HasDynamicAxis, ResetCudaGraph;
  }

  lemma DynamicIff(m: Model)
    ensures HasDynamic(m) <==> HasDynamicAxis(m)
  {
    if HasDynamic(m) {
      var i :| 0 <= i < |m.io| && IsDynamic(m.io[i]);
      var j :| 0 <= j < |m.io[i].shape| && m.io[i].shape[j] < 0;
    }
    if HasDynamicAxis(m) {
      var i, j :| 0 <= i < |m.io| && 0 <= j < |m.io[i].shape| && m.io[i].shape[j] < 0;
      assert IsDynamic(m.io[i]);
    }
  }

  /** An address is accepted until the engine is frozen, if TensorRT accepts it; it is the user's from then on. */
  lemma BindAddressIff(m: Model, s: State, name: string, p: Ptr)
    ensures var r := SetBindingAddress(m, s, name, p);
            && (r.ok <==> s.mode.loaded && !s.mode.frozen && m.acceptsAddress(name, p))
            && (r.ok ==> r.s == s.(user := s.user[name := p], cache := r.s.cache,
                                   ctx := Context(s.ctx.shapes, s.ctx.addresses[name := p]))
                         && r.s.cache.graph == NoGraph)
            && (!r.ok ==> r.s == s)
  {
    EngineInvariants.ResetIsEmpty(s.cache);
    hide ResetCudaGraph;
  }

  /** A profile switch is taken until the engine is frozen, and replaces the context's shapes; no graph survives it, a
      failed one either. */
  lemma SwitchProfileIff(s: State, accepted: Option<map<string, Dims>>)
    ensures var r := SetOptimizationProfile(s, accepted);
            && (r.ok <==> s.mode.loaded && !s.mode.frozen && accepted.Some?)
            && (r.ok ==> r.s.ctx == Context(accepted.value, s.ctx.addresses))
            && (s.mode.loaded && !s.mode.frozen ==> r.s.cache.graph == NoGraph)
            && r.s == s.(ctx := r.s.ctx, cache := r.s.cache) && (!r.ok ==> r.s.ctx == s.ctx)
  {
    EngineInvariants.ResetIsEmpty(s.cache);
    hide ResetCudaGraph;
  }

  lemma UseStreamIff(s: State, stream: nat)
    ensures var r := SetStream(s, stream);
            && (r.ok <==> stream != 0)
            && (r.ok ==> r.s == s.(mode := s.mode.(external := stream), cache := r.s.cache)
                         && ExecStream(r.s.mode) == Stream(stream) && r.s.cache.graph == NoGraph)
            && (!r.ok ==> r.s == s)
  {
    EngineInvariants.ResetIsEmpty(s.cache);
    hide ResetCudaGraph;
  }

  lemma LaunchCaptures(m: Model, s: State, env: InferEnv)
    requires EngineInvariants.Inv(m, s) && s.mode.loaded && s.mode.frozen && s.mode.enabled
    requires CaptureWorks(env.capture)
    ensures var c := LaunchInference(m, s.mode, s.ctx, s.tensors, s.cache, env).cache;
            if HoldsGraph(m, s) then c == s.cache else NewGraph(m, s, s.(cache := c))
  {
    HoldsIff(m, s);
    CaptureOnExactly(m, s, env.capture);
    hide CaptureOn, Snapshot, CudaGraphShapesMatch, HoldsGraph, EngineInvariants.HandlesConserved;
  }

  /** A frozen engine with graphs captures one at the next inference, unless one is held. */
  lemma EnabledCaptures(m: Model, s: State, env: InferEnv)
    requires EngineInvariants.Inv(m, s) && WaitsPass(m, s, env.waitOk)
    requires s.mode.loaded && s.mode.frozen && s.mode.enabled && CaptureWorks(env.capture)
    ensures var r := InferAsync(m, s, env).s;
            && HoldsGraph(m, r)
            && r.cache.ledger.execs == s.cache.ledger.execs + if HoldsGraph(m, s) then 0 else 1
  {
    WaitsExactly(m, s.tensors, s.events.inputs, ExecStream(s.mode), 0, env.waitOk);
    assert m.order[0..] == m.order;
    LaunchCaptures(m, s, env);
    hide WaitInputs, RecordOutputs, LaunchInference, AwaitsInput, EngineInvariants.Inv;
    assert s.ctx.(addresses := s.ctx.addresses) == s.ctx;
    var r := InferAsync(m, s, env).s;
    assert r.tensors == s.tensors && r.ctx == s.ctx
           && r.cache == LaunchInference(m, s.mode, s.ctx, s.tensors, s.cache, env).cache;
  }

  /** Without graphs an inference touches none. */
  lemma DisabledEnqueues(m: Model, s: State, env: InferEnv)
    requires !s.mode.enabled
    ensures InferAsync(m, s, env).s.cache == s.cache
  {
    hide WaitInputs, RecordOutputs, BindIOAddresses;
  }

  /** Once graphs are enabled on a frozen engine, the next inference captures one unless one is held; once they are
      disabled, none is held and none captured until they are enabled again. */
  lemma EnablingDecides(m: Model, s: State, enable: bool, env: InferEnv)
    requires EngineInvariants.Inv(m, s) && WaitsPass(m, s, env.waitOk)
    requires s.mode.loaded && s.mode.frozen && CaptureWorks(env.capture)
    ensures var t := EnableCudaGraph(s, enable).s; var r := InferAsync(m, t, env).s;
            && t == s.(mode := s.mode.(enabled := enable), cache := t.cache)
            && (enable ==> t.cache == s.cache && HoldsGraph(m, r)
                           && r.cache.ledger.execs == s.cache.ledger.execs + if HoldsGraph(m, s) then 0 else 1)
            && (!enable ==> t.cache.graph == NoGraph && r.cache == t.cache)
  {
    var t := EnableCudaGraph(s, enable).s;
    EngineInvariants.ResetIsEmpty(s.cache);
    EngineInvariants.SwitchKeeps(m, s, EnableGraph(enable));
    assert t == s.(mode := s.mode.(enabled := enable), cache := t.cache);
    hide EnableCudaGraph, ResetCudaGraph, HoldsGraph;
    if enable { EnabledCaptures(m, t, env); } else { DisabledEnqueues(m, t, env); }
  }

  // ── The end and the beginning ────────────────────────────────────────

  /** After the destructor's clean-up no call does anything any more, but for the two that only set a flag. */
  lemma CleanedUp(m: Model, s: State, c: Call)
    ensures var r := Cleanup(s);
            && r.tensors == map[] && r.user == map[] && r.ctx == Context(map[], map[])
            && r.events.inputs == map[] && r.events.outputs == map[] && r.cache.graph == NoGraph && !r.mode.loaded
            && Step(m, r, c).s.log == r.log && (!c.UseStream? && !c.EnableGraph? ==> Step(m, r, c) == Out(r, false))
  {
    EngineInvariants.ResetIsEmpty(s.cache);
    hide ResetCudaGraph, HasDynamic, AllPositive, UpdateOutputShapes, WaitInputs, BindIOAddresses, MakeRoom;
  }

  /** The options count for persistent engines only; and a constructed engine is frozen exactly when it is persistent,
      asked to freeze, and what it has allocated passes the freeze. */
  lemma ConstructedMode(m: Model, config: Config, alloc: string -> Allocation)
    requires WellFormed(m) && Supported(m) && AllGot(alloc)
    ensures var s, s0 := Construct(m, config, alloc), Construct(m, config.(autoFreeze := false), alloc);
            && s.mode.loaded && s.mode.persistent == config.persistent
            && s.mode.enabled == (config.persistent && config.cudaGraph)
            && s.mode.external == 0 && s.user == map[] && s.events == Events(map[], map[], 0) && s.log == []
            && s.cache.graph == NoGraph
            && (s.mode.frozen <==> config.persistent && config.autoFreeze && FreezePasses(m, s0, alloc))
  {
    var s0 := Construct(m, config.(autoFreeze := false), alloc);
    EngineInvariants.ConstructEstablishes(m, config.(autoFreeze := false), alloc);
    RunIsEquipped(m, config.(autoFreeze := false), alloc, []);
    EquippedIsSound(m, s0.tensors, Normalised(config).maxProfile);
    FreezeCallPromises(m, s0, alloc);
    hide Allocate, FreezePasses, FrozenWell, UpdateOutputShapes, BindIOAddresses, ResetCudaGraph, Equipped, Sound,
         EngineInvariants.Inv;
    assert !s0.mode.frozen && s0.mode.loaded && s0.mode.persistent == config.persistent;
    FreezeKeepsRest(m, s0, alloc);
    hide FreezeIO;
    assert Construct(m, config, alloc)
           == if config.persistent && config.autoFreeze then FreezeIO(m, s0, alloc).s else s0;
  }

  lemma FreezeKeepsRest(m: Model, s: State, alloc: string -> Allocation)
    requires s.cache.graph == NoGraph
    ensures var r := FreezeIO(m, s, alloc).s;
            && r.user == s.user && r.events == s.events && r.log == s.log && r.cache.graph == NoGraph
            && r.mode == s.mode.(frozen := r.mode.frozen)
            && (FreezeIO(m, s, alloc).ok && s.mode.loaded && s.mode.persistent ==> r.mode.frozen)
  {
    EngineInvariants.ResetIsEmpty(s.cache);
    hide UpdateOutputShapes, BindIOAddresses, ResetCudaGraph;
  }

  ghost predicate Positive(d: Dims) {
    forall k | 0 <= k < |d| :: d[k] > 0
  }

  ghost function AtLeastOne(x: int): int {
    if x > 0 then x else 1
  }

  /** The axes of `d`, and one for each that is not positive; when it has fewer axes than the engine declares, they fill
      the engine's dynamic axes and the others stay. */
  ghost predicate Fills(engine: Dims, d: Dims, r: Dims) {
    if 0 < |d| < |engine| then
      |r| == |engine| && forall k | 0 <= k < |r| ::
        r[k] == AtLeastOne(if engine[k] < 0 && k < |d| then d[k] else engine[k])
    else |r| == |d| && forall k | 0 <= k < |r| :: r[k] == AtLeastOne(d[k])
  }

  ghost predicate HasProfile(b: Binding) {
    b.maxProfile.Some? && Positive(b.maxProfile.value)
  }

  ghost predicate Dynamic(b: Binding) {
    exists k :: 0 <= k < |b.shape| && b.shape[k] < 0
  }

  /** The shape a binding is allocated at: for an input its max profile, when asked for and all there, or else its own;
      for an output what is inferred, or else its max profile, or else its own. */
  ghost predicate AllocatedAt(m: Model, shapes: map<string, Dims>, b: Binding, max: bool, r: Dims) {
    if b.isInput then
      if Dynamic(b) && max && HasProfile(b) && |b.maxProfile.value| == |b.shape| then r == b.maxProfile.value
      else Fills([], b.shape, r)
    else
      var q := if b.name in shapes then Some(shapes[b.name]) else m.inferShape(shapes, b.name);
      if q.Some? && Positive(q.value) then Fills(b.shape, q.value, r)
      else if max && HasProfile(b) then Fills(b.shape, b.maxProfile.value, r)
      else Fills(b.shape, b.shape, r)
  }

  lemma MergeFills(engine: Dims, d: Dims)
    ensures Fills(engine, d, Concrete(Merge(engine, d)))
  {
  }

  lemma ConcreteFills(d: Dims)
    ensures Fills([], d, Concrete(d))
  {
  }

  lemma AllocatesAt(m: Model, shapes: map<string, Dims>, b: Binding, max: bool)
    ensures AllocatedAt(m, shapes, b, max, EngineBuffers.ShapeAtAllocation(m, shapes, b, max))
  {
    hide Concrete, Merge, Fills;
    ConcreteFills(b.shape);
    if b.maxProfile.Some? { MergeFills(b.shape, b.maxProfile.value); }
    MergeFills(b.shape, b.shape);
    var q := ContextShape(m, shapes, b.name);
    if q.Some? { MergeFills(b.shape, q.value); }
  }

  /** Bytes of one element. */
  ghost function TypeBytes(t: DataType): nat {
    match t
    case Float => 4
    case Half => 2
    case BFloat16 => 2
    case Int8 => 1
    case Int32 => 4
    case Int64 => 8
    case Bool => 1
    case Unsupported => 0
  }

  /** A tensor with the room of its shape, in the memory it was given. */
  ghost predicate Holds(b: Binding, t: TensorState, a: Allocation) {
    && t.dtype == b.dtype && t.isInput == b.isInput && t.elementSize == TypeBytes(b.dtype)
    && t.byteSize == t.capacity == Product(t.dims) * TypeBytes(b.dtype) && a.Got?
    && (if b.hostLocated then t.mem.kind == Pinned && t.mem.host == a.ptr
        else t.mem.kind == Device && t.mem.device == a.ptr)
  }

  lemma NewTensorHolds(b: Binding, d: Dims, a: Allocation)
    requires AllPositive(d) && a.Got? && ElementSize(b.dtype) > 0
    ensures var t := NewTensor(b, d, a); t.dims == d && Holds(b, t, a)
  {
    EngineBuffers.NewTensorTakes(b, d, a);
    NewTensorIsSound(b, d, a);
    hide Product;
  }

  /** An engine constructed without being frozen has every binding's tensor at its shape, in the memory the allocator
      gave, with its address in the context where TensorRT accepts it. */
  lemma ConstructedTensor(m: Model, config: Config, alloc: string -> Allocation, j: nat)
    requires WellFormed(m) && Supported(m) && AllGot(alloc) && j < |m.io|
    ensures var b, s := m.io[j], Construct(m, config.(autoFreeze := false), alloc);
            && b.name in s.tensors && Holds(b, s.tensors[b.name], alloc(b.name))
            && AllocatedAt(m, s.ctx.shapes, b, config.persistent && config.maxProfile, s.tensors[b.name].dims)
            && (m.acceptsAddress(b.name, alloc(b.name).ptr) ==>
                  b.name in s.ctx.addresses && s.ctx.addresses[b.name] == alloc(b.name).ptr)
  {
    hide Allocate, FreezeIO, NewTensor, AllocatedAt, Holds, AllPositive, OutputShape, InputShape;
    var b, max := m.io[j], config.persistent && config.maxProfile;
    var a := Allocate(m, max, alloc);
    var s := Construct(m, config.(autoFreeze := false), alloc);
    assert s.tensors == a.tensors && s.ctx == a.ctx;
    hide Construct;
    var d := EngineBuffers.ShapeAtAllocation(m, a.ctx.shapes, b, max);
    EngineBuffers.EverythingAllocated(m, max, alloc, j);
    AllocatesAt(m, a.ctx.shapes, b, max);
    ShapesArePositive(m, a.ctx.shapes, b, max);
    NewTensorHolds(b, d, alloc(b.name));
    if m.acceptsAddress(b.name, alloc(b.name).ptr) { AllocatedBound(m, max, alloc, j); }
  }

  lemma AllocatedBound(m: Model, max: bool, alloc: string -> Allocation, j: nat)
    requires WellFormed(m) && Supported(m) && AllGot(alloc) && j < |m.io|
    requires m.acceptsAddress(m.io[j].name, alloc(m.io[j].name).ptr)
    ensures var a := Allocate(m, max, alloc).ctx.addresses;
            m.io[j].name in a && a[m.io[j].name] == alloc(m.io[j].name).ptr
  {
    var empty := Allocated(map[], Context(map[], map[]));
    var s := AllocateInputs(m, empty, 0, max, alloc);
    if m.io[j].isInput { InputsBound(m, empty, 0, max, alloc, j); }
    OutputsBound(m, s, 0, max, alloc, j);
    hide AllocateInputs, AllocateOutputs;
  }

  ghost predicate BoundTo(addresses: map<string, Ptr>, name: string, p: Ptr) {
    name in addresses && addresses[name] == p
  }

  lemma AddBinds(m: Model, s: Allocated, b: Binding, d: Dims, a: Allocation)
    requires AllPositive(d) && a.Got? && ElementSize(b.dtype) > 0
    ensures var r := AddTensor(m, s, b, d, a).ctx;
            && r.shapes == s.ctx.shapes
            && (m.acceptsAddress(b.name, a.ptr) ==> BoundTo(r.addresses, b.name, a.ptr))
            && forall name, p | name != b.name && BoundTo(s.ctx.addresses, name, p) :: BoundTo(r.addresses, name, p)
  {
    NewTensorHolds(b, d, a);
    hide NewTensor, Product;
  }

  lemma NamesApart(m: Model, i: nat, j: nat)
    requires WellFormed(m) && Supported(m) && i < |m.io| && j < |m.io|
    ensures i != j ==> m.io[i].name != m.io[j].name
    ensures ElementSize(m.io[i].dtype) > 0
  {
  }

  lemma AddInputBinds(m: Model, s: Allocated, b: Binding, max: bool, a: Allocation)
    requires a.Got? && ElementSize(b.dtype) > 0
    ensures var r := AllocateInput(m, s, b, max, a).ctx.addresses;
            && (m.acceptsAddress(b.name, a.ptr) ==> BoundTo(r, b.name, a.ptr))
            && forall name, p | name != b.name && BoundTo(s.ctx.addresses, name, p) :: BoundTo(r, name, p)
  {
    ShapesArePositive(m, s.ctx.shapes, b, max);
    AddBinds(m, s, b, InputShape(b, max), a);
    hide AddTensor, InputShape, IsDynamic, BoundTo;
  }

  lemma {:induction false} InputsBound(m: Model, s: Allocated, i: nat, max: bool, alloc: string -> Allocation, j: nat)
    requires WellFormed(m) && Supported(m) && AllGot(alloc) && j < |m.io|
    requires m.acceptsAddress(m.io[j].name, alloc(m.io[j].name).ptr)
    requires (i <= j && m.io[j].isInput) || BoundTo(s.ctx.addresses, m.io[j].name, alloc(m.io[j].name).ptr)
    ensures BoundTo(AllocateInputs(m, s, i, max, alloc).ctx.addresses, m.io[j].name, alloc(m.io[j].name).ptr)
    decreases |m.io| - i
  {
    hide AllocateInput, WellFormed, Supported, BoundTo;
    if i < |m.io| {
      var b := m.io[i];
      NamesApart(m, i, j);
      AddInputBinds(m, s, b, max, alloc(b.name));
      InputsBound(m, if b.isInput then AllocateInput(m, s, b, max, alloc(b.name)) else s, i + 1, max, alloc, j);
    }
  }

  lemma {:induction false} OutputsBound(m: Model, s: Allocated, i: nat, max: bool, alloc: string -> Allocation, j: nat)
    requires WellFormed(m) && Supported(m) && AllGot(alloc) && j < |m.io|
    requires m.acceptsAddress(m.io[j].name, alloc(m.io[j].name).ptr)
    requires (i <= j && !m.io[j].isInput) || BoundTo(s.ctx.addresses, m.io[j].name, alloc(m.io[j].name).ptr)
    ensures BoundTo(AllocateOutputs(m, s, i, max, alloc).ctx.addresses, m.io[j].name, alloc(m.io[j].name).ptr)
    decreases |m.io| - i
  {
    hide AddTensor, OutputShape, InputShape, WellFormed, Supported, BoundTo, AllPositive;
    if i < |m.io| {
      var b := m.io[i];
      var d := OutputShape(m, s.ctx.shapes, b, max);
      NamesApart(m, i, j);
      ShapesArePositive(m, s.ctx.shapes, b, max);
      AddBinds(m, s, b, d, alloc(b.name));
      OutputsBound(m, if b.isInput then s else AddTensor(m, s, b, d, alloc(b.name)), i + 1, max, alloc, j);
    }
  }
}
