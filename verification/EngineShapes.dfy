/** Tensors take the shapes they are given: inputs those of their data, outputs those the context infers. */
module EngineShapes {
  import opened Streams
  import opened CudaMemory
  import opened TensorModel
  import opened EngineSpec
  import opened EngineCapacity

  // ── Inputs ───────────────────────────────────────────────────────────

  lemma ReshapeTakes(t: TensorState, d: Dims)
    requires AllPositive(d) && t.Reshape(d).1
    ensures var u := t.Reshape(d).0; u.dims == d && u.byteSize == Product(d) * t.elementSize && u.mem == t.mem
  {
    PositiveShape(d);
    hide Product, Elements;
  }

  lemma ResizeTakes(t: TensorState, d: Dims, a: Allocation)
    requires AllPositive(d) && t.elementSize == ElementSize(t.dtype) && t.Resize(d, t.dtype, a).1
    ensures var u := t.Resize(d, t.dtype, a).0; u.dims == d && u.byteSize == Product(d) * t.elementSize
  {
    PositiveShape(d);
    hide Product, Elements, MemState.Allocate;
  }

  /** After a successful SetInputData the input has the shape and size of its data and no other tensor has changed; when
      its memory moved, the context has the new address and no graph is left with the old one. */
  lemma InputTakesShape(m: Model, s: State, name: string, data: Bytes, dims: Dims, env: SetEnv)
    requires AllSound(s.tensors) && SetInputData(m, s, name, data, dims, env).ok
    ensures var r := SetInputData(m, s, name, data, dims, env).s;
            && name in s.tensors && r.tensors.Keys == s.tensors.Keys
            && r.tensors[name].dims == dims && r.tensors[name].byteSize == |data|
            && (forall other | other in s.tensors && other != name :: r.tensors[other] == s.tensors[other])
            && (s.tensors[name].Reshape(dims).1 ==>
                  r.tensors[name].mem == s.tensors[name].mem && r.ctx == s.ctx && r.cache == s.cache)
            && (!s.tensors[name].Reshape(dims).1 ==>
                  r.ctx == s.ctx.(addresses := s.ctx.addresses[name := r.tensors[name].mem.Address()])
                  && r.cache.graph == NoGraph)
  {
    var t := s.tensors[name];
    if t.Reshape(dims).1 { ReshapeTakes(t, dims); } else { ResizeTakes(t, dims, env.alloc); }
    hide TensorState.Reshape, TensorState.Resize, Product, AllPositive, CopyIn, MemState.Address;
    assert s.ctx.(addresses := s.ctx.addresses) == s.ctx;
  }

  // ── Outputs ──────────────────────────────────────────────────────────

  lemma UpdateTouchesOne(m: Model, frozen: bool, shapes: map<string, Dims>, b: Binding, tensors: Tensors,
                         addresses: map<string, Ptr>, a: Allocation)
    ensures forall name | name in tensors && (name != b.name || b.isInput) ::
              UpdateOutput(m, frozen, shapes, b, tensors, addresses, a).tensors[name] == tensors[name]
  {
    hide TensorState.ResizeBytes, TensorState.Reshape, Product, ContextShape, AllPositive;
  }

  lemma {:induction false} UpdateKeepsOthers(m: Model, frozen: bool, shapes: map<string, Dims>, tensors: Tensors,
                                             addresses: map<string, Ptr>, i: nat, alloc: string -> Allocation)
    ensures var r := UpdateOutputShapes(m, frozen, shapes, tensors, addresses, i, alloc);
            forall name | name in tensors && Absent(m, i, name, true) :: r.tensors[name] == tensors[name]
    decreases |m.io| - i
  {
    hide UpdateOutput;
    if i < |m.io| {
      var b := m.io[i];
      UpdateTouchesOne(m, frozen, shapes, b, tensors, addresses, alloc(b.name));
      var r := UpdateOutput(m, frozen, shapes, b, tensors, addresses, alloc(b.name));
      if r.ok { UpdateKeepsOthers(m, frozen, shapes, r.tensors, r.addresses, i + 1, alloc); }
    }
  }

  /** The output tensor of a binding is as large as the shape the context infers for it.  Its dimensions are that shape
      too, unless it had to grow: growing goes by bytes and leaves them as they were. */
  ghost predicate Follows(m: Model, shapes: map<string, Dims>, b: Binding, before: Tensors, after: Tensors) {
    var q := ContextShape(m, shapes, b.name);
    b.isInput || b.name !in before || (q.Some? && -1 in q.value)
    || (q.Some? && AllPositive(q.value) && b.name in after
        && var t, u, n := before[b.name], after[b.name], Product(q.value) * before[b.name].elementSize;
           u.byteSize == n && u.dims == if n > t.capacity then t.dims else q.value)
  }

  lemma UpdatedFollows(m: Model, frozen: bool, shapes: map<string, Dims>, b: Binding, tensors: Tensors,
                       addresses: map<string, Ptr>, a: Allocation)
    requires UpdateOutput(m, frozen, shapes, b, tensors, addresses, a).ok
    ensures Follows(m, shapes, b, tensors, UpdateOutput(m, frozen, shapes, b, tensors, addresses, a).tensors)
  {
    var q := ContextShape(m, shapes, b.name);
    if b.name in tensors && q.Some? && AllPositive(q.value) && tensors[b.name].Reshape(q.value).1 {
      ReshapeTakes(tensors[b.name], q.value);
    }
    hide TensorState.Reshape, Product, ContextShape, AllPositive, MemState.Allocate;
  }

  /** After a successful refresh every output follows the context. */
  lemma {:induction false} RefreshedOutputsFollow(m: Model, frozen: bool, shapes: map<string, Dims>, tensors: Tensors,
                                                  addresses: map<string, Ptr>, i: nat, alloc: string -> Allocation,
                                                  j: nat)
    requires WellFormed(m) && i <= j < |m.io| && UpdateOutputShapes(m, frozen, shapes, tensors, addresses, i, alloc).ok
    ensures Follows(m, shapes, m.io[j], tensors,
                    UpdateOutputShapes(m, frozen, shapes, tensors, addresses, i, alloc).tensors)
    decreases j - i
  {
    hide UpdateOutput;
    var b := m.io[i];
    var r := UpdateOutput(m, frozen, shapes, b, tensors, addresses, alloc(b.name));
    if i == j {
      UpdatedFollows(m, frozen, shapes, b, tensors, addresses, alloc(b.name));
      UpdateKeepsOthers(m, frozen, shapes, r.tensors, r.addresses, i + 1, alloc);
      assert Absent(m, i + 1, b.name, true);
    } else {
      RefreshedOutputsFollow(m, frozen, shapes, r.tensors, r.addresses, i + 1, alloc, j);
      UpdateTouchesOne(m, frozen, shapes, b, tensors, addresses, alloc(b.name));
      assert b.name != m.io[j].name;
    }
    hide Product, ContextShape, AllPositive;
  }

  /** A read that succeeds after a successful refresh returned the whole output, in the size the context infers for
      it. */
  lemma ReadHasContextSize(m: Model, s: State, j: nat, dst: nat, size: nat, env: GetEnv)
    requires WellFormed(m) && j < |m.io| && !m.io[j].isInput && (!s.mode.frozen || HasDynamic(m))
    requires RefreshForRead(m, s, env.alloc).ok && GetOutputData(m, s, m.io[j].name, dst, size, env).ok
    ensures var q, name := ContextShape(m, s.ctx.shapes, m.io[j].name), m.io[j].name;
            name in s.tensors && q.Some? && (-1 in q.value || size == Product(q.value) * s.tensors[name].elementSize)
  {
    RefreshedOutputsFollow(m, s.mode.frozen, s.ctx.shapes, s.tensors, s.ctx.addresses, 0, env.alloc, j);
    hide UpdateOutputShapes, Product, ContextShape, AllPositive, CopyOut;
  }

  // ── How far a refresh gets ───────────────────────────────────────────

  /** The tensor of a binding has room for the shape the context has for it, if that is concrete. */
  ghost predicate Fits(m: Model, shapes: map<string, Dims>, tensors: Tensors, b: Binding) {
    var q := ContextShape(m, shapes, b.name);
    b.name in tensors && q.Some? && AllPositive(q.value) ==>
      Product(q.value) * tensors[b.name].elementSize <= tensors[b.name].capacity
  }

  /** The tensor can be reshaped in place. */
  ghost predicate Takes(t: TensorState, d: Dims) {
    AllPositive(d) && t.elementSize > 0 && Product(d) * t.elementSize <= t.capacity
  }

  /** A refresh does not stop at this binding: it is an input, or its shape is known, and not concrete yet or finds
      room in the tensor, or else the tensor may grow. */
  ghost predicate Passes(m: Model, frozen: bool, shapes: map<string, Dims>, tensors: Tensors, b: Binding,
                         a: Allocation) {
    var q := ContextShape(m, shapes, b.name);
    b.isInput
    || (q.Some? && (-1 in q.value || b.name !in tensors || Takes(tensors[b.name], q.value)
                    || (AllPositive(q.value) && !frozen && !Fits(m, shapes, tensors, b)
                        && a.Got? && m.acceptsAddress(b.name, a.ptr))))
  }

  /** The shape inferred for this output is concrete, finds room, and is not the one the tensor has. */
  ghost predicate ChangesShape(m: Model, shapes: map<string, Dims>, tensors: Tensors, b: Binding) {
    var q := ContextShape(m, shapes, b.name);
    !b.isInput && b.name in tensors && q.Some? && Takes(tensors[b.name], q.value) && q.value != tensors[b.name].dims
  }

  lemma ReshapeIff(t: TensorState, d: Dims)
    requires AllPositive(d)
    ensures t.Reshape(d).1 <==> Takes(t, d)
    ensures t.Reshape(d).0.dims == if Takes(t, d) then d else t.dims
    ensures t.Reshape(d).0.capacity == t.capacity
  {
    PositiveShape(d);
    hide Product, Elements;
  }

  /** Growing by bytes a tensor too small for a shape. */
  lemma GrowthIff(t: TensorState, d: Dims, a: Allocation)
    requires Sound(t) && AllPositive(d) && Product(d) * t.elementSize > t.capacity
    ensures var (u, ok) := t.ResizeBytes(Product(d) * t.elementSize, a);
            (ok <==> a.Got?) && u.dims == t.dims && (ok ==> u.mem.Address() == a.ptr && u.capacity > t.capacity)
  {
    hide Product, AllPositive;
  }

  /** Exactly when the refresh of one binding succeeds. */
  lemma UpdateOutputOkIff(m: Model, frozen: bool, shapes: map<string, Dims>, b: Binding, tensors: Tensors,
                          addresses: map<string, Ptr>, a: Allocation)
    requires frozen || AllSound(tensors)
    ensures UpdateOutput(m, frozen, shapes, b, tensors, addresses, a).ok <==> Passes(m, frozen, shapes, tensors, b, a)
  {
    var q := ContextShape(m, shapes, b.name);
    if b.name in tensors && q.Some? && AllPositive(q.value) {
      var t := tensors[b.name];
      ReshapeIff(t, q.value);
      if !frozen && Product(q.value) * t.elementSize > t.capacity { GrowthIff(t, q.value, a); }
    }
    hide TensorState.ResizeBytes, TensorState.Reshape, Product, ContextShape, AllPositive, Sound;
  }

  /** Exactly when it gives an output other dimensions. */
  lemma UpdateOutputReshapesIff(m: Model, frozen: bool, shapes: map<string, Dims>, b: Binding, tensors: Tensors,
                                addresses: map<string, Ptr>, a: Allocation)
    requires (frozen || AllSound(tensors)) && b.name in tensors
    ensures var r := UpdateOutput(m, frozen, shapes, b, tensors, addresses, a).tensors;
            r[b.name].dims != tensors[b.name].dims <==> ChangesShape(m, shapes, tensors, b)
  {
    var q, t := ContextShape(m, shapes, b.name), tensors[b.name];
    if q.Some? && AllPositive(q.value) {
      ReshapeIff(t, q.value);
      if !frozen && Product(q.value) * t.elementSize > t.capacity { GrowthIff(t, q.value, a); }
    }
    hide TensorState.ResizeBytes, TensorState.Reshape, Product, ContextShape, AllPositive, Sound;
  }

  /** The output of a binding is one that a refresh must give more memory. */
  ghost predicate Outgrown(m: Model, frozen: bool, shapes: map<string, Dims>, tensors: Tensors, b: Binding) {
    !frozen && !b.isInput && !Fits(m, shapes, tensors, b)
  }

  lemma UpdateOutputGrowsIff(m: Model, frozen: bool, shapes: map<string, Dims>, b: Binding, tensors: Tensors,
                             addresses: map<string, Ptr>, a: Allocation)
    requires AllSound(tensors) && a.Got? && b.name in tensors
    ensures var r := UpdateOutput(m, frozen, shapes, b, tensors, addresses, a);
            r.tensors[b.name].capacity > tensors[b.name].capacity <==> Outgrown(m, frozen, shapes, tensors, b)
  {
    var q, t := ContextShape(m, shapes, b.name), tensors[b.name];
    if q.Some? && AllPositive(q.value) {
      ReshapeIff(t, q.value);
      if Product(q.value) * t.elementSize > t.capacity { GrowthIff(t, q.value, a); }
    }
    hide TensorState.ResizeBytes, TensorState.Reshape, Product, ContextShape, AllPositive, Sound;
  }

  /** A refresh that starts at binding i gets to binding j. */
  ghost predicate Reaches(m: Model, frozen: bool, shapes: map<string, Dims>, tensors: Tensors, i: nat, j: nat,
                          alloc: string -> Allocation) {
    forall k | i <= k < j && k < |m.io| :: Passes(m, frozen, shapes, tensors, m.io[k], alloc(m.io[k].name))
  }

  /** A binding's guards look at its own tensor only. */
  lemma LooksAtOne(m: Model, frozen: bool, shapes: map<string, Dims>, t: Tensors, u: Tensors, b: Binding,
                   a: Allocation)
    requires u.Keys == t.Keys && (b.name in t ==> u[b.name] == t[b.name])
    ensures Passes(m, frozen, shapes, u, b, a) <==> Passes(m, frozen, shapes, t, b, a)
    ensures ChangesShape(m, shapes, u, b) <==> ChangesShape(m, shapes, t, b)
    ensures Outgrown(m, frozen, shapes, u, b) <==> Outgrown(m, frozen, shapes, t, b)
  {
    hide Product, ContextShape;
  }

  lemma ReachesNext(m: Model, frozen: bool, shapes: map<string, Dims>, t: Tensors, u: Tensors, i: nat, j: nat,
                    alloc: string -> Allocation)
    requires WellFormed(m) && i < j < |m.io| && u.Keys == t.Keys
    requires forall name | name in t && name != m.io[i].name :: u[name] == t[name]
    ensures Reaches(m, frozen, shapes, t, i, j, alloc)
            <==> (Passes(m, frozen, shapes, t, m.io[i], alloc(m.io[i].name))
                  && Reaches(m, frozen, shapes, u, i + 1, j, alloc))
    ensures ChangesShape(m, shapes, u, m.io[j]) <==> ChangesShape(m, shapes, t, m.io[j])
    ensures Outgrown(m, frozen, shapes, u, m.io[j]) <==> Outgrown(m, frozen, shapes, t, m.io[j])
  {
    forall k | i < k <= j
      ensures Passes(m, frozen, shapes, u, m.io[k], alloc(m.io[k].name))
              <==> Passes(m, frozen, shapes, t, m.io[k], alloc(m.io[k].name))
    {
      LooksAtOne(m, frozen, shapes, t, u, m.io[k], alloc(m.io[k].name));
    }
    LooksAtOne(m, frozen, shapes, t, u, m.io[j], alloc(m.io[j].name));
    hide Passes, ChangesShape, Outgrown;
  }

  /** Exactly when a refresh gives an output other dimensions: the inferred shape differs, and nothing before stops the
      refresh. */
  lemma {:induction false} RefreshReshapesIff(m: Model, frozen: bool, shapes: map<string, Dims>, tensors: Tensors,
                                              addresses: map<string, Ptr>, i: nat, alloc: string -> Allocation,
                                              j: nat)
    requires WellFormed(m) && (frozen || (AllSound(tensors) && AllGot(alloc)))
    requires i <= j < |m.io| && m.io[j].name in tensors
    ensures var r := UpdateOutputShapes(m, frozen, shapes, tensors, addresses, i, alloc).tensors;
            r[m.io[j].name].dims != tensors[m.io[j].name].dims
            <==> ChangesShape(m, shapes, tensors, m.io[j]) && Reaches(m, frozen, shapes, tensors, i, j, alloc)
    decreases j - i
  {
    hide UpdateOutput, Passes, ChangesShape, Sound;
    var b := m.io[i];
    var r := UpdateOutput(m, frozen, shapes, b, tensors, addresses, alloc(b.name));
    UpdateOutputOkIff(m, frozen, shapes, b, tensors, addresses, alloc(b.name));
    UpdateTouchesOne(m, frozen, shapes, b, tensors, addresses, alloc(b.name));
    if i == j {
      UpdateOutputReshapesIff(m, frozen, shapes, b, tensors, addresses, alloc(b.name));
      UpdateKeepsOthers(m, frozen, shapes, r.tensors, r.addresses, i + 1, alloc);
      assert Absent(m, i + 1, b.name, true);
    } else {
      if !frozen { UpdateOutputGrows(m, frozen, shapes, b, tensors, addresses, alloc(b.name)); }
      ReachesNext(m, frozen, shapes, tensors, r.tensors, i, j, alloc);
      if r.ok { RefreshReshapesIff(m, frozen, shapes, r.tensors, r.addresses, i + 1, alloc, j); }
    }
  }

  /** Exactly when a refresh makes an output larger: it may reallocate, the inferred shape does not fit, and nothing
      before stops the refresh. */
  lemma {:induction false} RefreshGrowsIff(m: Model, frozen: bool, shapes: map<string, Dims>, tensors: Tensors,
                                           addresses: map<string, Ptr>, i: nat, alloc: string -> Allocation, j: nat)
    requires WellFormed(m) && AllSound(tensors) && AllGot(alloc) && i <= j < |m.io| && m.io[j].name in tensors
    ensures var r := UpdateOutputShapes(m, frozen, shapes, tensors, addresses, i, alloc).tensors;
            r[m.io[j].name].capacity > tensors[m.io[j].name].capacity
            <==> Outgrown(m, frozen, shapes, tensors, m.io[j]) && Reaches(m, frozen, shapes, tensors, i, j, alloc)
    decreases j - i
  {
    hide UpdateOutput, Passes, Outgrown, Sound;
    var b := m.io[i];
    var r := UpdateOutput(m, frozen, shapes, b, tensors, addresses, alloc(b.name));
    UpdateOutputOkIff(m, frozen, shapes, b, tensors, addresses, alloc(b.name));
    UpdateTouchesOne(m, frozen, shapes, b, tensors, addresses, alloc(b.name));
    if i == j {
      UpdateOutputGrowsIff(m, frozen, shapes, b, tensors, addresses, alloc(b.name));
      UpdateKeepsOthers(m, frozen, shapes, r.tensors, r.addresses, i + 1, alloc);
      assert Absent(m, i + 1, b.name, true);
    } else {
      UpdateOutputGrows(m, frozen, shapes, b, tensors, addresses, alloc(b.name));
      ReachesNext(m, frozen, shapes, tensors, r.tensors, i, j, alloc);
      if r.ok { RefreshGrowsIff(m, frozen, shapes, r.tensors, r.addresses, i + 1, alloc, j); }
    }
  }

  // ── Shapes at allocation ─────────────────────────────────────────────

  /** An output is allocated at the shape inferred for it when that has all the engine's axes; a shorter one fills the
      engine's dynamic axes and leaves the static ones. */
  lemma OutputShapeFollows(m: Model, shapes: map<string, Dims>, b: Binding, maxProfile: bool)
    requires var q := ContextShape(m, shapes, b.name); q.Some? && AllPositive(q.value)
    ensures var d, r := ContextShape(m, shapes, b.name).value, OutputShape(m, shapes, b, maxProfile);
            && AllPositive(r)
            && (|d| == 0 || |d| >= |b.shape| ==> r == d)
            && (0 < |d| < |b.shape| ==>
                  && |r| == |b.shape|
                  && (forall j | 0 <= j < |r| && b.shape[j] > 0 :: r[j] == b.shape[j])
                  && (forall j | 0 <= j < |d| && b.shape[j] < 0 :: r[j] == d[j]))
  {
    hide ContextShape;
    var d := ContextShape(m, shapes, b.name).value;
    if |d| == 0 || |d| >= |b.shape| { assert Concrete(d) == d; }
  }

  /** A dynamic input of a max-profile engine is allocated at its max profile when that is concrete and has all the
      axes; every static input keeps its shape. */
  lemma InputShapeFollows(b: Binding, maxProfile: bool)
    ensures var r := InputShape(b, maxProfile);
            && AllPositive(r)
            && (!IsDynamic(b) && AllPositive(b.shape) ==> r == b.shape)
            && ((IsDynamic(b) && maxProfile && b.maxProfile.Some? && AllPositive(b.maxProfile.value)
                 && |b.maxProfile.value| == |b.shape|) ==> r == b.maxProfile.value)
  {
    assert AllPositive(b.shape) ==> Concrete(b.shape) == b.shape;
  }
}
