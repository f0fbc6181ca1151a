/** A tensor: a shape, an element type, and its own byte count and capacity kept beside those of its memory. */
module TensorModel {
  import opened Streams
  import opened CudaMemory

  datatype DataType = Float | Half | BFloat16 | Int8 | Int32 | Int64 | Bool | Unsupported

  function ElementSize(t: DataType): nat {
    match t
    case Float => 4
    case Half => 2
    case BFloat16 => 2
    case Int8 => 1
    case Int32 => 4
    case Int64 => 8
    case Bool => 1
    case Unsupported => 0
  }

  function Product(dims: Dims): int {
    if dims == [] then 1 else Product(dims[..|dims| - 1]) * dims[|dims| - 1]
  }

  /** The axis at which a product loop stops: the first negative one, or the end. */
  function FirstNegative(dims: Dims): (i: nat)
    ensures i <= |dims| && (forall j | 0 <= j < i :: dims[j] >= 0) && (i < |dims| ==> dims[i] < 0)
  {
    if dims == [] then 0
    else
      var i := FirstNegative(dims[..|dims| - 1]);
      if i < |dims| - 1 || dims[|dims| - 1] < 0 then i else |dims|
  }

  predicate AllPositive(dims: Dims) {
    forall j | 0 <= j < |dims| :: dims[j] > 0
  }

  lemma {:induction false} ProductNonNegative(dims: Dims)
    requires forall j | 0 <= j < |dims| :: dims[j] >= 0
    ensures Product(dims) >= 0
  {
    if dims != [] { ProductNonNegative(dims[..|dims| - 1]); }
  }

  lemma ProductNext(dims: Dims, i: nat)
    requires i < |dims|
    ensures Product(dims[..i + 1]) == Product(dims[..i]) * dims[i]
  {
    assert dims[..i + 1][..i] == dims[..i];
  }

  /** The number of elements of a shape: one for no axes, and each axis multiplies. */
  lemma ProductAppends(dims: Dims, x: int)
    ensures Product([]) == 1 && Product(dims + [x]) == Product(dims) * x
  {
    assert (dims + [x])[..|dims|] == dims;
  }

  lemma {:induction false} ProductMonotone(a: Dims, b: Dims)
    requires |a| == |b| && forall j | 0 <= j < |a| :: 0 < a[j] <= b[j]
    ensures 0 < Product(a) <= Product(b)
  {
    if a != [] {
      var n := |a| - 1;
      ProductMonotone(a[..n], b[..n]);
      var pa, pb, x, y := Product(a[..n]), Product(b[..n]), a[n], b[n];
      assert pa * x <= pb * x <= pb * y && pa * x > 0;
    }
  }

  /** Elements counted by the loop over the axes before the first negative one. */
  function Elements(dims: Dims): (n: nat)
  {
    var k := FirstNegative(dims);
    ProductNonNegative(dims[..k]);
    Product(dims[..k])
  }

  datatype TensorState = TensorState(mem: MemState, dims: Dims, dtype: DataType, isInput: bool,
                                     numElements: nat, elementSize: nat, byteSize: nat, capacity: nat)
  {
    function Resize(d: Dims, t: DataType, a: Allocation): (TensorState, bool) {
      var u := this.(dims := d, dtype := t, elementSize := ElementSize(t));
      if u.elementSize == 0 then (u, false)
      else
        var v := u.(numElements := Elements(d));
        if FirstNegative(d) < |d| then (v, false)
        else
          var n := v.numElements * v.elementSize;
          var (m, ok) := mem.Allocate(n, a);
          (v.(byteSize := n, mem := m, capacity := m.capacity), ok)
    }

    function ResizeBytes(n: nat, a: Allocation): (TensorState, bool) {
      var (m, ok) := mem.Allocate(n, a);
      (this.(byteSize := n, numElements := if elementSize > 0 then n / elementSize else numElements,
             mem := m, capacity := m.capacity), ok)
    }

    function Reshape(d: Dims): (TensorState, bool) {
      if elementSize == 0 || FirstNegative(d) < |d| || Elements(d) * elementSize > capacity then (this, false)
      else (this.(dims := d, numElements := Elements(d), byteSize := Elements(d) * elementSize), true)
    }

    /** The two layers of size bookkeeping agree, so a copy of the whole tensor passes the bounds check. */
    ghost predicate Agrees() {
      mem.Full() && mem.capacity == capacity && 0 < byteSize <= capacity && elementSize > 0
    }
  }

  function Unallocated(kind: Kind, isInput: bool): TensorState {
    TensorState(MemState(kind, 0, 0, 0, 0, false), [], Float, isInput, 0, 0, 0, 0)
  }

  lemma ReshapeFailsWithoutEffect(t: TensorState, d: Dims)
    ensures !t.Reshape(d).1 ==> t.Reshape(d).0 == t
  {
  }

  class Tensor {
    const data: CudaBaseMemory
    const isInput: bool
    var dims: Dims
    var dtype: DataType
    var numElements: nat
    var elementSize: nat
    var byteSize: nat
    var capacity: nat

    function State(): TensorState
      reads this, data
    {
      TensorState(data.State(), dims, dtype, isInput, numElements, elementSize, byteSize, capacity)
    }

    constructor (d: Dims, t: DataType, kind: Kind, isInput: bool, a: Allocation)
      ensures fresh(data)
      ensures State() == Unallocated(kind, isInput).Resize(d, t, a).0
    {
      data := new CudaBaseMemory(kind);
      this.isInput := isInput;
      dims, dtype, numElements, elementSize, byteSize, capacity := [], Float, 0, 0, 0, 0;
      new;
      var _ := Resize(d, t, a);
    }

    method SetDataType(t: DataType)
      modifies this
      ensures State() == old(State()).(dtype := t, elementSize := ElementSize(t))
    {
      dtype := t;
      elementSize := ElementSize(t);
    }

    method Resize(d: Dims, t: DataType, a: Allocation) returns (ok: bool)
      modifies this, data
      ensures (State(), ok) == old(State()).Resize(d, t, a)
    {
      dims := d;
      SetDataType(t);
      if elementSize == 0 { return false; }
      numElements := 1;
      ghost var stop := FirstNegative(d);
      var i := 0;
      assert Product(d[..0]) == 1;
      hide Product, MemState.Allocate;
      while i < |d|
        invariant 0 <= i <= stop
        invariant numElements == Product(d[..i])
        invariant State() == old(State()).(dims := d, dtype := t, elementSize := ElementSize(t),
                                           numElements := numElements)
      {
        if d[i] < 0 {
          assert stop == i < |d|;
          return false;
        }
        ProductNext(d, i);
        ProductNonNegative(d[..i + 1]);
        numElements := numElements * d[i];
        i := i + 1;
      }
      assert stop == i && Elements(d) == numElements;
      byteSize := numElements * elementSize;
      ok := data.AllocateMemory(byteSize, a);
      capacity := data.capacity;
    }

    method ResizeBytes(n: nat, a: Allocation) returns (ok: bool)
      modifies this, data
      ensures (State(), ok) == old(State()).ResizeBytes(n, a)
    {
      byteSize := n;
      if elementSize > 0 { numElements := n / elementSize; }
      ok := data.AllocateMemory(byteSize, a);
      capacity := data.capacity;
    }

    method Reshape(d: Dims) returns (ok: bool)
      modifies this
      ensures (State(), ok) == old(State()).Reshape(d)
    {
      ghost var before := State();
      if elementSize == 0 { return false; }
      ghost var stop := FirstNegative(d);
      var n := 1;
      var i := 0;
      assert Product(d[..0]) == 1;
      hide Product;
      while i < |d|
        invariant i <= stop && n == Product(d[..i]) && State() == before
      {
        if d[i] < 0 {
          assert stop == i < |d|;
          return false;
        }
        ProductNext(d, i);
        n := n * d[i];
        i := i + 1;
      }
      ProductNonNegative(d[..i]);
      assert stop == i && Elements(d) == n;
      if n * elementSize > capacity { return false; }
      dims, numElements, byteSize := d, n, n * elementSize;
      return true;
    }
  }

  // ── When a copy of the whole tensor is accepted ──────────────────────

  lemma PositiveShape(d: Dims)
    requires AllPositive(d)
    ensures FirstNegative(d) == |d| && Elements(d) == Product(d) > 0
  {
    ProductMonotone(d, d);
    assert d[..|d|] == d;
  }

  lemma PositiveProduct(x: int, y: int)
    requires x > 0 && y > 0
    ensures x * y > 0
  {
  }

  /** Reshaping succeeds for static shapes within the capacity, and then the tensor has the shape's dimensions, elements
      and bytes. */
  lemma ReshapeExactly(t: TensorState, d: Dims)
    ensures var (u, ok) := t.Reshape(d);
            && (ok <==> t.elementSize != 0 && (forall i | 0 <= i < |d| :: d[i] >= 0)
                        && Product(d) * t.elementSize <= t.capacity)
            && (ok ==> u.dims == d && u.numElements == Product(d) && u.byteSize == Product(d) * t.elementSize
                       && u == t.(dims := d, numElements := u.numElements, byteSize := u.byteSize))
            && (!ok ==> u == t)
  {
    assert d[..|d|] == d;
    hide Product;
  }

  /** Resizing to a static shape of a supported type gives the tensor its dimensions, elements and bytes, in memory that
      may have to be allocated; to another it fails and leaves the memory alone. */
  lemma ResizeExactly(t: TensorState, d: Dims, dtype: DataType, a: Allocation)
    ensures var (u, ok) := t.Resize(d, dtype, a);
            && u.dims == d && u.dtype == dtype && u.isInput == t.isInput && u.elementSize == ElementSize(dtype)
            && if dtype == Unsupported || exists i :: 0 <= i < |d| && d[i] < 0 then
                 !ok && u.mem == t.mem && u.byteSize == t.byteSize && u.capacity == t.capacity
               else
                 && u.numElements == Product(d) && u.byteSize == Product(d) * ElementSize(dtype)
                 && (u.mem, ok) == t.mem.Allocate(u.byteSize, a) && u.capacity == u.mem.capacity
  {
    assert d[..|d|] == d;
    hide Product, MemState.Allocate;
  }

  /** Resizing by bytes leaves the shape alone. */
  lemma ResizeBytesExactly(t: TensorState, n: nat, a: Allocation)
    ensures var (u, ok) := t.ResizeBytes(n, a);
            && u.dims == t.dims && u.dtype == t.dtype && u.isInput == t.isInput && u.elementSize == t.elementSize
            && u.byteSize == n && (t.elementSize > 0 ==> u.numElements == n / t.elementSize)
            && (u.mem, ok) == t.mem.Allocate(n, a) && u.capacity == u.mem.capacity
  {
    hide MemState.Allocate;
  }

  /** Bytes of an element of each type. */
  lemma ElementSizes()
    ensures ElementSize(Float) == ElementSize(Int32) == 4 && ElementSize(Int64) == 8
    ensures ElementSize(Half) == ElementSize(BFloat16) == 2 && ElementSize(Int8) == ElementSize(Bool) == 1
    ensures ElementSize(Unsupported) == 0
  {
  }

  /** Tensor.Resize keeps the capacity when it shrinks, but the memory's own byte count goes down with it.  A later
      Reshape looks only at the capacity, so it can succeed and leave a tensor none of whose copies is accepted:
      a copy after Resize(n); Reshape(d) is accepted exactly when the new shape fits in those n bytes. */
  lemma CopyAfterResizeAndReshape(t: TensorState, n: nat, a: Allocation, d: Dims)
    requires t.Agrees() && n > 0 && a.Got? && AllPositive(d)
    requires var r := t.ResizeBytes(n, a).0; r.Reshape(d).1
    ensures var r := t.ResizeBytes(n, a).0.Reshape(d).0;
            r.mem.Copy(0, r.byteSize).Copies? <==> Product(d) * t.elementSize <= n
  {
    PositiveShape(d);
    PositiveProduct(Product(d), t.elementSize);
    hide Product, FirstNegative, Elements, AllPositive;
  }

  lemma ShrinkThenReshapeRefusesCopies()
    ensures var t := Unallocated(Device, true).Resize([8], Float, Got(1, true)).0;
            var r := t.ResizeBytes(4, Got(2, true)).0.Reshape([2]);
            t.Agrees() && r.1 && r.0.mem.Copy(0, r.0.byteSize) == Refused
  {
    PositiveShape([8]);
    PositiveShape([2]);
    assert [8][..0] == [] == [2][..0];
    assert Product([8]) == Product([]) * 8 == 8 && Product([2]) == Product([]) * 2 == 2;
  }
}
