/** One buffer of device or page-locked host memory, with its logical size and its allocated capacity. */
module CudaMemory {
  import opened Streams

  type Address = p: nat | p > 0 witness 1

  datatype Kind = Invalid | Device | Pinned | PinnedWC

  /** What the driver answers to an allocation; `pooled` says the stream-ordered allocator served it. */
  datatype Allocation = Got(ptr: Address, pooled: bool) | OutOfMemory

  /** What a bounds-checked copy of some bytes does: nothing to copy, refused, the process aborts, or it copies. */
  datatype Verdict = Nothing | Refused | Aborts | Copies(at: Ptr)

  datatype MemState = MemState(kind: Kind, device: Ptr, host: Ptr, byteSize: nat, capacity: nat, pooled: bool)
  {
    function Address(): Ptr {
      match kind
      case Device => device
      case Pinned => host
      case PinnedWC => host
      case Invalid => 0
    }

    function Freed(): MemState {
      MemState(kind, 0, 0, 0, 0, false)
    }

    function Allocate(n: nat, a: Allocation): (MemState, bool) {
      if n == 0 then (this.(byteSize := 0), true)
      else if n <= capacity && (device != 0 || host != 0) then (this.(byteSize := n), true)
      else
        var f := Freed().(byteSize := n);
        match (kind, a)
        case (Invalid, _) => (f, false)
        case (_, OutOfMemory) => (f, false)
        case (Device, Got(p, pooled)) => (f.(device := p, pooled := pooled, capacity := n), true)
        case (_, Got(p, _)) => (f.(host := p, capacity := n), true)
    }

    /** The test every copy makes before it touches memory. */
    function Copy(offset: nat, n: nat): Verdict {
      if n == 0 then Nothing
      else if offset + n > byteSize then Refused
      else if kind == Invalid then Refused
      else if Address() == 0 then Aborts
      else Copies(Address() + offset)
    }

    /** Logical size and capacity agree and there is memory behind them. */
    ghost predicate Full() {
      byteSize == capacity && capacity > 0 && Address() != 0 && kind != Invalid
    }
  }

  /** Memory is kept when it is large enough, and otherwise exchanged for just as much as is asked for; when there is
      none to be had, none is left. */
  lemma AllocateExactly(m: MemState, n: nat, a: Allocation)
    ensures var (r, ok) := m.Allocate(n, a);
            var keeps := n == 0 || (n <= m.capacity && (m.device != 0 || m.host != 0));
            && (keeps ==> ok && r == m.(byteSize := n))
            && (!keeps ==> (ok <==> a.Got? && m.kind != Invalid))
            && (!keeps && ok && m.kind == Device ==> r == MemState(Device, a.ptr, 0, n, n, a.pooled))
            && (!keeps && ok && m.kind != Device ==> r == MemState(m.kind, 0, a.ptr, n, n, false))
            && (!ok ==> r == MemState(m.kind, 0, 0, n, 0, false))
  {
  }

  /** A copy of some bytes goes through exactly when they lie within the memory's size and there is memory. */
  lemma CopiesExactly(m: MemState, offset: nat, n: nat)
    ensures var p := if m.kind == Device then m.device else m.host;
            && (m.Copy(offset, n) == Nothing <==> n == 0)
            && (m.Copy(offset, n).Copies? <==> 0 < n <= m.byteSize - offset && m.kind != Invalid && p != 0)
            && (m.Copy(offset, n).Copies? ==> m.Copy(offset, n).at == p + offset)
            && (m.Copy(offset, n) == Aborts <==> 0 < n <= m.byteSize - offset && m.kind != Invalid && p == 0)
  {
  }

  class CudaBaseMemory {
    const kind: Kind
    var device: Ptr
    var host: Ptr
    var byteSize: nat
    var capacity: nat
    var pooled: bool

    function State(): MemState
      reads this
    {
      MemState(kind, device, host, byteSize, capacity, pooled)
    }

    constructor (kind: Kind)
      ensures State() == MemState(kind, 0, 0, 0, 0, false)
    {
      this.kind := kind;
      device, host, byteSize, capacity, pooled := 0, 0, 0, 0, false;
    }

    method FreeMemory()
      modifies this
      ensures State() == old(State()).Freed()
      ensures State().Address() == 0 && forall offset: nat, n: nat | n > 0 :: State().Copy(offset, n) == Refused
    {
      host, device, byteSize, capacity, pooled := 0, 0, 0, 0, false;
    }

    method AllocateMemory(n: nat, a: Allocation) returns (ok: bool)
      modifies this
      ensures (State(), ok) == old(State()).Allocate(n, a)
    {
      byteSize := n;
      if n == 0 { return true; }
      if n <= capacity && (device != 0 || host != 0) { return true; }
      FreeMemory();
      byteSize := n;
      match kind {
        case Invalid => return false;
        case Device =>
          match a {
            case OutOfMemory => return false;
            case Got(p, viaPool) => device, pooled := p, viaPool;
          }
        case Pinned =>
          match a {
            case OutOfMemory => return false;
            case Got(p, _) => host := p;
          }
        case PinnedWC =>
          match a {
            case OutOfMemory => return false;
            case Got(p, _) => host := p;
          }
      }
      capacity := byteSize;
      return true;
    }
  }
}
