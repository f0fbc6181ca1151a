/** Transfers to and from page-locked host memory happen when they are issued, and the only thing made to wait for an
    inference is a stream: so the device may run everything on its streams after all of them. */
module HostSchedules {
  import opened Streams

  // ── Host operations first ────────────────────────────────────────────

  /** The operations of a program on the host, or those on streams, as indices in the order issued. */
  function Indices(p: Program, host: bool): (s: seq<nat>)
    ensures forall i | 0 <= i < |s| :: s[i] < |p| && (p[s[i]].agent == Host) == host
  {
    if p == [] then []
    else
      var n := |p| - 1;
      Indices(p[..n], host) + if (p[n].agent == Host) == host then [n] else []
  }

  /** Everything on the host, then everything on streams, each in the order issued. */
  function HostFirst(p: Program): seq<nat> {
    Indices(p, true) + Indices(p, false)
  }

  lemma {:induction false} IndicesIncrease(p: Program, host: bool)
    ensures forall i, j | 0 <= i < j < |Indices(p, host)| :: Indices(p, host)[i] < Indices(p, host)[j]
  {
    if p != [] { IndicesIncrease(p[..|p| - 1], host); }
  }

  lemma {:induction false} IndicesComplete(p: Program, host: bool, x: nat)
    requires x < |p| && (p[x].agent == Host) == host
    ensures x in Indices(p, host)
  {
    if x < |p| - 1 {
      assert p[..|p| - 1][x] == p[x];
      IndicesComplete(p[..|p| - 1], host, x);
    }
  }

  lemma {:induction false} IndicesCount(p: Program)
    ensures |Indices(p, true)| + |Indices(p, false)| == |p|
  {
    if p != [] { IndicesCount(p[..|p| - 1]); }
  }

  /** Nothing on the host waits or computes: it only copies. */
  ghost predicate HostCopies(p: Program) {
    forall i | 0 <= i < |p| && p[i].agent == Host :: p[i].op.Upload? || p[i].op.Download?
  }

  /** No guarantee orders an operation on a stream before a later copy on the host. */
  lemma HostFirstIsLegal(p: Program)
    requires HostCopies(p)
    ensures Legal(p, HostFirst(p))
  {
    var a, b, s := Indices(p, true), Indices(p, false), HostFirst(p);
    IndicesIncrease(p, true);
    IndicesIncrease(p, false);
    IndicesCount(p);
    forall x: nat | x < |p| ensures x in s {
      IndicesComplete(p, p[x].agent == Host, x);
      assert x in a || x in b;
    }
    hide Indices;
    forall i, j | 0 <= i < j < |s| ensures s[i] != s[j] && !MustPrecede(p, s[j], s[i]) {
      if j < |a| {
        assert s[i] == a[i] && s[j] == a[j];
      } else if i < |a| {
        assert s[i] == a[i] && s[j] == b[j - |a|];
      } else {
        assert s[i] == b[i - |a|] && s[j] == b[j - |a|];
      }
    }
  }

  // ── The memory operations of a program ───────────────────────────────

  datatype Side = OnHost | OnStreams | Anywhere

  predicate On(side: Side, q: Item) {
    && IsMemory(q.op)
    && match side
       case OnHost => q.agent == Host
       case OnStreams => q.agent != Host
       case Anywhere => true
  }

  function Placed(side: Side, q: Item): Program {
    if On(side, q) then [q] else []
  }

  function Transfers(p: Program, side: Side): Program {
    if p == [] then [] else Transfers(p[..|p| - 1], side) + Placed(side, p[|p| - 1])
  }

  lemma {:induction false} TransfersAppend(p: Program, q: Program, side: Side)
    ensures Transfers(p + q, side) == Transfers(p, side) + Transfers(q, side)
    decreases |q|
  {
    hide Placed;
    if q == [] {
      assert p + q == p;
    } else {
      var n := |q| - 1;
      assert (p + q)[..|p + q| - 1] == p + q[..n];
      TransfersAppend(p, q[..n], side);
    }
  }

  lemma TransfersOne(q: Item, side: Side)
    ensures Transfers([q], side) == Placed(side, q)
  {
    assert [q][..0] == [];
  }

  lemma {:induction false} EventsTransferNothing(q: Program, side: Side)
    requires forall x | x in q :: !IsMemory(x.op)
    ensures Transfers(q, side) == []
  {
    if q != [] { EventsTransferNothing(q[..|q| - 1], side); }
  }

  lemma {:induction false} TransfersComeFrom(p: Program, side: Side)
    ensures forall q | q in Transfers(p, side) :: q in p
  {
    if p != [] { TransfersComeFrom(p[..|p| - 1], side); }
  }

  lemma InOrderAppend(k: Kernel, p: Program, q: Item, w: World)
    ensures InOrder(k, p + [q], w) == Effect(k, q.op, InOrder(k, p, w))
  {
    assert (p + [q])[..|p|] == p;
  }

  /** Events do not change what a program does. */
  lemma {:induction false} OnlyTransfersCount(k: Kernel, p: Program, w: World)
    ensures InOrder(k, p, w) == InOrder(k, Transfers(p, Anywhere), w)
    decreases |p|
  {
    if p != [] {
      var n := |p| - 1;
      OnlyTransfersCount(k, p[..n], w);
      PlacedLast(k, p, Anywhere, w);
    }
  }

  lemma PlacedLast(k: Kernel, p: Program, side: Side, w: World)
    requires p != []
    ensures var n := |p| - 1;
            InOrder(k, Transfers(p, side), w)
            == if On(side, p[n]) then Effect(k, p[n].op, InOrder(k, Transfers(p[..n], side), w))
              else InOrder(k, Transfers(p[..n], side), w)
  {
    var n := |p| - 1;
    if On(side, p[n]) {
      InOrderAppend(k, Transfers(p[..n], side), p[n], w);
    } else {
      assert Transfers(p[..n], side) + [] == Transfers(p[..n], side);
    }
  }

  lemma {:induction false} ExecIndices(k: Kernel, p: Program, host: bool, w: World)
    requires Within(Indices(p, host), |p|)
    ensures Exec(k, p, Indices(p, host), w) == InOrder(k, Transfers(p, if host then OnHost else OnStreams), w)
    decreases |p|
  {
    if p != [] {
      var n := |p| - 1;
      var side, s := if host then OnHost else OnStreams, Indices(p[..n], host);
      ExecIndices(k, p[..n], host, w);
      ExecPrefix(k, p, n, s, w);
      PlacedLast(k, p, side, w);
      if (p[n].agent == Host) == host {
        ExecNext(k, p, s, n, w);
        assert Indices(p, host) == s + [n];
        hide *;
        assert On(side, p[n]) <==> IsMemory(p[n].op) by { OnSide(p[n], host); }
        if !IsMemory(p[n].op) { EventDoesNothing(k, p[n].op, Exec(k, p, s, w)); }
      } else {
        assert Indices(p, host) == s;
        OnSide(p[n], host);
        hide *;
      }
    }
  }

  lemma ExecNext(k: Kernel, p: Program, s: seq<nat>, x: nat, w: World)
    requires Within(s, |p|) && x < |p|
    ensures Within(s + [x], |p|) && Exec(k, p, s + [x], w) == Effect(k, p[x].op, Exec(k, p, s, w))
  {
    assert (s + [x])[..|s|] == s;
  }

  lemma OnSide(q: Item, host: bool)
    ensures On(if host then OnHost else OnStreams, q) <==> IsMemory(q.op) && (q.agent == Host) == host
  {
  }

  lemma EventDoesNothing(k: Kernel, op: Op, w: World)
    requires !IsMemory(op)
    ensures Effect(k, op, w) == w
  {
  }

  /** Host operations first: what that schedule does, in terms of the two halves of the program. */
  lemma ExecHostFirst(k: Kernel, p: Program, w: World)
    requires Within(HostFirst(p), |p|)
    ensures Exec(k, p, HostFirst(p), w) == InOrder(k, Transfers(p, OnStreams), InOrder(k, Transfers(p, OnHost), w))
  {
    ExecAppend(k, p, Indices(p, true), Indices(p, false), w);
    ExecIndices(k, p, true, w);
    ExecIndices(k, p, false, InOrder(k, Transfers(p, OnHost), w));
    hide Exec, InOrder;
  }

  // ── Reading on the host ──────────────────────────────────────────────

  /** There has been an inference, and nothing was uploaded since. */
  ghost predicate Settled(p: Program) {
    if p == [] then false
    else
      var last := p[|p| - 1].op;
      last.Launch? || (!last.Upload? && Settled(p[..|p| - 1]))
  }

  /** Every read follows an inference without an upload in between. */
  ghost predicate ReadsSettled(p: Program) {
    p != [] ==> ReadsSettled(p[..|p| - 1]) && (p[|p| - 1].op.Download? ==> Settled(p[..|p| - 1]))
  }

  /** No read on a stream has copied buffer `p` to the destination. */
  ghost predicate Unread(l: Program, p: Ptr, dst: nat) {
    forall i | 0 <= i < |l| && l[i].agent != Host && l[i].op.Download? && l[i].op.dst == dst :: l[i].op.ptr != p
  }

  /** An inference whose results do not depend on memory. */
  function Constant(mem: map<Ptr, Bytes>): Kernel {
    (shapes, addresses, before) => mem
  }

  lemma {:induction false} SettledMemory(mem: map<Ptr, Bytes>, p: Program, w: World)
    requires Settled(p)
    ensures InOrder(Constant(mem), p, w).mem == mem
    decreases |p|
  {
    if !p[|p| - 1].op.Launch? { SettledMemory(mem, p[..|p| - 1], w); }
  }

  lemma {:induction false} HostIgnoresKernel(k: Kernel, l: Kernel, p: Program, w: World)
    requires HostCopies(p)
    ensures InOrder(k, Transfers(p, OnHost), w) == InOrder(l, Transfers(p, OnHost), w)
  {
    if p != [] {
      var n := |p| - 1;
      HostIgnoresKernel(k, l, p[..n], w);
      PlacedLast(k, p, OnHost, w);
      PlacedLast(l, p, OnHost, w);
    }
  }

  /** With an inference that leaves just one buffer, reads of other buffers on streams leave nothing at a
      destination. */
  lemma {:induction false} StreamReads(p: Program, o: Ptr, data: Bytes, dst: nat, w: World)
    requires HostCopies(p) && ReadsSettled(p) && Unread(p, o, dst)
    ensures var r := InOrder(Constant(map[o := data]), Transfers(p, OnStreams), w);
            (Settled(p) ==> r.mem == map[o := data]) && (At(r.host, dst) == At(w.host, dst) || At(r.host, dst) == [])
  {
    if p != [] {
      var n := |p| - 1;
      var k := Constant(map[o := data]);
      StreamReads(p[..n], o, data, dst, w);
      PlacedLast(k, p, OnStreams, w);
      StreamReadsNext(p[n], Settled(p[..n]), o, data, dst, w, InOrder(k, Transfers(p[..n], OnStreams), w));
      assert Settled(p) ==> p[n].op.Launch? || (!p[n].op.Upload? && Settled(p[..n]));
      assert p[n].agent == Host ==> !p[n].op.Launch?;
      hide *;
    }
  }

  lemma StreamReadsNext(x: Item, settled: bool, o: Ptr, data: Bytes, dst: nat, w: World, before: World)
    requires settled ==> before.mem == map[o := data]
    requires At(before.host, dst) == At(w.host, dst) || At(before.host, dst) == []
    requires x.op.Download? ==> settled
    requires x.agent != Host && x.op.Download? && x.op.dst == dst ==> x.op.ptr != o
    ensures var r := if On(OnStreams, x) then Effect(Constant(map[o := data]), x.op, before) else before;
            && (x.agent != Host && x.op.Launch? ==> r.mem == map[o := data])
            && (settled && !x.op.Upload? && !x.op.Launch? ==> r.mem == map[o := data])
            && (At(r.host, dst) == At(w.host, dst) || At(r.host, dst) == [])
  {
  }

  /** What a last read on the host gets when the host goes first: the buffer as the host's copies alone leave it, unless
      a read on a stream overwrites it with nothing. */
  lemma EarlyRead(q: Program, p: Ptr, data: Bytes, dst: nat, w: World)
    requires HostCopies(q) && ReadsSettled(q) && Settled(q) && Unread(q, p, dst)
    ensures var k, r := Constant(map[p := data]), q + [Item(Host, Download(p, dst))];
            && Legal(r, HostFirst(r))
            && var early := At(Exec(k, r, HostFirst(r), w).host, dst);
               early == At(InOrder(k, Transfers(q, OnHost), w).mem, p) || early == []
  {
    hide HostFirst, Exec, MustPrecede, InOrder, Transfers, ReadsSettled, Settled, HostCopies, Unread;
    var k, down := Constant(map[p := data]), Item(Host, Download(p, dst));
    var r := q + [down];
    ReadAppends(q, down, p, dst);
    assert r[..|q|] == q && On(OnHost, down);
    HostFirstIsLegal(r);
    ExecHostFirst(k, r, w);
    PlacedLast(k, r, OnHost, w);
    StreamReads(r, p, data, dst, InOrder(k, Transfers(r, OnHost), w));
  }

  lemma ReadAppends(q: Program, down: Item, p: Ptr, dst: nat)
    requires HostCopies(q) && ReadsSettled(q) && Settled(q) && Unread(q, p, dst) && down.agent == Host
    requires down.op.Download?
    ensures HostCopies(q + [down]) && ReadsSettled(q + [down]) && Unread(q + [down], p, dst)
  {
    assert (q + [down])[..|q|] == q;
  }

  /** A read on the host races with the inference before it, whatever came before: host copies, other reads, reused
      destinations. Some inference makes the host's bytes differ under the schedule that runs the host's copies
      first. */
  lemma HostReadRaces(q: Program, p: Ptr, dst: nat) returns (k: Kernel, w: World)
    requires HostCopies(q) && ReadsSettled(q) && Settled(q) && Unread(q, p, dst)
    ensures var r := q + [Item(Host, Download(p, dst))];
            Legal(r, HostFirst(r)) && At(Exec(k, r, HostFirst(r), w).host, dst) != At(InOrder(k, r, w).host, dst)
  {
    w := World(map[], map[]);
    var early := At(InOrder(Constant(map[]), Transfers(q, OnHost), w).mem, p);
    var data := early + [0];
    k := Constant(map[p := data]);
    SettledMemory(map[p := data], q, w);
    EarlyRead(q, p, data, dst, w);
    HostIgnoresKernel(k, Constant(map[]), q, w);
    InOrderAppend(k, q, Item(Host, Download(p, dst)), w);
    hide HostFirst, Exec, Legal, InOrder, Transfers, HostCopies, ReadsSettled, Settled, Unread;
    assert |data| != |early|;
  }

  // ── Writing on the host ──────────────────────────────────────────────

  /** An inference that copies buffer `p` to buffer `o`. */
  function Copying(p: Ptr, o: Ptr): Kernel {
    (shapes, addresses, before: map<Ptr, Bytes>) => before[o := At(before, p)]
  }

  /** What the last upload to a buffer put there, if there was one. */
  function LastUpload(q: Program, p: Ptr, start: Bytes): Bytes {
    if q == [] then start
    else
      var n := |q| - 1;
      if q[n].op.Upload? && q[n].op.ptr == p then q[n].op.data else LastUpload(q[..n], p, start)
  }

  ghost predicate Uploads(q: Program, p: Ptr) {
    exists i | 0 <= i < |q| :: q[i].op.Upload? && q[i].op.ptr == p
  }

  lemma {:induction false} CopyingKeepsSource(p: Ptr, o: Ptr, q: Program, w: World)
    ensures At(InOrder(Copying(p, o), q, w).mem, p) == LastUpload(q, p, At(w.mem, p))
  {
    if q != [] { CopyingKeepsSource(p, o, q[..|q| - 1], w); }
  }

  lemma {:induction false} LastUploadFrom(q: Program, p: Ptr, x: Bytes, y: Bytes)
    ensures Uploads(q, p) ==> LastUpload(q, p, x) == LastUpload(q, p, y)
    ensures !Uploads(q, p) ==> LastUpload(q, p, x) == x
  {
    if q != [] {
      var n := |q| - 1;
      LastUploadFrom(q[..n], p, x, y);
      if Uploads(q, p) && !(q[n].op.Upload? && q[n].op.ptr == p) {
        var i :| 0 <= i < |q| && q[i].op.Upload? && q[i].op.ptr == p;
        assert q[..n][i] == q[i];
      }
    }
  }

  lemma {:induction false} LastUploadAppend(x: Program, y: Program, p: Ptr, start: Bytes)
    ensures LastUpload(x + y, p, start) == LastUpload(y, p, LastUpload(x, p, start))
    decreases |y|
  {
    if y == [] {
      assert x + y == x;
    } else {
      assert (x + y)[..|x + y| - 1] == x + y[..|y| - 1];
      LastUploadAppend(x, y[..|y| - 1], p, start);
    }
  }

  /** All uploads to the buffer are on the host. */
  ghost predicate UploadedOnHost(q: Program, p: Ptr) {
    forall i | 0 <= i < |q| && q[i].op.Upload? && q[i].op.ptr == p :: q[i].agent == Host
  }

  lemma {:induction false} UploadsOnSides(q: Program, p: Ptr, start: Bytes)
    requires UploadedOnHost(q, p)
    ensures LastUpload(Transfers(q, OnHost), p, start) == LastUpload(q, p, start)
    ensures LastUpload(Transfers(q, OnStreams), p, start) == start
  {
    if q != [] {
      var n := |q| - 1;
      UploadsOnSides(q[..n], p, start);
      UploadLast(Transfers(q[..n], OnHost), Placed(OnHost, q[n]), p, start);
      UploadLast(Transfers(q[..n], OnStreams), Placed(OnStreams, q[n]), p, start);
    }
  }

  lemma UploadLast(x: Program, y: Program, p: Ptr, start: Bytes)
    requires |y| <= 1
    ensures LastUpload(x + y, p, start)
            == if |y| == 1 && y[0].op.Upload? && y[0].op.ptr == p then y[0].op.data else LastUpload(x, p, start)
  {
    if y == [] {
      assert x + y == x;
    } else {
      assert (x + y)[..|x|] == x;
    }
  }

  lemma {:induction false} InOrderSplits(k: Kernel, x: Program, y: Program, w: World)
    ensures InOrder(k, x + y, w) == InOrder(k, y, InOrder(k, x, w))
    decreases |y|
  {
    if y == [] {
      assert x + y == x;
    } else {
      assert (x + y)[..|x + y| - 1] == x + y[..|y| - 1];
      InOrderSplits(k, x, y[..|y| - 1], w);
    }
  }

  /** No inference, and no upload to the buffer. */
  ghost predicate Leaves(b: Program, o: Ptr) {
    forall x | x in b :: !x.op.Launch? && !(x.op.Upload? && x.op.ptr == o)
  }

  /** No read into the destination. */
  ghost predicate Spares(c: Program, dst: nat) {
    forall x | x in c :: !(x.op.Download? && x.op.dst == dst)
  }

  lemma {:induction false} LeavesBuffer(k: Kernel, b: Program, o: Ptr, w: World)
    requires Leaves(b, o)
    ensures At(InOrder(k, b, w).mem, o) == At(w.mem, o)
  {
    if b != [] { LeavesBuffer(k, b[..|b| - 1], o, w); }
  }

  lemma {:induction false} SparesDestination(k: Kernel, c: Program, dst: nat, w: World)
    requires Spares(c, dst)
    ensures At(InOrder(k, c, w).host, dst) == At(w.host, dst)
  {
    if c != [] { SparesDestination(k, c[..|c| - 1], dst, w); }
  }

  /** The copying inference delivers what its source held when it ran. */
  lemma CopyingDelivers(a: Program, launch: Item, b: Program, down: Item, c: Program, p: Ptr, w: World)
    requires launch.op.Launch? && down.op.Download? && Leaves(b, down.op.ptr) && Spares(c, down.op.dst)
    ensures var k := Copying(p, down.op.ptr);
            At(InOrder(k, a + [launch] + b + [down] + c, w).host, down.op.dst) == At(InOrder(k, a, w).mem, p)
  {
    var k := Copying(p, down.op.ptr);
    var w1 := InOrder(k, a, w);
    var w2 := Effect(k, launch.op, w1);
    var w3 := InOrder(k, b, w2);
    InOrderAppend(k, a, launch, w);
    InOrderSplits(k, a + [launch], b, w);
    InOrderAppend(k, a + [launch] + b, down, w);
    InOrderSplits(k, a + [launch] + b + [down], c, w);
    LeavesBuffer(k, b, down.op.ptr, w2);
    SparesDestination(k, c, down.op.dst, Effect(k, down.op, w3));
    hide InOrder;
  }

  /** A write on the host races with an inference before it that reads the buffer, once a result of that inference has
      been read, and unless it writes what was last there. The program is `a`, an inference, `b`, the read of its
      result, and `c`; the last upload to buffer `p`, in `c` and on the host, is `data`. */
  lemma HostWriteRaces(a: Program, launch: Item, b: Program, down: Item, c: Program, p: Ptr, data: Bytes)
    returns (k: Kernel, w: World)
    requires var q := a + [launch] + b + [down] + c; HostCopies(q) && UploadedOnHost(q, p)
    requires launch.op.Launch? && down.op.Download? && launch.agent != Host && down.agent != Host
    requires Leaves(b, down.op.ptr) && Spares(c, down.op.dst)
    requires Uploads(c, p) && LastUpload(c, p, []) == data && (Uploads(a, p) ==> LastUpload(a, p, []) != data)
    ensures var q := a + [launch] + b + [down] + c;
            Legal(q, HostFirst(q))
            && At(Exec(k, q, HostFirst(q), w).host, down.op.dst) != At(InOrder(k, q, w).host, down.op.dst)
  {
    var q := a + [launch] + b + [down] + c;
    k := Copying(p, down.op.ptr);
    var before := data + [0];
    assert |before| != |data|;
    w := World(map[p := before], map[]);
    HostFirstIsLegal(q);
    CopyingDelivers(a, launch, b, down, c, p, w);
    CopyingKeepsSource(p, down.op.ptr, a, w);
    LastUploadFrom(a, p, before, []);
    EarlyWrite(a, launch, b, down, c, p, w);
    LastUploadAppend(a + [launch] + b + [down], c, p, before);
    LastUploadFrom(c, p, LastUpload(a + [launch] + b + [down], p, before), []);
    hide InOrder, Exec, Legal, HostFirst, HostCopies, LastUpload, Uploads;
  }

  /** With the host first, the copying inference delivers what is uploaded last, even if after it. */
  lemma EarlyWrite(a: Program, launch: Item, b: Program, down: Item, c: Program, p: Ptr, w: World)
    requires var q := a + [launch] + b + [down] + c; UploadedOnHost(q, p) && Within(HostFirst(q), |q|)
    requires launch.op.Launch? && down.op.Download? && launch.agent != Host && down.agent != Host
    requires Leaves(b, down.op.ptr) && Spares(c, down.op.dst)
    ensures var q := a + [launch] + b + [down] + c;
            At(Exec(Copying(p, down.op.ptr), q, HostFirst(q), w).host, down.op.dst) == LastUpload(q, p, At(w.mem, p))
  {
    var k, q := Copying(p, down.op.ptr), a + [launch] + b + [down] + c;
    var w1 := InOrder(k, Transfers(q, OnHost), w);
    ExecHostFirst(k, q, w);
    assert UploadedOnHost(a, p) by { assert forall i | 0 <= i < |a| :: q[i] == a[i]; }
    SplitTransfers(a, launch, b, down, c, OnStreams);
    TransfersComeFrom(b, OnStreams);
    TransfersComeFrom(c, OnStreams);
    CopyingDelivers(Transfers(a, OnStreams), launch, Transfers(b, OnStreams), down, Transfers(c, OnStreams), p, w1);
    CopyingKeepsSource(p, down.op.ptr, Transfers(a, OnStreams), w1);
    CopyingKeepsSource(p, down.op.ptr, Transfers(q, OnHost), w);
    UploadsOnSides(q, p, At(w.mem, p));
    UploadsOnSides(a, p, At(w1.mem, p));
    hide InOrder, Exec, Transfers, HostFirst, LastUpload;
  }

  lemma SplitTransfers(a: Program, x: Item, b: Program, y: Item, c: Program, side: Side)
    requires On(side, x) && On(side, y)
    ensures Transfers(a + [x] + b + [y] + c, side)
            == Transfers(a, side) + [x] + Transfers(b, side) + [y] + Transfers(c, side)
  {
    TransfersAppend(a + [x] + b + [y], c, side);
    TransfersAppend(a + [x] + b, [y], side);
    TransfersAppend(a + [x], b, side);
    TransfersAppend(a, [x], side);
    TransfersOne(x, side);
    TransfersOne(y, side);
    hide Transfers;
  }
}
