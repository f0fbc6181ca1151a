/** The CUDA device as the engine sees it: streams are FIFO queues, an event is recorded once and can be
    waited for, and the host issues work in program order.  A program is the sequence of operations in the
    order the host issued them; a schedule is the order in which the device carries them out. */
module Streams {

  type Dims = seq<int>
  type Ptr = nat          // 0 is the null pointer
  type Bytes = seq<int>

  datatype Agent = Host | Stream(id: nat)

  datatype Op =
    | Upload(ptr: Ptr, data: Bytes)
    | Download(ptr: Ptr, dst: nat)
    | Launch(shapes: map<string, Dims>, addresses: map<string, Ptr>)
    | Record(event: nat)
    | Wait(event: nat)

  datatype Item = Item(agent: Agent, op: Op)

  type Program = seq<Item>

  /** Device memory by buffer, and the host destinations filled by downloads. */
  datatype World = World(mem: map<Ptr, Bytes>, host: map<nat, Bytes>)

  /** What one inference does to device memory; nothing is assumed about it. */
  type Kernel = (map<string, Dims>, map<string, Ptr>, map<Ptr, Bytes>) -> map<Ptr, Bytes>

  function At(mem: map<Ptr, Bytes>, p: Ptr): Bytes {
    if p in mem then mem[p] else []
  }

  predicate IsMemory(op: Op) {
    op.Upload? || op.Download? || op.Launch?
  }

  function Effect(k: Kernel, op: Op, w: World): World {
    match op
    case Upload(p, data) => w.(mem := w.mem[p := data])
    case Download(p, dst) => w.(host := w.host[dst := At(w.mem, p)])
    case Launch(shapes, addresses) => w.(mem := k(shapes, addresses, w.mem))
    case Record(_) => w
    case Wait(_) => w
  }

  ghost predicate Within(s: seq<nat>, n: nat) {
    forall a | 0 <= a < |s| :: s[a] < n
  }

  /** Running the operations of `p` whose indices are listed in `s`, in that order. */
  ghost function Exec(k: Kernel, p: Program, s: seq<nat>, w: World): World
    requires Within(s, |p|)
  {
    if s == [] then w else Effect(k, p[s[|s| - 1]].op, Exec(k, p, s[..|s| - 1], w))
  }

  /** Running the program as if every operation completed before the next was issued. */
  ghost function InOrder(k: Kernel, p: Program, w: World): World {
    if p == [] then w else Effect(k, p[|p| - 1].op, InOrder(k, p[..|p| - 1], w))
  }

  /** The direct ordering guarantees CUDA gives between two issued operations. */
  predicate MustPrecede(p: Program, i: nat, j: nat) {
    i < j < |p| &&
    ( || p[i].agent == p[j].agent
      || p[i].agent == Host
      || (p[i].op.Record? && p[j].op.Wait? && p[i].op.event == p[j].op.event))
  }

  ghost predicate Permutes(s: seq<nat>, n: nat) {
    && |s| == n
    && Within(s, n)
    && (forall a, b | 0 <= a < b < |s| :: s[a] != s[b])
    && (forall i | 0 <= i < n :: i in s)
  }

  /** A schedule the device may choose: every operation once, no direct guarantee inverted. */
  ghost predicate Legal(p: Program, s: seq<nat>) {
    && Permutes(s, |p|)
    && forall a, b | 0 <= a < b < |s| :: !MustPrecede(p, s[b], s[a])
  }

  /** Everything that is guaranteed to be complete before operation `j` starts. */
  ghost function Before(p: Program, j: nat): set<nat>
    ensures forall i | i in Before(p, j) :: i < j
  {
    set i, x | 0 <= i < j && MustPrecede(p, i, j) && x in Before(p, i) + {i} :: x
  }

  /** No two memory operations are left unordered. */
  ghost predicate RaceFree(p: Program) {
    forall i, j | 0 <= i < j < |p| && IsMemory(p[i].op) && IsMemory(p[j].op) :: i in Before(p, j)
  }

  // ── Facts about Before ───────────────────────────────────────────────

  lemma DirectIsBefore(p: Program, i: nat, j: nat)
    requires MustPrecede(p, i, j)
    ensures i in Before(p, j) && Before(p, i) <= Before(p, j)
  {
    forall x | x in Before(p, i) + {i} ensures x in Before(p, j) {}
  }

  lemma {:induction false} BeforeTransitive(p: Program, i: nat, j: nat)
    requires i in Before(p, j)
    ensures Before(p, i) <= Before(p, j)
    decreases j
  {
    var m :| 0 <= m < j && MustPrecede(p, m, j) && i in Before(p, m) + {m};
    DirectIsBefore(p, m, j);
    if i != m { BeforeTransitive(p, i, m); }
  }

  /** Before depends only on what was issued earlier. */
  lemma {:induction false} BeforePrefix(p: Program, n: nat, j: nat)
    requires j < n <= |p|
    ensures Before(p[..n], j) == Before(p, j)
    decreases j
  {
    forall i | 0 <= i < j
      ensures Before(p[..n], i) == Before(p, i) && MustPrecede(p[..n], i, j) == MustPrecede(p, i, j) {
      BeforePrefix(p, n, i);
    }
  }

  // ── Race freedom makes every schedule equivalent to issue order ──────

  /** In a legal schedule an operation never runs after one it must complete before. */
  lemma {:induction false} LegalRespectsBefore(p: Program, s: seq<nat>, a: nat, b: nat)
    requires Legal(p, s) && a < |s| && b < |s|
    requires s[a] in Before(p, s[b])
    ensures a < b
    decreases s[b]
  {
    var i, j := s[a], s[b];
    var m :| 0 <= m < j && MustPrecede(p, m, j) && i in Before(p, m) + {m};
    assert m in s;
    var c :| 0 <= c < |s| && s[c] == m;
    if c != a { LegalRespectsBefore(p, s, a, c); }
  }

  lemma {:induction false} ExecAppend(k: Kernel, p: Program, s: seq<nat>, t: seq<nat>, w: World)
    requires Within(s, |p|) && Within(t, |p|)
    ensures Exec(k, p, s + t, w) == Exec(k, p, t, Exec(k, p, s, w))
    decreases |t|
  {
    if t == [] {
      assert s + t == s;
    } else {
      var u := t[..|t| - 1];
      assert (s + t)[..|s + t| - 1] == s + u;
      ExecAppend(k, p, s, u, w);
    }
  }

  lemma {:induction false} EventsHaveNoEffect(k: Kernel, p: Program, s: seq<nat>, w: World)
    requires Within(s, |p|) && forall a | 0 <= a < |s| :: !IsMemory(p[s[a]].op)
    ensures Exec(k, p, s, w) == w
    decreases |s|
  {
    if s != [] { EventsHaveNoEffect(k, p, s[..|s| - 1], w); }
  }

  lemma {:induction false} ExecPrefix(k: Kernel, p: Program, n: nat, s: seq<nat>, w: World)
    requires n <= |p| && Within(s, n)
    ensures Exec(k, p[..n], s, w) == Exec(k, p, s, w)
    decreases |s|
  {
    if s != [] { ExecPrefix(k, p, n, s[..|s| - 1], w); }
  }

  lemma RemovedIsLegal(p: Program, s: seq<nat>, a: nat)
    requires Legal(p, s) && a < |s| && s[a] == |p| - 1
    ensures Legal(p[..|p| - 1], s[..a] + s[a + 1..])
  {
    var n := |p| - 1;
    var t := s[..a] + s[a + 1..];
    forall c | 0 <= c < |t| ensures t[c] == s[if c < a then c else c + 1] && t[c] < n {
      assert s[if c < a then c else c + 1] != s[a];
    }
    forall i | 0 <= i < n ensures i in t {
      assert i in s;
      var c :| 0 <= c < |s| && s[c] == i;
      assert t[if c < a then c else c - 1] == i;
    }
    forall c, d | 0 <= c < d < |t| ensures !MustPrecede(p[..n], t[d], t[c]) && t[c] != t[d] {
      assert !MustPrecede(p, s[if d < a then d else d + 1], s[if c < a then c else c + 1]);
    }
  }

  lemma RaceFreePrefix(p: Program, n: nat)
    requires RaceFree(p) && n <= |p|
    ensures RaceFree(p[..n])
  {
    forall i, j | 0 <= i < j < n && IsMemory(p[i].op) && IsMemory(p[j].op) ensures i in Before(p[..n], j) {
      BeforePrefix(p, n, j);
    }
  }

  /** After the last memory operation issued, a legal schedule of a race-free program runs events only. */
  lemma EventsFollowLast(p: Program, s: seq<nat>, a: nat)
    requires RaceFree(p) && Legal(p, s) && a < |s| && s[a] == |p| - 1 && IsMemory(p[|p| - 1].op)
    ensures forall c | a < c < |s| :: !IsMemory(p[s[c]].op)
  {
    forall c | a < c < |s| ensures !IsMemory(p[s[c]].op) {
      assert s[c] != s[a];
      if IsMemory(p[s[c]].op) {
        assert s[c] in Before(p, s[a]);
        LegalRespectsBefore(p, s, c, a);
      }
    }
  }

  /** The last operation issued can be carried out last without changing the outcome. */
  lemma LastCommutesToEnd(k: Kernel, p: Program, s: seq<nat>, a: nat, w: World)
    requires RaceFree(p) && Legal(p, s) && a < |s| && s[a] == |p| - 1
    ensures Exec(k, p, s, w) == Effect(k, p[|p| - 1].op, Exec(k, p, s[..a] + s[a + 1..], w))
  {
    var n := |p| - 1;
    var head, tail := s[..a], s[a + 1..];
    if IsMemory(p[n].op) { EventsFollowLast(p, s, a); }
    hide RaceFree, MustPrecede;
    assert s == (head + [s[a]]) + tail;
    assert (head + [s[a]])[..a] == head;
    ExecAppend(k, p, head + [s[a]], tail, w);
    ExecAppend(k, p, head, tail, w);
    if IsMemory(p[n].op) {
      EventsHaveNoEffect(k, p, tail, Exec(k, p, head + [s[a]], w));
      EventsHaveNoEffect(k, p, tail, Exec(k, p, head, w));
    }
  }

  /** The main theorem on schedules: without races, every order the device may choose leaves memory and host
      exactly as if each operation had completed before the next was issued. */
  lemma {:induction false} RaceFreeIsDeterministic(k: Kernel, p: Program, s: seq<nat>, w: World)
    requires RaceFree(p) && Legal(p, s)
    ensures Exec(k, p, s, w) == InOrder(k, p, w)
    decreases |p|
  {
    if p != [] {
      var n := |p| - 1;
      assert n in s;
      var a :| 0 <= a < |s| && s[a] == n;
      var rest := s[..a] + s[a + 1..];
      LastCommutesToEnd(k, p, s, a, w);
      RemovedIsLegal(p, s, a);
      RaceFreePrefix(p, n);
      RaceFreeIsDeterministic(k, p[..n], rest, w);
      ExecPrefix(k, p, n, rest, w);
    }
  }
}
