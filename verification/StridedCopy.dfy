/** A block of threads copying a row: thread t takes the elements t, t + width, t + 2 * width and so on. */
module StridedCopy {
  import FlatIndex
  import opened ThreadOrder
  import opened RowBuffer

  const BlockThreads := 256

  /** The elements thread t visits, in the order it visits them. */
  method Visits(t: nat, n: nat) returns (visited: seq<nat>)
    requires t < BlockThreads
    ensures forall h: nat :: h in visited <==> h < n && h % BlockThreads == t
    ensures forall i, j | 0 <= i < j < |visited| :: visited[i] < visited[j]
  {
    visited := [];
    var h := t;
    while h < n
      invariant h == t + |visited| * BlockThreads
      invariant forall i | 0 <= i < |visited| :: visited[i] == Element(t, i) < n
    {
      visited := visited + [h];
      h := h + BlockThreads;
    }
    forall k: nat ensures k in visited <==> k < n && k % BlockThreads == t {
      if k < n && k % BlockThreads == t {
        assert visited[k / BlockThreads] == k;
      }
    }
  }

  /** The element of thread t's k-th iteration. */
  function Element(t: nat, k: nat): nat {
    t + k * BlockThreads
  }

  /** Every element is one iteration of exactly one thread. */
  lemma OneIterationPerElement(h: nat)
    ensures h % BlockThreads < BlockThreads && h == Element(h % BlockThreads, h / BlockThreads)
    ensures forall t: nat, k: nat | t < BlockThreads && h == Element(t, k) ::
              t == h % BlockThreads && k == h / BlockThreads
  {
    forall t: nat, k: nat | t < BlockThreads && h == Element(t, k)
      ensures t == h % BlockThreads && k == h / BlockThreads {
      FlatIndex.Split(BlockThreads, k, t);
    }
  }

  /** All iterations of all threads, in any order, copy the row and touch nothing else. */
  method Copy<T>(source: seq<T>, from: nat, target: array<T>, to: nat, n: nat, order: seq<nat>)
    requires from + n <= |source| && to + n <= target.Length && Listing(order, n)
    modifies target
    ensures Overwritten(old(target[..]), target[..], to, source[from..from + n])
  {
    var k := 0;
    while k < n
      invariant k <= n
      invariant forall i | 0 <= i < k :: target[to + order[i]] == source[from + order[i]]
      invariant target[..to] == old(target[..to]) && target[to + n..] == old(target[to + n..])
    {
      var h := order[k];
      target[to + h] := source[from + h];
      k := k + 1;
    }
    var copied, row := target[to..to + n], source[from..from + n];
    forall h | 0 <= h < n ensures copied[h] == row[h] {
      assert h in order;
    }
  }
}
