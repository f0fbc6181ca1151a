/** Threads that claim slots with an atomic increment. Each thread with work to do increments the counter of its
    bucket, takes the old value as its slot number, and, when that is below the limit, writes its record into the slot
    one word at a time. Threads take their steps in any order. */
module SlotClaim {
  datatype Task<V> = Idle | Task(bucket: nat, payload: seq<V>)

  /** Slots per bucket, words per slot, and where a word of a slot lives. */
  datatype Layout<A> = Layout(limit: nat, width: nat, at: (nat, nat, nat) -> A)

  datatype Progress = Ready | Holds(id: nat, written: nat)

  datatype State<A, V> = State(counters: seq<nat>, mem: map<A, V>, progress: seq<Progress>)

  ghost predicate Distinct<A(!new)>(l: Layout<A>, buckets: nat) {
    forall b: nat, i: nat, j: nat, b': nat, i': nat, j': nat ::
      (b < buckets && b' < buckets && i < l.limit && i' < l.limit && j < l.width && j' < l.width
       && l.at(b, i, j) == l.at(b', i', j')) ==> (b == b' && i == i' && j == j')
  }

  ghost predicate Fits<A(!new), V>(tasks: seq<Task<V>>, l: Layout<A>, buckets: nat) {
    && Distinct(l, buckets)
    && forall t | 0 <= t < |tasks| && tasks[t].Task? :: tasks[t].bucket < buckets && |tasks[t].payload| <= l.width
  }

  function Start<A, V>(n: nat, buckets: nat, mem: map<A, V>): State<A, V> {
    State(seq(buckets, _ => 0), mem, seq(n, _ => Ready))
  }

  /** The next atomic step of thread t; nothing when it has none. */
  function Step<A, V>(tasks: seq<Task<V>>, l: Layout<A>, s: State<A, V>, t: nat): State<A, V> {
    if t >= |tasks| || t >= |s.progress| || tasks[t].Idle? || tasks[t].bucket >= |s.counters| then s
    else
      var b, payload := tasks[t].bucket, tasks[t].payload;
      match s.progress[t]
      case Ready =>
        s.(counters := s.counters[b := s.counters[b] + 1], progress := s.progress[t := Holds(s.counters[b], 0)])
      case Holds(id, k) =>
        if id < l.limit && k < |payload|
        then s.(mem := s.mem[l.at(b, id, k) := payload[k]], progress := s.progress[t := Holds(id, k + 1)])
        else s
  }

  function Run<A, V>(tasks: seq<Task<V>>, l: Layout<A>, s: State<A, V>, schedule: seq<nat>): State<A, V> {
    if schedule == [] then s
    else Step(tasks, l, Run(tasks, l, s, schedule[..|schedule| - 1]), schedule[|schedule| - 1])
  }

  /** Every thread with work has its slot and has written what it is going to write. */
  ghost predicate Finished<A, V>(tasks: seq<Task<V>>, l: Layout<A>, s: State<A, V>) {
    |s.progress| == |tasks| && forall t | 0 <= t < |tasks| && tasks[t].Task? ::
      s.progress[t].Holds? && (s.progress[t].id < l.limit ==> s.progress[t].written == |tasks[t].payload|)
  }

  // ── What every interleaving keeps ────────────────────────────────────

  ghost predicate Owns<A, V>(tasks: seq<Task<V>>, s: State<A, V>, b: nat, id: nat, t: nat) {
    t < |tasks| && t < |s.progress| && tasks[t].Task? && tasks[t].bucket == b && s.progress[t].Holds?
    && s.progress[t].id == id
  }

  ghost predicate Taken<A, V>(tasks: seq<Task<V>>, s: State<A, V>, b: nat, id: nat) {
    exists t: nat :: Owns(tasks, s, b, id, t)
  }

  ghost function Claimants<A, V>(tasks: seq<Task<V>>, s: State<A, V>, b: nat): set<nat> {
    set t | 0 <= t < |tasks| && t < |s.progress| && tasks[t].Task? && tasks[t].bucket == b && s.progress[t].Holds?
  }

  ghost predicate Counted<A, V>(tasks: seq<Task<V>>, s: State<A, V>) {
    && (forall b | 0 <= b < |s.counters| :: s.counters[b] == |Claimants(tasks, s, b)|)
    && (forall b: nat, id: nat, t: nat | b < |s.counters| && Owns(tasks, s, b, id, t) :: id < s.counters[b])
    && (forall b: nat, id: nat, t: nat, t': nat | Owns(tasks, s, b, id, t) && Owns(tasks, s, b, id, t') :: t == t')
    && (forall b: nat, id: nat | 0 <= b < |s.counters| && 0 <= id < s.counters[b] :: Taken(tasks, s, b, id))
  }

  ghost predicate Wrote<A, V>(tasks: seq<Task<V>>, l: Layout<A>, s: State<A, V>, t: nat, j: nat) {
    t < |tasks| && t < |s.progress| && tasks[t].Task? && s.progress[t].Holds? && s.progress[t].id < l.limit
    && j < s.progress[t].written && j < |tasks[t].payload|
  }

  ghost predicate SameAt<A, V>(m: map<A, V>, n: map<A, V>, a: A) {
    (a in m <==> a in n) && (a in m ==> m[a] == n[a])
  }

  ghost predicate Stored<A(!new), V>(tasks: seq<Task<V>>, l: Layout<A>, start: map<A, V>, s: State<A, V>) {
    && (forall t | 0 <= t < |tasks| && t < |s.progress| && s.progress[t].Holds? ::
          tasks[t].Task? && s.progress[t].written <= |tasks[t].payload|
          && (s.progress[t].id >= l.limit ==> s.progress[t].written == 0))
    && (forall t: nat, j: nat | Wrote(tasks, l, s, t, j) ::
          var a := l.at(tasks[t].bucket, s.progress[t].id, j); a in s.mem && s.mem[a] == tasks[t].payload[j])
    && (forall a :: SameAt(s.mem, start, a)
          || exists t: nat, j: nat :: Wrote(tasks, l, s, t, j) && l.at(tasks[t].bucket, s.progress[t].id, j) == a)
  }

  ghost predicate Inv<A(!new), V>(tasks: seq<Task<V>>, l: Layout<A>, start: map<A, V>, buckets: nat, s: State<A, V>) {
    |s.counters| == buckets && |s.progress| == |tasks| && Counted(tasks, s) && Stored(tasks, l, start, s)
  }

  lemma StartEstablishes<A(!new), V>(tasks: seq<Task<V>>, l: Layout<A>, buckets: nat, mem: map<A, V>)
    ensures Inv(tasks, l, mem, buckets, Start(|tasks|, buckets, mem))
  {
    var s := Start(|tasks|, buckets, mem);
    forall b: nat | b < buckets ensures Claimants(tasks, s, b) == {} {}
    forall a ensures SameAt(s.mem, mem, a) {}
  }

  lemma ClaimAddsClaimant<A, V>(tasks: seq<Task<V>>, l: Layout<A>, s: State<A, V>, t: nat, b: nat)
    requires |s.progress| == |tasks| && t < |tasks| && tasks[t].Task? && tasks[t].bucket < |s.counters|
    requires s.progress[t].Ready?
    ensures |Claimants(tasks, Step(tasks, l, s, t), b)| == |Claimants(tasks, s, b)| + if tasks[t].bucket == b then 1
            else 0
  {
    assert Claimants(tasks, Step(tasks, l, s, t), b) == Claimants(tasks, s, b) + if tasks[t].bucket == b then {t}
           else {};
    assert t !in Claimants(tasks, s, b);
  }

  lemma ClaimCounts<A, V>(tasks: seq<Task<V>>, l: Layout<A>, s: State<A, V>, t: nat)
    requires Counted(tasks, s) && |s.progress| == |tasks| && t < |tasks|
    requires tasks[t].Task? && tasks[t].bucket < |s.counters| && s.progress[t].Ready?
    ensures Counted(tasks, Step(tasks, l, s, t))
  {
    var s', b := Step(tasks, l, s, t), tasks[t].bucket;
    hide Claimants;
    forall b' | 0 <= b' < |s.counters| ensures s'.counters[b'] == |Claimants(tasks, s', b')| {
      ClaimAddsClaimant(tasks, l, s, t, b');
    }
    forall b': nat, id: nat, u: nat | Owns(tasks, s', b', id, u)
      ensures (u == t && b' == b && id == s.counters[b]) || (u != t && Owns(tasks, s, b', id, u)) {}
    forall b': nat, id: nat | 0 <= b' < |s.counters| && 0 <= id < s'.counters[b'] ensures Taken(tasks, s', b', id) {
      if b' == b && id == s.counters[b] {
        assert Owns(tasks, s', b', id, t);
      } else {
        assert Taken(tasks, s, b', id);
        var u: nat :| Owns(tasks, s, b', id, u);
        assert Owns(tasks, s', b', id, u);
      }
    }
  }

  lemma WriteCounts<A, V>(tasks: seq<Task<V>>, l: Layout<A>, s: State<A, V>, t: nat)
    requires Counted(tasks, s) && |s.progress| == |tasks| && t < |tasks| && s.progress[t].Holds?
    ensures Counted(tasks, Step(tasks, l, s, t))
  {
    var s' := Step(tasks, l, s, t);
    assert s'.counters == s.counters;
    forall b: nat ensures Claimants(tasks, s', b) == Claimants(tasks, s, b) {}
    forall b: nat, id: nat, u: nat ensures Owns(tasks, s', b, id, u) <==> Owns(tasks, s, b, id, u) {}
    forall b: nat, id: nat | 0 <= b < |s.counters| && 0 <= id < s'.counters[b] ensures Taken(tasks, s', b, id) {
      assert Taken(tasks, s, b, id);
      var u: nat :| Owns(tasks, s, b, id, u);
      assert Owns(tasks, s', b, id, u);
    }
  }

  lemma ClaimStores<A(!new), V>(tasks: seq<Task<V>>, l: Layout<A>, start: map<A, V>, s: State<A, V>, t: nat)
    requires Stored(tasks, l, start, s) && |s.progress| == |tasks| && t < |tasks|
    requires tasks[t].Task? && tasks[t].bucket < |s.counters| && s.progress[t].Ready?
    ensures Stored(tasks, l, start, Step(tasks, l, s, t))
  {
    var s' := Step(tasks, l, s, t);
    forall u: nat, j: nat ensures Wrote(tasks, l, s', u, j) <==> Wrote(tasks, l, s, u, j) {}
    forall a | !SameAt(s.mem, start, a)
      ensures exists u: nat, j: nat :: Wrote(tasks, l, s', u, j) && l.at(tasks[u].bucket, s'.progress[u].id, j) == a
    {
      var u: nat, j: nat :| Wrote(tasks, l, s, u, j) && l.at(tasks[u].bucket, s.progress[u].id, j) == a;
      assert Wrote(tasks, l, s', u, j);
    }
  }

  lemma WriteStores<A(!new), V>(tasks: seq<Task<V>>, l: Layout<A>, start: map<A, V>, s: State<A, V>, t: nat)
    requires Fits(tasks, l, |s.counters|) && Counted(tasks, s) && Stored(tasks, l, start, s)
    requires |s.progress| == |tasks| && t < |tasks| && s.progress[t].Holds?
    ensures Stored(tasks, l, start, Step(tasks, l, s, t))
  {
    var s' := Step(tasks, l, s, t);
    var id, k := s.progress[t].id, s.progress[t].written;
    if id < l.limit && k < |tasks[t].payload| {
      var a0 := l.at(tasks[t].bucket, id, k);
      forall u: nat, j: nat | Wrote(tasks, l, s', u, j)
        ensures var a := l.at(tasks[u].bucket, s'.progress[u].id, j); a in s'.mem && s'.mem[a] == tasks[u].payload[j]
      {
        if u != t || j != k {
          assert Wrote(tasks, l, s, u, j);
          assert Owns(tasks, s, tasks[u].bucket, s.progress[u].id, u) && Owns(tasks, s, tasks[t].bucket, id, t);
          assert l.at(tasks[u].bucket, s.progress[u].id, j) != a0;
        }
      }
      forall a | !SameAt(s'.mem, start, a)
        ensures exists u: nat, j: nat :: Wrote(tasks, l, s', u, j) && l.at(tasks[u].bucket, s'.progress[u].id, j) == a
      {
        if a == a0 {
          assert Wrote(tasks, l, s', t, k);
        } else {
          assert !SameAt(s.mem, start, a);
          var u: nat, j: nat :| Wrote(tasks, l, s, u, j) && l.at(tasks[u].bucket, s.progress[u].id, j) == a;
          assert Wrote(tasks, l, s', u, j);
        }
      }
    }
  }

  lemma StepKeeps<A(!new), V>(tasks: seq<Task<V>>, l: Layout<A>, start: map<A, V>, buckets: nat, s: State<A, V>, t: nat)
    requires Fits(tasks, l, buckets) && Inv(tasks, l, start, buckets, s)
    ensures Inv(tasks, l, start, buckets, Step(tasks, l, s, t))
  {
    hide Counted, Stored, Distinct;
    if t < |tasks| && tasks[t].Task? {
      if s.progress[t].Ready? {
        ClaimCounts(tasks, l, s, t);
        ClaimStores(tasks, l, start, s, t);
      } else {
        WriteCounts(tasks, l, s, t);
        WriteStores(tasks, l, start, s, t);
      }
    }
  }

  /** The slot invariant holds after every schedule. */
  lemma {:induction false} RunKeeps<A(!new), V>(tasks: seq<Task<V>>, l: Layout<A>, buckets: nat, mem: map<A, V>,
                                                schedule: seq<nat>)
    requires Fits(tasks, l, buckets)
    ensures Inv(tasks, l, mem, buckets, Run(tasks, l, Start(|tasks|, buckets, mem), schedule))
  {
    hide Inv, Fits, Step;
    if schedule == [] {
      StartEstablishes(tasks, l, buckets, mem);
    } else {
      var n := |schedule| - 1;
      RunKeeps(tasks, l, buckets, mem, schedule[..n]);
      StepKeeps(tasks, l, mem, buckets, Run(tasks, l, Start(|tasks|, buckets, mem), schedule[..n]), schedule[n]);
    }
  }

  // ── What is there when all threads are done ──────────────────────────

  ghost function Members<V>(tasks: seq<Task<V>>, b: nat): set<nat> {
    set t | 0 <= t < |tasks| && tasks[t].Task? && tasks[t].bucket == b
  }

  /** The owners of a bucket's slots in slot order: every thread of the bucket, once. */
  ghost predicate Lists<V>(tasks: seq<Task<V>>, b: nat, owners: seq<nat>) {
    && |owners| == |Members(tasks, b)|
    && (forall i | 0 <= i < |owners| :: owners[i] in Members(tasks, b))
    && (forall i, j | 0 <= i < j < |owners| :: owners[i] != owners[j])
    && (forall t | t in Members(tasks, b) :: t in owners)
  }

  ghost predicate Record<A, V>(l: Layout<A>, mem: map<A, V>, b: nat, i: nat, payload: seq<V>) {
    forall j | 0 <= j < |payload| :: l.at(b, i, j) in mem && mem[l.at(b, i, j)] == payload[j]
  }

  /** Bucket b is complete: its counter is the number of its threads, and its slots below the limit hold whole records
      of distinct threads of the bucket, in the order of `owners`. */
  ghost predicate Filled<A, V>(tasks: seq<Task<V>>, l: Layout<A>, s: State<A, V>, b: nat, owners: seq<nat>) {
    && b < |s.counters| && Lists(tasks, b, owners) && s.counters[b] == |owners|
    && forall i | 0 <= i < |owners| && i < l.limit :: Record(l, s.mem, b, i, tasks[owners[i]].payload)
  }

  ghost predicate Complete<A, V>(tasks: seq<Task<V>>, l: Layout<A>, s: State<A, V>, b: nat) {
    exists owners :: Filled(tasks, l, s, b, owners)
  }

  ghost function Owner<A, V>(tasks: seq<Task<V>>, s: State<A, V>, b: nat, i: nat): (t: nat)
    requires Taken(tasks, s, b, i)
    ensures Owns(tasks, s, b, i, t)
  {
    var t: nat :| Owns(tasks, s, b, i, t);
    t
  }

  lemma SlotsAreFilled<A(!new), V>(tasks: seq<Task<V>>, l: Layout<A>, start: map<A, V>, buckets: nat, s: State<A, V>,
                                   b: nat)
    returns (owners: seq<nat>)
    requires Inv(tasks, l, start, buckets, s) && Finished(tasks, l, s) && b < buckets
    ensures Filled(tasks, l, s, b, owners)
  {
    owners := seq(s.counters[b],
                  i requires 0 <= i < s.counters[b] => assert Taken(tasks, s, b, i); Owner(tasks, s, b, i));
    assert Claimants(tasks, s, b) == Members(tasks, b);
    forall i | 0 <= i < |owners| ensures Owns(tasks, s, b, i, owners[i]) && owners[i] in Members(tasks, b) {
      assert owners[i] == Owner(tasks, s, b, i);
    }
    forall t | t in Members(tasks, b) ensures t in owners {
      var i := s.progress[t].id;
      assert Owns(tasks, s, b, i, t);
      assert owners[i] == t;
    }
    forall i | 0 <= i < |owners| && i < l.limit ensures Record(l, s.mem, b, i, tasks[owners[i]].payload) {
      var t := owners[i];
      forall j | 0 <= j < |tasks[t].payload|
        ensures l.at(b, i, j) in s.mem && s.mem[l.at(b, i, j)] == tasks[t].payload[j]
      {
        assert Wrote(tasks, l, s, t, j);
      }
    }
  }

  /** Whatever the interleaving: once all threads are done, each bucket's counter is the number of its threads, its
      first min(count, limit) slots hold whole records of distinct threads, and nothing else has changed. */
  lemma EveryScheduleFills<A(!new), V>(tasks: seq<Task<V>>, l: Layout<A>, buckets: nat, mem: map<A, V>,
                                       schedule: seq<nat>)
    requires Fits(tasks, l, buckets)
    requires Finished(tasks, l, Run(tasks, l, Start(|tasks|, buckets, mem), schedule))
    ensures var s := Run(tasks, l, Start(|tasks|, buckets, mem), schedule);
            && |s.counters| == buckets
            && (forall b: nat | b < buckets :: Complete(tasks, l, s, b))
            && (forall a :: SameAt(s.mem, mem, a)
                            || exists b: nat, i: nat, j: nat ::
                              b < buckets && i < l.limit && i < s.counters[b] && j < l.width && l.at(b, i, j) == a)
  {
    var s := Run(tasks, l, Start(|tasks|, buckets, mem), schedule);
    hide Run, Finished, Filled;
    RunKeeps(tasks, l, buckets, mem, schedule);
    forall b: nat | b < buckets ensures Complete(tasks, l, s, b) {
      var owners := SlotsAreFilled(tasks, l, mem, buckets, s, b);
    }
    forall a | !SameAt(s.mem, mem, a)
      ensures exists b: nat, i: nat, j: nat ::
                b < buckets && i < l.limit && i < s.counters[b] && j < l.width && l.at(b, i, j) == a
    {
      var t: nat, j: nat :| Wrote(tasks, l, s, t, j) && l.at(tasks[t].bucket, s.progress[t].id, j) == a;
      assert Owns(tasks, s, tasks[t].bucket, s.progress[t].id, t);
      assert tasks[t].bucket < buckets && s.progress[t].id < s.counters[tasks[t].bucket] && j < l.width;
    }
  }

  /** When a bucket has no more threads than slots, its slots are a permutation of its threads' records. */
  lemma FullBucketsKeepEverything<A(!new), V>(tasks: seq<Task<V>>, l: Layout<A>, s: State<A, V>, b: nat,
                                              owners: seq<nat>, t: nat)
    requires Filled(tasks, l, s, b, owners) && |Members(tasks, b)| <= l.limit && t in Members(tasks, b)
    ensures exists i :: 0 <= i < s.counters[b] && owners[i] == t && Record(l, s.mem, b, i, tasks[t].payload)
    ensures forall i, j | 0 <= i < j < s.counters[b] :: owners[i] != owners[j]
  {
    var i :| 0 <= i < |owners| && owners[i] == t;
    assert Record(l, s.mem, b, i, tasks[owners[i]].payload);
  }

  /** A slot number is never larger than the number of other threads of the bucket, at any moment of any run. */
  lemma SlotNumbersAreBounded<A(!new), V>(tasks: seq<Task<V>>, l: Layout<A>, start: map<A, V>, buckets: nat,
                                          s: State<A, V>, t: nat)
    requires Inv(tasks, l, start, buckets, s) && Fits(tasks, l, buckets) && t < |tasks| && s.progress[t].Holds?
    ensures tasks[t].Task? && s.progress[t].id < |Members(tasks, tasks[t].bucket)|
  {
    var b := tasks[t].bucket;
    assert Owns(tasks, s, b, s.progress[t].id, t);
    assert Claimants(tasks, s, b) <= Members(tasks, b);
    Cardinality(Claimants(tasks, s, b), Members(tasks, b));
  }

  lemma Cardinality(a: set<nat>, b: set<nat>)
    requires a <= b
    ensures |a| <= |b|
  {
    assert b == a + (b - a);
  }

  // ── Some schedule finishes ───────────────────────────────────────────

  ghost predicate Done<A, V>(tasks: seq<Task<V>>, l: Layout<A>, s: State<A, V>, t: nat) {
    t < |tasks| == |s.progress|
    && (tasks[t].Task? ==>
          s.progress[t].Holds? && (s.progress[t].id < l.limit ==> s.progress[t].written == |tasks[t].payload|))
  }

  ghost predicate Runnable<A, V>(tasks: seq<Task<V>>, s: State<A, V>) {
    && |s.progress| == |tasks|
    && forall t | 0 <= t < |tasks| && tasks[t].Task? ::
         tasks[t].bucket < |s.counters| && (s.progress[t].Holds? ==> s.progress[t].written <= |tasks[t].payload|)
  }

  lemma {:induction false} RunCons<A, V>(tasks: seq<Task<V>>, l: Layout<A>, s: State<A, V>, t: nat, rest: seq<nat>)
    ensures Run(tasks, l, s, [t] + rest) == Run(tasks, l, Step(tasks, l, s, t), rest)
  {
    hide Step;
    var all := [t] + rest;
    if rest == [] {
      assert all[..0] == [];
    } else {
      var n := |rest| - 1;
      assert all[..|all| - 1] == [t] + rest[..n];
      RunCons(tasks, l, s, t, rest[..n]);
    }
  }

  /** Thread t alone can always go on to its end, whatever the others have done. */
  lemma {:induction false} FinishThread<A, V>(tasks: seq<Task<V>>, l: Layout<A>, s: State<A, V>, t: nat)
    returns (schedule: seq<nat>)
    requires Runnable(tasks, s) && t < |tasks|
    ensures var s' := Run(tasks, l, s, schedule);
            Runnable(tasks, s') && Done(tasks, l, s', t) && s'.progress == s.progress[t := s'.progress[t]]
    ensures forall i | 0 <= i < |schedule| :: schedule[i] == t
    decreases if s.progress[t].Ready? then 1 else 0,
              if s.progress[t].Holds? && tasks[t].Task? then |tasks[t].payload| - s.progress[t].written else 0
  {
    if Done(tasks, l, s, t) {
      schedule := [];
    } else {
      var s1 := Step(tasks, l, s, t);
      var rest := FinishThread(tasks, l, s1, t);
      schedule := [t] + rest;
      RunCons(tasks, l, s, t, rest);
    }
  }

  lemma {:induction false} RunAppend<A, V>(tasks: seq<Task<V>>, l: Layout<A>, s: State<A, V>, a: seq<nat>, b: seq<nat>)
    ensures Run(tasks, l, s, a + b) == Run(tasks, l, Run(tasks, l, s, a), b)
  {
    hide Step;
    if b == [] {
      assert a + b == a;
    } else {
      var n := |b| - 1;
      assert (a + b)[..|a + b| - 1] == a + b[..n];
      RunAppend(tasks, l, s, a, b[..n]);
    }
  }

  lemma {:induction false} FinishUpTo<A, V>(tasks: seq<Task<V>>, l: Layout<A>, s: State<A, V>, n: nat)
    returns (schedule: seq<nat>)
    requires Runnable(tasks, s) && n <= |tasks|
    ensures var s' := Run(tasks, l, s, schedule); Runnable(tasks, s') && forall t | 0 <= t < n :: Done(tasks, l, s', t)
    ensures forall i | 0 <= i < |schedule| :: schedule[i] < n
  {
    if n == 0 {
      schedule := [];
    } else {
      var before := FinishUpTo(tasks, l, s, n - 1);
      var s1 := Run(tasks, l, s, before);
      var last := FinishThread(tasks, l, s1, n - 1);
      schedule := before + last;
      RunAppend(tasks, l, s, before, last);
      hide Run, Step;
      forall t | 0 <= t < n ensures Done(tasks, l, Run(tasks, l, s, schedule), t) {
        assert t < n - 1 ==> Done(tasks, l, s1, t);
      }
    }
  }

  /** From every state reachable by any schedule, some continuation finishes: no interleaving gets stuck. */
  lemma EveryRunCanFinish<A(!new), V>(tasks: seq<Task<V>>, l: Layout<A>, buckets: nat, mem: map<A, V>, sofar: seq<nat>)
    returns (rest: seq<nat>)
    requires Fits(tasks, l, buckets)
    ensures Finished(tasks, l, Run(tasks, l, Start(|tasks|, buckets, mem), sofar + rest))
    ensures forall i | 0 <= i < |rest| :: rest[i] < |tasks|
  {
    var start := Start(|tasks|, buckets, mem);
    RunKeeps(tasks, l, buckets, mem, sofar);
    var s := Run(tasks, l, start, sofar);
    hide Run, Step, Distinct, Counted;
    rest := FinishUpTo(tasks, l, s, |tasks|);
    RunAppend(tasks, l, start, sofar, rest);
    var s' := Run(tasks, l, s, rest);
    forall t | 0 <= t < |tasks| && tasks[t].Task?
      ensures s'.progress[t].Holds? && (s'.progress[t].id < l.limit ==> s'.progress[t].written == |tasks[t].payload|)
    {
      assert Done(tasks, l, s', t);
    }
  }
}
