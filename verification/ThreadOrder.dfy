/** The order in which threads arrive: any sequence that lists each of them once. */
module ThreadOrder {
  ghost predicate Listing(order: seq<nat>, n: nat) {
    && |order| == n
    && (forall i | 0 <= i < |order| :: order[i] < n)
    && (forall i, j | 0 <= i < j < |order| :: order[i] != order[j])
    && (forall t: nat | t < n :: t in order)
  }

  lemma ListingAt(order: seq<nat>, n: nat, i: nat)
    requires Listing(order, n) && i < n
    ensures order[i] < n && order[i] !in order[..i]
  {
  }

  function Sum(xs: seq<real>): real {
    if xs == [] then 0.0 else Sum(xs[..|xs| - 1]) + xs[|xs| - 1]
  }

  function Arranged(xs: seq<real>, order: seq<nat>): (r: seq<real>)
    requires forall i | 0 <= i < |order| :: order[i] < |xs|
    ensures |r| == |order|
  {
    seq(|order|, i requires 0 <= i < |order| => xs[order[i]])
  }

  lemma {:induction false} SumRemove(xs: seq<real>, i: nat)
    requires i < |xs|
    ensures Sum(xs) == Sum(xs[..i] + xs[i + 1..]) + xs[i]
  {
    var n := |xs| - 1;
    var rest := xs[..i] + xs[i + 1..];
    if i == n {
      assert rest == xs[..n];
    } else {
      SumRemove(xs[..n], i);
      assert rest[..|rest| - 1] == xs[..n][..i] + xs[..n][i + 1..];
    }
  }

  lemma ListingRemove(order: seq<nat>, n: nat, i: nat)
    requires n > 0 && Listing(order, n) && i < n && order[i] == n - 1
    ensures Listing(order[..i] + order[i + 1..], n - 1)
  {
    var rest := order[..i] + order[i + 1..];
    forall t: nat | t < n - 1 ensures t in rest {
      assert t in order;
      var k :| 0 <= k < n && order[k] == t;
      assert rest[if k < i then k else k - 1] == t;
    }
  }

  lemma ArrangedRemove(xs: seq<real>, order: seq<nat>, i: nat, rest: seq<nat>)
    requires |xs| > 0 && Listing(order, |xs|) && i < |xs| && order[i] == |xs| - 1
    requires rest == order[..i] + order[i + 1..] && Listing(rest, |xs| - 1)
    ensures Arranged(xs[..|xs| - 1], rest) == Arranged(xs, order)[..i] + Arranged(xs, order)[i + 1..]
  {
  }

  /** Reals can be added up in any order. */
  lemma {:induction false} AnyOrderSums(xs: seq<real>, order: seq<nat>)
    requires Listing(order, |xs|)
    ensures Sum(Arranged(xs, order)) == Sum(xs)
  {
    var n := |xs|;
    if n > 0 {
      assert n - 1 in order;
      var i: nat :| i < n && order[i] == n - 1;
      var rest := order[..i] + order[i + 1..];
      ListingRemove(order, n, i);
      ArrangedRemove(xs, order, i, rest);
      AnyOrderSums(xs[..n - 1], rest);
      SumRemove(Arranged(xs, order), i);
    }
  }

  /** Deviations from the mean cancel. */
  lemma {:induction false} SumShift(xs: seq<real>, ys: seq<real>, d: real)
    requires |xs| == |ys| && forall i | 0 <= i < |xs| :: ys[i] == xs[i] - d
    ensures Sum(ys) == Sum(xs) - |xs| as real * d
  {
    if xs != [] {
      SumShift(xs[..|xs| - 1], ys[..|ys| - 1], d);
    }
  }
}
