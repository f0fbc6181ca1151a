/** Looking up token embeddings: one block per token copies the token's row of the table. */
module Gather {
  import FlatIndex
  import opened ThreadOrder
  import opened RowBuffer
  import StridedCopy

  type Half = nat

  /** The launch argument is an unsigned int. */
  const GridRange := 0x1_0000_0000
  /** More blocks than this, or none, is a launch error. */
  const MaxBlocks := 0x7FFF_FFFF

  datatype Input = Input(ids: seq<int>, table: seq<Half>, vocabulary: int, hidden: int, batch: int, length: int)
  {
    function Tokens(): int {
      batch * length
    }

    predicate Positive() {
      vocabulary > 0 && hidden > 0 && batch > 0 && length > 0
    }

    ghost predicate For(output: seq<Half>) {
      Positive() ==>
        Tokens() > 0 && |ids| == Tokens() && Rows(table, hidden, vocabulary) && Rows(output, hidden, Tokens())
    }

    predicate InRange(t: nat)
      requires t < |ids|
    {
      0 <= ids[t] < vocabulary
    }

    function Blocks(): nat
      requires Tokens() >= 0
    {
      Tokens() % GridRange
    }
  }

  /** The output row of a token: its table row when the id is in range, what was there otherwise. */
  function Gathered(x: Input, before: seq<Half>, t: nat): seq<Half>
    requires x.Positive() && x.For(before) && t < |x.ids|
  {
    if x.InRange(t) then Row(x.table, x.hidden, x.vocabulary, x.ids[t]) else Row(before, x.hidden, x.Tokens(), t)
  }

  /** Only token t's row changes, to what it gathers. */
  ghost predicate GathersOne(x: Input, before: seq<Half>, after: seq<Half>, t: nat)
    requires x.Positive() && x.For(before) && x.For(after) && t < x.Tokens()
  {
    forall k: nat | k < x.Tokens() ::
      Row(after, x.hidden, x.Tokens(), k) == if k == t then Gathered(x, before, t)
        else Row(before, x.hidden, x.Tokens(), k)
  }

  /** One block; its threads' iterations happen in any order. */
  method Block(x: Input, t: nat, output: array<Half>, order: seq<nat>) returns (error: bool)
    requires x.Positive() && x.For(output[..]) && Listing(order, x.hidden)
    modifies output
    ensures x.For(output[..]) && (t < x.Tokens() ==> error == !x.InRange(t))
    ensures t >= x.Tokens() ==> !error && output[..] == old(output[..])
    ensures t < x.Tokens() ==> GathersOne(x, old(output[..]), output[..], t)
  {
    if t >= x.Tokens() { return false; }
    if x.ids[t] < 0 || x.ids[t] >= x.vocabulary { return true; }
    ghost var row := Row(x.table, x.hidden, x.vocabulary, x.ids[t]);
    FlatIndex.Grows(x.hidden, t, x.Tokens());
    StridedCopy.Copy(x.table, x.ids[t] * x.hidden, output, t * x.hidden, x.hidden, order);
    RowReplaced(old(output[..]), output[..], x.hidden, x.Tokens(), t, row);
    return false;
  }

  /** The listed tokens' rows are gathered, the others as before. */
  ghost predicate GatheredSoFar(x: Input, before: seq<Half>, now: seq<Half>, done: seq<nat>)
    requires x.Positive() && x.For(before) && x.For(now)
  {
    forall t: nat | t < x.Tokens() ::
      Row(now, x.hidden, x.Tokens(), t) == if t in done then Gathered(x, before, t)
        else Row(before, x.hidden, x.Tokens(), t)
  }

  ghost predicate AnyBad(x: Input, done: seq<nat>) {
    exists t :: t in done && t < |x.ids| && !x.InRange(t)
  }

  lemma OneMore(x: Input, before: seq<Half>, now: seq<Half>, after: seq<Half>, done: seq<nat>, t: nat)
    requires x.Positive() && x.For(before) && x.For(now) && x.For(after) && t < x.Tokens() && t !in done
    requires GatheredSoFar(x, before, now, done)
    requires GathersOne(x, now, after, t)
    ensures GatheredSoFar(x, before, after, done + [t])
    ensures AnyBad(x, done + [t]) <==> AnyBad(x, done) || !x.InRange(t)
  {
    hide Row;
    if AnyBad(x, done) {
      var k :| k in done && k < |x.ids| && !x.InRange(k);
      assert k in done + [t];
    }
    assert t in done + [t];
  }

  lemma AnyBadListed(x: Input, blocks: seq<nat>, n: nat)
    requires Listing(blocks, n) && n <= |x.ids|
    ensures AnyBad(x, blocks) <==> exists t :: 0 <= t < n && !(0 <= x.ids[t] < x.vocabulary)
  {
    assert forall t: nat | t < n :: x.InRange(t) <==> 0 <= x.ids[t] < x.vocabulary;
  }

  /** Row t of the output is row ids[t] of the table, if the grid reaches token t and its id is in range, and is as
      before otherwise. */
  ghost predicate TakesRow(x: Input, before: seq<Half>, out: seq<Half>, t: nat) {
    t < |x.ids|
    && if t < x.batch * x.length % 0x1_0000_0000 && 0 <= x.ids[t] < x.vocabulary
       then SameStretch(out, t * x.hidden, x.table, x.ids[t] * x.hidden, x.hidden)
       else SameStretch(out, t * x.hidden, before, t * x.hidden, x.hidden)
  }

  lemma RowsTaken(x: Input, before: seq<Half>, out: seq<Half>, blocks: seq<nat>)
    requires x.Positive() && x.For(before) && x.For(out) && Listing(blocks, x.Blocks())
    requires GatheredSoFar(x, before, out, blocks)
    ensures forall t: nat | t < x.batch * x.length :: TakesRow(x, before, out, t)
  {
    forall t: nat | t < x.batch * x.length ensures TakesRow(x, before, out, t) {
      RowTaken(x, before, out, blocks, t);
    }
  }

  lemma RowTaken(x: Input, before: seq<Half>, out: seq<Half>, blocks: seq<nat>, t: nat)
    requires x.Positive() && x.For(before) && x.For(out) && Listing(blocks, x.Blocks()) && t < x.Tokens()
    requires GatheredSoFar(x, before, out, blocks)
    ensures TakesRow(x, before, out, t)
  {
    assert t in blocks <==> t < x.batch * x.length % 0x1_0000_0000;
    assert Row(out, x.hidden, x.Tokens(), t) == if t in blocks then Gathered(x, before, t)
        else Row(before, x.hidden, x.Tokens(), t);
    hide Row, SameStretch, Rows, GatheredSoFar, Listing;
    if t < x.batch * x.length % 0x1_0000_0000 && 0 <= x.ids[t] < x.vocabulary {
      RowsAreStretches(out, x.table, x.hidden, x.Tokens(), x.vocabulary, t, x.ids[t]) by { RowsOf(x, before, out); }
    } else {
      RowsAreStretches(out, before, x.hidden, x.Tokens(), x.Tokens(), t, t) by { RowsOf(x, before, out); }
    }
  }

  lemma RowsOf(x: Input, before: seq<Half>, out: seq<Half>)
    requires x.Positive() && x.For(before) && x.For(out)
    ensures Rows(x.table, x.hidden, x.vocabulary) && Rows(before, x.hidden, x.Tokens())
    ensures Rows(out, x.hidden, x.Tokens())
  {
  }

  /** The launcher, its blocks in any order; absent CUDA errors other than an impossible grid. It reports success
      exactly when the ids its blocks looked at are in range. */
  method Launch(x: Input, output: array<Half>, blocks: seq<nat>, orders: nat -> seq<nat>) returns (ok: bool)
    requires x.For(output[..])
    requires x.Positive() ==> Listing(blocks, x.Blocks()) && forall t :: Listing(orders(t), x.hidden)
    modifies output
    ensures x.For(output[..])
    ensures ok <==> Succeeds(x)
    ensures !x.Positive() || x.Blocks() == 0 || x.Blocks() > MaxBlocks ==> output[..] == old(output[..])
    ensures x.Positive() && 0 < x.Blocks() <= MaxBlocks ==>
              forall t: nat | t < x.batch * x.length :: TakesRow(x, old(output[..]), output[..], t)
  {
    if x.vocabulary <= 0 || x.hidden <= 0 || x.batch <= 0 || x.length <= 0 { return false; }
    var grid := x.Tokens() % GridRange;
    if grid == 0 || grid > MaxBlocks { return false; }
    assert |blocks| == grid <= x.Tokens();
    ghost var before := output[..];
    hide TakesRow, Listing, GatheredSoFar, AnyBad;
    var error := RunBlocks(x, output, blocks, orders);
    AnyBadListed(x, blocks, grid);
    RowsTaken(x, before, output[..], blocks);
    return !error;
  }

  method RunBlocks(x: Input, output: array<Half>, blocks: seq<nat>, orders: nat -> seq<nat>) returns (error: bool)
    requires x.Positive() && x.For(output[..]) && (forall t :: Listing(orders(t), x.hidden))
    requires |blocks| <= x.Tokens() && Listing(blocks, |blocks|)
    modifies output
    ensures x.For(output[..]) && GatheredSoFar(x, old(output[..]), output[..], blocks)
    ensures error <==> AnyBad(x, blocks)
  {
    ghost var before := output[..];
    error := false;
    var i := 0;
    assert GatheredSoFar(x, before, before, blocks[..0]) && !AnyBad(x, blocks[..0]);
    hide Listing, GatheredSoFar, GathersOne, AnyBad, Input.For, Input.InRange, Input.Tokens;
    while i < |blocks|
      invariant i <= |blocks| && x.For(output[..])
      invariant error <==> AnyBad(x, blocks[..i])
      invariant GatheredSoFar(x, before, output[..], blocks[..i])
    {
      ghost var now := output[..];
      ListingAt(blocks, |blocks|, i);
      var failed := Block(x, blocks[i], output, orders(blocks[i]));
      OneMore(x, before, now, output[..], blocks[..i], blocks[i]);
      assert blocks[..i + 1] == blocks[..i] + [blocks[i]];
      error := error || failed;
      i := i + 1;
    }
    assert blocks[..i] == blocks;
  }

  /** What the launcher reports for an input, by the contract of Launch. */
  ghost predicate Succeeds(x: Input) {
    var grid := x.batch * x.length % 0x1_0000_0000;
    && x.vocabulary > 0 && x.hidden > 0 && x.batch > 0 && x.length > 0 && 0 < grid <= 0x7FFF_FFFF
    && forall t | 0 <= t < grid && t < |x.ids| :: 0 <= x.ids[t] < x.vocabulary
  }

  /** All inputs of a size. */
  ghost predicate OfSize(x: Input, n: nat) {
    && x.vocabulary > 0 && x.hidden > 0 && x.batch > 0 && x.length > 0
    && x.batch * x.length == n == |x.ids|
  }

  ghost predicate EveryIdInRange(x: Input) {
    forall t | 0 <= t < |x.ids| :: 0 <= x.ids[t] < x.vocabulary
  }

  /** For sizes the launcher can launch at all, its success means "every id is in range" for all inputs of the size
      exactly when the size fits the grid type. */
  lemma SuccessMeansInRangeIff(n: nat)
    requires 0 < n % GridRange <= MaxBlocks
    ensures (forall x: Input | OfSize(x, n) :: Succeeds(x) <==> EveryIdInRange(x)) <==> n < GridRange
  {
    if n >= GridRange {
      var ids := seq(n, t => if t == n - 1 then -1 else 0);
      var x := Input(ids, [0], 1, 1, 1, n);
      assert x.ids[n - 1] == -1;
      assert OfSize(x, n) && !EveryIdInRange(x) && Succeeds(x);
    }
  }

  /** Sizes it cannot launch it always refuses, whatever the ids. */
  lemma RefusedIff(n: nat)
    requires n > 0
    ensures (forall x: Input | OfSize(x, n) :: !Succeeds(x)) <==> !(0 < n % GridRange <= MaxBlocks)
  {
    var x := Input(seq(n, t => 0), [0], 1, 1, 1, n);
    assert OfSize(x, n);
    if 0 < n % GridRange <= MaxBlocks { assert Succeeds(x); }
  }
}
