/** Fusing image features into token embeddings: the k-th masked token of a row of the batch takes the row's k-th
    feature. A serial and a parallel kernel do this; the launcher picks one by the sequence length. */
module Fusion {
  import FlatIndex
  import opened ThreadOrder
  import opened RowBuffer
  import StridedCopy

  type Half = nat

  const MaxParallelPrefixBytes := 40 * 1024
  const IntMax := 0x7FFF_FFFF

  /** Conversion of a 64-bit to a 32-bit signed integer. */
  function ToInt32(v: int): (r: int)
    ensures -0x8000_0000 <= r <= IntMax && (v - r) % 0x1_0000_0000 == 0
  {
    (v + 0x8000_0000) % 0x1_0000_0000 - 0x8000_0000
  }

  datatype Input = Input(features: seq<Half>, mask: seq<nat>, batch: int, length: int, hidden: int, count: int)
  {
    predicate Positive() {
      batch > 0 && length > 0 && hidden > 0 && count > 0
    }

    function Tokens(): nat
      requires Positive()
    {
      batch * length
    }

    predicate Sane() {
      Positive() && |mask| == Tokens() && Rows(features, hidden, batch * count)
    }

    predicate For(buffer: seq<Half>) {
      Sane() && Rows(buffer, hidden, Tokens())
    }

    function Token(b: nat, t: nat): nat
      requires Positive()
    {
      b * length + t
    }
  }

  // ── What fusion means ────────────────────────────────────────────────

  /** Masked tokens among the first t of a row. */
  function Rank(mask: seq<nat>): nat {
    if mask == [] then 0 else Rank(mask[..|mask| - 1]) + if mask[|mask| - 1] != 0 then 1 else 0
  }

  lemma {:induction false} RankGrows(mask: seq<nat>, t: nat)
    requires t <= |mask|
    ensures Rank(mask[..t]) <= Rank(mask) <= Rank(mask[..t]) + (|mask| - t)
  {
    if t == |mask| {
      assert mask[..t] == mask;
    } else {
      var shorter := mask[..|mask| - 1];
      RankGrows(shorter, t);
      assert shorter[..t] == mask[..t];
    }
  }

  lemma TokenSplits(x: Input, b: nat, t: nat)
    requires x.Positive() && b < x.batch && t < x.length
    ensures x.Token(b, t) < x.Tokens() && x.Token(b, t) / x.length == b && x.Token(b, t) % x.length == t
    ensures x.Token(b, t) == x.Token(b, 0) + t && x.Token(b, t + 1) == x.Token(b, 0) + t + 1
  {
    FlatIndex.Bound(x.length, x.batch, b, t);
    FlatIndex.Split(x.length, b, t);
  }

  lemma TokenJoins(x: Input, k: nat)
    requires x.Positive() && k < x.Tokens()
    ensures k / x.length < x.batch && k % x.length < x.length && k == x.Token(k / x.length, k % x.length)
  {
    FlatIndex.Join(x.length, x.batch, k);
  }

  function MaskRow(x: Input, b: nat): (r: seq<nat>)
    requires x.Sane() && b < x.batch
    ensures |r| == x.length && x.Token(b, 0) + x.length <= |x.mask|
    ensures forall t | 0 <= t < x.length :: r[t] == x.mask[x.Token(b, 0) + t]
  {
    FlatIndex.Grows(x.length, b, x.batch);
    x.mask[x.Token(b, 0)..x.Token(b, 0) + x.length]
  }

  lemma MaskRowAt(x: Input, b: nat, t: nat)
    requires x.Sane() && b < x.batch && t < x.length
    ensures x.Token(b, t) < |x.mask| && MaskRow(x, b)[t] == x.mask[x.Token(b, t)]
  {
    TokenSplits(x, b, t);
    hide Input.Token, Input.Tokens, MaskRow;
    assert MaskRow(x, b)[t] == x.mask[x.Token(b, 0) + t];
  }

  /** The masked tokens of token k's row before it. */
  function RankOf(x: Input, k: nat): (r: nat)
    requires x.Sane() && k < x.Tokens()
  {
    TokenJoins(x, k);
    Rank(MaskRow(x, k / x.length)[..k % x.length])
  }

  predicate Takes(x: Input, limit: int, k: nat)
    requires x.Sane() && k < x.Tokens()
  {
    x.mask[k] != 0 && RankOf(x, k) < limit
  }

  function FeatureIndex(x: Input, b: nat, i: nat): (f: nat)
    requires x.Positive() && b < x.batch && i < x.count
    ensures f < x.batch * x.count
  {
    FlatIndex.Bound(x.count, x.batch, b, i);
    b * x.count + i
  }

  function Feature(x: Input, b: nat, i: nat): (r: seq<Half>)
    requires x.Sane() && b < x.batch && i < x.count
    ensures |r| == x.hidden
  {
    Row(x.features, x.hidden, x.batch * x.count, FeatureIndex(x, b, i))
  }

  function TokenRow(x: Input, buffer: seq<Half>, k: nat): (r: seq<Half>)
    requires x.For(buffer) && k < x.Tokens()
    ensures |r| == x.hidden
  {
    Row(buffer, x.hidden, x.Tokens(), k)
  }

  /** The output row of token k, when features from `limit` on are not taken: its feature, or its embedding. */
  function Fused(x: Input, tokens: seq<Half>, limit: int, k: nat): (r: seq<Half>)
    requires x.For(tokens) && k < x.Tokens() && limit <= x.count
    ensures |r| == x.hidden
  {
    if Takes(x, limit, k) then
      TokenJoins(x, k);
      Feature(x, k / x.length, RankOf(x, k))
    else TokenRow(x, tokens, k)
  }

  /** Tokens from `low` up to `high` are fused in `now`, the others as before. */
  ghost predicate FusedRange(x: Input, before: seq<Half>, now: seq<Half>, limit: int, low: nat, high: nat)
    requires x.For(before) && x.For(now) && limit <= x.count
  {
    forall k: nat | k < x.Tokens() ::
      TokenRow(x, now, k) == if low <= k < high then Fused(x, before, limit, k) else TokenRow(x, before, k)
  }

  // ── One token ────────────────────────────────────────────────────────

  lemma SkipToken(x: Input, before: seq<Half>, now: seq<Half>, limit: int, low: nat, k: nat)
    requires x.For(before) && x.For(now) && k < x.Tokens() && limit <= x.count
    requires FusedRange(x, before, now, limit, low, k) && !Takes(x, limit, k)
    ensures FusedRange(x, before, now, limit, low, k + 1)
  {
    hide Takes, TokenRow, Feature, Input.For, Input.Tokens;
  }

  lemma TokenOverwritten(x: Input, now: seq<Half>, after: seq<Half>, k: nat, row: seq<Half>)
    requires x.For(now) && k < x.Tokens() && |row| == x.hidden && Overwritten(now, after, k * x.hidden, row)
    ensures x.For(after)
    ensures forall j: nat | j < x.Tokens() :: TokenRow(x, after, j) == if j == k then row else TokenRow(x, now, j)
  {
    RowReplaced(now, after, x.hidden, x.Tokens(), k, row);
  }

  lemma FuseToken(x: Input, before: seq<Half>, now: seq<Half>, after: seq<Half>, limit: int, low: nat, k: nat)
    requires x.For(before) && x.For(now) && low <= k < x.Tokens() && limit <= x.count
    requires FusedRange(x, before, now, limit, low, k)
    requires Overwritten(now, after, k * x.hidden, Fused(x, before, limit, k))
    ensures x.For(after) && FusedRange(x, before, after, limit, low, k + 1)
  {
    hide Overwritten, Fused, TokenRow, Input.For, Input.Tokens;
    TokenOverwritten(x, now, after, k, Fused(x, before, limit, k));
  }

  /** Copying a feature to token k's row, the iterations in any order. */
  method CopyFeature(x: Input, output: array<Half>, b: nat, i: nat, k: nat, order: seq<nat>)
    requires x.For(output[..]) && b < x.batch && i < x.count && k < x.Tokens() && Listing(order, x.hidden)
    modifies output
    ensures Overwritten(old(output[..]), output[..], k * x.hidden, Feature(x, b, i))
  {
    var f := FeatureIndex(x, b, i);
    FlatIndex.Grows(x.hidden, f, x.batch * x.count);
    FlatIndex.Grows(x.hidden, k, x.Tokens());
    StridedCopy.Copy(x.features, f * x.hidden, output, k * x.hidden, x.hidden, order);
  }

  lemma RankStep(x: Input, b: nat, t: nat)
    requires x.Sane() && b < x.batch && t < x.length
    ensures x.Token(b, t) < |x.mask|
    ensures Rank(MaskRow(x, b)[..t + 1]) == Rank(MaskRow(x, b)[..t]) + if x.mask[x.Token(b, t)] != 0 then 1 else 0
    ensures Rank(MaskRow(x, b)[..t + 1]) <= Rank(MaskRow(x, b))
  {
    MaskRowAt(x, b, t);
    hide Input.Token, MaskRow;
    var row := MaskRow(x, b);
    assert row[..t + 1][..t] == row[..t];
    RankGrows(row, t + 1);
  }

  lemma FusedAt(x: Input, tokens: seq<Half>, limit: int, b: nat, t: nat)
    requires x.For(tokens) && b < x.batch && t < x.length && limit <= x.count && x.Token(b, t) < |x.mask|
    ensures x.Token(b, t) < x.Tokens()
    ensures var k, rank := x.Token(b, t), Rank(MaskRow(x, b)[..t]);
            && (Takes(x, limit, k) <==> x.mask[k] != 0 && rank < limit)
            && (Takes(x, limit, k) ==> Fused(x, tokens, limit, k) == Feature(x, b, rank))
  {
    TokenSplits(x, b, t);
    hide Feature, Rank, MaskRow, Input.Token, Input.Tokens, Input.For, TokenRow;
  }

  /** Once a row has used up its features, no later token of the row takes one. */
  lemma RestUnchanged(x: Input, before: seq<Half>, now: seq<Half>, b: nat, t: nat)
    requires x.For(before) && x.For(now) && b < x.batch && t <= x.length
    requires Rank(MaskRow(x, b)[..t]) >= x.count
    requires FusedRange(x, before, now, x.count, x.Token(b, 0), x.Token(b, t))
    ensures FusedRange(x, before, now, x.count, x.Token(b, 0), x.Token(b, x.length))
  {
    assert x.Token(b, t) == x.Token(b, 0) + t && x.Token(b, x.length) == x.Token(b, 0) + x.length;
    forall k: nat | k < x.Tokens() && x.Token(b, t) <= k < x.Token(b, x.length) ensures !Takes(x, x.count, k) {
      LaterTokenTakesNothing(x, before, b, t, k);
    }
    hide Takes, TokenRow, Feature, Input.For, Input.Tokens, Input.Token, MaskRow, Rank;
  }

  lemma LaterTokenTakesNothing(x: Input, tokens: seq<Half>, b: nat, t: nat, k: nat)
    requires x.For(tokens) && b < x.batch && t <= x.length && Rank(MaskRow(x, b)[..t]) >= x.count
    requires k < x.Tokens() && x.Token(b, t) <= k < x.Token(b, x.length)
    ensures !Takes(x, x.count, k)
  {
    var u := k - x.Token(b, 0);
    TokenSplits(x, b, u);
    FusedAt(x, tokens, x.count, b, u);
    hide Takes, Fused, Input.For, Input.Tokens;
    RankGrows(MaskRow(x, b)[..u], t);
    assert MaskRow(x, b)[..u][..t] == MaskRow(x, b)[..t];
  }

  // ── The serial kernel ────────────────────────────────────────────────

  method SerialBlock(x: Input, b: nat, output: array<Half>, order: seq<nat>) returns (overflow: bool)
    requires x.For(output[..]) && b < x.batch && Listing(order, x.hidden)
    modifies output
    ensures x.For(output[..])
    ensures overflow <==> Rank(MaskRow(x, b)) > x.count
    ensures FusedRange(x, old(output[..]), output[..], x.count, x.Token(b, 0), x.Token(b, x.length))
  {
    ghost var before := output[..];
    ghost var row := MaskRow(x, b);
    var index := 0;
    var t := 0;
    assert FusedRange(x, before, before, x.count, x.Token(b, 0), x.Token(b, 0));
    assert Rank(row[..0]) == 0;
    hide Listing, FusedRange, Takes, Fused, Feature, Overwritten, Input.For, Input.Token, Input.Tokens, MaskRow, Rank;
    while t < x.length
      invariant t <= x.length && x.For(output[..]) && index == Rank(row[..t]) <= x.count
      invariant FusedRange(x, before, output[..], x.count, x.Token(b, 0), x.Token(b, t))
    {
      RankStep(x, b, t);
      TokenSplits(x, b, t);
      FusedAt(x, before, x.count, b, t);
      var k := x.Token(b, t);
      if x.mask[k] != 0 {
        if index >= x.count {
          RestUnchanged(x, before, output[..], b, t);
          return true;
        }
        ghost var now := output[..];
        CopyFeature(x, output, b, index, k, order);
        FuseToken(x, before, now, output[..], x.count, x.Token(b, 0), k);
        index := index + 1;
      } else {
        SkipToken(x, before, output[..], x.count, x.Token(b, 0), k);
      }
      t := t + 1;
    }
    assert row[..t] == row;
    return false;
  }

  // ── The parallel kernel ──────────────────────────────────────────────

  lemma ToInt32Shrinks(v: nat)
    ensures ToInt32(v) <= v && (v <= IntMax ==> ToInt32(v) == v)
  {
  }

  /** Thread 0's exclusive prefix sum over the mask, and the total. */
  method PrefixSum(x: Input, b: nat, excl: array<nat>) returns (total: nat)
    requires x.Sane() && b < x.batch && excl.Length == x.length
    modifies excl
    ensures total == Rank(MaskRow(x, b))
    ensures forall t | 0 <= t < x.length :: excl[t] == Rank(MaskRow(x, b)[..t])
  {
    ghost var row := MaskRow(x, b);
    total := 0;
    var t := 0;
    assert Rank(row[..0]) == 0;
    hide Rank, MaskRow, Input.Token, Input.Tokens;
    while t < x.length
      invariant t <= x.length && total == Rank(row[..t])
      invariant forall u | 0 <= u < t :: excl[u] == Rank(row[..u])
    {
      RankStep(x, b, t);
      excl[t] := total;
      total := total + if x.mask[x.Token(b, t)] != 0 then 1 else 0;
      t := t + 1;
    }
    assert row[..t] == row;
  }

  method ParallelBlock(x: Input, b: nat, output: array<Half>, order: seq<nat>) returns (overflow: bool)
    requires x.For(output[..]) && b < x.batch && Listing(order, x.hidden)
    modifies output
    ensures x.For(output[..])
    ensures overflow <==> Rank(MaskRow(x, b)) > ToInt32(x.count)
    ensures overflow ==> output[..] == old(output[..])
    ensures !overflow ==> FusedRange(x, old(output[..]), output[..], x.count, x.Token(b, 0), x.Token(b, x.length))
  {
    ghost var before := output[..];
    ghost var row := MaskRow(x, b);
    var excl := new nat[x.length];
    var need := PrefixSum(x, b, excl);
    if need > ToInt32(x.count) { return true; }
    ToInt32Shrinks(x.count);
    var t := 0;
    assert FusedRange(x, before, before, x.count, x.Token(b, 0), x.Token(b, 0));
    hide Listing, FusedRange, Takes, Fused, Feature, Overwritten, Input.For, Input.Token, Input.Tokens, MaskRow, Rank,
         ToInt32;
    while t < x.length
      invariant t <= x.length && x.For(output[..])
      invariant forall u | 0 <= u < x.length :: excl[u] == Rank(row[..u])
      invariant FusedRange(x, before, output[..], x.count, x.Token(b, 0), x.Token(b, t))
    {
      RankStep(x, b, t);
      TokenSplits(x, b, t);
      FusedAt(x, before, x.count, b, t);
      var k := x.Token(b, t);
      if x.mask[k] != 0 {
        ghost var now := output[..];
        CopyFeature(x, output, b, excl[t], k, order);
        FuseToken(x, before, now, output[..], x.count, x.Token(b, 0), k);
      } else {
        SkipToken(x, before, output[..], x.count, x.Token(b, 0), k);
      }
      t := t + 1;
    }
    return false;
  }

  // ── Either kernel over all rows ──────────────────────────────────────

  /** Whether a kernel reports an overflow for a row with the given number of masked tokens. */
  predicate Overflows(parallel: bool, count: int, need: nat) {
    need > if parallel then ToInt32(count) else count
  }

  /** The features a row may take: none when the parallel kernel gave the row up. */
  function RowLimit(x: Input, parallel: bool, b: nat): (limit: int)
    requires x.Sane() && b < x.batch
    ensures limit <= x.count
  {
    if parallel && Overflows(true, x.count, Rank(MaskRow(x, b))) then 0 else x.count
  }

  ghost predicate AnyOverflow(x: Input, parallel: bool, rows: seq<nat>)
    requires x.Sane()
  {
    exists b :: b in rows && b < x.batch && Overflows(parallel, x.count, Rank(MaskRow(x, b)))
  }

  /** The listed rows of the batch are fused, the others as before. */
  ghost predicate RowsFused(x: Input, parallel: bool, before: seq<Half>, now: seq<Half>, rows: seq<nat>)
    requires x.For(before) && x.For(now)
  {
    forall k: nat | k < x.Tokens() :: TokenRow(x, now, k) == Expected(x, parallel, before, rows, k)
  }

  function Expected(x: Input, parallel: bool, before: seq<Half>, rows: seq<nat>, k: nat): seq<Half>
    requires x.For(before) && k < x.Tokens()
  {
    TokenJoins(x, k);
    if k / x.length in rows then Fused(x, before, RowLimit(x, parallel, k / x.length), k) else TokenRow(x, before, k)
  }

  lemma NothingFused(x: Input, before: seq<Half>, low: nat, high: nat)
    requires x.For(before)
    ensures FusedRange(x, before, before, 0, low, high)
  {
  }

  method Block(x: Input, parallel: bool, b: nat, output: array<Half>, order: seq<nat>) returns (overflow: bool)
    requires x.For(output[..]) && b < x.batch && Listing(order, x.hidden)
    modifies output
    ensures x.For(output[..])
    ensures overflow <==> Overflows(parallel, x.count, Rank(MaskRow(x, b)))
    ensures FusedRange(x, old(output[..]), output[..], RowLimit(x, parallel, b), x.Token(b, 0), x.Token(b, x.length))
  {
    NothingFused(x, output[..], x.Token(b, 0), x.Token(b, x.length));
    hide Listing, FusedRange, Input.For, Input.Token, Input.Tokens, MaskRow, Rank, ToInt32;
    if parallel {
      overflow := ParallelBlock(x, b, output, order);
    } else {
      overflow := SerialBlock(x, b, output, order);
    }
  }

  /** Fusing from a buffer whose row b is still as before is fusing from the one before. */
  lemma OneMoreRow(x: Input, parallel: bool, before: seq<Half>, now: seq<Half>, after: seq<Half>, rows: seq<nat>,
                   b: nat)
    requires x.For(before) && x.For(now) && x.For(after) && b < x.batch && b !in rows
    requires RowsFused(x, parallel, before, now, rows)
    requires FusedRange(x, now, after, RowLimit(x, parallel, b), x.Token(b, 0), x.Token(b, x.length))
    ensures RowsFused(x, parallel, before, after, rows + [b])
    ensures AnyOverflow(x, parallel, rows + [b]) <==>
              AnyOverflow(x, parallel, rows) || Overflows(parallel, x.count, Rank(MaskRow(x, b)))
  {
    assert b in rows + [b];
    forall c | c in rows ensures c in rows + [b] {}
    hide Overflows, Rank, MaskRow;
    forall k: nat | k < x.Tokens() ensures TokenRow(x, after, k) == Expected(x, parallel, before, rows + [b], k) {
      assert TokenRow(x, now, k) == Expected(x, parallel, before, rows, k);
      InRow(x, b, k);
      hide Feature, Takes, TokenRow, Input.Token, Input.Tokens, Input.For;
    }
  }

  lemma InRow(x: Input, b: nat, k: nat)
    requires x.Positive() && b < x.batch && k < x.Tokens()
    ensures k / x.length == b <==> x.Token(b, 0) <= k < x.Token(b, x.length)
  {
    TokenJoins(x, k);
    if x.Token(b, 0) <= k < x.Token(b, x.length) {
      TokenSplits(x, b, k - x.Token(b, 0));
    }
  }

  method RunBlocks(x: Input, parallel: bool, output: array<Half>, blocks: seq<nat>, orders: nat -> seq<nat>)
    returns (overflow: bool)
    requires x.For(output[..]) && (forall b :: Listing(orders(b), x.hidden))
    requires Listing(blocks, x.batch)
    modifies output
    ensures x.For(output[..]) && RowsFused(x, parallel, old(output[..]), output[..], blocks)
    ensures overflow <==> AnyOverflow(x, parallel, blocks)
  {
    ghost var before := output[..];
    overflow := false;
    var i := 0;
    assert |blocks| == x.batch;
    assert RowsFused(x, parallel, before, before, blocks[..0]) && !AnyOverflow(x, parallel, blocks[..0]);
    hide Listing, RowsFused, AnyOverflow, FusedRange, RowLimit, Overflows, Input.For, Input.Token, Input.Tokens,
         MaskRow, Rank;
    while i < |blocks|
      invariant i <= |blocks| && x.For(output[..])
      invariant overflow <==> AnyOverflow(x, parallel, blocks[..i])
      invariant RowsFused(x, parallel, before, output[..], blocks[..i])
    {
      ghost var now := output[..];
      ListingAt(blocks, x.batch, i);
      var failed := Block(x, parallel, blocks[i], output, orders(blocks[i]));
      OneMoreRow(x, parallel, before, now, output[..], blocks[..i], blocks[i]);
      assert blocks[..i + 1] == blocks[..i] + [blocks[i]];
      overflow := overflow || failed;
      i := i + 1;
    }
    assert blocks[..i] == blocks;
  }

  // ── What the output holds, cell by cell ──────────────────────────────

  /** The number of masked tokens among the first t of row b. */
  ghost function MaskedBefore(x: Input, b: nat, t: nat): nat
    requires x.length >= 0
  {
    var first: nat := b * x.length;
    |set k: nat | first <= k < first + t && k < |x.mask| && x.mask[k] != 0|
  }

  /** Token t of row b has the feature of the row whose number is the number of masked tokens before it, if it is masked
      and that number is below the limit, and its embedding otherwise. */
  ghost predicate Fuses(x: Input, tokens: seq<Half>, out: seq<Half>, b: nat, t: nat, limit: int)
    requires x.Positive()
  {
    var k, r := b * x.length + t, MaskedBefore(x, b, t);
    && 0 <= k < |x.mask|
    && if x.mask[k] != 0 && r < limit
       then SameStretch(out, k * x.hidden, x.features, (b * x.count + r) * x.hidden, x.hidden)
       else SameStretch(out, k * x.hidden, tokens, k * x.hidden, x.hidden)
  }

  lemma MaskedNext(x: Input, b: nat, t: nat)
    requires x.Sane() && b < x.batch && t < x.length
    ensures x.Token(b, t) < |x.mask|
    ensures MaskedBefore(x, b, t + 1) == MaskedBefore(x, b, t) + if x.mask[x.Token(b, t)] != 0 then 1 else 0
  {
    TokenSplits(x, b, t);
    var first: nat, u := b * x.length, x.Token(b, t);
    assert u == first + t;
    var before := set k: nat | first <= k < first + t && k < |x.mask| && x.mask[k] != 0;
    var now := set k: nat | first <= k < first + (t + 1) && k < |x.mask| && x.mask[k] != 0;
    assert now == if x.mask[u] != 0 then before + {u} else before;
  }

  lemma NoneBefore(x: Input, b: nat)
    requires x.length >= 0
    ensures MaskedBefore(x, b, 0) == 0
  {
  }

  lemma {:induction false} RankCounts(x: Input, b: nat, t: nat)
    requires x.Sane() && b < x.batch && t <= x.length
    ensures Rank(MaskRow(x, b)[..t]) == MaskedBefore(x, b, t)
  {
    if t == 0 {
      NoneBefore(x, b);
    } else {
      RankCounts(x, b, t - 1);
      RankStep(x, b, t - 1);
      MaskedNext(x, b, t - 1);
      hide Rank, MaskRow, MaskedBefore, Input.Token;
    }
  }

  /** The features a row may take: all there are, or none when the parallel kernel gives the row up. */
  ghost function Limit(x: Input, parallel: bool, b: nat): int
    requires x.Positive()
  {
    if parallel && MaskedBefore(x, b, x.length) > ToInt32(x.count) then 0 else x.count
  }

  lemma FusedIs(x: Input, tokens: seq<Half>, out: seq<Half>, limit: int, b: nat, t: nat)
    requires x.For(tokens) && x.For(out) && b < x.batch && t < x.length && limit <= x.count
    requires x.Token(b, t) < x.Tokens() && TokenRow(x, out, x.Token(b, t)) == Fused(x, tokens, limit, x.Token(b, t))
    ensures Fuses(x, tokens, out, b, t, limit)
  {
    hide Takes, MaskedBefore, MaskRow, Rank, SameStretch, Row, Rows, Feature, TokenRow, Fused;
    var k, r := x.Token(b, t), Rank(MaskRow(x, b)[..t]);
    TokenSplits(x, b, t);
    RankCounts(x, b, t);
    FusedAt(x, tokens, limit, b, t);
    if Takes(x, limit, k) {
      TakenStretch(x, out, b, r, k);
    } else {
      KeptStretch(x, tokens, out, limit, k);
    }
  }

  lemma TakenStretch(x: Input, out: seq<Half>, b: nat, r: nat, k: nat)
    requires x.For(out) && b < x.batch && r < x.count && k < x.Tokens() && TokenRow(x, out, k) == Feature(x, b, r)
    ensures SameStretch(out, k * x.hidden, x.features, (b * x.count + r) * x.hidden, x.hidden)
  {
    var f := FeatureIndex(x, b, r);
    hide Row, SameStretch;
    RowsAreStretches(out, x.features, x.hidden, x.Tokens(), x.batch * x.count, k, f);
    assert f == b * x.count + r;
  }

  lemma KeptStretch(x: Input, tokens: seq<Half>, out: seq<Half>, limit: int, k: nat)
    requires x.For(tokens) && x.For(out) && k < x.Tokens() && limit <= x.count && !Takes(x, limit, k)
    requires TokenRow(x, out, k) == Fused(x, tokens, limit, k)
    ensures SameStretch(out, k * x.hidden, tokens, k * x.hidden, x.hidden)
  {
    hide Row, SameStretch, Takes, Feature;
    RowsAreStretches(out, tokens, x.hidden, x.Tokens(), x.Tokens(), k, k);
  }

  /** Every cell of the output of either path, rows that overflow included. */
  lemma RowsFuse(x: Input, parallel: bool, tokens: seq<Half>, out: seq<Half>, blocks: seq<nat>, b: nat, t: nat)
    requires x.For(tokens) && x.For(out) && Listing(blocks, x.batch) && RowsFused(x, parallel, tokens, out, blocks)
    requires b < x.batch && t < x.length
    ensures Fuses(x, tokens, out, b, t, Limit(x, parallel, b))
  {
    var k := x.Token(b, t);
    TokenSplits(x, b, t);
    RankCounts(x, b, x.length);
    assert MaskRow(x, b)[..x.length] == MaskRow(x, b);
    assert b in blocks;
    assert TokenRow(x, out, k) == Expected(x, parallel, tokens, blocks, k);
    hide TokenRow, Fused, Rank, MaskRow, Input.Token, Input.Tokens, Input.For, MaskedBefore, ToInt32;
    FusedIs(x, tokens, out, Limit(x, parallel, b), b, t);
  }

  // ── The launcher ─────────────────────────────────────────────────────

  function SizeT(v: int): nat {
    v % 0x1_0000_0000_0000_0000
  }

  predicate UseParallel(x: Input)
    requires x.Positive()
  {
    var fits := x.length == ToInt32(x.length);
    var prefix := SizeT(SizeT(ToInt32(x.length)) * 4);
    fits && 0 < prefix <= MaxParallelPrefixBytes && x.batch <= IntMax
  }

  /** The parallel path is taken for sequences of at most 10240 tokens. */
  lemma ParallelIffShort(x: Input)
    requires x.Positive()
    ensures UseParallel(x) <==> x.length <= 10240 && x.batch <= IntMax
  {
  }

  /** Absent CUDA errors, with grid and token numbers within the types used for them. */
  method Launch(x: Input, tokens: seq<Half>, output: array<Half>, blocks: seq<nat>, orders: nat -> seq<nat>)
    returns (ok: bool)
    requires x.Positive() ==>
               && x.For(tokens) && output.Length == |tokens| && x.batch <= IntMax
               && (UseParallel(x) ==> x.Tokens() <= IntMax)
               && Listing(blocks, x.batch) && forall b :: Listing(orders(b), x.hidden)
    modifies output
    ensures !x.Positive() ==> !ok && output[..] == old(output[..])
    ensures x.Positive() ==>
              var short := x.length <= 10240 && x.batch <= IntMax;
              && (ok <==> forall b: nat | b < x.batch ::
                    MaskedBefore(x, b, x.length) <= if short then ToInt32(x.count) else x.count)
              && forall b: nat, t: nat | b < x.batch && t < x.length ::
                   Fuses(x, tokens, output[..], b, t, Limit(x, short, b))
  {
    if x.batch <= 0 || x.length <= 0 || x.hidden <= 0 || x.count <= 0 { return false; }
    forall i | 0 <= i < output.Length { output[i] := tokens[i]; }
    assert output[..] == tokens;
    hide RowsFused, Overflows, Input.For, UseParallel, Rank, MaskRow;
    var overflow := RunBlocks(x, UseParallel(x), output, blocks, orders);
    forall b: nat, t: nat | b < x.batch && t < x.length
      ensures Fuses(x, tokens, output[..], b, t, Limit(x, UseParallel(x), b))
    {
      RowsFuse(x, UseParallel(x), tokens, output[..], blocks, b, t);
    }
    ParallelIffShort(x);
    OverflowIff(x, UseParallel(x), blocks);
    return !overflow;
  }

  /** Some row has more masked tokens than the path can count features. */
  lemma OverflowIff(x: Input, parallel: bool, blocks: seq<nat>)
    requires x.Sane() && Listing(blocks, x.batch)
    ensures AnyOverflow(x, parallel, blocks)
            <==> exists b: nat :: b < x.batch && MaskedBefore(x, b, x.length)
                                                 > if parallel then ToInt32(x.count) else x.count
  {
    forall b: nat | b < x.batch ensures Rank(MaskRow(x, b)) == MaskedBefore(x, b, x.length) {
      RankCounts(x, b, x.length);
      assert MaskRow(x, b)[..x.length] == MaskRow(x, b);
    }
    hide Rank, MaskRow, MaskedBefore, ToInt32;
  }

  // ── When the two paths agree ─────────────────────────────────────────

  function Min(a: int, b: int): int {
    if a < b then a else b
  }

  /** The two kernels report the same overflows for all masks exactly when the feature count survives the conversion to
      int as far as it matters: rows cannot need more than `length` features. */
  lemma FlagsAgreeIff(length: nat, count: nat)
    requires length > 0 && count > 0
    ensures (forall row: seq<nat> | |row| == length ::
               Overflows(true, count, Rank(row)) == Overflows(false, count, Rank(row)))
            <==> Min(count, length) <= ToInt32(count)
  {
    ToInt32Shrinks(count);
    if Min(count, length) <= ToInt32(count) {
      forall row: seq<nat> | |row| == length
        ensures Overflows(true, count, Rank(row)) == Overflows(false, count, Rank(row))
      {
        RankGrows(row, 0);
      }
    } else {
      var row := RowWithRank(length, Min(count, length));
      assert Overflows(true, count, Rank(row)) && !Overflows(false, count, Rank(row));
    }
  }

  /** Then the choice of path never changes whether the launcher succeeds. */
  lemma SuccessDoesNotDependOnPath(x: Input, rows: seq<nat>)
    requires x.Sane() && Min(x.count, x.length) <= ToInt32(x.count)
    ensures AnyOverflow(x, true, rows) <==> AnyOverflow(x, false, rows)
  {
    FlagsAgreeIff(x.length, x.count);
    hide Overflows, Rank, ToInt32;
    forall b: nat | b < x.batch
      ensures Overflows(true, x.count, Rank(MaskRow(x, b))) == Overflows(false, x.count, Rank(MaskRow(x, b)))
    {
      assert |MaskRow(x, b)| == x.length;
    }
  }

  lemma {:induction false} RowWithRank(length: nat, rank: nat) returns (row: seq<nat>)
    requires rank <= length
    ensures |row| == length && Rank(row) == rank
  {
    if length == 0 {
      row := [];
    } else {
      var shorter := RowWithRank(length - 1, if rank == length then rank - 1 else rank);
      row := shorter + [if rank == length then 1 else 0];
      assert row[..length - 1] == shorter;
    }
  }

  /** With 2^32 features per row, one masked token already makes the parallel path, which the launcher picks, report too
      few features where the serial one succeeds. */
  lemma PathsDisagree() returns (x: Input)
    ensures x.Sane() && x.count == 0x1_0000_0000 && x.length == 1 && UseParallel(x)
    ensures AnyOverflow(x, true, [0]) && !AnyOverflow(x, false, [0])
  {
    var n := 0x1_0000_0000;
    x := OneMaskedToken(n);
    ParallelIffShort(x);
    hide *;
    assert Overflows(true, n, 1) && !Overflows(false, n, 1) by { CastToZero(); }
    OneRowDecides(x, true);
    OneRowDecides(x, false);
  }

  lemma CastToZero()
    ensures Overflows(true, 0x1_0000_0000, 1) && !Overflows(false, 0x1_0000_0000, 1)
  {
  }

  lemma OneMaskedToken(count: nat) returns (x: Input)
    requires count > 0
    ensures x.Sane() && x.count == count && x.length == 1 && x.batch == 1 && Rank(MaskRow(x, 0)) == 1
  {
    x := Input(Blank(count), [1], 1, 1, 1, count);
    assert x.mask[0..1] == [1];
    assert [1][..0] == [];
    assert Rank([1]) == Rank([]) + 1;
  }

  lemma OneRowDecides(x: Input, parallel: bool)
    requires x.Sane() && x.batch == 1
    ensures AnyOverflow(x, parallel, [0]) <==> Overflows(parallel, x.count, Rank(MaskRow(x, 0)))
  {
    hide Overflows, Rank, MaskRow;
    assert 0 in [0];
  }

  function Blank(n: nat): (r: seq<Half>)
    ensures |r| == n
  {
    seq(n, _ => 0)
  }

  /** Token t of row b has the feature of the row whose number is the number of masked tokens before it if it is masked,
      and its embedding if not. */
  ghost predicate Carries(x: Input, tokens: seq<Half>, out: seq<Half>, b: nat, t: nat)
    requires x.Positive()
  {
    var k, r := b * x.length + t, MaskedBefore(x, b, t);
    && 0 <= k < |x.mask|
    && (x.mask[k] == 0 ==> SameStretch(out, k * x.hidden, tokens, k * x.hidden, x.hidden))
    && (x.mask[k] != 0 ==>
          r < x.count && SameStretch(out, k * x.hidden, x.features, (b * x.count + r) * x.hidden, x.hidden))
  }

  /** When no row needs more features than the path allows, either path gives every masked token the feature of its rank
      and leaves every other token its embedding. */
  lemma EitherPathFuses(x: Input, parallel: bool, tokens: seq<Half>, out: seq<Half>, blocks: seq<nat>, b: nat, t: nat)
    requires x.For(tokens) && x.For(out) && Listing(blocks, x.batch) && RowsFused(x, parallel, tokens, out, blocks)
    requires b < x.batch && t < x.length && MaskedBefore(x, b, x.length) <= x.count
    requires parallel ==> MaskedBefore(x, b, x.length) <= ToInt32(x.count)
    ensures Carries(x, tokens, out, b, t)
  {
    hide Rank, MaskRow, MaskedBefore, ToInt32, SameStretch, Input.Token, Input.Tokens, RowsFused, Listing;
    RowsFuse(x, parallel, tokens, out, blocks, b, t);
    EnoughFeatures(x, b, t);
  }

  /** A masked token's number is below the row's count of masked tokens. */
  lemma EnoughFeatures(x: Input, b: nat, t: nat)
    requires x.Sane() && b < x.batch && t < x.length
    ensures 0 <= b * x.length + t < |x.mask|
    ensures x.mask[b * x.length + t] != 0 ==> MaskedBefore(x, b, t) < MaskedBefore(x, b, x.length)
  {
    MaskedNext(x, b, t);
    RankCounts(x, b, t + 1);
    RankCounts(x, b, x.length);
    RankGrows(MaskRow(x, b), t + 1);
    assert MaskRow(x, b)[..x.length] == MaskRow(x, b);
    hide Rank, MaskRow, MaskedBefore;
  }
}
