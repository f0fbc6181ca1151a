/** Packing an interleaved three-channel image into planes: one thread per pixel, in blocks of sixteen by sixteen. */
module PlanarPack {
  import FlatIndex
  import opened ThreadOrder

  const Side := 16

  function Blocks(n: nat): nat {
    (n + Side - 1) / Side
  }

  datatype Image = Image(height: nat, width: nat, pitch: nat)
  {
    predicate Valid() {
      height > 0 && width > 0 && pitch >= 3 * width
    }

    function Area(): nat {
      height * width
    }

    /** Threads of a launch in one row of pixels, those past the edge included. */
    function Span(): nat {
      Blocks(width) * Side
    }

    function Threads(): nat {
      Blocks(height) * Side * Span()
    }

    /** Where channel c of a pixel is read, and where it is written. */
    function Source(y: nat, x: nat, c: nat): nat {
      y * pitch + (x * 3 + c)
    }

    function Target(y: nat, x: nat, c: nat): nat {
      c * Area() + (y * width + x)
    }
  }

  lemma CoversEdge(n: nat)
    ensures n <= Blocks(n) * Side < n + Side
  {
  }

  /** The pixel coordinate that a thread of a block computes, and the only block and thread that compute it. */
  lemma OneThreadPerCoordinate(n: nat, x: nat)
    requires x < Blocks(n) * Side
    ensures x / Side < Blocks(n) && x == x / Side * Side + x % Side
    ensures forall block: nat, thread: nat | thread < Side && Coordinate(block, thread) == x ::
              block == x / Side && thread == x % Side
  {
    forall block: nat, thread: nat | thread < Side && Coordinate(block, thread) == x
      ensures block == x / Side && thread == x % Side {
      FlatIndex.Split(Side, block, thread);
    }
  }

  function Coordinate(block: nat, thread: nat): nat {
    block * Side + thread
  }

  lemma TargetInBuffer(m: Image, y: nat, x: nat, c: nat)
    requires y < m.height && x < m.width && c < 3
    ensures m.Target(y, x, c) < 3 * m.Area()
  {
    FlatIndex.Bound(m.width, m.height, y, x);
    FlatIndex.Bound(m.Area(), 3, c, y * m.width + x);
  }

  lemma SourceInBuffer(m: Image, y: nat, x: nat, c: nat)
    requires m.Valid() && y < m.height && x < m.width && c < 3
    ensures m.Source(y, x, c) < m.height * m.pitch
  {
    FlatIndex.Bound(m.pitch, m.height, y, x * 3 + c);
  }

  lemma TargetsDiffer(m: Image, y: nat, x: nat, c: nat, y': nat, x': nat, c': nat)
    requires y < m.height && x < m.width && y' < m.height && x' < m.width && m.Target(y, x, c) == m.Target(y', x', c')
    ensures y == y' && x == x' && c == c'
  {
    FlatIndex.Bound(m.width, m.height, y, x);
    FlatIndex.Bound(m.width, m.height, y', x');
    FlatIndex.Unique(m.Area(), c, y * m.width + x, c', y' * m.width + x');
    FlatIndex.Unique(m.width, y, x, y', x');
  }

  /** The channel, row and column whose value belongs in output cell a. */
  function Pixel(m: Image, a: nat): (nat, nat, nat)
    requires m.Valid() && a < 3 * m.Area()
  {
    FlatIndex.Grows(m.width, 0, m.height);
    (a / m.Area(), a % m.Area() / m.width, a % m.Area() % m.width)
  }

  /** Every output cell belongs to exactly one pixel and channel: the map from pixels to cells is a bijection. */
  lemma EveryCellHasOnePixel(m: Image, a: nat)
    requires m.Valid() && a < 3 * m.Area()
    ensures var (c, y, x) := Pixel(m, a); c < 3 && y < m.height && x < m.width && m.Target(y, x, c) == a
    ensures forall y: nat, x: nat, c: nat | y < m.height && x < m.width && m.Target(y, x, c) == a ::
              (c, y, x) == Pixel(m, a)
  {
    FlatIndex.Grows(m.width, 0, m.height);
    FlatIndex.Join(m.Area(), 3, a);
    FlatIndex.Join(m.width, m.height, a % m.Area());
    var (c0, y0, x0) := Pixel(m, a);
    forall y: nat, x: nat, c: nat | y < m.height && x < m.width && m.Target(y, x, c) == a
      ensures (c, y, x) == Pixel(m, a) {
      TargetsDiffer(m, y, x, c, y0, x0, c0);
    }
  }

  /** Cell (y, x) of plane c holds the converted byte c of pixel (y, x). */
  ghost predicate PlaneHolds(m: Image, src: seq<nat>, convert: (nat, nat) -> nat, dst: seq<nat>, y: nat, x: nat,
                             c: nat) {
    var to, from := c * (m.height * m.width) + y * m.width + x, y * m.pitch + 3 * x + c;
    from < |src| && to < |dst| && dst[to] == convert(c, src[from])
  }

  /** The cells of pixel (y, x) hold its converted values. */
  ghost predicate Packed(m: Image, src: seq<nat>, convert: (nat, nat) -> nat, dst: seq<nat>, y: nat, x: nat) {
    forall c: nat | c < 3 :: PlaneHolds(m, src, convert, dst, y, x, c)
  }

  lemma PlaneIs(m: Image, src: seq<nat>, convert: (nat, nat) -> nat, dst: seq<nat>, y: nat, x: nat, c: nat)
    ensures PlaneHolds(m, src, convert, dst, y, x, c)
            <==> m.Source(y, x, c) < |src| && m.Target(y, x, c) < |dst|
                 && dst[m.Target(y, x, c)] == convert(c, src[m.Source(y, x, c)])
  {
  }

  ghost predicate PackedIfPixel(m: Image, src: seq<nat>, convert: (nat, nat) -> nat, dst: seq<nat>, thread: nat) {
    var span := m.Span();
    span > 0
    && (thread / span < m.height && thread % span < m.width ==>
          Packed(m, src, convert, dst, thread / span, thread % span))
  }

  method WritePixel(m: Image, src: seq<nat>, convert: (nat, nat) -> nat, dst: array<nat>, y: nat, x: nat)
    requires m.Valid() && |src| == m.height * m.pitch && dst.Length == 3 * m.Area() && y < m.height && x < m.width
    modifies dst
    ensures Packed(m, src, convert, dst[..], y, x)
    ensures forall y': nat, x': nat | y' < m.height && x' < m.width && (y' != y || x' != x)
            && Packed(m, src, convert, old(dst[..]), y', x') ::
              Packed(m, src, convert, dst[..], y', x')
  {
    hide Image.Source, Image.Target, Image.Area;
    forall c: nat | c < 3 ensures m.Source(y, x, c) < |src| && m.Target(y, x, c) < dst.Length {
      SourceInBuffer(m, y, x, c);
      TargetInBuffer(m, y, x, c);
    }
    dst[m.Target(y, x, 0)] := convert(0, src[m.Source(y, x, 0)]);
    dst[m.Target(y, x, 1)] := convert(1, src[m.Source(y, x, 1)]);
    dst[m.Target(y, x, 2)] := convert(2, src[m.Source(y, x, 2)]);
    forall y': nat, x': nat, c: nat, c': nat | y' < m.height && x' < m.width
    && m.Target(y', x', c') == m.Target(y, x, c)
      ensures y' == y && x' == x && c' == c
    {
      TargetsDiffer(m, y, x, c, y', x', c');
    }
    forall y': nat, x': nat, c: nat
      ensures PlaneHolds(m, src, convert, dst[..], y', x', c)
              <==> m.Source(y', x', c) < |src| && m.Target(y', x', c) < dst.Length
                   && dst[m.Target(y', x', c)] == convert(c, src[m.Source(y', x', c)])
    {
      PlaneIs(m, src, convert, dst[..], y', x', c);
    }
    forall y': nat, x': nat, c: nat
      ensures PlaneHolds(m, src, convert, old(dst[..]), y', x', c)
              <==> m.Source(y', x', c) < |src| && m.Target(y', x', c) < dst.Length
                   && old(dst[..])[m.Target(y', x', c)] == convert(c, src[m.Source(y', x', c)])
    {
      PlaneIs(m, src, convert, old(dst[..]), y', x', c);
    }
    hide PlaneHolds;
  }

  lemma ThreadOfPixel(m: Image, y: nat, x: nat)
    requires m.Valid() && y < m.height && x < m.width
    ensures var t := y * m.Span() + x; x < m.Span() && t < m.Threads() && t / m.Span() == y && t % m.Span() == x
  {
    CoversEdge(m.width);
    CoversEdge(m.height);
    FlatIndex.Split(m.Span(), y, x);
    FlatIndex.Bound(m.Span(), Blocks(m.height) * Side, y, x);
  }

  method Thread(m: Image, src: seq<nat>, convert: (nat, nat) -> nat, dst: array<nat>, thread: nat)
    requires m.Valid() && |src| == m.height * m.pitch && dst.Length == 3 * m.Area() && m.Span() > 0
    modifies dst
    ensures PackedIfPixel(m, src, convert, dst[..], thread)
    ensures forall t: nat | PackedIfPixel(m, src, convert, old(dst[..]), t) ::
              PackedIfPixel(m, src, convert, dst[..], t)
  {
    hide Packed, Image.Area, Image.Span;
    var x, y := thread % m.Span(), thread / m.Span();
    if x < m.width && y < m.height {
      WritePixel(m, src, convert, dst, y, x);
    }
  }

  /** The launch, its threads in any order: every pixel is packed, and so every cell of the output is set. */
  method Launch(m: Image, src: seq<nat>, convert: (nat, nat) -> nat, dst: array<nat>, order: seq<nat>)
    returns (ok: bool)
    requires m.pitch >= 3 * m.width && |src| == m.height * m.pitch && dst.Length == 3 * m.Area()
    requires Listing(order, m.Threads())
    modifies dst
    ensures ok <==> m.height > 0 && m.width > 0
    ensures forall y: nat, x: nat | y < m.height && x < m.width :: Packed(m, src, convert, dst[..], y, x)
  {
    if m.height == 0 || m.width == 0 { return false; }
    ThreadOfPixel(m, 0, 0);
    hide PackedIfPixel, Image.Area, Image.Span, Image.Threads;
    var i := 0;
    while i < |order|
      invariant i <= |order|
      invariant forall k | 0 <= k < i :: PackedIfPixel(m, src, convert, dst[..], order[k])
    {
      Thread(m, src, convert, dst, order[i]);
      i := i + 1;
    }
    forall y: nat, x: nat | y < m.height && x < m.width ensures Packed(m, src, convert, dst[..], y, x) {
      AllThreadsPack(m, src, convert, dst[..], order, y, x);
    }
    return true;
  }

  lemma AllThreadsPack(m: Image, src: seq<nat>, convert: (nat, nat) -> nat, dst: seq<nat>, order: seq<nat>, y: nat,
                       x: nat)
    requires m.Valid() && y < m.height && x < m.width && Listing(order, m.Threads())
    requires forall k | 0 <= k < |order| :: PackedIfPixel(m, src, convert, dst, order[k])
    ensures Packed(m, src, convert, dst, y, x)
  {
    ThreadOfPixel(m, y, x);
    hide Packed, Image.Span, Image.Threads;
    assert y * m.Span() + x in order;
  }

  /** So every cell of the output, and not only every pixel, has its value. */
  lemma EveryCellIsSet(m: Image, src: seq<nat>, convert: (nat, nat) -> nat, dst: seq<nat>, a: nat)
    requires m.Valid() && |dst| == 3 * m.Area() && a < |dst|
    requires forall y: nat, x: nat | y < m.height && x < m.width :: Packed(m, src, convert, dst, y, x)
    ensures HoldsItsPixel(m, src, convert, dst, a)
  {
    EveryCellHasOnePixel(m, a);
    assert m.height * m.width > 0 by { FlatIndex.Grows(m.width, 0, m.height); }
    var (c, y, x) := Pixel(m, a);
    assert c == a / (m.height * m.width) && y == a % (m.height * m.width) / m.width
        && x == a % (m.height * m.width) % m.width;
    PlaneIs(m, src, convert, dst, y, x, c);
    hide Image.Area, Image.Target, Pixel;
    assert Packed(m, src, convert, dst, y, x);
  }

  /** The cell's plane, row and column say which byte of which pixel it holds, converted. */
  ghost predicate HoldsItsPixel(m: Image, src: seq<nat>, convert: (nat, nat) -> nat, dst: seq<nat>, a: nat)
    requires m.height * m.width > 0 && m.width > 0 && a < |dst|
  {
    var c, y, x := a / (m.height * m.width), a % (m.height * m.width) / m.width, a % (m.height * m.width) % m.width;
    var from := y * m.pitch + 3 * x + c;
    0 <= from < |src| && dst[a] == convert(c, src[from])
  }
}
