/** Plugin state as bytes: values are written at a cursor that moves on, and read back in the same order. */
module Serialize {
  type Byte = b: nat | b < 256

  // ── Little-endian numbers ────────────────────────────────────────────

  const SizeBytes := 8

  function LittleEndian(n: nat, width: nat): (s: seq<Byte>)
    ensures |s| == width
  {
    if width == 0 then [] else [n % 256] + LittleEndian(n / 256, width - 1)
  }

  function FromLittleEndian(s: seq<Byte>): nat {
    if s == [] then 0 else s[0] + 256 * FromLittleEndian(s[1..])
  }

  function Power(width: nat): (p: nat)
    ensures p > 0
  {
    if width == 0 then 1 else 256 * Power(width - 1)
  }

  lemma {:induction false} NumberRoundTrip(n: nat, width: nat)
    requires n < Power(width)
    ensures FromLittleEndian(LittleEndian(n, width)) == n
  {
    if width > 0 {
      NumberRoundTrip(n / 256, width - 1);
      assert LittleEndian(n, width)[1..] == LittleEndian(n / 256, width - 1);
    }
  }

  lemma {:induction false} BytesRoundTrip(s: seq<Byte>)
    ensures FromLittleEndian(s) < Power(|s|) && LittleEndian(FromLittleEndian(s), |s|) == s
  {
    if s != [] {
      BytesRoundTrip(s[1..]);
      var n := FromLittleEndian(s);
      assert n % 256 == s[0] && n / 256 == FromLittleEndian(s[1..]);
    }
  }

  // ── Values ───────────────────────────────────────────────────────────

  /** A plain value is its bytes; a vector's elements are plain values of one size. */
  datatype Value = Plain(bytes: seq<Byte>) | Text(chars: seq<Byte>) | Vector(size: nat, items: seq<seq<Byte>>)

  /** What a reader knows of a value before reading it: its type. */
  datatype Shape = PlainOf(size: nat) | TextShape | VectorOf(size: nat)

  function ShapeOf(v: Value): Shape {
    match v
    case Plain(bytes) => PlainOf(|bytes|)
    case Text(_) => TextShape
    case Vector(size, _) => VectorOf(size)
  }

  /** No zero inside a text; a vector's length is a size_t and its elements have its element size. */
  predicate Proper(v: Value) {
    match v
    case Plain(_) => true
    case Text(chars) => forall i | 0 <= i < |chars| :: chars[i] != 0
    case Vector(size, items) => |items| < Power(SizeBytes) && forall i | 0 <= i < |items| :: |items[i]| == size
  }

  function SerializedSize(v: Value): nat {
    match v
    case Plain(bytes) => |bytes|
    case Text(chars) => |chars| + 1
    case Vector(size, items) => SizeBytes + |items| * size
  }

  function Concat(items: seq<seq<Byte>>): seq<Byte> {
    if items == [] then [] else items[0] + Concat(items[1..])
  }

  function Encode(v: Value): seq<Byte> {
    match v
    case Plain(bytes) => bytes
    case Text(chars) => chars + [0]
    case Vector(_, items) => LittleEndian(|items|, SizeBytes) + Concat(items)
  }

  function Pieces(s: seq<Byte>, size: nat, n: nat): (r: seq<seq<Byte>>)
    requires n * size <= |s|
    ensures |r| == n
    decreases n
  {
    if n == 0 then [] else assert n * size == (n - 1) * size + size; [s[..size]] + Pieces(s[size..], size, n - 1)
  }

  function FirstZero(s: seq<Byte>): (n: nat)
    ensures n <= |s| && (forall i | 0 <= i < n :: s[i] != 0) && (n < |s| ==> s[n] == 0)
  {
    if s == [] || s[0] == 0 then 0 else 1 + FirstZero(s[1..])
  }

  datatype Result = Read(value: Value, used: nat) | Short

  /** Reading a value of a known shape from the front of some bytes; Short where the original's assertion fails. */
  function Decode(shape: Shape, s: seq<Byte>): Result {
    match shape
    case PlainOf(size) => if |s| < size then Short else Read(Plain(s[..size]), size)
    case TextShape => var n := FirstZero(s); if |s| < n + 1 then Short else Read(Text(s[..n]), n + 1)
    case VectorOf(size) =>
      if |s| < SizeBytes then Short
      else
        var n := FromLittleEndian(s[..SizeBytes]);
        if |s| - SizeBytes < n * size then Short
        else Read(Vector(size, Pieces(s[SizeBytes..], size, n)), SizeBytes + n * size)
  }

  // ── One value ────────────────────────────────────────────────────────

  lemma {:induction false} PiecesOfConcat(items: seq<seq<Byte>>, size: nat, rest: seq<Byte>)
    requires forall i | 0 <= i < |items| :: |items[i]| == size
    ensures |Concat(items)| == |items| * size && Pieces(Concat(items) + rest, size, |items|) == items
  {
    if items != [] {
      PiecesOfConcat(items[1..], size, rest);
      assert |items| * size == (|items| - 1) * size + size;
      var s := Concat(items) + rest;
      assert s[..size] == items[0] && s[size..] == Concat(items[1..]) + rest;
    }
  }

  lemma {:induction false} ConcatOfPieces(s: seq<Byte>, size: nat, n: nat)
    requires n * size <= |s|
    ensures Concat(Pieces(s, size, n)) == s[..n * size] && forall i | 0 <= i < n :: |Pieces(s, size, n)[i]| == size
    decreases n
  {
    if n > 0 {
      var m := (n - 1) * size;
      assert n * size == m + size;
      ConcatOfPieces(s[size..], size, n - 1);
      assert s[..size + m] == s[..size] + s[size..][..m];
    }
  }

  lemma DecodeText(chars: seq<Byte>, rest: seq<Byte>)
    requires Proper(Text(chars))
    ensures Decode(TextShape, Encode(Text(chars)) + rest) == Read(Text(chars), |chars| + 1)
  {
    var s := chars + [0] + rest;
    assert s[|chars|] == 0 && s[..|chars|] == chars;
    assert forall i | 0 <= i < |chars| :: s[i] == chars[i];
    assert FirstZero(s) == |chars|;
  }

  lemma DecodeVector(size: nat, items: seq<seq<Byte>>, rest: seq<Byte>)
    requires Proper(Vector(size, items))
    ensures |Concat(items)| == |items| * size
    ensures Decode(VectorOf(size), Encode(Vector(size, items)) + rest)
            == Read(Vector(size, items), SizeBytes + |items| * size)
  {
    var head, body := LittleEndian(|items|, SizeBytes), Concat(items);
    NumberRoundTrip(|items|, SizeBytes);
    PiecesOfConcat(items, size, rest);
    assert Encode(Vector(size, items)) + rest == head + (body + rest);
    VectorFrom(head, body, rest, size, |items|);
    hide *;
  }

  lemma VectorFrom(head: seq<Byte>, body: seq<Byte>, rest: seq<Byte>, size: nat, n: nat)
    requires |head| == SizeBytes && FromLittleEndian(head) == n && |body| == n * size
    ensures Decode(VectorOf(size), head + (body + rest))
            == Read(Vector(size, Pieces(body + rest, size, n)), SizeBytes + n * size)
  {
    hide FromLittleEndian, Pieces;
    var s := head + (body + rest);
    assert s[..SizeBytes] == head && s[SizeBytes..] == body + rest;
  }

  /** A written value is read back, whatever follows it, and takes exactly its serialized size. */
  lemma DecodeEncode(v: Value, rest: seq<Byte>)
    requires Proper(v)
    ensures |Encode(v)| == SerializedSize(v)
    ensures Decode(ShapeOf(v), Encode(v) + rest) == Read(v, SerializedSize(v))
  {
    hide LittleEndian, FromLittleEndian, Power, Concat, Pieces, FirstZero;
    match v
    case Plain(_) =>
    case Text(chars) =>
      DecodeText(chars, rest);
      hide Decode;
    case Vector(size, items) =>
      DecodeVector(size, items, rest);
      hide Decode;
  }

  /** Whatever is read is what the bytes consumed encode: reading accepts encodings and nothing else. */
  lemma EncodeDecode(shape: Shape, s: seq<Byte>)
    requires Decode(shape, s).Read?
    ensures var r := Decode(shape, s);
            Proper(r.value) && ShapeOf(r.value) == shape && r.used <= |s| && Encode(r.value) == s[..r.used]
  {
    hide LittleEndian, FromLittleEndian, Power, Concat, Pieces;
    match shape
    case PlainOf(_) =>
    case TextShape =>
    case VectorOf(size) => VectorDecodes(size, s);
  }

  lemma VectorDecodes(size: nat, s: seq<Byte>)
    requires Decode(VectorOf(size), s).Read?
    ensures var r := Decode(VectorOf(size), s);
            && Proper(r.value) && r.value.Vector? && r.value.size == size && r.used <= |s|
            && Encode(r.value) == s[..r.used]
  {
    hide LittleEndian, FromLittleEndian, Power, Concat, Pieces, FirstZero;
    var n := FromLittleEndian(s[..SizeBytes]);
    BytesRoundTrip(s[..SizeBytes]);
    ConcatOfPieces(s[SizeBytes..], size, n);
    var m := n * size;
    assert s[..SizeBytes + m] == s[..SizeBytes] + s[SizeBytes..][..m];
  }

  // ── Where the bytes are ──────────────────────────────────────────────

  /** The number in the four bytes from `at` on, least significant byte first. */
  ghost function Number32(s: seq<Byte>, at: nat): nat
    requires at + 4 <= |s|
  {
    s[at] as nat + 0x100 * s[at + 1] as nat + 0x1_0000 * s[at + 2] as nat + 0x100_0000 * s[at + 3] as nat
  }

  ghost function Number64(s: seq<Byte>, at: nat): nat
    requires at + 8 <= |s|
  {
    Number32(s, at) + 0x1_0000_0000 * Number32(s, at + 4)
  }

  lemma FourBytes(s: seq<Byte>)
    requires |s| >= 4
    ensures FromLittleEndian(s) == Number32(s, 0) + 0x1_0000_0000 * FromLittleEndian(s[4..])
  {
    var a, b, c := s[1..], s[2..], s[3..];
    assert FromLittleEndian(s) == s[0] + 256 * FromLittleEndian(a);
    assert FromLittleEndian(a) == s[1] + 256 * FromLittleEndian(b) by { assert a[1..] == b; }
    assert FromLittleEndian(b) == s[2] + 256 * FromLittleEndian(c) by { assert b[1..] == c; }
    assert FromLittleEndian(c) == s[3] + 256 * FromLittleEndian(s[4..]) by { assert c[1..] == s[4..]; }
  }

  lemma EightBytes(s: seq<Byte>)
    requires |s| == 8
    ensures FromLittleEndian(s) == Number64(s, 0)
  {
    FourBytes(s);
    FourBytes(s[4..]);
    assert s[4..][4..] == [];
  }

  lemma {:induction false} ItemAt(items: seq<seq<Byte>>, size: nat, i: nat)
    requires (forall k | 0 <= k < |items| :: |items[k]| == size) && i < |items|
    ensures i * size + size <= |Concat(items)| == |items| * size
    ensures Concat(items)[i * size..i * size + size] == items[i]
  {
    hide Pieces;
    var rest, n := Concat(items[1..]), |items| - 1;
    PiecesOfConcat(items, size, []);
    PiecesOfConcat(items[1..], size, []);
    assert |items| * size == n * size + size;
    if i == 0 {
      assert (items[0] + rest)[..size] == items[0];
    } else {
      ItemAt(items[1..], size, i - 1);
      var from := (i - 1) * size;
      assert i * size == size + from;
      hide Concat;
      assert items[0] + rest == Concat(items) by { FirstItem(items); }
      SliceAfter(items[0] + rest, size, from, size);
      assert (items[0] + rest)[size..] == rest;
    }
  }

  lemma FirstItem(items: seq<seq<Byte>>)
    requires items != []
    ensures items[0] + Concat(items[1..]) == Concat(items)
  {
  }

  lemma VectorHead(items: seq<seq<Byte>>, size: nat)
    requires Proper(Vector(size, items))
    ensures var e := Encode(Vector(size, items));
            |e| == 8 + |items| * size && Number64(e, 0) == |items| && e[8..] == Concat(items)
  {
    hide LittleEndian, FromLittleEndian, Concat, Power, Pieces;
    var head := LittleEndian(|items|, 8);
    PiecesOfConcat(items, size, []);
    NumberRoundTrip(|items|, 8);
    EightBytes(head);
    assert forall k | 0 <= k < 8 :: (head + Concat(items))[k] == head[k];
  }

  lemma VectorItem(items: seq<seq<Byte>>, size: nat, i: nat)
    requires Proper(Vector(size, items)) && i < |items|
    ensures var e, at := Encode(Vector(size, items)), 8 + i * size;
            at + size <= |e| && e[at..at + size] == items[i]
  {
    hide Encode, Concat, Power, Number64, LittleEndian;
    VectorHead(items, size);
    ItemAt(items, size, i);
    var e, from := Encode(Vector(size, items)), i * size;
    hide *;
    SliceAfter(e, 8, from, size);
  }

  lemma SliceAfter(s: seq<Byte>, c: nat, from: nat, n: nat)
    requires c + from + n <= |s|
    ensures s[c + from..c + from + n] == s[c..][from..from + n]
  {
  }

  /** A plain value is written as its bytes, a text with a zero after it, and a vector as its length in eight bytes,
      least significant first, and its elements one after the other. */
  lemma EncodingIs(v: Value, i: nat)
    requires Proper(v)
    ensures v.Plain? ==> Encode(v) == v.bytes
    ensures v.Text? ==> Encode(v) == v.chars + [0]
    ensures v.Vector? ==> |Encode(v)| == 8 + |v.items| * v.size && Number64(Encode(v), 0) == |v.items|
    ensures v.Vector? && i < |v.items| ==>
              var at := 8 + i * v.size; at + v.size <= |Encode(v)| && Encode(v)[at..at + v.size] == v.items[i]
  {
    if v.Vector? {
      hide Encode, Number64;
      VectorHead(v.items, v.size);
      if i < |v.items| { VectorItem(v.items, v.size, i); }
    }
  }

  // ── Sequences of values ──────────────────────────────────────────────

  function EncodeAll(vs: seq<Value>): seq<Byte> {
    if vs == [] then [] else EncodeAll(vs[..|vs| - 1]) + Encode(vs[|vs| - 1])
  }

  function TotalSize(vs: seq<Value>): nat {
    if vs == [] then 0 else TotalSize(vs[..|vs| - 1]) + SerializedSize(vs[|vs| - 1])
  }

  datatype Results = ReadAll(values: seq<Value>, used: nat) | ShortAll

  function DecodeAll(shapes: seq<Shape>, s: seq<Byte>): (r: Results)
    ensures r.ReadAll? ==> r.used <= |s|
  {
    if shapes == [] then ReadAll([], 0)
    else
      match DecodeAll(shapes[..|shapes| - 1], s)
      case ShortAll => ShortAll
      case ReadAll(vs, used) =>
        match Decode(shapes[|shapes| - 1], s[used..])
        case Short => ShortAll
        case Read(v, n) => EncodeDecode(shapes[|shapes| - 1], s[used..]); ReadAll(vs + [v], used + n)
  }

  function Shapes(vs: seq<Value>): seq<Shape> {
    seq(|vs|, i requires 0 <= i < |vs| => ShapeOf(vs[i]))
  }

  /** Any list of values, written in order and read back in the same order: the same values, exactly the bytes they
      take, and whatever follows is left. */
  lemma {:induction false} RoundTrip(vs: seq<Value>, rest: seq<Byte>)
    requires forall i | 0 <= i < |vs| :: Proper(vs[i])
    ensures |EncodeAll(vs)| == TotalSize(vs)
    ensures DecodeAll(Shapes(vs), EncodeAll(vs) + rest) == ReadAll(vs, TotalSize(vs))
  {
    hide Encode, Decode, SerializedSize, Proper, Shapes, DecodeAll;
    if vs != [] {
      var n := |vs| - 1;
      var v := vs[n];
      RoundTrip(vs[..n], Encode(v) + rest);
      DecodeEncode(v, rest);
      assert EncodeAll(vs) + rest == EncodeAll(vs[..n]) + (Encode(v) + rest);
      DecodeLast(vs, EncodeAll(vs[..n]), Encode(v) + rest);
    } else {
      DecodeNone(EncodeAll(vs) + rest);
    }
  }

  lemma DecodeNone(s: seq<Byte>)
    ensures DecodeAll(Shapes([]), s) == ReadAll([], 0)
  {
  }

  lemma DecodeLast(vs: seq<Value>, first: seq<Byte>, last: seq<Byte>)
    requires vs != [] && DecodeAll(Shapes(vs[..|vs| - 1]), first + last) == ReadAll(vs[..|vs| - 1], |first|)
    requires Decode(ShapeOf(vs[|vs| - 1]), last) == Read(vs[|vs| - 1], SerializedSize(vs[|vs| - 1]))
    ensures DecodeAll(Shapes(vs), first + last) == ReadAll(vs, |first| + SerializedSize(vs[|vs| - 1]))
  {
    hide Decode, DecodeAll, SerializedSize;
    var n := |vs| - 1;
    var v := vs[n];
    assert (first + last)[|first|..] == last;
    DecodeStep(Shapes(vs[..n]), ShapeOf(v), first + last, vs[..n], |first|, v, SerializedSize(v));
    assert Shapes(vs) == Shapes(vs[..n]) + [ShapeOf(v)];
    assert vs == vs[..n] + [v];
  }

  lemma DecodeStep(shapes: seq<Shape>, shape: Shape, s: seq<Byte>, vs: seq<Value>, used: nat, v: Value, n: nat)
    requires DecodeAll(shapes, s) == ReadAll(vs, used) && Decode(shape, s[used..]) == Read(v, n)
    ensures DecodeAll(shapes + [shape], s) == ReadAll(vs + [v], used + n)
  {
    hide Decode, Encode, Proper, ShapeOf;
    assert (shapes + [shape])[..|shapes|] == shapes;
  }

  // ── The cursors ──────────────────────────────────────────────────────

  /** Writes at a position that moves on; the caller provides room for the serialized size. */
  class Writer {
    const buffer: array<Byte>
    var pos: nat

    constructor (buffer: array<Byte>)
      ensures this.buffer == buffer && pos == 0
    {
      this.buffer, pos := buffer, 0;
    }

    method Copy(bytes: seq<Byte>)
      requires pos + |bytes| <= buffer.Length
      modifies `pos, buffer
      ensures pos == old(pos) + |bytes| && buffer[..] == Spliced(old(buffer[..]), old(pos), bytes)
    {
      forall i | 0 <= i < |bytes| { buffer[pos + i] := bytes[i]; }
      pos := pos + |bytes|;
    }

    method CopyBoth(first: seq<Byte>, second: seq<Byte>)
      requires pos + |first| + |second| <= buffer.Length
      modifies `pos, buffer
      ensures pos == old(pos) + |first| + |second| && buffer[..] == Spliced(old(buffer[..]), old(pos), first + second)
    {
      SpliceTwice(buffer[..], pos, first, second);
      hide Spliced;
      Copy(first);
      Copy(second);
    }

    method Write(v: Value)
      requires pos + SerializedSize(v) <= buffer.Length && Proper(v)
      modifies `pos, buffer
      ensures |Encode(v)| == SerializedSize(v) && pos == old(pos) + SerializedSize(v)
      ensures buffer[..] == Spliced(old(buffer[..]), old(pos), Encode(v))
    {
      DecodeEncode(v, []);
      hide Spliced, LittleEndian, Concat, Decode, Proper;
      match v {
        case Plain(bytes) => Copy(bytes);
        case Text(chars) => CopyBoth(chars, [0]);
        case Vector(size, items) => CopyBoth(LittleEndian(|items|, SizeBytes), Concat(items));
      }
    }
  }

  /** A buffer with some bytes replaced from a position on. */
  function Spliced(s: seq<Byte>, pos: nat, bytes: seq<Byte>): (r: seq<Byte>)
    requires pos + |bytes| <= |s|
    ensures |r| == |s|
  {
    s[..pos] + bytes + s[pos + |bytes|..]
  }

  lemma SpliceTwice(s: seq<Byte>, pos: nat, a: seq<Byte>, b: seq<Byte>)
    requires pos + |a| + |b| <= |s|
    ensures Spliced(Spliced(s, pos, a), pos + |a|, b) == Spliced(s, pos, a + b)
  {
    var t := Spliced(s, pos, a);
    assert t[..pos + |a|] == s[..pos] + a;
    assert t[pos + |a| + |b|..] == s[pos + |a| + |b|..];
  }

  /** Reads at a position that moves on, with the number of bytes still to come. */
  class Reader {
    const buffer: array<Byte>
    var pos: nat
    var remaining: nat

    ghost predicate Valid()
      reads this
    {
      pos + remaining <= buffer.Length
    }

    ghost function Ahead(): seq<Byte>
      requires Valid()
      reads this, buffer
    {
      buffer[pos..pos + remaining]
    }

    constructor (buffer: array<Byte>)
      ensures this.buffer == buffer && pos == 0 && remaining == buffer.Length
    {
      this.buffer, pos, remaining := buffer, 0, buffer.Length;
    }

    method Skip(n: nat)
      requires Valid() && n <= remaining
      modifies this
      ensures Valid() && pos == old(pos) + n && remaining == old(remaining) - n && Ahead() == old(Ahead())[n..]
    {
      pos, remaining := pos + n, remaining - n;
    }

    /** Position of the first zero among the next bytes, or their number. */
    method FindZero() returns (n: nat)
      requires Valid()
      ensures n == FirstZero(Ahead())
    {
      n := 0;
      ghost var s := Ahead();
      while n < remaining && buffer[pos + n] != 0
        invariant n <= remaining && forall i | 0 <= i < n :: s[i] != 0
      {
        n := n + 1;
      }
      ZeroIsFirst(s, n);
    }

    method ReadPlain(size: nat) returns (ok: bool, bytes: seq<Byte>)
      requires Valid()
      modifies this
      ensures Valid() && Follows(Decode(PlainOf(size), old(Ahead())), ok, Plain(bytes), old(pos), old(Ahead()), pos,
                                 Ahead())
      ensures ok ==> |bytes| == size
    {
      bytes := [];
      if remaining < size { return false, bytes; }
      bytes := buffer[pos..pos + size];
      assert Ahead()[..size] == bytes;
      Skip(size);
      return true, bytes;
    }

    method ReadText() returns (ok: bool, chars: seq<Byte>)
      requires Valid()
      modifies this
      ensures Valid() && Follows(Decode(TextShape, old(Ahead())), ok, Text(chars), old(pos), old(Ahead()), pos, Ahead())
    {
      chars := [];
      var n := FindZero();
      if remaining < n + 1 { return false, chars; }
      chars := buffer[pos..pos + n];
      assert Ahead()[..n] == chars;
      hide FirstZero;
      Skip(n + 1);
      return true, chars;
    }

    method ReadVector(size: nat) returns (ok: bool, items: seq<seq<Byte>>)
      requires Valid()
      modifies this
      ensures Valid() && Follows(Decode(VectorOf(size), old(Ahead())), ok, Vector(size, items), old(pos),
                                 old(Ahead()), pos, Ahead())
    {
      hide FromLittleEndian, Pieces;
      ghost var s := Ahead();
      items := [];
      if remaining < SizeBytes { return false, items; }
      var n := FromLittleEndian(buffer[pos..pos + SizeBytes]);
      assert s[..SizeBytes] == buffer[pos..pos + SizeBytes];
      Skip(SizeBytes);
      var nbyte := n * size;
      if remaining < nbyte { return false, items; }
      items := Pieces(buffer[pos..pos + remaining], size, n);
      Skip(nbyte);
      assert s[SizeBytes..][nbyte..] == s[SizeBytes + nbyte..];
      return true, items;
    }

    /** `ok` is false where an assertion of the original fails; the cursor then means nothing. */
    method ReadValue(shape: Shape) returns (ok: bool, v: Value)
      requires Valid()
      modifies this
      ensures Valid() && Follows(Decode(shape, old(Ahead())), ok, v, old(pos), old(Ahead()), pos, Ahead())
    {
      hide Decode, Follows;
      match shape {
        case PlainOf(size) =>
          var bytes;
          ok, bytes := ReadPlain(size);
          v := Plain(bytes);
        case TextShape =>
          var chars;
          ok, chars := ReadText();
          v := Text(chars);
        case VectorOf(size) =>
          var items;
          ok, items := ReadVector(size);
          v := Vector(size, items);
      }
    }
  }

  /** A reader's answer and its new cursor are those of a decoding result. */
  ghost predicate Follows(r: Result, ok: bool, v: Value, pos: nat, ahead: seq<Byte>, pos': nat, ahead': seq<Byte>) {
    (ok <==> r.Read?) && (ok ==> v == r.value && r.used <= |ahead| && pos' == pos + r.used && ahead' == ahead[r.used..])
  }

  lemma {:induction false} ZeroIsFirst(s: seq<Byte>, n: nat)
    requires n <= |s| && (forall i | 0 <= i < n :: s[i] != 0) && (n < |s| ==> s[n] == 0)
    ensures FirstZero(s) == n
  {
    if n > 0 { ZeroIsFirst(s[1..], n - 1); }
  }

  // ── The pooling plugin ───────────────────────────────────────────────

  type Int32 = n: int | -0x8000_0000 <= n < 0x8000_0000

  function IntBytes(n: Int32): seq<Byte> {
    LittleEndian(n % 0x1_0000_0000, 4)
  }

  function IntOf(s: seq<Byte>): Int32
    requires |s| == 4
  {
    BytesRoundTrip(s);
    assert Power(4) == 0x1_0000_0000;
    var n := FromLittleEndian(s);
    if n < 0x8000_0000 then n else n - 0x1_0000_0000
  }

  /** The signed number in the four bytes from `at` on. */
  ghost function Int32At(s: seq<Byte>, at: nat): int
    requires at + 4 <= |s|
  {
    var n := Number32(s, at);
    if n < 0x8000_0000 then n else n - 0x1_0000_0000
  }

  lemma IntIs(s: seq<Byte>)
    requires |s| == 4
    ensures IntOf(s) == Int32At(s, 0)
  {
    FourBytes(s);
    assert s[4..] == [];
    hide FromLittleEndian, Number32;
    assert FromLittleEndian([]) == 0 by { NoBytes(); }
  }

  lemma NoBytes()
    ensures FromLittleEndian([]) == 0
  {
  }

  lemma IntRoundTrip(n: Int32)
    ensures IntOf(IntBytes(n)) == n
  {
    assert Power(4) == 0x1_0000_0000;
    NumberRoundTrip(n % 0x1_0000_0000, 4);
  }

  function PluginValues(width: Int32, height: Int32): seq<Value> {
    [Plain(IntBytes(width)), Plain(IntBytes(height))]
  }

  class BevPoolPlugin {
    var width: Int32
    var height: Int32

    constructor (width: Int32, height: Int32)
      ensures this.width == width && this.height == height
    {
      this.width, this.height := width, height;
    }

    function SerializationSize(): nat {
      SerializedSize(Plain(IntBytes(0))) + SerializedSize(Plain(IntBytes(0)))
    }

    method Save(buffer: array<Byte>)
      requires buffer.Length >= SerializationSize()
      modifies buffer
      ensures buffer[..] == EncodeAll(PluginValues(width, height)) + old(buffer[SerializationSize()..])
      ensures buffer.Length >= 8 && Int32At(buffer[..], 0) == width && Int32At(buffer[..], 4) == height
      ensures buffer[8..] == old(buffer[8..])
    {
      var w := new Writer(buffer);
      w.Write(Plain(IntBytes(width)));
      w.Write(Plain(IntBytes(height)));
      PluginBytes(width, height);
      IntRoundTrip(width);
      IntRoundTrip(height);
      IntIs(IntBytes(width));
      IntIs(IntBytes(height));
      hide LittleEndian, IntOf;
      assert buffer[..] == IntBytes(width) + IntBytes(height) + old(buffer[8..]);
    }

    method Load(buffer: array<Byte>) returns (ok: bool)
      modifies this
      ensures ok <==> buffer.Length >= 8
      ensures ok ==> width == Int32At(buffer[..], 0) && height == Int32At(buffer[..], 4)
    {
      var r := new Reader(buffer);
      assert r.Ahead() == buffer[..];
      hide IntOf;
      var bytes;
      ok, bytes := r.ReadPlain(4);
      if !ok { return; }
      width := IntOf(bytes);
      IntIs(bytes);
      assert bytes == buffer[..4] && r.Ahead()[..r.remaining] == buffer[4..];
      ok, bytes := r.ReadPlain(4);
      if !ok { return; }
      height := IntOf(bytes);
      IntIs(bytes);
      assert bytes == buffer[4..][..4] == buffer[4..8];
    }
  }

  lemma PluginBytes(width: Int32, height: Int32)
    ensures EncodeAll(PluginValues(width, height)) == IntBytes(width) + IntBytes(height)
  {
    var vs := PluginValues(width, height);
    assert vs[..1] == [vs[0]] && vs[..1][..0] == [];
    assert EncodeAll(vs[..1]) == EncodeAll([]) + Encode(vs[0]);
    hide LittleEndian;
  }

  /** A plugin loaded from what another saved, whatever follows it, has the same width and height. */
  method SaveThenLoad(saved: BevPoolPlugin, loaded: BevPoolPlugin, buffer: array<Byte>) returns (ok: bool)
    requires saved != loaded && buffer.Length >= 8
    modifies loaded, buffer
    ensures ok && loaded.width == saved.width && loaded.height == saved.height && buffer[8..] == old(buffer[8..])
  {
    saved.Save(buffer);
    PluginBytes(saved.width, saved.height);
    assert buffer[..4] == IntBytes(saved.width) && buffer[4..8] == IntBytes(saved.height);
    IntRoundTrip(saved.width);
    IntRoundTrip(saved.height);
    ok := loaded.Load(buffer);
  }
}
