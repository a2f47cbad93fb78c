/**
 * The ImageBytes body the camera's `imagearray` endpoint streams: eleven
 * little-endian 32-bit header fields followed by the picture's pixels in
 * column order (the transpose of the row-major array). The encoding of one
 * pixel as octets is left abstract: the body carries the pixel values.
 */
module ImageBytes {
  import opened Wrappers
  import opened Values

  /** One octet of the response body. */
  newtype byte = x: int | 0 <= x < 256

  /** A picture as its list of rows: `height` rows of `width` pixels each. */
  type Grid = seq<seq<int>>

  /** `g` has `height` rows, each of `width` pixels. */
  predicate Shaped(g: Grid, height: int, width: int)
  {
    |g| == height && forall y :: 0 <= y < |g| ==> |g[y]| == width
  }

  /** What `int.to_bytes(4, ...)` accepts without `OverflowError`. */
  predicate IsU32(x: int)
  {
    0 <= x < 0x1_0000_0000
  }

  /** `x.to_bytes(4, "little")`: the least significant octet first. */
  function U32(x: int): (r: seq<byte>)
    requires IsU32(x)
    ensures |r| == 4
  {
    [(x % 0x100) as byte, (x / 0x100 % 0x100) as byte,
     (x / 0x1_0000 % 0x100) as byte, (x / 0x100_0000) as byte]
  }

  /** The 32-bit little-endian field that starts at octet `at`. */
  function ReadU32(b: seq<byte>, at: nat): int
    requires at + 4 <= |b|
  {
    b[at] as int + 0x100 * b[at + 1] as int + 0x1_0000 * b[at + 2] as int + 0x100_0000 * b[at + 3] as int
  }

  /** Reading a written field back gives the number written. */
  lemma U32RoundTrip(x: int)
    requires IsU32(x)
    ensures ReadU32(U32(x), 0) == x
  {
    var q1 := x / 0x100;
    var q2 := q1 / 0x100;
    var q3 := q2 / 0x100;
    assert x == x % 0x100 + 0x100 * q1;
    assert q1 == q1 % 0x100 + 0x100 * q2;
    assert q2 == q2 % 0x100 + 0x100 * q3;
    assert q2 == x / 0x1_0000;
    assert q3 == x / 0x100_0000;
  }

  /** A field read inside `b` reads the same once more octets follow. */
  lemma ReadU32Prefix(b: seq<byte>, more: seq<byte>, at: nat)
    requires at + 4 <= |b|
    ensures ReadU32(b + more, at) == ReadU32(b, at)
  {
    assert (b + more)[at..at + 4] == b[at..at + 4];
  }

  /** The octets of `b` are, field by field, the numbers `fields`. */
  predicate Encodes(b: seq<byte>, fields: seq<int>)
  {
    |b| == 4 * |fields| && forall k :: 0 <= k < |fields| ==> ReadU32(b, 4 * k) == fields[k]
  }

  /** Appending a field encodes one more number and keeps every field before it. */
  lemma AppendField(b: seq<byte>, fields: seq<int>, x: int)
    requires IsU32(x) && Encodes(b, fields)
    ensures Encodes(b + U32(x), fields + [x])
  {
    U32RoundTrip(x);
    var r := b + U32(x);
    assert r[|b|] == U32(x)[0] && r[|b| + 1] == U32(x)[1] && r[|b| + 2] == U32(x)[2] && r[|b| + 3] == U32(x)[3];
    assert ReadU32(r, |b|) == ReadU32(U32(x), 0);
    forall k | 0 <= k < |fields| + 1
      ensures ReadU32(r, 4 * k) == (fields + [x])[k]
    {
      if k < |fields| {
        ReadU32Prefix(b, U32(x), 4 * k);
      }
    }
  }

  /**
   * The header's fields in order: metadata version 1, error number 0,
   * client and device transaction ids 0, data start 44, image element type
   * 2 (Int32), transmission element type 8 (UInt16), rank 2, the two
   * dimensions, and a third dimension 0.
   */
  function HeaderFields(numx: int, numy: int): seq<int>
  {
    [1, 0, 0, 0, 44, 2, 8, 2, numx, numy, 0]
  }

  /** The header ends where its data-start field says the pixels begin. */
  lemma DataStartIsHeaderLength(numx: int, numy: int)
    ensures HeaderFields(numx, numy)[4] == 4 * |HeaderFields(numx, numy)|
  {
  }

  /**
   * `bytes_generator`'s header: eleven fields appended one after another.
   * Field k of the result decodes to the k-th header field.
   */
  method HeaderBytes(numx: int, numy: int) returns (b: seq<byte>)
    requires IsU32(numx) && IsU32(numy)
    ensures Encodes(b, HeaderFields(numx, numy))
  {
    b := [];
    ghost var fields: seq<int> := [];
    AppendField(b, fields, 1); b := b + U32(1); fields := fields + [1];
    AppendField(b, fields, 0); b := b + U32(0); fields := fields + [0];
    AppendField(b, fields, 0); b := b + U32(0); fields := fields + [0];
    AppendField(b, fields, 0); b := b + U32(0); fields := fields + [0];
    AppendField(b, fields, 44); b := b + U32(44); fields := fields + [44];
    AppendField(b, fields, 2); b := b + U32(2); fields := fields + [2];
    AppendField(b, fields, 8); b := b + U32(8); fields := fields + [8];
    AppendField(b, fields, 2); b := b + U32(2); fields := fields + [2];
    AppendField(b, fields, numx); b := b + U32(numx); fields := fields + [numx];
    AppendField(b, fields, numy); b := b + U32(numy); fields := fields + [numy];
    AppendField(b, fields, 0); b := b + U32(0); fields := fields + [0];
    assert fields == HeaderFields(numx, numy);
  }

  /** Column `x` of a picture, top to bottom. */
  function Column(g: Grid, x: nat): (c: seq<int>)
    requires forall y :: 0 <= y < |g| ==> x < |g[y]|
    ensures |c| == |g|
    ensures forall y :: 0 <= y < |g| ==> c[y] == g[y][x]
  {
    seq(|g|, y requires 0 <= y < |g| => g[y][x])
  }

  /** `image_array.T.tobytes()` before encoding: the first `w` columns, one after another. */
  function Transposed(g: Grid, w: nat): (r: seq<int>)
    requires forall y :: 0 <= y < |g| ==> w <= |g[y]|
    ensures |r| == w * |g|
  {
    if w == 0 then [] else Transposed(g, w - 1) + Column(g, w - 1)
  }

  /**
   * Pixel order is x-slow, y-fast: the pixel in column x and row y sits at
   * position x * height + y.
   */
  lemma {:induction false} TransposedAt(g: Grid, w: nat, x: nat, y: nat)
    requires forall r :: 0 <= r < |g| ==> w <= |g[r]|
    requires x < w && y < |g|
    ensures x * |g| + y < |Transposed(g, w)|
    ensures Transposed(g, w)[x * |g| + y] == g[y][x]
  {
    var prefix := Transposed(g, w - 1);
    assert |prefix| == (w - 1) * |g|;
    if x == w - 1 {
      assert x * |g| + y == |prefix| + y;
    } else {
      TransposedAt(g, w - 1, x, y);
      assert x * |g| + y < |prefix|;
    }
  }

  /**
   * The picture a stored `image_data` value holds: a list of rows of
   * integers, all rows equally long. Anything else has no `.T`.
   */
  function GridOf(v: Value): (r: Option<Grid>)
    ensures r.Some? ==> forall y :: 0 <= y < |r.value| ==> |r.value[y]| == |r.value[0]|
  {
    if v.VList? && (forall y :: 0 <= y < |v.items| ==> RowOf(v.items[y]).Some?)
       && (forall y :: 0 <= y < |v.items| ==> |RowOf(v.items[y]).value| == |RowOf(v.items[0]).value|)
    then Some(seq(|v.items|, y requires 0 <= y < |v.items| => RowOf(v.items[y]).value))
    else None
  }

  /** One row of a stored picture. */
  function RowOf(v: Value): (r: Option<seq<int>>)
    ensures r.Some? ==> v.VList? && |r.value| == |v.items|
  {
    if v.VList? && forall x :: 0 <= x < |v.items| ==> v.items[x].VInt?
    then Some(seq(|v.items|, x requires 0 <= x < |v.items| => v.items[x].i))
    else None
  }

  /** How the exposure task stores a picture in the device state. */
  function GridValue(g: Grid): Value
  {
    VList(seq(|g|, y requires 0 <= y < |g| => VList(seq(|g[y]|, x requires 0 <= x < |g[y]| => VInt(g[y][x])))))
  }

  /** A stored rectangular picture is read back as the same picture. */
  lemma GridRoundTrip(g: Grid, height: nat, width: nat)
    requires Shaped(g, height, width) && height > 0
    ensures GridOf(GridValue(g)) == Some(g)
  {
    var v := GridValue(g);
    forall y | 0 <= y < |g|
      ensures RowOf(v.items[y]) == Some(g[y])
    {
      var row := v.items[y];
      assert row == VList(seq(|g[y]|, x requires 0 <= x < |g[y]| => VInt(g[y][x])));
      assert RowOf(row).Some?;
      assert RowOf(row).value == g[y];
    }
    assert GridOf(v).Some?;
    assert GridOf(v).value == g;
  }

  /** The body of an `imagearray` response. */
  datatype ImageFrame = ImageFrame(header: seq<byte>, pixels: seq<int>)

  /**
   * `f` is the body streamed for `image` with dimension values `numx` and
   * `numy`: the body exists exactly when `image` holds a picture and both
   * dimensions are values that `int()` turns into unsigned 32-bit values,
   * and then its header decodes to the header fields and its pixels are the
   * picture's transpose (all of each row's pixels).
   */
  predicate FrameFor(image: Value, numx: Value, numy: Value, f: Option<ImageFrame>)
  {
    var g := GridOf(image);
    var nx := IntOf(numx);
    var ny := IntOf(numy);
    && (f.Some? <==> g.Some? && nx.Some? && ny.Some? && IsU32(nx.value) && IsU32(ny.value))
    && (f.Some? ==>
          && Encodes(f.value.header, HeaderFields(nx.value, ny.value))
          && f.value.pixels == Transposed(g.value, if g.value == [] then 0 else |g.value[0]|))
  }

  /**
   * `bytes_generator`: the header followed by the transposed picture. Any
   * value it cannot convert makes the stream fail, which is `None`.
   */
  method Frame(image: Value, numx: Value, numy: Value) returns (f: Option<ImageFrame>)
    ensures FrameFor(image, numx, numy, f)
  {
    var g := GridOf(image);
    var nx := IntOf(numx);
    var ny := IntOf(numy);
    if g.None? || nx.None? || ny.None? || !IsU32(nx.value) || !IsU32(ny.value) {
      return None;
    }
    var header := HeaderBytes(nx.value, ny.value);
    var width := if g.value == [] then 0 else |g.value[0]|;
    f := Some(ImageFrame(header, Transposed(g.value, width)));
  }

  /**
   * A picture of `numy` rows of `numx` pixels, sent with the same
   * dimensions, gives a body whose pixel count matches the header and whose
   * pixel at column x, row y is the picture's.
   */
  lemma FrameMatchesPicture(g: Grid, numx: nat, numy: nat, f: Option<ImageFrame>, x: nat, y: nat)
    requires Shaped(g, numy, numx) && numy > 0 && IsU32(numx) && IsU32(numy)
    requires FrameFor(GridValue(g), VInt(numx), VInt(numy), f)
    requires x < numx && y < numy
    ensures f.Some?
    ensures ReadU32(f.value.header, 32) == numx && ReadU32(f.value.header, 36) == numy
    ensures |f.value.pixels| == ReadU32(f.value.header, 32) * ReadU32(f.value.header, 36)
    ensures x * numy + y < |f.value.pixels|
    ensures f.value.pixels[x * numy + y] == g[y][x]
  {
    GridRoundTrip(g, numy, numx);
    assert ReadU32(f.value.header, 4 * 8) == numx;
    assert ReadU32(f.value.header, 4 * 9) == numy;
    TransposedAt(g, numx, x, y);
  }
}
