/** The RGBA pixel buffer shared by every raster generator: an ImageData whose
    `data` is a Uint8ClampedArray of width * height * 4 bytes, addressed by
    (floor(y) * width + floor(x)) * 4. */
module Raster {
  import opened Wrappers

  /** One element of a Uint8ClampedArray. */
  type Byte = b: int | 0 <= b < 256

  function Dist(a: int, b: int): nat
  {
    if a <= b then b - a else a - b
  }

  /** The byte an integer becomes when stored into a clamped byte array. */
  function Clamp(v: int): (b: Byte)
    ensures forall c: Byte :: Dist(b, v) <= Dist(c, v)
    ensures 0 <= v < 256 ==> b == v
  {
    if v < 0 then 0 else if v > 255 then 255 else v
  }

  /** Rounding to the nearest integer, ties to the even neighbour. */
  function RoundHalfEven(v: real): (n: int)
    ensures -0.5 <= n as real - v <= 0.5
    ensures n as real - v == 0.5 || v - n as real == 0.5 ==> n % 2 == 0
  {
    var f := v.Floor;
    var frac := v - f as real;
    if frac < 0.5 then f
    else if frac > 0.5 then f + 1
    else if f % 2 == 0 then f else f + 1
  }

  /** The byte a number becomes when stored into a clamped byte array
      (ECMAScript ToUint8Clamp): clamped to 0..255, then rounded half to even. */
  function ToByte(v: real): (b: Byte)
    ensures v <= 0.0 ==> b == 0
    ensures v >= 255.0 ==> b == 255
    ensures 0.0 <= v <= 255.0 ==> -0.5 <= b as real - v <= 0.5
  {
    if v <= 0.0 then 0
    else if v >= 255.0 then 255
    else
      var n := RoundHalfEven(v);
      assert 0 <= n <= 255;
      n
  }

  /** On whole numbers the two conversions agree. */
  lemma ToByteOfInt(n: int)
    ensures ToByte(n as real) == Clamp(n)
  {
    if 0 < n < 255 {
      assert (n as real).Floor == n;
    }
  }

  datatype Rgba = Rgba(r: Byte, g: Byte, b: Byte, a: Byte)

  /** An ImageData value: its dimensions and its bytes. */
  datatype Image = Image(width: nat, height: nat, data: seq<Byte>)

  predicate Sized(img: Image)
  {
    |img.data| == img.width * img.height * 4
  }

  /** `new ImageData(width, height)`: transparent black, every byte 0. */
  function Blank(width: nat, height: nat): (img: Image)
    ensures Sized(img) && img.width == width && img.height == height
    ensures forall i :: 0 <= i < |img.data| ==> img.data[i] == 0
  {
    Image(width, height, seq(width * height * 4, _ => 0))
  }

  /** Index of the red byte of the pixel at (x, y); the coordinates are floored. */
  function Offset(width: int, x: real, y: real): int
  {
    (y.Floor * width + x.Floor) * 4
  }

  /** `data[i] = v` on a typed array: an index outside the array is ignored. */
  function Store(data: seq<Byte>, i: int, v: Byte): (r: seq<Byte>)
    ensures |r| == |data|
    ensures forall j :: 0 <= j < |data| ==> r[j] == if j == i then v else data[j]
  {
    if 0 <= i < |data| then data[i := v] else data
  }

  /** setPixel: the four bytes from the offset of (x, y) receive r, g, b, a. */
  function SetPixel(data: seq<Byte>, width: int, x: real, y: real, c: Rgba): (r: seq<Byte>)
    ensures |r| == |data|
    ensures forall j :: 0 <= j < |data| ==>
      r[j] == (var o := Offset(width, x, y);
               if j == o then c.r else if j == o + 1 then c.g
               else if j == o + 2 then c.b else if j == o + 3 then c.a else data[j])
  {
    var o := Offset(width, x, y);
    Store(Store(Store(Store(data, o, c.r), o + 1, c.g), o + 2, c.b), o + 3, c.a)
  }

  /** getPixel: the four bytes from the offset of (x, y); None when they are not
      all inside the array (a typed array reads `undefined` there). */
  function GetPixel(data: seq<Byte>, width: int, x: real, y: real): (p: Option<Rgba>)
    ensures p.Some? <==> 0 <= Offset(width, x, y) && Offset(width, x, y) + 4 <= |data|
  {
    var o := Offset(width, x, y);
    if 0 <= o && o + 4 <= |data| then Some(Rgba(data[o], data[o + 1], data[o + 2], data[o + 3]))
    else None
  }

  /** Reading back a pixel just written returns what was written. */
  lemma GetAfterSet(data: seq<Byte>, width: int, x: real, y: real, c: Rgba)
    requires 0 <= Offset(width, x, y) && Offset(width, x, y) + 4 <= |data|
    ensures GetPixel(SetPixel(data, width, x, y, c), width, x, y) == Some(c)
  {
  }

  /** Writing one pixel leaves every other pixel as it was. */
  lemma GetAfterSetOther(data: seq<Byte>, width: int, x: real, y: real, c: Rgba, x': real, y': real)
    requires Offset(width, x, y) != Offset(width, x', y')
    ensures GetPixel(SetPixel(data, width, x, y, c), width, x', y') == GetPixel(data, width, x', y')
  {
    var o, o' := Offset(width, x, y), Offset(width, x', y');
    var r := SetPixel(data, width, x, y, c);
    assert o % 4 == 0 && o' % 4 == 0;
    if 0 <= o' && o' + 4 <= |data| {
      forall j | o' <= j < o' + 4 ensures r[j] == data[j] {
        assert j < o || j > o + 3;
      }
    }
  }

  /** Offsets are multiples of 4, so in an array of whole pixels a write lands
      entirely inside the array or is entirely dropped. */
  lemma WholePixelOrNothing(data: seq<Byte>, width: int, x: real, y: real, c: Rgba)
    requires |data| % 4 == 0
    ensures var o := Offset(width, x, y);
      (0 <= o && o + 4 <= |data|) || SetPixel(data, width, x, y, c) == data
  {
    var o := Offset(width, x, y);
    assert o % 4 == 0;
    if !(0 <= o && o + 4 <= |data|) {
      assert o < 0 ==> o + 3 < 0;
      assert o >= 0 ==> o >= |data|;
    }
  }

  /** A set alpha byte stays set under a write whose alpha is 255. */
  lemma SetPixelKeepsSet(data: seq<Byte>, width: int, x: real, y: real, c: Rgba, j: int)
    requires 0 <= j < |data| && j % 4 == 3 && data[j] == 255 && c.a == 255
    ensures SetPixel(data, width, x, y, c)[j] == 255
  {
    assert Offset(width, x, y) % 4 == 0;
  }

  /** The alpha byte of a write lands at the offset plus 3. */
  lemma SetPixelAlpha(data: seq<Byte>, width: int, x: real, y: real, c: Rgba)
    requires 0 <= Offset(width, x, y) + 3 < |data|
    ensures SetPixel(data, width, x, y, c)[Offset(width, x, y) + 3] == c.a
    ensures (Offset(width, x, y) + 3) % 4 == 3
  {
  }

  /** A byte outside the pixel a write addresses keeps its value. */
  lemma SetPixelElsewhere(data: seq<Byte>, width: int, x: real, y: real, c: Rgba, j: int)
    requires 0 <= j < |data| && Offset(width, x, y) != j - j % 4
    ensures SetPixel(data, width, x, y, c)[j] == data[j]
  {
    var o := Offset(width, x, y);
    assert o % 4 == 0;
    assert j - j % 4 == 4 * (j / 4);
    assert !(o <= j <= o + 3);
  }

  /** isSet: the alpha byte at (y * width + x) * 4 + 3 is 255; coordinates are
      not floored, and a byte outside the array reads `undefined`. */
  function IsSet(data: seq<Byte>, width: int, x: int, y: int): (isSet: bool)
    ensures isSet ==> GetPixel(data, width, x as real, y as real).Some?
    ensures |data| % 4 == 0 ==>
      (isSet <==> GetPixel(data, width, x as real, y as real).Some?
                  && GetPixel(data, width, x as real, y as real).value.a == 255)
  {
    var i := (y * width + x) * 4 + 3;
    assert Offset(width, x as real, y as real) + 3 == i;
    0 <= i < |data| && data[i] == 255
  }

  /** The in-place write behind every setPixel call of the generators. */
  method PutPixel(buf: array<Byte>, width: int, x: real, y: real, c: Rgba)
    modifies buf
    ensures buf[..] == SetPixel(old(buf[..]), width, x, y, c)
  {
    var o := Offset(width, x, y);
    if 0 <= o < buf.Length { buf[o] := c.r; }
    if 0 <= o + 1 < buf.Length { buf[o + 1] := c.g; }
    if 0 <= o + 2 < buf.Length { buf[o + 2] := c.b; }
    if 0 <= o + 3 < buf.Length { buf[o + 3] := c.a; }
  }

  /** `new ImageData(width, height).data`: a fresh transparent buffer. */
  method NewPixels(width: nat, height: nat) returns (buf: array<Byte>)
    ensures fresh(buf) && buf[..] == Blank(width, height).data
  {
    buf := new Byte[width * height * 4](_ => 0);
  }

  /** `new Uint8ClampedArray(data)`: a fresh copy of a snapshot's bytes. */
  method CopyBytes(data: seq<Byte>) returns (buf: array<Byte>)
    ensures fresh(buf) && buf[..] == data
  {
    buf := new Byte[|data|](i requires 0 <= i < |data| => data[i]);
  }
}
