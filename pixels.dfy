/**
 * ARGB_8888 pixels as the executors read and write them: the 32 bits of a
 * Kotlin `Int`, here read as an unsigned number. A bitmap is its width, its
 * height and the row-major pixel array `getPixels` fills.
 *
 * The source extracts a channel with `(pixel shr k) and 0xFF` and packs with
 * `(0xFF shl 24) or (r shl 16) or (g shl 8) or b`. On the unsigned reading
 * these are `(p / 2^k) % 256` and `0xFF * 2^24 + r * 2^16 + g * 2^8 + b`:
 * the mask discards whatever the arithmetic shift copies in from the sign bit
 * (every opaque pixel is a negative `Int`), and the packed fields occupy
 * disjoint bits, so `or` adds. The bit-vector lemmas at the end of this module
 * state those two facts on 32-bit words, with `Shr` as Kotlin's arithmetic shift.
 */
module Pixels {

  /** The 32 bits of a Kotlin `Int` pixel, read unsigned. */
  type Pixel = x: int | 0 <= x < 0x1_0000_0000

  datatype Bitmap = Bitmap(width: nat, height: nat, pixels: seq<Pixel>)
  {
    /** `getPixels` fills exactly `width * height` entries. */
    predicate Valid()
    {
      |pixels| == width * height
    }
  }

  /** The top byte of the unsigned reading (the `0xFF shl 24` field of a packed pixel). */
  function Alpha(p: Pixel): (v: int)
    ensures 0 <= v < 256
  {
    p / 0x100_0000
  }

  /** `(pixel shr 16) and 0xFF`. */
  function Red(p: Pixel): (v: int)
    ensures 0 <= v < 256
  {
    (p / 0x1_0000) % 0x100
  }

  /** `(pixel shr 8) and 0xFF`. */
  function Green(p: Pixel): (v: int)
    ensures 0 <= v < 256
  {
    (p / 0x100) % 0x100
  }

  /** `pixel and 0xFF`. */
  function Blue(p: Pixel): (v: int)
    ensures 0 <= v < 256
  {
    p % 0x100
  }

  /** Channel `c` in NHWC order: R = 0, G = 1, B = 2. */
  function Channel(p: Pixel, c: nat): (v: int)
    requires c < 3
    ensures 0 <= v < 256
  {
    if c == 0 then Red(p) else if c == 1 then Green(p) else Blue(p)
  }

  /** Kotlin's `coerceIn(0, 255)`. */
  function Clamp(x: int): (v: int)
    ensures 0 <= v <= 255
    ensures 0 <= x <= 255 ==> v == x
    ensures x < 0 ==> v == 0
    ensures 255 < x ==> v == 255
  {
    if x < 0 then 0 else if x > 255 then 255 else x
  }

  /**
   * `(0xFF shl 24) or (r shl 16) or (g shl 8) or b`: an opaque pixel whose
   * channels unpack to exactly the r, g and b that went in.
   */
  function Pack(r: int, g: int, b: int): (p: Pixel)
    requires 0 <= r < 256 && 0 <= g < 256 && 0 <= b < 256
    ensures Alpha(p) == 0xFF
    ensures Red(p) == r && Green(p) == g && Blue(p) == b
  {
    var p := 0xFF00_0000 + r * 0x1_0000 + g * 0x100 + b;
    assert p / 0x100 == 0xFF_0000 + r * 0x100 + g && p % 0x100 == b;
    assert p / 0x1_0000 == 0xFF00 + r && (p / 0x100) % 0x100 == g;
    p
  }

  /** A pixel is determined by its four bytes. */
  lemma PixelOfBytes(p: Pixel)
    ensures p == Alpha(p) * 0x100_0000 + Red(p) * 0x1_0000 + Green(p) * 0x100 + Blue(p)
  {
    var low24, low16 := p % 0x100_0000, p % 0x1_0000;
    assert p == Alpha(p) * 0x100_0000 + low24;
    assert p / 0x1_0000 == Alpha(p) * 0x100 + low24 / 0x1_0000;
    assert low24 == Red(p) * 0x1_0000 + low16;
    assert p / 0x100 == (p / 0x1_0000) * 0x100 + low16 / 0x100;
    assert low16 == Green(p) * 0x100 + Blue(p);
  }

  /** Round trip: unpacking a packed pixel gives back its channels, for all three channel indices. */
  lemma UnpackPack(r: int, g: int, b: int, c: nat)
    requires 0 <= r < 256 && 0 <= g < 256 && 0 <= b < 256
    requires c < 3
    ensures Channel(Pack(r, g, b), c) == [r, g, b][c]
  {
  }

  /**
   * `out` is the NHWC interleaving of `pixels`: three entries per pixel, and
   * channel c of pixel i at index 3i + c.
   */
  predicate Interleaves(pixels: seq<Pixel>, out: seq<int>)
  {
    && |out| == 3 * |pixels|
    && forall i, c :: 0 <= i < |pixels| && 0 <= c < 3 ==> out[3 * i + c] == Channel(pixels[i], c)
  }

  /**
   * The integer part of `bitmapToNormalizedFloatArray`: a fresh array of
   * `width * height * 3` entries filled pixel by pixel with the extracted
   * channels. (Each executor then scales every entry by a float expression,
   * which is not modelled.)
   */
  method UnpackChannels(bitmap: Bitmap) returns (channels: array<int>)
    requires bitmap.Valid()
    ensures channels.Length == bitmap.width * bitmap.height * 3
    ensures Interleaves(bitmap.pixels, channels[..])
  {
    channels := new int[bitmap.width * bitmap.height * 3];
    var i := 0;
    while i < |bitmap.pixels|
      invariant 0 <= i <= |bitmap.pixels|
      invariant forall k, c :: 0 <= k < i && 0 <= c < 3 ==> channels[3 * k + c] == Channel(bitmap.pixels[k], c)
    {
      var pixel := bitmap.pixels[i];
      channels[i * 3 + 0] := Red(pixel);
      channels[i * 3 + 1] := Green(pixel);
      channels[i * 3 + 2] := Blue(pixel);
      i := i + 1;
    }
  }

  /** Every entry of an interleaving is a channel value in [0, 255]. */
  lemma InterleavedInRange(pixels: seq<Pixel>, out: seq<int>)
    requires Interleaves(pixels, out)
    ensures forall k :: 0 <= k < |out| ==> 0 <= out[k] <= 255
  {
    forall k | 0 <= k < |out|
      ensures 0 <= out[k] <= 255
    {
      var i, c := k / 3, k % 3;
      assert out[3 * i + c] == Channel(pixels[i], c);
    }
  }

  /** The interleaving of a pixel array is unique: the layout leaves no entry unspecified. */
  lemma InterleavingUnique(pixels: seq<Pixel>, a: seq<int>, b: seq<int>)
    requires Interleaves(pixels, a) && Interleaves(pixels, b)
    ensures a == b
  {
    forall k | 0 <= k < |a|
      ensures a[k] == b[k]
    {
      var i, c := k / 3, k % 3;
      assert a[3 * i + c] == Channel(pixels[i], c) == b[3 * i + c];
    }
  }

  /**
   * Kotlin's `shr` on the 32 bits of an `Int`: an arithmetic shift, which
   * copies the sign bit into the k vacated high bits. (Dafny's `>>` on a
   * bit-vector is the logical shift, Kotlin's `ushr`.)
   */
  function Shr(p: bv32, k: nat): bv32
    requires k < 32
  {
    if p & 0x8000_0000 == 0 then p >> k else (p >> k) | !(0xFFFF_FFFF >> k)
  }

  /**
   * On 32-bit words, masking the arithmetic shift by 16 or 8 with 0xFF, and
   * masking the word itself, are the unsigned division and remainder used
   * above, whatever the sign bit.
   */
  lemma ShiftMaskIsDivMod(p: bv32)
    ensures Shr(p, 16) & 0xFF == (p / 0x1_0000) % 0x100
    ensures Shr(p, 8) & 0xFF == (p / 0x100) % 0x100
    ensures p & 0xFF == p % 0x100
  {
  }

  /** On 32-bit words, `or` of the shifted channel bytes is their weighted sum. */
  lemma PackOrIsSum(r: bv32, g: bv32, b: bv32)
    requires r < 0x100 && g < 0x100 && b < 0x100
    ensures (0xFF << 24) | (r << 16) | (g << 8) | b == 0xFF00_0000 + r * 0x1_0000 + g * 0x100 + b
  {
  }
}
