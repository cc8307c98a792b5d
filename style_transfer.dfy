/**
 * The style-transfer executor: the unpacked 256 x 256 input is written to the
 * model, and the model's output float array is packed back into an opaque
 * ARGB bitmap of the same fixed size.
 *
 * The output floats enter the model already multiplied by 255 and truncated
 * (`(x * 255.0f).toInt()`); that float step is not modelled, so a model output
 * is the sequence of those integers.
 */
module StyleTransferExecutor {
  import opened Types
  import opened Pixels

  /** The model's working resolution (`inputSize`). */
  const InputSize: nat := 256

  /**
   * The channel value read at `index` of the output: clamped into [0, 255]
   * while `index <= floatArray.size - 1`, and 0 past the end of the array.
   */
  function SourceChannel(scaled: seq<int>, index: nat): (v: int)
    ensures 0 <= v <= 255
    ensures index < |scaled| ==> v == Clamp(scaled[index])
    ensures |scaled| <= index ==> v == 0
  {
    if index <= |scaled| - 1 then Clamp(scaled[index]) else 0
  }

  /** Pixel i of the styled bitmap is opaque and carries the source channels 3i, 3i + 1, 3i + 2. */
  predicate PackedFrom(scaled: seq<int>, i: nat, p: Pixel)
  {
    && Alpha(p) == 0xFF
    && Red(p) == SourceChannel(scaled, 3 * i)
    && Green(p) == SourceChannel(scaled, 3 * i + 1)
    && Blue(p) == SourceChannel(scaled, 3 * i + 2)
  }

  /** The loop's bounds tests against `maxIndex` read the same channels as `SourceChannel`. */
  lemma ChannelsAt(scaled: seq<int>, i: nat, maxIndex: int, r: int, g: int, b: int)
    requires maxIndex == |scaled| - 1
    requires r == (if i * 3 <= maxIndex then Clamp(scaled[i * 3]) else 0)
    requires g == (if i * 3 + 1 <= maxIndex then Clamp(scaled[i * 3 + 1]) else 0)
    requires b == (if i * 3 + 2 <= maxIndex then Clamp(scaled[i * 3 + 2]) else 0)
    ensures r == SourceChannel(scaled, 3 * i) && g == SourceChannel(scaled, 3 * i + 1) && b == SourceChannel(scaled, 3 * i + 2)
  {
  }

  /** Packed from an empty source, a pixel is opaque black. */
  lemma OpaqueBlack(i: nat, p: Pixel)
    requires PackedFrom([], i, p)
    ensures p == 0xFF00_0000
  {
    PixelOfBytes(p);
  }

  /** `bitmap` is what `floatArrayToBitmap(scaled, width, height)` builds. */
  predicate RendersFrom(scaled: seq<int>, width: nat, height: nat, bitmap: Bitmap)
  {
    && bitmap.width == width && bitmap.height == height && bitmap.Valid()
    && forall i :: 0 <= i < |bitmap.pixels| ==> PackedFrom(scaled, i, bitmap.pixels[i])
  }

  /**
   * `floatArrayToBitmap`: exactly `width * height` pixels, each opaque, with
   * every channel clamped and 0 where the source array is too short; from an
   * empty source every pixel is opaque black, 0xFF000000.
   */
  method FloatArrayToBitmap(scaled: seq<int>, width: nat, height: nat) returns (bitmap: Bitmap)
    ensures RendersFrom(scaled, width, height, bitmap)
    ensures |bitmap.pixels| == width * height
    ensures scaled == [] ==> forall i :: 0 <= i < |bitmap.pixels| ==> bitmap.pixels[i] == 0xFF00_0000
  {
    var n := width * height;
    var pixels := new Pixel[n];
    var maxIndex := |scaled| - 1;
    var i := 0;
    while i < n
      invariant 0 <= i <= n
      invariant forall k :: 0 <= k < i ==> PackedFrom(scaled, k, pixels[k])
    {
      var base := i * 3;
      var r := if base <= maxIndex then Clamp(scaled[base]) else 0;
      var g := if base + 1 <= maxIndex then Clamp(scaled[base + 1]) else 0;
      var b := if base + 2 <= maxIndex then Clamp(scaled[base + 2]) else 0;
      ChannelsAt(scaled, i, maxIndex, r, g, b);
      pixels[i] := Pack(r, g, b);
      i := i + 1;
    }
    bitmap := Bitmap(width, height, pixels[..]);
    if scaled == [] {
      forall k | 0 <= k < |bitmap.pixels|
        ensures bitmap.pixels[k] == 0xFF00_0000
      {
        OpaqueBlack(k, bitmap.pixels[k]);
      }
    }
  }

  /**
   * `runAsync` on the bitmap that `createScaledBitmap` made of the input:
   * the unpacked input is written to the model; a failing run emits exactly
   * "Run error: <message>", a failing read exactly "Output read error:
   * <message>", and success exactly one 256 x 256 styled bitmap; no exception
   * of `run` or `readFloat` escapes the invocation.
   */
  method RunAsync(resized: Bitmap, run: ModelRun<seq<int>>) returns (inv: Invocation<int, Bitmap>)
    requires resized.Valid()
    ensures inv.written.Some? && Interleaves(resized.pixels, inv.written.value)
    ensures inv.thrown == None
    ensures run.RunFails? ==> inv.outputs == [] && inv.errors == ["Run error: " + MessageText(run.runError)]
    ensures run.ReadFails? ==> inv.outputs == [] && inv.errors == ["Output read error: " + MessageText(run.readError)]
    ensures run.Ran? ==> inv.errors == [] && |inv.outputs| == 1
    ensures run.Ran? ==> RendersFrom(run.output, InputSize, InputSize, inv.outputs[0])
  {
    var floatArray := UnpackChannels(resized);
    inv := Invocation(Some(floatArray[..]), [], [], None);
    match run
    case RunFails(e) =>
      inv := inv.(errors := inv.errors + ["Run error: " + MessageText(e)]);
      return;
    case ReadFails(e) =>
      inv := inv.(errors := inv.errors + ["Output read error: " + MessageText(e)]);
      return;
    case Ran(output) =>
      var styledBitmap := FloatArrayToBitmap(output, InputSize, InputSize);
      inv := inv.(outputs := inv.outputs + [styledBitmap]);
  }
}
