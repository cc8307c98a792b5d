/**
 * The text-recognition executor: the input is resized to 320 x 320 and
 * unpacked for the model; the output decoder is still a placeholder.
 */
module OcrExecutor {
  import opened Types
  import opened Pixels

  /** The model's working resolution (`inputSize`). */
  const InputSize: nat := 320

  /** The placeholder decoder: the same text whatever the model produced. */
  function DecodeOcrOutput(output: seq<real>): (s: string)
    ensures s == "[OCR output]"
  {
    "[OCR output]"
  }

  /**
   * `runAsync` on the bitmap `createScaledBitmap` made of the input: the
   * unpacked input (3 * 320 * 320 entries for a 320 x 320 bitmap) is
   * written; a failing run emits exactly "Run error: <message>", a failing
   * read exactly "Output read error: <message>", and success exactly the
   * placeholder text; no exception of `run` or `readFloat` escapes the invocation.
   */
  method RunAsync(resized: Bitmap, run: ModelRun<seq<real>>) returns (inv: Invocation<int, string>)
    requires resized.Valid()
    ensures inv.written.Some? && Interleaves(resized.pixels, inv.written.value)
    ensures resized.width == InputSize && resized.height == InputSize ==>
      |inv.written.value| == 3 * 320 * 320
    ensures inv.thrown == None
    ensures run.RunFails? ==> inv.outputs == [] && inv.errors == ["Run error: " + MessageText(run.runError)]
    ensures run.ReadFails? ==> inv.outputs == [] && inv.errors == ["Output read error: " + MessageText(run.readError)]
    ensures run.Ran? ==> inv.errors == [] && inv.outputs == ["[OCR output]"]
  {
    var floatArray := UnpackChannels(resized);
    inv := Invocation(Some(floatArray[..]), [], [], None);
    match run
    case RunFails(e) =>
      inv := inv.(errors := inv.errors + ["Run error: " + MessageText(e)]);
      return;
    case ReadFails(e) =>
      inv := inv.(errors := inv.errors + ["Output read error: " + MessageText(e)]);
      return;
    case Ran(output) =>
      var ocrText := DecodeOcrOutput(output);
      inv := inv.(outputs := inv.outputs + [ocrText]);
  }
}
