/**
 * The classification executor: a size guard on the preprocessed input, the
 * model run, a size guard on the scores, and a top-1 pick reported as one
 * full-frame detected object. It never emits on its error flow; failures
 * either end the invocation silently or escape it.
 *
 * Scores are reals: the float comparison (and NaN) is not modelled.
 */
module ClassificationExecutor {
  import opened Types
  import opened Pixels

  /** The MobileNetV3 working resolution (`inputSize`). */
  const InputSize: nat := 224
  /** The number of scores the model must produce (`numClasses`). */
  const NumClasses: nat := 1001

  /**
   * `output.indices.maxByOrNull { output[it] } ?: -1`: the first index holding
   * a maximal score, and -1 exactly when there are no scores. `maxByOrNull`
   * replaces its candidate only on a strictly greater score, so ties keep the
   * earliest index.
   */
  function MaxIndex(scores: seq<real>): (idx: int)
    ensures idx == -1 <==> scores == []
    ensures scores != [] ==> 0 <= idx < |scores|
    ensures scores != [] ==> forall j :: 0 <= j < |scores| ==> scores[j] <= scores[idx]
    ensures scores != [] ==> forall j :: 0 <= j < idx ==> scores[j] < scores[idx]
  {
    if |scores| == 0 then -1
    else
      var best := MaxIndex(scores[..|scores| - 1]);
      if best >= 0 && !(scores[best] < scores[|scores| - 1]) then best else |scores| - 1
  }

  /** Any index with the first-maximum property is the one `MaxIndex` picks. */
  lemma FirstMaximumUnique(scores: seq<real>, k: int)
    requires 0 <= k < |scores|
    requires forall j :: 0 <= j < |scores| ==> scores[j] <= scores[k]
    requires forall j :: 0 <= j < k ==> scores[j] < scores[k]
    ensures MaxIndex(scores) == k
  {
  }

  /**
   * The top-1 post-processing of `runAsync`, from `maxByOrNull` to the
   * `DetectedObject` it emits: the confidence is the top score (at least
   * every score; 0 when there are none), the label is `labels[maxIdx]` with
   * no offset when that index is a valid label index and "" otherwise, and
   * the box is the whole ORIGINAL input frame, not the 224 x 224 one.
   */
  function TopOne(output: seq<real>, labels: seq<string>, width: int, height: int): (d: DetectedObject)
    ensures forall j :: 0 <= j < |output| ==> output[j] <= d.confidence
    ensures output == [] ==> d.confidence == 0.0 && d.labelText == ""
    ensures output != [] ==>
      var k := MaxIndex(output);
      && d.confidence == output[k]
      && d.labelText == (if k < |labels| then labels[k] else "")
    ensures d.boundingBox == Rect(0, 0, width, height)
  {
    var maxIdx := MaxIndex(output);
    var confidence := if maxIdx >= 0 then output[maxIdx] else 0.0;
    var labelText := if 0 <= maxIdx < |labels| then labels[maxIdx] else "";
    DetectedObject(labelText, confidence, Rect(0, 0, width, height))
  }

  /**
   * `runAsync(input)` where `resized` is `input.scale(224, 224)`: nothing ever
   * goes to the error flow; a preprocessed array of the wrong size, a
   * failing run or a score array whose size is not 1001 ends the invocation
   * with no output; a failing read (outside any try) escapes; otherwise
   * exactly one list holding exactly one `TopOne` object is emitted.
   */
  method RunAsync(input: Bitmap, resized: Bitmap, labels: seq<string>, run: ModelRun<seq<real>>)
    returns (inv: Invocation<int, seq<DetectedObject>>)
    requires resized.Valid()
    ensures inv.errors == []
    ensures resized.width * resized.height * 3 != InputSize * InputSize * 3 ==>
      inv.written == None && inv.outputs == [] && inv.thrown == None
    ensures resized.width * resized.height * 3 == InputSize * InputSize * 3 ==>
      && inv.written.Some? && Interleaves(resized.pixels, inv.written.value)
      && (run.RunFails? ==> inv.outputs == [] && inv.thrown == None)
      && (run.ReadFails? ==> inv.outputs == [] && inv.thrown == Some(run.readError))
      && (run.Ran? && |run.output| != NumClasses ==> inv.outputs == [] && inv.thrown == None)
      && (run.Ran? && |run.output| == NumClasses ==>
            inv.outputs == [[TopOne(run.output, labels, input.width, input.height)]] && inv.thrown == None)
  {
    var floatArray := UnpackChannels(resized);
    inv := Invocation(None, [], [], None);
    if floatArray.Length != InputSize * InputSize * 3 {
      return;
    }
    inv := inv.(written := Some(floatArray[..]));
    match run
    case RunFails(_) =>
      return;
    case ReadFails(e) =>
      inv := inv.(thrown := Some(e));
      return;
    case Ran(output) =>
      if |output| != NumClasses {
        return;
      }
      var detected := TopOne(output, labels, input.width, input.height);
      inv := inv.(outputs := inv.outputs + [[detected]]);
  }
}
