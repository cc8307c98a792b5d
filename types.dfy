/**
 * Value types shared by the executors and the camera manager: Kotlin's
 * nullable values, the exceptions the executors catch or let escape, the
 * foreign model call as an input, and what one `runAsync` invocation emits.
 */
module Types {

  /** Kotlin's `T?`. */
  datatype Option<+T> = None | Some(value: T)

  /** A Kotlin `Byte`: a signed 8-bit value. */
  type Byte = b: int | -128 <= b < 128

  /** A thrown `Exception`, as far as the executors look at it: its nullable message. */
  datatype Exception = Exception(message: Option<string>)

  /** The text that the string template `"${e.message}"` produces: a null message prints as "null". */
  function MessageText(e: Exception): string
  {
    match e.message
    case Some(m) => m
    case None => "null"
  }

  /**
   * What the foreign pair `compiledModel.run(...)` followed by
   * `outputBuffers[0].readFloat()` did: both succeeded and the read gave
   * `output`, the run threw, or the run succeeded and the read threw.
   */
  datatype ModelRun<+T> =
    | Ran(output: T)
    | RunFails(runError: Exception)
    | ReadFails(readError: Exception)

  /**
   * Everything one `runAsync` invocation makes observable: the float array
   * written into `inputBuffers[0]` (None when the invocation stops before
   * writing), the values emitted on the executor's output flow and on its
   * error flow, in order, and the exception that escapes `runAsync`, if any.
   */
  datatype Invocation<+W, +O> = Invocation(
    written: Option<seq<W>>,
    outputs: seq<O>,
    errors: seq<string>,
    thrown: Option<Exception>)

  /** `android.graphics.Rect(left, top, right, bottom)`. */
  datatype Rect = Rect(left: int, top: int, right: int, bottom: int)

  /** `DetectedObject(label, confidence, boundingBox)`; `label` is a Dafny keyword, hence `labelText`; the float confidence is a real. */
  datatype DetectedObject = DetectedObject(labelText: string, confidence: real, boundingBox: Rect)
}
